/** `RefreshTokenService`: refresh-token rotation with a blacklist of spent
    tokens. Rotating a token the user already spent is refused, which is
    what detects a stolen token being replayed; a daily job forgets the
    blacklisted tokens that have expired anyway. */
module RefreshToken {
  import opened Wrappers

  /** One row of the refreshTokens table: a spent token, when it expires
      (milliseconds) and whose it was. */
  datatype Entry = Entry(token: string, expiresAt: int, userId: string)

  const InvalidRefreshToken := "Invalid refresh token."

  /** `isRefreshTokenBlackListed(token, userId)`: a row with that token for
      that user; the expiry is not looked at. */
  predicate Blacklisted(blacklist: set<Entry>, token: string, userId: string)
  {
    exists e :: e in blacklist && e.token == token && e.userId == userId
  }

  /** `currentRefreshToken && currentRefreshTokenExpiresAt`: a non-empty
      token and an expiry (a Date object is always truthy). */
  predicate Rotates(currentToken: Option<string>, expiresAt: Option<int>)
  {
    currentToken.Some? && currentToken.value != "" && expiresAt.Some?
  }

  /** The rows `deleteMany({ expiresAt: { lte: now } })` leaves. */
  function Unexpired(blacklist: set<Entry>, now: int): (r: set<Entry>)
    ensures r <= blacklist
    ensures forall e :: e in blacklist && e.expiresAt > now ==> e in r
    ensures forall e :: e in r ==> e.expiresAt > now
  {
    set e | e in blacklist && e.expiresAt > now
  }

  /** Blacklisting is per (token, user) pair: spending a token for one user
      does not blacklist it for another, nor another token for that user. */
  lemma PairScoped(blacklist: set<Entry>, spent: Entry, token: string, userId: string)
    requires spent.token != token || spent.userId != userId
    ensures Blacklisted(blacklist + {spent}, token, userId) <==> Blacklisted(blacklist, token, userId)
  {
    if Blacklisted(blacklist + {spent}, token, userId) {
      var e :| e in blacklist + {spent} && e.token == token && e.userId == userId;
      assert e in blacklist;
    }
  }

  /** A spent token is blacklisted for its user whatever its expiry. */
  lemma SpentIsBlacklisted(blacklist: set<Entry>, spent: Entry)
    ensures Blacklisted(blacklist + {spent}, spent.token, spent.userId)
  {
    assert spent in blacklist + {spent};
  }

  /** The daily clean-up only ever forgets: it never blacklists anything,
      and a spent token that has not expired stays blacklisted. */
  lemma CleanupForgetsOnlyExpired(blacklist: set<Entry>, now: int, token: string, userId: string)
    ensures Blacklisted(Unexpired(blacklist, now), token, userId) ==> Blacklisted(blacklist, token, userId)
    ensures (exists e :: e in blacklist && e.token == token && e.userId == userId && e.expiresAt > now)
            ==> Blacklisted(Unexpired(blacklist, now), token, userId)
  {
    if Blacklisted(Unexpired(blacklist, now), token, userId) {
      var e :| e in Unexpired(blacklist, now) && e.token == token && e.userId == userId;
      assert e in blacklist;
    }
  }

  class RefreshTokenService {
    var blacklist: set<Entry>

    constructor()
      ensures blacklist == {}
    {
      blacklist := {};
    }

    /** `generateRefreshToken(userId, currentToken, expiresAt)`; `newToken`
        is what the JWT service signs for `{ sub: userId }`. */
    method GenerateRefreshToken(userId: string, currentToken: Option<string>, expiresAt: Option<int>, newToken: string)
      returns (r: Result<string, string>)
      modifies this
      ensures !Rotates(currentToken, expiresAt) ==> r == Success(newToken) && blacklist == old(blacklist)
      ensures Rotates(currentToken, expiresAt) && Blacklisted(old(blacklist), currentToken.value, userId) ==>
                r == Failure(InvalidRefreshToken) && blacklist == old(blacklist)
      ensures Rotates(currentToken, expiresAt) && !Blacklisted(old(blacklist), currentToken.value, userId) ==>
                var spent := Entry(currentToken.value, expiresAt.value, userId);
                && r == Success(newToken)
                && spent !in old(blacklist)
                && blacklist == old(blacklist) + {spent}
      ensures r.Success? && Rotates(currentToken, expiresAt) ==> Blacklisted(blacklist, currentToken.value, userId)
    {
      if currentToken.Some? && currentToken.value != "" && expiresAt.Some? {
        var listed := IsRefreshTokenBlacklisted(currentToken.value, userId);
        if listed {
          return Failure(InvalidRefreshToken);
        }
        var spent := Entry(currentToken.value, expiresAt.value, userId);
        SpentIsBlacklisted(blacklist, spent);
        blacklist := blacklist + {spent};
      }
      r := Success(newToken);
    }

    /** `isRefreshTokenBlackListed`: `findFirst({ token, userId })`. */
    method IsRefreshTokenBlacklisted(token: string, userId: string) returns (listed: bool)
      ensures listed <==> Blacklisted(blacklist, token, userId)
    {
      listed := exists e :: e in blacklist && e.token == token && e.userId == userId;
    }

    /** `clearExpiredRefreshTokens` at time `now`. */
    method ClearExpiredRefreshTokens(now: int)
      modifies this
      ensures blacklist == Unexpired(old(blacklist), now)
      ensures forall e :: e in blacklist <==> e in old(blacklist) && e.expiresAt > now
    {
      blacklist := Unexpired(blacklist, now);
    }
  }

  /** Reuse detection: once a token has been rotated, presenting it again
      for the same user is refused, with nothing recorded. */
  method ReplayIsRefused(service: RefreshTokenService, userId: string, token: string, expiresAt: int, first: string, second: string)
    returns (r1: Result<string, string>, r2: Result<string, string>)
    requires token != ""
    modifies service
    ensures r1.Success? ==> r2 == Failure(InvalidRefreshToken) && service.blacklist == old(service.blacklist) + {Entry(token, expiresAt, userId)}
    ensures r1.Failure? ==> Blacklisted(old(service.blacklist), token, userId) && r2 == r1
  {
    r1 := service.GenerateRefreshToken(userId, Some(token), Some(expiresAt), first);
    r2 := service.GenerateRefreshToken(userId, Some(token), Some(expiresAt), second);
  }
}
