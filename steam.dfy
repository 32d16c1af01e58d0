/** `SteamService`: the account id to SteamID64 conversion and the choice of
    the first player in a player-summaries response. */
module Steam {
  import opened Wrappers
  import opened Text
  import opened Json

  /** The SteamID64 of account 0. */
  const SteamBaseId := 76561197960265728

  /** `(STEAM_BASE_ID + BigInt(accountId)).toString()`. */
  function SteamId3To64(accountId: int): string
  {
    IntToDecimal(SteamBaseId + accountId)
  }

  /** The decimal string reads back as the base plus the account id. */
  lemma SteamIdValue(accountId: int)
    ensures ParseDecimal(SteamId3To64(accountId)) == Some(SteamBaseId + accountId)
  {
    IntDecimalRoundTrip(SteamBaseId + accountId);
  }

  /** Distinct accounts get distinct SteamID64s, read back in the same order,
      and a non-negative account is at least the base. */
  lemma SteamIdInjectiveMonotone(a: int, b: int)
    ensures SteamId3To64(a) == SteamId3To64(b) <==> a == b
    ensures a <= b <==> ParseDecimal(SteamId3To64(a)).value <= ParseDecimal(SteamId3To64(b)).value
    ensures a >= 0 ==> ParseDecimal(SteamId3To64(a)).value >= SteamBaseId
  {
    IntToDecimalInjective(SteamBaseId + a, SteamBaseId + b);
    SteamIdValue(a);
    SteamIdValue(b);
  }

  datatype PlayerSummary = PlayerSummary(
    nickname: Option<Json>,
    profileUrl: Option<Json>,
    avatar: Option<Json>,
    locationCountry: Option<Json>)

  /** `v.length` of an array or a string; undefined on anything else. */
  function Length(v: Option<Json>): (n: Option<int>)
    ensures n.Some? ==> n.value >= 0
  {
    match v
    case Some(JArr(items)) => Some(|items|)
    case Some(JStr(s)) => Some(|s|)
    case _ => None
  }

  /** `v[0]` of a non-empty array or string. */
  function First(v: Option<Json>): Option<Json>
    requires Length(v).Some? && Length(v).value > 0
  {
    match v
    case Some(JArr(items)) => Some(items[0])
    case Some(JStr(s)) => Some(JStr([s[0]]))
  }

  /** `getPlayerSummary` once the HTTP call has produced
      `response.data.response.players`. */
  function PlayerSummaryOf(players: Option<Json>): (r: Result<PlayerSummary, string>)
    ensures r.Failure? <==> !Truthy(players) || Length(players).None? || Length(players).value == 0
    ensures r.Failure? ==> r.error == "Player not found"
    ensures players.Some? && players.value.JArr? && |players.value.items| > 0 ==>
              var p := Some(players.value.items[0]);
              r == Success(PlayerSummary(Get(p, "personaname"), Get(p, "profileurl"), Get(p, "avatarfull"), Get(p, "loccountrycode")))
  {
    if Truthy(players) && Length(players).Some? && Length(players).value > 0 then
      var player := First(players);
      Success(PlayerSummary(
        Get(player, "personaname"),
        Get(player, "profileurl"),
        Get(player, "avatarfull"),
        Get(player, "loccountrycode")))
    else Failure("Player not found")
  }

  /** Only the first player counts: players after it never change the result. */
  lemma FirstPlayerOnly(first: Json, rest: seq<Json>, other: seq<Json>)
    ensures PlayerSummaryOf(Some(JArr([first] + rest))) == PlayerSummaryOf(Some(JArr([first] + other)))
  {
  }
}
