/** `ServerHealthService`: probes the eleven game-server ports of one host,
    turns each A2S reply into a readable record through fixed code tables,
    keeps the servers that answered, and caches the whole answer for thirty
    seconds. The two A2S queries of a port are one input (`Probe`); a port
    whose queries fail is `None`. */
module ServerHealth {
  import opened Wrappers
  import opened Text

  /** The fields of an A2S_INFO reply the service reads; None is a field the
      reply left undefined or null. The four coded fields are always part of
      the reply. */
  datatype InfoReply = InfoReply(
    name: Option<string>,
    mapName: Option<string>,
    players: Option<int>,
    maxPlayers: Option<int>,
    bots: Option<int>,
    serverType: string,
    environment: string,
    visibility: int,
    vac: int,
    version: Option<string>)

  /** One entry of an A2S_PLAYER reply. */
  datatype PlayerReply = PlayerReply(index: int, name: string, score: int, duration: int)

  /** What the two queries of one port returned, when both succeeded. */
  datatype Probe = Probe(info: InfoReply, players: seq<PlayerReply>)

  datatype PlayerInfo = PlayerInfo(name: string, score: int, duration: int)

  datatype ServerInfo = ServerInfo(
    name: string,
    address: string,
    mapName: string,
    players: string,
    bots: int,
    serverType: string,
    environment: string,
    visibility: string,
    vac: string,
    version: string,
    playerList: seq<PlayerInfo>)

  /** `timestamp` is the instant of the refresh, in milliseconds. */
  datatype HealthCheck = HealthCheck(ip: string, timestamp: int, servers: seq<ServerInfo>)

  /** How long an answer is reused, in milliseconds. */
  const CacheTtl := 30 * 1000

  // ------------------------------------------------------------ code tables

  function ServerTypeName(code: string): string
  {
    if code == "d" then "dedicated"
    else if code == "l" then "listen"
    else if code == "p" then "SourceTV proxy"
    else code
  }

  function EnvironmentName(code: string): string
  {
    if code == "l" then "Linux"
    else if code == "w" then "Windows"
    else if code == "m" || code == "o" then "macOS"
    else code
  }

  function VisibilityName(code: int): string
  {
    if code == 0 then "public" else if code == 1 then "private" else IntToDecimal(code)
  }

  function VacName(code: int): string
  {
    if code == 0 then "disabled" else if code == 1 then "enabled" else IntToDecimal(code)
  }

  /** The code tables translate exactly the listed codes: every other code
      comes back as itself (numbers in decimal), and a listed code never does,
      so the reader can tell a known code from a raw one. */
  lemma CodeTables(serverType: string, environment: string, visibility: int, vac: int)
    ensures (ServerTypeName(serverType) == serverType) <==> serverType !in ["d", "l", "p"]
    ensures (EnvironmentName(environment) == environment) <==> environment !in ["l", "w", "m", "o"]
    ensures (VisibilityName(visibility) == IntToDecimal(visibility)) <==> visibility !in [0, 1]
    ensures (VacName(vac) == IntToDecimal(vac)) <==> vac !in [0, 1]
  {
    LetterCodes(serverType, environment);
    NumberCodes(visibility);
    NumberCodes(vac);
  }

  lemma LetterCodes(serverType: string, environment: string)
    ensures (ServerTypeName(serverType) == serverType) <==> serverType !in ["d", "l", "p"]
    ensures (EnvironmentName(environment) == environment) <==> environment !in ["l", "w", "m", "o"]
  {
  }

  /** A number code is shown raw exactly when it is neither 0 nor 1. */
  lemma NumberCodes(code: int)
    ensures (VisibilityName(code) == IntToDecimal(code)) <==> code !in [0, 1]
    ensures (VacName(code) == IntToDecimal(code)) <==> code !in [0, 1]
  {
    if code == 0 || code == 1 {
      IntDecimalRoundTrip(code);
      assert |IntToDecimal(code)| == 1;
    }
  }

  // -------------------------------------------------------- one server's record

  /** `${info.players ?? 'N/A'}`. */
  function CountText(n: Option<int>): string
  {
    if n.Some? then IntToDecimal(n.value) else "N/A"
  }

  function Address(ip: string, port: nat): string
  {
    ip + ":" + NatToDecimal(port)
  }

  /** `fetchIServerInfo` once the queries have run: None when they failed. */
  function ServerInfoOf(ip: string, port: nat, probe: Option<Probe>): (r: Option<ServerInfo>)
    ensures r.Some? <==> probe.Some?
    ensures r.Some? ==> |r.value.playerList| == |probe.value.players|
  {
    match probe
    case None => None
    case Some(Probe(info, players)) =>
      Some(ServerInfo(
        info.name.GetOr("Unnamed Server"),
        Address(ip, port),
        info.mapName.GetOr("N/A"),
        CountText(info.players) + "/" + CountText(info.maxPlayers),
        info.bots.GetOr(0),
        ServerTypeName(info.serverType),
        EnvironmentName(info.environment),
        VisibilityName(info.visibility),
        VacName(info.vac),
        info.version.GetOr("unknown"),
        seq(|players|, k requires 0 <= k < |players| =>
              PlayerInfo(players[k].name, players[k].score, players[k].duration))))
  }

  /** The address is the host and the port around a ':', and reads back
      as both when the host holds no ':'. When the reply
      holds both counts, the player text is those two counts around a single
      '/'. (A missing count reads "N/A", which holds a '/' of its own.) The
      name, map, bot count and version fall back to "Unnamed Server", "N/A",
      0 and "unknown", and each coded field goes through its table, about
      which `CodeTables` speaks. */
  lemma ServerInfoFields(ip: string, port: nat, p: Probe)
    ensures var s := ServerInfoOf(ip, port, Some(p)).value;
            && s.address == ip + ":" + NatToDecimal(port)
            && (':' !in ip ==> Split(s.address, ':') == [ip, NatToDecimal(port)])
            && (p.info.players.Some? && p.info.maxPlayers.Some? ==>
                  Split(s.players, '/') == [IntToDecimal(p.info.players.value), IntToDecimal(p.info.maxPlayers.value)])
            && s.name == (if p.info.name.Some? then p.info.name.value else "Unnamed Server")
            && s.mapName == (if p.info.mapName.Some? then p.info.mapName.value else "N/A")
            && s.bots == (if p.info.bots.Some? then p.info.bots.value else 0)
            && s.version == (if p.info.version.Some? then p.info.version.value else "unknown")
            && s.serverType == ServerTypeName(p.info.serverType)
            && s.environment == EnvironmentName(p.info.environment)
            && s.visibility == VisibilityName(p.info.visibility)
            && s.vac == VacName(p.info.vac)
            && (forall k :: 0 <= k < |p.players| ==>
                  s.playerList[k] == PlayerInfo(p.players[k].name, p.players[k].score, p.players[k].duration))
  {
    if ':' !in ip {
      AddressSplits(ip, port);
    }
    if p.info.players.Some? && p.info.maxPlayers.Some? {
      CountsSplit(p.info.players.value, p.info.maxPlayers.value);
    }
  }

  lemma AddressSplits(ip: string, port: nat)
    requires ':' !in ip
    ensures Split(Address(ip, port), ':') == [ip, NatToDecimal(port)]
  {
    var port' := NatToDecimal(port);
    DecimalAvoids(port, ':');
    assert Address(ip, port) == ip + [':'] + port';
    SplitAtFirst(ip, port', ':');
  }

  lemma CountsSplit(players: int, maxPlayers: int)
    ensures Split(CountText(Some(players)) + "/" + CountText(Some(maxPlayers)), '/') ==
              [IntToDecimal(players), IntToDecimal(maxPlayers)]
  {
    var a, b := IntToDecimal(players), IntToDecimal(maxPlayers);
    DecimalAvoids(players, '/');
    DecimalAvoids(maxPlayers, '/');
    assert a + "/" + b == a + ['/'] + b;
    SplitAtFirst(a, b, '/');
    assert Split(b, '/') == [b];
  }

  // ------------------------------------------------------------ all servers

  /** `Array.from({ length: 11 }, (_, i) => 27015 + i)`. */
  function Ports(): (ps: seq<nat>)
    ensures |ps| == 11
    ensures forall k :: 0 <= k < |ps| ==> ps[k] == 27015 + k
  {
    seq(11, k requires 0 <= k < 11 => 27015 + k)
  }

  /** The ports run from 27015 to 27025, each once, in increasing order. */
  lemma PortsRange()
    ensures Ports()[0] == 27015 && Ports()[|Ports()| - 1] == 27025
    ensures forall i, j :: 0 <= i < j < |Ports()| ==> Ports()[i] < Ports()[j]
    ensures forall p :: p in Ports() <==> 27015 <= p <= 27025
  {
    var ps := Ports();
    forall p | 27015 <= p <= 27025 ensures p in ps {
      assert ps[p - 27015] == p;
    }
  }

  /** `infos.filter(s => s !== null)`: the present values, in order. */
  function Present(xs: seq<Option<ServerInfo>>): (r: seq<ServerInfo>)
    ensures |r| <= |xs|
    ensures forall x :: x in r <==> Some(x) in xs
  {
    if xs == [] then []
    else (if xs[0].Some? then [xs[0].value] else []) + Present(xs[1..])
  }

  /** Filtering works part by part, so order is kept: what answered on an
      earlier port comes earlier. */
  lemma {:induction false} PresentAppend(a: seq<Option<ServerInfo>>, b: seq<Option<ServerInfo>>)
    ensures Present(a + b) == Present(a) + Present(b)
  {
    if a != [] {
      assert (a + b)[0] == a[0] && (a + b)[1..] == a[1..] + b;
      PresentAppend(a[1..], b);
    } else {
      assert a + b == b;
    }
  }

  /** The probe results of every port, in port order. */
  function Infos(ip: string, probe: nat -> Option<Probe>): (r: seq<Option<ServerInfo>>)
    ensures |r| == |Ports()|
    ensures forall k :: 0 <= k < |r| ==> r[k] == ServerInfoOf(ip, Ports()[k], probe(Ports()[k]))
  {
    var ps := Ports();
    seq(|ps|, k requires 0 <= k < |ps| => ServerInfoOf(ip, ps[k], probe(ps[k])))
  }

  function Servers(ip: string, probe: nat -> Option<Probe>): seq<ServerInfo>
  {
    Present(Infos(ip, probe))
  }

  /** A server is listed exactly when some port answered with it; a port that
      fails drops out without failing the whole check; and when every port
      answers, all eleven are listed in port order. */
  lemma ServersAreAnswers(ip: string, probe: nat -> Option<Probe>)
    ensures forall s :: s in Servers(ip, probe) <==>
              exists k :: 0 <= k < |Ports()| && ServerInfoOf(ip, Ports()[k], probe(Ports()[k])) == Some(s)
    ensures (forall k :: 0 <= k < |Ports()| ==> probe(Ports()[k]).Some?) ==>
              |Servers(ip, probe)| == |Ports()| &&
              forall k :: 0 <= k < |Ports()| ==>
                Servers(ip, probe)[k] == ServerInfoOf(ip, Ports()[k], probe(Ports()[k])).value
  {
    var xs := Infos(ip, probe);
    if forall k :: 0 <= k < |Ports()| ==> probe(Ports()[k]).Some? {
      AllPresent(xs);
    }
  }

  lemma {:induction false} AllPresent(xs: seq<Option<ServerInfo>>)
    requires forall k :: 0 <= k < |xs| ==> xs[k].Some?
    ensures |Present(xs)| == |xs|
    ensures forall k :: 0 <= k < |xs| ==> Present(xs)[k] == xs[k].value
  {
    if xs != [] {
      AllPresent(xs[1..]);
    }
  }

  /** The answer a call at `now` gives from the cache, if it is still fresh. */
  function Cached(cache: Option<HealthCheck>, lastCacheTime: int, now: int): (r: Option<HealthCheck>)
    ensures r.Some? <==> cache.Some? && now - lastCacheTime < CacheTtl
    ensures r.Some? ==> r == cache
  {
    if cache.Some? && now - lastCacheTime < CacheTtl then cache else None
  }

  class ServerHealthService {
    var cache: Option<HealthCheck>
    var lastCacheTime: int

    constructor()
      ensures cache == None && lastCacheTime == 0
    {
      cache := None;
      lastCacheTime := 0;
    }

    /** `getHealthCheck` at time `now`, for host `ip`; `probe(port)` is what
        querying that port would give. */
    method GetHealthCheck(now: int, ip: string, probe: nat -> Option<Probe>) returns (r: HealthCheck)
      modifies this
      ensures Cached(old(cache), old(lastCacheTime), now).Some? ==>
                r == old(cache).value && cache == old(cache) && lastCacheTime == old(lastCacheTime)
      ensures Cached(old(cache), old(lastCacheTime), now).None? ==>
                r == HealthCheck(ip, now, Servers(ip, probe)) && cache == Some(r) && lastCacheTime == now
    {
      if cache.Some? && now - lastCacheTime < CacheTtl {
        return cache.value;
      }
      r := HealthCheck(ip, now, Servers(ip, probe));
      cache := Some(r);
      lastCacheTime := now;
    }
  }

  /** After a refresh at `t`, every call before `t + 30000` is served the
      same answer, and the first call at or after it refreshes again. */
  lemma RefreshWindow(r: HealthCheck, t: int, later: int)
    requires t <= later
    ensures Cached(Some(r), t, later) == (if later < t + CacheTtl then Some(r) else None)
  {
  }
}
