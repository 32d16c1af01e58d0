/** `CacheVersioningInterceptor`: an in-memory response cache keyed by the
    request's method, URL, query and body, with a one-minute lifetime, that
    records one cache hit or one cache miss per request in the metrics. */
module CacheVersioning {
  import opened Wrappers
  import opened Text
  import opened Json
  import Metrics

  /** The parts of the request the key is built from: `verb` is the HTTP
      method, and `query` and `body` are None when undefined. */
  datatype Request = Request(verb: string, originalUrl: string, query: Option<Json>, body: Option<Json>)

  /** What the cache holds: when it was stored, and the handler's response. */
  datatype CachedResponse = CachedResponse(timestamp: int, data: Option<Json>)

  /** The lifetime of an entry, in milliseconds. */
  const Ttl := 60 * 1000

  /** `JSON.stringify(v)` inside a template literal: undefined renders as
      "undefined". */
  function StringifyOpt(v: Option<Json>): string
  {
    match v
    case None => "undefined"
    case Some(j) => Stringify(j)
  }

  /** `${method}:${originalUrl}:${JSON.stringify(query)}:${JSON.stringify(body)}` */
  function CacheKey(req: Request): string
  {
    req.verb + ":" + req.originalUrl + ":" + StringifyOpt(req.query) + ":" + StringifyOpt(req.body)
  }

  /** The key's first two ':'-separated fields are the method and the URL
      when neither holds a ':'; so two requests sharing a key share both. */
  lemma KeyFields(req: Request)
    requires ':' !in req.verb && ':' !in req.originalUrl
    ensures |Split(CacheKey(req), ':')| >= 2
    ensures Split(CacheKey(req), ':')[0] == req.verb
    ensures Split(CacheKey(req), ':')[1] == req.originalUrl
  {
    var rest := StringifyOpt(req.query) + ":" + StringifyOpt(req.body);
    var tail := req.originalUrl + [':'] + rest;
    assert CacheKey(req) == req.verb + [':'] + tail;
    SplitAtFirst(req.verb, tail, ':');
    SplitAtFirst(req.originalUrl, rest, ':');
  }

  lemma SameKeySameRoute(a: Request, b: Request)
    requires ':' !in a.verb && ':' !in a.originalUrl
    requires ':' !in b.verb && ':' !in b.originalUrl
    requires CacheKey(a) == CacheKey(b)
    ensures a.verb == b.verb && a.originalUrl == b.originalUrl
  {
    KeyFields(a);
    KeyFields(b);
  }

  /** `entry && now - entry.timestamp < this.ttl`: an entry exactly one
      lifetime old has expired. */
  predicate IsHit(cache: map<string, CachedResponse>, key: string, now: int)
  {
    key in cache && now - cache[key].timestamp < Ttl
  }

  /** The response a request at `now` is served from the cache, if any. */
  function Serve(cache: map<string, CachedResponse>, key: string, now: int): (r: Option<Option<Json>>)
    ensures r.Some? <==> IsHit(cache, key, now)
    ensures r.Some? ==> r.value == cache[key].data
  {
    if IsHit(cache, key, now) then Some(cache[key].data) else None
  }

  /** The `tap` after a miss: a response that arrives overwrites the key
      with the request time; a handler that fails stores nothing. */
  function Store(cache: map<string, CachedResponse>, key: string, now: int, response: Result<Option<Json>, string>)
    : (c: map<string, CachedResponse>)
    ensures response.Failure? ==> c == cache
    ensures response.Success? ==> key in c && c[key] == CachedResponse(now, response.value)
    ensures forall k :: k != key ==> (k in c <==> k in cache) && (k in c ==> c[k] == cache[k])
  {
    if response.Success? then cache[key := CachedResponse(now, response.value)] else cache
  }

  /** A stored response is served to the same key for exactly one lifetime
      after the request that stored it, and other keys are served as before. */
  lemma StoredIsServed(cache: map<string, CachedResponse>, key: string, now: int, data: Option<Json>, later: int, other: string)
    requires other != key
    ensures var c := Store(cache, key, now, Success(data));
            && (Serve(c, key, later).Some? <==> later - now < Ttl)
            && (later - now < Ttl ==> Serve(c, key, later) == Some(data))
            && Serve(c, other, later) == Serve(cache, other, later)
  {
  }

  /** A failed handler leaves the cache as it was, so the next request for
      the key at the same instant is a miss again. */
  lemma FailureNotCached(cache: map<string, CachedResponse>, key: string, now: int, error: string)
    requires !IsHit(cache, key, now)
    ensures !IsHit(Store(cache, key, now, Failure(error)), key, now)
  {
  }

  class CacheVersioningInterceptor {
    const metrics: Metrics.MetricsService
    var cache: map<string, CachedResponse>

    constructor(metrics: Metrics.MetricsService)
      ensures this.metrics == metrics && cache == map[]
    {
      this.metrics := metrics;
      cache := map[];
    }

    /** One request at time `now`. `response` is what the handler would
        produce; on a hit it is not used. Returns the response sent and
        whether it came from the cache. */
    method Intercept(req: Request, now: int, response: Result<Option<Json>, string>)
      returns (sent: Result<Option<Json>, string>, hit: bool)
      requires metrics.Valid()
      modifies this, metrics
      ensures metrics.Valid() && metrics.recorded == old(metrics.recorded)
      ensures hit <==> IsHit(old(cache), CacheKey(req), now)
      ensures hit ==> sent == Success(Serve(old(cache), CacheKey(req), now).value)
      ensures !hit ==> sent == response
      ensures cache == if hit then old(cache) else Store(old(cache), CacheKey(req), now, response)
      ensures metrics.State() == old(metrics.State()).(
                cacheHits := old(metrics.cacheHits) + (if hit then 1 else 0),
                cacheMisses := old(metrics.cacheMisses) + (if hit then 0 else 1))
      ensures metrics.cacheHits + metrics.cacheMisses == old(metrics.cacheHits) + old(metrics.cacheMisses) + 1
    {
      var key := CacheKey(req);
      if key in cache && now - cache[key].timestamp < Ttl {
        metrics.RecordCacheHit();
        sent, hit := Success(cache[key].data), true;
        return;
      }
      metrics.RecordCacheMiss();
      sent, hit := response, false;
      if response.Success? {
        cache := cache[key := CachedResponse(now, response.value)];
      }
    }
  }
}
