/** `WrapResponseInterceptor`: a body of the form `{data: [...], meta: {...}}`
    is rebuilt as `{data, meta}` with the body's numeric `durationMs` merged
    into `meta`; anything else passes through untouched. */
module WrapResponse {
  import opened Wrappers
  import opened Text
  import opened Json

  /** `v && typeof v === 'object'`: an object or an array (null is falsy). */
  predicate IsObject(v: Option<Json>)
  {
    v.Some? && (v.value.JObj? || v.value.JArr?)
  }

  /** The guard of the rewrite: an object body, an array `data`, an object `meta`. */
  predicate Matches(body: Option<Json>)
  {
    && IsObject(body)
    && Get(body, "data").Some? && Get(body, "data").value.JArr?
    && IsObject(Get(body, "meta"))
  }

  /** The own members `{...v}` copies: an object's members in order, or an
      array's items under the keys "0", "1", and so on. */
  function Spread(v: Json): (ms: seq<(string, Json)>)
    ensures v.JObj? ==> ms == v.members
    ensures v.JArr? ==> |ms| == |v.items| && forall k :: 0 <= k < |ms| ==> ms[k] == (IntToDecimal(k), v.items[k])
  {
    match v
    case JObj(members) => members
    case JArr(items) => seq(|items|, k requires 0 <= k < |items| => (IntToDecimal(k), items[k]))
    case _ => []
  }

  /** Assigning one property in an object literal: a key already present
      keeps its place and takes the new value, a new key goes last. */
  function Put(ms: seq<(string, Json)>, key: string, value: Json): (r: seq<(string, Json)>)
    ensures |r| == if Lookup(ms, key).Some? then |ms| else |ms| + 1
  {
    if ms == [] then [(key, value)]
    else if ms[0].0 == key then [(key, value)] + ms[1..]
    else [ms[0]] + Put(ms[1..], key, value)
  }

  /** `{...meta, ...(typeof durationMs === 'number' ? { durationMs } : {})}` */
  function WrappedMeta(meta: Json, durationMs: Option<Json>): seq<(string, Json)>
  {
    match durationMs
    case Some(JNum(d)) => Put(Spread(meta), "durationMs", JNum(d))
    case _ => Spread(meta)
  }

  /** The map callback of `intercept`. */
  function Wrap(body: Option<Json>): Option<Json>
  {
    if Matches(body) then
      var data := Get(body, "data").value;
      var meta := Get(body, "meta").value;
      Some(JObj([("data", data), ("meta", JObj(WrappedMeta(meta, Get(body, "durationMs"))))]))
    else body
  }

  // ----------------------------------------------------------------- lemmas

  /** After `Put` the key reads the new value. */
  lemma {:induction false} PutSame(ms: seq<(string, Json)>, key: string, value: Json)
    ensures Lookup(Put(ms, key, value), key) == Some(value)
  {
    if ms != [] && ms[0].0 != key {
      PutSame(ms[1..], key, value);
      assert Put(ms, key, value)[1..] == Put(ms[1..], key, value);
    }
  }

  /** `Put` leaves every other key as it was. */
  lemma {:induction false} PutOther(ms: seq<(string, Json)>, key: string, value: Json, other: string)
    requires other != key
    ensures Lookup(Put(ms, key, value), other) == Lookup(ms, other)
  {
    if ms == [] {
    } else if ms[0].0 == key {
      assert Put(ms, key, value)[1..] == ms[1..];
    } else if ms[0].0 != other {
      PutOther(ms[1..], key, value, other);
      assert Put(ms, key, value)[1..] == Put(ms[1..], key, value);
    }
  }

  /** A body the guard rejects comes back untouched. */
  lemma Untouched(body: Option<Json>)
    requires !Matches(body)
    ensures Wrap(body) == body
  {
  }

  /** A matching body becomes exactly `{data, meta'}`: only those two keys,
      `data` the body's own array, every other top-level key dropped. */
  lemma Envelope(body: Option<Json>)
    requires Matches(body)
    ensures Wrap(body).Some? && Wrap(body).value.JObj?
    ensures var out := Wrap(body).value.members;
            && |out| == 2 && out[0].0 == "data" && out[1].0 == "meta"
            && Get(Wrap(body), "data") == Get(body, "data")
            && Get(Wrap(body), "meta") == Some(JObj(WrappedMeta(Get(body, "meta").value, Get(body, "durationMs"))))
            && forall key :: key != "data" && key != "meta" ==> Get(Wrap(body), key) == None
  {
    var out := Wrap(body).value.members;
    assert "data"[0] != "meta"[0];
    LookupSkip(out, "meta");
    forall key | key != "data" && key != "meta" ensures Get(Wrap(body), key) == None {
      LookupSkip(out, key);
      LookupSkip(out[1..], key);
    }
  }

  /** `meta'` keeps every key of the spread `meta` other than `durationMs`,
      and holds the body's `durationMs` exactly when that is a number
      (overriding any `meta.durationMs`). */
  lemma MetaKeys(meta: Json, durationMs: Option<Json>, key: string)
    ensures key != "durationMs" ==> Lookup(WrappedMeta(meta, durationMs), key) == Lookup(Spread(meta), key)
    ensures durationMs.Some? && durationMs.value.JNum? ==>
              Lookup(WrappedMeta(meta, durationMs), "durationMs") == durationMs
    ensures !(durationMs.Some? && durationMs.value.JNum?) ==>
              WrappedMeta(meta, durationMs) == Spread(meta)
  {
    if durationMs.Some? && durationMs.value.JNum? {
      PutSame(Spread(meta), "durationMs", durationMs.value);
      if key != "durationMs" {
        PutOther(Spread(meta), "durationMs", durationMs.value, key);
      }
    }
  }

  /** Rewriting the rewritten body changes nothing: the output has no
      top-level `durationMs`, and its `meta` is already an object. */
  lemma Idempotent(body: Option<Json>)
    ensures Wrap(Wrap(body)) == Wrap(body)
  {
    if Matches(body) {
      Envelope(body);
      var out := Wrap(body);
      assert Get(out, "durationMs") == None;
      assert Matches(out);
    }
  }
}
