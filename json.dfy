/** JavaScript values as the interceptors and the exception filter see them:
    request and response bodies, query objects and exception payloads.
    Numbers are integral; an object is its list of own members in insertion
    order (JavaScript objects have no repeated keys, and every lookup below
    takes the first member with the key). */
module Json {
  import opened Wrappers
  import opened Text

  datatype Json =
    | JNull
    | JBool(b: bool)
    | JNum(n: int)
    | JStr(s: string)
    | JArr(items: seq<Json>)
    | JObj(members: seq<(string, Json)>)

  /** The first member with the given key. */
  function Lookup(members: seq<(string, Json)>, key: string): (r: Option<Json>)
    ensures r.Some? <==> exists k :: 0 <= k < |members| && members[k].0 == key
  {
    if members == [] then None
    else if members[0].0 == key then Some(members[0].1)
    else Lookup(members[1..], key)
  }

  /** A lookup passes over a member whose key differs. */
  lemma LookupSkip(members: seq<(string, Json)>, key: string)
    requires members != [] && members[0].0 != key
    ensures Lookup(members, key) == Lookup(members[1..], key)
  {
  }

  /** `v?.key`: the property read that yields `undefined` (None) on anything
      but an object holding the key. Only the fixed, non-index keys the core
      reads are looked up, and no array or string carries those. */
  function Get(v: Option<Json>, key: string): (r: Option<Json>)
    ensures r.Some? ==> v.Some? && v.value.JObj?
  {
    match v
    case Some(JObj(ms)) => Lookup(ms, key)
    case _ => None
  }

  /** JavaScript truthiness; None is `undefined`. */
  predicate Truthy(v: Option<Json>)
  {
    match v
    case None => false
    case Some(JNull) => false
    case Some(JBool(b)) => b
    case Some(JNum(n)) => n != 0
    case Some(JStr(s)) => s != ""
    case Some(JArr(_)) => true
    case Some(JObj(_)) => true
  }

  /** `v != null` (loose): neither null nor undefined. */
  predicate IsPresent(v: Option<Json>)
  {
    v.Some? && !v.value.JNull?
  }

  /** `String(v)`, also what a template literal `${v}` produces. */
  function ToJsString(v: Option<Json>): string
  {
    match v
    case None => "undefined"
    case Some(j) => JsonToJsString(j)
  }

  function JsonToJsString(j: Json): string
    decreases j
  {
    match j
    case JNull => "null"
    case JBool(b) => if b then "true" else "false"
    case JNum(n) => IntToDecimal(n)
    case JStr(s) => s
    // Array.prototype.toString joins with ',' and renders null as ''
    case JArr(items) =>
      Join(seq(|items|, k requires 0 <= k < |items| =>
                 if items[k].JNull? then "" else JsonToJsString(items[k])), ",")
    case JObj(_) => "[object Object]"
  }

  // --------------------------------------------------------- JSON.stringify

  function HexDigit(d: nat): char
    requires d < 16
  {
    "0123456789abcdef"[d]
  }

  /** The escape JSON.stringify writes for one character of a string. */
  function EscapeChar(c: char): string
  {
    if c == '"' then "\\\""
    else if c == '\\' then "\\\\"
    else if c as int == 0x08 then "\\b"
    else if c as int == 0x0C then "\\f"
    else if c as int == 0x0A then "\\n"
    else if c as int == 0x0D then "\\r"
    else if c as int == 0x09 then "\\t"
    else if c as int < 0x20 then "\\u00" + [HexDigit(c as int / 16), HexDigit(c as int % 16)]
    else [c]
  }

  function Quote(s: string): string
  {
    "\"" + Escape(s) + "\""
  }

  function Escape(s: string): string
  {
    if s == [] then "" else EscapeChar(s[0]) + Escape(s[1..])
  }

  /** `JSON.stringify(j)`. */
  function Stringify(j: Json): string
    decreases j
  {
    match j
    case JNull => "null"
    case JBool(b) => if b then "true" else "false"
    case JNum(n) => IntToDecimal(n)
    case JStr(s) => Quote(s)
    case JArr(items) =>
      "[" + Join(seq(|items|, k requires 0 <= k < |items| => Stringify(items[k])), ",") + "]"
    case JObj(ms) =>
      "{" + Join(seq(|ms|, k requires 0 <= k < |ms| => Quote(ms[k].0) + ":" + Stringify(ms[k].1)), ",") + "}"
  }
}
