/** `HttpErrorFilter`: turns any exception into an RFC 7807 Problem Details
    body (section 3.1 members type, title, status, detail and instance, plus
    a timestamp and optional field errors) and sends it with the same
    status, unless the response is already committed. */
module HttpErrorFilter {
  import opened Wrappers
  import opened Text
  import opened Json
  import opened Http

  /** What `HttpException.getResponse()` returns: a string or an object. */
  datatype Payload = Text(s: string) | Record(members: seq<(string, Json)>)

  /** The caught value: an `HttpException` (possibly a `BadRequestException`)
      or anything else. */
  datatype Exception =
    | NonHttpException
    | HttpException(status: int, response: Payload, message: string, name: string, isBadRequest: bool)

  /** One field-level validation error. */
  datatype ErrorDetail = ErrorDetail(field: string, message: string)

  datatype Problem = Problem(
    problemType: string,
    title: Json,
    status: int,
    detail: Json,
    instance: string,
    timestamp: string,
    errors: Option<seq<ErrorDetail>>)

  const TypePrefix := "https://httpstatuses.com/"

  /** The statuses the switch names, with their fixed title and detail. */
  const FixedTitles: map<int, (string, string)> := map[
    400 := ("BadRequest", "Validation failed"),
    401 := ("Unauthorized", "Invalid credentials"),
    403 := ("Forbidden", "Access denied"),
    404 := ("NotFound", "Resource not found"),
    409 := ("Conflict", "Conflict occurred"),
    422 := ("UnprocessableEntity", "Semantic validation failed"),
    429 := ("TooManyRequests", "Rate limit exceeded")]

  // ------------------------------------------------ validation message split

  /** `const [field, ...rest] = msg.split(' '); { field, message: rest.join(' ') }`:
      the field is the text before the first space and the message all
      that follows it. */
  function SplitMessage(msg: string): (e: ErrorDetail)
    ensures ' ' !in e.field
    ensures ' ' in msg ==> e.field + " " + e.message == msg
    ensures ' ' !in msg ==> e.field == msg && e.message == ""
  {
    var parts := Split(msg, ' ');
    SplitMessageFacts(msg);
    ErrorDetail(parts[0], Join(parts[1..], " "))
  }

  lemma SplitMessageFacts(msg: string)
    ensures var parts := Split(msg, ' ');
            && ' ' !in parts[0]
            && (' ' in msg ==> parts[0] + " " + Join(parts[1..], " ") == msg)
            && (' ' !in msg ==> parts == [msg])
  {
    var parts := Split(msg, ' ');
    SplitPartsAvoid(msg, ' ');
    if ' ' in msg {
      var i := IndexOf(msg, ' ');
      var a, b := msg[..i], msg[i + 1..];
      assert msg == a + [' '] + b;
      SplitAtFirst(a, b, ' ');
      SplitJoin(b, ' ');
      assert parts[1..] == Split(b, ' ');
    }
  }

  /** `.filter((m) => typeof m === 'string')`. */
  function Strings(items: seq<Json>): (r: seq<string>)
    ensures |r| <= |items|
    ensures forall k :: 0 <= k < |items| && items[k].JStr? ==> items[k].s in r
    ensures forall s :: s in r ==> JStr(s) in items
  {
    if items == [] then []
    else
      var rest := Strings(items[1..]);
      assert forall k :: 1 <= k < |items| ==> items[k] == items[1..][k - 1];
      if items[0].JStr? then [items[0].s] + rest else rest
  }

  /** The `errors` array: one entry per string message, split at its first space. */
  function ValidationErrors(items: seq<Json>): (r: seq<ErrorDetail>)
    ensures |r| == |Strings(items)|
    ensures forall k :: 0 <= k < |r| ==> r[k] == SplitMessage(Strings(items)[k])
  {
    var msgs := Strings(items);
    seq(|msgs|, k requires 0 <= k < |msgs| => SplitMessage(msgs[k]))
  }

  /** The filter keeps the string messages in their order: it distributes
      over concatenation. */
  lemma {:induction false} StringsConcat(a: seq<Json>, b: seq<Json>)
    ensures Strings(a + b) == Strings(a) + Strings(b)
  {
    if a == [] {
      assert a + b == b;
    } else {
      assert (a + b)[1..] == a[1..] + b;
      StringsConcat(a[1..], b);
    }
  }

  lemma StringsSingle(j: Json)
    ensures Strings([j]) == if j.JStr? then [j.s] else []
  {
  }

  // --------------------------------------------------------------- the body

  /** `errors` for a BadRequestException whose payload is an object with an
      array `message`; undefined otherwise. */
  function ErrorsOf(exc: Exception): Option<seq<ErrorDetail>>
  {
    if exc.HttpException? && exc.isBadRequest && exc.response.Record? then
      match Lookup(exc.response.members, "message")
      case Some(JArr(items)) => Some(ValidationErrors(items))
      case _ => None
    else None
  }

  /** The problem body, serialised as `res.json` writes it: `errors` is
      left out when undefined. */
  function ProblemJson(p: Problem): Json
  {
    JObj([
      ("type", JStr(p.problemType)),
      ("title", p.title),
      ("status", JNum(p.status)),
      ("detail", p.detail),
      ("instance", JStr(p.instance)),
      ("timestamp", JStr(p.timestamp))]
      + match p.errors
        case Some(es) => [("errors", JArr(seq(|es|, k requires 0 <= k < |es| =>
                             JObj([("field", JStr(es[k].field)), ("message", JStr(es[k].message))]))))]
        case None => [])
  }

  /** The written body reports the status it is sent with, its type URI and
      the request URL. */
  lemma ProblemJsonReads(p: Problem)
    ensures Get(Some(ProblemJson(p)), "status") == Some(JNum(p.status))
    ensures Get(Some(ProblemJson(p)), "type") == Some(JStr(p.problemType))
    ensures Get(Some(ProblemJson(p)), "instance") == Some(JStr(p.instance))
  {
    var ms := ProblemJson(p).members;
    LookupSkip(ms, "status");
    LookupSkip(ms[1..], "status");
    LookupSkip(ms, "instance");
    LookupSkip(ms[1..], "instance");
    LookupSkip(ms[2..], "instance");
    LookupSkip(ms[3..], "instance");
  }

  /** `x ?? fallback` on a property read. */
  function Nullish(v: Option<Json>, fallback: Json): (r: Json)
    ensures IsPresent(v) ==> r == v.value
    ensures !IsPresent(v) ==> r == fallback
  {
    if IsPresent(v) then v.value else fallback
  }

  /** The title and detail the if/switch settles on for an `HttpException`
      with the given status. */
  method TitleAndDetail(exc: Exception) returns (title: Json, detail: Json)
    requires exc.HttpException?
    ensures exc.status in FixedTitles ==>
              title == JStr(FixedTitles[exc.status].0) && detail == JStr(FixedTitles[exc.status].1)
    ensures exc.status !in FixedTitles && exc.response.Record? ==>
              detail == Nullish(Lookup(exc.response.members, "message"), JStr(exc.message))
              && title == Nullish(Lookup(exc.response.members, "error"), JStr(exc.name))
    ensures exc.status !in FixedTitles && exc.response.Text? ==>
              detail == JStr(exc.response.s) && title == JStr(exc.name)
  {
    match exc.status
    case 400 => title, detail := JStr("BadRequest"), JStr("Validation failed");
    case 401 => title, detail := JStr("Unauthorized"), JStr("Invalid credentials");
    case 403 => title, detail := JStr("Forbidden"), JStr("Access denied");
    case 404 => title, detail := JStr("NotFound"), JStr("Resource not found");
    case 409 => title, detail := JStr("Conflict"), JStr("Conflict occurred");
    case 422 => title, detail := JStr("UnprocessableEntity"), JStr("Semantic validation failed");
    case 429 => title, detail := JStr("TooManyRequests"), JStr("Rate limit exceeded");
    case _ =>
      match exc.response
      case Record(ms) =>
        detail := Nullish(Lookup(ms, "message"), JStr(exc.message));
        title := Nullish(Lookup(ms, "error"), JStr(exc.name));
      case Text(s) =>
        detail := JStr(s);
        title := JStr(exc.name);
  }

  /** `catch(exc, host)`: `url` is the request URL and `timestamp` the
      ISO time of the call. Returns the problem written, or None when the
      headers were already sent. */
  method Catch(exc: Exception, url: string, timestamp: string, res: Response) returns (written: Option<Problem>)
    modifies res
    ensures old(res.headersSent) ==> written == None && res.headers == old(res.headers)
                                     && res.statusCode == old(res.statusCode) && res.body == old(res.body)
    ensures !old(res.headersSent) ==> written.Some?
    ensures written.Some? ==>
              var p := written.value;
              && res.statusCode == p.status && res.body == Some(ProblemJson(p)) && res.headersSent
              && SendsJsonHeaders(old(res.headers), res.headers, p.status)
              && p.problemType == TypePrefix + IntToDecimal(p.status)
              && p.instance == url && p.timestamp == timestamp
              && p.errors == ErrorsOf(exc)
              && (exc.NonHttpException? ==>
                    p.status == 500 && p.title == JStr("InternalServerError") && p.detail == JStr("Internal server error"))
              && (exc.HttpException? ==> p.status == exc.status)
              && (exc.HttpException? && exc.status in FixedTitles ==>
                    p.title == JStr(FixedTitles[exc.status].0) && p.detail == JStr(FixedTitles[exc.status].1))
              && (exc.HttpException? && exc.status !in FixedTitles && exc.response.Record? ==>
                    p.detail == Nullish(Lookup(exc.response.members, "message"), JStr(exc.message))
                    && p.title == Nullish(Lookup(exc.response.members, "error"), JStr(exc.name)))
              && (exc.HttpException? && exc.status !in FixedTitles && exc.response.Text? ==>
                    p.detail == JStr(exc.response.s) && p.title == JStr(exc.name))
  {
    if res.headersSent {
      return None;
    }
    var status := 500;
    var title := JStr("InternalServerError");
    var detail := JStr("Internal server error");
    var errors: Option<seq<ErrorDetail>> := None;
    if exc.HttpException? {
      status := exc.status;
      if exc.isBadRequest && exc.response.Record? {
        var message := Lookup(exc.response.members, "message");
        if message.Some? && message.value.JArr? {
          errors := Some(ValidationErrors(message.value.items));
        }
      }
      title, detail := TitleAndDetail(exc);
    }
    var p := Problem(TypePrefix + IntToDecimal(status), title, status, detail, url, timestamp, errors);
    res.StatusJson(status, ProblemJson(p));
    written := Some(p);
  }
}
