/** The part of an Express response object the interceptors and the
    exception filter touch: whether the headers were already sent, the
    header table, the status code and the JSON body. */
module Http {
  import opened Wrappers
  import opened Json

  const ContentType := "Content-Type"
  const ContentLength := "Content-Length"
  const TransferEncoding := "Transfer-Encoding"
  const ETag := "ETag"
  const JsonContentType := "application/json; charset=utf-8"

  /** Statuses for which `res.send` drops the body and its headers. */
  predicate Bodiless(status: int)
  {
    status == 204 || status == 304
  }

  /** The headers `res.send` may rewrite or remove for a status. */
  predicate SendTouches(name: string, status: int)
  {
    name == ContentType || name == ContentLength
    || (name == TransferEncoding && (Bodiless(status) || status == 205))
  }

  /** How `res.json` and `res.send` leave the header table for a response
      sent with `status`:
      - for 204 and 304, Content-Type, Content-Length and Transfer-Encoding
        are removed; for any other status Content-Type and Content-Length
        are present, Content-Type being the JSON type when none was set (a
        type already set only gets its charset rewritten);
      - for 205, Content-Length is "0" and Transfer-Encoding is removed;
      - an ETag is present (one already set is kept);
      - no other header is added, and every other header is as before. */
  predicate SendsJsonHeaders(before: map<string, string>, after: map<string, string>, status: int)
  {
    && (Bodiless(status) ==> ContentType !in after && ContentLength !in after && TransferEncoding !in after)
    && (!Bodiless(status) ==> ContentType in after && ContentLength in after)
    && (!Bodiless(status) && ContentType !in before ==> after[ContentType] == JsonContentType)
    && (status == 205 ==> after[ContentLength] == "0" && TransferEncoding !in after)
    && ETag in after
    && (forall name :: name in after ==> name in before || name == ContentType || name == ContentLength || name == ETag)
    && (forall name :: name in before && !SendTouches(name, status) ==> name in after && after[name] == before[name])
  }

  class Response {
    var headersSent: bool
    var headers: map<string, string>
    var statusCode: int
    var body: Option<Json>

    constructor(headersSent: bool, headers: map<string, string>)
      ensures this.headersSent == headersSent && this.headers == headers
      ensures statusCode == 200 && body == None
    {
      this.headersSent := headersSent;
      this.headers := headers;
      statusCode := 200;
      body := None;
    }

    /** `res.header(name, value)`: sets (or replaces) one header. Express
        refuses to set a header once the headers are sent. */
    method Header(name: string, value: string)
      requires !headersSent
      modifies this
      ensures headers == old(headers)[name := value]
      ensures headersSent == old(headersSent) && statusCode == old(statusCode) && body == old(body)
    {
      headers := headers[name := value];
    }

    /** `res.status(status).json(body)`: sets the status, writes the body
        with the headers Express adds, and commits the response. The length
        and entity tag Express computes from the serialised body are left
        open. */
    method StatusJson(status: int, value: Json)
      requires !headersSent
      modifies this
      ensures statusCode == status && body == Some(value) && headersSent
      ensures SendsJsonHeaders(old(headers), headers, status)
    {
      var length: string :| true;
      var tag: string :| true;
      var recharset: string :| true;
      var tagged := if ETag in headers then headers else headers[ETag := tag];
      if Bodiless(status) {
        headers := tagged - {ContentType, ContentLength, TransferEncoding};
      } else {
        var typed := if ContentType in headers then recharset else JsonContentType;
        var kept := if status == 205 then tagged - {TransferEncoding} else tagged;
        headers := kept[ContentType := typed][ContentLength := if status == 205 then "0" else length];
      }
      statusCode := status;
      body := Some(value);
      headersSent := true;
    }
  }
}
