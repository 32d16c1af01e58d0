/** `PaginationHeadersInterceptor`: exposes the pagination headers to
    browsers and, when the response body carries a total and links, copies
    them into `X-Total-Count` and a `Link` header (the Web Linking header of
    RFC 8288, section 3). The body itself
    passes through unchanged. */
module PaginationHeaders {
  import opened Wrappers
  import opened Text
  import opened Json
  import opened Http
  import Paginator

  const ExposeHeader := "Access-Control-Expose-Headers"
  const ExposeValue := "X-Total-Count, Link"
  const TotalHeader := "X-Total-Count"
  const LinkHeader := "Link"

  /** The first half of `intercept`: before the handler runs, expose the two
      headers unless the response is already committed. */
  method Expose(res: Response)
    modifies res
    ensures res.headers == if old(res.headersSent) then old(res.headers)
                           else old(res.headers)[ExposeHeader := ExposeValue]
    ensures res.headersSent == old(res.headersSent) && res.statusCode == old(res.statusCode)
    ensures res.body == old(res.body)
  {
    if !res.headersSent {
      res.Header(ExposeHeader, ExposeValue);
    }
  }

  /** `body?.meta?.total != null && body?.links` */
  predicate HasPagination(body: Option<Json>)
  {
    IsPresent(Get(Get(body, "meta"), "total")) && Truthy(Get(body, "links"))
  }

  /** One entry of the Link header: `<url>; rel="name"`. */
  function Entry(url: Option<Json>, rel: string): string
  {
    "<" + ToJsString(url) + ">; rel=\"" + rel + "\""
  }

  /** The rel names in the order the entries are pushed: first, prev when
      truthy, self, next when truthy, last. */
  function Rels(links: Option<Json>): (r: seq<string>)
    ensures |r| == 3 + (if Truthy(Get(links, "prev")) then 1 else 0) + (if Truthy(Get(links, "next")) then 1 else 0)
    ensures r[0] == "first" && r[|r| - 1] == "last"
    ensures "prev" in r <==> Truthy(Get(links, "prev"))
    ensures "next" in r <==> Truthy(Get(links, "next"))
    ensures "self" in r
  {
    ["first"]
      + (if Truthy(Get(links, "prev")) then ["prev"] else [])
      + ["self"]
      + (if Truthy(Get(links, "next")) then ["next"] else [])
      + ["last"]
  }

  /** `[e]` when the condition holds, nothing otherwise. */
  function OptionalEntry(c: bool, e: string): (r: seq<string>)
    ensures |r| == if c then 1 else 0
  {
    if c then [e] else []
  }

  /** The Link header entries, one per rel of `Rels`. */
  function LinkEntries(links: Option<Json>): (r: seq<string>)
    ensures |r| == |Rels(links)|
  {
    [Entry(Get(links, "first"), "first")]
      + OptionalEntry(Truthy(Get(links, "prev")), Entry(Get(links, "prev"), "prev"))
      + [Entry(Get(links, "self"), "self")]
      + OptionalEntry(Truthy(Get(links, "next")), Entry(Get(links, "next"), "next"))
      + [Entry(Get(links, "last"), "last")]
  }

  /** The entry for one rel: `<url>; rel="name"`, pointing at that link. */
  function EntryFor(links: Option<Json>, rel: string): string
  {
    Entry(Get(links, rel), rel)
  }

  /** Each entry points at the link named by its rel. */
  lemma LinkEntriesFollowRels(links: Option<Json>)
    ensures forall k :: 0 <= k < |LinkEntries(links)| ==> LinkEntries(links)[k] == EntryFor(links, Rels(links)[k])
  {
    var rels, r := Rels(links), LinkEntries(links);
    var p, n := Truthy(Get(links, "prev")), Truthy(Get(links, "next"));
    var names := ["first"] + (if p then ["prev"] else []) + ["self"] + (if n then ["next"] else []) + ["last"];
    assert rels == names;
    assert r == [EntryFor(links, "first")] + (if p then [EntryFor(links, "prev")] else []) + [EntryFor(links, "self")]
                + (if n then [EntryFor(links, "next")] else []) + [EntryFor(links, "last")];
    EntriesOfNames(links, p, n);
  }

  /** The five-slot shape shared by the rel names and the entries. */
  lemma EntriesOfNames(links: Option<Json>, p: bool, n: bool)
    ensures var names := ["first"] + (if p then ["prev"] else []) + ["self"] + (if n then ["next"] else []) + ["last"];
            var es := [EntryFor(links, "first")] + (if p then [EntryFor(links, "prev")] else []) + [EntryFor(links, "self")]
                      + (if n then [EntryFor(links, "next")] else []) + [EntryFor(links, "last")];
            |es| == |names| && forall k :: 0 <= k < |es| ==> es[k] == EntryFor(links, names[k])
  {
  }

  /** The entries pushed one by one, as the source builds them. */
  method BuildLinkValue(links: Option<Json>) returns (value: string)
    ensures value == Join(LinkEntries(links), ", ")
  {
    var first, prev, self, next, last :=
      Entry(Get(links, "first"), "first"), Entry(Get(links, "prev"), "prev"), Entry(Get(links, "self"), "self"),
      Entry(Get(links, "next"), "next"), Entry(Get(links, "last"), "last");
    var hasPrev, hasNext := Truthy(Get(links, "prev")), Truthy(Get(links, "next"));
    var entries: seq<string> := [first];
    if hasPrev {
      entries := entries + [prev];
    }
    assert entries == [first] + OptionalEntry(hasPrev, prev);
    entries := entries + [self];
    if hasNext {
      entries := entries + [next];
    }
    assert entries == [first] + OptionalEntry(hasPrev, prev) + [self] + OptionalEntry(hasNext, next);
    entries := entries + [last];
    value := Join(entries, ", ");
  }

  /** The `tap` callback: when the response is still open and the body
      carries pagination, set `X-Total-Count` to the total and `Link` to the
      entries; the body is returned unchanged in every case. */
  method OnBody(res: Response, body: Option<Json>) returns (out: Option<Json>)
    modifies res
    ensures out == body
    ensures res.headers ==
              if old(res.headersSent) || !HasPagination(body) then old(res.headers)
              else old(res.headers)[TotalHeader := ToJsString(Get(Get(body, "meta"), "total"))]
                                   [LinkHeader := Join(LinkEntries(Get(body, "links")), ", ")]
    ensures res.headersSent == old(res.headersSent) && res.statusCode == old(res.statusCode)
    ensures res.body == old(res.body)
  {
    out := body;
    if res.headersSent {
      return;
    }
    if HasPagination(body) {
      res.Header(TotalHeader, ToJsString(Get(Get(body, "meta"), "total")));
      var links := Get(body, "links");
      var value := BuildLinkValue(links);
      res.Header(LinkHeader, value);
    }
  }

  // ------------------------------------------- the paginator's JSON output

  function OptionalUrl(u: Option<string>): Json
  {
    match u
    case Some(s) => JStr(s)
    case None => JNull
  }

  function MetaJson(m: Paginator.Meta): Json
  {
    JObj([
      ("total", JNum(m.total)),
      ("page", JNum(m.page)),
      ("pageSize", JNum(m.pageSize)),
      ("totalPages", JNum(m.totalPages)),
      ("hasNextPage", JBool(m.hasNextPage)),
      ("hasPreviousPage", JBool(m.hasPreviousPage))])
  }

  function LinksJson(l: Paginator.Links): Json
  {
    JObj([
      ("self", JStr(l.self)),
      ("first", JStr(l.first)),
      ("prev", OptionalUrl(l.prev)),
      ("next", OptionalUrl(l.next)),
      ("last", JStr(l.last))])
  }

  /** A paginated result as the JSON body the controllers return. */
  function PagedJson(r: Paginator.PagedResult<Json>): Json
  {
    JObj([("data", JArr(r.data)), ("meta", MetaJson(r.meta)), ("links", LinksJson(r.links))])
  }

  /** What the interceptor reads from such a body: the total, and prev and
      next links that are truthy exactly when they are non-empty URLs. */
  lemma PagedJsonReads(r: Paginator.PagedResult<Json>)
    ensures var body := Some(PagedJson(r));
            && Get(Get(body, "meta"), "total") == Some(JNum(r.meta.total))
            && Get(body, "links") == Some(LinksJson(r.links))
            && (Truthy(Get(Get(body, "links"), "prev")) <==> r.links.prev.Some? && r.links.prev.value != "")
            && (Truthy(Get(Get(body, "links"), "next")) <==> r.links.next.Some? && r.links.next.value != "")
  {
    var ms := PagedJson(r).members;
    LookupSkip(ms, "meta");
    LookupSkip(ms, "links");
    LookupSkip(ms[1..], "links");
    assert Get(Some(PagedJson(r)), "links") == Some(LinksJson(r.links));
    LinksJsonReads(r.links);
  }

  /** The prev and next links read back from the links object. */
  lemma LinksJsonReads(l: Paginator.Links)
    ensures Get(Some(LinksJson(l)), "prev") == Some(OptionalUrl(l.prev))
    ensures Get(Some(LinksJson(l)), "next") == Some(OptionalUrl(l.next))
  {
    var lm := LinksJson(l).members;
    LookupSkip(lm, "prev");
    LookupSkip(lm[1..], "prev");
    LookupSkip(lm, "next");
    LookupSkip(lm[1..], "next");
    LookupSkip(lm[2..], "next");
  }

  /** The X-Total-Count header of a numeric total reads back as that total. */
  lemma TotalHeaderRoundTrip(body: Option<Json>, total: int)
    requires Get(Get(body, "meta"), "total") == Some(JNum(total))
    ensures HasPagination(body) <==> Truthy(Get(body, "links"))
    ensures ParseDecimal(ToJsString(Get(Get(body, "meta"), "total"))) == Some(total)
  {
    IntDecimalRoundTrip(total);
  }

  lemma DefaultUrlNonEmpty(take: int, p: int)
    ensures Paginator.UrlFor(None, take, p) != ""
  {
  }

  /** For a paginator result with the default links, the headers are
      always set, and the Link header lists prev exactly when there is a
      previous page and next exactly when there is a next page. */
  lemma PaginatorHeaders(queryFn: (int, int) -> seq<Json>, total: int, page: int, pageSize: int)
    ensures var r := Paginator.Paginate(queryFn, total, page, pageSize, None);
            var body := Some(PagedJson(r));
            var links := Get(body, "links");
            && HasPagination(body)
            && ("prev" in Rels(links) <==> r.meta.hasPreviousPage)
            && ("next" in Rels(links) <==> r.meta.hasNextPage)
            && |LinkEntries(links)| == 3 + (if r.meta.hasPreviousPage then 1 else 0) + (if r.meta.hasNextPage then 1 else 0)
  {
    var r := Paginator.Paginate(queryFn, total, page, pageSize, None);
    PagedJsonReads(r);
    DefaultUrlNonEmpty(r.meta.pageSize, page - 1);
    DefaultUrlNonEmpty(r.meta.pageSize, page + 1);
  }
}
