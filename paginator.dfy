/** Offset pagination (`PaginatorService.paginate`): the skip/take window,
    the page metadata and the self/first/prev/next/last links.

    The two callbacks are made explicit: `queryFn` is a function of the
    window `(skip, take)`, and `total` is the number `countFn` resolved to.
    The source runs both concurrently with `Promise.all`; neither depends on
    the other, so the model evaluates them in sequence. */
module Paginator {
  import opened Wrappers
  import opened Text

  datatype Meta = Meta(
    total: int,
    page: int,
    pageSize: int,
    totalPages: int,
    hasNextPage: bool,
    hasPreviousPage: bool)

  /** `prev` and `next` are `string | null`: None is null. */
  datatype Links = Links(self: string, first: string, prev: Option<string>, next: Option<string>, last: string)

  datatype PagedResult<T> = PagedResult(data: seq<T>, meta: Meta, links: Links)

  const DefaultPage := 1
  const DefaultPageSize := 10

  /** `Math.ceil(a / b)` for a positive divisor, characterised by its bracket. */
  function CeilDiv(a: int, b: int): (r: int)
    requires b > 0
    ensures (r - 1) * b < a <= r * b
    ensures a == 0 ==> r == 0
  {
    -((-a) / b)
  }

  /** `take = Math.max(1, pageSize)`. */
  function Take(pageSize: int): (take: int)
    ensures take >= 1 && take >= pageSize
    ensures pageSize >= 1 ==> take == pageSize
    ensures pageSize < 1 ==> take == 1
  {
    if pageSize < 1 then 1 else pageSize
  }

  /** `skip = Math.max(0, page - 1) * take`: a non-negative multiple of take
      that is 0 for every page up to 1. */
  function Skip(page: int, take: int): (skip: int)
    requires take >= 1
    ensures skip >= 0
    ensures page <= 1 ==> skip == 0
    ensures page >= 1 ==> skip == (page - 1) * take
  {
    var pages: nat := if page - 1 < 0 then 0 else page - 1;
    pages * take
  }

  /** The builder used when the caller gives none: `?page=P&pageSize=take`. */
  function DefaultUrl(take: int, p: int): string
  {
    "?page=" + IntToDecimal(p) + "&pageSize=" + IntToDecimal(take)
  }

  function UrlFor(buildUrl: Option<int -> string>, take: int, p: int): string
  {
    match buildUrl
    case Some(f) => f(p)
    case None => DefaultUrl(take, p)
  }

  /** `paginate(queryFn, countFn, page, pageSize, buildUrl)`. */
  function Paginate<T>(
    queryFn: (int, int) -> seq<T>,
    total: int,
    page: int,
    pageSize: int,
    buildUrl: Option<int -> string>): (r: PagedResult<T>)
    // the window handed to queryFn, and what comes back untouched
    ensures var take := Take(pageSize);
            r.data == queryFn(Skip(page, take), take) && r.meta.total == total
    // meta reports the clamped page size and echoes the page as given
    ensures r.meta.pageSize == Take(pageSize)
    ensures r.meta.pageSize >= 1 && r.meta.pageSize >= pageSize
    ensures pageSize >= 1 ==> r.meta.pageSize == pageSize
    ensures r.meta.page == page
    // totalPages is the ceiling of total / pageSize
    ensures (r.meta.totalPages - 1) * r.meta.pageSize < total <= r.meta.totalPages * r.meta.pageSize
    ensures total == 0 ==> r.meta.totalPages == 0
    ensures r.meta.hasNextPage <==> page < r.meta.totalPages
    ensures r.meta.hasPreviousPage <==> page > 1
    // the links
    ensures r.links.self == UrlFor(buildUrl, r.meta.pageSize, page)
    ensures r.links.first == UrlFor(buildUrl, r.meta.pageSize, 1)
    ensures r.links.last == UrlFor(buildUrl, r.meta.pageSize, r.meta.totalPages)
    ensures r.links.prev.None? <==> !r.meta.hasPreviousPage
    ensures r.links.prev.Some? ==> r.links.prev.value == UrlFor(buildUrl, r.meta.pageSize, page - 1)
    ensures r.links.next.None? <==> !r.meta.hasNextPage
    ensures r.links.next.Some? ==> r.links.next.value == UrlFor(buildUrl, r.meta.pageSize, page + 1)
  {
    var take := Take(pageSize);
    var skip := Skip(page, take);
    var data := queryFn(skip, take);
    var totalPages := CeilDiv(total, take);
    var hasNextPage := page < totalPages;
    var hasPreviousPage := page > 1;
    var links := Links(
      UrlFor(buildUrl, take, page),
      UrlFor(buildUrl, take, 1),
      if hasPreviousPage then Some(UrlFor(buildUrl, take, page - 1)) else None,
      if hasNextPage then Some(UrlFor(buildUrl, take, page + 1)) else None,
      UrlFor(buildUrl, take, totalPages));
    PagedResult(data, Meta(total, page, take, totalPages, hasNextPage, hasPreviousPage), links)
  }

  /** `paginate` called with `page` or `pageSize` left undefined (None):
      the parameter defaults apply, so an omitted page is the first page,
      which has no previous page, and an omitted size lists ten rows a page. */
  function PaginateWithDefaults<T>(
    queryFn: (int, int) -> seq<T>,
    total: int,
    page: Option<int>,
    pageSize: Option<int>,
    buildUrl: Option<int -> string>): (r: PagedResult<T>)
    ensures page.Some? ==> r.meta.page == page.value
    ensures page.None? ==> r.meta.page == 1 && !r.meta.hasPreviousPage && r.links.prev.None?
    ensures pageSize.None? ==> r.meta.pageSize == 10
                               && r.data == queryFn(if page.None? then 0 else Skip(page.value, 10), 10)
    ensures pageSize.Some? ==> r.meta.pageSize == Take(pageSize.value)
  {
    Paginate(queryFn, total, page.GetOr(DefaultPage), pageSize.GetOr(DefaultPageSize), buildUrl)
  }

  // ----------------------------------------------------------------- lemmas

  /** With no rows at all there are no pages and the `last` link points at
      page 0; neither flag is set for a page of 0 or 1 (the page is not
      clamped, so a negative page still reports a next page). */
  lemma EmptyTotal<T>(queryFn: (int, int) -> seq<T>, page: int, pageSize: int, buildUrl: Option<int -> string>)
    ensures var r := Paginate(queryFn, 0, page, pageSize, buildUrl);
            && r.meta.totalPages == 0
            && (page >= 0 ==> !r.meta.hasNextPage && r.links.next.None?)
            && (page <= 1 ==> !r.meta.hasPreviousPage && r.links.prev.None?)
            && r.links.last == UrlFor(buildUrl, r.meta.pageSize, 0)
  {
  }

  /** A query that slices a table of rows. */
  function Window<T>(rows: seq<T>, skip: int, take: int): (w: seq<T>)
    requires skip >= 0 && take >= 0
  {
    if skip >= |rows| then [] else rows[skip..if skip + take <= |rows| then skip + take else |rows|]
  }

  /** When queryFn slices the same table that countFn counts, a page holds
      `max(0, min(take, total - skip))` rows, and a page past the last one is
      empty. */
  lemma {:induction false} WindowedPageSize<T>(rows: seq<T>, page: int, pageSize: int, buildUrl: Option<int -> string>)
    ensures var take := Take(pageSize);
            var skip := Skip(page, take);
            var r := Paginate((s: int, t: int) => if s >= 0 && t >= 0 then Window(rows, s, t) else [], |rows|, page, pageSize, buildUrl);
            && |r.data| == (if |rows| - skip < 0 then 0 else if take < |rows| - skip then take else |rows| - skip)
            && (page > r.meta.totalPages && page >= 1 ==> r.data == [])
  {
    var take := Take(pageSize);
    var skip := Skip(page, take);
    var r := Paginate((s: int, t: int) => if s >= 0 && t >= 0 then Window(rows, s, t) else [], |rows|, page, pageSize, buildUrl);
    assert r.data == Window(rows, skip, take);
    if page > r.meta.totalPages && page >= 1 {
      var tp := r.meta.totalPages;
      assert |rows| <= tp * take;
      assert tp <= page - 1;
      MulMonotone(tp, page - 1, take);
      assert skip == (page - 1) * take;
    }
  }

  lemma MulMonotone(a: int, b: int, c: int)
    requires a <= b && c >= 0
    ensures a * c <= b * c
  {
  }

  /** The part of a default URL after the page number. */
  function PageSizeTail(take: int): string
  {
    "pageSize=" + IntToDecimal(take)
  }

  lemma TailAvoidsAmpersand(take: int)
    ensures '&' !in PageSizeTail(take)
  {
    var tail := PageSizeTail(take);
    var d := IntToDecimal(take);
    DecimalAvoids(take, '&');
    forall k | 0 <= k < |tail| ensures tail[k] != '&' {
      if k >= 9 { assert tail[k] == d[k - 9]; }
    }
  }

  lemma DefaultUrlShape(take: int, p: int)
    ensures DefaultUrl(take, p)[6..] == Join([IntToDecimal(p), PageSizeTail(take)], "&")
    ensures |DefaultUrl(take, p)| >= 6
  {
  }

  /** With the default builder every link is `?page=P&pageSize=take`, and two
      such links are equal exactly when their page numbers are: the links
      differ in P only. */
  lemma {:induction false} DefaultUrlDiffersOnlyInPage(take: int, p: int, q: int)
    ensures DefaultUrl(take, p) == DefaultUrl(take, q) <==> p == q
  {
    if DefaultUrl(take, p) == DefaultUrl(take, q) {
      TailAvoidsAmpersand(take);
      DecimalAvoids(p, '&');
      DecimalAvoids(q, '&');
      DefaultUrlShape(take, p);
      DefaultUrlShape(take, q);
      var parts := [IntToDecimal(p), PageSizeTail(take)];
      var qarts := [IntToDecimal(q), PageSizeTail(take)];
      JoinSplit(parts, '&');
      JoinSplit(qarts, '&');
      assert parts == qarts;
      IntToDecimalInjective(p, q);
    }
  }

  /** Without a builder, the links of a result are default-builder URLs
      that all carry the reported page size. */
  lemma DefaultLinks<T>(queryFn: (int, int) -> seq<T>, total: int, page: int, pageSize: int)
    ensures var r := Paginate(queryFn, total, page, pageSize, None);
            var take := r.meta.pageSize;
            && r.links.self == DefaultUrl(take, page)
            && r.links.first == DefaultUrl(take, 1)
            && r.links.last == DefaultUrl(take, r.meta.totalPages)
            && (r.links.prev.Some? ==> r.links.prev.value == DefaultUrl(take, page - 1))
            && (r.links.next.Some? ==> r.links.next.value == DefaultUrl(take, page + 1))
  {
  }
}
