/** `StripeService`: the SDK calls whose failures are turned into `null` or
    `false`, and the grouping of active prices under their products. The SDK
    itself is not modelled: each call's outcome is an input. */
module StripeService {
  import opened Wrappers

  // ------------------------------------------------ failures become null/false

  /** `try { return await call } catch { return null }`: the value on
      success, `null` (None) on any failure. */
  function OrNull<T>(outcome: Result<T, string>): (r: Option<T>)
    ensures r.Some? <==> outcome.Success?
    ensures r.Some? ==> r.value == outcome.value
  {
    match outcome
    case Success(v) => Some(v)
    case Failure(_) => None
  }

  /** What `validateWebhook` returns: the verified event, or `false`. */
  datatype WebhookCheck<E> = Event(event: E) | Rejected

  function ValidateWebhook<E>(outcome: Result<E, string>): (r: WebhookCheck<E>)
    ensures r.Rejected? <==> outcome.Failure?
    ensures r.Event? ==> r.event == outcome.value
  {
    match outcome
    case Success(e) => Event(e)
    case Failure(_) => Rejected
  }

  // ------------------------------------------------------------- the catalog

  datatype Product = Product(id: string, active: bool, name: Option<string>, description: Option<string>, images: seq<string>)

  datatype Recurring = Recurring(interval: string, intervalCount: int)

  /** A price as listed with its product expanded; `nickname` stands for the
      fields the DTO does not copy. */
  datatype Price = Price(
    id: string,
    unitAmount: Option<int>,
    currency: string,
    recurring: Option<Recurring>,
    nickname: Option<string>,
    product: Product)

  datatype PriceDto = PriceDto(id: string, unitAmount: Option<int>, currency: string, recurring: Option<Recurring>)

  datatype ProductDto = ProductDto(
    id: string,
    name: Option<string>,
    description: Option<string>,
    images: seq<string>,
    prices: seq<PriceDto>)

  /** One accumulator slot: the product as first seen and its prices. */
  datatype Group = Group(product: Product, prices: seq<Price>)

  /** Step 2: drop prices whose product is archived. */
  function ActivePrices(prices: seq<Price>): (r: seq<Price>)
    ensures |r| <= |prices|
    ensures forall p :: p in r ==> p in prices && p.product.active
    ensures forall p :: p in prices && p.product.active ==> p in r
  {
    if prices == [] then []
    else
      var rest := ActivePrices(prices[..|prices| - 1]);
      var last := prices[|prices| - 1];
      assert forall p :: p in prices[..|prices| - 1] ==> p in prices;
      assert forall p :: p in prices ==> p in prices[..|prices| - 1] || p == last;
      if last.product.active then rest + [last] else rest
  }

  /** The filter keeps input order and multiplicity: the active prices of
      two stretches of the list are those of the first followed by those
      of the second, and a single price is kept exactly when its product is
      active. */
  lemma {:induction false} ActivePricesConcat(a: seq<Price>, b: seq<Price>)
    ensures ActivePrices(a + b) == ActivePrices(a) + ActivePrices(b)
    ensures |a| == 1 ==> ActivePrices(a) == if a[0].product.active then a else []
  {
    if |a| == 1 {
      assert a[..0] == [];
    }
    if b == [] {
      assert a + b == a;
    } else {
      var init := b[..|b| - 1];
      assert (a + b)[..|a + b| - 1] == a + init;
      assert (a + b)[|a + b| - 1] == b[|b| - 1];
      ActivePricesConcat(a, init);
    }
  }

  /** The product ids in the order they first appear. */
  function FirstIds(ps: seq<Price>): (ids: seq<string>)
  {
    if ps == [] then []
    else
      var ids := FirstIds(ps[..|ps| - 1]);
      var id := ps[|ps| - 1].product.id;
      if id in ids then ids else ids + [id]
  }

  /** The prices of one product, in input order. */
  function PricesOf(ps: seq<Price>, id: string): (r: seq<Price>)
    ensures |r| <= |ps|
    ensures forall p :: p in r ==> p in ps && p.product.id == id
  {
    if ps == [] then []
    else
      var init := ps[..|ps| - 1];
      var last := ps[|ps| - 1];
      assert forall p :: p in init ==> p in ps;
      PricesOf(init, id) + (if last.product.id == id then [last] else [])
  }

  /** The product object of the first price with the given id. */
  function FirstProduct(ps: seq<Price>, id: string): (r: Option<Product>)
    ensures r.Some? ==> r.value.id == id
  {
    if ps == [] then None
    else
      var g := FirstProduct(ps[..|ps| - 1], id);
      if g.Some? then g
      else if ps[|ps| - 1].product.id == id then Some(ps[|ps| - 1].product)
      else None
  }

  function ToPriceDto(p: Price): PriceDto
  {
    PriceDto(p.id, p.unitAmount, p.currency, p.recurring)
  }

  /** Step 4 for one group: the product's four fields and its stripped prices. */
  function ToProductDto(g: Group): (d: ProductDto)
    ensures d.id == g.product.id && d.name == g.product.name
    ensures d.description == g.product.description && d.images == g.product.images
    ensures |d.prices| == |g.prices|
    ensures forall k :: 0 <= k < |g.prices| ==> d.prices[k] == ToPriceDto(g.prices[k])
  {
    ProductDto(g.product.id, g.product.name, g.product.description, g.product.images,
      seq(|g.prices|, k requires 0 <= k < |g.prices| => ToPriceDto(g.prices[k])))
  }

  /** The listing the service returns for a page of listed prices. */
  ghost function Catalog(prices: seq<Price>): seq<ProductDto>
  {
    var active := ActivePrices(prices);
    var ids := FirstIds(active);
    seq(|ids|, k requires 0 <= k < |ids| =>
      ToProductDto(Group(if FirstProduct(active, ids[k]).Some? then FirstProduct(active, ids[k]).value
                         else active[0].product,
                         PricesOf(active, ids[k]))))
  }

  // ---------------------------------------------------- facts about the groups

  lemma {:induction false} FirstIdsCover(ps: seq<Price>, id: string)
    ensures id in FirstIds(ps) <==> FirstProduct(ps, id).Some?
    ensures FirstProduct(ps, id).Some? <==> PricesOf(ps, id) != []
  {
    if ps != [] {
      FirstIdsCover(ps[..|ps| - 1], id);
    }
  }

  /** Each product id appears once. */
  lemma {:induction false} FirstIdsDistinct(ps: seq<Price>)
    ensures forall i, j :: 0 <= i < j < |FirstIds(ps)| ==> FirstIds(ps)[i] != FirstIds(ps)[j]
  {
    if ps != [] {
      FirstIdsDistinct(ps[..|ps| - 1]);
    }
  }

  /** Grouping distributes over concatenation: the prices of a product in
      `a + b` are those in `a` followed by those in `b`. */
  lemma {:induction false} PricesOfConcat(a: seq<Price>, b: seq<Price>, id: string)
    ensures PricesOf(a + b, id) == PricesOf(a, id) + PricesOf(b, id)
    decreases |b|
  {
    if b == [] {
      assert a + b == a;
    } else {
      var b0 := b[..|b| - 1];
      assert (a + b)[..|a + b| - 1] == a + b0;
      assert (a + b)[|a + b| - 1] == b[|b| - 1];
      PricesOfConcat(a, b0, id);
    }
  }

  /** The total size of the groups of the given ids. */
  function GroupSizes(ps: seq<Price>, ids: seq<string>): nat
  {
    if ids == [] then 0 else |PricesOf(ps, ids[0])| + GroupSizes(ps, ids[1..])
  }

  /** Appending one price adds one to the group of its product only. */
  lemma {:induction false} GroupSizesStep(ps: seq<Price>, p: Price, ids: seq<string>)
    ensures GroupSizes(ps + [p], ids) == GroupSizes(ps, ids) + Occurrences(ids, p.product.id)
  {
    if ids != [] {
      PricesOfConcat(ps, [p], ids[0]);
      GroupSizesStep(ps, p, ids[1..]);
    }
  }

  function Occurrences(ids: seq<string>, id: string): nat
  {
    if ids == [] then 0 else (if ids[0] == id then 1 else 0) + Occurrences(ids[1..], id)
  }

  lemma {:induction false} GroupSizesAppend(ps: seq<Price>, ids: seq<string>, id: string)
    ensures GroupSizes(ps, ids + [id]) == GroupSizes(ps, ids) + |PricesOf(ps, id)|
    ensures Occurrences(ids + [id], id) == Occurrences(ids, id) + 1
  {
    if ids == [] {
      assert ids + [id] == [id];
    } else {
      assert (ids + [id])[1..] == ids[1..] + [id];
      GroupSizesAppend(ps, ids[1..], id);
    }
  }

  lemma {:induction false} OccurrencesAbsent(ids: seq<string>, id: string)
    requires id !in ids
    ensures Occurrences(ids, id) == 0
  {
    if ids != [] {
      OccurrencesAbsent(ids[1..], id);
    }
  }

  lemma {:induction false} OccurrencesOnce(ps: seq<Price>, id: string)
    requires id in FirstIds(ps)
    ensures Occurrences(FirstIds(ps), id) == 1
  {
    var ids := FirstIds(ps);
    if ps != [] {
      var init := ps[..|ps| - 1];
      var last := ps[|ps| - 1].product.id;
      var prev := FirstIds(init);
      if last in prev {
        OccurrencesOnce(init, id);
      } else {
        GroupSizesAppend(ps, prev, last);
        if id == last {
          OccurrencesAbsent(prev, id);
        } else {
          OccurrencesOnce(init, id);
          OccurrencesAppendOther(prev, last, id);
        }
      }
    }
  }

  lemma {:induction false} OccurrencesAppendOther(ids: seq<string>, x: string, id: string)
    requires x != id
    ensures Occurrences(ids + [x], id) == Occurrences(ids, id)
  {
    if ids == [] {
      assert ids + [x] == [x];
    } else {
      assert (ids + [x])[1..] == ids[1..] + [x];
      OccurrencesAppendOther(ids[1..], x, id);
    }
  }

  lemma {:induction false} GroupSizesNoPrices(ps: seq<Price>, ids: seq<string>)
    requires forall k :: 0 <= k < |ids| ==> PricesOf(ps, ids[k]) == []
    ensures GroupSizes(ps, ids) == 0
  {
    if ids != [] {
      GroupSizesNoPrices(ps, ids[1..]);
    }
  }

  /** Every price lands in exactly one group: the group sizes add up to the
      number of prices. */
  lemma {:induction false} GroupSizesTotal(ps: seq<Price>)
    ensures GroupSizes(ps, FirstIds(ps)) == |ps|
  {
    if ps != [] {
      var init := ps[..|ps| - 1];
      var p := ps[|ps| - 1];
      var prev := FirstIds(init);
      assert ps == init + [p];
      GroupSizesTotal(init);
      GroupSizesStep(init, p, prev);
      if p.product.id in prev {
        OccurrencesOnce(init, p.product.id);
      } else {
        OccurrencesAbsent(prev, p.product.id);
        GroupSizesAppend(ps, prev, p.product.id);
        GroupSizesAppend(init, prev, p.product.id);
        FirstIdsCover(init, p.product.id);
        GroupSizesStep(init, p, prev);
        PricesOfConcat(init, [p], p.product.id);
      }
    }
  }

  // ------------------------------------------------- the reduce, step by step

  /** What one more price does to the ids, first products and price lists. */
  lemma GroupStep(ps: seq<Price>, i: nat)
    requires i < |ps|
    ensures var init, p := ps[..i], ps[i];
            && FirstIds(ps[..i + 1]) == (if p.product.id in FirstIds(init) then FirstIds(init) else FirstIds(init) + [p.product.id])
            && (forall id :: FirstProduct(ps[..i + 1], id) ==
                  if FirstProduct(init, id).Some? then FirstProduct(init, id)
                  else if p.product.id == id then Some(p.product) else None)
            && (forall id :: PricesOf(ps[..i + 1], id) == PricesOf(init, id) + (if p.product.id == id then [p] else []))
  {
    assert ps[..i + 1][..i] == ps[..i] && ps[..i + 1][i] == ps[i];
  }

  /** Step 3: the `reduce` over the active prices. `order` records the
      accumulator's keys in insertion order, which is the order
      `Object.values` lists them in. */
  method GroupByProduct(active: seq<Price>) returns (order: seq<string>, acc: map<string, Group>)
    ensures order == FirstIds(active)
    ensures forall id :: id in acc <==> id in order
    ensures forall id :: id in acc ==>
              FirstProduct(active, id).Some? && acc[id] == Group(FirstProduct(active, id).value, PricesOf(active, id))
  {
    order, acc := [], map[];
    var i := 0;
    while i < |active|
      invariant 0 <= i <= |active|
      invariant order == FirstIds(active[..i])
      invariant forall id :: id in acc <==> id in order
      invariant forall id :: id in acc ==>
                  FirstProduct(active[..i], id).Some?
                  && acc[id] == Group(FirstProduct(active[..i], id).value, PricesOf(active[..i], id))
    {
      var price := active[i];
      var product := price.product;
      GroupStep(active, i);
      if product.id !in acc {
        FirstIdsCover(active[..i], product.id);
        acc := acc[product.id := Group(product, [])];
        order := order + [product.id];
      }
      acc := acc[product.id := Group(acc[product.id].product, acc[product.id].prices + [price])];
      i := i + 1;
    }
    assert active[..i] == active;
  }

  /** `listActiveProductsWithPrices` once the SDK has listed `prices`. */
  method ListActiveProductsWithPrices(prices: seq<Price>) returns (out: seq<ProductDto>)
    ensures out == Catalog(prices)
  {
    var active := ActivePrices(prices);
    var order, grouped := GroupByProduct(active);
    out := seq(|order|, k requires 0 <= k < |order| && order[k] in grouped => ToProductDto(grouped[order[k]]));
  }

  /** What the listing promises: one entry per product among the active
      prices, no id twice, each carrying exactly its product's active prices
      in input order, and as many prices in all as there are active prices. */
  lemma CatalogFacts(prices: seq<Price>)
    ensures var c := Catalog(prices);
            var active := ActivePrices(prices);
            && (forall i, j :: 0 <= i < j < |c| ==> c[i].id != c[j].id)
            && (forall id :: (exists k :: 0 <= k < |c| && c[k].id == id) <==> PricesOf(active, id) != [])
            && (forall k :: 0 <= k < |c| ==> |c[k].prices| == |PricesOf(active, c[k].id)|)
            && GroupSizes(active, FirstIds(active)) == |active|
  {
    var active := ActivePrices(prices);
    var ids := FirstIds(active);
    var c := Catalog(prices);
    FirstIdsDistinct(active);
    GroupSizesTotal(active);
    forall k | 0 <= k < |ids| ensures FirstProduct(active, ids[k]).Some? && c[k].id == ids[k] {
      FirstIdsCover(active, ids[k]);
    }
    forall id ensures (exists k :: 0 <= k < |c| && c[k].id == id) <==> PricesOf(active, id) != [] {
      FirstIdsCover(active, id);
      if id in ids {
        var k :| 0 <= k < |ids| && ids[k] == id;
        assert c[k].id == id;
      }
    }
  }
}
