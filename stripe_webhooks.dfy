/** `StripeWebhooksService`: the rules by which Stripe events create and
    update rows of the subscriptions table, and the hourly sweep that
    expires one-time payments. The table is a field of the service; the
    user lookup and the Stripe SDK reads are function parameters. */
module StripeWebhooks {
  import opened Wrappers
  import opened Text

  /** One row of the subscriptions table. */
  datatype Subscription = Subscription(
    id: string,
    name: string,
    userId: string,
    startDate: int,
    endDate: int,
    status: string,
    stripeSubscriptionId: string,
    subscriptionType: string)

  datatype User = User(id: string)

  /** `item.price.product`: an id, or the expanded product object. */
  datatype ProductRef = ProductId(s: string) | ProductObject(id: string)

  /** A Checkout Session as the events carry it; `customer` and
      `subscription` are None when null. */
  datatype CheckoutSession = CheckoutSession(
    id: string,
    mode: string,
    paymentStatus: string,
    customer: Option<string>,
    subscription: Option<string>)

  /** The session re-read with its line items; `lineItems` is None when
      `line_items?.data` is undefined. */
  datatype FullSession = FullSession(customer: Option<string>, lineItems: Option<seq<ProductRef>>)

  /** A Stripe subscription with its items' products. Periods are in seconds. */
  datatype StripeSubscription = StripeSubscription(
    id: string,
    status: string,
    currentPeriodStart: int,
    currentPeriodEnd: int,
    items: seq<ProductRef>)

  datatype Charge = Charge(amount: int, amountRefunded: int, invoice: Option<string>)

  datatype Invoice = Invoice(id: string)

  /** How a handler ends: normally, with a NotFoundException, or with
      another error. */
  datatype Outcome = Done | NotFound(message: string) | Error(message: string)

  /** Thirty days in milliseconds. */
  const PaymentWindow := 30 * 24 * 60 * 60 * 1000

  /** `String(v)` of a nullable string. */
  function StringOf(v: Option<string>): string
  {
    v.GetOr("null")
  }

  /** `typeof p === 'string' ? p : p.id` */
  function ProductIdOf(p: ProductRef): string
  {
    match p
    case ProductId(s) => s
    case ProductObject(id) => id
  }

  function ProductIds(items: seq<ProductRef>): (ids: seq<string>)
    ensures |ids| == |items| && forall k :: 0 <= k < |items| ==> ids[k] == ProductIdOf(items[k])
  {
    seq(|items|, k requires 0 <= k < |items| => ProductIdOf(items[k]))
  }

  /** An environment variable is used only when set to a non-empty string. */
  predicate Configured(v: Option<string>)
  {
    v.Some? && v.value != ""
  }

  /** The type a purchase of the given products is recorded with: '2' for
      the whitelist product, else '1' for the VIP product, else '0'; the
      whitelist wins when both are present. */
  function TypeOf(whitelistId: Option<string>, vipId: Option<string>, productIds: seq<string>): (t: string)
    ensures t == "2" <==> Configured(whitelistId) && whitelistId.value in productIds
    ensures t == "1" <==> !(Configured(whitelistId) && whitelistId.value in productIds)
                          && Configured(vipId) && vipId.value in productIds
    ensures t == "0" <==> !(Configured(whitelistId) && whitelistId.value in productIds)
                          && !(Configured(vipId) && vipId.value in productIds)
  {
    if Configured(whitelistId) && whitelistId.value in productIds then "2"
    else if Configured(vipId) && vipId.value in productIds then "1"
    else "0"
  }

  /** The `let subscriptionType` chain, run step by step. */
  method SubscriptionType(whitelistId: Option<string>, vipId: Option<string>, productIds: seq<string>)
    returns (t: string)
    ensures t == TypeOf(whitelistId, vipId, productIds)
  {
    t := "0";
    if Configured(whitelistId) && whitelistId.value in productIds {
      t := "2";
    } else if Configured(vipId) && vipId.value in productIds {
      t := "1";
    }
  }

  /** The status a completed payment-mode checkout is recorded with. */
  function CheckoutStatus(paymentStatus: string): (s: string)
    ensures s == "active" <==> paymentStatus == "paid"
    ensures s == "active" || s == "pending"
  {
    if paymentStatus == "paid" then "active" else "pending"
  }

  // ------------------------------------------------------- table operations

  /** `findFirst({ where: { stripeSubscriptionId } })`: the first row, in
      table order, with that Stripe id. */
  function FindByStripeId(t: seq<Subscription>, sid: string): (r: Option<nat>)
    ensures r.Some? ==> r.value < |t| && t[r.value].stripeSubscriptionId == sid
                        && forall k :: 0 <= k < r.value ==> t[k].stripeSubscriptionId != sid
    ensures r.None? ==> forall k :: 0 <= k < |t| ==> t[k].stripeSubscriptionId != sid
  {
    if t == [] then None
    else if t[0].stripeSubscriptionId == sid then Some(0)
    else
      match FindByStripeId(t[1..], sid)
      case Some(k) => Some(k + 1)
      case None => None
  }

  predicate HasId(t: seq<Subscription>, id: string)
  {
    exists k :: 0 <= k < |t| && t[k].id == id
  }

  /** `update({ where: { id }, data: { status } })` on a row that exists. */
  function SetStatus(t: seq<Subscription>, id: string, status: string): (r: seq<Subscription>)
    ensures |r| == |t|
    ensures forall k :: 0 <= k < |t| ==> r[k] == if t[k].id == id then t[k].(status := status) else t[k]
  {
    seq(|t|, k requires 0 <= k < |t| => if t[k].id == id then t[k].(status := status) else t[k])
  }

  /** The rows the hourly sweep selects. */
  predicate ShouldExpire(s: Subscription, now: int)
  {
    s.name == "Payment" && s.endDate < now && s.status != "expired"
  }

  /** `updateMany` of the sweep. */
  function ExpireSweep(t: seq<Subscription>, now: int): (r: seq<Subscription>)
    ensures |r| == |t|
  {
    seq(|t|, k requires 0 <= k < |t| => if ShouldExpire(t[k], now) then t[k].(status := "expired") else t[k])
  }

  /** The number of rows the sweep selects (`result.count`). */
  function ExpiredCount(t: seq<Subscription>, now: int): (n: nat)
    ensures n <= |t|
  {
    if t == [] then 0 else (if ShouldExpire(t[0], now) then 1 else 0) + ExpiredCount(t[1..], now)
  }

  /** The sweep expires exactly the selected rows, changes no other field of
      them and no other row at all. */
  lemma ExpireSweepExact(t: seq<Subscription>, now: int)
    ensures forall k :: 0 <= k < |t| ==>
              (ShouldExpire(t[k], now) ==> ExpireSweep(t, now)[k] == t[k].(status := "expired"))
              && (!ShouldExpire(t[k], now) ==> ExpireSweep(t, now)[k] == t[k])
  {
  }

  /** A second sweep at the same instant changes nothing and counts nothing. */
  lemma {:induction false} ExpireSweepIdempotent(t: seq<Subscription>, now: int)
    ensures ExpireSweep(ExpireSweep(t, now), now) == ExpireSweep(t, now)
    ensures ExpiredCount(ExpireSweep(t, now), now) == 0
  {
    var once := ExpireSweep(t, now);
    forall k | 0 <= k < |t| ensures !ShouldExpire(once[k], now) {
    }
    NoneSelected(once, now);
  }

  lemma {:induction false} NoneSelected(t: seq<Subscription>, now: int)
    requires forall k :: 0 <= k < |t| ==> !ShouldExpire(t[k], now)
    ensures ExpiredCount(t, now) == 0
  {
    if t != [] {
      NoneSelected(t[1..], now);
    }
  }

  /** Rows the sweep leaves alone stay alone for any later sweep too: a
      one-time payment is never expired twice, and a subscription never. */
  lemma ExpireSweepMonotone(t: seq<Subscription>, now: int, later: int)
    requires now <= later
    ensures forall k :: 0 <= k < |t| && ShouldExpire(t[k], now) ==> ShouldExpire(t[k], later)
    ensures forall k :: 0 <= k < |t| && t[k].name != "Payment" ==> ExpireSweep(t, later)[k] == t[k]
  {
  }

  /** `SetStatus` on an id no row carries changes nothing. */
  lemma SetStatusAbsent(t: seq<Subscription>, id: string, status: string)
    requires !HasId(t, id)
    ensures SetStatus(t, id, status) == t
  {
  }

  // ----------------------------------------------------- one-time payments

  /** What `_recordOneTimePayment(session, status)` does at time `now` to the
      table `t`, whose next free id is `nextId`, ending with outcome `r` and
      table `u`: a failed session read is that error and a customer with no
      user is NotFound, both leaving the table alone; otherwise it is Done
      and exactly one row is appended: a 'Payment' of that user from `now`
      for thirty days, with the given status, the session's id as its Stripe
      id, and the type of the session's line-item products. */
  predicate OneTimePaymentRecorded(
    whitelistId: Option<string>, vipId: Option<string>,
    t: seq<Subscription>, u: seq<Subscription>, nextId: nat, r: Outcome,
    sessionId: string, status: string,
    getCheckoutSession: string -> Result<FullSession, string>,
    findUser: string -> Option<User>,
    now: int)
  {
    var full := getCheckoutSession(sessionId);
    if full.Failure? then r == Error(full.error) && u == t
    else
      var user := findUser(StringOf(full.value.customer));
      if user.None? then r == NotFound("User not found") && u == t
      else
        r == Done
        && u == t + [Subscription(IntToDecimal(nextId), "Payment", user.value.id, now, now + PaymentWindow,
                                  status, sessionId, TypeOf(whitelistId, vipId, ProductIds(full.value.lineItems.GetOr([]))))]
  }

  /** A recorded payment is Done exactly when the session was read and its
      customer is a user, and the hourly sweep then expires its row exactly
      once the thirty days are over (unless it was stored as 'expired'). */
  lemma PaymentExpiresAfterWindow(
    whitelistId: Option<string>, vipId: Option<string>,
    t: seq<Subscription>, u: seq<Subscription>, nextId: nat, r: Outcome,
    sessionId: string, status: string,
    getCheckoutSession: string -> Result<FullSession, string>,
    findUser: string -> Option<User>,
    now: int, later: int)
    requires OneTimePaymentRecorded(whitelistId, vipId, t, u, nextId, r, sessionId, status,
                                    getCheckoutSession, findUser, now)
    ensures r == Done <==> getCheckoutSession(sessionId).Success?
                           && findUser(StringOf(getCheckoutSession(sessionId).value.customer)).Some?
    ensures r == Done ==> |u| == |t| + 1
                          && (ShouldExpire(u[|t|], later) <==> now + PaymentWindow < later && status != "expired")
  {
  }

  // ---------------------------------------------------------------- the class

  /** Row ids are issued by the table, one decimal per row, all below `nextId`. */
  ghost predicate IdsIssued(t: seq<Subscription>, nextId: nat)
  {
    && (forall k :: 0 <= k < |t| ==> ParseDecimal(t[k].id).Some? && 0 <= ParseDecimal(t[k].id).value < nextId)
    && (forall i, j :: 0 <= i < j < |t| ==> t[i].id != t[j].id)
  }

  lemma IssueNext(t: seq<Subscription>, nextId: nat, row: Subscription)
    requires IdsIssued(t, nextId) && row.id == IntToDecimal(nextId)
    ensures IdsIssued(t + [row], nextId + 1)
  {
    IntDecimalRoundTrip(nextId);
    var u := t + [row];
    forall i, j | 0 <= i < j < |u| ensures u[i].id != u[j].id {
      if j == |t| {
        assert ParseDecimal(u[i].id).value < nextId;
      }
    }
  }

  lemma SetStatusKeepsIds(t: seq<Subscription>, nextId: nat, id: string, status: string)
    requires IdsIssued(t, nextId)
    ensures IdsIssued(SetStatus(t, id, status), nextId)
  {
    var u := SetStatus(t, id, status);
    assert forall k :: 0 <= k < |t| ==> u[k].id == t[k].id;
  }

  lemma ExpireSweepKeepsIds(t: seq<Subscription>, nextId: nat, now: int)
    requires IdsIssued(t, nextId)
    ensures IdsIssued(ExpireSweep(t, now), nextId)
  {
    var u := ExpireSweep(t, now);
    assert forall k :: 0 <= k < |t| ==> u[k].id == t[k].id;
  }

  class StripeWebhooksService {
    /** `STRIPE_PRODUCT_VIP_WHITELIST` and `STRIPE_PRODUCT_VIP`. */
    const whitelistId: Option<string>
    const vipId: Option<string>
    var subscriptions: seq<Subscription>
    var nextId: nat

    ghost predicate Valid()
      reads this
    {
      IdsIssued(subscriptions, nextId)
    }

    constructor(whitelistId: Option<string>, vipId: Option<string>)
      ensures Valid() && subscriptions == [] && this.whitelistId == whitelistId && this.vipId == vipId
    {
      this.whitelistId := whitelistId;
      this.vipId := vipId;
      subscriptions := [];
      nextId := 0;
    }

    /** `subscriptions.create`: appends a row under a fresh id. */
    method Create(name: string, userId: string, startDate: int, endDate: int, status: string, sid: string, subscriptionType: string)
      requires Valid()
      modifies this
      ensures Valid() && nextId == old(nextId) + 1
      ensures subscriptions == old(subscriptions) +
                [Subscription(IntToDecimal(old(nextId)), name, userId, startDate, endDate, status, sid, subscriptionType)]
    {
      var row := Subscription(IntToDecimal(nextId), name, userId, startDate, endDate, status, sid, subscriptionType);
      IssueNext(subscriptions, nextId, row);
      subscriptions := subscriptions + [row];
      nextId := nextId + 1;
    }

    /** `subscriptions.update({ where: { id }, data: { status } })`: Prisma
        throws when no row has the id. */
    method UpdateStatus(id: string, status: string) returns (r: Outcome)
      requires Valid()
      modifies this
      ensures Valid() && nextId == old(nextId)
      ensures HasId(old(subscriptions), id) ==> r == Done && subscriptions == SetStatus(old(subscriptions), id, status)
      ensures !HasId(old(subscriptions), id) ==> r.Error? && subscriptions == old(subscriptions)
    {
      if HasId(subscriptions, id) {
        SetStatusKeepsIds(subscriptions, nextId, id, status);
        subscriptions := SetStatus(subscriptions, id, status);
        r := Done;
      } else {
        r := Error("Record to update not found");
      }
    }

    /** `_recordOneTimePayment(session, status)` at time `now`. */
    method RecordOneTimePayment(
      sessionId: string,
      status: string,
      getCheckoutSession: string -> Result<FullSession, string>,
      findUser: string -> Option<User>,
      now: int)
      returns (r: Outcome)
      requires Valid()
      modifies this
      ensures Valid()
      ensures r != Done ==> subscriptions == old(subscriptions)
      ensures OneTimePaymentRecorded(whitelistId, vipId, old(subscriptions), subscriptions, old(nextId), r,
                                     sessionId, status, getCheckoutSession, findUser, now)
    {
      var full := getCheckoutSession(sessionId);
      if full.Failure? {
        return Error(full.error);
      }
      var productIds := ProductIds(full.value.lineItems.GetOr([]));
      var user := findUser(StringOf(full.value.customer));
      if user.None? {
        return NotFound("User not found");
      }
      var t := SubscriptionType(whitelistId, vipId, productIds);
      Create("Payment", user.value.id, now, now + PaymentWindow, status, sessionId, t);
      r := Done;
    }

    /** `handleCheckoutSessionCompleted`. */
    method HandleCheckoutSessionCompleted(
      session: CheckoutSession,
      getCheckoutSession: string -> Result<FullSession, string>,
      getSubscription: string -> Option<StripeSubscription>,
      findUser: string -> Option<User>,
      now: int)
      returns (r: Outcome)
      requires Valid()
      modifies this
      ensures Valid()
      ensures r != Done ==> subscriptions == old(subscriptions)
      ensures session.mode != "payment" && session.mode != "subscription" ==> r == Done && subscriptions == old(subscriptions)
      ensures session.mode == "payment" ==>
                OneTimePaymentRecorded(whitelistId, vipId, old(subscriptions), subscriptions, old(nextId), r,
                                       session.id, CheckoutStatus(session.paymentStatus), getCheckoutSession, findUser, now)
      ensures session.mode == "subscription" && findUser(StringOf(session.customer)).None? ==>
                r == NotFound("User not found")
      ensures session.mode == "subscription" && findUser(StringOf(session.customer)).Some?
              && getSubscription(StringOf(session.subscription)).None? ==>
                r == NotFound("Subscription not found")
      ensures session.mode == "subscription" && findUser(StringOf(session.customer)).Some?
              && getSubscription(StringOf(session.subscription)).Some? ==>
                var sub := getSubscription(StringOf(session.subscription)).value;
                && r == Done
                && subscriptions == old(subscriptions) +
                     [Subscription(IntToDecimal(old(nextId)), "Subscription", findUser(StringOf(session.customer)).value.id,
                                   sub.currentPeriodStart * 1000, sub.currentPeriodEnd * 1000, sub.status, sub.id,
                                   TypeOf(whitelistId, vipId, ProductIds(sub.items)))]
    {
      if session.mode == "payment" {
        var paid := session.paymentStatus == "paid";
        r := RecordOneTimePayment(session.id, if paid then "active" else "pending", getCheckoutSession, findUser, now);
        assert (if paid then "active" else "pending") == CheckoutStatus(session.paymentStatus);
        return;
      }
      r := Done;
      if session.mode == "subscription" {
        var user := findUser(StringOf(session.customer));
        if user.None? {
          return NotFound("User not found");
        }
        var subscription := getSubscription(StringOf(session.subscription));
        if subscription.None? {
          return NotFound("Subscription not found");
        }
        var sub := subscription.value;
        var productIds := ProductIds(sub.items);
        var t := SubscriptionType(whitelistId, vipId, productIds);
        Create("Subscription", user.value.id, sub.currentPeriodStart * 1000, sub.currentPeriodEnd * 1000,
               sub.status, sub.id, t);
      }
    }

    /** `handleSubscriptionDeleted`: the row with the Stripe id becomes
        'canceled', or NotFound. */
    method HandleSubscriptionDeleted(subscriptionId: string) returns (r: Outcome)
      requires Valid()
      modifies this
      ensures Valid()
      ensures FindByStripeId(old(subscriptions), subscriptionId).None? ==>
                r == NotFound("Subscription not found") && subscriptions == old(subscriptions)
      ensures FindByStripeId(old(subscriptions), subscriptionId).Some? ==>
                var k := FindByStripeId(old(subscriptions), subscriptionId).value;
                r == Done && subscriptions == SetStatus(old(subscriptions), old(subscriptions)[k].id, "canceled")
    {
      var found := FindByStripeId(subscriptions, subscriptionId);
      if found.None? {
        return NotFound("Subscription not found");
      }
      r := UpdateStatus(subscriptions[found.value].id, "canceled");
    }

    /** `handleChargeRefunded`: partial refunds are rejected before anything
        else; the update then looks the row up by the invoice id. */
    method HandleChargeRefunded(charge: Charge, getInvoice: string -> Option<Invoice>) returns (r: Outcome)
      requires Valid()
      modifies this
      ensures Valid()
      ensures charge.amount != charge.amountRefunded ==>
                r == Error("Partial refunds are not supported") && subscriptions == old(subscriptions)
      ensures charge.amount == charge.amountRefunded && getInvoice(StringOf(charge.invoice)).None? ==>
                r == NotFound("Invoice not found") && subscriptions == old(subscriptions)
      ensures charge.amount == charge.amountRefunded && getInvoice(StringOf(charge.invoice)).Some? ==>
                var id := getInvoice(StringOf(charge.invoice)).value.id;
                && (HasId(old(subscriptions), id) ==> r == Done && subscriptions == SetStatus(old(subscriptions), id, "refunded"))
                && (!HasId(old(subscriptions), id) ==> r.Error? && subscriptions == old(subscriptions))
    {
      if charge.amount != charge.amountRefunded {
        return Error("Partial refunds are not supported");
      }
      var invoice := getInvoice(StringOf(charge.invoice));
      if invoice.None? {
        return NotFound("Invoice not found");
      }
      r := UpdateStatus(invoice.value.id, "refunded");
    }

    /** `handleAsyncPaymentSucceeded`: recorded like any one-time payment. */
    method HandleAsyncPaymentSucceeded(
      session: CheckoutSession,
      getCheckoutSession: string -> Result<FullSession, string>,
      findUser: string -> Option<User>,
      now: int)
      returns (r: Outcome)
      requires Valid()
      modifies this
      ensures Valid()
      ensures OneTimePaymentRecorded(whitelistId, vipId, old(subscriptions), subscriptions, old(nextId), r,
                                     session.id, "active", getCheckoutSession, findUser, now)
    {
      r := RecordOneTimePayment(session.id, "active", getCheckoutSession, findUser, now);
    }

    /** `handleAsyncPaymentFailed`: an existing row for the session becomes
        'failed'; without one, a 'failed' payment row is created. */
    method HandleAsyncPaymentFailed(
      session: CheckoutSession,
      getCheckoutSession: string -> Result<FullSession, string>,
      findUser: string -> Option<User>,
      now: int)
      returns (r: Outcome)
      requires Valid()
      modifies this
      ensures Valid()
      ensures FindByStripeId(old(subscriptions), session.id).Some? ==>
                var k := FindByStripeId(old(subscriptions), session.id).value;
                r == Done && subscriptions == SetStatus(old(subscriptions), old(subscriptions)[k].id, "failed")
      ensures FindByStripeId(old(subscriptions), session.id).None? ==>
                OneTimePaymentRecorded(whitelistId, vipId, old(subscriptions), subscriptions, old(nextId), r,
                                       session.id, "failed", getCheckoutSession, findUser, now)
    {
      var existing := FindByStripeId(subscriptions, session.id);
      if existing.Some? {
        r := UpdateStatus(subscriptions[existing.value].id, "failed");
      } else {
        r := RecordOneTimePayment(session.id, "failed", getCheckoutSession, findUser, now);
      }
    }

    /** `handleExpiredPayments` at time `now`; returns `result.count`. */
    method HandleExpiredPayments(now: int) returns (count: nat)
      requires Valid()
      modifies this
      ensures Valid() && nextId == old(nextId)
      ensures subscriptions == ExpireSweep(old(subscriptions), now)
      ensures count == ExpiredCount(old(subscriptions), now)
    {
      count := ExpiredCount(subscriptions, now);
      ExpireSweepKeepsIds(subscriptions, nextId, now);
      subscriptions := ExpireSweep(subscriptions, now);
    }
  }
}
