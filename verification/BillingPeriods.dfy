/** How long payments keep a subscription paid (billing.service.ts, readActivePeriod). */
module BillingPeriods {
  import opened Wrappers
  import opened BillingModel
  import opened BillingRuns
  import opened BillingRetry

  // ---------------------------------------------------------------- payments in turn

  /** Activating events of the subscription with provider id `id`, whose row is at payment `previous` and perhaps
      `active`: each is either one more event of the payment before it, processed or not, or the confirmation of
      another payment, under an event id not processed before. */
  ghost predicate InTurn(
    events: map<string, bool>, previous: Option<string>, active: bool, id: string, ds: seq<Delivery>)
    decreases |ds|
  {
    ds != [] ==>
      var w := ds[0].webhook;
      && Activates(w.kind) && w.subscriptionId == Some(id) && w.paymentId.Some?
      && (if w.paymentId == previous then active
          else w.kind.PAYMENT_CONFIRMED? && !(w.eventId in events && events[w.eventId]))
      && InTurn(events[w.eventId := true], w.paymentId, true, id, ds[1..])
  }

  /** The confirmations among them that begin a payment. */
  function Payments(previous: Option<string>, ds: seq<Delivery>): seq<Delivery>
    decreases |ds|
  {
    if ds == [] then []
    else
      var rest := Payments(ds[0].webhook.paymentId, ds[1..]);
      if ds[0].webhook.paymentId == previous then rest else [ds[0]] + rest
  }

  ghost predicate Largest(value: int, end: Option<int>, ds: seq<Delivery>) {
    var n := |ds|;
    && (end.Some? ==> end.value + n * PERIOD_MS <= value)
    && (forall k | 0 <= k < n :: ds[k].now + (n - k) * PERIOD_MS <= value)
    && ((end.Some? && value == end.value + n * PERIOD_MS)
        || exists k :: 0 <= k < n && value == ds[k].now + (n - k) * PERIOD_MS)
  }

  lemma OnePayment(db: Database, i: nat, id: string, d: Delivery)
    requires ForeignKeys(db) && BySubscriptionId(db.subscriptions, id) == Some(i)
    requires d.webhook.kind.PAYMENT_CONFIRMED? && d.webhook.subscriptionId == Some(id) && d.webhook.paymentId.Some?
    requires !IsProcessed(db, d.webhook.eventId) && d.webhook.paymentId != db.subscriptions[i].providerPaymentId
    ensures var next := Handled(db, d.webhook, d.now);
            var end := db.subscriptions[i].periodEnd;
            var start := if end.Some? && d.now < end.value then end.value else d.now;
            && |next.subscriptions| == |db.subscriptions|
            && next.subscriptions[i].periodStart == Some(start)
            && next.subscriptions[i].periodEnd == Some(start + PERIOD_MS)
            && next.subscriptions[i].providerPaymentId == d.webhook.paymentId
            && next.subscriptions[i].status.ACTIVE?
            && BySubscriptionId(next.subscriptions, id) == Some(i)
            && next.events == db.events[d.webhook.eventId := true]
  {
    var w := d.webhook;
    var t := ReadTransition(w.kind).value;
    assert FindWebhookSubscription(db.subscriptions, w) == Some(i);
    assert db.subscriptions[i] in db.subscriptions;
    var received := Marked(db, w.eventId, false);
    TransactionFrame(received, i, w, t, d.now);
    ReferralFrame(Transacted(received, i, w, t, d.now), db.subscriptions[i], w, t, d.now);
    var subs := db.subscriptions[i := UpdatedSubscription(db.subscriptions[i], w, t, d.now)];
    assert Handled(db, w, d.now).subscriptions == subs;
    LastMatchIs(subs, (s: Subscription) => s.providerSubscriptionId == Some(id), i);
  }

  /** One more event of the payment that made the row ACTIVE. */
  lemma SamePayment(db: Database, i: nat, id: string, d: Delivery)
    requires ForeignKeys(db) && BySubscriptionId(db.subscriptions, id) == Some(i)
    requires Activates(d.webhook.kind) && d.webhook.subscriptionId == Some(id) && d.webhook.paymentId.Some?
    requires db.subscriptions[i].status.ACTIVE? && d.webhook.paymentId == db.subscriptions[i].providerPaymentId
    ensures var next := Handled(db, d.webhook, d.now);
            && |next.subscriptions| == |db.subscriptions|
            && next.subscriptions[i].periodEnd == db.subscriptions[i].periodEnd
            && next.subscriptions[i].providerPaymentId == d.webhook.paymentId
            && next.subscriptions[i].status.ACTIVE?
            && BySubscriptionId(next.subscriptions, id) == Some(i)
            && next.events == db.events[d.webhook.eventId := true]
  {
    var w := d.webhook;
    var t := ReadTransition(w.kind).value;
    if IsProcessed(db, w.eventId) {
      assert db.events[w.eventId := true] == db.events;
    } else {
      assert FindWebhookSubscription(db.subscriptions, w) == Some(i);
      assert db.subscriptions[i] in db.subscriptions;
      var received := Marked(db, w.eventId, false);
      TransactionFrame(received, i, w, t, d.now);
      ReferralFrame(Transacted(received, i, w, t, d.now), db.subscriptions[i], w, t, d.now);
      var subs := db.subscriptions[i := UpdatedSubscription(db.subscriptions[i], w, t, d.now)];
      assert Handled(db, w, d.now).subscriptions == subs;
      LastMatchIs(subs, (s: Subscription) => s.providerSubscriptionId == Some(id), i);
    }
  }

  /** Where the paid time ends after the payments: where it did if there are none, otherwise at the largest of the
      end there was plus all periods, and for each payment its time plus a period for itself and each later one. */
  ghost predicate PaidUntil(before: Option<int>, payments: seq<Delivery>, after: Option<int>) {
    if payments == [] then after == before else after.Some? && Largest(after.value, before, payments)
  }

  /** The end of the paid time after the first of the events. */
  function EndAfter(end: Option<int>, previous: Option<string>, d: Delivery): Option<int> {
    if d.webhook.paymentId == previous then end
    else Some((if end.Some? && d.now < end.value then end.value else d.now) + PERIOD_MS)
  }

  lemma FirstInTurn(db: Database, i: nat, id: string, ds: seq<Delivery>)
    requires ForeignKeys(db) && BySubscriptionId(db.subscriptions, id) == Some(i) && ds != []
    requires InTurn(db.events, db.subscriptions[i].providerPaymentId, db.subscriptions[i].status.ACTIVE?, id, ds)
    ensures var next, before := Handled(db, ds[0].webhook, ds[0].now), db.subscriptions[i];
            && ForeignKeys(next) && BySubscriptionId(next.subscriptions, id) == Some(i)
            && next.subscriptions[i].periodEnd == EndAfter(before.periodEnd, before.providerPaymentId, ds[0])
            && next.subscriptions[i].providerPaymentId == ds[0].webhook.paymentId
            && InTurn(next.events, ds[0].webhook.paymentId, next.subscriptions[i].status.ACTIVE?, id, ds[1..])
  {
    HandledKeepsKeys(db, ds[0].webhook, ds[0].now);
    if ds[0].webhook.paymentId == db.subscriptions[i].providerPaymentId {
      SamePayment(db, i, id, ds[0]);
    } else {
      OnePayment(db, i, id, ds[0]);
    }
  }

  lemma FirstDelivered(db: Database, ds: seq<Delivery>)
    requires ForeignKeys(db) && ds != []
    ensures ForeignKeys(Handled(db, ds[0].webhook, ds[0].now))
    ensures Deliveries(db, ds) == Deliveries(Handled(db, ds[0].webhook, ds[0].now), ds[1..])
  {
    HandledKeepsKeys(db, ds[0].webhook, ds[0].now);
  }

  /** Any number of payments of a subscription, each confirmed once and followed by any number of activating events of
      the same payment, pay exactly: no paid day is lost, and none is granted twice. */
  lemma {:induction false} PaidTimeIsExact(db: Database, i: nat, id: string, ds: seq<Delivery>)
    requires ForeignKeys(db) && BySubscriptionId(db.subscriptions, id) == Some(i)
    requires InTurn(db.events, db.subscriptions[i].providerPaymentId, db.subscriptions[i].status.ACTIVE?, id, ds)
    ensures var after := Deliveries(db, ds);
            && i < |after.subscriptions|
            && PaidUntil(db.subscriptions[i].periodEnd, Payments(db.subscriptions[i].providerPaymentId, ds),
                         after.subscriptions[i].periodEnd)
    decreases |ds|
  {
    if ds != [] {
      var previous, end := db.subscriptions[i].providerPaymentId, db.subscriptions[i].periodEnd;
      FirstInTurn(db, i, id, ds);
      FirstDelivered(db, ds);
      PaidTimeIsExact(Handled(db, ds[0].webhook, ds[0].now), i, id, ds[1..]);
      if ds[0].webhook.paymentId != previous {
        OneMorePayment(end, ds[0], Payments(ds[0].webhook.paymentId, ds[1..]),
                       Deliveries(db, ds).subscriptions[i].periodEnd);
      }
    }
  }

  lemma OneMorePayment(before: Option<int>, d: Delivery, rest: seq<Delivery>, after: Option<int>)
    requires var start := if before.Some? && d.now < before.value then before.value else d.now;
             PaidUntil(Some(start + PERIOD_MS), rest, after)
    ensures PaidUntil(before, [d] + rest, after)
  {
    if rest == [] {
      assert ([d] + rest)[0].now + (1 - 0) * PERIOD_MS == d.now + PERIOD_MS;
    } else {
      assert ([d] + rest)[1..] == rest;
      LargestExtends(after.value, before, [d] + rest);
    }
  }

  lemma LargestExtends(value: int, end: Option<int>, ds: seq<Delivery>)
    requires ds != []
    requires var start := if end.Some? && ds[0].now < end.value then end.value else ds[0].now;
             Largest(value, Some(start + PERIOD_MS), ds[1..])
    ensures Largest(value, end, ds)
  {
    var rest := ds[1..];
    var n := |ds|;
    var start := if end.Some? && ds[0].now < end.value then end.value else ds[0].now;
    assert start + PERIOD_MS + (n - 1) * PERIOD_MS == start + n * PERIOD_MS;
    assert ds[0].now + (n - 0) * PERIOD_MS <= value;
    forall k | 0 <= k < n ensures ds[k].now + (n - k) * PERIOD_MS <= value {
      if k > 0 { assert rest[k - 1].now + (n - 1 - (k - 1)) * PERIOD_MS <= value; }
    }
    if k :| 0 <= k < n - 1 && value == rest[k].now + (n - 1 - k) * PERIOD_MS {
      assert value == ds[k + 1].now + (n - (k + 1)) * PERIOD_MS;
    }
  }

  // ---------------------------------------------------------------- one payment, many events

  ghost predicate PaidActively(db: Database, i: nat, payment: string) {
    && i < |db.subscriptions|
    && db.subscriptions[i].status.ACTIVE? && db.subscriptions[i].providerPaymentId == Some(payment)
  }

  lemma RepeatedActivation(db: Database, i: nat, payment: string, d: Delivery)
    requires ForeignKeys(db) && PaidActively(db, i, payment)
    requires Activates(d.webhook.kind) && d.webhook.paymentId == Some(payment)
    ensures var next := Handled(db, d.webhook, d.now);
            && PaidActively(next, i, payment)
            && next.subscriptions[i].periodStart == db.subscriptions[i].periodStart
            && next.subscriptions[i].periodEnd == db.subscriptions[i].periodEnd
  {
    var resolved := Resolved(db, d.webhook);
    if resolved.Some? {
      var (k, t) := resolved.value;
      assert db.subscriptions[k] in db.subscriptions;
      var received := Marked(db, d.webhook.eventId, false);
      TransactionFrame(received, k, d.webhook, t, d.now);
      ReferralFrame(Transacted(received, k, d.webhook, t, d.now), db.subscriptions[k], d.webhook, t, d.now);
    }
  }

  /** Any number of received and confirmed events of the payment that activated a row grant nothing more. */
  lemma {:induction false} OnePaymentGrantsOnePeriod(db: Database, i: nat, payment: string, ds: seq<Delivery>)
    requires ForeignKeys(db) && PaidActively(db, i, payment)
    requires forall d <- ds :: Activates(d.webhook.kind) && d.webhook.paymentId == Some(payment)
    ensures var after := Deliveries(db, ds);
            && PaidActively(after, i, payment)
            && after.subscriptions[i].periodStart == db.subscriptions[i].periodStart
            && after.subscriptions[i].periodEnd == db.subscriptions[i].periodEnd
    decreases |ds|
  {
    if ds != [] {
      RepeatedActivation(db, i, payment, ds[0]);
      HandledKeepsKeys(db, ds[0].webhook, ds[0].now);
      OnePaymentGrantsOnePeriod(Handled(db, ds[0].webhook, ds[0].now), i, payment, ds[1..]);
    }
  }
}
