/** Activating webhooks of several subscriptions of one user, in any order (billing.service.ts, canUpdateUser). */
module BillingOrder {
  import opened Wrappers
  import opened BillingModel
  import opened BillingRetry

  /** How the provider's ids belong to rows: each row has its own subscription id, a payment belongs to one
      row, and so does an event. */
  datatype Provider = Provider(subscriptionOf: nat -> string, rowOfPayment: string -> nat, rowOfEvent: string -> nat)

  ghost predicate OwnIds(p: Provider) {
    forall i, j :: i != j ==> p.subscriptionOf(i) != p.subscriptionOf(j)
  }

  /** The webhook activates row `i` and carries the ids of that row, with its reference when the row does not know
      its provider id yet. */
  ghost predicate Genuine(p: Provider, subs: seq<Subscription>, w: Webhook, i: nat) {
    && Activates(w.kind) && i < |subs|
    && w.subscriptionId == Some(p.subscriptionOf(i))
    && (subs[i].providerSubscriptionId.Some? || w.externalReference == Some(i))
    && (w.paymentId.Some? ==> p.rowOfPayment(w.paymentId.value) == i)
    && p.rowOfEvent(w.eventId) == i
  }

  ghost predicate RowConsistent(p: Provider, s: Subscription, i: nat) {
    && (s.providerSubscriptionId.Some? ==> s.providerSubscriptionId == Some(p.subscriptionOf(i)))
    && (s.providerPaymentId.Some? ==> p.rowOfPayment(s.providerPaymentId.value) == i)
  }

  ghost predicate RowsConsistent(p: Provider, subs: seq<Subscription>) {
    forall k | 0 <= k < |subs| :: RowConsistent(p, subs[k], k)
  }

  /** Payments activate rows under their provider id. */
  ghost predicate ActiveHaveIds(subs: seq<Subscription>, user: nat) {
    forall s <- subs :: s.userId == user && s.status.ACTIVE? ==> s.providerSubscriptionId.Some?
  }

  predicate IsActive(db: Database, i: nat) {
    i < |db.subscriptions| && db.subscriptions[i].status.ACTIVE?
  }

  /** `n` is the newest ACTIVE subscription of the user. */
  ghost predicate Newest(db: Database, user: nat, n: nat) {
    && IsActive(db, n) && db.subscriptions[n].userId == user
    && forall j | n < j < |db.subscriptions| :: !(db.subscriptions[j].userId == user && IsActive(db, j))
  }

  /** Ids are consistent, and the user, if any subscription is ACTIVE, is on the plan of the newest. */
  ghost predicate Settled(p: Provider, db: Database, user: nat) {
    && ForeignKeys(db) && OwnIds(p) && user < |db.users|
    && RowsConsistent(p, db.subscriptions) && ActiveHaveIds(db.subscriptions, user)
    && forall n: nat | n < |db.subscriptions| && Newest(db, user, n) ::
         db.users[user].plan == db.subscriptions[n].plan && db.users[user].status == ACTIVE
  }

  lemma GenuineResolves(p: Provider, db: Database, w: Webhook, i: nat)
    requires OwnIds(p) && RowsConsistent(p, db.subscriptions)
    requires Genuine(p, db.subscriptions, w, i)
    ensures FindWebhookSubscription(db.subscriptions, w) == Some(i)
  {
    var x := w.subscriptionId.value;
    var found := BySubscriptionId(db.subscriptions, x);
    assert RowConsistent(p, db.subscriptions[i], i);
    if found.Some? {
      assert RowConsistent(p, db.subscriptions[found.value], found.value);
    } else if w.paymentId.Some? {
      var paid := ByPaymentId(db.subscriptions, w.paymentId.value);
      if paid.Some? { assert RowConsistent(p, db.subscriptions[paid.value], paid.value); }
    }
  }

  /** With consistent ids the protection of the user is exactly a newer ACTIVE subscription. */
  lemma ProtectionMeansNewer(p: Provider, db: Database, i: nat)
    requires OwnIds(p) && RowsConsistent(p, db.subscriptions)
    requires i < |db.subscriptions| && ActiveHaveIds(db.subscriptions, db.subscriptions[i].userId)
    ensures CanUpdateUser(db.subscriptions, i)
       <==> forall j | i < j < |db.subscriptions| ::
              !(db.subscriptions[j].userId == db.subscriptions[i].userId && IsActive(db, j))
  {
    forall j | i < j < |db.subscriptions| && db.subscriptions[j].userId == db.subscriptions[i].userId && IsActive(db, j)
      ensures NewerActive(db.subscriptions, i, j)
    {
      assert RowConsistent(p, db.subscriptions[j], j) && RowConsistent(p, db.subscriptions[i], i);
      assert db.subscriptions[j] in db.subscriptions;
    }
  }

  /** What one fresh genuine webhook does to rows and users. */
  lemma GenuineEffect(p: Provider, db: Database, w: Webhook, i: nat, now: int)
    requires ForeignKeys(db) && OwnIds(p) && RowsConsistent(p, db.subscriptions)
    requires Genuine(p, db.subscriptions, w, i) && !IsProcessed(db, w.eventId)
    ensures var next := Handled(db, w, now);
            var u := db.subscriptions[i].userId;
            && u < |db.users|
            && next.subscriptions
               == db.subscriptions[i := UpdatedSubscription(db.subscriptions[i], w, ReadTransition(w.kind).value, now)]
            && next.users
               == Hashed(Transacted(db, i, w, ReadTransition(w.kind).value, now).users, u, w)
            && next.events == db.events[w.eventId := true]
  {
    GenuineResolves(p, db, w, i);
    var t := ReadTransition(w.kind).value;
    var sub := db.subscriptions[i];
    assert sub in db.subscriptions;
    var received := Marked(db, w.eventId, false);
    var transacted := Transacted(received, i, w, t, now);
    TransactionFrame(received, i, w, t, now);
    ReferralFrame(transacted, sub, w, t, now);
  }

  /** The user of the row ends on its plan, unless protected; other users are untouched. */
  lemma GenuineUsers(p: Provider, db: Database, w: Webhook, i: nat, now: int)
    requires ForeignKeys(db) && OwnIds(p) && RowsConsistent(p, db.subscriptions)
    requires Genuine(p, db.subscriptions, w, i) && !IsProcessed(db, w.eventId)
    ensures var next := Handled(db, w, now);
            var u := db.subscriptions[i].userId;
            && u < |db.users| == |next.users|
            && (forall v | 0 <= v < |db.users| && v != u :: next.users[v] == db.users[v])
            && (if CanUpdateUser(db.subscriptions, i)
                then next.users[u].plan == db.subscriptions[i].plan && next.users[u].status == ACTIVE
                else next.users[u].plan == db.users[u].plan && next.users[u].status == db.users[u].status)
  {
    GenuineEffect(p, db, w, i, now);
  }

  lemma GenuineRows(p: Provider, db: Database, w: Webhook, i: nat, now: int)
    requires ForeignKeys(db) && OwnIds(p) && RowsConsistent(p, db.subscriptions)
    requires Genuine(p, db.subscriptions, w, i) && !IsProcessed(db, w.eventId)
    ensures var next := Handled(db, w, now);
            && RowsConsistent(p, next.subscriptions) && |next.subscriptions| == |db.subscriptions|
            && (forall k :: IsActive(next, k) <==> IsActive(db, k) || k == i)
            && next.events == db.events[w.eventId := true]
  {
    GenuineEffect(p, db, w, i, now);
    assert RowConsistent(p, db.subscriptions[i], i);
    var next := Handled(db, w, now);
    forall k | 0 <= k < |next.subscriptions| ensures RowConsistent(p, next.subscriptions[k], k) {
      assert RowConsistent(p, db.subscriptions[k], k);
    }
  }

  lemma GenuineKeepsIds(p: Provider, db: Database, w: Webhook, i: nat, now: int, user: nat)
    requires ForeignKeys(db) && OwnIds(p) && RowsConsistent(p, db.subscriptions)
    requires Genuine(p, db.subscriptions, w, i) && !IsProcessed(db, w.eventId) && ActiveHaveIds(db.subscriptions, user)
    ensures ActiveHaveIds(Handled(db, w, now).subscriptions, user)
  {
    GenuineEffect(p, db, w, i, now);
    var updated := UpdatedSubscription(db.subscriptions[i], w, ReadTransition(w.kind).value, now);
    forall s | s in Handled(db, w, now).subscriptions && s.userId == user && s.status.ACTIVE?
      ensures s.providerSubscriptionId.Some?
    {
      assert s == updated || s in db.subscriptions;
    }
  }

  lemma GenuineKeepsSettled(p: Provider, db: Database, w: Webhook, i: nat, now: int, user: nat)
    requires Settled(p, db, user) && Genuine(p, db.subscriptions, w, i) && !IsProcessed(db, w.eventId)
    ensures Settled(p, Handled(db, w, now), user)
  {
    GenuineRows(p, db, w, i, now);
    GenuineUsers(p, db, w, i, now);
    GenuineKeepsIds(p, db, w, i, now, user);
    HandledKeepsShape(db, w, now);
    var next := Handled(db, w, now);
    if db.subscriptions[i].userId == user { ProtectionMeansNewer(p, db, i); }
    forall n: nat | n < |next.subscriptions| && Newest(next, user, n)
      ensures next.users[user].plan == next.subscriptions[n].plan && next.users[user].status == ACTIVE
    {
      assert IsActive(next, i) && next.subscriptions[i].userId == db.subscriptions[i].userId;
      if db.subscriptions[i].userId != user {
        assert Newest(db, user, n);
      } else if CanUpdateUser(db.subscriptions, i) {
        assert n == i;
      } else {
        assert n > i && Newest(db, user, n);
      }
    }
  }

  // ---------------------------------------------------------------- sequences of deliveries

  ghost predicate AllGenuine(p: Provider, db: Database, ds: seq<Delivery>) {
    forall d <- ds :: Genuine(p, db.subscriptions, d.webhook, p.rowOfEvent(d.webhook.eventId))
  }

  /** Every event of `ds` that counts as processed has its row ACTIVE. */
  ghost predicate ProcessedAreActive(p: Provider, db: Database, ds: seq<Delivery>) {
    forall d <- ds :: IsProcessed(db, d.webhook.eventId) ==> IsActive(db, p.rowOfEvent(d.webhook.eventId))
  }

  ghost function RowsOf(p: Provider, ds: seq<Delivery>): set<nat> {
    set d | d in ds :: p.rowOfEvent(d.webhook.eventId)
  }

  ghost predicate SameActiveRows(p: Provider, db: Database, after: Database, ds: seq<Delivery>) {
    forall k :: IsActive(after, k) <==> IsActive(db, k) || k in RowsOf(p, ds)
  }

  lemma GenuineStaysGenuine(p: Provider, db: Database, w: Webhook, i: nat, now: int, rest: seq<Delivery>)
    requires ForeignKeys(db) && OwnIds(p) && RowsConsistent(p, db.subscriptions)
    requires Genuine(p, db.subscriptions, w, i) && !IsProcessed(db, w.eventId) && AllGenuine(p, db, rest)
    ensures AllGenuine(p, Handled(db, w, now), rest)
  {
    GenuineEffect(p, db, w, i, now);
    var next := Handled(db, w, now);
    forall d | d in rest ensures Genuine(p, next.subscriptions, d.webhook, p.rowOfEvent(d.webhook.eventId)) {
      assert Genuine(p, db.subscriptions, d.webhook, p.rowOfEvent(d.webhook.eventId));
    }
  }

  lemma RestOf(p: Provider, db: Database, ds: seq<Delivery>)
    requires ds != [] && AllGenuine(p, db, ds) && ProcessedAreActive(p, db, ds)
    ensures AllGenuine(p, db, ds[1..]) && ProcessedAreActive(p, db, ds[1..])
  {
    forall e | e in ds[1..] ensures e in ds {
    }
  }

  lemma ProcessedStayActive(p: Provider, db: Database, next: Database, w: Webhook, ds: seq<Delivery>)
    requires ProcessedAreActive(p, db, ds) && next.events == db.events[w.eventId := true]
    requires forall k :: IsActive(next, k) <==> IsActive(db, k) || k == p.rowOfEvent(w.eventId)
    ensures ProcessedAreActive(p, next, ds)
  {
    forall d | d in ds && IsProcessed(next, d.webhook.eventId)
      ensures IsActive(next, p.rowOfEvent(d.webhook.eventId))
    {
      if d.webhook.eventId != w.eventId { assert IsProcessed(db, d.webhook.eventId); }
    }
  }

  lemma FirstDelivery(p: Provider, db: Database, ds: seq<Delivery>, user: nat)
    requires ds != [] && Settled(p, db, user) && AllGenuine(p, db, ds) && ProcessedAreActive(p, db, ds)
    ensures var next := Handled(db, ds[0].webhook, ds[0].now);
            && Settled(p, next, user)
            && AllGenuine(p, next, ds[1..]) && ProcessedAreActive(p, next, ds[1..])
            && forall k :: IsActive(next, k) <==> IsActive(db, k) || k == p.rowOfEvent(ds[0].webhook.eventId)
  {
    var w, now := ds[0].webhook, ds[0].now;
    var i := p.rowOfEvent(w.eventId);
    assert ds[0] in ds;
    RestOf(p, db, ds);
    if !IsProcessed(db, w.eventId) {
      GenuineKeepsSettled(p, db, w, i, now, user);
      GenuineRows(p, db, w, i, now);
      GenuineStaysGenuine(p, db, w, i, now, ds[1..]);
      ProcessedStayActive(p, db, Handled(db, w, now), w, ds[1..]);
    }
  }

  /** The deliveries, repeats included, leave the user settled and activate exactly their rows. */
  lemma {:induction false} DeliveriesSettle(p: Provider, db: Database, ds: seq<Delivery>, user: nat)
    requires Settled(p, db, user) && AllGenuine(p, db, ds) && ProcessedAreActive(p, db, ds)
    ensures Settled(p, Deliveries(db, ds), user) && SameShape(db, Deliveries(db, ds))
    ensures SameActiveRows(p, db, Deliveries(db, ds), ds)
    decreases |ds|
  {
    if ds != [] {
      FirstDelivery(p, db, ds, user);
      HandledKeepsShape(db, ds[0].webhook, ds[0].now);
      var next := Handled(db, ds[0].webhook, ds[0].now);
      DeliveriesSettle(p, next, ds[1..], user);
      RowsOfFirst(p, ds);
      var after := Deliveries(next, ds[1..]);
      forall k ensures IsActive(after, k) <==> IsActive(db, k) || k in RowsOf(p, ds) {
        assert IsActive(after, k) <==> IsActive(next, k) || k in RowsOf(p, ds[1..]);
      }
    }
  }

  lemma RowsOfFirst(p: Provider, ds: seq<Delivery>)
    requires ds != []
    ensures RowsOf(p, ds) == {p.rowOfEvent(ds[0].webhook.eventId)} + RowsOf(p, ds[1..])
  {
    assert ds == [ds[0]] + ds[1..];
  }

  /** The user ends on the plan of the newest ACTIVE subscription, and two sequences of deliveries for the same
      rows, in any order, at any times and with any repeats, end on the same plan. */
  lemma DeliveryOrderDoesNotMatter(
    p: Provider, db: Database, ds: seq<Delivery>, es: seq<Delivery>, user: nat, n: nat)
    requires Settled(p, db, user)
    requires AllGenuine(p, db, ds) && ProcessedAreActive(p, db, ds)
    requires AllGenuine(p, db, es) && ProcessedAreActive(p, db, es)
    requires RowsOf(p, ds) == RowsOf(p, es)
    requires Newest(Deliveries(db, ds), user, n)
    ensures n < |db.subscriptions|
    ensures var one, other := Deliveries(db, ds), Deliveries(db, es);
            && |one.users| == |other.users| == |db.users|
            && one.users[user].plan == db.subscriptions[n].plan && one.users[user].status == ACTIVE
            && other.users[user].plan == one.users[user].plan && other.users[user].status == one.users[user].status
            && Newest(other, user, n)
  {
    DeliveriesSettle(p, db, ds, user);
    DeliveriesSettle(p, db, es, user);
    var one, other := Deliveries(db, ds), Deliveries(db, es);
    forall k ensures IsActive(one, k) <==> IsActive(other, k) {
      assert IsActive(one, k) <==> IsActive(db, k) || k in RowsOf(p, ds);
      assert IsActive(other, k) <==> IsActive(db, k) || k in RowsOf(p, es);
    }
    assert Newest(other, user, n);
  }
}
