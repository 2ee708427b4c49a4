/** Webhooks arrive at least once: repeats of processed events, and redeliveries after a crash between the
    transaction and the write of `processedAt` (billing.service.ts). */
module BillingRetry {
  import opened Wrappers
  import opened Rows
  import opened PlanLimits
  import opened BillingModel
  import opened BillingRuns

  // ---------------------------------------------------------------- repeats of processed events

  /** The same rows with the same owners and plans. */
  ghost predicate SameShape(db: Database, next: Database) {
    && |next.users| == |db.users| && |next.subscriptions| == |db.subscriptions|
    && (forall k | 0 <= k < |db.subscriptions| ::
          && next.subscriptions[k].userId == db.subscriptions[k].userId
          && next.subscriptions[k].plan == db.subscriptions[k].plan)
    && next.referrals.Keys == db.referrals.Keys
    && (forall u <- db.referrals :: next.referrals[u].referrer == db.referrals[u].referrer)
  }

  lemma ShapeKeepsKeys(db: Database, next: Database)
    requires ForeignKeys(db) && SameShape(db, next)
    ensures ForeignKeys(next)
  {
    forall s | s in next.subscriptions ensures s.userId < |next.users| {
      var k :| 0 <= k < |next.subscriptions| && next.subscriptions[k] == s;
      assert db.subscriptions[k] in db.subscriptions;
    }
  }

  lemma TransactedShape(db: Database, i: nat, w: Webhook, t: Transition, now: int)
    requires i < |db.subscriptions| && db.subscriptions[i].userId < |db.users|
    ensures SameShape(db, Transacted(db, i, w, t, now))
  {
  }

  lemma ReferralShape(db: Database, sub: Subscription, w: Webhook, t: Transition, now: int)
    requires sub.userId < |db.users|
    ensures SameShape(db, ReferralFollowed(db, sub, w, t, now))
  {
  }

  lemma ExpiredShape(db: Database, u: nat, now: int)
    ensures SameShape(db, Expired(db, u, now))
  {
  }

  lemma AppliedShape(db: Database, i: nat, w: Webhook, t: Transition, now: int)
    requires i < |db.subscriptions| && db.subscriptions[i].userId < |db.users|
    ensures SameShape(db, Applied(db, i, w, t, now)) && Applied(db, i, w, t, now).events == db.events
  {
    TransactedShape(db, i, w, t, now);
    ReferralShape(Transacted(db, i, w, t, now), db.subscriptions[i], w, t, now);
  }

  /** Sizes, owners, plans, foreign keys and processed events survive every webhook. */
  lemma HandledKeepsShape(db: Database, w: Webhook, now: int)
    requires ForeignKeys(db)
    ensures var next := Handled(db, w, now);
            && ForeignKeys(next) && SameShape(db, next)
            && (forall id :: IsProcessed(db, id) ==> IsProcessed(next, id))
  {
    var resolved := Resolved(db, w);
    if resolved.Some? {
      var (i, t) := resolved.value;
      HandledApplies(db, w, i, t, now);
      var received := Marked(db, w.eventId, false);
      AppliedShape(received, i, w, t, now);
      var applied := Marked(Applied(received, i, w, t, now), w.eventId, true);
      ExpiredShape(applied, db.subscriptions[i].userId, now);
    }
    ShapeKeepsKeys(db, Handled(db, w, now));
  }

  lemma HandledKeepsKeys(db: Database, w: Webhook, now: int)
    requires ForeignKeys(db)
    ensures ForeignKeys(Handled(db, w, now))
  {
    HandledKeepsShape(db, w, now);
  }

  /** A delivery with its time. */
  datatype Delivery = Delivery(webhook: Webhook, now: int)

  ghost function Deliveries(db: Database, ds: seq<Delivery>): (result: Database)
    requires ForeignKeys(db)
    ensures ForeignKeys(result)
    decreases |ds|
  {
    if ds == [] then db
    else
      HandledKeepsKeys(db, ds[0].webhook, ds[0].now);
      Deliveries(Handled(db, ds[0].webhook, ds[0].now), ds[1..])
  }

  lemma {:induction false} DeliveriesConcat(db: Database, first: seq<Delivery>, second: seq<Delivery>)
    requires ForeignKeys(db)
    ensures Deliveries(db, first + second) == Deliveries(Deliveries(db, first), second)
    decreases |first|
  {
    if first == [] {
      assert first + second == second;
    } else {
      HandledKeepsKeys(db, first[0].webhook, first[0].now);
      assert (first + second)[1..] == first[1..] + second;
      DeliveriesConcat(Handled(db, first[0].webhook, first[0].now), first[1..], second);
    }
  }

  lemma {:induction false} ProcessedStaysProcessed(db: Database, ds: seq<Delivery>, eventId: string)
    requires ForeignKeys(db) && IsProcessed(db, eventId)
    ensures IsProcessed(Deliveries(db, ds), eventId)
    decreases |ds|
  {
    if ds != [] {
      HandledKeepsShape(db, ds[0].webhook, ds[0].now);
      ProcessedStaysProcessed(Handled(db, ds[0].webhook, ds[0].now), ds[1..], eventId);
    }
  }

  /** A repeat of an event processed at any earlier point can be taken out of the sequence of deliveries. */
  lemma RepeatsCanBeDeleted(
    db: Database, before: seq<Delivery>, between: seq<Delivery>, repeated: Delivery, rest: seq<Delivery>)
    requires ForeignKeys(db) && IsProcessed(Deliveries(db, before), repeated.webhook.eventId)
    ensures Deliveries(db, before + between + [repeated] + rest) == Deliveries(db, before + between + rest)
  {
    var middle := Deliveries(db, before + between);
    DeliveriesConcat(db, before, between);
    ProcessedStaysProcessed(Deliveries(db, before), between, repeated.webhook.eventId);
    DeliveriesConcat(db, before + between, [repeated]);
    DeliveriesConcat(db, before + between + [repeated], rest);
    DeliveriesConcat(db, before + between, rest);
    assert Deliveries(middle, [repeated]) == Handled(middle, repeated.webhook, repeated.now);
  }

  // ---------------------------------------------------------------- a redelivery finds the same row

  lemma {:induction false} LastMatchIs<T>(rows: seq<T>, p: T -> bool, i: nat)
    requires i < |rows| && p(rows[i]) && forall k | i < k < |rows| :: !p(rows[k])
    ensures LastMatch(rows, p) == Some(i)
  {
  }

  /** After the transaction of a webhook, a webhook with the same ids resolves to the same row. */
  lemma RedeliveryResolvesToTheSameRow(subs: seq<Subscription>, w: Webhook, i: nat, t: Transition, now: int)
    requires FindWebhookSubscription(subs, w) == Some(i)
    ensures FindWebhookSubscription(subs[i := UpdatedSubscription(subs[i], w, t, now)], w) == Some(i)
  {
    var next := subs[i := UpdatedSubscription(subs[i], w, t, now)];
    if w.subscriptionId.Some? {
      LastMatchIs(next, (s: Subscription) => s.providerSubscriptionId == w.subscriptionId, i);
      var x := w.subscriptionId.value;
      LastMatchIs(next, (s: Subscription) => s.providerSubscriptionId == Some(x), i);
    } else if w.paymentId.Some? {
      var p := w.paymentId.value;
      LastMatchIs(next, (s: Subscription) => s.providerPaymentId == Some(p), i);
    }
  }

  // ---------------------------------------------------------------- executing an activation twice

  /** `CanUpdateUser` as it would be with provider id `id` on row `i`. */
  ghost predicate CanUpdateAs(subs: seq<Subscription>, i: nat, id: Option<string>)
    requires i < |subs|
  {
    !exists j :: i < j < |subs| && subs[j].userId == subs[i].userId && subs[j].status.ACTIVE?
                 && (id.Some? ==> subs[j].providerSubscriptionId.Some? && subs[j].providerSubscriptionId != id)
  }

  /** When the redelivery may do more than the first execution: the first was held back by a newer ACTIVE
      subscription, the id it wrote lifts that protection, and the user was on something else. */
  ghost predicate RetryChangesUser(db: Database, i: nat, w: Webhook)
    requires i < |db.subscriptions| && db.subscriptions[i].userId < |db.users|
  {
    var sub := db.subscriptions[i];
    var user := db.users[sub.userId];
    && !CanUpdateUser(db.subscriptions, i)
    && CanUpdateAs(db.subscriptions, i, OrElse(w.subscriptionId, sub.providerSubscriptionId))
    && !(user.plan == sub.plan && user.status.ACTIVE?)
  }

  lemma SecondCheckReadsTheNewId(subs: seq<Subscription>, i: nat, updated: Subscription)
    requires i < |subs| && updated.userId == subs[i].userId
    ensures CanUpdateUser(subs[i := updated], i) <==> CanUpdateAs(subs, i, updated.providerSubscriptionId)
  {
    var next := subs[i := updated];
    assert forall j | i < j < |subs| :: next[j] == subs[j];
    if !CanUpdateUser(next, i) {
      var j :| 0 <= j < |next| && NewerActive(next, i, j);
      assert next[j] == subs[j];
    }
    if !CanUpdateAs(subs, i, updated.providerSubscriptionId) {
      var j :| i < j < |subs| && subs[j].userId == subs[i].userId && subs[j].status.ACTIVE?
               && (updated.providerSubscriptionId.Some? ==>
                     && subs[j].providerSubscriptionId.Some?
                     && subs[j].providerSubscriptionId != updated.providerSubscriptionId);
      assert NewerActive(next, i, j);
    }
  }

  /** The second transaction leaves the row as it is. */
  lemma SecondTransaction(db: Database, i: nat, w: Webhook, t: Transition, first: int, second: int)
    requires i < |db.subscriptions| && db.subscriptions[i].userId < |db.users|
    requires ReadTransition(w.kind) == Some(t) && Activates(w.kind) && w.paymentId.Some?
    ensures var once := Transacted(db, i, w, t, first);
            var twice := Transacted(once, i, w, t, second);
            && twice.subscriptions == once.subscriptions && twice.referrals == once.referrals
            && twice.events == once.events && twice.waitingMs == once.waitingMs
            && (RetryChangesUser(db, i, w) ==> twice.users != once.users)
            && (!RetryChangesUser(db, i, w) ==> twice.users == once.users)
  {
    var sub := db.subscriptions[i];
    var once := Transacted(db, i, w, t, first);
    SecondCheckReadsTheNewId(db.subscriptions, i, UpdatedSubscription(sub, w, t, first));
    assert UpdatedSubscription(once.subscriptions[i], w, t, second) == once.subscriptions[i];
    assert once.subscriptions[i].plan == sub.plan;
    if CanUpdateUser(once.subscriptions, i) {
      var twice := Transacted(once, i, w, t, second);
      assert twice.users[sub.userId].plan == sub.plan && twice.users[sub.userId].status == ACTIVE;
    }
  }

  /** The row as the transaction leaves it and everything the transaction does not write. */
  lemma TransactionFrame(db: Database, i: nat, w: Webhook, t: Transition, now: int)
    requires i < |db.subscriptions| && db.subscriptions[i].userId < |db.users|
    ensures var next := Transacted(db, i, w, t, now);
            && next.referrals == db.referrals && next.events == db.events && next.waitingMs == db.waitingMs
            && next.subscriptions == db.subscriptions[i := UpdatedSubscription(db.subscriptions[i], w, t, now)]
            && |next.users| == |db.users|
            && next.users[db.subscriptions[i].userId].cpfHash == db.users[db.subscriptions[i].userId].cpfHash
            && next.users == db.users[db.subscriptions[i].userId := next.users[db.subscriptions[i].userId]]
  {
  }

  lemma ReferralFrame(db: Database, sub: Subscription, w: Webhook, t: Transition, now: int)
    requires sub.userId < |db.users| && Activates(w.kind) && ReadTransition(w.kind) == Some(t)
    ensures var next := ReferralFollowed(db, sub, w, t, now);
            && next.subscriptions == db.subscriptions && next.events == db.events && next.waitingMs == db.waitingMs
            && next.users == Hashed(db.users, sub.userId, w)
            && next.referrals == if w.kind.PAYMENT_CONFIRMED? then PaymentConfirmed(db, sub.userId, now).referrals
                                 else db.referrals
  {
  }

  lemma ConfirmedOnce(db: Database, other: Database, u: nat, first: int, second: int)
    requires other.waitingMs == db.waitingMs && other.referrals == PaymentConfirmed(db, u, first).referrals
    ensures PaymentConfirmed(other, u, second).referrals == other.referrals
  {
  }

  /** The second transaction writes the user after its hash exactly as it would have before. */
  lemma HashedUsers(db: Database, hashed: Database, i: nat, w: Webhook, t: Transition, now: int)
    requires i < |db.subscriptions| && db.subscriptions[i].userId < |db.users|
    requires hashed.subscriptions == db.subscriptions
    requires hashed.users == Hashed(db.users, db.subscriptions[i].userId, w)
    ensures Transacted(hashed, i, w, t, now).users
         == Hashed(Transacted(db, i, w, t, now).users, db.subscriptions[i].userId, w)
    ensures Hashed(hashed.users, db.subscriptions[i].userId, w) == hashed.users
  {
  }

  lemma HashedAgrees(users: seq<User>, u: nat, user: User, w: Webhook)
    requires u < |users| && user.cpfHash == users[u].cpfHash
    ensures Hashed(users[u := user], u, w) == Hashed(users, u, w) <==> users[u := user] == users
  {
    if Hashed(users[u := user], u, w) == Hashed(users, u, w) {
      assert Hashed(users[u := user], u, w)[u] == Hashed(users, u, w)[u];
      assert user.plan == users[u].plan && user.status == users[u].status
          && user.referredBy == users[u].referredBy && user.isActive == users[u].isActive;
      assert users[u := user] == users;
    }
  }

  /** Executing an activation twice, on the level of the effects. */
  lemma AppliedTwice(db: Database, i: nat, w: Webhook, t: Transition, first: int, second: int)
    requires i < |db.subscriptions| && db.subscriptions[i].userId < |db.users|
    requires ReadTransition(w.kind) == Some(t) && Activates(w.kind) && w.paymentId.Some?
    ensures var once := Applied(db, i, w, t, first);
            && once.subscriptions == Transacted(db, i, w, t, first).subscriptions
            && once.events == db.events && |once.users| == |db.users|
            && (Applied(once, i, w, t, second) == once <==> !RetryChangesUser(db, i, w))
  {
    var sub := db.subscriptions[i];
    var u := sub.userId;
    var transacted := Transacted(db, i, w, t, first);
    var once := Applied(db, i, w, t, first);
    TransactionFrame(db, i, w, t, first);
    ReferralFrame(transacted, sub, w, t, first);
    var again := Transacted(once, i, w, t, second);
    TransactionFrame(once, i, w, t, second);
    ReferralFrame(again, once.subscriptions[i], w, t, second);
    if w.kind.PAYMENT_CONFIRMED? { ConfirmedOnce(transacted, again, u, first, second); }
    SecondTransaction(db, i, w, t, first, second);
    var plain := Transacted(transacted, i, w, t, second);
    TransactionFrame(transacted, i, w, t, second);
    HashedUsers(transacted, once, i, w, t, second);
    HashedAgrees(transacted.users, u, plain.users[u], w);
    assert again.users == Hashed(plain.users, u, w);
    assert Hashed(again.users, u, w) == again.users;
    assert again.subscriptions == once.subscriptions by { assert plain.subscriptions == transacted.subscriptions; }
  }

  lemma HandledOnce(db: Database, w: Webhook, i: nat, t: Transition, now: int)
    requires ForeignKeys(db) && Resolved(db, w) == Some((i, t)) && !w.kind.SUBSCRIPTION_DELETED?
    ensures i < |db.subscriptions| && db.subscriptions[i].userId < |db.users|
    ensures Handled(db, w, now) == Marked(Applied(Marked(db, w.eventId, false), i, w, t, now), w.eventId, true)
  {
    assert db.subscriptions[i] in db.subscriptions;
  }

  lemma MarksAgree(db: Database, other: Database, eventId: string)
    requires db.events == other.events
    ensures Marked(db, eventId, true) == Marked(other, eventId, true) <==> db == other
  {
  }

  /** The redelivery after a crash that left the rows and events as `crashed`. */
  lemma RedeliveryApplies(db: Database, w: Webhook, i: nat, t: Transition, crashed: Database, first: int, second: int)
    requires ForeignKeys(db) && Resolved(db, w) == Some((i, t)) && Activates(w.kind)
    requires ForeignKeys(crashed) && crashed.events == Marked(db, w.eventId, false).events
    requires crashed.subscriptions == db.subscriptions[i := UpdatedSubscription(db.subscriptions[i], w, t, first)]
    ensures i < |crashed.subscriptions| && crashed.subscriptions[i].userId < |crashed.users|
    ensures Handled(crashed, w, second) == Marked(Applied(crashed, i, w, t, second), w.eventId, true)
  {
    RedeliveryResolvesToTheSameRow(db.subscriptions, w, i, t, first);
    assert Marked(crashed, w.eventId, false) == crashed;
    HandledOnce(crashed, w, i, t, second);
  }

  /** Crash after all effects but before `processedAt`: the redelivery gives exactly the state of a single
      uninterrupted execution, if and only if its second look at the user's protection does not move the user. */
  lemma RetryAfterCrash(db: Database, w: Webhook, first: int, second: int)
    requires ForeignKeys(db) && Resolved(db, w).Some? && Activates(w.kind) && w.paymentId.Some?
    ensures ForeignKeys(Delivered(db, w, first, UpToReferral))
    ensures var i := Resolved(db, w).value.0;
            && i < |db.subscriptions| && db.subscriptions[i].userId < |db.users|
            && (Handled(Delivered(db, w, first, UpToReferral), w, second) == Handled(db, w, first)
                <==> !RetryChangesUser(db, i, w))
  {
    var (i, t) := Resolved(db, w).value;
    var received := Marked(db, w.eventId, false);
    var crashed := Delivered(db, w, first, UpToReferral);
    HandledOnce(db, w, i, t, first);
    assert crashed == Applied(received, i, w, t, first);
    AppliedShape(received, i, w, t, first);
    ShapeKeepsKeys(received, crashed);
    TransactionFrame(received, i, w, t, first);
    AppliedTwice(received, i, w, t, first, second);
    RedeliveryApplies(db, w, i, t, crashed, first, second);
    AppliedShape(crashed, i, w, t, second);
    MarksAgree(Applied(crashed, i, w, t, second), crashed, w.eventId);
    assert RetryChangesUser(received, i, w) <==> RetryChangesUser(db, i, w);
  }

  /** A caller can rule the exception out beforehand: no newer ACTIVE subscription of the user. */
  lemma RetryIsHarmlessWithoutNewerActive(db: Database, w: Webhook, first: int, second: int)
    requires ForeignKeys(db) && Resolved(db, w).Some? && Activates(w.kind) && w.paymentId.Some?
    requires var i := Resolved(db, w).value.0;
             i < |db.subscriptions| &&
             forall j | i < j < |db.subscriptions| ::
               !(db.subscriptions[j].userId == db.subscriptions[i].userId && db.subscriptions[j].status.ACTIVE?)
    ensures ForeignKeys(Delivered(db, w, first, UpToReferral))
    ensures Handled(Delivered(db, w, first, UpToReferral), w, second) == Handled(db, w, first)
  {
    RetryAfterCrash(db, w, first, second);
  }

  lemma TransactionTwice(db: Database, i: nat, w: Webhook, t: Transition, first: int, second: int)
    requires i < |db.subscriptions| && db.subscriptions[i].userId < |db.users|
    requires ReadTransition(w.kind) == Some(t) && Activates(w.kind) && w.paymentId.Some?
    requires !RetryChangesUser(db, i, w)
    ensures var once := Transacted(db, i, w, t, first);
            && Transacted(once, i, w, t, second) == once && |once.users| == |db.users|
            && once.subscriptions == db.subscriptions[i := UpdatedSubscription(db.subscriptions[i], w, t, first)]
  {
    TransactionFrame(db, i, w, t, first);
    SecondTransaction(db, i, w, t, first, second);
  }

  /** The referral step of a redelivery confirms at its own time what the crashed delivery would have confirmed. */
  lemma LateReferral(db: Database, i: nat, w: Webhook, t: Transition, first: int, second: int, progress: Progress)
    requires i < |db.subscriptions| && db.subscriptions[i].userId < |db.users|
    requires ReadTransition(w.kind) == Some(t) && Activates(w.kind) && w.paymentId.Some?
    requires !RetryChangesUser(db, i, w) && (progress.UpToTransaction? || progress.UpToHash?)
    ensures var crashed := AppliedUpTo(db, i, w, t, first, progress);
            && SameShape(db, crashed) && crashed.events == db.events
            && crashed.subscriptions == db.subscriptions[i := UpdatedSubscription(db.subscriptions[i], w, t, first)]
            && Applied(crashed, i, w, t, second)
               == Applied(db, i, w, t, first).(referrals := Applied(db, i, w, t, second).referrals)
  {
    var u := db.subscriptions[i].userId;
    var once := Transacted(db, i, w, t, first);
    var crashed := AppliedUpTo(db, i, w, t, first, progress);
    TransactedShape(db, i, w, t, first);
    TransactionTwice(db, i, w, t, first, second);
    TransactionFrame(crashed, i, w, t, second);
    TransactionFrame(db, i, w, t, first);
    TransactionFrame(db, i, w, t, second);
    if progress.UpToHash? { HashedUsers(once, crashed, i, w, t, second); }
    ReferralFrame(Transacted(crashed, i, w, t, second), crashed.subscriptions[i], w, t, second);
    ReferralFrame(once, db.subscriptions[i], w, t, first);
    ReferralFrame(Transacted(db, i, w, t, second), db.subscriptions[i], w, t, second);
  }

  /** Crash between the transaction and the referral step, before or after the write of the document hash: under
      the same condition the redelivery finishes the job, with the referral confirmed at the time of the
      redelivery. */
  lemma RetryAfterTransaction(db: Database, w: Webhook, first: int, second: int, progress: Progress)
    requires ForeignKeys(db) && Resolved(db, w).Some? && Activates(w.kind) && w.paymentId.Some?
    requires progress.UpToTransaction? || progress.UpToHash?
    requires var i := Resolved(db, w).value.0;
             i < |db.subscriptions| && db.subscriptions[i].userId < |db.users| && !RetryChangesUser(db, i, w)
    ensures ForeignKeys(Delivered(db, w, first, progress))
    ensures Handled(Delivered(db, w, first, progress), w, second)
         == Handled(db, w, first).(referrals := Handled(db, w, second).referrals)
  {
    var (i, t) := Resolved(db, w).value;
    var received := Marked(db, w.eventId, false);
    var crashed := Delivered(db, w, first, progress);
    assert crashed == AppliedUpTo(received, i, w, t, first, progress);
    assert RetryChangesUser(received, i, w) <==> RetryChangesUser(db, i, w);
    LateReferral(received, i, w, t, first, second, progress);
    ShapeKeepsKeys(received, crashed);
    HandledOnce(db, w, i, t, first);
    HandledOnce(db, w, i, t, second);
    RedeliveryApplies(db, w, i, t, crashed, first, second);
  }

  /** A crash behind `processedAt` leaves nothing to do but the end of a deleted subscription, which every read of
      the user catches up on. */
  lemma RetryAfterProcessed(db: Database, w: Webhook, first: int, second: int)
    requires ForeignKeys(db) && Resolved(db, w).Some?
    ensures var crashed := Delivered(db, w, first, UpToProcessed);
            && ForeignKeys(crashed) && Handled(crashed, w, second) == crashed
            && Handled(db, w, first)
               == if w.kind.SUBSCRIPTION_DELETED?
                  then Expired(crashed, db.subscriptions[Resolved(db, w).value.0].userId, first) else crashed
  {
    var (i, t) := Resolved(db, w).value;
    assert db.subscriptions[i] in db.subscriptions;
    var received := Marked(db, w.eventId, false);
    AppliedShape(received, i, w, t, first);
    ShapeKeepsKeys(db, Delivered(db, w, first, UpToProcessed));
  }

  // ---------------------------------------------------------------- a redelivery that moves the user

  /** A user who ordered BASIC, then PRO, and paid for PRO before the provider's id of that row was stored. */
  const UPGRADED := Database(
    [User(PRO, ACTIVE, Some("h"), None, true)],
    [Subscription(0, BASIC, None, None, PENDING, None, None, None, false),
     Subscription(0, PRO, None, Some("q"), ACTIVE, Some(0), Some(PERIOD_MS), None, false)],
    map[], map["e" := true], 0)

  const BASIC_PAID := Webhook("f", PAYMENT_CONFIRMED, Some("p"), Some("s"), Some(0), None)

  /** The crashed delivery has given the BASIC row its provider id. */
  const HELD_BACK := UPGRADED.(
    subscriptions := [Subscription(0, BASIC, Some("s"), Some("p"), ACTIVE, Some(0), Some(PERIOD_MS), None, false),
                      UPGRADED.subscriptions[1]],
    events := map["e" := true, "f" := false])

  const ORDER := Subscription(0, BASIC, None, None, PENDING, None, None, None, false)

  /** Both ordered, nothing paid. */
  const ORDERED := Database(
    [User(FREE, NONE, Some("h"), None, true)], [ORDER, ORDER.(plan := PRO)], map[], map[], 0)

  lemma FirstOrderIsReachable()
    ensures Reachable(System(ORDERED.(subscriptions := [ORDER]), 0, map[]))
  {
    StartIsReachable(0, 0);
    var one := System(Database([User(FREE, NONE, None, None, true)], [], map[], map[], 0), 0, map[]);
    StepIsReachable(System(Database([], [], map[], map[], 0), 0, map[]), Register(None), 0, one);
    StepIsReachable(one, BeginCheckout(0, BASIC, "h"), 0, System(ORDERED.(subscriptions := [ORDER]), 0, map[]));
  }

  lemma OrderedIsReachable()
    ensures Reachable(System(ORDERED, 0, map[]))
  {
    FirstOrderIsReachable();
    var two := System(ORDERED.(subscriptions := [ORDER]), 0, map[]);
    StepIsReachable(two, BeginCheckout(0, PRO, "h"), 0, System(ORDERED, 0, map[]));
  }

  lemma UpgradePaid(w: Webhook)
    requires w == Webhook("e", PAYMENT_CONFIRMED, Some("q"), None, Some(1), None)
    ensures ForeignKeys(ORDERED) && Handled(ORDERED, w, 0) == UPGRADED
  {
    assert ByPaymentId(ORDERED.subscriptions, "q").None?;
    assert FindWebhookSubscription(ORDERED.subscriptions, w) == Some(1);
    assert CanUpdateUser(ORDERED.subscriptions, 1);
  }

  lemma UpgradedIsReachable()
    ensures Reachable(System(UPGRADED, 0, map[]))
  {
    OrderedIsReachable();
    var w := Webhook("e", PAYMENT_CONFIRMED, Some("q"), None, Some(1), None);
    UpgradePaid(w);
    StepIsReachable(System(ORDERED, 0, map[]), Deliver(w, Completed), 0, System(UPGRADED, 0, map[]));
  }

  lemma BasicPaidResolves()
    ensures ForeignKeys(UPGRADED)
    ensures Resolved(UPGRADED, BASIC_PAID) == Some((0, Transition(ACTIVE, ACTIVE, true, false)))
    ensures !CanUpdateUser(UPGRADED.subscriptions, 0)
  {
    assert "p"[0] != "q"[0] && "e"[0] != "f"[0];
    assert BySubscriptionId(UPGRADED.subscriptions, "s").None?;
    assert ByPaymentId(UPGRADED.subscriptions, "p").None?;
    assert NewerActive(UPGRADED.subscriptions, 0, 1);
  }

  lemma CrashedDelivery()
    ensures ForeignKeys(UPGRADED) && Delivered(UPGRADED, BASIC_PAID, 0, UpToReferral) == HELD_BACK
    ensures Handled(UPGRADED, BASIC_PAID, 0) == Marked(HELD_BACK, "f", true)
  {
    BasicPaidResolves();
    var t := Transition(ACTIVE, ACTIVE, true, false);
    HandledOnce(UPGRADED, BASIC_PAID, 0, t, 0);
    assert UpdatedSubscription(ORDER, BASIC_PAID, t, 0) == HELD_BACK.subscriptions[0];
    var received := Marked(UPGRADED, "f", false);
    assert Transacted(received, 0, BASIC_PAID, t, 0) == HELD_BACK;
  }

  lemma Redelivery()
    ensures ForeignKeys(HELD_BACK)
    ensures Handled(HELD_BACK, BASIC_PAID, 0).users == [User(BASIC, ACTIVE, Some("h"), None, true)]
    ensures Handled(HELD_BACK, BASIC_PAID, 0).subscriptions == HELD_BACK.subscriptions
  {
    assert "e"[0] != "f"[0];
    LastMatchIs(HELD_BACK.subscriptions, (s: Subscription) => s.providerSubscriptionId == Some("s"), 0);
    assert CanUpdateUser(HELD_BACK.subscriptions, 0);
    var t := Transition(ACTIVE, ACTIVE, true, false);
    assert Resolved(HELD_BACK, BASIC_PAID) == Some((0, t));
    HandledOnce(HELD_BACK, BASIC_PAID, 0, t, 0);
    assert UpdatedSubscription(HELD_BACK.subscriptions[0], BASIC_PAID, t, 0) == HELD_BACK.subscriptions[0];
  }

  /** The exception is reachable: one delivery of the late payment for BASIC leaves the user on PRO, but a crash
      before `processedAt` and a redelivery move the user to BASIC, although PRO is newer and ACTIVE. */
  lemma RetryCanMoveTheUser()
    ensures Reachable(System(UPGRADED, 0, map[])) && ForeignKeys(UPGRADED)
    ensures var crashed := Delivered(UPGRADED, BASIC_PAID, 0, UpToReferral);
            && Handled(UPGRADED, BASIC_PAID, 0).users == [User(PRO, ACTIVE, Some("h"), None, true)]
            && ForeignKeys(crashed)
            && Handled(crashed, BASIC_PAID, 0).users == [User(BASIC, ACTIVE, Some("h"), None, true)]
            && |Handled(crashed, BASIC_PAID, 0).subscriptions| == 2
            && var newer := Handled(crashed, BASIC_PAID, 0).subscriptions[1];
               newer.plan.PRO? && newer.status.ACTIVE? && newer.userId == 0
  {
    UpgradedIsReachable();
    CrashedDelivery();
    Redelivery();
  }
}
