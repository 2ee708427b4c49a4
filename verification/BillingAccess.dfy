/** A canceled subscription keeps its plan exactly to the end of the paid period (billing.service.ts,
    auth.service.ts). */
module BillingAccess {
  import opened Wrappers
  import opened Rows
  import opened PlanLimits
  import opened BillingModel
  import opened BillingRuns
  import opened BillingRetry

  /** What can happen after the cancellation: the user reads either profile, or the provider reports a deleted
      subscription. */
  datatype Event = BillingMe(now: int) | AuthMe(now: int) | Deleted(webhook: Webhook, now: int)

  ghost function Happened(db: Database, user: nat, e: Event): (next: Database)
    requires ForeignKeys(db)
    ensures ForeignKeys(next)
  {
    match e
    case Deleted(w, now) =>
      HandledKeepsShape(db, w, now);
      Handled(db, w, now)
    case _ =>
      ExpiredShape(db, user, e.now);
      ShapeKeepsKeys(db, Expired(db, user, e.now));
      Expired(db, user, e.now)
  }

  ghost function AllHappened(db: Database, user: nat, es: seq<Event>): (next: Database)
    requires ForeignKeys(db)
    ensures ForeignKeys(next)
    decreases |es|
  {
    if es == [] then db else AllHappened(Happened(db, user, es[0]), user, es[1..])
  }

  ghost predicate InOrder(clock: int, es: seq<Event>) {
    && (es != [] ==> clock <= es[0].now)
    && (forall k | 0 < k < |es| :: es[k - 1].now <= es[k].now)
    && (forall e <- es :: e.Deleted? ==> e.webhook.kind.SUBSCRIPTION_DELETED?)
  }

  /** The end of the period of a row that is scheduled to end then. */
  function ScheduledEnd(s: Subscription): Option<int> {
    if s.cancelAtPeriodEnd then s.periodEnd else None
  }

  /** Row `i` has its provider id, no other row of the user is scheduled to end before `end`, and no newer one could
      protect the user from the end of this one. */
  ghost predicate FirstEnding(db: Database, user: nat, i: nat, end: int) {
    && i < |db.subscriptions| && user < |db.users|
    && db.subscriptions[i].userId == user && db.subscriptions[i].providerSubscriptionId.Some?
    && forall k | 0 <= k < |db.subscriptions| && k != i && db.subscriptions[k].userId == user ::
         && (ScheduledEnd(db.subscriptions[k]).Some? ==> end <= ScheduledEnd(db.subscriptions[k]).value)
         && (k > i ==> !Cancelable(db.subscriptions[k], user))
  }

  /** No other subscription of the user is scheduled to end earlier than row `i`. */
  ghost predicate OthersStay(db: Database, user: nat, i: nat) {
    && i < |db.subscriptions|
    && forall k | 0 <= k < |db.subscriptions| && k != i && db.subscriptions[k].userId == user ::
         ScheduledEnd(db.subscriptions[k]).Some? && db.subscriptions[i].periodEnd.Some? ==>
           db.subscriptions[i].periodEnd.value <= ScheduledEnd(db.subscriptions[k]).value
  }

  /** Nothing is due when a cancellation goes through. */
  lemma NothingDue(db: Database, user: nat, i: nat, start: int)
    requires CheckCancel(Expired(db, user, start), user) == Schedule(i)
    ensures Expired(db, user, start) == db
    ensures forall k | 0 <= k < |db.subscriptions| :: !Expirable(db.subscriptions[k], user, start)
  {
  }

  /** `cancel` takes the newest cancelable row, so nothing newer is in the way. */
  lemma OthersStayMeans(db: Database, user: nat, i: nat, start: int)
    requires OthersStay(db, user, i) && CheckCancel(Expired(db, user, start), user) == Schedule(i)
    ensures db.subscriptions[i].periodEnd.Some?
    ensures FirstEnding(db, user, i, db.subscriptions[i].periodEnd.value)
  {
    NothingDue(db, user, i, start);
    assert Cancelable(db.subscriptions[i], user);
  }

  /** The report is on row `i`, on the row of somebody else, or on none. */
  ghost predicate SparesOthers(db: Database, user: nat, i: nat, w: Webhook) {
    var found := FindWebhookSubscription(db.subscriptions, w);
    found.None? || found.value == i || db.subscriptions[found.value].userId != user
  }

  /** No deletion report names another row of the user, when it arrives. */
  ghost predicate Spares(db: Database, user: nat, i: nat, es: seq<Event>)
    requires ForeignKeys(db)
    decreases |es|
  {
    es != [] ==>
      && (es[0].Deleted? ==> SparesOthers(db, user, i, es[0].webhook))
      && Spares(Happened(db, user, es[0]), user, i, es[1..])
  }

  /** The canceled row, while its time runs, or once the end was noticed. */
  ghost predicate Winding(db: Database, user: nat, i: nat, end: int, plan: Plan, clock: int) {
    && FirstEnding(db, user, i, end)
    && db.subscriptions[i].status.CANCELED? && db.subscriptions[i].periodEnd == Some(end)
    && var shown := (db.users[user].plan, db.users[user].status);
       || (db.subscriptions[i].cancelAtPeriodEnd && shown == (plan, ACTIVE))
       || (end <= clock && shown == (FREE, CANCELED))
  }

  ghost predicate ShownAt(db: Database, user: nat, end: int, plan: Plan, now: int)
    requires user < |db.users|
  {
    if now < end then db.users[user].plan == plan && db.users[user].status == ACTIVE
    else db.users[user].plan == FREE && db.users[user].status == CANCELED
  }

  lemma ReadWinds(db: Database, user: nat, i: nat, end: int, plan: Plan, clock: int, now: int)
    requires Winding(db, user, i, end, plan, clock) && clock <= now
    ensures Winding(Expired(db, user, now), user, i, end, plan, now)
    ensures ShownAt(Expired(db, user, now), user, end, plan, now)
  {
    var found := LastMatch(db.subscriptions, (s: Subscription) => Expirable(s, user, now));
    if now < end {
      assert forall k | 0 <= k < |db.subscriptions| :: Expirable(db.subscriptions[k], user, now) ==>
          ScheduledEnd(db.subscriptions[k]).Some? && ScheduledEnd(db.subscriptions[k]).value <= now;
      assert found.None?;
    } else if db.subscriptions[i].cancelAtPeriodEnd {
      assert Expirable(db.subscriptions[i], user, now);
      assert found.Some?;
    }
  }

  /** Reads of other users do not touch this one. */
  lemma OtherReadWinds(db: Database, user: nat, other: nat, i: nat, end: int, plan: Plan, clock: int, now: int)
    requires Winding(db, user, i, end, plan, clock) && clock <= now && other != user
    ensures Winding(Expired(db, other, now), user, i, end, plan, now)
  {
  }

  /** A report on the canceled row, or on a row of somebody else. */
  lemma TransactionWinds(
    db: Database, user: nat, i: nat, k: nat, end: int, plan: Plan, clock: int, w: Webhook, t: Transition, now: int)
    requires Winding(db, user, i, end, plan, clock) && clock <= now && k < |db.subscriptions|
    requires k == i || db.subscriptions[k].userId != user
    requires db.subscriptions[k].userId < |db.users|
    requires w.kind.SUBSCRIPTION_DELETED? && ReadTransition(w.kind) == Some(t)
    ensures Winding(Transacted(db, k, w, t, now), user, i, end, plan, now)
  {
    TransactionFrame(db, k, w, t, now);
    if k == i {
      forall j | 0 <= j < |db.subscriptions| ensures !NewerActive(db.subscriptions, i, j) {
        assert j > i && db.subscriptions[j].userId == user ==> !Cancelable(db.subscriptions[j], user);
      }
    }
  }

  /** The referral step and the marks touch nothing the access rests on. */
  lemma FollowingWinds(
    db: Database, user: nat, i: nat, end: int, plan: Plan, clock: int, sub: Subscription, w: Webhook, t: Transition,
    now: int)
    requires Winding(db, user, i, end, plan, clock) && sub.userId < |db.users| && w.kind.SUBSCRIPTION_DELETED?
    ensures Winding(Marked(ReferralFollowed(db, sub, w, t, now), w.eventId, true), user, i, end, plan, clock)
  {
  }

  lemma DeletionWinds(db: Database, user: nat, i: nat, end: int, plan: Plan, clock: int, w: Webhook, now: int)
    requires ForeignKeys(db) && Winding(db, user, i, end, plan, clock) && clock <= now
    requires w.kind.SUBSCRIPTION_DELETED?
    requires SparesOthers(db, user, i, w)
    ensures Winding(Handled(db, w, now), user, i, end, plan, now)
  {
    var resolved := Resolved(db, w);
    if resolved.Some? {
      var (k, t) := resolved.value;
      assert db.subscriptions[k] in db.subscriptions;
      var owner := db.subscriptions[k].userId;
      var received := Marked(db, w.eventId, false);
      TransactionWinds(received, user, i, k, end, plan, clock, w, t, now);
      FollowingWinds(Transacted(received, k, w, t, now), user, i, end, plan, now, db.subscriptions[k], w, t, now);
      var applied := Marked(Applied(received, k, w, t, now), w.eventId, true);
      if owner == user {
        ReadWinds(applied, user, i, end, plan, now, now);
      } else {
        OtherReadWinds(applied, user, owner, i, end, plan, now, now);
      }
    }
  }

  lemma EventWinds(db: Database, user: nat, i: nat, end: int, plan: Plan, clock: int, e: Event)
    requires ForeignKeys(db) && Winding(db, user, i, end, plan, clock) && clock <= e.now
    requires e.Deleted? ==> e.webhook.kind.SUBSCRIPTION_DELETED? && SparesOthers(db, user, i, e.webhook)
    ensures Winding(Happened(db, user, e), user, i, end, plan, e.now)
    ensures !e.Deleted? ==> ShownAt(Happened(db, user, e), user, end, plan, e.now)
  {
    if e.Deleted? {
      DeletionWinds(db, user, i, end, plan, clock, e.webhook, e.now);
    } else {
      ReadWinds(db, user, i, end, plan, clock, e.now);
    }
  }

  lemma LaterEvents(clock: int, es: seq<Event>)
    requires InOrder(clock, es) && es != []
    ensures clock <= es[0].now && InOrder(es[0].now, es[1..])
    ensures es[0].Deleted? ==> es[0].webhook.kind.SUBSCRIPTION_DELETED?
  {
    assert es[0] in es;
    forall x | x in es[1..] ensures x in es {
    }
  }

  lemma {:induction false} EventsWind(
    db: Database, user: nat, i: nat, end: int, plan: Plan, clock: int, es: seq<Event>)
    requires ForeignKeys(db) && Winding(db, user, i, end, plan, clock) && InOrder(clock, es) && es != []
    requires Spares(db, user, i, es)
    ensures var after := AllHappened(db, user, es);
            var last := es[|es| - 1];
            && Winding(after, user, i, end, plan, last.now)
            && (!last.Deleted? ==> ShownAt(after, user, end, plan, last.now))
    decreases |es|
  {
    LaterEvents(clock, es);
    EventWinds(db, user, i, end, plan, clock, es[0]);
    var next, rest := Happened(db, user, es[0]), es[1..];
    assert AllHappened(db, user, es) == AllHappened(next, user, rest);
    if rest != [] {
      assert rest[|rest| - 1] == es[|es| - 1];
      EventsWind(next, user, i, end, plan, es[0].now, rest);
    }
  }

  lemma SchedulingWinds(db: Database, user: nat, i: nat, start: int, end: int)
    requires FirstEnding(db, user, i, end) && db.subscriptions[i].periodEnd == Some(end)
    requires CheckCancel(Expired(db, user, start), user) == Schedule(i)
    ensures Winding(Canceled(db, user, start), user, i, end, db.users[user].plan, start)
    ensures !db.users[user].plan.FREE?
  {
    NothingDue(db, user, i, start);
  }

  lemma CancelKeepsKeys(db: Database, user: nat, start: int)
    requires ForeignKeys(db)
    ensures ForeignKeys(Canceled(db, user, start))
  {
    ExpiredShape(db, user, start);
    ShapeKeepsKeys(db, Expired(db, user, start));
    ShapeKeepsKeys(Expired(db, user, start), Canceled(db, user, start));
  }

  /** When no other subscription of the user is scheduled to end earlier, and whatever reads and reports of deleted
      subscriptions, of this one or of other users, follow a cancellation, in whatever order, and up to whichever
      read: a read before the end of the period shows the plan the user had, ACTIVE; a read at or after the end
      shows FREE, CANCELED. */
  lemma CanceledAccessLastsToTheEnd(db: Database, user: nat, i: nat, start: int, es: seq<Event>)
    requires ForeignKeys(db) && OthersStay(db, user, i)
    requires CheckCancel(Expired(db, user, start), user) == Schedule(i)
    requires InOrder(start, es) && es != [] && !es[|es| - 1].Deleted?
    ensures ForeignKeys(Canceled(db, user, start))
    ensures i < |db.subscriptions| && db.subscriptions[i].periodEnd.Some? && user < |db.users|
    ensures Spares(Canceled(db, user, start), user, i, es) ==>
              var read := es[|es| - 1].now;
              var after := AllHappened(Canceled(db, user, start), user, es);
              && user < |after.users|
              && ShownAt(after, user, db.subscriptions[i].periodEnd.value, db.users[user].plan, read)
              && !db.users[user].plan.FREE?
  {
    CancelKeepsKeys(db, user, start);
    OthersStayMeans(db, user, i, start);
    var end := db.subscriptions[i].periodEnd.value;
    SchedulingWinds(db, user, i, start, end);
    if Spares(Canceled(db, user, start), user, i, es) {
      EventsWind(Canceled(db, user, start), user, i, end, db.users[user].plan, start, es);
    }
  }

  /** Whatever happens from `start` on, every read shows the plan before `end` and FREE from then on. */
  ghost predicate AccessLasts(db: Database, user: nat, i: nat, start: int, end: int, plan: Plan)
    requires ForeignKeys(db)
  {
    forall es: seq<Event> | InOrder(start, es) && es != [] && !es[|es| - 1].Deleted? && Spares(db, user, i, es) ::
      && user < |AllHappened(db, user, es).users|
      && ShownAt(AllHappened(db, user, es), user, end, plan, es[|es| - 1].now)
  }

  /** A row scheduled to end earlier takes the access away when its own end is noticed. */
  lemma EarlierEndTakesAccess(db: Database, user: nat, i: nat, k: nat, start: int)
    requires ForeignKeys(db) && ForeignKeys(Canceled(db, user, start))
    requires CheckCancel(Expired(db, user, start), user) == Schedule(i)
    requires i < |db.subscriptions| && db.subscriptions[i].periodEnd.Some? && user < |db.users|
    requires k < |db.subscriptions| && k != i && db.subscriptions[k].userId == user
    requires ScheduledEnd(db.subscriptions[k]).Some?
    requires ScheduledEnd(db.subscriptions[k]).value < db.subscriptions[i].periodEnd.value
    ensures !AccessLasts(
              Canceled(db, user, start), user, i, start, db.subscriptions[i].periodEnd.value, db.users[user].plan)
  {
    NothingDue(db, user, i, start);
    var read := ScheduledEnd(db.subscriptions[k]).value;
    assert !Expirable(db.subscriptions[k], user, start) && start < read;
    var canceled := Canceled(db, user, start);
    assert Expirable(canceled.subscriptions[k], user, read);
    assert Expired(canceled, user, read).users[user].status == CANCELED;
    var es := [BillingMe(read)];
    assert es[1..] == [];
    assert AllHappened(canceled, user, es) == Expired(canceled, user, read);
    assert Spares(canceled, user, i, es);
  }

  /** A canceled subscription gives access exactly to the end of its period, whatever reads and reports follow, if and
      only if no other subscription of the user is scheduled to end earlier. */
  lemma CanceledAccessLastsIff(db: Database, user: nat, i: nat, start: int)
    requires ForeignKeys(db) && CheckCancel(Expired(db, user, start), user) == Schedule(i)
    ensures ForeignKeys(Canceled(db, user, start))
    ensures i < |db.subscriptions| && db.subscriptions[i].periodEnd.Some? && user < |db.users|
    ensures AccessLasts(
              Canceled(db, user, start), user, i, start, db.subscriptions[i].periodEnd.value, db.users[user].plan)
       <==> OthersStay(db, user, i)
  {
    CancelKeepsKeys(db, user, start);
    NothingDue(db, user, i, start);
    if OthersStay(db, user, i) {
      forall es: seq<Event> | InOrder(start, es) && es != [] && !es[|es| - 1].Deleted?
                  && Spares(Canceled(db, user, start), user, i, es) {
        CanceledAccessLastsToTheEnd(db, user, i, start, es);
      }
    } else {
      var k: nat :| k < |db.subscriptions| && k != i && db.subscriptions[k].userId == user
                    && ScheduledEnd(db.subscriptions[k]).Some?
                    && ScheduledEnd(db.subscriptions[k]).value < db.subscriptions[i].periodEnd.value;
      EarlierEndTakesAccess(db, user, i, k, start);
    }
  }

  // ---------------------------------------------------------------- several subscriptions

  /** Noticing the end of a scheduled subscription takes the plan away, whatever other subscription is ACTIVE: it
      leaves the user alone if and only if nothing is due or the user has nothing to lose. */
  lemma ExpiryIgnoresOtherSubscriptions(db: Database, user: nat, now: int)
    requires user < |db.users|
    ensures Expired(db, user, now).users == db.users
       <==> || (forall s <- db.subscriptions :: !Expirable(s, user, now))
            || (db.users[user].plan.FREE? && db.users[user].status.CANCELED?)
  {
    var found := LastMatch(db.subscriptions, (s: Subscription) => Expirable(s, user, now));
    if found.Some? {
      assert db.subscriptions[found.value] in db.subscriptions;
      if Expired(db, user, now).users == db.users {
        assert Expired(db, user, now).users[user] == db.users[user];
      }
    }
  }

  function Ordered(plan: Plan): Subscription {
    Subscription(0, plan, None, None, PENDING, None, None, None, false)
  }

  function On(plan: Plan, status: SubscriptionStatus): seq<User> {
    [User(plan, status, Some("h"), None, true)]
  }

  /** BASIC canceled to the end of its period. */
  const ENDING := Subscription(0, BASIC, Some("s"), Some("p"), CANCELED, Some(0), Some(PERIOD_MS), Some(0), true)

  /** PRO paid one millisecond later. */
  const NEWER := Subscription(0, PRO, Some("t"), Some("q"), ACTIVE, Some(1), Some(1 + PERIOD_MS), None, false)

  const BASIC_PAYMENT := Webhook("e", PAYMENT_CONFIRMED, Some("p"), Some("s"), Some(0), None)
  const PRO_PAYMENT := Webhook("f", PAYMENT_CONFIRMED, Some("q"), Some("t"), Some(1), None)

  lemma BasicOrderIsReachable()
    ensures Reachable(System(Database(On(FREE, NONE), [Ordered(BASIC)], map[], map[], 0), 0, map[]))
  {
    StartIsReachable(0, 0);
    var one := System(Database([User(FREE, NONE, None, None, true)], [], map[], map[], 0), 0, map[]);
    StepIsReachable(System(Database([], [], map[], map[], 0), 0, map[]), Register(None), 0, one);
    StepIsReachable(one, BeginCheckout(0, BASIC, "h"), 0,
                    System(Database(On(FREE, NONE), [Ordered(BASIC)], map[], map[], 0), 0, map[]));
  }

  lemma BasicPaid(db: Database)
    requires db == Database(On(FREE, NONE), [Ordered(BASIC)], map[], map[], 0)
    ensures ForeignKeys(db)
    ensures Handled(db, BASIC_PAYMENT, 0)
         == Database(On(BASIC, ACTIVE), [ENDING.(status := ACTIVE, canceledAt := None, cancelAtPeriodEnd := false)],
                     map[], map["e" := true], 0)
  {
    assert BySubscriptionId(db.subscriptions, "s").None? && ByPaymentId(db.subscriptions, "p").None?;
    assert FindWebhookSubscription(db.subscriptions, BASIC_PAYMENT) == Some(0);
    assert CanUpdateUser(db.subscriptions, 0);
    HandledOnce(db, BASIC_PAYMENT, 0, Transition(ACTIVE, ACTIVE, true, false), 0);
  }

  lemma EndingIsReachable()
    ensures Reachable(System(Database(On(BASIC, ACTIVE), [ENDING], map[], map["e" := true], 0), 0, map[]))
  {
    BasicOrderIsReachable();
    var ordered := Database(On(FREE, NONE), [Ordered(BASIC)], map[], map[], 0);
    BasicPaid(ordered);
    var paid := System(Handled(ordered, BASIC_PAYMENT, 0), 0, map[]);
    StepIsReachable(System(ordered, 0, map[]), Deliver(BASIC_PAYMENT, Completed), 0, paid);
    StepIsReachable(paid, CommitCancel(0), 0,
                    System(Database(On(BASIC, ACTIVE), [ENDING], map[], map["e" := true], 0), 0, map[]));
  }

  lemma ProPaid(db: Database)
    requires db == Database(On(BASIC, ACTIVE), [ENDING, Ordered(PRO)], map[], map["e" := true], 0)
    ensures ForeignKeys(db)
    ensures Handled(db, PRO_PAYMENT, 1)
         == Database(On(PRO, ACTIVE), [ENDING, NEWER], map[], map["e" := true, "f" := true], 0)
  {
    assert "e"[0] != "f"[0] && "s"[0] != "t"[0] && "p"[0] != "q"[0];
    assert BySubscriptionId(db.subscriptions, "t").None? && ByPaymentId(db.subscriptions, "q").None?;
    assert FindWebhookSubscription(db.subscriptions, PRO_PAYMENT) == Some(1);
    assert CanUpdateUser(db.subscriptions, 1);
    HandledOnce(db, PRO_PAYMENT, 1, Transition(ACTIVE, ACTIVE, true, false), 1);
  }

  lemma BothPaidIsReachable()
    ensures var db := Database(On(PRO, ACTIVE), [ENDING, NEWER], map[], map["e" := true, "f" := true], 0);
            Reachable(System(db, 1, map[]))
  {
    EndingIsReachable();
    var ending := System(Database(On(BASIC, ACTIVE), [ENDING], map[], map["e" := true], 0), 0, map[]);
    var ordered := Database(On(BASIC, ACTIVE), [ENDING, Ordered(PRO)], map[], map["e" := true], 0);
    StepIsReachable(ending, BeginCheckout(0, PRO, "h"), 0, System(ordered, 0, map[]));
    ProPaid(ordered);
    StepIsReachable(System(ordered, 0, map[]), Deliver(PRO_PAYMENT, Completed), 1,
                    System(Handled(ordered, PRO_PAYMENT, 1), 1, map[]));
  }

  /** With several subscriptions access can end early: a user who canceled BASIC and then bought PRO is on FREE as
      soon as the end of BASIC is noticed, while PRO is ACTIVE and paid. */
  lemma OldExpiryEndsNewerPlan()
    ensures var db := Database(On(PRO, ACTIVE), [ENDING, NEWER], map[], map["e" := true, "f" := true], 0);
            && Reachable(System(db, 1, map[]))
            && Expired(db, 0, PERIOD_MS).users == On(FREE, CANCELED)
            && |Expired(db, 0, PERIOD_MS).subscriptions| == 2
            && Expired(db, 0, PERIOD_MS).subscriptions[1] == NEWER
            && NEWER.status.ACTIVE? && NEWER.periodEnd == Some(PERIOD_MS + 1)
  {
    BothPaidIsReachable();
    var db := Database(On(PRO, ACTIVE), [ENDING, NEWER], map[], map["e" := true, "f" := true], 0);
    LastMatchIs(db.subscriptions, (s: Subscription) => Expirable(s, 0, PERIOD_MS), 0);
  }
}
