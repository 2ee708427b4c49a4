/** What a promotion of a referral rests on, over runs in which the eligibility job is cut at its awaits
    (referrals.service.ts, processEligible): it selects the candidates, and later examines and writes each. */
module ReferralWaits {
  import opened Wrappers
  import opened PlanLimits
  import opened BillingModel
  import opened BillingRuns
  import Referrals

  // ---------------------------------------------------------------- one step

  ghost predicate Confirms(s: System, step: Step, u: nat) {
    step.Deliver? && step.webhook.kind.PAYMENT_CONFIRMED? && ConfirmedBy(s.db, step.webhook, step.progress) == Some(u)
  }

  ghost predicate Resets(s: System, step: Step, now: int, u: nat) {
    step.Deliver? && ResetBy(s.db, step.webhook, now, step.progress) == Some(u)
  }

  /** The end of a canceled subscription is none of the referrals' business. */
  lemma ExpiryOnReferrals(db: Database, user: nat, now: int)
    ensures Expired(db, user, now).referrals == db.referrals
  {
  }

  lemma AppliedOnReferrals(db: Database, i: nat, w: Webhook, t: Transition, now: int, progress: Progress)
    requires i < |db.subscriptions| && db.subscriptions[i].userId < |db.users|
    ensures var sub := db.subscriptions[i];
            AppliedUpTo(db, i, w, t, now, progress).referrals
            == if !ReachesReferral(progress) then db.referrals
               else if w.kind.PAYMENT_CONFIRMED? then PaymentConfirmed(db, sub.userId, now).referrals
               else if ResetsReferral(sub, w, t, now) then WaitingReset(db, sub.userId).referrals
               else db.referrals
  {
    var transacted := Transacted(db, i, w, t, now);
    assert transacted.referrals == db.referrals && transacted.waitingMs == db.waitingMs;
  }

  /** What a delivery does to the referrals: it confirms one, resets one, or leaves them alone. */
  lemma DeliveryOnReferrals(db: Database, w: Webhook, now: int, progress: Progress)
    requires ForeignKeys(db)
    ensures var confirmed, reset := ConfirmedBy(db, w, progress), ResetBy(db, w, now, progress);
            Delivered(db, w, now, progress).referrals
            == if confirmed.Some? then PaymentConfirmed(db, confirmed.value, now).referrals
               else if reset.Some? then WaitingReset(db, reset.value).referrals
               else db.referrals
  {
    if Resolved(db, w).Some? {
      var (i, t) := Resolved(db, w).value;
      DeliveredResolved(db, w, now, progress);
      AppliedOnReferrals(Marked(db, w.eventId, false), i, w, t, now, progress);
      var applied := AppliedUpTo(Marked(db, w.eventId, false), i, w, t, now, progress);
      ExpiryOnReferrals(applied, db.subscriptions[i].userId, now);
    } else {
      DeliveredUnresolved(db, w, now, progress);
    }
  }

  /** A referral that waits after a step waited already, unreset, or is confirmed by the step. */
  lemma WaitingStep(s: System, step: Step, now: int, u: nat)
    requires Enabled(s, step, now) && ForeignKeys(s.db)
    requires u in NextDb(s, step, now).referrals && NextDb(s, step, now).referrals[u].status.PENDING_WAITING_PERIOD?
    ensures u in s.db.referrals
    ensures var r := NextDb(s, step, now).referrals[u];
            || (r == s.db.referrals[u] && !Resets(s, step, now, u))
            || (Confirms(s, step, u) && r.paymentConfirmedAt == Some(now))
  {
    if step.Deliver? {
      DeliveryOnReferrals(s.db, step.webhook, now, step.progress);
    } else if step.ReadMe? {
      ExpiryOnReferrals(s.db, step.user, now);
    }
  }

  /** Only the write of a verdict makes a referral eligible. */
  lemma PromotingStep(s: System, step: Step, now: int, u: nat)
    requires Enabled(s, step, now) && ForeignKeys(s.db)
    requires u in NextDb(s, step, now).referrals && NextDb(s, step, now).referrals[u].status.ELIGIBLE?
    requires u in s.db.referrals ==> !s.db.referrals[u].status.ELIGIBLE?
    ensures step.WriteVerdict? && s.jobs[step.job].pending == Some((u, None))
  {
    if step.Deliver? {
      DeliveryOnReferrals(s.db, step.webhook, now, step.progress);
    } else if step.ReadMe? {
      ExpiryOnReferrals(s.db, step.user, now);
    }
  }

  // ---------------------------------------------------------------- runs

  /** No order to start over between step `j` and state `i`. */
  ghost predicate Unbroken(states: seq<System>, steps: seq<(Step, int)>, j: nat, i: nat, u: nat)
    requires IsRun(states, steps) && i <= |steps|
  {
    forall m | j < m < i :: !Resets(states[m], steps[m].0, steps[m].1, u)
  }

  /** The waiting period that runs in state `i` began with the confirmation in step `j`. */
  ghost predicate WaitBegan(states: seq<System>, steps: seq<(Step, int)>, j: nat, i: nat, u: nat)
    requires IsRun(states, steps) && i <= |steps|
  {
    && j < i && u in states[i].db.referrals
    && Confirms(states[j], steps[j].0, u)
    && states[i].db.referrals[u].paymentConfirmedAt == Some(steps[j].1)
    && Unbroken(states, steps, j, i, u)
  }

  lemma {:induction false} WaitsBegan(states: seq<System>, steps: seq<(Step, int)>, i: nat, u: nat)
    requires IsRun(states, steps) && i <= |steps|
    requires u in states[i].db.referrals && states[i].db.referrals[u].status.PENDING_WAITING_PERIOD?
    ensures exists j: nat :: WaitBegan(states, steps, j, i, u)
  {
    assert i > 0;
    var s, step, now := states[i - 1], steps[i - 1].0, steps[i - 1].1;
    assert states[i].db == NextDb(s, step, now);
    WaitingStep(s, step, now, u);
    if Confirms(s, step, u) && states[i].db.referrals[u].paymentConfirmedAt == Some(now) {
      assert WaitBegan(states, steps, i - 1, i, u);
    } else {
      WaitsBegan(states, steps, i - 1, u);
      var j: nat :| WaitBegan(states, steps, j, i - 1, u);
      assert WaitBegan(states, steps, j, i, u);
    }
  }

  /** Job `j` selected its candidates in step `k`. */
  ghost predicate SelectedAt(states: seq<System>, steps: seq<(Step, int)>, k: nat, j: nat, job: Job) {
    && k < |steps| && k < |states| && steps[k].0 == BeginJob(j)
    && job.seen == states[k].db && job.now == steps[k].1
  }

  lemma {:induction false} JobsWereSelected(states: seq<System>, steps: seq<(Step, int)>, i: nat, j: nat)
    requires IsRun(states, steps) && i <= |steps| && j in states[i].jobs
    ensures exists k: nat :: k < i && SelectedAt(states, steps, k, j, states[i].jobs[j])
  {
    assert i > 0;
    var s, step, now := states[i - 1], steps[i - 1].0, steps[i - 1].1;
    assert states[i].jobs == NextJobs(s, step, now);
    if step == BeginJob(j) {
      assert SelectedAt(states, steps, i - 1, j, states[i].jobs[j]);
    } else {
      JobsWereSelected(states, steps, i - 1, j);
      var k: nat :| k < i - 1 && SelectedAt(states, steps, k, j, s.jobs[j]);
      assert SelectedAt(states, steps, k, j, states[i].jobs[j]);
    }
  }

  /** What a selection says about the referral. */
  lemma SelectedWaited(states: seq<System>, steps: seq<(Step, int)>, k: nat, u: nat, now: int)
    requires IsRun(states, steps) && k <= |steps| && u in Decided(states[k].db, now)
    ensures var db := states[k].db;
            && u in db.referrals && u < |db.users| && db.users[u].isActive && db.users[u].status == ACTIVE
            && db.referrals[u].status.PENDING_WAITING_PERIOD? && db.referrals[u].paymentConfirmedAt.Some?
            && db.referrals[u].paymentConfirmedAt.value + db.waitingMs <= now
    ensures exists j: nat :: WaitBegan(states, steps, j, k, u)
  {
    var db := states[k].db;
    RunsKeepReferrals(states, steps, k);
    assert ReferralOk(db.referrals[u], u, db.users[u], db.waitingMs);
    WaitsBegan(states, steps, k, u);
  }

  /** A referral becomes ELIGIBLE only when a job writes its verdict. When that job selected its candidates, in
      step `k`, the user was enabled and ACTIVE, the referral was waiting since the payment confirmed in step `j`, a
      full waiting period before, and no order to start over came in between. Up to the write none came if and
      only if none came between the selection and the write. */
  lemma PromotionFollowsAFullWait(states: seq<System>, steps: seq<(Step, int)>, i: nat, u: nat)
    requires IsRun(states, steps) && i < |steps|
    requires u in states[i + 1].db.referrals && states[i + 1].db.referrals[u].status.ELIGIBLE?
    requires u in states[i].db.referrals ==> !states[i].db.referrals[u].status.ELIGIBLE?
    ensures steps[i].0.WriteVerdict?
    ensures exists j: nat, k: nat ::
              && k < i && steps[k].0 == BeginJob(steps[i].0.job)
              && WaitBegan(states, steps, j, k, u)
              && states[k].db.referrals[u].status.PENDING_WAITING_PERIOD?
              && u < |states[k].db.users| && states[k].db.users[u].isActive && states[k].db.users[u].status == ACTIVE
              && steps[j].1 + states[k].db.waitingMs <= steps[k].1
              && (Unbroken(states, steps, j, i, u) <==> Unbroken(states, steps, k - 1, i, u))
  {
    assert states[i + 1].db == NextDb(states[i], steps[i].0, steps[i].1);
    PromotingStep(states[i], steps[i].0, steps[i].1, u);
    var job := states[i].jobs[steps[i].0.job];
    RunsKeepReferrals(states, steps, i);
    assert JobOk(job);
    JobsWereSelected(states, steps, i, steps[i].0.job);
    var k: nat :| k < i && SelectedAt(states, steps, k, steps[i].0.job, job);
    SelectedWaited(states, steps, k, u, job.now);
    var j: nat :| WaitBegan(states, steps, j, k, u);
    assert Unbroken(states, steps, j, i, u) <==> Unbroken(states, steps, k - 1, i, u);
  }

  // ---------------------------------------------------------------- decisions that last

  /** The step writes a verdict on the referral. */
  ghost predicate Judges(s: System, step: Step, u: nat) {
    && step.WriteVerdict? && step.job in s.jobs && s.jobs[step.job].pending.Some?
    && s.jobs[step.job].pending.value.0 == u
  }

  /** What takes back a payout or a rejection: a verdict, and for a rejection also a confirmed payment while the
      referral has no payment time. */
  ghost predicate TakesBack(s: System, step: Step, u: nat)
    requires u in s.db.referrals
  {
    || Judges(s, step, u)
    || (s.db.referrals[u].status.REJECTED? && s.db.referrals[u].paymentConfirmedAt.None? && Confirms(s, step, u))
  }

  predicate IsFinal(status: ReferralStatus) {
    status.PAID? || status.REJECTED?
  }

  lemma FinalStep(s: System, step: Step, now: int, u: nat)
    requires Enabled(s, step, now) && ForeignKeys(s.db)
    requires u in s.db.referrals && IsFinal(s.db.referrals[u].status)
    ensures u in NextDb(s, step, now).referrals
    ensures NextDb(s, step, now).referrals[u].status == s.db.referrals[u].status <==> !TakesBack(s, step, u)
  {
    if step.Deliver? {
      DeliveryOnReferrals(s.db, step.webhook, now, step.progress);
    } else if step.ReadMe? {
      ExpiryOnReferrals(s.db, step.user, now);
    }
  }

  /** From state `i` to state `n` the referral has the status. */
  ghost predicate Keeps(states: seq<System>, i: nat, n: nat, u: nat, status: ReferralStatus)
    requires n < |states|
  {
    forall k | i <= k <= n :: u in states[k].db.referrals && states[k].db.referrals[u].status == status
  }

  ghost predicate TakenBack(states: seq<System>, steps: seq<(Step, int)>, k: nat, u: nat)
    requires k < |states| && k < |steps|
  {
    u in states[k].db.referrals && TakesBack(states[k], steps[k].0, u)
  }

  lemma OneMoreState(
    states: seq<System>, steps: seq<(Step, int)>, i: nat, n: nat, u: nat, status: ReferralStatus)
    requires IsRun(states, steps) && i <= n < |steps| && IsFinal(status)
    ensures Keeps(states, i, n + 1, u, status)
       <==> Keeps(states, i, n, u, status) && !TakenBack(states, steps, n, u)
  {
    if Keeps(states, i, n, u, status) {
      var s, step, now := states[n], steps[n].0, steps[n].1;
      assert u in s.db.referrals && s.db.referrals[u].status == status;
      assert states[n + 1].db == NextDb(s, step, now);
      FinalStep(s, step, now, u);
    }
  }

  /** A payout or a rejection lasts over a run if and only if no step of it takes the decision back. */
  lemma {:induction false} DecisionsLastIff(
    states: seq<System>, steps: seq<(Step, int)>, i: nat, n: nat, u: nat, status: ReferralStatus)
    requires IsRun(states, steps) && i <= n <= |steps| && IsFinal(status)
    requires u in states[i].db.referrals && states[i].db.referrals[u].status == status
    ensures Keeps(states, i, n, u, status) <==> forall k | i <= k < n :: !TakenBack(states, steps, k, u)
    decreases n
  {
    if n > i {
      DecisionsLastIff(states, steps, i, n - 1, u, status);
      OneMoreState(states, steps, i, n - 1, u, status);
    }
  }

  // ---------------------------------------------------------------- a reset between selection and write

  const REFERRER := User(FREE, NONE, None, None, true)

  function Referred(plan: Plan, status: SubscriptionStatus): User {
    User(plan, status, Some("h"), Some(0), true)
  }

  function Paid(status: SubscriptionStatus): Subscription {
    Subscription(1, BASIC, None, Some("p"), status, Some(0), Some(PERIOD_MS), None, false)
  }

  const CONFIRMED := Webhook("e", PAYMENT_CONFIRMED, Some("p"), None, Some(0), None)
  const OVERDUE := Webhook("f", PAYMENT_OVERDUE, Some("p"), None, Some(0), None)

  /** User 1, referred by user 0, has begun the checkout of a subscription. */
  function Ordered(waitingMs: nat): Database {
    Database(
      [REFERRER, Referred(FREE, NONE)], [Subscription(1, BASIC, None, None, PENDING, None, None, None, false)],
      map[1 := Referral(0, PENDING_PAYMENT, None, None, None)], map[], waitingMs)
  }

  /** The payment was confirmed at time 0. */
  function Waiting(waitingMs: nat): Database {
    Database(
      [REFERRER, Referred(BASIC, ACTIVE)], [Paid(ACTIVE)],
      map[1 := Referral(0, PENDING_WAITING_PERIOD, Some(0), Some(waitingMs), None)], map["e" := true], waitingMs)
  }

  /** The next payment is overdue, so the wait starts over. */
  function StartedOver(waitingMs: nat): Database {
    Database(
      [REFERRER, Referred(FREE, PAST_DUE)], [Paid(PAST_DUE)],
      map[1 := Referral(0, PENDING_PAYMENT, None, None, None)], map["e" := true, "f" := true], waitingMs)
  }

  /** A job that selected and examined the referral at the end of its wait. */
  function Examined(waitingMs: nat): Job {
    Job(Waiting(waitingMs), waitingMs, Some((1, None)), {})
  }

  lemma OrderedIsReachable(waitingMs: nat)
    ensures Reachable(System(Ordered(waitingMs), 0, map[]))
  {
    var empty := System(Database([], [], map[], map[], waitingMs), 0, map[]);
    StartIsReachable(waitingMs, 0);
    var one := System(Database([REFERRER], [], map[], map[], waitingMs), 0, map[]);
    StepIsReachable(empty, Register(None), 0, one);
    var link := map[1 := Referral(0, PENDING_PAYMENT, None, None, None)];
    var users := [REFERRER, User(FREE, NONE, None, Some(0), true)];
    var two := System(Database(users, [], link, map[], waitingMs), 0, map[]);
    StepIsReachable(one, Register(Some(0)), 0, two);
    StepIsReachable(two, BeginCheckout(1, BASIC, "h"), 0, System(Ordered(waitingMs), 0, map[]));
  }

  lemma ConfirmationDelivered(waitingMs: nat)
    ensures ForeignKeys(Ordered(waitingMs))
    ensures Delivered(Ordered(waitingMs), CONFIRMED, 0, Completed) == Waiting(waitingMs)
  {
    var db := Ordered(waitingMs);
    assert ByPaymentId(db.subscriptions, "p").None?;
    assert FindWebhookSubscription(db.subscriptions, CONFIRMED) == Some(0);
    assert CanUpdateUser(db.subscriptions, 0);
    var t := ReadTransition(CONFIRMED.kind).value;
    assert UpdatedSubscription(db.subscriptions[0], CONFIRMED, t, 0) == Paid(ACTIVE);
  }

  lemma OverdueDelivered(waitingMs: nat)
    ensures ForeignKeys(Waiting(waitingMs))
    ensures Delivered(Waiting(waitingMs), OVERDUE, waitingMs, Completed) == StartedOver(waitingMs)
    ensures ResetBy(Waiting(waitingMs), OVERDUE, waitingMs, Completed) == Some(1)
  {
    var db := Waiting(waitingMs);
    assert "e"[0] != "f"[0];
    assert ByPaymentId(db.subscriptions, "p") == Some(0);
    assert FindWebhookSubscription(db.subscriptions, OVERDUE) == Some(0);
    assert CanUpdateUser(db.subscriptions, 0);
    var t := ReadTransition(OVERDUE.kind).value;
    assert UpdatedSubscription(db.subscriptions[0], OVERDUE, t, waitingMs) == Paid(PAST_DUE);
  }

  lemma WaitingIsReachable(waitingMs: nat)
    ensures Reachable(System(Waiting(waitingMs), 0, map[]))
  {
    OrderedIsReachable(waitingMs);
    ConfirmationDelivered(waitingMs);
    StepIsReachable(System(Ordered(waitingMs), 0, map[]), Deliver(CONFIRMED, Completed), 0,
                    System(Waiting(waitingMs), 0, map[]));
  }

  lemma NothingAgainst(waitingMs: nat)
    ensures Decided(Waiting(waitingMs), waitingMs) == Candidates(Waiting(waitingMs), waitingMs) == {1}
    ensures Verdict(Waiting(waitingMs), Waiting(waitingMs), {1}, 1) == None
  {
  }

  lemma BegunIsReachable(waitingMs: nat)
    ensures Reachable(System(Waiting(waitingMs), waitingMs, map[0 := Job(Waiting(waitingMs), waitingMs, None, {})]))
  {
    WaitingIsReachable(waitingMs);
    OverdueDelivered(waitingMs);
    StepIsReachable(System(Waiting(waitingMs), 0, map[]), BeginJob(0), waitingMs,
                    System(Waiting(waitingMs), waitingMs, map[0 := Job(Waiting(waitingMs), waitingMs, None, {})]));
  }

  lemma ExaminedIsReachable(waitingMs: nat)
    ensures Reachable(System(Waiting(waitingMs), waitingMs, map[0 := Examined(waitingMs)]))
  {
    BegunIsReachable(waitingMs);
    OverdueDelivered(waitingMs);
    NothingAgainst(waitingMs);
    var begun := System(Waiting(waitingMs), waitingMs, map[0 := Job(Waiting(waitingMs), waitingMs, None, {})]);
    StepIsReachable(begun, Examine(0, 1), waitingMs,
                    System(Waiting(waitingMs), waitingMs, map[0 := Examined(waitingMs)]));
  }

  /** For every waiting period a run promotes a referral whose wait has just been told to start over: the reset
      comes between the selection and the write, which is by id and asks for no status. */
  lemma ResetIsOverwritten(waitingMs: nat)
    ensures var before := System(Waiting(waitingMs), waitingMs, map[0 := Examined(waitingMs)]);
            var reset := System(StartedOver(waitingMs), waitingMs, map[0 := Examined(waitingMs)]);
            && Reachable(reset) && Resets(before, Deliver(OVERDUE, Completed), waitingMs, 1)
            && Enabled(reset, WriteVerdict(0), waitingMs)
            && NextDb(reset, WriteVerdict(0), waitingMs).referrals[1] == Referral(0, ELIGIBLE, None, None, None)
  {
    ExaminedIsReachable(waitingMs);
    OverdueDelivered(waitingMs);
    var before := System(Waiting(waitingMs), waitingMs, map[0 := Examined(waitingMs)]);
    var reset := System(StartedOver(waitingMs), waitingMs, map[0 := Examined(waitingMs)]);
    StepIsReachable(before, Deliver(OVERDUE, Completed), waitingMs, reset);
    assert 1 in reset.db.referrals;
  }

  // ---------------------------------------------------------------- two jobs at a time

  /** The referral rewarded by the second job, and paid out. */
  function Rewarded(waitingMs: nat, status: ReferralStatus): Database {
    Waiting(waitingMs).(referrals := map[1 := Referral(0, status, Some(0), Some(waitingMs), None)])
  }

  function BothExamined(waitingMs: nat): map<nat, Job> {
    map[0 := Examined(waitingMs), 1 := Examined(waitingMs)]
  }

  function SecondDone(waitingMs: nat): map<nat, Job> {
    map[0 := Examined(waitingMs), 1 := Job(Waiting(waitingMs), waitingMs, None, {1})]
  }

  function SecondBegun(waitingMs: nat): map<nat, Job> {
    map[0 := Examined(waitingMs), 1 := Job(Waiting(waitingMs), waitingMs, None, {})]
  }

  lemma SecondBegunIsReachable(waitingMs: nat)
    ensures Reachable(System(Waiting(waitingMs), waitingMs, SecondBegun(waitingMs)))
  {
    ExaminedIsReachable(waitingMs);
    OverdueDelivered(waitingMs);
    StepIsReachable(System(Waiting(waitingMs), waitingMs, map[0 := Examined(waitingMs)]), BeginJob(1), waitingMs,
                    System(Waiting(waitingMs), waitingMs, SecondBegun(waitingMs)));
  }

  lemma BothExaminedIsReachable(waitingMs: nat)
    ensures Reachable(System(Waiting(waitingMs), waitingMs, BothExamined(waitingMs)))
  {
    SecondBegunIsReachable(waitingMs);
    OverdueDelivered(waitingMs);
    NothingAgainst(waitingMs);
    assert SecondBegun(waitingMs)[1 := Examined(waitingMs)] == BothExamined(waitingMs);
    StepIsReachable(System(Waiting(waitingMs), waitingMs, SecondBegun(waitingMs)), Examine(1, 1), waitingMs,
                    System(Waiting(waitingMs), waitingMs, BothExamined(waitingMs)));
  }

  lemma SecondWrites(waitingMs: nat)
    ensures var both := System(Waiting(waitingMs), waitingMs, BothExamined(waitingMs));
            && ForeignKeys(both.db) && Enabled(both, WriteVerdict(1), waitingMs)
            && NextDb(both, WriteVerdict(1), waitingMs) == Rewarded(waitingMs, ELIGIBLE)
            && NextJobs(both, WriteVerdict(1), waitingMs) == SecondDone(waitingMs)
  {
    assert {} + {1} == {1};
    assert BothExamined(waitingMs)[1 := Job(Waiting(waitingMs), waitingMs, None, {1})] == SecondDone(waitingMs);
  }

  lemma RewardedIsReachable(waitingMs: nat)
    ensures Reachable(System(Rewarded(waitingMs, ELIGIBLE), waitingMs, SecondDone(waitingMs)))
  {
    BothExaminedIsReachable(waitingMs);
    SecondWrites(waitingMs);
    StepIsReachable(System(Waiting(waitingMs), waitingMs, BothExamined(waitingMs)), WriteVerdict(1), waitingMs,
                    System(Rewarded(waitingMs, ELIGIBLE), waitingMs, SecondDone(waitingMs)));
  }

  lemma PaidIsReachable(waitingMs: nat)
    ensures Reachable(System(Rewarded(waitingMs, PAID), waitingMs, SecondDone(waitingMs)))
  {
    RewardedIsReachable(waitingMs);
    var rewarded := System(Rewarded(waitingMs, ELIGIBLE), waitingMs, SecondDone(waitingMs));
    StepIsReachable(rewarded, MarkPaid(1), waitingMs,
                    System(Rewarded(waitingMs, PAID), waitingMs, SecondDone(waitingMs)));
  }

  /** For every waiting period a run with two jobs makes a referral that was paid out ELIGIBLE again, so that it can be
      paid out twice: both jobs examined it, and one writes after the payout. */
  lemma PayoutIsTakenBack(waitingMs: nat)
    ensures var paid := System(Rewarded(waitingMs, PAID), waitingMs, SecondDone(waitingMs));
            && Reachable(paid) && paid.db.referrals[1].status.PAID?
            && Enabled(paid, WriteVerdict(0), waitingMs) && ForeignKeys(paid.db)
            && NextDb(paid, WriteVerdict(0), waitingMs) == Rewarded(waitingMs, ELIGIBLE)
  {
    PaidIsReachable(waitingMs);
    assert 1 in Rewarded(waitingMs, PAID).referrals;
  }

  // ---------------------------------------------------------------- a job nothing interrupts

  /** Examining and writing one candidate. */
  ghost function Handle(s: System, j: nat, u: nat): (next: System)
    requires ForeignKeys(s.db) && j in s.jobs && s.jobs[j].pending.None?
    requires u in Decided(s.jobs[j].seen, s.jobs[j].now) && u !in s.jobs[j].done && u in s.db.referrals
    ensures ForeignKeys(next.db) && j in next.jobs
    ensures next.jobs[j] == s.jobs[j].(done := s.jobs[j].done + {u})
    ensures var job := s.jobs[j];
            next.db == VerdictWritten(s.db, u, Verdict(job.seen, s.db, Candidates(job.seen, job.now), u))
  {
    var examined := Next(s, Examine(j, u), s.clock);
    Next(examined, WriteVerdict(j), s.clock)
  }

  /** Job `j` has begun, has selected `ids` among others, and has not come to them yet. */
  ghost predicate ToDo(s: System, j: nat, ids: seq<nat>) {
    && ForeignKeys(s.db) && j in s.jobs && s.jobs[j].pending.None?
    && Referrals.Distinct(ids)
    && forall u <- ids :: u in Decided(s.jobs[j].seen, s.jobs[j].now) && u !in s.jobs[j].done && u in s.db.referrals
  }

  /** One candidate after the other, in the order of `ids`, and nothing else. */
  ghost function Uninterrupted(s: System, j: nat, ids: seq<nat>): System
    requires ToDo(s, j, ids)
    decreases |ids|
  {
    if ids == [] then s
    else
      FirstHandled(s, j, ids);
      Uninterrupted(Handle(s, j, ids[0]), j, ids[1..])
  }

  lemma FirstHandled(s: System, j: nat, ids: seq<nat>)
    requires ToDo(s, j, ids) && ids != []
    ensures ids[0] in ids && ToDo(Handle(s, j, ids[0]), j, ids[1..])
    ensures ids[0] !in ids[1..]
  {
    var next := Handle(s, j, ids[0]);
    forall u | u in ids[1..] ensures u in ids && u != ids[0] {
    }
  }

  /** Job `j` began on `before` and has nothing but its verdicts on the candidates in `done` to show. */
  ghost predicate PartlyDone(s: System, j: nat, before: Database, now: int, done: set<nat>) {
    && j in s.jobs && s.jobs[j] == Job(before, now, None, done) && done <= Decided(before, now)
    && s.db == before.(referrals := Referrals.PartlyProcessed(before, now, done))
  }

  lemma OneMoreDone(s: System, j: nat, before: Database, now: int, done: set<nat>, u: nat)
    requires PartlyDone(s, j, before, now, done) && ForeignKeys(s.db)
    requires u in Decided(before, now) && u !in done && u in s.db.referrals
    ensures PartlyDone(Handle(s, j, u), j, before, now, done + {u})
  {
    LiveVerdict(before, now, done, u);
    Referrals.ProcessOne(before, now, done, u);
  }

  ghost function All(ids: seq<nat>): set<nat> {
    set u | u in ids
  }

  lemma AllOfRest(done: set<nat>, ids: seq<nat>)
    requires ids != []
    ensures done + All(ids) == done + {ids[0]} + All(ids[1..])
  {
    assert ids == [ids[0]] + ids[1..];
  }

  lemma {:induction false} RestIsDone(s: System, j: nat, before: Database, now: int, done: set<nat>, ids: seq<nat>)
    requires PartlyDone(s, j, before, now, done) && ToDo(s, j, ids)
    ensures PartlyDone(Uninterrupted(s, j, ids), j, before, now, done + All(ids))
    decreases |ids|
  {
    if ids == [] {
      assert done + All(ids) == done;
    } else {
      FirstHandled(s, j, ids);
      OneMoreDone(s, j, before, now, done, ids[0]);
      RestIsDone(Handle(s, j, ids[0]), j, before, now, done + {ids[0]}, ids[1..]);
      AllOfRest(done, ids);
    }
  }

  /** Without interruption the steps of a job do, in whatever order, what `EligibleProcessed` says. */
  lemma UninterruptedJobIsOneStep(s: System, j: nat, now: int, ids: seq<nat>)
    requires ForeignKeys(s.db) && j in s.jobs && s.jobs[j] == Job(s.db, now, None, {})
    requires Referrals.Lists(ids, Decided(s.db, now))
    ensures ToDo(s, j, ids) && Uninterrupted(s, j, ids).db == EligibleProcessed(s.db, now)
  {
    Referrals.PartlyProcessedBounds(s.db, now);
    RestIsDone(s, j, s.db, now, {}, ids);
    assert {} + All(ids) == Decided(s.db, now);
    assert Referrals.PartlyProcessed(s.db, now, {} + All(ids)) == EligibleProcessed(s.db, now).referrals;
  }

  lemma LiveVerdict(db: Database, now: int, done: set<nat>, u: nat)
    requires done <= Candidates(db, now) && u in Candidates(db, now) && u !in done
    ensures Verdict(db, db.(referrals := Referrals.PartlyProcessed(db, now, done)), Candidates(db, now), u)
         == Reason(db, Candidates(db, now), u)
  {
    var hash := db.users[u].cpfHash;
    if hash.Some? && !HashShared(db, Candidates(db, now), u, hash.value) {
      Referrals.LiveQueryAgrees(db, now, done, u, hash.value);
    }
  }
}
