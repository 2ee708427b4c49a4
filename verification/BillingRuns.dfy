/** Runs of the whole billing and referral system: registration, checkouts cut at the provider's answer,
    webhooks in any order and possibly interrupted, cancellations, reads, the eligibility job and the
    administration of referrals. The clock never goes back. */
module BillingRuns {
  import opened Wrappers
  import opened Rows
  import opened PlanLimits
  import opened BillingModel

  /** Where the processing of a webhook stops; anything but `Completed` is a crash. */
  datatype Progress = EventOnly | UpToTransaction | UpToHash | UpToReferral | UpToProcessed | Completed

  datatype Step =
    | Register(referrer: Option<nat>)
    | BeginCheckout(user: nat, plan: Plan, cpfHash: string)
    | FinishCheckout(id: nat, subscriptionId: Option<string>, paymentId: Option<string>, seen: SubscriptionStatus)
    | FailCheckout(id: nat)
    | Deliver(webhook: Webhook, progress: Progress)
    | ReadMe(user: nat)
    | CommitCancel(id: nat)
    | BeginJob(job: nat)
    | Examine(job: nat, candidate: nat)
    | WriteVerdict(job: nat)
    | MarkPaid(id: nat)
    | Reject(id: nat)

  /** A run of the eligibility job between its awaits: the database it selected its candidates from, the candidate
      it has examined and not yet written with the reason it found, and those it is done with. */
  datatype Job = Job(
    seen: Database, now: int, pending: Option<(nat, Option<AntifraudReason>)>, done: set<nat>)

  datatype System = System(db: Database, clock: int, jobs: map<nat, Job>)

  /** Provider answers may arrive for any row and with any status read before. */
  ghost predicate Enabled(s: System, step: Step, now: int) {
    && s.clock <= now
    && match step
       case Register(referrer) => referrer.Some? ==> referrer.value < |s.db.users|
       case BeginCheckout(user, plan, _) => user < |s.db.users| && !plan.FREE?
       case FinishCheckout(id, _, _, _) => id < |s.db.subscriptions|
       case FailCheckout(id) => id < |s.db.subscriptions|
       case CommitCancel(id) => id < |s.db.subscriptions|
       case BeginJob(j) => j !in s.jobs
       case Examine(j, u) =>
         j in s.jobs && s.jobs[j].pending.None? && u in Decided(s.jobs[j].seen, s.jobs[j].now) && u !in s.jobs[j].done
       case WriteVerdict(j) => j in s.jobs && s.jobs[j].pending.Some? && s.jobs[j].pending.value.0 in s.db.referrals
       case _ => true
  }

  /** The row and the transition of a webhook that gets past its duplicate check. */
  function Resolved(db: Database, w: Webhook): Option<(nat, Transition)> {
    var found, t := FindWebhookSubscription(db.subscriptions, w), ReadTransition(w.kind);
    if IsProcessed(db, w.eventId) || found.None? || t.None? then None else Some((found.value, t.value))
  }

  /** The effects of a webhook up to where its processing stopped, before the end of the subscription is noticed. */
  function AppliedUpTo(db: Database, i: nat, w: Webhook, t: Transition, now: int, progress: Progress): Database
    requires i < |db.subscriptions| && db.subscriptions[i].userId < |db.users|
  {
    match progress
    case EventOnly => db
    case UpToTransaction => Transacted(db, i, w, t, now)
    case UpToHash =>
      var transacted := Transacted(db, i, w, t, now);
      transacted.(users := Hashed(transacted.users, db.subscriptions[i].userId, w))
    case UpToReferral => Applied(db, i, w, t, now)
    case _ => Marked(Applied(db, i, w, t, now), w.eventId, true)
  }

  function Delivered(db: Database, w: Webhook, now: int, progress: Progress): Database
    requires ForeignKeys(db)
  {
    var resolved := Resolved(db, w);
    if progress.Completed? || IsProcessed(db, w.eventId) then Handled(db, w, now)
    else if resolved.None? then Marked(db, w.eventId, false)
    else AppliedUpTo(Marked(db, w.eventId, false), resolved.value.0, w, resolved.value.1, now, progress)
  }

  /** A delivery that resolves is its effects up to where it stopped and, when it completes, the end of a deleted
      subscription. */
  lemma DeliveredResolved(db: Database, w: Webhook, now: int, progress: Progress)
    requires ForeignKeys(db) && Resolved(db, w).Some?
    ensures var (i, t) := Resolved(db, w).value;
            && i < |db.subscriptions| && db.subscriptions[i].userId < |db.users| && ReadTransition(w.kind) == Some(t)
            && var applied := AppliedUpTo(Marked(db, w.eventId, false), i, w, t, now, progress);
               Delivered(db, w, now, progress)
               == if progress.Completed? && w.kind.SUBSCRIPTION_DELETED?
                  then Expired(applied, db.subscriptions[i].userId, now) else applied
  {
    assert db.subscriptions[Resolved(db, w).value.0] in db.subscriptions;
  }

  /** Any other delivery at most writes its event. */
  lemma DeliveredUnresolved(db: Database, w: Webhook, now: int, progress: Progress)
    requires ForeignKeys(db) && Resolved(db, w).None?
    ensures Delivered(db, w, now, progress) in {db, Marked(db, w.eventId, false), Marked(db, w.eventId, true)}
  {
  }

  predicate ReachesReferral(progress: Progress) {
    progress.UpToReferral? || progress.UpToProcessed? || progress.Completed?
  }

  /** The user whose payment a delivery confirms to the referrals. */
  function ConfirmedBy(db: Database, w: Webhook, progress: Progress): Option<nat> {
    var resolved := Resolved(db, w);
    if ReachesReferral(progress) && resolved.Some? && w.kind.PAYMENT_CONFIRMED?
    then Some(db.subscriptions[resolved.value.0].userId)
    else None
  }

  /** The user whose waiting period a delivery tells to start over. */
  function ResetBy(db: Database, w: Webhook, now: int, progress: Progress): Option<nat> {
    var resolved := Resolved(db, w);
    if ReachesReferral(progress) && resolved.Some? && !w.kind.PAYMENT_CONFIRMED?
       && ResetsReferral(db.subscriptions[resolved.value.0], w, resolved.value.1, now)
    then Some(db.subscriptions[resolved.value.0].userId)
    else None
  }

  /** The write of a verdict is by id and asks for no status. */
  function VerdictWritten(db: Database, u: nat, reason: Option<AntifraudReason>): Database
    requires u in db.referrals
  {
    db.(referrals := db.referrals[u := Judged(db.referrals[u], reason)])
  }

  ghost function NextDb(s: System, step: Step, now: int): Database
    requires Enabled(s, step, now) && ForeignKeys(s.db)
  {
    match step
    case Register(referrer) => Registered(s.db, referrer)
    case BeginCheckout(user, plan, cpfHash) => CheckoutBegun(s.db, user, plan, cpfHash)
    case FinishCheckout(id, subscriptionId, paymentId, seen) => CheckoutDone(s.db, id, subscriptionId, paymentId, seen)
    case FailCheckout(id) => CheckoutFailed(s.db, id, now)
    case Deliver(w, progress) => Delivered(s.db, w, now, progress)
    case ReadMe(user) => Expired(s.db, user, now)
    case CommitCancel(id) => CancelScheduled(s.db, id, now)
    case BeginJob(_) => s.db
    case Examine(_, _) => s.db
    case WriteVerdict(j) => VerdictWritten(s.db, s.jobs[j].pending.value.0, s.jobs[j].pending.value.1)
    case MarkPaid(id) => MarkedPaid(s.db, id)
    case Reject(id) => Rejected(s.db, id)
  }

  ghost function NextJobs(s: System, step: Step, now: int): map<nat, Job>
    requires Enabled(s, step, now)
  {
    match step
    case BeginJob(j) => s.jobs[j := Job(s.db, now, None, {})]
    case Examine(j, u) =>
      var job := s.jobs[j];
      s.jobs[j := job.(pending := Some((u, Verdict(job.seen, s.db, Candidates(job.seen, job.now), u))))]
    case WriteVerdict(j) =>
      s.jobs[j := s.jobs[j].(pending := None, done := s.jobs[j].done + {s.jobs[j].pending.value.0})]
    case _ => s.jobs
  }

  ghost function Next(s: System, step: Step, now: int): System
    requires Enabled(s, step, now) && ForeignKeys(s.db)
  {
    System(NextDb(s, step, now), now, NextJobs(s, step, now))
  }

  /** Every step keeps the foreign keys (`RunsAreBillingOk`), so asking for them excludes no run. */
  ghost predicate IsRun(states: seq<System>, steps: seq<(Step, int)>) {
    && |states| == |steps| + 1
    && (exists waitingMs, clock :: states[0] == System(Database([], [], map[], map[], waitingMs), clock, map[]))
    && forall i :: 0 <= i < |steps| ==>
         && Enabled(states[i], steps[i].0, steps[i].1) && ForeignKeys(states[i].db)
         && states[i + 1] == Next(states[i], steps[i].0, steps[i].1)
  }

  ghost predicate Reachable(s: System) {
    exists states, steps :: IsRun(states, steps) && states[|steps|] == s
  }

  lemma StartIsReachable(waitingMs: nat, clock: int)
    ensures Reachable(System(Database([], [], map[], map[], waitingMs), clock, map[]))
  {
    assert IsRun([System(Database([], [], map[], map[], waitingMs), clock, map[])], []);
  }

  lemma StepIsReachable(s: System, step: Step, now: int, t: System)
    requires Reachable(s) && Enabled(s, step, now) && ForeignKeys(s.db) && t == Next(s, step, now)
    ensures Reachable(t)
  {
    var states: seq<System>, steps: seq<(Step, int)> :| IsRun(states, steps) && states[|steps|] == s;
    var longer, more := states + [t], steps + [(step, now)];
    forall i | 0 <= i < |more|
      ensures Enabled(longer[i], more[i].0, more[i].1) && ForeignKeys(longer[i].db)
           && longer[i + 1] == Next(longer[i], more[i].0, more[i].1)
    {
      if i < |steps| { assert states[i + 1] == Next(states[i], steps[i].0, steps[i].1); }
    }
    assert longer[0] == states[0];
    assert IsRun(longer, more);
  }

  // ---------------------------------------------------------------- billing invariant

  ghost predicate SubscriptionOk(s: Subscription) {
    s.status.ACTIVE? ==>
      && s.periodStart.Some? && s.periodEnd == Some(s.periodStart.value + PERIOD_MS)
      && s.canceledAt.None? && !s.cancelAtPeriodEnd
  }

  ghost predicate UserOk(u: User) {
    u.plan.FREE? || u.status.ACTIVE? || u.status.PENDING?
  }

  ghost predicate BillingOk(db: Database) {
    && ForeignKeys(db)
    && (forall s <- db.subscriptions :: SubscriptionOk(s))
    && (forall u <- db.users :: UserOk(u))
  }

  // ---------------------------------------------------------------- referral invariant

  ghost predicate ReferralOk(r: Referral, id: nat, user: User, waitingMs: nat) {
    && user.referredBy == Some(r.referrer) && r.referrer != id
    && (r.antifraudReason.Some? ==> r.antifraudReason.value.DUPLICATE_CPF_CNPJ?)
    && (r.status.NEEDS_REVIEW? ==> r.antifraudReason.Some?)
    && (r.status.PENDING_WAITING_PERIOD? ==>
          && r.paymentConfirmedAt.Some? && r.eligibleAt == Some(r.paymentConfirmedAt.value + waitingMs)
          && user.cpfHash.Some?)
  }

  ghost predicate ReferralsOk(db: Database) {
    && ForeignKeys(db)
    && (forall u <- db.referrals :: ReferralOk(db.referrals[u], u, db.users[u], db.waitingMs))
    && (forall s <- db.subscriptions :: db.users[s.userId].cpfHash.Some?)
  }

  // ---------------------------------------------------------------- the operations keep the billing invariant

  /** Replacing one row and one user by good ones. */
  lemma WriteKeepsBilling(db: Database, i: nat, sub: Subscription, u: nat, user: User)
    requires BillingOk(db) && i < |db.subscriptions| && u < |db.users|
    requires SubscriptionOk(sub) && sub.userId == db.subscriptions[i].userId && UserOk(user)
    ensures BillingOk(db.(subscriptions := db.subscriptions[i := sub]))
    ensures BillingOk(db.(subscriptions := db.subscriptions[i := sub], users := db.users[u := user]))
  {
    var next := db.(subscriptions := db.subscriptions[i := sub], users := db.users[u := user]);
    assert db.subscriptions[i] in db.subscriptions;
    forall s | s in next.subscriptions ensures SubscriptionOk(s) && s.userId < |db.users| {
      assert s == sub || s in db.subscriptions;
    }
    forall x | x in next.users ensures UserOk(x) {
      assert x == user || x in db.users;
    }
  }

  lemma TransactionKeepsBilling(db: Database, i: nat, w: Webhook, t: Transition, now: int)
    requires BillingOk(db) && i < |db.subscriptions| && ReadTransition(w.kind) == Some(t)
    requires db.subscriptions[i].userId < |db.users|
    ensures BillingOk(Transacted(db, i, w, t, now))
  {
    var sub := db.subscriptions[i];
    var u := sub.userId;
    assert SubscriptionOk(sub) && UserOk(db.users[u]);
    WriteKeepsBilling(db, i, UpdatedSubscription(sub, w, t, now), u, UpdatedUser(db.users[u], sub, w, t, now));
  }

  lemma HashKeepsBilling(db: Database, u: nat, w: Webhook)
    requires BillingOk(db) && u < |db.users|
    ensures BillingOk(db.(users := Hashed(db.users, u, w)))
  {
    assert UserOk(db.users[u]);
    forall x | x in Hashed(db.users, u, w) ensures UserOk(x) {
      assert x in db.users || x == db.users[u].(cpfHash := w.cpfHash);
    }
  }

  lemma ReferralStepKeepsBilling(db: Database, sub: Subscription, w: Webhook, t: Transition, now: int)
    requires BillingOk(db) && sub.userId < |db.users|
    ensures BillingOk(ReferralFollowed(db, sub, w, t, now))
  {
    HashKeepsBilling(db, sub.userId, w);
    assert forall u <- db.referrals :: u < |db.users|;
  }

  lemma ExpiryKeepsBilling(db: Database, u: nat, now: int)
    requires BillingOk(db)
    ensures BillingOk(Expired(db, u, now))
  {
    var i := LastMatch(db.subscriptions, (s: Subscription) => Expirable(s, u, now));
    if i.Some? && u < |db.users| {
      var next := Expired(db, u, now);
      WriteKeepsBilling(db, i.value, next.subscriptions[i.value], u, next.users[u]);
    }
  }

  lemma AppliedKeepsBilling(db: Database, i: nat, w: Webhook, t: Transition, now: int, progress: Progress)
    requires BillingOk(db) && i < |db.subscriptions| && ReadTransition(w.kind) == Some(t)
    requires db.subscriptions[i].userId < |db.users|
    ensures BillingOk(AppliedUpTo(db, i, w, t, now, progress))
  {
    TransactionKeepsBilling(db, i, w, t, now);
    var transacted := Transacted(db, i, w, t, now);
    ReferralStepKeepsBilling(transacted, db.subscriptions[i], w, t, now);
    HashKeepsBilling(transacted, db.subscriptions[i].userId, w);
  }

  lemma DeliveryKeepsBilling(db: Database, w: Webhook, now: int, progress: Progress)
    requires BillingOk(db)
    ensures BillingOk(Delivered(db, w, now, progress))
  {
    if Resolved(db, w).Some? {
      var (i, t) := Resolved(db, w).value;
      DeliveredResolved(db, w, now, progress);
      AppliedKeepsBilling(Marked(db, w.eventId, false), i, w, t, now, progress);
      var applied := AppliedUpTo(Marked(db, w.eventId, false), i, w, t, now, progress);
      ExpiryKeepsBilling(applied, db.subscriptions[i].userId, now);
    } else {
      DeliveredUnresolved(db, w, now, progress);
    }
  }

  lemma RegistrationKeepsBilling(db: Database, referrer: Option<nat>)
    requires BillingOk(db) && (referrer.Some? ==> referrer.value < |db.users|)
    ensures BillingOk(Registered(db, referrer))
  {
    forall x | x in Registered(db, referrer).users ensures UserOk(x) {
      assert x in db.users || x == User(FREE, NONE, None, referrer, true);
    }
  }

  lemma CheckoutKeepsBilling(db: Database, u: nat, plan: Plan, cpfHash: string)
    requires BillingOk(db) && u < |db.users|
    ensures BillingOk(CheckoutBegun(db, u, plan, cpfHash))
  {
    assert UserOk(db.users[u]);
    forall x | x in CheckoutBegun(db, u, plan, cpfHash).users ensures UserOk(x) {
      assert x in db.users || x == db.users[u].(cpfHash := Some(cpfHash));
    }
  }

  /** Provider answers write one row, and perhaps its user. */
  lemma AnswerKeepsBilling(s: System, step: Step, now: int)
    requires BillingOk(s.db) && Enabled(s, step, now)
    requires step.FinishCheckout? || step.FailCheckout? || step.CommitCancel?
    ensures BillingOk(Next(s, step, now).db)
  {
    var db, next := s.db, Next(s, step, now).db;
    assert db.subscriptions[step.id] in db.subscriptions;
    var u := db.subscriptions[step.id].userId;
    assert UserOk(db.users[u]);
    WriteKeepsBilling(db, step.id, next.subscriptions[step.id], u, next.users[u]);
  }

  lemma StepKeepsBilling(s: System, step: Step, now: int)
    requires BillingOk(s.db) && Enabled(s, step, now)
    ensures BillingOk(Next(s, step, now).db)
  {
    match step
    case Deliver(w, progress) => DeliveryKeepsBilling(s.db, w, now, progress);
    case ReadMe(u) => ExpiryKeepsBilling(s.db, u, now);
    case BeginJob(_) =>
    case Examine(_, _) =>
    case WriteVerdict(_) =>
    case MarkPaid(_) =>
    case Reject(_) =>
    case Register(referrer) => RegistrationKeepsBilling(s.db, referrer);
    case BeginCheckout(u, plan, cpfHash) => CheckoutKeepsBilling(s.db, u, plan, cpfHash);
    case _ => AnswerKeepsBilling(s, step, now);
  }

  lemma {:induction false} RunsAreBillingOk(states: seq<System>, steps: seq<(Step, int)>, i: nat)
    requires IsRun(states, steps) && i < |states|
    ensures BillingOk(states[i].db)
  {
    if i > 0 {
      RunsAreBillingOk(states, steps, i - 1);
      StepKeepsBilling(states[i - 1], steps[i - 1].0, steps[i - 1].1);
    }
  }

  /** In every reachable state an ACTIVE subscription has a thirty-day period and no trace of a cancellation, and
      a paid plan comes with status ACTIVE or PENDING. */
  lemma ReachableBilling(states: seq<System>, steps: seq<(Step, int)>, i: nat)
    requires IsRun(states, steps) && i < |states|
    ensures forall s <- states[i].db.subscriptions :: s.status.ACTIVE? ==>
              && s.periodStart.Some? && s.periodEnd == Some(s.periodStart.value + 30 * DAY_MS)
              && s.canceledAt.None? && !s.cancelAtPeriodEnd
    ensures forall u <- states[i].db.users :: !u.plan.FREE? ==> u.status.ACTIVE? || u.status.PENDING?
  {
    RunsAreBillingOk(states, steps, i);
    forall s | s in states[i].db.subscriptions ensures SubscriptionOk(s) {
    }
    forall u | u in states[i].db.users ensures UserOk(u) {
    }
  }

  /** Two outcomes of `cancel` are never reached: no current period end, and already scheduled. */
  lemma CancelAlwaysSchedules(states: seq<System>, steps: seq<(Step, int)>, i: nat, user: nat, now: int)
    requires IsRun(states, steps) && i < |states|
    ensures var check := CheckCancel(Expired(states[i].db, user, now), user);
            !check.NoPeriodEnd? && !check.AlreadyScheduled?
  {
    RunsAreBillingOk(states, steps, i);
    ExpiryKeepsBilling(states[i].db, user, now);
    var db := Expired(states[i].db, user, now);
    var found := LastMatch(db.subscriptions, (s: Subscription) => Cancelable(s, user));
    if found.Some? {
      assert SubscriptionOk(db.subscriptions[found.value]);
    }
  }

  // ---------------------------------------------------------------- the operations keep the referral invariant

  /** `next` differs from `db` in nothing the referral invariant looks at, except that hashes may be set. */
  ghost predicate SameReferralView(db: Database, next: Database) {
    && next.referrals == db.referrals && next.waitingMs == db.waitingMs && |next.users| == |db.users|
    && (forall u | 0 <= u < |db.users| ::
          && next.users[u].referredBy == db.users[u].referredBy
          && (db.users[u].cpfHash.Some? ==> next.users[u].cpfHash.Some?))
    && (forall s <- next.subscriptions :: s.userId < |next.users|
          && (next.users[s.userId].cpfHash.Some? || exists r <- db.subscriptions :: r.userId == s.userId))
  }

  lemma ViewKeepsReferrals(db: Database, next: Database)
    requires ReferralsOk(db) && SameReferralView(db, next)
    ensures ReferralsOk(next)
  {
    forall u | u in next.referrals ensures ReferralOk(next.referrals[u], u, next.users[u], next.waitingMs) {
      assert ReferralOk(db.referrals[u], u, db.users[u], db.waitingMs);
    }
  }

  /** Replacing row `i`, for the same user, and user `u`, with the same link and at least the same hash. */
  lemma WriteKeepsReferrals(db: Database, i: nat, sub: Subscription, u: nat, user: User)
    requires ReferralsOk(db) && i < |db.subscriptions| && sub.userId == db.subscriptions[i].userId
    requires u < |db.users| && user.referredBy == db.users[u].referredBy && user.cpfHash == db.users[u].cpfHash
    ensures ReferralsOk(db.(subscriptions := db.subscriptions[i := sub]))
    ensures ReferralsOk(db.(subscriptions := db.subscriptions[i := sub], users := db.users[u := user]))
  {
    assert db.subscriptions[i] in db.subscriptions;
    var plain := db.(subscriptions := db.subscriptions[i := sub]);
    var next := db.(subscriptions := db.subscriptions[i := sub], users := db.users[u := user]);
    forall s | s in next.subscriptions ensures exists r <- db.subscriptions :: r.userId == s.userId {
      assert s in db.subscriptions || s.userId == db.subscriptions[i].userId;
    }
    ViewKeepsReferrals(db, plain);
    ViewKeepsReferrals(db, next);
  }

  lemma ExpiryKeepsReferrals(db: Database, u: nat, now: int)
    requires ReferralsOk(db)
    ensures ReferralsOk(Expired(db, u, now)) && Expired(db, u, now).referrals == db.referrals
  {
    var i := LastMatch(db.subscriptions, (s: Subscription) => Expirable(s, u, now));
    if i.Some? && u < |db.users| {
      var next := Expired(db, u, now);
      WriteKeepsReferrals(db, i.value, next.subscriptions[i.value], u, next.users[u]);
    }
  }

  lemma TransactionKeepsReferrals(db: Database, i: nat, w: Webhook, t: Transition, now: int)
    requires ReferralsOk(db) && i < |db.subscriptions| && db.subscriptions[i].userId < |db.users|
    ensures ReferralsOk(Transacted(db, i, w, t, now)) && Transacted(db, i, w, t, now).referrals == db.referrals
  {
    var sub := db.subscriptions[i];
    var u := sub.userId;
    WriteKeepsReferrals(db, i, UpdatedSubscription(sub, w, t, now), u, UpdatedUser(db.users[u], sub, w, t, now));
  }

  /** The one place a waiting period begins; the user has a row, so checkout has left a document hash. */
  lemma ConfirmationKeepsReferrals(db: Database, u: nat, now: int)
    requires ReferralsOk(db) && u < |db.users| && db.users[u].cpfHash.Some?
    ensures ReferralsOk(PaymentConfirmed(db, u, now))
  {
    var next := PaymentConfirmed(db, u, now);
    forall x | x in next.referrals ensures ReferralOk(next.referrals[x], x, next.users[x], next.waitingMs) {
      assert ReferralOk(db.referrals[x], x, db.users[x], db.waitingMs);
    }
  }

  lemma ResetKeepsReferrals(db: Database, u: nat)
    requires ReferralsOk(db)
    ensures ReferralsOk(WaitingReset(db, u))
  {
    var next := WaitingReset(db, u);
    forall x | x in next.referrals ensures ReferralOk(next.referrals[x], x, next.users[x], next.waitingMs) {
      assert ReferralOk(db.referrals[x], x, db.users[x], db.waitingMs);
    }
  }

  lemma HashKeepsReferrals(db: Database, u: nat, w: Webhook)
    requires ReferralsOk(db) && u < |db.users|
    ensures ReferralsOk(db.(users := Hashed(db.users, u, w)))
    ensures db.users[u].cpfHash.Some? ==> Hashed(db.users, u, w)[u].cpfHash.Some?
  {
    ViewKeepsReferrals(db, db.(users := Hashed(db.users, u, w)));
  }

  lemma ReferralStepKeepsReferrals(db: Database, sub: Subscription, w: Webhook, t: Transition, now: int)
    requires ReferralsOk(db) && sub.userId < |db.users| && db.users[sub.userId].cpfHash.Some?
    ensures ReferralsOk(ReferralFollowed(db, sub, w, t, now))
  {
    var u := sub.userId;
    if w.kind.PAYMENT_CONFIRMED? {
      HashKeepsReferrals(db, u, w);
      ConfirmationKeepsReferrals(db.(users := Hashed(db.users, u, w)), u, now);
    } else if ResetsReferral(sub, w, t, now) {
      ResetKeepsReferrals(db, u);
    }
  }

  lemma MarkKeepsReferrals(db: Database, eventId: string, processed: bool)
    requires ReferralsOk(db)
    ensures ReferralsOk(Marked(db, eventId, processed))
  {
    ViewKeepsReferrals(db, Marked(db, eventId, processed));
  }

  lemma AppliedKeepsReferrals(db: Database, i: nat, w: Webhook, t: Transition, now: int, progress: Progress)
    requires ReferralsOk(db) && i < |db.subscriptions| && db.subscriptions[i].userId < |db.users|
    ensures ReferralsOk(AppliedUpTo(db, i, w, t, now, progress))
  {
    var sub := db.subscriptions[i];
    assert sub in db.subscriptions;
    TransactionKeepsReferrals(db, i, w, t, now);
    var transacted := Transacted(db, i, w, t, now);
    HashKeepsReferrals(transacted, sub.userId, w);
    ReferralStepKeepsReferrals(transacted, sub, w, t, now);
    MarkKeepsReferrals(Applied(db, i, w, t, now), w.eventId, true);
  }

  lemma DeliveryKeepsReferrals(db: Database, w: Webhook, now: int, progress: Progress)
    requires ReferralsOk(db)
    ensures ReferralsOk(Delivered(db, w, now, progress))
  {
    MarkKeepsReferrals(db, w.eventId, false);
    MarkKeepsReferrals(db, w.eventId, true);
    if Resolved(db, w).Some? {
      var (i, t) := Resolved(db, w).value;
      DeliveredResolved(db, w, now, progress);
      AppliedKeepsReferrals(Marked(db, w.eventId, false), i, w, t, now, progress);
      var applied := AppliedUpTo(Marked(db, w.eventId, false), i, w, t, now, progress);
      ExpiryKeepsReferrals(applied, db.subscriptions[i].userId, now);
    } else {
      DeliveredUnresolved(db, w, now, progress);
    }
  }

  lemma RegistrationKeepsReferrals(db: Database, referrer: Option<nat>)
    requires ReferralsOk(db) && (referrer.Some? ==> referrer.value < |db.users|)
    ensures ReferralsOk(Registered(db, referrer))
  {
    var next := Registered(db, referrer);
    assert |db.users| !in db.referrals;
    forall x | x in next.referrals ensures ReferralOk(next.referrals[x], x, next.users[x], next.waitingMs) {
      if x != |db.users| { assert ReferralOk(db.referrals[x], x, db.users[x], db.waitingMs); }
    }
  }

  lemma CheckoutKeepsReferrals(db: Database, u: nat, plan: Plan, cpfHash: string)
    requires ReferralsOk(db) && u < |db.users|
    ensures ReferralsOk(CheckoutBegun(db, u, plan, cpfHash))
  {
    var next := CheckoutBegun(db, u, plan, cpfHash);
    forall s | s in next.subscriptions
      ensures s.userId < |next.users|
      ensures next.users[s.userId].cpfHash.Some? || exists r <- db.subscriptions :: r.userId == s.userId
    {
      assert s in db.subscriptions || s.userId == u;
    }
    ViewKeepsReferrals(db, next);
  }

  lemma PayoutKeepsReferrals(db: Database, id: nat)
    requires ReferralsOk(db)
    ensures ReferralsOk(MarkedPaid(db, id))
  {
    var next := MarkedPaid(db, id);
    forall x | x in next.referrals ensures ReferralOk(next.referrals[x], x, next.users[x], next.waitingMs) {
      assert ReferralOk(db.referrals[x], x, db.users[x], db.waitingMs);
    }
  }

  lemma RejectionKeepsReferrals(db: Database, id: nat)
    requires ReferralsOk(db)
    ensures ReferralsOk(Rejected(db, id))
  {
    var next := Rejected(db, id);
    forall x | x in next.referrals ensures ReferralOk(next.referrals[x], x, next.users[x], next.waitingMs) {
      assert ReferralOk(db.referrals[x], x, db.users[x], db.waitingMs);
    }
  }

  /** The candidates of a job were selected from a good database, so the only reason is a shared document. */
  ghost predicate JobOk(job: Job) {
    && ReferralsOk(job.seen)
    && (job.pending.Some? ==>
          && job.pending.value.0 in Decided(job.seen, job.now)
          && (job.pending.value.1.Some? ==> job.pending.value.1.value.DUPLICATE_CPF_CNPJ?))
  }

  ghost predicate JobsOk(s: System) {
    forall j <- s.jobs :: JobOk(s.jobs[j])
  }

  lemma VerdictsAreDuplicates(seen: Database, live: Database, now: int, u: nat)
    requires ReferralsOk(seen) && u in Candidates(seen, now)
    ensures var reason := Verdict(seen, live, Candidates(seen, now), u);
            reason.Some? ==> reason.value.DUPLICATE_CPF_CNPJ?
  {
    assert ReferralOk(seen.referrals[u], u, seen.users[u], seen.waitingMs);
  }

  lemma StepKeepsJobs(s: System, step: Step, now: int)
    requires ReferralsOk(s.db) && JobsOk(s) && Enabled(s, step, now)
    ensures JobsOk(Next(s, step, now))
  {
    var next := NextJobs(s, step, now);
    if step.Examine? {
      var job := s.jobs[step.job];
      assert JobOk(job);
      VerdictsAreDuplicates(job.seen, s.db, job.now, step.candidate);
    }
    forall j | j in next ensures JobOk(next[j]) {
      if j in s.jobs { assert JobOk(s.jobs[j]); }
    }
  }

  lemma VerdictKeepsReferrals(db: Database, u: nat, reason: Option<AntifraudReason>)
    requires ReferralsOk(db) && u in db.referrals && (reason.Some? ==> reason.value.DUPLICATE_CPF_CNPJ?)
    ensures ReferralsOk(VerdictWritten(db, u, reason))
  {
    var next := VerdictWritten(db, u, reason);
    forall x | x in next.referrals ensures ReferralOk(next.referrals[x], x, next.users[x], next.waitingMs) {
      assert ReferralOk(db.referrals[x], x, db.users[x], db.waitingMs);
    }
  }

  lemma AnswerKeepsReferrals(s: System, step: Step, now: int)
    requires ReferralsOk(s.db) && Enabled(s, step, now)
    requires step.FinishCheckout? || step.FailCheckout? || step.CommitCancel?
    ensures ReferralsOk(Next(s, step, now).db) && Next(s, step, now).db.referrals == s.db.referrals
  {
    var db, next := s.db, Next(s, step, now).db;
    assert db.subscriptions[step.id] in db.subscriptions;
    var u := db.subscriptions[step.id].userId;
    WriteKeepsReferrals(db, step.id, next.subscriptions[step.id], u, next.users[u]);
  }

  lemma StepKeepsReferrals(s: System, step: Step, now: int)
    requires ReferralsOk(s.db) && JobsOk(s) && Enabled(s, step, now)
    ensures ReferralsOk(Next(s, step, now).db)
  {
    match step
    case Register(referrer) => RegistrationKeepsReferrals(s.db, referrer);
    case BeginCheckout(u, plan, cpfHash) => CheckoutKeepsReferrals(s.db, u, plan, cpfHash);
    case Deliver(w, progress) => DeliveryKeepsReferrals(s.db, w, now, progress);
    case ReadMe(u) => ExpiryKeepsReferrals(s.db, u, now);
    case BeginJob(_) =>
    case Examine(_, _) =>
    case WriteVerdict(j) =>
      assert JobOk(s.jobs[j]);
      VerdictKeepsReferrals(s.db, s.jobs[j].pending.value.0, s.jobs[j].pending.value.1);
    case MarkPaid(id) => PayoutKeepsReferrals(s.db, id);
    case Reject(id) => RejectionKeepsReferrals(s.db, id);
    case _ => AnswerKeepsReferrals(s, step, now);
  }

  lemma {:induction false} RunsKeepReferrals(states: seq<System>, steps: seq<(Step, int)>, i: nat)
    requires IsRun(states, steps) && i < |states|
    ensures ReferralsOk(states[i].db) && JobsOk(states[i])
  {
    if i > 0 {
      RunsKeepReferrals(states, steps, i - 1);
      StepKeepsReferrals(states[i - 1], steps[i - 1].0, steps[i - 1].1);
      StepKeepsJobs(states[i - 1], steps[i - 1].0, steps[i - 1].1);
    }
  }

  /** In every reachable state a running waiting period has its payment time, ends exactly the waiting period
      later, and belongs to a consistently linked user with a document hash; a review only ever concerns a
      duplicate document. */
  lemma ReachableReferrals(states: seq<System>, steps: seq<(Step, int)>, i: nat, u: nat)
    requires IsRun(states, steps) && i < |states| && u in states[i].db.referrals
    ensures u < |states[i].db.users|
    ensures var db := states[i].db;
            var r := db.referrals[u];
            && (r.status.PENDING_WAITING_PERIOD? ==>
                  && r.paymentConfirmedAt.Some? && r.eligibleAt == Some(r.paymentConfirmedAt.value + db.waitingMs)
                  && db.users[u].referredBy == Some(r.referrer) && r.referrer != u && db.users[u].cpfHash.Some?)
            && (r.status.NEEDS_REVIEW? ==> r.antifraudReason == Some(DUPLICATE_CPF_CNPJ))
  {
    RunsKeepReferrals(states, steps, i);
    assert ReferralOk(states[i].db.referrals[u], u, states[i].db.users[u], states[i].db.waitingMs);
  }
}
