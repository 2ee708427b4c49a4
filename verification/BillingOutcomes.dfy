/** What the operations of billing leave behind, event kind by event kind and row by row, written out without the
    functions that compute it (billing.service.ts, auth.service.ts). */
module BillingOutcomes {
  import opened Wrappers
  import opened Rows
  import opened PlanLimits
  import opened BillingModel

  // ---------------------------------------------------------------- which row a webhook is about

  ghost predicate NewestWith(subs: seq<Subscription>, i: nat, p: Subscription -> bool) {
    i < |subs| && p(subs[i]) && forall k | i < k < |subs| :: !p(subs[k])
  }

  ghost predicate NoneWith(subs: seq<Subscription>, p: Subscription -> bool) {
    forall s <- subs :: !p(s)
  }

  lemma LastMatchIff(subs: seq<Subscription>, i: nat, p: Subscription -> bool)
    ensures LastMatch(subs, p) == Some(i) <==> NewestWith(subs, i, p)
    ensures LastMatch(subs, p) == None <==> NoneWith(subs, p)
  {
    var found := LastMatch(subs, p);
    if found.Some? { assert subs[found.value] in subs; }
  }

  /** The webhook is about row `i`: the newest with its subscription id, otherwise the newest with its payment id,
      otherwise the one it refers to. */
  ghost predicate IsAbout(subs: seq<Subscription>, w: Webhook, i: nat) {
    var bySubscription := (s: Subscription) => w.subscriptionId.Some? && s.providerSubscriptionId == w.subscriptionId;
    var byPayment := (s: Subscription) => w.paymentId.Some? && s.providerPaymentId == w.paymentId;
    || NewestWith(subs, i, bySubscription)
    || (NoneWith(subs, bySubscription) && NewestWith(subs, i, byPayment))
    || (NoneWith(subs, bySubscription) && NoneWith(subs, byPayment) && i < |subs| && w.externalReference == Some(i))
  }

  lemma FindsIff(subs: seq<Subscription>, w: Webhook, i: nat)
    ensures FindWebhookSubscription(subs, w) == Some(i) <==> IsAbout(subs, w, i)
  {
    var bySubscription := (s: Subscription) => w.subscriptionId.Some? && s.providerSubscriptionId == w.subscriptionId;
    var byPayment := (s: Subscription) => w.paymentId.Some? && s.providerPaymentId == w.paymentId;
    if w.subscriptionId.Some? {
      SameMatch(subs, (s: Subscription) => s.providerSubscriptionId == Some(w.subscriptionId.value), bySubscription);
    }
    if w.paymentId.Some? {
      SameMatch(subs, (s: Subscription) => s.providerPaymentId == Some(w.paymentId.value), byPayment);
    }
    LastMatchIff(subs, i, bySubscription);
    LastMatchIff(subs, i, byPayment);
  }

  lemma SameMatch(subs: seq<Subscription>, p: Subscription -> bool, q: Subscription -> bool)
    requires forall s :: p(s) <==> q(s)
    ensures LastMatch(subs, p) == LastMatch(subs, q)
  {
  }

  // ---------------------------------------------------------------- what a webhook leaves

  /** An event not processed before arrives about row `i`. */
  ghost predicate Arrives(db: Database, w: Webhook, i: nat) {
    && ForeignKeys(db) && !(w.eventId in db.events && db.events[w.eventId])
    && i < |db.subscriptions| && db.subscriptions[i].userId < |db.users|
    && IsAbout(db.subscriptions, w, i)
  }

  /** The user has a newer ACTIVE subscription; if row `i` has a provider id, one with another provider id. */
  ghost predicate HeldBack(subs: seq<Subscription>, i: nat)
    requires i < |subs|
  {
    exists j | i < j < |subs| ::
      && subs[j].userId == subs[i].userId && subs[j].status == ACTIVE
      && (subs[i].providerSubscriptionId == None
          || (subs[j].providerSubscriptionId != None
              && subs[j].providerSubscriptionId != subs[i].providerSubscriptionId))
  }

  /** The row with the ids the webhook carries. */
  function WithIds(s: Subscription, w: Webhook): Subscription {
    var known := if w.subscriptionId.Some? then s.(providerSubscriptionId := w.subscriptionId) else s;
    if w.paymentId.Some? then known.(providerPaymentId := w.paymentId) else known
  }

  /** The database after a processed event: row `i`, its user unless held back, the referrals, and the event. */
  ghost function After(
    db: Database, w: Webhook, i: nat, row: Subscription, user: User, referrals: map<nat, Referral>): Database
    requires i < |db.subscriptions| && db.subscriptions[i].userId < |db.users|
  {
    db.(subscriptions := db.subscriptions[i := row],
        users := if HeldBack(db.subscriptions, i) then db.users else db.users[db.subscriptions[i].userId := user],
        referrals := referrals,
        events := db.events[w.eventId := true])
  }

  /** The referrals with a waiting one of the user back before its payment. */
  function StartedOver(referrals: map<nat, Referral>, u: nat): map<nat, Referral> {
    if u in referrals && referrals[u].status == PENDING_WAITING_PERIOD
    then referrals[u := Referral(referrals[u].referrer, PENDING_PAYMENT, None, None, referrals[u].antifraudReason)]
    else referrals
  }

  /** The referrals with the waiting period of the user begun, unless the referral is rewarded or has a payment. */
  function WaitBegun(referrals: map<nat, Referral>, u: nat, now: int, waitingMs: nat): map<nat, Referral> {
    if u in referrals && referrals[u].status !in {ELIGIBLE, PAID} && referrals[u].paymentConfirmedAt == None
    then referrals[u := Referral(referrals[u].referrer, PENDING_WAITING_PERIOD, Some(now), Some(now + waitingMs),
                                 referrals[u].antifraudReason)]
    else referrals
  }

  predicate EndsAccess(kind: EventType) {
    kind in {PAYMENT_DELETED, PAYMENT_BANK_SLIP_CANCELLED, PAYMENT_REFUNDED, PAYMENT_RECEIVED_IN_CASH_UNDONE,
             PAYMENT_CHARGEBACK_REQUESTED, PAYMENT_CHARGEBACK_DISPUTE, PAYMENT_REPROVED_BY_RISK_ANALYSIS,
             PAYMENT_CREDIT_CARD_CAPTURE_REFUSED}
  }

  lemma ArrivalIsFound(db: Database, w: Webhook, i: nat)
    requires Arrives(db, w, i)
    ensures FindWebhookSubscription(db.subscriptions, w) == Some(i) && !IsProcessed(db, w.eventId)
    ensures CanUpdateUser(db.subscriptions, i) <==> !HeldBack(db.subscriptions, i)
  {
    FindsIff(db.subscriptions, w, i);
    if HeldBack(db.subscriptions, i) {
      var j :| i < j < |db.subscriptions| && db.subscriptions[j].userId == db.subscriptions[i].userId
        && db.subscriptions[j].status == ACTIVE
        && (db.subscriptions[i].providerSubscriptionId == None
            || (db.subscriptions[j].providerSubscriptionId != None
                && db.subscriptions[j].providerSubscriptionId != db.subscriptions[i].providerSubscriptionId));
      assert NewerActive(db.subscriptions, i, j);
    }
  }

  lemma TransactionParts(db: Database, w: Webhook, i: nat, now: int, t: Transition, row: Subscription, user: User)
    requires Arrives(db, w, i)
    requires row == UpdatedSubscription(db.subscriptions[i], w, t, now)
    requires user == UpdatedUser(db.users[db.subscriptions[i].userId], db.subscriptions[i], w, t, now)
    ensures Marked(Transacted(Marked(db, w.eventId, false), i, w, t, now), w.eventId, true)
         == After(db, w, i, row, user, db.referrals)
  {
    ArrivalIsFound(db, w, i);
    assert db.events[w.eventId := false][w.eventId := true] == db.events[w.eventId := true];
  }

  lemma ReferralPart(db: Database, w: Webhook, i: nat, now: int, t: Transition)
    requires Arrives(db, w, i)
    ensures var sub := db.subscriptions[i];
            var received := Marked(db, w.eventId, false);
            var transacted := Transacted(received, i, w, t, now);
            Applied(received, i, w, t, now)
            == if w.kind == PAYMENT_CONFIRMED
               then transacted.(users := Hashed(transacted.users, sub.userId, w),
                                referrals := PaymentConfirmed(db, sub.userId, now).referrals)
               else if ResetsReferral(sub, w, t, now)
               then transacted.(referrals := WaitingReset(db, sub.userId).referrals)
               else transacted
  {
  }

  /** How the parts of a processed event make up the whole, the confirmation of a payment aside. */
  lemma PartsMakeTheWhole(
    db: Database, w: Webhook, i: nat, now: int, t: Transition, row: Subscription, user: User,
    referrals: map<nat, Referral>)
    requires Arrives(db, w, i) && ReadTransition(w.kind) == Some(t) && w.kind != PAYMENT_CONFIRMED
    requires row == UpdatedSubscription(db.subscriptions[i], w, t, now)
    requires user == UpdatedUser(db.users[db.subscriptions[i].userId], db.subscriptions[i], w, t, now)
    requires referrals == if ResetsReferral(db.subscriptions[i], w, t, now)
                          then WaitingReset(db, db.subscriptions[i].userId).referrals else db.referrals
    ensures var after := After(db, w, i, row, user, referrals);
            Handled(db, w, now)
            == if w.kind == SUBSCRIPTION_DELETED then Expired(after, db.subscriptions[i].userId, now) else after
  {
    ArrivalIsFound(db, w, i);
    HandledApplies(db, w, i, t, now);
    ReferralPart(db, w, i, now, t);
    TransactionParts(db, w, i, now, t, row, user);
  }

  lemma ConfirmationMakesTheWhole(
    db: Database, w: Webhook, i: nat, now: int, t: Transition, row: Subscription, user: User)
    requires Arrives(db, w, i) && ReadTransition(w.kind) == Some(t) && w.kind == PAYMENT_CONFIRMED
    requires row == UpdatedSubscription(db.subscriptions[i], w, t, now)
    requires user == UpdatedUser(db.users[db.subscriptions[i].userId], db.subscriptions[i], w, t, now)
    ensures var u := db.subscriptions[i].userId;
            var after := After(db, w, i, row, user, PaymentConfirmed(db, u, now).referrals);
            Handled(db, w, now) == after.(users := Hashed(after.users, u, w))
  {
    ArrivalIsFound(db, w, i);
    HandledApplies(db, w, i, t, now);
    ReferralPart(db, w, i, now, t);
    TransactionParts(db, w, i, now, t, row, user);
  }

  lemma ResetMeansStartedOver(db: Database, u: nat)
    ensures WaitingReset(db, u).referrals == StartedOver(db.referrals, u)
  {
  }

  lemma ConfirmedMeansWaitBegun(db: Database, u: nat, now: int)
    ensures PaymentConfirmed(db, u, now).referrals == WaitBegun(db.referrals, u, now, db.waitingMs)
  {
  }

  /** A refund, a chargeback or any other event that takes a payment back: the row is CANCELED now, the user is on
      FREE, CANCELED, and a waiting referral starts over. */
  lemma TakenBackPaymentsEndAccess(db: Database, w: Webhook, i: nat, now: int)
    requires Arrives(db, w, i) && EndsAccess(w.kind)
    ensures var row, user := db.subscriptions[i], db.users[db.subscriptions[i].userId];
            Handled(db, w, now)
            == After(db, w, i, WithIds(row, w).(status := CANCELED, canceledAt := Some(now)),
                     user.(plan := FREE, status := CANCELED), StartedOver(db.referrals, row.userId))
  {
    var row, user := db.subscriptions[i], db.users[db.subscriptions[i].userId];
    ResetMeansStartedOver(db, row.userId);
    PartsMakeTheWhole(db, w, i, now, Transition(CANCELED, CANCELED, false, true),
                      WithIds(row, w).(status := CANCELED, canceledAt := Some(now)),
                      user.(plan := FREE, status := CANCELED), StartedOver(db.referrals, row.userId));
  }

  /** An overdue payment: PAST_DUE, FREE, and a waiting referral starts over. */
  lemma OverduePaymentsSuspend(db: Database, w: Webhook, i: nat, now: int)
    requires Arrives(db, w, i) && w.kind == PAYMENT_OVERDUE
    ensures var row, user := db.subscriptions[i], db.users[db.subscriptions[i].userId];
            Handled(db, w, now)
            == After(db, w, i, WithIds(row, w).(status := PAST_DUE), user.(plan := FREE, status := PAST_DUE),
                     StartedOver(db.referrals, row.userId))
  {
    var row, user := db.subscriptions[i], db.users[db.subscriptions[i].userId];
    ResetMeansStartedOver(db, row.userId);
    PartsMakeTheWhole(db, w, i, now, Transition(PAST_DUE, PAST_DUE, false, true),
                      WithIds(row, w).(status := PAST_DUE),
                      user.(plan := FREE, status := PAST_DUE), StartedOver(db.referrals, row.userId));
  }

  /** A payment under risk analysis: PENDING, with plan and referral as they were. */
  lemma RiskAnalysisOnlyWaits(db: Database, w: Webhook, i: nat, now: int)
    requires Arrives(db, w, i) && w.kind == PAYMENT_AWAITING_RISK_ANALYSIS
    ensures var row, user := db.subscriptions[i], db.users[db.subscriptions[i].userId];
            Handled(db, w, now)
            == After(db, w, i, WithIds(row, w).(status := PENDING), user.(status := PENDING), db.referrals)
  {
    var row, user := db.subscriptions[i], db.users[db.subscriptions[i].userId];
    PartsMakeTheWhole(db, w, i, now, Transition(PENDING, PENDING, false, false),
                      WithIds(row, w).(status := PENDING),
                      user.(status := PENDING), db.referrals);
  }

  /** The row after an activating event: the payment it is ACTIVE on grants nothing more; any other grants thirty
      days, from the end of the running period if it is a confirmation, otherwise from now. */
  function Activated(row: Subscription, w: Webhook, now: int): Subscription {
    if row.status == ACTIVE && w.paymentId != None && row.providerPaymentId == w.paymentId then WithIds(row, w)
    else
      var running := w.kind == PAYMENT_CONFIRMED && row.periodEnd.Some? && now < row.periodEnd.value;
      var start := if running then row.periodEnd.value else now;
      WithIds(row, w).(status := ACTIVE, periodStart := Some(start), periodEnd := Some(start + 2_592_000_000),
                       canceledAt := None, cancelAtPeriodEnd := false)
  }

  /** A received payment activates row and user; the referral takes no notice. */
  lemma ReceivedPaymentsActivate(db: Database, w: Webhook, i: nat, now: int)
    requires Arrives(db, w, i) && w.kind == PAYMENT_RECEIVED
    ensures var row, user := db.subscriptions[i], db.users[db.subscriptions[i].userId];
            Handled(db, w, now)
            == After(db, w, i, Activated(row, w, now), user.(plan := row.plan, status := ACTIVE), db.referrals)
  {
    var row, user := db.subscriptions[i], db.users[db.subscriptions[i].userId];
    PartsMakeTheWhole(db, w, i, now, Transition(ACTIVE, ACTIVE, true, false),
                      Activated(row, w, now),
                      user.(plan := row.plan, status := ACTIVE), db.referrals);
  }

  /** A confirmed payment activates row and user, stores the payer's document hash even if the user is held back, and
      begins the waiting period of the referral. */
  lemma ConfirmedPaymentsActivate(db: Database, w: Webhook, i: nat, now: int)
    requires Arrives(db, w, i) && w.kind == PAYMENT_CONFIRMED
    ensures var row := db.subscriptions[i];
            var user := db.users[row.userId];
            var after := After(db, w, i, Activated(row, w, now), user.(plan := row.plan, status := ACTIVE),
                               WaitBegun(db.referrals, row.userId, now, db.waitingMs));
            Handled(db, w, now)
            == if w.cpfHash.None? then after
               else after.(users := after.users[row.userId := after.users[row.userId].(cpfHash := w.cpfHash)])
  {
    var row, user := db.subscriptions[i], db.users[db.subscriptions[i].userId];
    ConfirmedMeansWaitBegun(db, row.userId, now);
    ConfirmationMakesTheWhole(db, w, i, now, Transition(ACTIVE, ACTIVE, true, false), Activated(row, w, now),
                              user.(plan := row.plan, status := ACTIVE));
  }

  /** A deleted subscription before the end of its period: CANCELED now, scheduled to end, and the user stays on the
      plan, ACTIVE. Then what is due ends. */
  lemma DeletionInPeriodSchedules(db: Database, w: Webhook, i: nat, now: int)
    requires Arrives(db, w, i) && w.kind == SUBSCRIPTION_DELETED
    requires db.subscriptions[i].periodEnd.Some? && now < db.subscriptions[i].periodEnd.value
    ensures var row, user := db.subscriptions[i], db.users[db.subscriptions[i].userId];
            Handled(db, w, now)
            == Expired(After(db, w, i, WithIds(row, w).(status := CANCELED, canceledAt := Some(now),
                                                        cancelAtPeriodEnd := true),
                             user.(status := ACTIVE), db.referrals), row.userId, now)
  {
    var row, user := db.subscriptions[i], db.users[db.subscriptions[i].userId];
    PartsMakeTheWhole(db, w, i, now, Transition(CANCELED, ACTIVE, false, false),
                      WithIds(row, w).(status := CANCELED, canceledAt := Some(now), cancelAtPeriodEnd := true),
                      user.(status := ACTIVE), db.referrals);
  }

  /** A deleted subscription without a period, or behind its end: CANCELED now, the user on FREE, CANCELED, and a
      waiting referral starts over. Then what is due ends. */
  lemma DeletionBehindPeriodEnds(db: Database, w: Webhook, i: nat, now: int)
    requires Arrives(db, w, i) && w.kind == SUBSCRIPTION_DELETED
    requires db.subscriptions[i].periodEnd.Some? ==> db.subscriptions[i].periodEnd.value <= now
    ensures var row, user := db.subscriptions[i], db.users[db.subscriptions[i].userId];
            Handled(db, w, now)
            == Expired(After(db, w, i, WithIds(row, w).(status := CANCELED, canceledAt := Some(now),
                                                        cancelAtPeriodEnd := false),
                             user.(plan := FREE, status := CANCELED), StartedOver(db.referrals, row.userId)),
                       row.userId, now)
  {
    var row, user := db.subscriptions[i], db.users[db.subscriptions[i].userId];
    ResetMeansStartedOver(db, row.userId);
    PartsMakeTheWhole(db, w, i, now, Transition(CANCELED, ACTIVE, false, false),
                      WithIds(row, w).(status := CANCELED, canceledAt := Some(now), cancelAtPeriodEnd := false),
                      user.(plan := FREE, status := CANCELED), StartedOver(db.referrals, row.userId));
  }

  /** Other kinds of events are processed without effect, and tell the sender so. */
  lemma OtherEventsOnlyProcess(db: Database, w: Webhook, i: nat, now: int)
    requires Arrives(db, w, i) && w.kind.OTHER?
    ensures Handled(db, w, now) == db.(events := db.events[w.eventId := true])
    ensures HandledResult(db, w) == WebhookResult(false, false)
  {
    ArrivalIsFound(db, w, i);
  }

  /** An event about no row is stored and stays unprocessed; a processed one changes nothing. */
  lemma UnknownAndRepeatedEvents(db: Database, w: Webhook, now: int)
    requires ForeignKeys(db)
    ensures (w.eventId in db.events && db.events[w.eventId]) ==>
              Handled(db, w, now) == db && HandledResult(db, w) == WebhookResult(true, false)
    ensures !(w.eventId in db.events && db.events[w.eventId])
            && (forall i | 0 <= i < |db.subscriptions| :: !IsAbout(db.subscriptions, w, i)) ==>
              Handled(db, w, now) == db.(events := db.events[w.eventId := false])
              && HandledResult(db, w) == WebhookResult(false, false)
  {
    var found := FindWebhookSubscription(db.subscriptions, w);
    if found.Some? { FindsIff(db.subscriptions, w, found.value); }
  }

  /** Every event that has an effect answers that it was processed. */
  lemma EffectsAreReported(db: Database, w: Webhook, i: nat)
    requires Arrives(db, w, i) && !w.kind.OTHER?
    ensures HandledResult(db, w) == WebhookResult(false, true)
  {
    ArrivalIsFound(db, w, i);
  }

  // ---------------------------------------------------------------- expiry

  /** The subscription is scheduled to end and its period is over. */
  predicate IsDue(s: Subscription, user: nat, now: int) {
    s.userId == user && s.cancelAtPeriodEnd && s.periodEnd.Some? && s.periodEnd.value <= now
  }

  /** The newest due subscription of a user is closed and the user is on FREE, CANCELED; without one nothing
      happens. */
  lemma ExpiryClosesTheNewestDue(db: Database, user: nat, i: nat, now: int)
    ensures NewestWith(db.subscriptions, i, (s: Subscription) => IsDue(s, user, now)) && user < |db.users| ==>
              var row := db.subscriptions[i];
              Expired(db, user, now)
              == db.(subscriptions := db.subscriptions[i := row.(
                       status := CANCELED, cancelAtPeriodEnd := false,
                       canceledAt := if row.canceledAt == None then Some(now) else row.canceledAt)],
                     users := db.users[user := db.users[user].(plan := FREE, status := CANCELED)])
    ensures NoneWith(db.subscriptions, (s: Subscription) => IsDue(s, user, now)) ==> Expired(db, user, now) == db
  {
    var due := (s: Subscription) => IsDue(s, user, now);
    SameMatch(db.subscriptions, (s: Subscription) => Expirable(s, user, now), due);
    LastMatchIff(db.subscriptions, i, due);
  }

  // ---------------------------------------------------------------- cancellation

  /** An ACTIVE subscription the provider knows. */
  predicate IsPaying(s: Subscription, user: nat) {
    s.userId == user && s.status == ACTIVE && s.providerSubscriptionId != None
  }

  /** `cancel` schedules row `i` if and only if nothing of the user is due, the user is ACTIVE on a paid plan, and the
      row is the newest paying one, has a period and is not scheduled already. */
  lemma CancelSchedulesIff(db: Database, user: nat, i: nat, now: int)
    ensures CheckCancel(Expired(db, user, now), user) == Schedule(i)
       <==> && user < |db.users| && db.users[user].plan in {BASIC, PRO} && db.users[user].status == ACTIVE
            && NoneWith(db.subscriptions, (s: Subscription) => IsDue(s, user, now))
            && NewestWith(db.subscriptions, i, (s: Subscription) => IsPaying(s, user))
            && db.subscriptions[i].periodEnd != None && !db.subscriptions[i].cancelAtPeriodEnd
  {
    var due := (s: Subscription) => IsDue(s, user, now);
    var paying := (s: Subscription) => IsPaying(s, user);
    SameMatch(db.subscriptions, (s: Subscription) => Expirable(s, user, now), due);
    LastMatchIff(db.subscriptions, i, due);
    ExpiryClosesTheNewestDue(db, user, i, now);
    if LastMatch(db.subscriptions, due).None? {
      SameMatch(db.subscriptions, (s: Subscription) => Cancelable(s, user), paying);
      LastMatchIff(db.subscriptions, i, paying);
    }
  }

  /** What the other answers mean, when nothing of the user is due. */
  lemma CancelRefusals(db: Database, user: nat, now: int)
    requires NoneWith(db.subscriptions, (s: Subscription) => IsDue(s, user, now))
    ensures var check := CheckCancel(Expired(db, user, now), user);
            var subscriber :=
              user < |db.users| && db.users[user].plan in {BASIC, PRO} && db.users[user].status == ACTIVE;
            && (check == NoActivePaidPlan <==> !subscriber)
            && (check == NoActiveSubscription
                <==> subscriber && NoneWith(db.subscriptions, (s: Subscription) => IsPaying(s, user)))
            && (check == NoPeriodEnd
                <==> subscriber && exists i: nat ::
                       NewestWith(db.subscriptions, i, (s: Subscription) => IsPaying(s, user))
                       && db.subscriptions[i].periodEnd == None)
            && (check.AlreadyScheduled?
                <==> subscriber && exists i: nat ::
                       NewestWith(db.subscriptions, i, (s: Subscription) => IsPaying(s, user))
                       && db.subscriptions[i].periodEnd != None && db.subscriptions[i].cancelAtPeriodEnd)
  {
    var paying := (s: Subscription) => IsPaying(s, user);
    ExpiryClosesTheNewestDue(db, user, 0, now);
    SameMatch(db.subscriptions, (s: Subscription) => Cancelable(s, user), paying);
    forall i: nat { LastMatchIff(db.subscriptions, i, paying); }
    var found := LastMatch(db.subscriptions, paying);
    if found.Some? { assert NewestWith(db.subscriptions, found.value, paying); }
  }

  /** A scheduled cancellation closes the row for the time behind its period; the user keeps plan and status. Any other
      outcome leaves what the expiry left. */
  lemma CancellationKeepsAccess(db: Database, user: nat, i: nat, now: int)
    ensures CheckCancel(Expired(db, user, now), user) == Schedule(i) ==>
              && i < |db.subscriptions|
              && Canceled(db, user, now)
                 == db.(subscriptions := db.subscriptions[i := db.subscriptions[i].(
                          status := CANCELED, canceledAt := Some(now), cancelAtPeriodEnd := true)])
    ensures !CheckCancel(Expired(db, user, now), user).Schedule? ==> Canceled(db, user, now) == Expired(db, user, now)
  {
    CancelSchedulesIff(db, user, i, now);
    ExpiryClosesTheNewestDue(db, user, i, now);
  }

  // ---------------------------------------------------------------- checkout and registration

  /** Why a checkout is refused, the first reason counting. */
  lemma CheckoutRefusals(db: Database, user: nat, plan: Plan, methodKnown: bool, cpfHash: Option<string>)
    ensures var refusal := CannotCheckout(db, user, plan, methodKnown, cpfHash);
            && (refusal == Some(ChoosePaidPlan) <==> plan == FREE)
            && (refusal == Some(UnknownPaymentMethod) <==> plan != FREE && !methodKnown)
            && (refusal == Some(UnknownUser) <==> plan != FREE && methodKnown && user >= |db.users|)
            && (refusal == Some(InvalidCpfCnpj)
                <==> plan != FREE && methodKnown && user < |db.users| && cpfHash == None)
  {
  }

  /** A checkout adds one PENDING row with the provider's ids and stores the document; a user who was ACTIVE keeps
      plan and status, any other becomes PENDING. */
  lemma CheckoutLeaves(
    db: Database, user: nat, plan: Plan, cpfHash: string, subscriptionId: Option<string>, paymentId: Option<string>)
    requires user < |db.users|
    ensures var begun := CheckoutBegun(db, user, plan, cpfHash);
            var id := |db.subscriptions|;
            var buyer := db.users[user].(cpfHash := Some(cpfHash));
            && id < |begun.subscriptions| && begun.subscriptions[id].userId < |begun.users|
            && begun == db.(users := db.users[user := buyer],
                            subscriptions := db.subscriptions
                              + [Subscription(user, plan, None, None, PENDING, None, None, None, false)])
            && CheckoutDone(begun, id, subscriptionId, paymentId, db.users[user].status)
               == db.(users := db.users[user := if buyer.status == ACTIVE then buyer else buyer.(status := PENDING)],
                      subscriptions := db.subscriptions
                        + [Subscription(user, plan, subscriptionId, paymentId, PENDING, None, None, None, false)])
  {
    var id := |db.subscriptions|;
    var begun := CheckoutBegun(db, user, plan, cpfHash);
    var row := Subscription(user, plan, subscriptionId, paymentId, PENDING, None, None, None, false);
    assert begun.subscriptions[id := row] == db.subscriptions + [row];
  }

  /** The provider's answer on a row as it has become meanwhile: ids the answer lacks are kept, the row is PENDING
      again, and so is the user unless the status read before the call was ACTIVE. */
  lemma LateAnswersLeave(
    db: Database, i: nat, subscriptionId: Option<string>, paymentId: Option<string>, seen: SubscriptionStatus)
    requires i < |db.subscriptions| && db.subscriptions[i].userId < |db.users|
    ensures var row := db.subscriptions[i];
            var user := db.users[row.userId];
            CheckoutDone(db, i, subscriptionId, paymentId, seen)
            == db.(subscriptions := db.subscriptions[i := row.(
                     providerSubscriptionId := if subscriptionId.Some? then subscriptionId
                                               else row.providerSubscriptionId,
                     providerPaymentId := if paymentId.Some? then paymentId else row.providerPaymentId,
                     status := PENDING)],
                   users := db.users[row.userId := if seen == ACTIVE then user else user.(status := PENDING)])
  {
  }

  /** A failed checkout leaves the row CANCELED, and the user without the plan. */
  lemma FailedCheckoutLeaves(db: Database, user: nat, plan: Plan, cpfHash: string, now: int)
    requires user < |db.users|
    ensures var id := |db.subscriptions|;
            && id < |CheckoutBegun(db, user, plan, cpfHash).subscriptions|
            && CheckoutFailed(CheckoutBegun(db, user, plan, cpfHash), id, now)
               == db.(users := db.users[user := db.users[user].(cpfHash := Some(cpfHash))],
                      subscriptions := db.subscriptions
                        + [Subscription(user, plan, None, None, CANCELED, None, None, Some(now), false)])
  {
    var id := |db.subscriptions|;
    var row := Subscription(user, plan, None, None, CANCELED, None, None, Some(now), false);
    assert CheckoutBegun(db, user, plan, cpfHash).subscriptions[id := row] == db.subscriptions + [row];
  }

  /** A registration adds an active FREE user, and with the code of somebody else the referral of the new user. */
  lemma RegistrationLeaves(db: Database, referrer: Option<nat>)
    requires referrer.Some? ==> referrer.value < |db.users|
    ensures Registered(db, referrer)
         == db.(users := db.users + [User(FREE, NONE, None, referrer, true)],
                referrals :=
                  if referrer == None then db.referrals
                  else db.referrals[|db.users| := Referral(referrer.value, PENDING_PAYMENT, None, None, None)])
  {
  }
}
