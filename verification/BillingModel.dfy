/** The stored rows of billing and referrals and the effect of each operation on them
    (billing.service.ts, referrals.service.ts, auth.service.ts). Users and subscriptions are kept in
    creation order, creation times being distinct, and the index of a row is its id; a referral is stored
    under its referred user, which is unique. Every subscription is of the one provider, Asaas. Times are
    milliseconds; each operation has one clock reading. */
module BillingModel {
  import opened Wrappers
  import opened Rows
  import opened PlanLimits

  const DAY_MS := 86_400_000
  const PERIOD_MS := 30 * DAY_MS

  datatype SubscriptionStatus = NONE | PENDING | ACTIVE | PAST_DUE | OVERDUE | CANCELED

  datatype User = User(
    plan: Plan, status: SubscriptionStatus, cpfHash: Option<string>, referredBy: Option<nat>, isActive: bool)

  datatype Subscription = Subscription(
    userId: nat,
    plan: Plan,
    providerSubscriptionId: Option<string>,
    providerPaymentId: Option<string>,
    status: SubscriptionStatus,
    periodStart: Option<int>,
    periodEnd: Option<int>,
    canceledAt: Option<int>,
    cancelAtPeriodEnd: bool)

  datatype ReferralStatus =
    PENDING_SIGNUP | PENDING_PAYMENT | PENDING_WAITING_PERIOD | NEEDS_REVIEW | ELIGIBLE | PAID | REJECTED

  datatype AntifraudReason =
    | MISSING_PAYMENT_CONFIRMATION
    | MISSING_REFERRER_LINK
    | SELF_REFERRAL
    | REFERRER_LINK_MISMATCH
    | MISSING_CPF_CNPJ_HASH
    | DUPLICATE_CPF_CNPJ

  datatype Referral = Referral(
    referrer: nat,
    status: ReferralStatus,
    paymentConfirmedAt: Option<int>,
    eligibleAt: Option<int>,
    antifraudReason: Option<AntifraudReason>)

  /** `events`: webhook event ids received, and whether each has its `processedAt`. `waitingMs`: the
      configured waiting period of a referral. */
  datatype Database = Database(
    users: seq<User>,
    subscriptions: seq<Subscription>,
    referrals: map<nat, Referral>,
    events: map<string, bool>,
    waitingMs: nat)

  ghost predicate ForeignKeys(db: Database) {
    && (forall s <- db.subscriptions :: s.userId < |db.users|)
    && (forall u <- db.referrals :: u < |db.users| && db.referrals[u].referrer < |db.users|)
  }

  // ---------------------------------------------------------------- webhooks

  datatype EventType =
    | PAYMENT_RECEIVED
    | PAYMENT_CONFIRMED
    | SUBSCRIPTION_DELETED
    | PAYMENT_OVERDUE
    | PAYMENT_AWAITING_RISK_ANALYSIS
    | PAYMENT_DELETED
    | PAYMENT_BANK_SLIP_CANCELLED
    | PAYMENT_REFUNDED
    | PAYMENT_RECEIVED_IN_CASH_UNDONE
    | PAYMENT_CHARGEBACK_REQUESTED
    | PAYMENT_CHARGEBACK_DISPUTE
    | PAYMENT_REPROVED_BY_RISK_ANALYSIS
    | PAYMENT_CREDIT_CARD_CAPTURE_REFUSED
    | OTHER(name: string)

  datatype Webhook = Webhook(
    eventId: string,
    kind: EventType,
    paymentId: Option<string>,
    subscriptionId: Option<string>,
    externalReference: Option<nat>,
    cpfHash: Option<string>)

  datatype Transition = Transition(
    billingStatus: SubscriptionStatus, userStatus: SubscriptionStatus, activatePlan: bool, resetPlan: bool)

  predicate Activates(kind: EventType) {
    kind.PAYMENT_RECEIVED? || kind.PAYMENT_CONFIRMED?
  }

  function ReadTransition(kind: EventType): Option<Transition> {
    match kind
    case PAYMENT_RECEIVED => Some(Transition(ACTIVE, ACTIVE, true, false))
    case PAYMENT_CONFIRMED => Some(Transition(ACTIVE, ACTIVE, true, false))
    case SUBSCRIPTION_DELETED => Some(Transition(CANCELED, ACTIVE, false, false))
    case PAYMENT_OVERDUE => Some(Transition(PAST_DUE, PAST_DUE, false, true))
    case PAYMENT_AWAITING_RISK_ANALYSIS => Some(Transition(PENDING, PENDING, false, false))
    case OTHER(_) => None
    case _ => Some(Transition(CANCELED, CANCELED, false, true))
  }

  function BySubscriptionId(subs: seq<Subscription>, id: string): Option<nat> {
    LastMatch(subs, (s: Subscription) => s.providerSubscriptionId == Some(id))
  }

  function ByPaymentId(subs: seq<Subscription>, id: string): Option<nat> {
    LastMatch(subs, (s: Subscription) => s.providerPaymentId == Some(id))
  }

  function FindWebhookSubscription(subs: seq<Subscription>, w: Webhook): (found: Option<nat>)
    ensures found.Some? ==> found.value < |subs|
  {
    if w.subscriptionId.Some? && BySubscriptionId(subs, w.subscriptionId.value).Some?
    then BySubscriptionId(subs, w.subscriptionId.value)
    else if w.paymentId.Some? && ByPaymentId(subs, w.paymentId.value).Some?
    then ByPaymentId(subs, w.paymentId.value)
    else if w.externalReference.Some? && w.externalReference.value < |subs|
    then w.externalReference
    else None
  }

  /** A newer ACTIVE subscription of the user. When the webhook's row has a provider id, the query asks for a
      different one, which leaves out rows whose id is null. */
  predicate NewerActive(subs: seq<Subscription>, i: nat, j: nat)
    requires i < |subs| && j < |subs|
  {
    && i < j && subs[j].userId == subs[i].userId && subs[j].status.ACTIVE?
    && (subs[i].providerSubscriptionId.Some? ==>
          subs[j].providerSubscriptionId.Some? && subs[j].providerSubscriptionId != subs[i].providerSubscriptionId)
  }

  predicate CanUpdateUser(subs: seq<Subscription>, i: nat)
    requires i < |subs|
  {
    !exists j :: 0 <= j < |subs| && NewerActive(subs, i, j)
  }

  predicate KeepsAccess(sub: Subscription, kind: EventType, now: int) {
    kind.SUBSCRIPTION_DELETED? && sub.periodEnd.Some? && now < sub.periodEnd.value
  }

  predicate SameActivePayment(sub: Subscription, w: Webhook) {
    sub.status.ACTIVE? && w.paymentId.Some? && sub.providerPaymentId == w.paymentId
  }

  /** Where a granted period begins; it lasts thirty days of twenty-four hours. */
  function PeriodStart(sub: Subscription, kind: EventType, now: int): int {
    if kind.PAYMENT_CONFIRMED? && sub.periodEnd.Some? && now < sub.periodEnd.value then sub.periodEnd.value else now
  }

  function UpdatedSubscription(sub: Subscription, w: Webhook, t: Transition, now: int): Subscription {
    var granted := t.activatePlan && !SameActivePayment(sub, w);
    var start := PeriodStart(sub, w.kind, now);
    Subscription(
      sub.userId,
      sub.plan,
      OrElse(w.subscriptionId, sub.providerSubscriptionId),
      OrElse(w.paymentId, sub.providerPaymentId),
      t.billingStatus,
      if granted then Some(start) else sub.periodStart,
      if granted then Some(start + PERIOD_MS) else sub.periodEnd,
      if t.billingStatus.CANCELED? then Some(now) else if granted then None else sub.canceledAt,
      if w.kind.SUBSCRIPTION_DELETED? then KeepsAccess(sub, w.kind, now)
      else if granted then false else sub.cancelAtPeriodEnd)
  }

  function UpdatedUser(user: User, sub: Subscription, w: Webhook, t: Transition, now: int): User {
    var ended := w.kind.SUBSCRIPTION_DELETED? && !KeepsAccess(sub, w.kind, now);
    user.(status := if ended then CANCELED else t.userStatus,
          plan := if ended then FREE else if t.activatePlan then sub.plan else if t.resetPlan then FREE else user.plan)
  }

  /** The transaction: the subscription, and the user unless a newer ACTIVE subscription protects it. */
  function Transacted(db: Database, i: nat, w: Webhook, t: Transition, now: int): Database
    requires i < |db.subscriptions| && db.subscriptions[i].userId < |db.users|
  {
    var sub := db.subscriptions[i];
    db.(subscriptions := db.subscriptions[i := UpdatedSubscription(sub, w, t, now)],
        users := if CanUpdateUser(db.subscriptions, i)
                 then db.users[sub.userId := UpdatedUser(db.users[sub.userId], sub, w, t, now)]
                 else db.users)
  }

  function PaymentConfirmed(db: Database, userId: nat, now: int): Database {
    if userId !in db.referrals || db.referrals[userId].status.ELIGIBLE? || db.referrals[userId].status.PAID?
       || db.referrals[userId].paymentConfirmedAt.Some?
    then db
    else db.(referrals := db.referrals[userId := db.referrals[userId].(
                            status := PENDING_WAITING_PERIOD,
                            paymentConfirmedAt := Some(now),
                            eligibleAt := Some(now + db.waitingMs))])
  }

  function WaitingReset(db: Database, userId: nat): Database {
    if userId !in db.referrals || !db.referrals[userId].status.PENDING_WAITING_PERIOD? then db
    else db.(referrals := db.referrals[userId := db.referrals[userId].(
                            status := PENDING_PAYMENT, paymentConfirmedAt := None, eligibleAt := None)])
  }

  predicate ResetsReferral(sub: Subscription, w: Webhook, t: Transition, now: int) {
    t.resetPlan || (w.kind.SUBSCRIPTION_DELETED? && !KeepsAccess(sub, w.kind, now))
  }

  /** The users with the document hash a confirmed payment brings along. */
  function Hashed(users: seq<User>, u: nat, w: Webhook): seq<User>
    requires u < |users|
  {
    if w.kind.PAYMENT_CONFIRMED? && w.cpfHash.Some? then users[u := users[u].(cpfHash := w.cpfHash)] else users
  }

  /** After the transaction: the payer's document hash and the referral of the user. `sub` is the row as read. */
  function ReferralFollowed(db: Database, sub: Subscription, w: Webhook, t: Transition, now: int): Database
    requires sub.userId < |db.users|
  {
    if w.kind.PAYMENT_CONFIRMED? then PaymentConfirmed(db.(users := Hashed(db.users, sub.userId, w)), sub.userId, now)
    else if ResetsReferral(sub, w, t, now) then WaitingReset(db, sub.userId)
    else db
  }

  predicate Expirable(s: Subscription, userId: nat, now: int) {
    s.userId == userId && s.cancelAtPeriodEnd && s.periodEnd.Some? && s.periodEnd.value <= now
  }

  /** `expireCanceledSubscription`, the same in the billing and the auth service. */
  function Expired(db: Database, userId: nat, now: int): Database {
    var i := LastMatch(db.subscriptions, (s: Subscription) => Expirable(s, userId, now));
    if i.None? || userId >= |db.users| then db
    else
      var sub := db.subscriptions[i.value];
      db.(subscriptions := db.subscriptions[i.value := sub.(
                             status := CANCELED, cancelAtPeriodEnd := false,
                             canceledAt := OrElse(sub.canceledAt, Some(now)))],
          users := db.users[userId := db.users[userId].(plan := FREE, status := CANCELED)])
  }

  function Marked(db: Database, eventId: string, processed: bool): Database {
    db.(events := db.events[eventId := processed])
  }

  predicate IsProcessed(db: Database, eventId: string) {
    eventId in db.events && db.events[eventId]
  }

  /** Everything a processed webhook does between finding its row and writing `processedAt`. */
  function Applied(db: Database, i: nat, w: Webhook, t: Transition, now: int): Database
    requires i < |db.subscriptions| && db.subscriptions[i].userId < |db.users|
  {
    ReferralFollowed(Transacted(db, i, w, t, now), db.subscriptions[i], w, t, now)
  }

  datatype WebhookResult = WebhookResult(duplicate: bool, processed: bool)

  function Handled(db: Database, w: Webhook, now: int): Database
    requires ForeignKeys(db)
  {
    var received := Marked(db, w.eventId, false);
    var found := FindWebhookSubscription(db.subscriptions, w);
    var t := ReadTransition(w.kind);
    if IsProcessed(db, w.eventId) then db
    else if found.None? then received
    else if t.None? then Marked(db, w.eventId, true)
    else
      var sub := db.subscriptions[found.value];
      var applied := Marked(Applied(received, found.value, w, t.value, now), w.eventId, true);
      if w.kind.SUBSCRIPTION_DELETED? then Expired(applied, sub.userId, now) else applied
  }

  lemma HandledApplies(db: Database, w: Webhook, i: nat, t: Transition, now: int)
    requires ForeignKeys(db) && !IsProcessed(db, w.eventId)
    requires FindWebhookSubscription(db.subscriptions, w) == Some(i) && ReadTransition(w.kind) == Some(t)
    ensures db.subscriptions[i].userId < |db.users|
    ensures var applied := Marked(Applied(Marked(db, w.eventId, false), i, w, t, now), w.eventId, true);
            Handled(db, w, now)
            == if w.kind.SUBSCRIPTION_DELETED? then Expired(applied, db.subscriptions[i].userId, now) else applied
  {
    assert db.subscriptions[i] in db.subscriptions;
  }

  function HandledResult(db: Database, w: Webhook): WebhookResult {
    WebhookResult(
      IsProcessed(db, w.eventId),
      !IsProcessed(db, w.eventId) && FindWebhookSubscription(db.subscriptions, w).Some? && ReadTransition(w.kind).Some?)
  }

  // ---------------------------------------------------------------- checkout

  datatype CheckoutError = ChoosePaidPlan | UnknownPaymentMethod | UnknownUser | InvalidCpfCnpj

  /** What is refused before anything is written; `methodKnown` says whether the payment method is one of the two
      known ones or left out, `cpfHash` is the hash of a valid document. */
  function CannotCheckout(
    db: Database, userId: nat, plan: Plan, methodKnown: bool, cpfHash: Option<string>): Option<CheckoutError>
  {
    if plan.FREE? then Some(ChoosePaidPlan)
    else if !methodKnown then Some(UnknownPaymentMethod)
    else if userId >= |db.users| then Some(UnknownUser)
    else if cpfHash.None? then Some(InvalidCpfCnpj)
    else None
  }

  /** Up to the call of the provider: the document hash and a PENDING row. */
  function CheckoutBegun(db: Database, userId: nat, plan: Plan, cpfHash: string): Database
    requires userId < |db.users|
  {
    db.(users := db.users[userId := db.users[userId].(cpfHash := Some(cpfHash))],
        subscriptions := db.subscriptions + [Subscription(userId, plan, None, None, PENDING, None, None, None, false)])
  }

  /** After the provider answered. `seen` is the user status read before the call. */
  function CheckoutDone(
    db: Database, i: nat, subscriptionId: Option<string>, paymentId: Option<string>, seen: SubscriptionStatus): Database
    requires i < |db.subscriptions| && db.subscriptions[i].userId < |db.users|
  {
    var sub := db.subscriptions[i];
    db.(subscriptions := db.subscriptions[i := sub.(
                           providerSubscriptionId := OrElse(subscriptionId, sub.providerSubscriptionId),
                           providerPaymentId := OrElse(paymentId, sub.providerPaymentId),
                           status := PENDING)],
        users := if seen.ACTIVE? then db.users else db.users[sub.userId := db.users[sub.userId].(status := PENDING)])
  }

  function CheckoutFailed(db: Database, i: nat, now: int): Database
    requires i < |db.subscriptions|
  {
    db.(subscriptions := db.subscriptions[i := db.subscriptions[i].(status := CANCELED, canceledAt := Some(now))])
  }

  // ---------------------------------------------------------------- cancellation

  datatype CancelCheck =
    NoActivePaidPlan | NoActiveSubscription | NoPeriodEnd | AlreadyScheduled(id: nat) | Schedule(id: nat)

  predicate Cancelable(s: Subscription, userId: nat) {
    s.userId == userId && s.providerSubscriptionId.Some? && s.status.ACTIVE?
  }

  /** The checks of `cancel`, once `expireCanceledSubscription` ran. */
  function CheckCancel(db: Database, userId: nat): CancelCheck {
    var i := LastMatch(db.subscriptions, (s: Subscription) => Cancelable(s, userId));
    if userId >= |db.users| || db.users[userId].plan.FREE? || !db.users[userId].status.ACTIVE? then NoActivePaidPlan
    else if i.None? then NoActiveSubscription
    else if db.subscriptions[i.value].periodEnd.None? then NoPeriodEnd
    else if db.subscriptions[i.value].cancelAtPeriodEnd then AlreadyScheduled(i.value)
    else Schedule(i.value)
  }

  /** After the provider canceled the subscription. */
  function CancelScheduled(db: Database, i: nat, now: int): Database
    requires i < |db.subscriptions|
  {
    db.(subscriptions := db.subscriptions[i := db.subscriptions[i].(
                           status := CANCELED, canceledAt := Some(now), cancelAtPeriodEnd := true)])
  }

  function Canceled(db: Database, userId: nat, now: int): Database {
    var expired := Expired(db, userId, now);
    var check := CheckCancel(expired, userId);
    if check.Schedule? then CancelScheduled(expired, check.id, now) else expired
  }

  // ---------------------------------------------------------------- registration and referral administration

  /** `referrer`: the owner of the referral code, when there is one with another e-mail address. */
  function Registered(db: Database, referrer: Option<nat>): Database {
    var id := |db.users|;
    db.(users := db.users + [User(FREE, NONE, None, referrer, true)],
        referrals := if referrer.Some? && referrer.value != id
                     then db.referrals[id := Referral(referrer.value, PENDING_PAYMENT, None, None, None)]
                     else db.referrals)
  }

  function MarkedPaid(db: Database, id: nat): Database {
    if id !in db.referrals || !db.referrals[id].status.ELIGIBLE? then db
    else db.(referrals := db.referrals[id := db.referrals[id].(status := PAID)])
  }

  function Rejected(db: Database, id: nat): Database {
    if id !in db.referrals || db.referrals[id].status.PAID? then db
    else db.(referrals := db.referrals[id := db.referrals[id].(status := REJECTED)])
  }

  // ---------------------------------------------------------------- the eligibility job

  predicate IsCandidate(r: Referral, now: int) {
    r.status.PENDING_WAITING_PERIOD? && r.eligibleAt.Some? && r.eligibleAt.value <= now
  }

  function Candidates(db: Database, now: int): set<nat> {
    set u | u in db.referrals && u < |db.users| && IsCandidate(db.referrals[u], now)
  }

  predicate IsRewarded(status: ReferralStatus) {
    status.ELIGIBLE? || status.PAID?
  }

  /** Whether a referral other than `id` whose user has this document hash is rewarded. */
  predicate HashRewarded(db: Database, id: nat, hash: string) {
    exists u <- db.referrals ::
      u != id && u < |db.users| && IsRewarded(db.referrals[u].status) && db.users[u].cpfHash == Some(hash)
  }

  /** Whether another candidate shares the document hash. */
  predicate HashShared(db: Database, candidates: set<nat>, id: nat, hash: string)
    requires forall u <- candidates :: u < |db.users|
  {
    exists u <- candidates :: u != id && db.users[u].cpfHash == Some(hash)
  }

  function LinkReason(r: Referral, id: nat, user: User): Option<AntifraudReason> {
    if r.paymentConfirmedAt.None? || r.eligibleAt.None? then Some(MISSING_PAYMENT_CONFIRMATION)
    else if user.referredBy.None? then Some(MISSING_REFERRER_LINK)
    else if r.referrer == id || user.referredBy.value == id then Some(SELF_REFERRAL)
    else if user.referredBy.value != r.referrer then Some(REFERRER_LINK_MISMATCH)
    else if user.cpfHash.None? then Some(MISSING_CPF_CNPJ_HASH)
    else None
  }

  /** The reason the job finds against a candidate. The candidates are as they were `seen` when the job selected
      them; the rewarded referrals are read from the `live` database when it comes to the candidate. */
  function Verdict(seen: Database, live: Database, candidates: set<nat>, id: nat): Option<AntifraudReason>
    requires forall u <- candidates :: u < |seen.users|
    requires id in seen.referrals && id < |seen.users|
  {
    var link := LinkReason(seen.referrals[id], id, seen.users[id]);
    if link.Some? then link
    else if HashShared(seen, candidates, id, seen.users[id].cpfHash.value)
            || HashRewarded(live, id, seen.users[id].cpfHash.value) then Some(DUPLICATE_CPF_CNPJ)
    else None
  }

  /** The same, all read from the database before the job. */
  function Reason(db: Database, candidates: set<nat>, id: nat): Option<AntifraudReason>
    requires forall u <- candidates :: u < |db.users|
    requires id in db.referrals && id < |db.users|
  {
    Verdict(db, db, candidates, id)
  }

  predicate Payable(user: User) {
    user.isActive && user.status.ACTIVE?
  }

  function Judged(r: Referral, reason: Option<AntifraudReason>): Referral {
    r.(status := if reason.Some? then NEEDS_REVIEW else ELIGIBLE, antifraudReason := reason)
  }

  function Decided(db: Database, now: int): set<nat> {
    set u | u in Candidates(db, now) && Payable(db.users[u])
  }

  /** The job without an order: every decided candidate is judged on the database before the job. */
  function EligibleProcessed(db: Database, now: int): Database {
    var candidates := Candidates(db, now);
    db.(referrals := map u | u in db.referrals ::
                       if u in Decided(db, now) then Judged(db.referrals[u], Reason(db, candidates, u))
                       else db.referrals[u])
  }
}
