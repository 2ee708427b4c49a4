/** The billing and auth services over the shared store (billing.service.ts, auth.service.ts). Calls of
    the payment provider appear as what they returned; a call cut in two at the provider's answer is two methods. */
module BillingService {
  import opened Wrappers
  import opened Rows
  import opened PlanLimits
  import opened BillingModel
  import opened BillingStore
  import opened Referrals

  datatype WebhookError = Unauthorized | InvalidPayload

  datatype MeDto = MeDto(plan: Plan, status: SubscriptionStatus, subscription: Option<Subscription>)

  datatype UserUnknown = UserUnknown

  /** `shown` is the newest subscription of the user, if there is any. */
  predicate IsNewest(subs: seq<Subscription>, userId: nat, shown: Option<Subscription>) {
    if shown.None? then forall s <- subs :: s.userId != userId
    else exists i :: 0 <= i < |subs| && subs[i] == shown.value && subs[i].userId == userId
                     && forall j :: i < j < |subs| ==> subs[j].userId != userId
  }

  class BillingService {
    const store: Store
    const referrals: ReferralsService

    constructor (store: Store, referrals: ReferralsService)
      requires referrals.store == store
      ensures this.store == store && this.referrals == referrals
    {
      this.store := store;
      this.referrals := referrals;
    }

    method ExpireCanceledSubscription(userId: nat, now: int)
      modifies store`users, store`subscriptions
      ensures store.View() == Expired(old(store.View()), userId, now)
    {
      var found := LastMatch(store.subscriptions, (s: Subscription) => Expirable(s, userId, now));
      if found.None? || userId >= |store.users| {
        return;
      }
      var subscription := store.subscriptions[found.value];
      store.subscriptions := store.subscriptions[found.value := subscription.(
        status := CANCELED, cancelAtPeriodEnd := false,
        canceledAt := if subscription.canceledAt.Some? then subscription.canceledAt else Some(now))];
      store.users := store.users[userId := store.users[userId].(plan := FREE, status := CANCELED)];
    }

    method Me(userId: nat, now: int) returns (result: Result<MeDto, UserUnknown>)
      modifies store`users, store`subscriptions
      ensures store.View() == Expired(old(store.View()), userId, now)
      ensures result.Success? <==> userId < |store.users|
      ensures result.Success? ==>
                && result.value.plan == store.users[userId].plan
                && result.value.status == store.users[userId].status
                && IsNewest(store.subscriptions, userId, result.value.subscription)
    {
      ExpireCanceledSubscription(userId, now);
      if userId >= |store.users| {
        return Failure(UserUnknown);
      }
      var newest := LastMatch(store.subscriptions, (s: Subscription) => s.userId == userId);
      var user := store.users[userId];
      return Success(MeDto(user.plan, user.status,
        if newest.Some? then Some(store.subscriptions[newest.value]) else None));
    }

    /** The checks and writes of `checkout` before the provider is called. */
    method BeginCheckout(userId: nat, plan: Plan, methodKnown: bool, cpfHash: Option<string>)
      returns (result: Result<nat, CheckoutError>, seen: SubscriptionStatus)
      modifies store`users, store`subscriptions
      ensures result.Failure? <==> CannotCheckout(old(store.View()), userId, plan, methodKnown, cpfHash).Some?
      ensures result.Failure? ==>
                && store.View() == old(store.View())
                && CannotCheckout(old(store.View()), userId, plan, methodKnown, cpfHash) == Some(result.error)
      ensures result.Success? ==>
                && store.View() == CheckoutBegun(old(store.View()), userId, plan, cpfHash.value)
                && result.value == |old(store.subscriptions)| && seen == old(store.users)[userId].status
    {
      seen := NONE;
      if plan.FREE? {
        return Failure(ChoosePaidPlan), seen;
      }
      if !methodKnown {
        return Failure(UnknownPaymentMethod), seen;
      }
      if userId >= |store.users| {
        return Failure(UnknownUser), seen;
      }
      seen := store.users[userId].status;
      if cpfHash.None? {
        return Failure(InvalidCpfCnpj), seen;
      }
      store.users := store.users[userId := store.users[userId].(cpfHash := cpfHash)];
      var pending := |store.subscriptions|;
      store.subscriptions := store.subscriptions
        + [Subscription(userId, plan, None, None, PENDING, None, None, None, false)];
      return Success(pending), seen;
    }

    method FinishCheckout(
      pending: nat, subscriptionId: Option<string>, paymentId: Option<string>, seen: SubscriptionStatus)
      requires pending < |store.subscriptions| && store.subscriptions[pending].userId < |store.users|
      modifies store`users, store`subscriptions
      ensures store.View() == CheckoutDone(old(store.View()), pending, subscriptionId, paymentId, seen)
    {
      var sub := store.subscriptions[pending];
      var userId := sub.userId;
      if subscriptionId.Some? {
        sub := sub.(providerSubscriptionId := subscriptionId);
      }
      if paymentId.Some? {
        sub := sub.(providerPaymentId := paymentId);
      }
      store.subscriptions := store.subscriptions[pending := sub.(status := PENDING)];
      if !seen.ACTIVE? {
        store.users := store.users[userId := store.users[userId].(status := PENDING)];
      }
    }

    method FailCheckout(pending: nat, now: int)
      requires pending < |store.subscriptions|
      modifies store`subscriptions
      ensures store.View() == CheckoutFailed(old(store.View()), pending, now)
    {
      store.subscriptions := store.subscriptions[pending :=
        store.subscriptions[pending].(status := CANCELED, canceledAt := Some(now))];
    }

    /** `payload` is what the webhook was parsed to, if it could be. */
    method HandleAsaasWebhook(token: string, configured: string, payload: Option<Webhook>, now: int)
      returns (result: Result<WebhookResult, WebhookError>)
      requires ForeignKeys(store.View()) && referrals.store == store
      modifies store
      ensures result == Failure(Unauthorized) <==> configured == "" || token != configured
      ensures result == Failure(InvalidPayload) <==> configured != "" && token == configured && payload.None?
      ensures result.Failure? ==> store.View() == old(store.View())
      ensures result.Success? ==>
                && store.View() == Handled(old(store.View()), payload.value, now)
                && result.value == HandledResult(old(store.View()), payload.value)
    {
      if configured == "" || token != configured {
        return Failure(Unauthorized);
      }
      if payload.None? {
        return Failure(InvalidPayload);
      }
      var handled := HandleEvent(payload.value, now);
      return Success(handled);
    }

    /** Creates the event row, or finds the one an interrupted delivery left behind. */
    method ReceiveEvent(eventId: string) returns (duplicate: bool)
      modifies store`events
      ensures duplicate == IsProcessed(old(store.View()), eventId)
      ensures store.View() == if duplicate then old(store.View()) else Marked(old(store.View()), eventId, false)
    {
      if eventId in store.events {
        return store.events[eventId];
      }
      store.events := store.events[eventId := false];
      return false;
    }

    method HandleEvent(w: Webhook, now: int) returns (result: WebhookResult)
      requires ForeignKeys(store.View()) && referrals.store == store
      modifies store
      ensures store.View() == Handled(old(store.View()), w, now)
      ensures result == HandledResult(old(store.View()), w)
    {
      var duplicate := ReceiveEvent(w.eventId);
      if duplicate {
        return WebhookResult(true, false);
      }
      var found := FindWebhookSubscription(store.subscriptions, w);
      if found.None? {
        return WebhookResult(false, false);
      }
      var transition := ReadTransition(w.kind);
      if transition.None? {
        store.events := store.events[w.eventId := true];
        return WebhookResult(false, false);
      }
      ProcessWebhook(found.value, w, transition.value, now);
      return WebhookResult(false, true);
    }

    /** From the row and the transition to `processedAt`. */
    method ProcessWebhook(i: nat, w: Webhook, t: Transition, now: int)
      requires i < |store.subscriptions| && store.subscriptions[i].userId < |store.users|
      requires ReadTransition(w.kind) == Some(t) && referrals.store == store
      modifies store
      ensures var applied := Marked(Applied(old(store.View()), i, w, t, now), w.eventId, true);
              store.View() == if w.kind.SUBSCRIPTION_DELETED?
                              then Expired(applied, old(store.subscriptions)[i].userId, now) else applied
    {
      var subscription := store.subscriptions[i];
      RunTransaction(i, w, t, now);
      FollowReferral(subscription, w, t, now);
      store.events := store.events[w.eventId := true];
      if w.kind.SUBSCRIPTION_DELETED? {
        ExpireCanceledSubscription(subscription.userId, now);
      }
    }

    /** The period, the two updates and the protection by a newer ACTIVE subscription, as one transaction. */
    method RunTransaction(i: nat, w: Webhook, t: Transition, now: int)
      requires i < |store.subscriptions| && store.subscriptions[i].userId < |store.users|
      requires ReadTransition(w.kind) == Some(t)
      modifies store`users, store`subscriptions
      ensures store.View() == Transacted(old(store.View()), i, w, t, now)
    {
      var sub := store.subscriptions[i];
      var user := store.users[sub.userId];
      var canUpdateUser := CanUpdateUser(store.subscriptions, i);
      var keepsAccess := w.kind.SUBSCRIPTION_DELETED? && sub.periodEnd.Some? && sub.periodEnd.value > now;
      var next := sub.(status := t.billingStatus);
      if w.paymentId.Some? {
        next := next.(providerPaymentId := w.paymentId);
      }
      if w.subscriptionId.Some? {
        next := next.(providerSubscriptionId := w.subscriptionId);
      }
      if t.activatePlan && !SameActivePayment(sub, w) {
        var start := PeriodStart(sub, w.kind, now);
        next := next.(periodStart := Some(start), periodEnd := Some(start + PERIOD_MS));
        next := next.(canceledAt := None, cancelAtPeriodEnd := false);
      }
      if t.billingStatus.CANCELED? {
        next := next.(canceledAt := Some(now));
      }
      if w.kind.SUBSCRIPTION_DELETED? {
        next := next.(cancelAtPeriodEnd := keepsAccess);
      }
      if canUpdateUser {
        if w.kind.SUBSCRIPTION_DELETED? {
          user := user.(status := if keepsAccess then ACTIVE else CANCELED);
        } else {
          user := user.(status := t.userStatus);
        }
        if w.kind.SUBSCRIPTION_DELETED? && !keepsAccess {
          user := user.(plan := FREE);
        } else if t.activatePlan {
          user := user.(plan := sub.plan);
        } else if t.resetPlan {
          user := user.(plan := FREE);
        }
        store.users := store.users[sub.userId := user];
      }
      store.subscriptions := store.subscriptions[i := next];
    }

    method FollowReferral(sub: Subscription, w: Webhook, t: Transition, now: int)
      requires sub.userId < |store.users| && referrals.store == store
      modifies store`users, store`referrals
      ensures store.View() == ReferralFollowed(old(store.View()), sub, w, t, now)
    {
      if w.kind.PAYMENT_CONFIRMED? {
        if w.cpfHash.Some? {
          store.users := store.users[sub.userId := store.users[sub.userId].(cpfHash := w.cpfHash)];
        }
        referrals.ConfirmPayment(sub.userId, now);
      } else if t.resetPlan || (w.kind.SUBSCRIPTION_DELETED? && !KeepsAccess(sub, w.kind, now)) {
        var _ := referrals.ResetWaitingPeriod(sub.userId);
      }
    }

    /** `providerCancels`: whether the provider cancels the subscription when it is asked to, or the call throws. */
    method Cancel(userId: nat, providerCancels: bool, now: int) returns (check: CancelCheck, thrown: bool)
      modifies store`users, store`subscriptions
      ensures store.View() == if providerCancels then Canceled(old(store.View()), userId, now)
                              else Expired(old(store.View()), userId, now)
      ensures check == CheckCancel(Expired(old(store.View()), userId, now), userId)
      ensures thrown <==> !check.AlreadyScheduled? && !(check.Schedule? && providerCancels)
    {
      ExpireCanceledSubscription(userId, now);
      if userId >= |store.users| || store.users[userId].plan.FREE? || !store.users[userId].status.ACTIVE? {
        return NoActivePaidPlan, true;
      }
      var found := LastMatch(store.subscriptions, (s: Subscription) => Cancelable(s, userId));
      if found.None? {
        return NoActiveSubscription, true;
      }
      var sub := store.subscriptions[found.value];
      if sub.periodEnd.None? {
        return NoPeriodEnd, true;
      }
      if sub.cancelAtPeriodEnd {
        return AlreadyScheduled(found.value), false;
      }
      if !providerCancels {
        return Schedule(found.value), true;
      }
      store.subscriptions := store.subscriptions[found.value := sub.(
        status := CANCELED, canceledAt := Some(now), cancelAtPeriodEnd := true)];
      return Schedule(found.value), false;
    }
  }

  class AuthService {
    const store: Store

    constructor (store: Store)
      ensures this.store == store
    {
      this.store := store;
    }

    /** `codeOwner`: the owner of the given code, when there is one with another e-mail address. */
    method Register(codeOwner: Option<nat>) returns (userId: nat)
      modifies store`users, store`referrals
      ensures store.View() == Registered(old(store.View()), codeOwner)
      ensures userId == |old(store.users)|
    {
      userId := |store.users|;
      store.users := store.users + [User(FREE, NONE, None, codeOwner, true)];
      if codeOwner.Some? && codeOwner.value != userId {
        store.referrals := store.referrals[userId := Referral(codeOwner.value, PENDING_PAYMENT, None, None, None)];
      }
    }

    method Me(userId: nat, now: int) returns (result: Result<(Plan, SubscriptionStatus), UserUnknown>)
      modifies store`users, store`subscriptions
      ensures store.View() == Expired(old(store.View()), userId, now)
      ensures result.Success? <==> userId < |store.users| && store.users[userId].isActive
      ensures result.Success? ==> result.value == (store.users[userId].plan, store.users[userId].status)
    {
      var found := LastMatch(store.subscriptions, (s: Subscription) => Expirable(s, userId, now));
      if found.Some? && userId < |store.users| {
        var subscription := store.subscriptions[found.value];
        store.subscriptions := store.subscriptions[found.value := subscription.(
          status := CANCELED, cancelAtPeriodEnd := false, canceledAt := OrElse(subscription.canceledAt, Some(now)))];
        store.users := store.users[userId := store.users[userId].(plan := FREE, status := CANCELED)];
      }
      if userId >= |store.users| || !store.users[userId].isActive {
        return Failure(UserUnknown);
      }
      return Success((store.users[userId].plan, store.users[userId].status));
    }
  }
}
