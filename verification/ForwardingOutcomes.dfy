/** What forwarding answers and stores, route by route and call by call, written out without the functions that compute
    it (message-forwarding.service.ts, plan-limits.service.ts). */
module ForwardingOutcomes {
  import opened Wrappers
  import opened PlanLimits
  import opened ZonedDay
  import opened Forwarding

  // ---------------------------------------------------------------- the count of a day

  /** The rows of the user that count in the day: plain and text sends, by the time of the send. */
  ghost function CountedRows(rows: seq<Row>, userId: string, day: Bounds): set<nat> {
    set k: nat | k < |rows| && rows[k].userId == userId && rows[k].status in {SENT, SENT_TEXT_FALLBACK}
                 && rows[k].sentAt.Some? && day.start <= rows[k].sentAt.value < day.end
  }

  lemma {:induction false} CountIsCountedRows(rows: seq<Row>, userId: string, day: Bounds)
    ensures CountIn(rows, userId, day) == |CountedRows(rows, userId, day)|
    decreases |rows|
  {
    if rows == [] {
      assert CountedRows(rows, userId, day) == {};
    } else {
      var n := |rows| - 1;
      CountIsCountedRows(rows[..n], userId, day);
      assert CountedRows(rows, userId, day)
          == CountedRows(rows[..n], userId, day) + (if n in CountedRows(rows, userId, day) then {n} else {});
    }
  }

  // ---------------------------------------------------------------- one route

  /** The hundred forwards of a FREE user's day are used up. */
  ghost predicate QuotaUsedUp(rows: seq<Row>, zone: Zone, userId: string, plan: Plan, now: int) {
    plan == FREE && CountForwardsToday(rows, zone, userId, now) >= 100
  }

  /** The destination has the message already: only a row with status SENT counts, of whichever user. */
  ghost predicate HasIt(rows: seq<Row>, messageId: string, destination: string) {
    exists k | 0 <= k < |rows| ::
      rows[k].messageId == messageId && rows[k].destination == destination && rows[k].status == SENT
  }

  lemma HasItIff(rows: seq<Row>, messageId: string, destination: string)
    ensures AlreadySent(rows, messageId, destination) <==> HasIt(rows, messageId, destination)
  {
  }

  /** The row a route leaves: skipped at the quota, skipped as a duplicate, FAILED without a time if the send throws,
      otherwise what the provider said, at the time it was said. */
  ghost function Left(store: Store, zone: Zone, userId: string, plan: Plan, messageId: string, t: Target): Row {
    if QuotaUsedUp(store.rows, zone, userId, plan, t.checkedAt)
    then Row(userId, messageId, t.destination, SKIPPED, Some(DAILY_MESSAGE_LIMIT_REACHED), None)
    else if HasIt(store.rows, messageId, t.destination)
    then Row(userId, messageId, t.destination, SKIPPED_ALREADY_SENT, Some(DUPLICATE_FORWARD), None)
    else if t.delivery == Rejected
    then Row(userId, messageId, t.destination, FAILED, Some(SEND_FAILED), None)
    else Row(userId, messageId, t.destination, t.delivery.status, t.delivery.reason, Some(t.sentAt))
  }

  /** The route reaches the socket. */
  ghost predicate IsSent(store: Store, zone: Zone, userId: string, plan: Plan, messageId: string, t: Target) {
    !QuotaUsedUp(store.rows, zone, userId, plan, t.checkedAt) && !HasIt(store.rows, messageId, t.destination)
  }

  lemma RouteLeaves(store: Store, zone: Zone, userId: string, plan: Plan, messageId: string, t: Target)
    ensures Forwarded(store, zone, userId, plan, messageId, t)
         == Store(store.rows + [Left(store, zone, userId, plan, messageId, t)],
                  if IsSent(store, zone, userId, plan, messageId, t)
                  then store.sends + [Send(messageId, t.destination)] else store.sends)
  {
    HasItIff(store.rows, messageId, t.destination);
  }

  /** A send that throws leaves every message as sent or unsent as it was, so that it can be tried again. */
  lemma FailedSendsCanBeRepeated(
    store: Store, zone: Zone, userId: string, plan: Plan, messageId: string, t: Target, m: string, d: string)
    requires t.delivery == Rejected
    ensures HasIt(Forwarded(store, zone, userId, plan, messageId, t).rows, m, d) <==> HasIt(store.rows, m, d)
  {
    RouteLeaves(store, zone, userId, plan, messageId, t);
    var rows := Forwarded(store, zone, userId, plan, messageId, t).rows;
    if HasIt(store.rows, m, d) {
      var k :| 0 <= k < |store.rows| && store.rows[k].messageId == m && store.rows[k].destination == d
               && store.rows[k].status == SENT;
      assert rows[k] == store.rows[k];
    }
  }

  // ---------------------------------------------------------------- the loop

  /** The last route is forwarded on what the routes before it left. */
  lemma LastRoute(store: Store, zone: Zone, userId: string, plan: Plan, messageId: string, targets: seq<Target>)
    requires targets != []
    ensures var init, t := targets[..|targets| - 1], targets[|targets| - 1];
            var before := Looped(store, zone, userId, plan, messageId, init);
            var after := Looped(store, zone, userId, plan, messageId, targets);
            && |before.rows| == |store.rows| + |init|
            && after.rows == before.rows + [Left(before, zone, userId, plan, messageId, t)]
            && after.sends == if IsSent(before, zone, userId, plan, messageId, t)
                              then before.sends + [Send(messageId, t.destination)] else before.sends
  {
    LoopAppends(store, zone, userId, plan, messageId, targets[..|targets| - 1]);
    RouteLeaves(Looped(store, zone, userId, plan, messageId, targets[..|targets| - 1]),
                zone, userId, plan, messageId, targets[|targets| - 1]);
  }

  lemma Prefixes(targets: seq<Target>, k: nat)
    requires k < |targets|
    ensures k == |targets| - 1 ==> targets[..|targets| - 1] == targets[..k]
    ensures k < |targets| - 1 ==> targets[..|targets| - 1][..k] == targets[..k]
                                  && targets[..|targets| - 1][k] == targets[k]
  {
  }

  /** The row of route `k` after the loop, on what the routes before it left. */
  ghost predicate HasRow(
    store: Store, zone: Zone, userId: string, plan: Plan, messageId: string, rows: seq<Row>, first: seq<Target>,
    t: Target)
  {
    && |store.rows| + |first| < |rows|
    && rows[|store.rows| + |first|]
       == Left(Looped(store, zone, userId, plan, messageId, first), zone, userId, plan, messageId, t)
  }

  /** Every route has its row, on what the routes before it left. */
  lemma {:induction false} RowOfEachRoute(
    store: Store, zone: Zone, userId: string, plan: Plan, messageId: string, targets: seq<Target>, k: nat)
    requires k < |targets|
    ensures HasRow(store, zone, userId, plan, messageId,
                   Looped(store, zone, userId, plan, messageId, targets).rows, targets[..k], targets[k])
    decreases |targets|
  {
    LastRoute(store, zone, userId, plan, messageId, targets);
    Prefixes(targets, k);
    if k < |targets| - 1 {
      RowOfEachRoute(store, zone, userId, plan, messageId, targets[..|targets| - 1], k);
    }
  }

  // ---------------------------------------------------------------- the three counts

  /** The positions of the results with one of the statuses. */
  function With(results: seq<ForwardResult>, statuses: set<Status>): set<nat> {
    set k: nat | k < |results| && results[k].status in statuses
  }

  lemma {:induction false} CountsWith(results: seq<ForwardResult>, p: Status -> bool, statuses: set<Status>)
    requires forall s :: p(s) <==> s in statuses
    ensures CountStatus(results, p) == |With(results, statuses)|
    decreases |results|
  {
    if results == [] {
      assert With(results, statuses) == {};
    } else {
      var n := |results| - 1;
      var init := results[..n];
      CountsWith(init, p, statuses);
      assert With(results, statuses) == With(init, statuses) + (if results[n].status in statuses then {n} else {});
    }
  }

  /** The response counts the results by their statuses. */
  lemma ResponseCounts(results: seq<ForwardResult>)
    ensures ToForwardResponse(results)
         == Response(|With(results, {SENT, SENT_TEXT_FALLBACK, SENT_MEDIA_FALLBACK})|, |With(results, {FAILED})|,
                     |With(results, {SKIPPED, SKIPPED_ALREADY_SENT})|, results)
  {
    CountsWith(results, Delivered, {SENT, SENT_TEXT_FALLBACK, SENT_MEDIA_FALLBACK});
    CountsWith(results, (s: Status) => s.FAILED?, {FAILED});
    CountsWith(results, IsSkip, {SKIPPED, SKIPPED_ALREADY_SENT});
  }

  /** The routes that reach the socket and are answered that way. */
  ghost function SentRoutes(store: Store, zone: Zone, r: Request, rejected: bool): set<nat>
    requires r.plan.Some? && r.messageId.Some?
  {
    set k: nat | k < |r.targets|
                 && IsSent(Looped(store, zone, r.userId, r.plan.value, r.messageId.value, r.targets[..k]),
                           zone, r.userId, r.plan.value, r.messageId.value, r.targets[k])
                 && r.targets[k].delivery.Rejected? == rejected
  }

  lemma ResultOfRoute(store: Store, zone: Zone, r: Request, k: nat)
    requires ReachesLoop(store, zone, r) && k < |r.targets|
    ensures var outcome := Forward(store, zone, r);
            && outcome.result.Success? && |outcome.result.value.results| == |r.targets|
            && var before := Looped(store, zone, r.userId, r.plan.value, r.messageId.value, r.targets[..k]);
               var row := Left(before, zone, r.userId, r.plan.value, r.messageId.value, r.targets[k]);
               outcome.result.value.results[k] == ForwardResult(row.destination, row.status, row.reason)
  {
    RowOfEachRoute(store, zone, r.userId, r.plan.value, r.messageId.value, r.targets, k);
    var rows := Looped(store, zone, r.userId, r.plan.value, r.messageId.value, r.targets).rows;
    LoopAppends(store, zone, r.userId, r.plan.value, r.messageId.value, r.targets);
    assert rows[|store.rows|..][k] == rows[|store.rows| + k];
  }

  /** The status a route leaves tells how its send went. */
  lemma StatusTells(store: Store, zone: Zone, userId: string, plan: Plan, messageId: string, t: Target)
    requires t.delivery.Accepted? ==> Delivered(t.delivery.status)
    ensures var status := Left(store, zone, userId, plan, messageId, t).status;
            var sent := IsSent(store, zone, userId, plan, messageId, t);
            && (status in {FAILED} <==> sent && t.delivery.Rejected?)
            && (status in {SENT, SENT_TEXT_FALLBACK, SENT_MEDIA_FALLBACK} <==> sent && !t.delivery.Rejected?)
  {
  }

  lemma RouteIsCounted(store: Store, zone: Zone, r: Request, results: seq<ForwardResult>, k: nat)
    requires ReachesLoop(store, zone, r) && ValidTargets(r.targets) && k < |r.targets|
    requires Forward(store, zone, r).result.Success? && results == Forward(store, zone, r).result.value.results
    ensures k in With(results, {FAILED}) <==> k in SentRoutes(store, zone, r, true)
    ensures k in With(results, {SENT, SENT_TEXT_FALLBACK, SENT_MEDIA_FALLBACK})
       <==> k in SentRoutes(store, zone, r, false)
  {
    ResultOfRoute(store, zone, r, k);
    assert r.targets[k] in r.targets;
    var before := Looped(store, zone, r.userId, r.plan.value, r.messageId.value, r.targets[..k]);
    StatusTells(before, zone, r.userId, r.plan.value, r.messageId.value, r.targets[k]);
  }

  lemma SameRoutes(results: seq<ForwardResult>, statuses: set<Status>, routes: set<nat>)
    requires forall k <- routes :: k < |results|
    requires forall k: nat | k < |results| :: k in With(results, statuses) <==> k in routes
    ensures |With(results, statuses)| == |routes|
  {
    assert With(results, statuses) == routes;
  }

  lemma RoutesAreCounted(store: Store, zone: Zone, r: Request, results: seq<ForwardResult>)
    requires ReachesLoop(store, zone, r) && ValidTargets(r.targets)
    requires Forward(store, zone, r).result.Success? && results == Forward(store, zone, r).result.value.results
    requires |results| == |r.targets|
    ensures |With(results, {FAILED})| == |SentRoutes(store, zone, r, true)|
    ensures |With(results, {SENT, SENT_TEXT_FALLBACK, SENT_MEDIA_FALLBACK})| == |SentRoutes(store, zone, r, false)|
  {
    forall k: nat | k < |r.targets| { RouteIsCounted(store, zone, r, results, k); }
    SameRoutes(results, {FAILED}, SentRoutes(store, zone, r, true));
    SameRoutes(results, {SENT, SENT_TEXT_FALLBACK, SENT_MEDIA_FALLBACK}, SentRoutes(store, zone, r, false));
  }

  lemma LoopResponse(store: Store, zone: Zone, r: Request)
    requires ReachesLoop(store, zone, r)
    ensures var outcome := Forward(store, zone, r);
            && outcome.result.Success? && |outcome.result.value.results| == |r.targets|
            && outcome.result.value == ToForwardResponse(outcome.result.value.results)
  {
    LoopAppends(store, zone, r.userId, r.plan.value, r.messageId.value, r.targets);
  }

  /** A call that reaches the loop reports as failed exactly the sends that threw, as sent exactly those the provider
      took, and skips the other routes. */
  lemma CountsAreSends(store: Store, zone: Zone, r: Request)
    requires ReachesLoop(store, zone, r) && ValidTargets(r.targets)
    ensures Forward(store, zone, r).result.Success?
    ensures var response := Forward(store, zone, r).result.value;
            && response.failedCount == |SentRoutes(store, zone, r, true)|
            && response.sentCount == |SentRoutes(store, zone, r, false)|
  {
    LoopResponse(store, zone, r);
    var results := Forward(store, zone, r).result.value.results;
    ResponseCounts(results);
    RoutesAreCounted(store, zone, r, results);
  }

  // ---------------------------------------------------------------- calls that do not reach the loop

  /** One SKIPPED row per route for one reason. */
  ghost predicate SkipsAll(before: Store, after: Store, r: Request, reason: Reason)
    requires r.messageId.Some?
  {
    && after.sends == before.sends
    && |after.rows| == |before.rows| + |r.targets| && after.rows[..|before.rows|] == before.rows
    && forall k | 0 <= k < |r.targets| ::
         after.rows[|before.rows| + k]
         == Row(r.userId, r.messageId.value, r.targets[k].destination, SKIPPED, Some(reason), None)
  }

  /** The response to a call that skips all its routes. */
  ghost predicate ReportsSkips(response: Response, r: Request, reason: Reason) {
    && response.sentCount == 0 && response.failedCount == 0 && response.skippedCount == |r.targets|
    && |response.results| == |r.targets|
    && forall k | 0 <= k < |r.targets| ::
         response.results[k] == ForwardResult(r.targets[k].destination, SKIPPED, Some(reason))
  }

  lemma SkippedResponse(before: Store, after: Store, r: Request, reason: Reason)
    requires r.messageId.Some? && SkipsAll(before, after, r, reason)
    ensures ReportsSkips(ToForwardResponse(ResultsOf(after.rows[|before.rows|..])), r, reason)
  {
    var results := ResultsOf(after.rows[|before.rows|..]);
    forall k | 0 <= k < |r.targets|
      ensures results[k] == ForwardResult(r.targets[k].destination, SKIPPED, Some(reason))
    {
      assert after.rows[|before.rows|..][k] == after.rows[|before.rows| + k];
    }
    ResponseCounts(results);
    assert With(results, {FAILED}) == {};
    assert With(results, {SENT, SENT_TEXT_FALLBACK, SENT_MEDIA_FALLBACK}) == {};
    AllWith(results, {SKIPPED, SKIPPED_ALREADY_SENT});
  }

  lemma {:induction false} AllWith(results: seq<ForwardResult>, statuses: set<Status>)
    requires forall k | 0 <= k < |results| :: results[k].status in statuses
    ensures |With(results, statuses)| == |results|
    decreases |results|
  {
    if results == [] {
      assert With(results, statuses) == {};
    } else {
      var n := |results| - 1;
      AllWith(results[..n], statuses);
      assert With(results, statuses) == With(results[..n], statuses) + {n};
    }
  }

  /** The user and the message exist, and there is something to do. */
  ghost predicate HasWork(r: Request) {
    r.blankId == None && r.messageId != None && r.plan != None && (r.auto ==> r.hasLinks) && r.targets != []
  }

  /** Exceptions before any work, the first counting, and the empty answers. None of them writes or sends. */
  lemma NothingToDo(store: Store, zone: Zone, r: Request)
    requires !HasWork(r)
    ensures var outcome := Forward(store, zone, r);
            && outcome.store == store
            && outcome.result
               == if r.blankId != None then Failure(ForwardError.Required(r.blankId.value))
                  else if r.messageId == None then Failure(MessageNotFound)
                  else if r.plan == None then Failure(ForwardError.UserNotFound)
                  else Success(Response(0, 0, 0, []))
  {
    assert store.rows[|store.rows|..] == [];
    assert ResultsOf([]) == [];
  }

  /** A call that is over the quota or refused by the affiliate rewrite skips every route for that reason; the quota
      comes first. */
  lemma RefusedCallsSkipAll(store: Store, zone: Zone, r: Request)
    requires HasWork(r)
    requires QuotaUsedUp(store.rows, zone, r.userId, r.plan.value, r.startedAt) || r.rewrite.Refuses?
    ensures var outcome := Forward(store, zone, r);
            var reason := if QuotaUsedUp(store.rows, zone, r.userId, r.plan.value, r.startedAt)
                          then DAILY_MESSAGE_LIMIT_REACHED else r.rewrite.reason;
            && SkipsAll(store, outcome.store, r, reason)
            && outcome.result.Success? && ReportsSkips(outcome.result.value, r, reason)
  {
    var reason := if QuotaUsedUp(store.rows, zone, r.userId, r.plan.value, r.startedAt)
                  then DAILY_MESSAGE_LIMIT_REACHED else r.rewrite.reason;
    var after := store.(rows := store.rows + SkippedRows(r.userId, r.messageId.value, r.targets, reason));
    assert Forward(store, zone, r) == Answered(store, after);
    SkippedAll(store, after, r, reason);
    SkippedResponse(store, after, r, reason);
  }

  lemma SkippedAll(store: Store, after: Store, r: Request, reason: Reason)
    requires r.messageId.Some?
    requires after == store.(rows := store.rows + SkippedRows(r.userId, r.messageId.value, r.targets, reason))
    ensures SkipsAll(store, after, r, reason)
  {
  }

  /** The call gets past the quota and the affiliate rewrite. */
  ghost predicate GetsToSession(store: Store, zone: Zone, r: Request) {
    HasWork(r) && !QuotaUsedUp(store.rows, zone, r.userId, r.plan.value, r.startedAt) && !r.rewrite.Refuses?
  }

  /** A rewrite that throws, a missing session and a missing socket write nothing. */
  lemma ExceptionsBeforeTheLoop(store: Store, zone: Zone, r: Request)
    requires GetsToSession(store, zone, r)
    ensures var outcome := Forward(store, zone, r);
            && (r.rewrite == Throws ==> outcome == Outcome(store, Failure(RewriteFailed)))
            && (r.rewrite == Passes && r.session == Missing ==> outcome == Outcome(store, Failure(SessionNotFound)))
            && (r.rewrite == Passes && r.session == Reconnecting ==>
                  outcome == Outcome(store, Failure(SocketUnavailable)))
  {
  }

  /** With a connected session the call reaches the loop. */
  lemma ConnectedSessionsForward(store: Store, zone: Zone, r: Request)
    requires GetsToSession(store, zone, r) && r.rewrite == Passes && r.session == Connected
    ensures ReachesLoop(store, zone, r) && Forward(store, zone, r).result.Success?
    ensures Forward(store, zone, r).store
         == Looped(store, zone, r.userId, r.plan.value, r.messageId.value, r.targets)
  {
  }

  /** A disconnected session skips every route for that reason, and the call throws. */
  lemma DisconnectedSessionsSkipAll(store: Store, zone: Zone, r: Request)
    requires GetsToSession(store, zone, r) && r.rewrite == Passes && r.session == Disconnected
    ensures var outcome := Forward(store, zone, r);
            SkipsAll(store, outcome.store, r, SESSION_DISCONNECTED) && outcome.result == Failure(NotConnected)
  {
    var after := store.(rows := store.rows + SkippedRows(r.userId, r.messageId.value, r.targets, SESSION_DISCONNECTED));
    assert Forward(store, zone, r) == Outcome(after, Failure(NotConnected));
    SkippedAll(store, after, r, SESSION_DISCONNECTED);
  }
}
