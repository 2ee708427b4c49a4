/** Forwarding a message to its routes (message-forwarding.service.ts) under the daily quota
    (plan-limits.service.ts). Calls run one after another. What the network, the link
    rewriter and the clock contribute is part of the request; texts, media and provider ids are not modelled. */
module Forwarding {
  import opened Wrappers
  import opened PlanLimits
  import opened ZonedDay

  datatype Status = SENT | SENT_TEXT_FALLBACK | SENT_MEDIA_FALLBACK | FAILED | SKIPPED | SKIPPED_ALREADY_SENT

  datatype Reason =
    | DAILY_MESSAGE_LIMIT_REACHED
    | DUPLICATE_FORWARD
    | SEND_FAILED
    | SESSION_DISCONNECTED
    | OtherReason(code: string)

  datatype Row = Row(
    userId: string, messageId: string, destination: string, status: Status, reason: Option<Reason>, sentAt: Option<int>)

  datatype ForwardResult = ForwardResult(destination: string, status: Status, reason: Option<Reason>)

  datatype Response = Response(sentCount: nat, failedCount: nat, skippedCount: nat, results: seq<ForwardResult>)

  /** One call of the socket's `sendMessage` for a message and a destination. */
  datatype Send = Send(messageId: string, destination: string)

  datatype Store = Store(rows: seq<Row>, sends: seq<Send>)

  predicate Delivered(status: Status) {
    status.SENT? || status.SENT_TEXT_FALLBACK? || status.SENT_MEDIA_FALLBACK?
  }

  /** How the provider answers a send; `Rejected` covers every exception of the `try` block. */
  datatype Delivery = Accepted(status: Status, reason: Option<Reason>) | Rejected

  /** A route with the times of its quota check and of its row, and the answer a send would get. */
  datatype Target = Target(destination: string, checkedAt: int, delivery: Delivery, sentAt: int)

  /** `Reconnecting`: the row says connected but `getConnectedSocket` has no socket and throws. */
  datatype Session = Missing | Disconnected | Reconnecting | Connected

  /** The affiliate rewrite of the message throws, refuses it as a whole, or lets it through. */
  datatype Rewrite = Throws | Refuses(reason: Reason) | Passes

  datatype Request = Request(
    blankId: Option<string>,       // the first of the two ids that consists of white space
    userId: string,
    plan: Option<Plan>,            // None: no such user
    messageId: Option<string>,     // None: no such message
    auto: bool,
    hasLinks: bool,
    startedAt: int,
    rewrite: Rewrite,
    session: Session,
    targets: seq<Target>)          // active routes in creation order

  datatype ForwardError =
    | Required(field: string)
    | MessageNotFound
    | UserNotFound
    | RewriteFailed
    | SessionNotFound
    | NotConnected
    | SocketUnavailable

  // ---------------------------------------------------------------- the quota

  predicate Counted(row: Row, userId: string, day: Bounds) {
    && row.userId == userId
    && (row.status.SENT? || row.status.SENT_TEXT_FALLBACK?)
    && row.sentAt.Some? && In(row.sentAt.value, day)
  }

  function CountIn(rows: seq<Row>, userId: string, day: Bounds): nat {
    if rows == [] then 0
    else CountIn(rows[..|rows| - 1], userId, day) + if Counted(rows[|rows| - 1], userId, day) then 1 else 0
  }

  function CountForwardsToday(rows: seq<Row>, zone: Zone, userId: string, now: int): nat {
    CountIn(rows, userId, DayBounds(zone, now))
  }

  predicate CanForwardMessage(rows: seq<Row>, zone: Zone, userId: string, plan: Plan, now: int) {
    var limit := LimitsOf(plan).dailyForwardLimit;
    limit.None? || CountForwardsToday(rows, zone, userId, now) < limit.value
  }

  // ---------------------------------------------------------------- one route

  predicate AlreadySent(rows: seq<Row>, messageId: string, destination: string) {
    exists row <- rows :: row.messageId == messageId && row.destination == destination && row.status.SENT?
  }

  /** Whether the route reaches `sendMessage`. */
  predicate Attempts(store: Store, zone: Zone, userId: string, plan: Plan, messageId: string, t: Target) {
    && CanForwardMessage(store.rows, zone, userId, plan, t.checkedAt)
    && !AlreadySent(store.rows, messageId, t.destination)
  }

  function RowFor(store: Store, zone: Zone, userId: string, plan: Plan, messageId: string, t: Target): (row: Row)
    ensures row.userId == userId && row.messageId == messageId && row.destination == t.destination
  {
    if !CanForwardMessage(store.rows, zone, userId, plan, t.checkedAt)
    then Row(userId, messageId, t.destination, SKIPPED, Some(DAILY_MESSAGE_LIMIT_REACHED), None)
    else if AlreadySent(store.rows, messageId, t.destination)
    then Row(userId, messageId, t.destination, SKIPPED_ALREADY_SENT, Some(DUPLICATE_FORWARD), None)
    else match t.delivery
      case Accepted(status, reason) => Row(userId, messageId, t.destination, status, reason, Some(t.sentAt))
      case Rejected => Row(userId, messageId, t.destination, FAILED, Some(SEND_FAILED), None)
  }

  function Forwarded(store: Store, zone: Zone, userId: string, plan: Plan, messageId: string, t: Target): Store {
    Store(store.rows + [RowFor(store, zone, userId, plan, messageId, t)],
          if Attempts(store, zone, userId, plan, messageId, t)
          then store.sends + [Send(messageId, t.destination)] else store.sends)
  }

  // ---------------------------------------------------------------- all routes

  function Looped(
    store: Store, zone: Zone, userId: string, plan: Plan, messageId: string, targets: seq<Target>): Store
  {
    if targets == [] then store
    else
      Forwarded(Looped(store, zone, userId, plan, messageId, targets[..|targets| - 1]),
                zone, userId, plan, messageId, targets[|targets| - 1])
  }

  function SkippedRows(userId: string, messageId: string, targets: seq<Target>, reason: Reason): seq<Row> {
    seq(|targets|, i requires 0 <= i < |targets| =>
                     Row(userId, messageId, targets[i].destination, SKIPPED, Some(reason), None))
  }

  function ResultOf(row: Row): ForwardResult {
    ForwardResult(row.destination, row.status, row.reason)
  }

  function ResultsOf(rows: seq<Row>): seq<ForwardResult> {
    seq(|rows|, i requires 0 <= i < |rows| => ResultOf(rows[i]))
  }

  function CountStatus(results: seq<ForwardResult>, p: Status -> bool): nat {
    if results == [] then 0
    else CountStatus(results[..|results| - 1], p) + if p(results[|results| - 1].status) then 1 else 0
  }

  predicate IsSkip(status: Status) {
    status.SKIPPED? || status.SKIPPED_ALREADY_SENT?
  }

  function ToForwardResponse(results: seq<ForwardResult>): Response {
    Response(CountStatus(results, Delivered), CountStatus(results, (s: Status) => s.FAILED?),
             CountStatus(results, IsSkip), results)
  }

  /** The store after a call, and its response or the exception it throws. */
  datatype Outcome = Outcome(store: Store, result: Result<Response, ForwardError>)

  predicate ReachesLoop(store: Store, zone: Zone, r: Request) {
    && r.blankId.None? && r.messageId.Some? && r.plan.Some? && (r.auto ==> r.hasLinks) && r.targets != []
    && CanForwardMessage(store.rows, zone, r.userId, r.plan.value, r.startedAt)
    && r.rewrite.Passes? && r.session.Connected?
  }

  function Answered(before: Store, after: Store): Outcome
    requires |before.rows| <= |after.rows|
  {
    Outcome(after, Success(ToForwardResponse(ResultsOf(after.rows[|before.rows|..]))))
  }

  function Forward(store: Store, zone: Zone, r: Request): Outcome {
    if r.blankId.Some? then Outcome(store, Failure(ForwardError.Required(r.blankId.value)))
    else if r.messageId.None? then Outcome(store, Failure(MessageNotFound))
    else if r.plan.None? then Outcome(store, Failure(ForwardError.UserNotFound))
    else if (r.auto && !r.hasLinks) || r.targets == [] then Answered(store, store)
    else
      var skipped := (reason: Reason) =>
        store.(rows := store.rows + SkippedRows(r.userId, r.messageId.value, r.targets, reason));
      if !CanForwardMessage(store.rows, zone, r.userId, r.plan.value, r.startedAt)
      then Answered(store, skipped(DAILY_MESSAGE_LIMIT_REACHED))
      else if r.rewrite.Throws? then Outcome(store, Failure(RewriteFailed))
      else if r.rewrite.Refuses? then Answered(store, skipped(r.rewrite.reason))
      else match r.session
        case Missing => Outcome(store, Failure(SessionNotFound))
        case Disconnected => Outcome(skipped(SESSION_DISCONNECTED), Failure(NotConnected))
        case Reconnecting => Outcome(store, Failure(SocketUnavailable))
        case Connected =>
          LoopAppends(store, zone, r.userId, r.plan.value, r.messageId.value, r.targets);
          Answered(store, Looped(store, zone, r.userId, r.plan.value, r.messageId.value, r.targets))
  }

  /** `rows` is `base` followed by one row of the message per route, in route order. */
  ghost predicate OneRowPerRoute(
    base: seq<Row>, rows: seq<Row>, userId: string, messageId: string, targets: seq<Target>)
  {
    && |rows| == |base| + |targets|
    && rows[..|base|] == base
    && forall i | 0 <= i < |targets| ::
         && rows[|base| + i].destination == targets[i].destination
         && rows[|base| + i].userId == userId && rows[|base| + i].messageId == messageId
  }

  lemma OneMoreRow(base: seq<Row>, rows: seq<Row>, row: Row, userId: string, messageId: string, targets: seq<Target>)
    requires targets != [] && OneRowPerRoute(base, rows, userId, messageId, targets[..|targets| - 1])
    requires row.destination == targets[|targets| - 1].destination && row.userId == userId && row.messageId == messageId
    ensures OneRowPerRoute(base, rows + [row], userId, messageId, targets)
  {
    var init := targets[..|targets| - 1];
    forall i | 0 <= i < |targets|
      ensures var r := (rows + [row])[|base| + i];
              r.destination == targets[i].destination && r.userId == userId && r.messageId == messageId
    {
      if i < |init| { assert init[i] == targets[i]; }
    }
  }

  /** The loop appends one row per route, in route order, and touches no other row. */
  lemma {:induction false} LoopAppends(
    store: Store, zone: Zone, userId: string, plan: Plan, messageId: string, targets: seq<Target>)
    ensures var after := Looped(store, zone, userId, plan, messageId, targets);
            OneRowPerRoute(store.rows, after.rows, userId, messageId, targets)
    decreases |targets|
  {
    if targets != [] {
      var init := targets[..|targets| - 1];
      LoopAppends(store, zone, userId, plan, messageId, init);
      var middle := Looped(store, zone, userId, plan, messageId, init);
      var row := RowFor(middle, zone, userId, plan, messageId, targets[|targets| - 1]);
      OneMoreRow(store.rows, middle.rows, row, userId, messageId, targets);
    }
  }

  lemma ResultsGrow(rows: seq<Row>, from: nat, row: Row)
    requires from <= |rows|
    ensures ResultsOf((rows + [row])[from..]) == ResultsOf(rows[from..]) + [ResultOf(row)]
  {
    assert (rows + [row])[from..] == rows[from..] + [row];
  }

  class MessageForwardingService {
    var rows: seq<Row>
    var sends: seq<Send>
    const zone: Zone

    function View(): Store
      reads this
    {
      Store(rows, sends)
    }

    constructor (zone: Zone)
      ensures View() == Store([], []) && this.zone == zone
    {
      rows, sends := [], [];
      this.zone := zone;
    }

    method PersistSkippedForRoutes(userId: string, messageId: string, targets: seq<Target>, reason: Reason)
      returns (response: Response)
      modifies this`rows
      ensures rows == old(rows) + SkippedRows(userId, messageId, targets, reason)
      ensures response == ToForwardResponse(ResultsOf(SkippedRows(userId, messageId, targets, reason)))
    {
      var results := [];
      ghost var expected := SkippedRows(userId, messageId, targets, reason);
      for i := 0 to |targets|
        invariant rows == old(rows) + expected[..i]
        invariant results == ResultsOf(expected)[..i]
      {
        rows := rows + [Row(userId, messageId, targets[i].destination, SKIPPED, Some(reason), None)];
        results := results + [ForwardResult(targets[i].destination, SKIPPED, Some(reason))];
      }
      assert expected[..|targets|] == expected && results == ResultsOf(expected);
      return ToForwardResponse(results);
    }

    method ForwardToRoutes(userId: string, plan: Plan, messageId: string, targets: seq<Target>)
      returns (results: seq<ForwardResult>)
      modifies this
      ensures View() == Looped(old(View()), zone, userId, plan, messageId, targets)
      ensures |rows| >= |old(rows)| && results == ResultsOf(rows[|old(rows)|..])
    {
      results := [];
      for i := 0 to |targets|
        invariant View() == Looped(old(View()), zone, userId, plan, messageId, targets[..i])
        invariant |rows| >= |old(rows)| && results == ResultsOf(rows[|old(rows)|..])
      {
        assert targets[..i + 1][..i] == targets[..i];
        var t := targets[i];
        var row: Row;
        if !CanForwardMessage(rows, zone, userId, plan, t.checkedAt) {
          row := Row(userId, messageId, t.destination, SKIPPED, Some(DAILY_MESSAGE_LIMIT_REACHED), None);
        } else if AlreadySent(rows, messageId, t.destination) {
          row := Row(userId, messageId, t.destination, SKIPPED_ALREADY_SENT, Some(DUPLICATE_FORWARD), None);
        } else {
          sends := sends + [Send(messageId, t.destination)];
          match t.delivery {
            case Accepted(status, reason) =>
              row := Row(userId, messageId, t.destination, status, reason, Some(t.sentAt));
            case Rejected =>
              row := Row(userId, messageId, t.destination, FAILED, Some(SEND_FAILED), None);
          }
        }
        ResultsGrow(rows, |old(rows)|, row);
        rows := rows + [row];
        results := results + [ForwardResult(t.destination, row.status, row.reason)];
      }
      assert targets[..|targets|] == targets;
    }

    method ForwardMessageById(r: Request) returns (result: Result<Response, ForwardError>)
      modifies this
      ensures Outcome(View(), result) == Forward(old(View()), zone, r)
    {
      if r.blankId.Some? {
        return Failure(ForwardError.Required(r.blankId.value));
      }
      if r.messageId.None? {
        return Failure(MessageNotFound);
      }
      if r.plan.None? {
        return Failure(ForwardError.UserNotFound);
      }
      if r.auto && !r.hasLinks {
        return Success(ToForwardResponse([]));
      }
      if r.targets == [] {
        return Success(ToForwardResponse([]));
      }
      var response;
      if !CanForwardMessage(rows, zone, r.userId, r.plan.value, r.startedAt) {
        response := PersistSkippedForRoutes(r.userId, r.messageId.value, r.targets, DAILY_MESSAGE_LIMIT_REACHED);
        return Success(response);
      }
      if r.rewrite.Throws? {
        return Failure(RewriteFailed);
      }
      if r.rewrite.Refuses? {
        response := PersistSkippedForRoutes(r.userId, r.messageId.value, r.targets, r.rewrite.reason);
        return Success(response);
      }
      if r.session.Missing? {
        return Failure(SessionNotFound);
      }
      if r.session.Disconnected? {
        response := PersistSkippedForRoutes(r.userId, r.messageId.value, r.targets, SESSION_DISCONNECTED);
        return Failure(NotConnected);
      }
      if r.session.Reconnecting? {
        return Failure(SocketUnavailable);
      }
      var results := ForwardToRoutes(r.userId, r.plan.value, r.messageId.value, r.targets);
      return Success(ToForwardResponse(results));
    }
  }

  // ---------------------------------------------------------------- conservation

  lemma {:induction false} EveryResultIsCountedOnce(results: seq<ForwardResult>)
    ensures var response := ToForwardResponse(results);
            response.sentCount + response.failedCount + response.skippedCount == |results|
    decreases |results|
  {
    if results != [] {
      EveryResultIsCountedOnce(results[..|results| - 1]);
    }
  }

  /** A provider only accepts with one of the three delivered statuses. */
  ghost predicate ValidTargets(targets: seq<Target>) {
    forall t <- targets :: t.delivery.Accepted? ==> Delivered(t.delivery.status)
  }

  lemma CountsGrow(results: seq<ForwardResult>, result: ForwardResult)
    ensures var before, after := ToForwardResponse(results), ToForwardResponse(results + [result]);
            && after.sentCount == before.sentCount + (if Delivered(result.status) then 1 else 0)
            && after.failedCount == before.failedCount + (if result.status.FAILED? then 1 else 0)
            && after.skippedCount == before.skippedCount + (if IsSkip(result.status) then 1 else 0)
  {
    assert (results + [result])[..|results|] == results;
  }

  /** Every send is reported as sent or failed, and no other route is. */
  lemma {:induction false} SendsAreReported(
    store: Store, zone: Zone, userId: string, plan: Plan, messageId: string, targets: seq<Target>)
    requires ValidTargets(targets)
    ensures var after := Looped(store, zone, userId, plan, messageId, targets);
            && |store.rows| <= |after.rows|
            && var response := ToForwardResponse(ResultsOf(after.rows[|store.rows|..]));
               |after.sends| == |store.sends| + response.sentCount + response.failedCount
    decreases |targets|
  {
    if targets == [] {
      assert store.rows[|store.rows|..] == [];
    } else {
      var init := targets[..|targets| - 1];
      SendsAreReported(store, zone, userId, plan, messageId, init);
      var middle := Looped(store, zone, userId, plan, messageId, init);
      var t := targets[|targets| - 1];
      assert t in targets;
      var row := RowFor(middle, zone, userId, plan, messageId, t);
      ResultsGrow(middle.rows, |store.rows|, row);
      CountsGrow(ResultsOf(middle.rows[|store.rows|..]), ResultOf(row));
    }
  }

  /** A call that reaches the loop leaves exactly one row and one result per route, in route order, with the
      same status; its three counts add up to the number of routes, and sent plus failed is the number of sends. */
  lemma EveryRouteIsAccountedFor(store: Store, zone: Zone, r: Request)
    requires ReachesLoop(store, zone, r) && ValidTargets(r.targets)
    ensures var outcome := Forward(store, zone, r);
            && outcome.result.Success?
            && var response, rows := outcome.result.value, outcome.store.rows;
            && response.sentCount + response.failedCount + response.skippedCount == |r.targets|
            && response.sentCount + response.failedCount == |outcome.store.sends| - |store.sends|
            && OneRowPerRoute(store.rows, rows, r.userId, r.messageId.value, r.targets)
            && response.results == ResultsOf(rows[|store.rows|..])
  {
    LoopAppends(store, zone, r.userId, r.plan.value, r.messageId.value, r.targets);
    SendsAreReported(store, zone, r.userId, r.plan.value, r.messageId.value, r.targets);
    EveryResultIsCountedOnce(Forward(store, zone, r).result.value.results);
  }

  // ---------------------------------------------------------------- nothing is sent again

  function SendsTo(sends: seq<Send>, messageId: string, destination: string): nat {
    multiset(sends)[Send(messageId, destination)]
  }

  lemma {:induction false} LoopSendsNothingAgain(
    store: Store, zone: Zone, userId: string, plan: Plan, message: string, targets: seq<Target>,
    messageId: string, destination: string)
    requires AlreadySent(store.rows, messageId, destination)
    ensures var after := Looped(store, zone, userId, plan, message, targets);
            && AlreadySent(after.rows, messageId, destination)
            && SendsTo(after.sends, messageId, destination) == SendsTo(store.sends, messageId, destination)
    decreases |targets|
  {
    if targets != [] {
      LoopSendsNothingAgain(store, zone, userId, plan, message, targets[..|targets| - 1], messageId, destination);
      var middle := Looped(store, zone, userId, plan, message, targets[..|targets| - 1]);
      var row :| row in middle.rows && row.messageId == messageId && row.destination == destination && row.status.SENT?;
      assert row in Looped(store, zone, userId, plan, message, targets).rows;
    }
  }

  function Run(store: Store, zone: Zone, requests: seq<Request>): Store {
    if requests == [] then store
    else Forward(Run(store, zone, requests[..|requests| - 1]), zone, requests[|requests| - 1]).store
  }

  /** Once a destination has a SENT row for a message, no later call, of any user and over any number of
      calls, sends that message there. */
  lemma {:induction false} SentMessagesAreNeverSentAgain(
    store: Store, zone: Zone, requests: seq<Request>, messageId: string, destination: string)
    requires AlreadySent(store.rows, messageId, destination)
    ensures var after := Run(store, zone, requests);
            && AlreadySent(after.rows, messageId, destination)
            && SendsTo(after.sends, messageId, destination) == SendsTo(store.sends, messageId, destination)
    decreases |requests|
  {
    if requests != [] {
      var r := requests[|requests| - 1];
      SentMessagesAreNeverSentAgain(store, zone, requests[..|requests| - 1], messageId, destination);
      var middle := Run(store, zone, requests[..|requests| - 1]);
      if ReachesLoop(middle, zone, r) {
        LoopSendsNothingAgain(middle, zone, r.userId, r.plan.value, r.messageId.value, r.targets,
                              messageId, destination);
      } else {
        var row :|
          row in middle.rows && row.messageId == messageId && row.destination == destination && row.status.SENT?;
        assert row in Run(store, zone, requests).rows;
      }
    }
  }

  // ---------------------------------------------------------------- the daily quota

  /** Times never go back: each check comes after `clock`, each row after its check. */
  ghost predicate TimesFrom(clock: int, targets: seq<Target>)
    decreases |targets|
  {
    targets != [] ==>
      && clock <= targets[0].checkedAt <= targets[0].sentAt
      && TimesFrom(targets[0].sentAt, targets[1..])
  }

  function LastTime(clock: int, targets: seq<Target>): int {
    if targets == [] then clock else targets[|targets| - 1].sentAt
  }

  lemma {:induction false} TimesPrefix(clock: int, targets: seq<Target>)
    requires TimesFrom(clock, targets) && targets != []
    ensures var init, last := targets[..|targets| - 1], targets[|targets| - 1];
            TimesFrom(clock, init) && LastTime(clock, init) <= last.checkedAt <= last.sentAt
    ensures clock <= LastTime(clock, targets)
    decreases |targets|
  {
    if |targets| > 1 {
      TimesPrefix(targets[0].sentAt, targets[1..]);
      assert targets[1..][..|targets| - 2] == targets[..|targets| - 1][1..];
    } else {
      assert targets[..0] == [];
    }
  }

  ghost predicate RowsUpTo(rows: seq<Row>, clock: int) {
    forall row <- rows :: row.sentAt.Some? ==> row.sentAt.value <= clock
  }

  ghost predicate WithinQuota(rows: seq<Row>, zone: Zone, userId: string, limit: nat) {
    forall now :: CountForwardsToday(rows, zone, userId, now) <= limit
  }

  lemma {:induction false} FutureDaysAreEmpty(rows: seq<Row>, userId: string, day: Bounds, clock: int)
    requires RowsUpTo(rows, clock) && clock < day.start
    ensures CountIn(rows, userId, day) == 0
    decreases |rows|
  {
    if rows != [] {
      FutureDaysAreEmpty(rows[..|rows| - 1], userId, day, clock);
    }
  }

  lemma {:induction false} SkipsAreNotCounted(rows: seq<Row>, more: seq<Row>, userId: string, day: Bounds)
    requires forall row <- more :: row.sentAt.None?
    ensures CountIn(rows + more, userId, day) == CountIn(rows, userId, day)
    decreases |more|
  {
    if more == [] {
      assert rows + more == rows;
    } else {
      assert (rows + more)[..|rows + more| - 1] == rows + more[..|more| - 1];
      SkipsAreNotCounted(rows, more[..|more| - 1], userId, day);
    }
  }

  /** What was sent up to `now` counts at least as much in a day that begins no later and reaches beyond `now`. */
  lemma {:induction false} EarlierDaysCountMore(rows: seq<Row>, userId: string, day: Bounds, wider: Bounds, now: int)
    requires RowsUpTo(rows, now) && wider.start <= day.start && now < wider.end
    ensures CountIn(rows, userId, day) <= CountIn(rows, userId, wider)
    decreases |rows|
  {
    if rows != [] {
      var row := rows[|rows| - 1];
      assert row in rows;
      EarlierDaysCountMore(rows[..|rows| - 1], userId, day, wider, now);
    }
  }

  /** One route: the day of the row may be later than the day of the check. */
  lemma RouteKeepsQuota(
    store: Store, zone: Zone, userId: string, sender: string, plan: Plan, messageId: string, t: Target,
    clock: int, limit: nat)
    requires DaysReachBack(zone) && RowsUpTo(store.rows, clock) && clock <= t.checkedAt <= t.sentAt
    requires WithinQuota(store.rows, zone, userId, limit) && limit > 0
    requires sender == userId ==> LimitsOf(plan).dailyForwardLimit == Some(limit)
    ensures var rows := Forwarded(store, zone, sender, plan, messageId, t).rows;
            RowsUpTo(rows, t.sentAt) && WithinQuota(rows, zone, userId, limit)
  {
    var row := RowFor(store, zone, sender, plan, messageId, t);
    var rows := Forwarded(store, zone, sender, plan, messageId, t).rows;
    assert rows[..|rows| - 1] == store.rows;
    forall now ensures CountForwardsToday(rows, zone, userId, now) <= limit {
      var day := DayBounds(zone, now);
      assert CountForwardsToday(store.rows, zone, userId, now) <= limit;
      if Counted(row, userId, day) {
        if t.checkedAt < day.start {
          FutureDaysAreEmpty(store.rows, userId, day, clock);
        } else {
          assert In(t.checkedAt, day);
          EarlierDaysCountMore(store.rows, userId, day, DayBounds(zone, t.checkedAt), t.checkedAt);
        }
      }
    }
  }

  lemma {:induction false} LoopKeepsQuota(
    store: Store, zone: Zone, userId: string, sender: string, plan: Plan, messageId: string,
    targets: seq<Target>, clock: int, limit: nat)
    requires DaysReachBack(zone) && RowsUpTo(store.rows, clock) && TimesFrom(clock, targets)
    requires WithinQuota(store.rows, zone, userId, limit) && limit > 0
    requires sender == userId ==> LimitsOf(plan).dailyForwardLimit == Some(limit)
    ensures var rows := Looped(store, zone, sender, plan, messageId, targets).rows;
            RowsUpTo(rows, LastTime(clock, targets)) && WithinQuota(rows, zone, userId, limit)
    decreases |targets|
  {
    if targets != [] {
      var init := targets[..|targets| - 1];
      TimesPrefix(clock, targets);
      LoopKeepsQuota(store, zone, userId, sender, plan, messageId, init, clock, limit);
      RouteKeepsQuota(Looped(store, zone, sender, plan, messageId, init), zone, userId, sender, plan, messageId,
                      targets[|targets| - 1], LastTime(clock, init), limit);
    }
  }

  /** Calls follow one another in time, and every call of `userId` is under a plan with that daily limit. */
  ghost predicate Sequential(requests: seq<Request>, userId: string, limit: nat) {
    && (forall r <- requests :: TimesFrom(r.startedAt, r.targets))
    && (forall r <- requests | r.userId == userId && r.plan.Some? ::
          LimitsOf(r.plan.value).dailyForwardLimit == Some(limit))
    && (forall i | 0 < i < |requests| ::
          LastTime(requests[i - 1].startedAt, requests[i - 1].targets) <= requests[i].startedAt)
  }

  function EndOf(requests: seq<Request>, start: int): int {
    if requests == [] then start
    else LastTime(requests[|requests| - 1].startedAt, requests[|requests| - 1].targets)
  }

  lemma CallKeepsQuota(store: Store, zone: Zone, userId: string, r: Request, limit: nat)
    requires DaysReachBack(zone) && RowsUpTo(store.rows, r.startedAt) && TimesFrom(r.startedAt, r.targets)
    requires WithinQuota(store.rows, zone, userId, limit) && limit > 0
    requires r.userId == userId && r.plan.Some? ==> LimitsOf(r.plan.value).dailyForwardLimit == Some(limit)
    ensures var rows := Forward(store, zone, r).store.rows;
            RowsUpTo(rows, LastTime(r.startedAt, r.targets)) && WithinQuota(rows, zone, userId, limit)
  {
    var rows := Forward(store, zone, r).store.rows;
    if r.targets != [] { TimesPrefix(r.startedAt, r.targets); }
    if ReachesLoop(store, zone, r) {
      LoopKeepsQuota(store, zone, userId, r.userId, r.plan.value, r.messageId.value, r.targets, r.startedAt, limit);
    } else {
      var more := rows[|store.rows|..];
      assert rows == store.rows + more;
      assert forall row <- more :: row.sentAt.None?;
      forall now ensures CountForwardsToday(rows, zone, userId, now) <= limit {
        assert CountForwardsToday(store.rows, zone, userId, now) <= limit;
        SkipsAreNotCounted(store.rows, more, userId, DayBounds(zone, now));
      }
    }
  }

  /** From an empty store, no day of a user ever counts more forwards than the plan allows, whatever the
      other users do and even when a send finishes after midnight. */
  lemma {:induction false} DailyQuotaIsNeverExceeded(zone: Zone, requests: seq<Request>, userId: string, limit: nat)
    requires DaysReachBack(zone) && Sequential(requests, userId, limit) && limit > 0
    ensures WithinQuota(Run(Store([], []), zone, requests).rows, zone, userId, limit)
    ensures requests != [] ==> RowsUpTo(Run(Store([], []), zone, requests).rows, EndOf(requests, 0))
    decreases |requests|
  {
    if requests != [] {
      var init, r := requests[..|requests| - 1], requests[|requests| - 1];
      DailyQuotaIsNeverExceeded(zone, init, userId, limit);
      CallKeepsQuota(Run(Store([], []), zone, init), zone, userId, r, limit);
    }
  }

  // ---------------------------------------------------------------- zones in which the quota fails

  function Name(n: nat): string {
    seq(n, _ => 'x')
  }

  /** `n` routes to different groups, checked and sent at `time`. */
  function Burst(time: int, n: nat): seq<Target> {
    seq(n, i requires 0 <= i < n => Target(Name(i), time, Accepted(SENT, None), time))
  }

  function BurstRows(time: int, n: nat): seq<Row> {
    seq(n, i requires 0 <= i < n => Row("u", "m", Name(i), SENT, None, Some(time)))
  }

  lemma {:induction false} CountBurst(time: int, n: nat, day: Bounds)
    ensures CountIn(BurstRows(time, n), "u", day) == if In(time, day) then n else 0
  {
    if n > 0 {
      assert BurstRows(time, n)[..n - 1] == BurstRows(time, n - 1);
      CountBurst(time, n - 1, day);
    }
  }

  lemma BurstIsNew(time: int, n: nat)
    ensures !AlreadySent(BurstRows(time, n), "m", Name(n))
  {
    forall row | row in BurstRows(time, n) ensures row.destination != Name(n) {
      var i :| 0 <= i < n && BurstRows(time, n)[i] == row;
      assert |Name(i)| == i;
    }
  }

  function Last(n: nat, time: int): Target {
    Target(Name(n), time, Accepted(SENT, None), time)
  }

  /** The next message is sent while the day of its time has room. */
  lemma OneMoreIsSent(store: Store, zone: Zone, first: int, n: nat, time: int)
    requires store.rows == BurstRows(first, n) && (n < 100 || !In(first, DayBounds(zone, time)))
    ensures Forwarded(store, zone, "u", FREE, "m", Last(n, time)).rows
         == BurstRows(first, n) + [Row("u", "m", Name(n), SENT, None, Some(time))]
  {
    CountBurst(first, n, DayBounds(zone, time));
    BurstIsNew(first, n);
  }

  lemma LoopOneMore(
    store: Store, zone: Zone, userId: string, plan: Plan, messageId: string, targets: seq<Target>, t: Target)
    ensures Looped(store, zone, userId, plan, messageId, targets + [t])
         == Forwarded(Looped(store, zone, userId, plan, messageId, targets), zone, userId, plan, messageId, t)
  {
    assert (targets + [t])[..|targets|] == targets;
  }

  lemma BurstGrows(time: int, n: nat)
    ensures Burst(time, n + 1) == Burst(time, n) + [Last(n, time)]
    ensures BurstRows(time, n + 1) == BurstRows(time, n) + [Row("u", "m", Name(n), SENT, None, Some(time))]
  {
  }

  lemma {:induction false} BurstIsSent(zone: Zone, time: int, n: nat)
    requires n <= 100
    ensures Looped(Store([], []), zone, "u", FREE, "m", Burst(time, n)).rows == BurstRows(time, n)
  {
    if n == 0 {
      assert Burst(time, 0) == [];
    } else {
      var fewer := Burst(time, n - 1);
      var middle := Looped(Store([], []), zone, "u", FREE, "m", fewer);
      BurstIsSent(zone, time, n - 1);
      BurstGrows(time, n - 1);
      LoopOneMore(Store([], []), zone, "u", FREE, "m", fewer, Last(n - 1, time));
      OneMoreIsSent(middle, zone, time, n - 1, time);
    }
  }

  lemma {:induction false} BurstInOrder(time: int, n: nat, skip: nat, last: Target)
    requires skip <= n && time <= last.checkedAt <= last.sentAt
    ensures TimesFrom(time, (Burst(time, n) + [last])[skip..])
    decreases n - skip
  {
    var all := Burst(time, n) + [last];
    if skip < n {
      BurstInOrder(time, n, skip + 1, last);
      assert all[skip..][1..] == all[skip + 1..] && all[skip..][0] == Burst(time, n)[skip];
    } else {
      assert all[skip..] == [last] && [last][1..] == [];
    }
  }

  function OneTooManyRequest(first: int, later: int): Request {
    Request(None, "u", Some(FREE), Some("m"), false, false, first, Passes, Connected,
            Burst(first, 100) + [Last(100, later)])
  }

  lemma OneCall(zone: Zone, first: int, later: int)
    ensures Run(Store([], []), zone, [OneTooManyRequest(first, later)])
         == Looped(Store([], []), zone, "u", FREE, "m", Burst(first, 100) + [Last(100, later)])
  {
    var r := OneTooManyRequest(first, later);
    assert [r][..0] == [];
    assert ReachesLoop(Store([], []), zone, r);
  }

  lemma OneCallIsSequential(first: int, later: int)
    requires first <= later
    ensures Sequential([OneTooManyRequest(first, later)], "u", 100)
  {
    var r := OneTooManyRequest(first, later);
    BurstInOrder(first, 100, 0, Last(100, later));
    assert r.targets[0..] == r.targets;
  }

  /** A hundred messages at `first`, and one more at `later`, whose day does not look back to `first`. */
  lemma OneTooMany(zone: Zone, first: int, later: int)
    requires !In(first, DayBounds(zone, later))
    ensures Run(Store([], []), zone, [OneTooManyRequest(first, later)]).rows
         == BurstRows(first, 100) + [Row("u", "m", Name(100), SENT, None, Some(later))]
  {
    OneCall(zone, first, later);
    var hundred := Looped(Store([], []), zone, "u", FREE, "m", Burst(first, 100));
    BurstIsSent(zone, first, 100);
    LoopOneMore(Store([], []), zone, "u", FREE, "m", Burst(first, 100), Last(100, later));
    OneMoreIsSent(hundred, zone, first, 100, later);
  }

  lemma QuotaFails(zone: Zone, now: int, c: int)
    requires In(c, DayBounds(zone, now))
    requires !(In(c, DayBounds(zone, c)) && DayBounds(zone, c).start <= DayBounds(zone, now).start)
    ensures exists requests ::
              Sequential(requests, "u", 100) && !WithinQuota(Run(Store([], []), zone, requests).rows, zone, "u", 100)
  {
    var day := DayBounds(zone, now);
    var first := if In(c, DayBounds(zone, c)) then day.start else c;
    OneTooMany(zone, first, c);
    OneCallIsSequential(first, c);
    var rows := Run(Store([], []), zone, [OneTooManyRequest(first, c)]).rows;
    CountBurst(first, 100, day);
    assert rows[..100] == BurstRows(first, 100);
    assert CountForwardsToday(rows, zone, "u", now) == 101;
  }

  /** The hundred forwards a day of a FREE user hold over every run of every user's calls if and only if the days
      of the zone reach back. */
  lemma FreeUsersStayUnderOneHundredIff(zone: Zone)
    ensures DaysReachBack(zone)
       <==> forall requests, userId :: Sequential(requests, userId, 100) ==>
              WithinQuota(Run(Store([], []), zone, requests).rows, zone, userId, 100)
  {
    if DaysReachBack(zone) {
      forall requests, userId | Sequential(requests, userId, 100)
        ensures WithinQuota(Run(Store([], []), zone, requests).rows, zone, userId, 100)
      {
        DailyQuotaIsNeverExceeded(zone, requests, userId, 100);
      }
    } else {
      var now, c :| In(c, DayBounds(zone, now))
        && !(In(c, DayBounds(zone, c)) && DayBounds(zone, c).start <= DayBounds(zone, now).start);
      QuotaFails(zone, now, c);
    }
  }
}
