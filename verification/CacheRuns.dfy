/** Interleaved runs of lookups, loads and route mutations against the routed-groups cache
    (routed-groups-cache.service.ts, message-routes.service.ts). The route table is a history of
    committed versions; a mutation commits in one step and invalidates in a later one. */
module CacheRuns {
  import opened Wrappers
  import opened RoutedGroupsCache

  datatype RouteRow = RouteRow(sessionId: string, source: string, active: bool)

  type RouteTable = map<nat, RouteRow>

  function ActiveSources(table: RouteTable, sessionId: string): set<string> {
    set id | id in table && table[id].active && table[id].sessionId == sessionId :: table[id].source
  }

  datatype Phase = Querying | Read(snapshot: Snapshot) | Done(outcome: Option<Snapshot>)

  /** `issuedAt` is the table version when the query was sent. */
  datatype Load = Load(sessionId: string, generation: nat, issuedAt: nat, phase: Phase)

  datatype LookupState = Waiting(load: LoadId) | Answered(snapshot: Snapshot) | Failed

  /** `since` is the table version at the latest invalidation of the session before the lookup began. */
  datatype Lookup = Lookup(sessionId: string, since: nat, status: LookupState)

  datatype Mutation =
    | Updating(route: nat, previousSession: string)
    | Committed(previous: string, updated: string)

  datatype System = System(
    history: seq<RouteTable>,
    cache: Cache,
    loads: seq<Load>,
    lookups: seq<Lookup>,
    mutations: map<nat, Mutation>,
    invalidatedAt: map<string, nat>)

  function Current(s: System): RouteTable
    requires s.history != []
  {
    s.history[|s.history| - 1]
  }

  function LastInvalidation(s: System, sessionId: string): nat {
    if sessionId in s.invalidatedAt then s.invalidatedAt[sessionId] else 0
  }

  datatype Step =
    | BeginLookup(sessionId: string, now: int)
    | ReadTable(load: LoadId)
    | ReturnLoad(load: LoadId, now: int)
    | FailLoad(load: LoadId)
    | ForgetLoad(load: LoadId)
    | Resume(lookup: nat)
    | BeginUpdate(mutation: nat, route: nat)
    | CommitUpdate(mutation: nat, row: RouteRow)
    | CommitActive(mutation: nat, route: nat, active: bool)
    | CommitInsert(mutation: nat, route: nat, row: RouteRow)
    | Invalidate(mutation: nat)

  ghost predicate Enabled(s: System, step: Step) {
    && s.history != []
    && match step
       case BeginLookup(_, _) => true
       case ReadTable(l) => l < |s.loads| && s.loads[l].phase.Querying?
       case ReturnLoad(l, _) => l < |s.loads| && s.loads[l].phase.Read?
       case FailLoad(l) => l < |s.loads| && !s.loads[l].phase.Done?
       case ForgetLoad(l) => l < |s.loads| && s.loads[l].phase.Done?
       case Resume(q) =>
         && q < |s.lookups| && s.lookups[q].status.Waiting?
         && s.lookups[q].status.load < |s.loads| && s.loads[s.lookups[q].status.load].phase.Done?
       case BeginUpdate(m, r) => m !in s.mutations && r in Current(s)
       case CommitUpdate(m, _) => m in s.mutations && s.mutations[m].Updating?
       case CommitActive(m, r, _) => m !in s.mutations && r in Current(s)
       case CommitInsert(m, r, _) => m !in s.mutations && r !in Current(s)
       case Invalidate(m) => m in s.mutations && s.mutations[m].Committed?
  }

  function LookupBegun(s: System, sessionId: string, now: int): System
    requires s.history != []
  {
    var since := LastInvalidation(s, sessionId);
    match LookedUp(s.cache, sessionId, now)
    case Hit(snapshot) => s.(lookups := s.lookups + [Lookup(sessionId, since, Answered(snapshot))])
    case Join(load) => s.(lookups := s.lookups + [Lookup(sessionId, since, Waiting(load))])
    case Miss(generation) =>
      s.(cache := LoadStarted(s.cache, sessionId, |s.loads|),
         loads := s.loads + [Load(sessionId, generation, |s.history| - 1, Querying)],
         lookups := s.lookups + [Lookup(sessionId, since, Waiting(|s.loads|))])
  }

  function TableRead(s: System, l: LoadId): System
    requires s.history != [] && l < |s.loads|
  {
    var snapshot := Snapshot(ActiveSources(Current(s), s.loads[l].sessionId), |s.history| - 1);
    s.(loads := s.loads[l := s.loads[l].(phase := Read(snapshot))])
  }

  function Returned(s: System, l: LoadId, now: int): System
    requires l < |s.loads| && s.loads[l].phase.Read?
  {
    var load := s.loads[l];
    s.(cache := LoadReturned(s.cache, load.sessionId, load.generation, load.phase.snapshot, now),
       loads := s.loads[l := load.(phase := Done(Some(load.phase.snapshot)))])
  }

  function Resumed(s: System, q: nat): System
    requires q < |s.lookups| && s.lookups[q].status.Waiting?
    requires s.lookups[q].status.load < |s.loads| && s.loads[s.lookups[q].status.load].phase.Done?
  {
    var outcome := s.loads[s.lookups[q].status.load].phase.outcome;
    s.(lookups := s.lookups[q := s.lookups[q].(status := if outcome.Some? then Answered(outcome.value) else Failed)])
  }

  /** A commit of `row` for route `id`, after which `previous` and the session of the row are to be invalidated. */
  function RowCommitted(s: System, m: nat, id: nat, row: RouteRow, previous: string): System
    requires s.history != []
  {
    s.(history := s.history + [Current(s)[id := row]],
       mutations := s.mutations[m := Committed(previous, row.sessionId)])
  }

  function SessionInvalidated(s: System, sessionId: string): System
    requires s.history != []
  {
    s.(cache := Invalidated(s.cache, sessionId), invalidatedAt := s.invalidatedAt[sessionId := |s.history| - 1])
  }

  function BothInvalidated(s: System, previous: string, updated: string): System
    requires s.history != []
  {
    var first := SessionInvalidated(s, previous);
    if updated != previous then SessionInvalidated(first, updated) else first
  }

  ghost function Next(s: System, step: Step): System
    requires Enabled(s, step)
  {
    match step
    case BeginLookup(sessionId, now) => LookupBegun(s, sessionId, now)
    case ReadTable(l) => TableRead(s, l)
    case ReturnLoad(l, now) => Returned(s, l, now)
    case FailLoad(l) => s.(loads := s.loads[l := s.loads[l].(phase := Done(None))])
    case ForgetLoad(l) => s.(cache := LoadForgotten(s.cache, s.loads[l].sessionId, l))
    case Resume(q) => Resumed(s, q)
    case BeginUpdate(m, r) => s.(mutations := s.mutations[m := Updating(r, Current(s)[r].sessionId)])
    case CommitUpdate(m, row) => RowCommitted(s, m, s.mutations[m].route, row, s.mutations[m].previousSession)
    case CommitActive(m, r, active) =>
      RowCommitted(s, m, r, Current(s)[r].(active := active), Current(s)[r].sessionId)
    case CommitInsert(m, r, row) => RowCommitted(s, m, r, row, row.sessionId)
    case Invalidate(m) =>
      BothInvalidated(s, s.mutations[m].previous, s.mutations[m].updated).(mutations := s.mutations - {m})
  }

  ghost predicate IsRun(states: seq<System>, steps: seq<Step>) {
    && |states| == |steps| + 1
    && (exists table :: states[0] == System([table], Cache(map[], map[], map[]), [], [], map[], map[]))
    && forall i :: 0 <= i < |steps| ==> Enabled(states[i], steps[i]) && states[i + 1] == Next(states[i], steps[i])
  }

  // ---------------------------------------------------------------- freshness

  ghost predicate SnapshotOf(s: System, sessionId: string, snapshot: Snapshot) {
    snapshot.version < |s.history| && snapshot.groups == ActiveSources(s.history[snapshot.version], sessionId)
  }

  ghost predicate LoadIsFresh(s: System, l: LoadId)
    requires l < |s.loads|
  {
    var load := s.loads[l];
    && load.generation <= Generation(s.cache, load.sessionId)
    && (load.generation == Generation(s.cache, load.sessionId) ==> LastInvalidation(s, load.sessionId) <= load.issuedAt)
    && load.issuedAt < |s.history|
    && (load.phase.Read? ==>
          SnapshotOf(s, load.sessionId, load.phase.snapshot) && load.issuedAt <= load.phase.snapshot.version)
    && (load.phase.Done? && load.phase.outcome.Some? ==>
          SnapshotOf(s, load.sessionId, load.phase.outcome.value) && load.issuedAt <= load.phase.outcome.value.version)
  }

  ghost predicate LookupIsFresh(s: System, q: nat)
    requires q < |s.lookups|
  {
    var lookup := s.lookups[q];
    match lookup.status
    case Waiting(l) => l < |s.loads| && s.loads[l].sessionId == lookup.sessionId && lookup.since <= s.loads[l].issuedAt
    case Answered(snapshot) => SnapshotOf(s, lookup.sessionId, snapshot) && lookup.since <= snapshot.version
    case Failed => true
  }

  ghost predicate EntryIsFresh(s: System, sessionId: string)
    requires sessionId in s.cache.entries
  {
    var snapshot := s.cache.entries[sessionId].snapshot;
    SnapshotOf(s, sessionId, snapshot) && LastInvalidation(s, sessionId) <= snapshot.version
  }

  ghost predicate PendingIsKnown(s: System, sessionId: string)
    requires sessionId in s.cache.pendingLoads
  {
    var pending := s.cache.pendingLoads[sessionId];
    && pending.load < |s.loads|
    && s.loads[pending.load].sessionId == sessionId
    && s.loads[pending.load].generation == pending.generation
  }

  ghost predicate Fresh(s: System) {
    && s.history != []
    && (forall sessionId <- s.invalidatedAt :: s.invalidatedAt[sessionId] < |s.history|)
    && (forall l | 0 <= l < |s.loads| :: LoadIsFresh(s, l))
    && (forall sessionId <- s.cache.entries :: EntryIsFresh(s, sessionId))
    && (forall sessionId <- s.cache.pendingLoads :: PendingIsKnown(s, sessionId))
    && (forall q | 0 <= q < |s.lookups| :: LookupIsFresh(s, q))
  }

  lemma HitOrJoinKeepsFresh(s: System, sessionId: string, now: int)
    requires Fresh(s) && !LookedUp(s.cache, sessionId, now).Miss?
    ensures Fresh(LookupBegun(s, sessionId, now))
  {
    var t := LookupBegun(s, sessionId, now);
    forall l | 0 <= l < |t.loads| ensures LoadIsFresh(t, l) { assert LoadIsFresh(s, l); }
    forall q | 0 <= q < |t.lookups| ensures LookupIsFresh(t, q) {
      if q < |s.lookups| {
        assert LookupIsFresh(s, q);
      } else if LookedUp(s.cache, sessionId, now).Hit? {
        assert EntryIsFresh(s, sessionId);
      } else {
        assert PendingIsKnown(s, sessionId);
        assert LoadIsFresh(s, t.lookups[q].status.load);
      }
    }
    forall x | x in t.cache.entries ensures EntryIsFresh(t, x) { assert EntryIsFresh(s, x); }
    forall x | x in t.cache.pendingLoads ensures PendingIsKnown(t, x) { assert PendingIsKnown(s, x); }
  }

  lemma MissKeepsFresh(s: System, sessionId: string, now: int)
    requires Fresh(s) && LookedUp(s.cache, sessionId, now).Miss?
    ensures Fresh(LookupBegun(s, sessionId, now))
  {
    var t := LookupBegun(s, sessionId, now);
    forall l | 0 <= l < |t.loads| ensures LoadIsFresh(t, l) {
      if l < |s.loads| { assert LoadIsFresh(s, l); }
    }
    forall q | 0 <= q < |t.lookups| ensures LookupIsFresh(t, q) {
      if q < |s.lookups| { assert LookupIsFresh(s, q); }
    }
    forall x | x in t.cache.entries ensures EntryIsFresh(t, x) { assert EntryIsFresh(s, x); }
    forall x | x in t.cache.pendingLoads ensures PendingIsKnown(t, x) {
      if x != sessionId { assert PendingIsKnown(s, x); }
    }
  }

  lemma CommitKeepsFresh(s: System, m: nat, id: nat, row: RouteRow, previous: string)
    requires Fresh(s)
    ensures Fresh(RowCommitted(s, m, id, row, previous))
  {
    var t := RowCommitted(s, m, id, row, previous);
    forall l | 0 <= l < |t.loads| ensures LoadIsFresh(t, l) { assert LoadIsFresh(s, l); }
    forall q | 0 <= q < |t.lookups| ensures LookupIsFresh(t, q) { assert LookupIsFresh(s, q); }
    forall x | x in t.cache.entries ensures EntryIsFresh(t, x) { assert EntryIsFresh(s, x); }
    forall x | x in t.cache.pendingLoads ensures PendingIsKnown(t, x) { assert PendingIsKnown(s, x); }
  }

  lemma InvalidationKeepsFresh(s: System, sessionId: string)
    requires Fresh(s)
    ensures Fresh(SessionInvalidated(s, sessionId))
  {
    var t := SessionInvalidated(s, sessionId);
    forall l | 0 <= l < |t.loads| ensures LoadIsFresh(t, l) { assert LoadIsFresh(s, l); }
    forall q | 0 <= q < |t.lookups| ensures LookupIsFresh(t, q) { assert LookupIsFresh(s, q); }
    forall x | x in t.cache.entries ensures EntryIsFresh(t, x) { assert EntryIsFresh(s, x); }
    forall x | x in t.cache.pendingLoads ensures PendingIsKnown(t, x) { assert PendingIsKnown(s, x); }
  }

  lemma LoadStepKeepsFresh(s: System, step: Step)
    requires Fresh(s) && Enabled(s, step)
    requires step.ReadTable? || step.FailLoad? || step.ForgetLoad?
    ensures Fresh(Next(s, step))
  {
    var t := Next(s, step);
    forall l | 0 <= l < |t.loads| ensures LoadIsFresh(t, l) { assert LoadIsFresh(s, l); }
    forall q | 0 <= q < |t.lookups| ensures LookupIsFresh(t, q) { assert LookupIsFresh(s, q); }
    forall x | x in t.cache.entries ensures EntryIsFresh(t, x) { assert EntryIsFresh(s, x); }
    forall x | x in t.cache.pendingLoads ensures PendingIsKnown(t, x) { assert PendingIsKnown(s, x); }
  }

  lemma ReturnKeepsFresh(s: System, l: LoadId, now: int)
    requires Fresh(s) && l < |s.loads| && s.loads[l].phase.Read?
    ensures Fresh(Returned(s, l, now))
  {
    var t := Returned(s, l, now);
    assert LoadIsFresh(s, l);
    forall k | 0 <= k < |t.loads| ensures LoadIsFresh(t, k) { assert LoadIsFresh(s, k); }
    forall q | 0 <= q < |t.lookups| ensures LookupIsFresh(t, q) { assert LookupIsFresh(s, q); }
    forall x | x in t.cache.entries ensures EntryIsFresh(t, x) {
      if x in s.cache.entries { assert EntryIsFresh(s, x); }
    }
    forall x | x in t.cache.pendingLoads ensures PendingIsKnown(t, x) { assert PendingIsKnown(s, x); }
  }

  lemma ResumeKeepsFresh(s: System, q: nat)
    requires Fresh(s) && Enabled(s, Resume(q))
    ensures Fresh(Resumed(s, q))
  {
    var t := Resumed(s, q);
    forall l | 0 <= l < |t.loads| ensures LoadIsFresh(t, l) { assert LoadIsFresh(s, l); }
    forall k | 0 <= k < |t.lookups| ensures LookupIsFresh(t, k) {
      assert LookupIsFresh(s, k);
      if k == q { assert LoadIsFresh(s, s.lookups[q].status.load); }
    }
    forall x | x in t.cache.entries ensures EntryIsFresh(t, x) { assert EntryIsFresh(s, x); }
    forall x | x in t.cache.pendingLoads ensures PendingIsKnown(t, x) { assert PendingIsKnown(s, x); }
  }

  lemma StepKeepsFresh(s: System, step: Step)
    requires Fresh(s) && Enabled(s, step)
    ensures Fresh(Next(s, step))
  {
    match step
    case BeginLookup(sessionId, now) =>
      if LookedUp(s.cache, sessionId, now).Miss? { MissKeepsFresh(s, sessionId, now); }
      else { HitOrJoinKeepsFresh(s, sessionId, now); }
    case CommitUpdate(m, row) => CommitKeepsFresh(s, m, s.mutations[m].route, row, s.mutations[m].previousSession);
    case CommitActive(m, r, active) =>
      CommitKeepsFresh(s, m, r, Current(s)[r].(active := active), Current(s)[r].sessionId);
    case CommitInsert(m, r, row) => CommitKeepsFresh(s, m, r, row, row.sessionId);
    case Invalidate(m) =>
      var previous, updated := s.mutations[m].previous, s.mutations[m].updated;
      InvalidationKeepsFresh(s, previous);
      InvalidationKeepsFresh(SessionInvalidated(s, previous), updated);
      SameButMutations(BothInvalidated(s, previous, updated), s.mutations - {m});
    case BeginUpdate(m, r) => SameButMutations(s, Next(s, step).mutations);
    case ReturnLoad(l, now) => ReturnKeepsFresh(s, l, now);
    case Resume(q) => ResumeKeepsFresh(s, q);
    case _ => LoadStepKeepsFresh(s, step);
  }

  lemma SameButMutations(s: System, mutations: map<nat, Mutation>)
    requires Fresh(s)
    ensures Fresh(s.(mutations := mutations))
  {
    var t := s.(mutations := mutations);
    forall l | 0 <= l < |t.loads| ensures LoadIsFresh(t, l) { assert LoadIsFresh(s, l); }
    forall q | 0 <= q < |t.lookups| ensures LookupIsFresh(t, q) { assert LookupIsFresh(s, q); }
    forall x | x in t.cache.entries ensures EntryIsFresh(t, x) { assert EntryIsFresh(s, x); }
    forall x | x in t.cache.pendingLoads ensures PendingIsKnown(t, x) { assert PendingIsKnown(s, x); }
  }

  lemma {:induction false} RunsAreFresh(states: seq<System>, steps: seq<Step>, i: nat)
    requires IsRun(states, steps) && i < |states|
    ensures Fresh(states[i])
  {
    if i > 0 {
      RunsAreFresh(states, steps, i - 1);
      StepKeepsFresh(states[i - 1], steps[i - 1]);
    }
  }

  /** Under every interleaving, an answered lookup returned the active sources of some table version at
      least as new as the latest invalidation of its session that had returned when the lookup began. */
  lemma LookupsSeeInvalidations(states: seq<System>, steps: seq<Step>, i: nat, q: nat)
    requires IsRun(states, steps) && i < |states| && q < |states[i].lookups|
    requires states[i].lookups[q].status.Answered?
    ensures var lookup := states[i].lookups[q];
            exists v :: lookup.since <= v < |states[i].history|
                        && lookup.status.snapshot.groups == ActiveSources(states[i].history[v], lookup.sessionId)
  {
    RunsAreFresh(states, steps, i);
    assert LookupIsFresh(states[i], q);
  }

  /** The entry of a session is what a load of the session's current generation returned. */
  ghost predicate EntryIsCurrent(s: System, sessionId: string)
    requires sessionId in s.cache.entries
  {
    exists l | 0 <= l < |s.loads| ::
      && s.loads[l].sessionId == sessionId && s.loads[l].generation == Generation(s.cache, sessionId)
      && s.loads[l].phase == Done(Some(s.cache.entries[sessionId].snapshot))
  }

  lemma OthersKeepEntriesCurrent(s: System, t: System, sessionId: string)
    requires sessionId in t.cache.entries && sessionId in s.cache.entries && EntryIsCurrent(s, sessionId)
    requires t.cache.entries[sessionId] == s.cache.entries[sessionId]
    requires Generation(t.cache, sessionId) == Generation(s.cache, sessionId)
    requires |s.loads| <= |t.loads|
    requires forall l | 0 <= l < |s.loads| && s.loads[l].phase.Done? :: t.loads[l] == s.loads[l]
    ensures EntryIsCurrent(t, sessionId)
  {
    var l :| 0 <= l < |s.loads| && s.loads[l].sessionId == sessionId
             && s.loads[l].generation == Generation(s.cache, sessionId)
             && s.loads[l].phase == Done(Some(s.cache.entries[sessionId].snapshot));
    assert t.loads[l] == s.loads[l];
  }

  lemma ReturnKeepsEntriesCurrent(s: System, l: LoadId, now: int, sessionId: string)
    requires l < |s.loads| && s.loads[l].phase.Read? && sessionId in Returned(s, l, now).cache.entries
    requires sessionId in s.cache.entries ==> EntryIsCurrent(s, sessionId)
    ensures EntryIsCurrent(Returned(s, l, now), sessionId)
  {
    var t := Returned(s, l, now);
    if s.loads[l].sessionId == sessionId && s.loads[l].generation == Generation(s.cache, sessionId) {
      assert t.loads[l].phase == Done(Some(t.cache.entries[sessionId].snapshot));
    } else {
      OthersKeepEntriesCurrent(s, t, sessionId);
    }
  }

  lemma StepKeepsEntriesCurrent(s: System, step: Step, sessionId: string)
    requires Enabled(s, step) && sessionId in Next(s, step).cache.entries
    requires sessionId in s.cache.entries ==> EntryIsCurrent(s, sessionId)
    ensures EntryIsCurrent(Next(s, step), sessionId)
  {
    if step.ReturnLoad? {
      ReturnKeepsEntriesCurrent(s, step.load, step.now, sessionId);
    } else {
      OthersKeepEntriesCurrent(s, Next(s, step), sessionId);
    }
  }

  /** A load begun in an older generation never installs or replaces an entry: in every state of a run each entry
      is what a load of the current generation returned. */
  lemma {:induction false} OldLoadsInstallNothing(states: seq<System>, steps: seq<Step>, i: nat, sessionId: string)
    requires IsRun(states, steps) && i < |states| && sessionId in states[i].cache.entries
    ensures EntryIsCurrent(states[i], sessionId)
  {
    if i > 0 {
      assert states[i] == Next(states[i - 1], steps[i - 1]);
      if sessionId in states[i - 1].cache.entries { OldLoadsInstallNothing(states, steps, i - 1, sessionId); }
      StepKeepsEntriesCurrent(states[i - 1], steps[i - 1], sessionId);
    }
  }

  // ---------------------------------------------------------------- hits

  /** The step returns a load of the current generation of the session. */
  predicate Installs(s: System, step: Step, sessionId: string) {
    && step.ReturnLoad? && step.load < |s.loads| && s.loads[step.load].phase.Read?
    && s.loads[step.load].sessionId == sessionId
    && s.loads[step.load].generation == Generation(s.cache, sessionId)
  }

  predicate Drops(s: System, step: Step, sessionId: string) {
    && step.Invalidate? && step.mutation in s.mutations && s.mutations[step.mutation].Committed?
    && sessionId in {s.mutations[step.mutation].previous, s.mutations[step.mutation].updated}
  }

  /** The entry a step returning a load installs. */
  function Installed(s: System, step: Step, sessionId: string): Entry
    requires Installs(s, step, sessionId)
  {
    Entry(step.now + TTL_MS, s.loads[step.load].phase.snapshot)
  }

  lemma StepOnEntry(s: System, step: Step, sessionId: string)
    requires Enabled(s, step)
    ensures var entries := Next(s, step).cache.entries;
            if Installs(s, step, sessionId)
            then sessionId in entries && entries[sessionId] == Installed(s, step, sessionId)
            else if Drops(s, step, sessionId) then sessionId !in entries
            else (sessionId in entries <==> sessionId in s.cache.entries)
                 && (sessionId in entries ==> entries[sessionId] == s.cache.entries[sessionId])
  {
  }

  /** The latest step before state `i` that returned a load of the session, unless the session has been invalidated
      since. */
  function LatestInstall(states: seq<System>, steps: seq<Step>, i: nat, sessionId: string): (found: Option<nat>)
    requires i <= |steps| && i < |states|
    ensures found.Some? ==> found.value < i && Installs(states[found.value], steps[found.value], sessionId)
  {
    if i == 0 then None
    else if Installs(states[i - 1], steps[i - 1], sessionId) then Some(i - 1)
    else if Drops(states[i - 1], steps[i - 1], sessionId) then None
    else LatestInstall(states, steps, i - 1, sessionId)
  }

  lemma {:induction false} EntryIsLatestInstall(states: seq<System>, steps: seq<Step>, i: nat, sessionId: string)
    requires IsRun(states, steps) && i <= |steps|
    ensures var found, entries := LatestInstall(states, steps, i, sessionId), states[i].cache.entries;
            if found.None? then sessionId !in entries
            else sessionId in entries
                 && entries[sessionId] == Installed(states[found.value], steps[found.value], sessionId)
  {
    if i > 0 {
      EntryIsLatestInstall(states, steps, i - 1, sessionId);
      assert Enabled(states[i - 1], steps[i - 1]) && states[i] == Next(states[i - 1], steps[i - 1]);
      StepOnEntry(states[i - 1], steps[i - 1], sessionId);
    }
  }

  /** A lookup is answered at once, with what the load saw, if and only if the latest load returned for the session
      came less than fifteen seconds ago and nothing has invalidated the session since. */
  lemma HitsAreYoungAndValid(
    states: seq<System>, steps: seq<Step>, i: nat, sessionId: string, snapshot: Snapshot, now: int)
    requires IsRun(states, steps) && i <= |steps|
    ensures LookedUp(states[i].cache, sessionId, now) == Hit(snapshot)
       <==> var found := LatestInstall(states, steps, i, sessionId);
            && found.Some?
            && now < steps[found.value].now + 15_000
            && states[found.value].loads[steps[found.value].load].phase.snapshot == snapshot
  {
    EntryIsLatestInstall(states, steps, i, sessionId);
  }

  // ---------------------------------------------------------------- single flight

  ghost predicate InFlight(s: System, l: LoadId) {
    l < |s.loads| && !s.loads[l].phase.Done?
  }

  ghost predicate CurrentLoadIsPending(s: System, l: LoadId)
    requires l < |s.loads|
  {
    var load := s.loads[l];
    InFlight(s, l) && load.generation == Generation(s.cache, load.sessionId) ==>
      load.sessionId in s.cache.pendingLoads && s.cache.pendingLoads[load.sessionId] == Pending(load.generation, l)
  }

  ghost predicate SingleFlight(s: System) {
    && (forall l | 0 <= l < |s.loads| :: CurrentLoadIsPending(s, l))
    && (forall l: nat, k: nat | InFlight(s, l) && InFlight(s, k) ::
          s.loads[l].sessionId == s.loads[k].sessionId && s.loads[l].generation == s.loads[k].generation ==> l == k)
  }

  lemma InvalidationKeepsSingleFlight(s: System, sessionId: string)
    requires Fresh(s) && SingleFlight(s)
    ensures SingleFlight(SessionInvalidated(s, sessionId))
  {
    var t := SessionInvalidated(s, sessionId);
    forall l | 0 <= l < |t.loads| ensures CurrentLoadIsPending(t, l) {
      assert CurrentLoadIsPending(s, l) && LoadIsFresh(s, l);
    }
    assert forall l: nat :: InFlight(t, l) <==> InFlight(s, l);
  }

  lemma MissKeepsSingleFlight(s: System, sessionId: string, now: int)
    requires Fresh(s) && SingleFlight(s) && LookedUp(s.cache, sessionId, now).Miss?
    ensures SingleFlight(LookupBegun(s, sessionId, now))
  {
    var t := LookupBegun(s, sessionId, now);
    forall l | 0 <= l < |t.loads| ensures CurrentLoadIsPending(t, l) {
      if l < |s.loads| { assert CurrentLoadIsPending(s, l); }
    }
    forall l: nat, k: nat | InFlight(t, l) && InFlight(t, k)
      ensures t.loads[l].sessionId == t.loads[k].sessionId && t.loads[l].generation == t.loads[k].generation ==> l == k
    {
      if l < |s.loads| { assert CurrentLoadIsPending(s, l) && (InFlight(t, l) ==> InFlight(s, l)); }
      if k < |s.loads| { assert CurrentLoadIsPending(s, k) && (InFlight(t, k) ==> InFlight(s, k)); }
    }
  }

  lemma SameLoadsKeepSingleFlight(s: System, t: System)
    requires SingleFlight(s) && t.loads == s.loads
    requires t.cache.pendingLoads == s.cache.pendingLoads && t.cache.generations == s.cache.generations
    ensures SingleFlight(t)
  {
    forall l | 0 <= l < |t.loads| ensures CurrentLoadIsPending(t, l) { assert CurrentLoadIsPending(s, l); }
    assert forall l: nat :: InFlight(t, l) <==> InFlight(s, l);
  }

  lemma LoadStepKeepsSingleFlight(s: System, step: Step)
    requires SingleFlight(s) && Enabled(s, step)
    requires step.ReadTable? || step.ReturnLoad? || step.FailLoad? || step.ForgetLoad?
    ensures SingleFlight(Next(s, step))
  {
    var t := Next(s, step);
    forall l | 0 <= l < |t.loads| ensures CurrentLoadIsPending(t, l) { assert CurrentLoadIsPending(s, l); }
    assert forall l: nat :: InFlight(t, l) ==> InFlight(s, l);
    assert forall l: nat | l < |s.loads| ::
        t.loads[l].sessionId == s.loads[l].sessionId && t.loads[l].generation == s.loads[l].generation;
  }

  lemma StepKeepsSingleFlight(s: System, step: Step)
    requires Fresh(s) && SingleFlight(s) && Enabled(s, step)
    ensures SingleFlight(Next(s, step))
  {
    match step
    case BeginLookup(sessionId, now) =>
      if LookedUp(s.cache, sessionId, now).Miss? { MissKeepsSingleFlight(s, sessionId, now); }
      else { SameLoadsKeepSingleFlight(s, Next(s, step)); }
    case Invalidate(m) =>
      var previous, updated := s.mutations[m].previous, s.mutations[m].updated;
      InvalidationKeepsSingleFlight(s, previous);
      InvalidationKeepsFresh(s, previous);
      InvalidationKeepsSingleFlight(SessionInvalidated(s, previous), updated);
      SameLoadsKeepSingleFlight(BothInvalidated(s, previous, updated), Next(s, step));
    case ReadTable(_) => LoadStepKeepsSingleFlight(s, step);
    case ReturnLoad(_, _) => LoadStepKeepsSingleFlight(s, step);
    case FailLoad(_) => LoadStepKeepsSingleFlight(s, step);
    case ForgetLoad(_) => LoadStepKeepsSingleFlight(s, step);
    case _ => SameLoadsKeepSingleFlight(s, Next(s, step));
  }

  /** At most one load is in flight per session and generation, under every interleaving. */
  lemma {:induction false} AtMostOneLoadPerGeneration(states: seq<System>, steps: seq<Step>, i: nat)
    requires IsRun(states, steps) && i < |states|
    ensures SingleFlight(states[i])
  {
    if i > 0 {
      AtMostOneLoadPerGeneration(states, steps, i - 1);
      RunsAreFresh(states, steps, i - 1);
      StepKeepsSingleFlight(states[i - 1], steps[i - 1]);
    }
  }

  // ---------------------------------------------------------------- coherence with the route table

  /** A mutation of the session has committed and not yet invalidated. */
  ghost predicate Dirty(s: System, sessionId: string) {
    exists m <- s.mutations ::
      s.mutations[m].Committed? && sessionId in {s.mutations[m].previous, s.mutations[m].updated}
  }

  ghost predicate EntryCoherent(s: System, sessionId: string)
    requires s.history != []
  {
    sessionId in s.cache.entries && !Dirty(s, sessionId) ==>
      s.cache.entries[sessionId].snapshot.groups == ActiveSources(Current(s), sessionId)
  }

  ghost predicate LoadCoherent(s: System, l: LoadId)
    requires s.history != [] && l < |s.loads|
  {
    var load := s.loads[l];
    load.phase.Read? && load.generation == Generation(s.cache, load.sessionId) && !Dirty(s, load.sessionId) ==>
      load.phase.snapshot.groups == ActiveSources(Current(s), load.sessionId)
  }

  ghost predicate Coherent(s: System) {
    && s.history != []
    && (forall sessionId :: EntryCoherent(s, sessionId))
    && (forall l | 0 <= l < |s.loads| :: LoadCoherent(s, l))
  }

  /** No other update moved the route away from the session this one read before it. */
  ghost predicate NotOvertaken(s: System, step: Step)
    requires Enabled(s, step)
  {
    step.CommitUpdate? ==>
      var mutation := s.mutations[step.mutation];
      mutation.route in Current(s) ==>
        Current(s)[mutation.route].sessionId in {mutation.previousSession, step.row.sessionId}
  }

  lemma OtherSessionsKeepTheirSources(table: RouteTable, id: nat, row: RouteRow, sessionId: string)
    requires row.sessionId != sessionId && (id in table ==> table[id].sessionId != sessionId)
    ensures ActiveSources(table[id := row], sessionId) == ActiveSources(table, sessionId)
  {
    var next := table[id := row];
    assert forall k :: k in next && next[k].active && next[k].sessionId == sessionId ==>
        k in table && next[k] == table[k];
    assert forall k :: k in table && table[k].active && table[k].sessionId == sessionId ==>
        k in next && next[k] == table[k];
  }

  lemma CommitKeepsCoherent(s: System, m: nat, id: nat, row: RouteRow, previous: string)
    requires Coherent(s) && (m in s.mutations ==> s.mutations[m].Updating?)
    requires id in Current(s) ==> Current(s)[id].sessionId in {previous, row.sessionId}
    ensures Coherent(RowCommitted(s, m, id, row, previous))
  {
    var t := RowCommitted(s, m, id, row, previous);
    forall sessionId | !Dirty(t, sessionId)
      ensures !Dirty(s, sessionId) && ActiveSources(Current(t), sessionId) == ActiveSources(Current(s), sessionId)
    {
      assert m in t.mutations && t.mutations[m] == Committed(previous, row.sessionId);
      assert forall k <- s.mutations :: s.mutations[k].Committed? ==>
          k in t.mutations && t.mutations[k] == s.mutations[k];
      OtherSessionsKeepTheirSources(Current(s), id, row, sessionId);
    }
    forall sessionId ensures EntryCoherent(t, sessionId) { assert EntryCoherent(s, sessionId); }
    forall l | 0 <= l < |t.loads| ensures LoadCoherent(t, l) { assert LoadCoherent(s, l); }
  }

  lemma OthersStayDirty(s: System, m: nat, sessionId: string)
    requires Enabled(s, Invalidate(m)) && sessionId !in {s.mutations[m].previous, s.mutations[m].updated}
    ensures Dirty(s, sessionId) ==> Dirty(Next(s, Invalidate(m)), sessionId)
  {
    var t := Next(s, Invalidate(m));
    assert forall k <- s.mutations :: k != m ==> k in t.mutations && t.mutations[k] == s.mutations[k];
  }

  /** What an invalidation does to the cache of one session. */
  lemma InvalidateOn(s: System, m: nat, sessionId: string)
    requires Enabled(s, Invalidate(m))
    ensures var t := Next(s, Invalidate(m));
            var touched := sessionId in {s.mutations[m].previous, s.mutations[m].updated};
            && Generation(t.cache, sessionId) == Generation(s.cache, sessionId) + (if touched then 1 else 0)
            && (sessionId in t.cache.entries <==> sessionId in s.cache.entries && !touched)
            && (sessionId in t.cache.entries ==> t.cache.entries[sessionId] == s.cache.entries[sessionId])
            && t.history == s.history && t.loads == s.loads
  {
  }

  lemma InvalidateKeepsCoherent(s: System, m: nat)
    requires Fresh(s) && Coherent(s) && Enabled(s, Invalidate(m))
    ensures Coherent(Next(s, Invalidate(m)))
  {
    var t := Next(s, Invalidate(m));
    var touched := {s.mutations[m].previous, s.mutations[m].updated};
    forall x ensures EntryCoherent(t, x) {
      InvalidateOn(s, m, x);
      assert EntryCoherent(s, x);
      if x !in touched { OthersStayDirty(s, m, x); }
    }
    InvalidateOn(s, m, "");
    forall l | 0 <= l < |t.loads| ensures LoadCoherent(t, l) {
      var x := s.loads[l].sessionId;
      InvalidateOn(s, m, x);
      assert LoadCoherent(s, l) && LoadIsFresh(s, l);
      if x !in touched { OthersStayDirty(s, m, x); }
    }
  }

  lemma LookupKeepsCoherent(s: System, sessionId: string, now: int)
    requires Coherent(s)
    ensures Coherent(LookupBegun(s, sessionId, now))
  {
    var t := LookupBegun(s, sessionId, now);
    assert forall x :: Dirty(t, x) <==> Dirty(s, x);
    forall x ensures EntryCoherent(t, x) { assert EntryCoherent(s, x); }
    forall l | 0 <= l < |t.loads| ensures LoadCoherent(t, l) {
      if l < |s.loads| { assert LoadCoherent(s, l); }
    }
  }

  lemma LoadStepKeepsCoherent(s: System, step: Step)
    requires Coherent(s) && Enabled(s, step)
    requires step.ReadTable? || step.ReturnLoad? || step.FailLoad? || step.ForgetLoad? || step.Resume?
    ensures Coherent(Next(s, step))
  {
    var t := Next(s, step);
    assert forall x :: Dirty(t, x) <==> Dirty(s, x);
    forall x ensures EntryCoherent(t, x) {
      assert EntryCoherent(s, x);
      if step.ReturnLoad? { assert LoadCoherent(s, step.load); }
    }
    forall l | 0 <= l < |t.loads| ensures LoadCoherent(t, l) { assert LoadCoherent(s, l); }
  }

  lemma BeginUpdateKeepsCoherent(s: System, m: nat, r: nat)
    requires Coherent(s) && Enabled(s, BeginUpdate(m, r))
    ensures Coherent(Next(s, BeginUpdate(m, r)))
  {
    var t := Next(s, BeginUpdate(m, r));
    forall x | Dirty(s, x) ensures Dirty(t, x) {
      var k :| k in s.mutations && s.mutations[k].Committed? && x in {s.mutations[k].previous, s.mutations[k].updated};
      assert k in t.mutations && t.mutations[k] == s.mutations[k];
    }
    forall x ensures EntryCoherent(t, x) { assert EntryCoherent(s, x); }
    forall l | 0 <= l < |t.loads| ensures LoadCoherent(t, l) { assert LoadCoherent(s, l); }
  }

  /** Neither an entry nor a load that may still install one has seen the session. */
  ghost predicate Unseen(s: System, sessionId: string) {
    && sessionId !in s.cache.entries
    && forall l | 0 <= l < |s.loads| && s.loads[l].phase.Read? && s.loads[l].sessionId == sessionId ::
         s.loads[l].generation != Generation(s.cache, sessionId)
  }

  /** The commit of an overtaken update takes the route away from a third session, that only the other update was
      to invalidate. It does no harm as long as that session is still to be invalidated, as the route does not
      count there, as another active route of the session has its source, or as nobody has read the session. */
  ghost predicate Harmless(s: System, step: Step)
    requires Enabled(s, step)
  {
    NotOvertaken(s, step)
    || var id := s.mutations[step.mutation].route;
       var left := Current(s)[id];
       || Dirty(s, left.sessionId)
       || !left.active
       || (exists k <- Current(s) :: k != id && Current(s)[k].active
                                     && Current(s)[k].sessionId == left.sessionId
                                     && Current(s)[k].source == left.source)
       || Unseen(s, left.sessionId)
  }

  lemma OvertakingCommit(s: System, m: nat, row: RouteRow)
    requires Enabled(s, CommitUpdate(m, row)) && !NotOvertaken(s, CommitUpdate(m, row))
    ensures var id := s.mutations[m].route;
            var left := Current(s)[id].sessionId;
            var t := Next(s, CommitUpdate(m, row));
            && (Dirty(t, left) <==> Dirty(s, left))
            && (forall x :: Dirty(s, x) ==> Dirty(t, x))
            && (forall x :: !Dirty(t, x) && x != left ==>
                  ActiveSources(Current(t), x) == ActiveSources(Current(s), x))
  {
    var id := s.mutations[m].route;
    var t := Next(s, CommitUpdate(m, row));
    assert forall k <- s.mutations :: k != m ==> k in t.mutations && t.mutations[k] == s.mutations[k];
    assert m in t.mutations && t.mutations[m] == Committed(s.mutations[m].previousSession, row.sessionId);
    forall x | !Dirty(t, x) && x != Current(s)[id].sessionId
      ensures ActiveSources(Current(t), x) == ActiveSources(Current(s), x)
    {
      OtherSessionsKeepTheirSources(Current(s), id, row, x);
    }
  }

  /** What the session the route leaves still has: its source is gone unless another active route has it. */
  lemma SourcesLeft(table: RouteTable, id: nat, row: RouteRow)
    requires id in table && row.sessionId != table[id].sessionId
    ensures var left := table[id];
            ActiveSources(table[id := row], left.sessionId) == ActiveSources(table, left.sessionId)
            <==> (!left.active
                  || exists k <- table :: k != id && table[k].active
                                          && table[k].sessionId == left.sessionId && table[k].source == left.source)
  {
    var left := table[id];
    var next := table[id := row];
    var before, after := ActiveSources(table, left.sessionId), ActiveSources(next, left.sessionId);
    forall g | g in after ensures g in before {
      var k :| k in next && next[k].active && next[k].sessionId == left.sessionId && next[k].source == g;
      assert k in table && table[k] == next[k];
    }
    forall g | g in before && g != left.source ensures g in after {
      var k :| k in table && table[k].active && table[k].sessionId == left.sessionId && table[k].source == g;
      assert k in next && next[k] == table[k];
    }
    if left.active {
      assert left.source in before;
      if left.source in after {
        var k :| k in next && next[k].active && next[k].sessionId == left.sessionId && next[k].source == left.source;
        assert k in table && k != id;
      }
      if k :| k in table && k != id && table[k].active && table[k].sessionId == left.sessionId
              && table[k].source == left.source {
        assert k in next && next[k] == table[k];
      }
    } else if left.source in before {
      var k :| k in table && table[k].active && table[k].sessionId == left.sessionId && table[k].source == left.source;
      assert k in next && next[k] == table[k];
    }
  }

  lemma OvertakenKeepsCoherentIffHarmless(s: System, m: nat, row: RouteRow)
    requires Coherent(s) && Enabled(s, CommitUpdate(m, row)) && !NotOvertaken(s, CommitUpdate(m, row))
    ensures Coherent(Next(s, CommitUpdate(m, row))) <==> Harmless(s, CommitUpdate(m, row))
  {
    var id := s.mutations[m].route;
    var left := Current(s)[id].sessionId;
    var t := Next(s, CommitUpdate(m, row));
    OvertakingCommit(s, m, row);
    SourcesLeft(Current(s), id, row);
    assert Current(t) == Current(s)[id := row];
    assert EntryCoherent(s, left);
    if Harmless(s, CommitUpdate(m, row)) {
      forall x ensures EntryCoherent(t, x) { assert EntryCoherent(s, x); }
      forall l | 0 <= l < |t.loads| ensures LoadCoherent(t, l) { assert LoadCoherent(s, l); }
    } else if left in s.cache.entries {
      assert !EntryCoherent(t, left);
    } else {
      var l :| 0 <= l < |s.loads| && s.loads[l].phase.Read? && s.loads[l].sessionId == left
               && s.loads[l].generation == Generation(s.cache, left);
      assert LoadCoherent(s, l) && !LoadCoherent(t, l);
    }
  }

  lemma StepKeepsCoherentIffHarmless(s: System, step: Step)
    requires Fresh(s) && Coherent(s) && Enabled(s, step)
    ensures Coherent(Next(s, step)) <==> Harmless(s, step)
  {
    match step
    case BeginLookup(sessionId, now) => LookupKeepsCoherent(s, sessionId, now);
    case BeginUpdate(m, r) => BeginUpdateKeepsCoherent(s, m, r);
    case CommitUpdate(m, row) =>
      if NotOvertaken(s, step) {
        CommitKeepsCoherent(s, m, s.mutations[m].route, row, s.mutations[m].previousSession);
      } else {
        OvertakenKeepsCoherentIffHarmless(s, m, row);
      }
    case CommitActive(m, r, active) =>
      CommitKeepsCoherent(s, m, r, Current(s)[r].(active := active), Current(s)[r].sessionId);
    case CommitInsert(m, r, row) => CommitKeepsCoherent(s, m, r, row, row.sessionId);
    case Invalidate(m) => InvalidateKeepsCoherent(s, m);
    case _ => LoadStepKeepsCoherent(s, step);
  }

  ghost predicate EntriesMatch(s: System)
    requires s.history != []
  {
    forall x :: EntryCoherent(s, x)
  }

  /** Entries match the table, and would still do so if a load that has read the table returned. */
  ghost predicate MatchesNowAndLater(s: System) {
    && s.history != [] && EntriesMatch(s)
    && forall l: nat | Enabled(s, ReturnLoad(l, 0)) :: EntriesMatch(Next(s, ReturnLoad(l, 0)))
  }

  /** A load that has read the table agrees with it exactly if the entry it would install does. */
  lemma ReturnMatchesIff(s: System, l: nat)
    requires Enabled(s, ReturnLoad(l, 0)) && EntriesMatch(s)
    ensures EntriesMatch(Next(s, ReturnLoad(l, 0))) <==> LoadCoherent(s, l)
  {
    var t := Next(s, ReturnLoad(l, 0));
    var load := s.loads[l];
    assert forall x :: Dirty(t, x) <==> Dirty(s, x);
    if LoadCoherent(s, l) {
      forall x ensures EntryCoherent(t, x) { assert EntryCoherent(s, x); }
    } else {
      assert t.cache.entries[load.sessionId].snapshot == load.phase.snapshot;
      assert !EntryCoherent(t, load.sessionId);
    }
  }

  lemma CoherentIffMatches(s: System)
    ensures Coherent(s) <==> MatchesNowAndLater(s)
  {
    if s.history != [] && EntriesMatch(s) {
      forall l: nat | Enabled(s, ReturnLoad(l, 0)) { ReturnMatchesIff(s, l); }
      assert forall l: nat | l < |s.loads| && !s.loads[l].phase.Read? :: LoadCoherent(s, l);
      if MatchesNowAndLater(s) {
        forall l | 0 <= l < |s.loads| ensures LoadCoherent(s, l) {
          if s.loads[l].phase.Read? { assert Enabled(s, ReturnLoad(l, 0)); }
        }
      }
    }
  }

  ghost predicate MatchesUpTo(states: seq<System>, n: nat)
    requires n < |states|
  {
    forall i | 0 <= i <= n :: MatchesNowAndLater(states[i])
  }

  ghost predicate HarmlessUpTo(states: seq<System>, steps: seq<Step>, n: nat)
    requires IsRun(states, steps) && n <= |steps|
  {
    forall k | 0 <= k < n :: Harmless(states[k], steps[k])
  }

  lemma RunStep(states: seq<System>, steps: seq<Step>, n: nat)
    requires IsRun(states, steps) && n < |steps|
    ensures MatchesUpTo(states, n + 1) <==> MatchesUpTo(states, n) && MatchesNowAndLater(states[n + 1])
    ensures HarmlessUpTo(states, steps, n + 1) <==> HarmlessUpTo(states, steps, n) && Harmless(states[n], steps[n])
    ensures MatchesUpTo(states, n) ==> (MatchesNowAndLater(states[n + 1]) <==> Harmless(states[n], steps[n]))
  {
    CoherentIffMatches(states[n]);
    CoherentIffMatches(states[n + 1]);
    if MatchesUpTo(states, n) {
      assert MatchesNowAndLater(states[n]);
      RunsAreFresh(states, steps, n);
      StepKeepsCoherentIffHarmless(states[n], steps[n]);
    }
  }

  /** In every state of a run each entry, of a session without a mutation between its commit and its
      invalidation, is the set of active sources of the table, now and after any load that has read the table
      returns, if and only if every step of the run is harmless. In particular that is so as long as no update
      is overtaken by another one of its route. */
  lemma {:induction false} EntriesMatchTheTable(states: seq<System>, steps: seq<Step>, n: nat)
    requires IsRun(states, steps) && n <= |steps|
    ensures MatchesUpTo(states, n) <==> HarmlessUpTo(states, steps, n)
  {
    if n == 0 {
      CoherentIffMatches(states[0]);
      assert Coherent(states[0]);
    } else {
      EntriesMatchTheTable(states, steps, n - 1);
      RunStep(states, steps, n - 1);
    }
  }

  const ROUTE_IN_A := map[0 := RouteRow("a", "g", true)]
  const ROUTE_IN_B := map[0 := RouteRow("b", "g", true)]
  const ROUTE_IN_C := map[0 := RouteRow("c", "g", true)]

  /** Both updates have read session "a"; the later one has moved the route to "b". */
  const MOVED := System(
    [ROUTE_IN_A, ROUTE_IN_B], Cache(map[], map[], map[]), [], [],
    map[0 := Updating(0, "a"), 1 := Committed("a", "b")], map[])

  /** It has invalidated "a" and "b". */
  const OVERTAKEN := System(
    [ROUTE_IN_A, ROUTE_IN_B],
    Cache(map[], map["a" := 1, "b" := 1], map[]), [], [], map[0 := Updating(0, "a")], map["a" := 1, "b" := 1])

  const SEEN := Snapshot({"g"}, 1)

  /** Session "b" has been looked up and is cached. */
  const CACHED := OVERTAKEN.(
    cache := Cache(map["b" := Entry(TTL_MS, SEEN)], map["a" := 1, "b" := 1], map["b" := Pending(1, 0)]),
    loads := [Load("b", 1, 1, Done(Some(SEEN)))],
    lookups := [Lookup("b", 1, Waiting(0))])

  /** The overtaken update has moved the route on to "c". */
  const MOVED_ON := CACHED.(history := [ROUTE_IN_A, ROUTE_IN_B, ROUTE_IN_C], mutations := map[0 := Committed("a", "c")])

  /** It has invalidated "a" and "c". */
  const STALE := MOVED_ON.(
    cache := Cache(CACHED.cache.entries, map["a" := 2, "b" := 1, "c" := 1], CACHED.cache.pendingLoads),
    mutations := map[],
    invalidatedAt := map["a" := 2, "b" := 1, "c" := 2])

  function Start(): System {
    System([ROUTE_IN_A], Cache(map[], map[], map[]), [], [], map[], map[])
  }

  lemma SessionsDiffer()
    ensures "a" != "b" && "b" != "c" && "a" != "c"
  {
    assert "a"[0] != "b"[0] && "b"[0] != "c"[0] && "a"[0] != "c"[0];
  }

  ghost predicate Reachable(s: System) {
    exists states, steps :: IsRun(states, steps) && states[|steps|] == s
  }

  lemma StartIsReachable(s: System)
    requires s == Start()
    ensures Reachable(s)
  {
    assert IsRun([s], []);
  }

  lemma StepIsReachable(s: System, step: Step, t: System)
    requires Reachable(s) && Enabled(s, step) && t == Next(s, step)
    ensures Reachable(t)
  {
    var states, steps :| IsRun(states, steps) && states[|steps|] == s;
    var longer, more := states + [t], steps + [step];
    forall i | 0 <= i < |more| ensures Enabled(longer[i], more[i]) && longer[i + 1] == Next(longer[i], more[i]) {
      if i < |steps| { assert Enabled(states[i], steps[i]) && states[i + 1] == Next(states[i], steps[i]); }
    }
    assert longer[0] == states[0];
    assert IsRun(longer, more);
  }

  lemma BothUpdatesReadTheRoute()
    ensures Reachable(Start().(mutations := map[0 := Updating(0, "a"), 1 := Updating(0, "a")]))
  {
    StartIsReachable(Start());
    var one := Start().(mutations := map[0 := Updating(0, "a")]);
    StepIsReachable(Start(), BeginUpdate(0, 0), one);
    var two := Start().(mutations := map[0 := Updating(0, "a"), 1 := Updating(0, "a")]);
    assert Next(one, BeginUpdate(1, 0)) == two;
    StepIsReachable(one, BeginUpdate(1, 0), two);
  }

  /** The effect of a pair of invalidations, written out. */
  lemma InvalidationOf(s: System, m: nat, t: System)
    requires Enabled(s, Invalidate(m))
    requires var a, b := s.mutations[m].previous, s.mutations[m].updated;
             a != b && t == s.(
               cache := s.cache.(entries := s.cache.entries - {a, b},
                                 generations := s.cache.generations[a := Generation(s.cache, a) + 1]
                                                                   [b := Generation(s.cache, b) + 1]),
               mutations := s.mutations - {m},
               invalidatedAt := s.invalidatedAt[a := |s.history| - 1][b := |s.history| - 1])
    ensures Next(s, Invalidate(m)) == t
  {
    var a, b := s.mutations[m].previous, s.mutations[m].updated;
    assert s.cache.entries - {a} - {b} == s.cache.entries - {a, b};
  }

  lemma OneUpdateCommits()
    ensures Reachable(MOVED)
  {
    SessionsDiffer();
    BothUpdatesReadTheRoute();
    var two := Start().(mutations := map[0 := Updating(0, "a"), 1 := Updating(0, "a")]);
    assert ROUTE_IN_A[0 := RouteRow("b", "g", true)] == ROUTE_IN_B;
    StepIsReachable(two, CommitUpdate(1, RouteRow("b", "g", true)), MOVED);
  }

  lemma OneUpdateOvertakes()
    ensures Reachable(OVERTAKEN)
  {
    SessionsDiffer();
    OneUpdateCommits();
    InvalidationOf(MOVED, 1, OVERTAKEN);
    StepIsReachable(MOVED, Invalidate(1), OVERTAKEN);
  }

  lemma TheNewSessionIsCached()
    ensures Reachable(CACHED)
  {
    SessionsDiffer();
    OneUpdateOvertakes();
    assert ActiveSources(ROUTE_IN_B, "b") == {"g"} by { assert 0 in ROUTE_IN_B; }
    var asked := OVERTAKEN.(cache := LoadStarted(OVERTAKEN.cache, "b", 0),
                            loads := [Load("b", 1, 1, Querying)], lookups := CACHED.lookups);
    StepIsReachable(OVERTAKEN, BeginLookup("b", 0), asked);
    var read := asked.(loads := [Load("b", 1, 1, Read(SEEN))]);
    StepIsReachable(asked, ReadTable(0), read);
    StepIsReachable(read, ReturnLoad(0, 0), CACHED);
  }

  lemma TheOvertakenUpdateCommits()
    ensures Reachable(MOVED_ON)
  {
    SessionsDiffer();
    TheNewSessionIsCached();
    assert ROUTE_IN_B[0 := RouteRow("c", "g", true)] == ROUTE_IN_C;
    StepIsReachable(CACHED, CommitUpdate(0, RouteRow("c", "g", true)), MOVED_ON);
  }

  lemma TheOvertakenUpdateInvalidates()
    ensures Reachable(STALE)
  {
    SessionsDiffer();
    TheOvertakenUpdateCommits();
    InvalidationOf(MOVED_ON, 0, STALE);
    StepIsReachable(MOVED_ON, Invalidate(0), STALE);
  }

  /** A reachable stale entry nothing is going to invalidate. Two updates of one route read session "a"; the
      first to commit moves it to "b", whose lookup caches it; the other then moves it on to "c". */
  lemma OvertakenCommitsLeaveStaleEntries()
    ensures Reachable(STALE) && STALE.mutations == map[]
    ensures STALE.cache.entries["b"].snapshot.groups == {"g"} && ActiveSources(Current(STALE), "b") == {}
    ensures !Coherent(STALE)
  {
    TheOvertakenUpdateInvalidates();
    SessionsDiffer();
    assert "g" in STALE.cache.entries["b"].snapshot.groups;
    assert !EntryCoherent(STALE, "b");
  }
}
