/** Which load a lookup joins, over every interleaving of lookups, loads and mutations, and what a lookup, a load and
    an invalidation leave, written out without the functions that compute it (routed-groups-cache.service.ts). */
module CacheOutcomes {
  import opened Wrappers
  import opened RoutedGroupsCache
  import opened CacheRuns

  // ---------------------------------------------------------------- joins

  /** Step `i` is a lookup of the session that begins a load of its own. */
  predicate Starts(states: seq<System>, steps: seq<Step>, i: nat, sessionId: string) {
    && i < |steps| && i + 1 < |states| && steps[i].BeginLookup? && steps[i].sessionId == sessionId
    && |states[i].loads| < |states[i + 1].loads|
  }

  /** Step `i` is the `finally` of the load begun at step `k`. */
  predicate Forgets(states: seq<System>, steps: seq<Step>, i: nat, k: nat) {
    i < |steps| && k < |states| && steps[i] == ForgetLoad(|states[k].loads|)
  }

  /** The latest lookup before state `i` that began a load of the session, unless the load has been forgotten or the
      session invalidated since. */
  function LatestStart(states: seq<System>, steps: seq<Step>, i: nat, sessionId: string): (found: Option<nat>)
    requires i <= |steps| && i < |states|
    ensures found.Some? ==> found.value < i
  {
    if i == 0 then None
    else
      var before := LatestStart(states, steps, i - 1, sessionId);
      if Starts(states, steps, i - 1, sessionId) then Some(i - 1)
      else if Drops(states[i - 1], steps[i - 1], sessionId) then None
      else if before.Some? && Forgets(states, steps, i - 1, before.value) then None
      else before
  }

  /** Only a pending load of the current generation can be joined. */
  ghost predicate PendingIs(s: System, sessionId: string, load: Option<LoadId>) {
    var pending := s.cache.pendingLoads;
    match load
    case Some(l) => sessionId in pending && pending[sessionId] == Pending(Generation(s.cache, sessionId), l)
    case None => sessionId in pending ==> pending[sessionId].generation < Generation(s.cache, sessionId)
  }

  function LoadOf(states: seq<System>, start: Option<nat>): Option<LoadId>
    requires start.Some? ==> start.value < |states|
  {
    if start.Some? then Some(|states[start.value].loads|) else None
  }

  lemma LookupOnPending(s: System, sessionId: string, now: int, x: string, load: Option<LoadId>)
    requires Enabled(s, BeginLookup(sessionId, now)) && PendingIs(s, x, load)
    ensures var t := Next(s, BeginLookup(sessionId, now));
            PendingIs(t, x, if x == sessionId && |s.loads| < |t.loads| then Some(|s.loads|) else load)
  {
  }

  lemma InvalidationOnPending(s: System, m: nat, x: string, load: Option<LoadId>)
    requires Fresh(s) && Enabled(s, Invalidate(m)) && PendingIs(s, x, load)
    ensures PendingIs(Next(s, Invalidate(m)), x, if Drops(s, Invalidate(m), x) then None else load)
  {
    InvalidateOn(s, m, x);
  }

  lemma ForgettingOnPending(s: System, l: LoadId, x: string, load: Option<LoadId>)
    requires Fresh(s) && Enabled(s, ForgetLoad(l)) && PendingIs(s, x, load)
    ensures PendingIs(Next(s, ForgetLoad(l)), x, if load == Some(l) then None else load)
  {
    if x in s.cache.pendingLoads { assert PendingIsKnown(s, x); }
  }

  lemma OtherStepsOnPending(s: System, step: Step, x: string, load: Option<LoadId>)
    requires Enabled(s, step) && !step.BeginLookup? && !step.Invalidate? && !step.ForgetLoad? && PendingIs(s, x, load)
    ensures PendingIs(Next(s, step), x, load)
  {
  }

  /** The load that can be joined after a step. */
  ghost function PendingAfter(s: System, step: Step, sessionId: string, load: Option<LoadId>): Option<LoadId>
    requires Enabled(s, step)
  {
    if step.BeginLookup? && step.sessionId == sessionId && |s.loads| < |Next(s, step).loads| then Some(|s.loads|)
    else if Drops(s, step, sessionId) || (load.Some? && step == ForgetLoad(load.value)) then None
    else load
  }

  lemma StepOnPending(s: System, step: Step, x: string, load: Option<LoadId>)
    requires Fresh(s) && Enabled(s, step) && PendingIs(s, x, load)
    ensures PendingIs(Next(s, step), x, PendingAfter(s, step, x, load))
  {
    match step
    case BeginLookup(sessionId, now) => LookupOnPending(s, sessionId, now, x, load);
    case Invalidate(m) => InvalidationOnPending(s, m, x, load);
    case ForgetLoad(l) => ForgettingOnPending(s, l, x, load);
    case _ => OtherStepsOnPending(s, step, x, load);
  }

  lemma LatestStartStep(states: seq<System>, steps: seq<Step>, i: nat, sessionId: string)
    requires IsRun(states, steps) && 0 < i <= |steps|
    ensures Enabled(states[i - 1], steps[i - 1]) && states[i] == Next(states[i - 1], steps[i - 1])
    ensures LoadOf(states, LatestStart(states, steps, i, sessionId))
         == PendingAfter(states[i - 1], steps[i - 1], sessionId,
                         LoadOf(states, LatestStart(states, steps, i - 1, sessionId)))
  {
    assert Enabled(states[i - 1], steps[i - 1]) && states[i] == Next(states[i - 1], steps[i - 1]);
  }

  lemma {:induction false} PendingIsLatestStart(states: seq<System>, steps: seq<Step>, i: nat, sessionId: string)
    requires IsRun(states, steps) && i <= |steps|
    ensures PendingIs(states[i], sessionId, LoadOf(states, LatestStart(states, steps, i, sessionId)))
  {
    if i > 0 {
      PendingIsLatestStart(states, steps, i - 1, sessionId);
      RunsAreFresh(states, steps, i - 1);
      LatestStartStep(states, steps, i, sessionId);
      StepOnPending(states[i - 1], steps[i - 1], sessionId,
                    LoadOf(states, LatestStart(states, steps, i - 1, sessionId)));
    }
  }

  /** A lookup without a young and valid entry joins the load its session began last if and only if that load has not
      been forgotten, nor the session invalidated, since it began; otherwise it begins a load of its own. */
  lemma LookupsJoinRunningLoads(states: seq<System>, steps: seq<Step>, i: nat, sessionId: string, now: int)
    requires IsRun(states, steps) && i <= |steps|
    requires !LookedUp(states[i].cache, sessionId, now).Hit?
    ensures var start := LatestStart(states, steps, i, sessionId);
            var result := LookedUp(states[i].cache, sessionId, now);
            if start.Some? then result == Join(|states[start.value].loads|) else result.Miss?
  {
    PendingIsLatestStart(states, steps, i, sessionId);
  }

  // ---------------------------------------------------------------- what the steps leave

  lemma LookupLeaves(s: System, sessionId: string, now: int)
    requires s.history != []
    ensures var t := Next(s, BeginLookup(sessionId, now));
            var result := LookedUp(s.cache, sessionId, now);
            && t.history == s.history && t.mutations == s.mutations
            && t.cache.entries == s.cache.entries && t.cache.generations == s.cache.generations
            && |t.lookups| == |s.lookups| + 1 && t.lookups[..|s.lookups|] == s.lookups
            && var lookup := t.lookups[|s.lookups|];
               && lookup.sessionId == sessionId
               && (result.Hit? ==> t.loads == s.loads && lookup.status == Answered(result.snapshot))
               && (result.Join? ==> t.loads == s.loads && lookup.status == Waiting(result.load))
               && (result.Miss? ==>
                     && lookup.status == Waiting(|s.loads|)
                     && t.loads
                        == s.loads + [Load(sessionId, Generation(s.cache, sessionId), |s.history| - 1, Querying)])
  {
  }

  /** A load sees the sources of the active routes of its session, and every lookup that waits for it is answered with
      them, or fails if the load failed. */
  lemma LoadsAnswerTheirLookups(s: System, l: LoadId)
    requires s.history != [] && l < |s.loads|
    ensures Enabled(s, ReadTable(l)) ==>
              var phase := Next(s, ReadTable(l)).loads[l].phase;
              && phase.Read? && phase.snapshot.version == |s.history| - 1
              && forall g :: g in phase.snapshot.groups
                   <==> exists id <- Current(s) ::
                          Current(s)[id].active && Current(s)[id].sessionId == s.loads[l].sessionId
                          && Current(s)[id].source == g
    ensures forall now | Enabled(s, ReturnLoad(l, now)) ::
              Next(s, ReturnLoad(l, now)).loads[l].phase == Done(Some(s.loads[l].phase.snapshot))
    ensures Enabled(s, FailLoad(l)) ==>
              Next(s, FailLoad(l)).loads[l].phase == Done(None) && Next(s, FailLoad(l)).cache == s.cache
    ensures forall q | 0 <= q < |s.lookups| && s.lookups[q].status == Waiting(l) && Enabled(s, Resume(q)) ::
              var outcome := s.loads[l].phase.outcome;
              Next(s, Resume(q)).lookups[q].status == if outcome.Some? then Answered(outcome.value) else Failed
  {
  }
}
