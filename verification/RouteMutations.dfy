/** The calls of the routes service are the mutations of the cache runs: the commit writes one row of the table,
    and the invalidations that follow are those of its outcome. */
module RouteMutations {
  import opened Wrappers
  import opened PlanLimits
  import opened CacheRuns
  import opened MessageRoutes

  /** What the cache loads from the route table. */
  function TableOf(routes: seq<Route>): RouteTable {
    map i: nat | i < |routes| :: RouteRow(routes[i].sessionId, routes[i].source, routes[i].active)
  }

  /** The two steps of a successful call, the read before an update aside. */
  ghost predicate CommitsAndInvalidates(s: System, m: nat, commit: CacheRuns.Step, outcome: Outcome) {
    && Enabled(s, commit)
    && var committed := CacheRuns.Next(s, commit);
       && Enabled(committed, Invalidate(m))
       && Current(committed) == TableOf(outcome.routes)
       && var after := CacheRuns.Next(committed, Invalidate(m));
          && Current(after) == TableOf(outcome.routes)
          && after.cache == InvalidatedInOrder(s.cache, outcome.invalidated)
  }

  lemma TableUpdated(routes: seq<Route>, id: nat, route: Route)
    requires id < |routes|
    ensures TableOf(routes[id := route]) == TableOf(routes)[id := RouteRow(route.sessionId, route.source, route.active)]
  {
  }

  lemma TableExtended(routes: seq<Route>, route: Route)
    ensures TableOf(routes + [route])
         == TableOf(routes)[|routes| := RouteRow(route.sessionId, route.source, route.active)]
  {
  }

  /** A commit that leaves the session of the row as it was invalidates that one session. */
  lemma OneSession(s: System, m: nat, commit: CacheRuns.Step, id: nat, row: RouteRow, outcome: Outcome)
    requires Enabled(s, commit) && CacheRuns.Next(s, commit) == RowCommitted(s, m, id, row, row.sessionId)
    requires Current(s)[id := row] == TableOf(outcome.routes) && outcome.invalidated == [row.sessionId]
    ensures CommitsAndInvalidates(s, m, commit, outcome)
  {
    InvalidatedPair(s.cache, row.sessionId, row.sessionId);
  }

  lemma TwoSessions(
    s: System, m: nat, commit: CacheRuns.Step, id: nat, row: RouteRow, previous: string, outcome: Outcome)
    requires Enabled(s, commit) && CacheRuns.Next(s, commit) == RowCommitted(s, m, id, row, previous)
    requires Current(s)[id := row] == TableOf(outcome.routes) && outcome.invalidated == [previous, row.sessionId]
    requires previous != row.sessionId
    ensures CommitsAndInvalidates(s, m, commit, outcome)
  {
    InvalidatedPair(s.cache, previous, row.sessionId);
  }

  /** Creating a route inserts a row; creating one that was deleted makes its row active again. */
  lemma CreateIsAMutation(s: System, m: nat, plans: map<string, Plan>, routes: seq<Route>, body: CreateBody)
    requires s.history != [] && Current(s) == TableOf(routes) && m !in s.mutations
    requires Created(plans, routes, body).result.Success?
    ensures var outcome := Created(plans, routes, body);
            var id := outcome.result.value;
            id < |outcome.routes|
            && var row := TableOf(outcome.routes)[id];
               CommitsAndInvalidates(
                 s, m, if id < |routes| then CommitActive(m, id, true) else CommitInsert(m, id, row), outcome)
  {
    var outcome := Created(plans, routes, body);
    CreatedShape(plans, routes, body);
    CreationCommits(s, m, routes, outcome);
  }

  lemma CreationCommits(s: System, m: nat, routes: seq<Route>, outcome: Outcome)
    requires s.history != [] && Current(s) == TableOf(routes) && m !in s.mutations && outcome.result.Success?
    requires var id := outcome.result.value;
             && id < |outcome.routes| && outcome.routes[id].active
             && outcome.invalidated == [outcome.routes[id].sessionId]
             && outcome.routes
                == (if id < |routes| then routes[id := outcome.routes[id]] else routes + [outcome.routes[id]])
             && (id < |routes| ==> SameKey(routes[id], outcome.routes[id]))
             && (id >= |routes| ==> id == |routes|)
    ensures var id := outcome.result.value;
            var row := TableOf(outcome.routes)[id];
            CommitsAndInvalidates(
              s, m, if id < |routes| then CommitActive(m, id, true) else CommitInsert(m, id, row), outcome)
  {
    var id := outcome.result.value;
    var route := outcome.routes[id];
    var row := RouteRow(route.sessionId, route.source, route.active);
    if id < |routes| {
      TableUpdated(routes, id, route);
      OneSession(s, m, CommitActive(m, id, true), id, row, outcome);
    } else {
      TableExtended(routes, route);
      OneSession(s, m, CommitInsert(m, id, row), id, row, outcome);
    }
  }

  /** An update that nothing overtakes: `s` is the state after the read of its row. */
  lemma UpdateIsAMutation(
    s: System, m: nat, plans: map<string, Plan>, routes: seq<Route>, id: nat, body: UpdateBody, userId: Option<string>)
    requires s.history != [] && Current(s) == TableOf(routes)
    requires Updated(plans, routes, id, body, userId).result.Success? && id < |routes|
    requires m in s.mutations && s.mutations[m] == Updating(id, routes[id].sessionId)
    ensures var outcome := Updated(plans, routes, id, body, userId);
            && id < |outcome.routes|
            && var row := TableOf(outcome.routes)[id];
               && CommitsAndInvalidates(s, m, CommitUpdate(m, row), outcome)
               && NotOvertaken(s, CommitUpdate(m, row))
  {
    var outcome := Updated(plans, routes, id, body, userId);
    UpdatedShape(plans, routes, id, body, userId);
    UpdateCommits(s, m, routes, id, outcome);
  }

  lemma UpdateCommits(s: System, m: nat, routes: seq<Route>, id: nat, outcome: Outcome)
    requires s.history != [] && Current(s) == TableOf(routes) && id < |routes| == |outcome.routes|
    requires m in s.mutations && s.mutations[m] == Updating(id, routes[id].sessionId)
    requires outcome.routes == routes[id := outcome.routes[id]]
    requires var previous, session := routes[id].sessionId, outcome.routes[id].sessionId;
             outcome.invalidated == if session == previous then [previous] else [previous, session]
    ensures var row := TableOf(outcome.routes)[id];
            && CommitsAndInvalidates(s, m, CommitUpdate(m, row), outcome)
            && NotOvertaken(s, CommitUpdate(m, row))
  {
    var route := outcome.routes[id];
    var row := RouteRow(route.sessionId, route.source, route.active);
    TableUpdated(routes, id, route);
    if route.sessionId == routes[id].sessionId {
      OneSession(s, m, CommitUpdate(m, row), id, row, outcome);
    } else {
      TwoSessions(s, m, CommitUpdate(m, row), id, row, routes[id].sessionId, outcome);
    }
  }

  /** Deleting a route makes its row inactive. */
  lemma DeletionIsAMutation(s: System, m: nat, routes: seq<Route>, id: nat, userId: Option<string>)
    requires s.history != [] && Current(s) == TableOf(routes) && m !in s.mutations
    requires SoftDeleted(routes, id, userId).result.Success?
    ensures CommitsAndInvalidates(s, m, CommitActive(m, id, false), SoftDeleted(routes, id, userId))
  {
    var outcome := SoftDeleted(routes, id, userId);
    var route := outcome.routes[id];
    TableUpdated(routes, id, route);
    OneSession(s, m, CommitActive(m, id, false), id, RouteRow(route.sessionId, route.source, false), outcome);
  }
}
