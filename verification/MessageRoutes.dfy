/** Creating, updating and deleting routes (message-routes.service.ts), one call at a time. The id of a
    route is its index; the table's unique constraint over user, session, source and destination is
    `Taken`. Clients, links and previews are not part of this model. */
module MessageRoutes {
  import opened Wrappers
  import opened Rows
  import opened PlanLimits
  import RoutedGroupsCache

  datatype CreateBody = CreateBody(
    userId: string, sessionId: string, source: string, destination: string, inviteUrl: Option<string>)

  /** `None` leaves a field as it is; so does a link that is null or blank, as the database ignores a field that is
      undefined. */
  datatype UpdateBody = UpdateBody(
    sessionId: Option<string>, source: Option<string>, destination: Option<string>,
    inviteUrl: Option<string>, active: Option<bool>)

  /** White space and line terminators of ECMAScript, which `trim` strips. */
  predicate IsSpace(c: char) {
    || c == ' ' || '\t' <= c <= '\r' || c == '\U{A0}' || c == '\U{1680}' || '\U{2000}' <= c <= '\U{200A}'
    || c == '\U{2028}' || c == '\U{2029}' || c == '\U{202F}' || c == '\U{205F}' || c == '\U{3000}' || c == '\U{FEFF}'
  }

  function TrimStart(s: string): string {
    if s != "" && IsSpace(s[0]) then TrimStart(s[1..]) else s
  }

  function TrimEnd(s: string): string {
    if s != "" && IsSpace(s[|s| - 1]) then TrimEnd(s[..|s| - 1]) else s
  }

  function Trim(s: string): string {
    TrimEnd(TrimStart(s))
  }

  function TrimOptional(s: Option<string>): Option<string> {
    if s.None? || Trim(s.value) == "" then None else Some(Trim(s.value))
  }

  predicate SameKey(r: Route, q: Route) {
    r.userId == q.userId && r.sessionId == q.sessionId && r.source == q.source && r.destination == q.destination
  }

  /** Whether a row other than `id` has the key of `route`. */
  predicate Taken(routes: seq<Route>, route: Route, id: Option<nat>) {
    exists i :: 0 <= i < |routes| && Some(i) != id && SameKey(routes[i], route)
  }

  /** Whether an active row other than `id` has the key of `route`. */
  predicate ActivelyTaken(routes: seq<Route>, route: Route, id: nat) {
    exists i :: 0 <= i < |routes| && i != id && routes[i].active && SameKey(routes[i], route)
  }

  /** The table after a call, the sessions to invalidate, and the id or the error. */
  datatype Outcome = Outcome(routes: seq<Route>, invalidated: seq<string>, result: Result<nat, RouteError>)

  function Refused(routes: seq<Route>, error: RouteError): Outcome {
    Outcome(routes, [], Failure(error))
  }

  /** A route without an invite link takes that of its row. */
  function WithLinkOf(route: Route, row: Route): Route {
    route.(inviteUrl := OrElse(route.inviteUrl, row.inviteUrl))
  }

  function Created(plans: map<string, Plan>, routes: seq<Route>, body: CreateBody): Outcome {
    var route := Route(Trim(body.userId), Trim(body.sessionId), Trim(body.source), Trim(body.destination),
                       TrimOptional(body.inviteUrl), true);
    var existing := FirstMatch(routes, (r: Route) => SameKey(r, route));
    if route.userId == "" then Refused(routes, Required("userId"))
    else if route.sessionId == "" then Refused(routes, Required("sessionId"))
    else if route.source == "" then Refused(routes, Required("sourceGroupJid"))
    else if route.destination == "" then Refused(routes, Required("destinationGroupJid"))
    else if route.source == route.destination then Refused(routes, SameGroup)
    else if existing.Some? && routes[existing.value].active then Refused(routes, Duplicate)
    else
      var error := CannotCreateRoute(plans, routes, route.userId, route.source, route.destination, None);
      if error.Some? then Refused(routes, error.value)
      else if existing.Some? then
        Outcome(routes[existing.value := WithLinkOf(route, routes[existing.value])], [route.sessionId],
                Success(existing.value))
      else Outcome(routes + [route], [route.sessionId], Success(|routes|))
  }

  /** The row an update asks for. */
  function Requested(current: Route, body: UpdateBody): Route {
    current.(sessionId := if body.sessionId.None? then current.sessionId else Trim(body.sessionId.value),
          source := if body.source.None? then current.source else Trim(body.source.value),
          destination := if body.destination.None? then current.destination else Trim(body.destination.value),
          inviteUrl := OrElse(TrimOptional(body.inviteUrl), current.inviteUrl),
          active := if body.active.None? then current.active else body.active.value)
  }

  predicate Blank(field: Option<string>) {
    field.Some? && Trim(field.value) == ""
  }

  /** An owner given as the empty string counts as none given, one of white space only is refused. */
  predicate BlankOwner(userId: Option<string>) {
    userId.Some? && userId.value != "" && Trim(userId.value) == ""
  }

  /** `findRoute`: by id, and by owner when one is given. */
  predicate Found(routes: seq<Route>, id: nat, userId: Option<string>) {
    id < |routes| && (userId.None? || userId.value == "" || routes[id].userId == Trim(userId.value))
  }

  function Updated(
    plans: map<string, Plan>, routes: seq<Route>, id: nat, body: UpdateBody, userId: Option<string>): Outcome
  {
    if BlankOwner(userId) then Refused(routes, Required("userId"))
    else if !Found(routes, id, userId) then Refused(routes, RouteNotFound)
    else if Blank(body.sessionId) then Refused(routes, Required("sessionId"))
    else if Blank(body.source) then Refused(routes, Required("sourceGroupJid"))
    else if Blank(body.destination) then Refused(routes, Required("destinationGroupJid"))
    else
      var previous, route := routes[id].sessionId, Requested(routes[id], body);
      var error := CannotCreateRoute(plans, routes, route.userId, route.source, route.destination, Some(id));
      if route.source == route.destination then Refused(routes, SameGroup)
      else if route.active && ActivelyTaken(routes, route, id) then Refused(routes, Duplicate)
      else if route.active && error.Some? then Refused(routes, error.value)
      else if Taken(routes, route, Some(id)) then Refused(routes, Duplicate)
      else Outcome(routes[id := route],
                   if route.sessionId == previous then [previous] else [previous, route.sessionId],
                   Success(id))
  }

  function SoftDeleted(routes: seq<Route>, id: nat, userId: Option<string>): Outcome {
    if BlankOwner(userId) then Refused(routes, Required("userId"))
    else if !Found(routes, id, userId) then Refused(routes, RouteNotFound)
    else Outcome(routes[id := routes[id].(active := false)], [routes[id].sessionId], Success(id))
  }

  function InvalidatedInOrder(c: RoutedGroupsCache.Cache, sessions: seq<string>): RoutedGroupsCache.Cache
    decreases |sessions|
  {
    if sessions == [] then c
    else InvalidatedInOrder(RoutedGroupsCache.Invalidated(c, sessions[0]), sessions[1..])
  }

  lemma InvalidatedPair(c: RoutedGroupsCache.Cache, first: string, second: string)
    ensures InvalidatedInOrder(c, [first]) == RoutedGroupsCache.Invalidated(c, first)
    ensures InvalidatedInOrder(c, [first, second])
         == RoutedGroupsCache.Invalidated(RoutedGroupsCache.Invalidated(c, first), second)
  {
    assert [first, second][1..] == [second] && [second][1..] == [];
    assert InvalidatedInOrder(RoutedGroupsCache.Invalidated(c, first), [second])
        == RoutedGroupsCache.Invalidated(RoutedGroupsCache.Invalidated(c, first), second);
  }

  class MessageRoutesService {
    var routes: seq<Route>
    var plans: map<string, Plan>
    const cache: RoutedGroupsCache.RoutedGroupsCacheService

    constructor (plans: map<string, Plan>, cache: RoutedGroupsCache.RoutedGroupsCacheService)
      ensures routes == [] && this.plans == plans && this.cache == cache
    {
      routes := [];
      this.plans := plans;
      this.cache := cache;
    }

    method Create(body: CreateBody) returns (result: Result<nat, RouteError>)
      modifies this`routes, cache
      ensures var outcome := Created(plans, old(routes), body);
              && routes == outcome.routes && result == outcome.result
              && cache.View() == InvalidatedInOrder(old(cache.View()), outcome.invalidated)
    {
      var route := Route(Trim(body.userId), Trim(body.sessionId), Trim(body.source), Trim(body.destination),
                         TrimOptional(body.inviteUrl), true);
      if route.userId == "" { return Failure(Required("userId")); }
      if route.sessionId == "" { return Failure(Required("sessionId")); }
      if route.source == "" { return Failure(Required("sourceGroupJid")); }
      if route.destination == "" { return Failure(Required("destinationGroupJid")); }
      if route.source == route.destination {
        return Failure(SameGroup);
      }
      var existing := FirstMatch(routes, (r: Route) => SameKey(r, route));
      if existing.Some? && routes[existing.value].active {
        return Failure(Duplicate);
      }
      var error := CannotCreateRoute(plans, routes, route.userId, route.source, route.destination, None);
      if error.Some? {
        return Failure(error.value);
      }
      InvalidatedPair(cache.View(), route.sessionId, route.sessionId);
      var id := Persist(route, existing);
      return Success(id);
    }

    /** Reactivates the existing row or inserts a new one. */
    method Persist(route: Route, existing: Option<nat>) returns (id: nat)
      requires route.active
      requires existing.Some? ==> existing.value < |routes| && SameKey(routes[existing.value], route)
      modifies this`routes, cache
      ensures id == if existing.Some? then existing.value else |old(routes)|
      ensures routes == if existing.Some? then old(routes)[id := WithLinkOf(route, old(routes)[id])]
                        else old(routes) + [route]
      ensures cache.View() == RoutedGroupsCache.Invalidated(old(cache.View()), route.sessionId)
    {
      if existing.Some? {
        var row := routes[existing.value];
        routes := routes[existing.value :=
          row.(active := true, inviteUrl := OrElse(route.inviteUrl, row.inviteUrl))];
        cache.Invalidate(routes[existing.value].sessionId);
        return existing.value;
      }
      routes := routes + [route];
      cache.Invalidate(route.sessionId);
      return |routes| - 1;
    }

    method Update(id: nat, body: UpdateBody, userId: Option<string>) returns (result: Result<nat, RouteError>)
      modifies this`routes, cache
      ensures var outcome := Updated(plans, old(routes), id, body, userId);
              && routes == outcome.routes && result == outcome.result
              && cache.View() == InvalidatedInOrder(old(cache.View()), outcome.invalidated)
    {
      if BlankOwner(userId) { return Failure(Required("userId")); }
      if !Found(routes, id, userId) {
        return Failure(RouteNotFound);
      }
      var previousSessionId := routes[id].sessionId;
      if Blank(body.sessionId) { return Failure(Required("sessionId")); }
      if Blank(body.source) { return Failure(Required("sourceGroupJid")); }
      if Blank(body.destination) { return Failure(Required("destinationGroupJid")); }
      var data := Requested(routes[id], body);
      if data.source == data.destination {
        return Failure(SameGroup);
      }
      if data.active {
        if ActivelyTaken(routes, data, id) {
          return Failure(Duplicate);
        }
        var error := CannotCreateRoute(plans, routes, data.userId, data.source, data.destination, Some(id));
        if error.Some? {
          return Failure(error.value);
        }
      }
      if Taken(routes, data, Some(id)) {
        return Failure(Duplicate);
      }
      routes := routes[id := data];
      InvalidatedPair(cache.View(), previousSessionId, data.sessionId);
      cache.Invalidate(previousSessionId);
      if data.sessionId != previousSessionId {
        cache.Invalidate(data.sessionId);
      }
      return Success(id);
    }

    method SoftDelete(id: nat, userId: Option<string>) returns (result: Result<nat, RouteError>)
      modifies this`routes, cache
      ensures var outcome := SoftDeleted(old(routes), id, userId);
              && routes == outcome.routes && result == outcome.result
              && cache.View() == InvalidatedInOrder(old(cache.View()), outcome.invalidated)
    {
      if BlankOwner(userId) { return Failure(Required("userId")); }
      if !Found(routes, id, userId) {
        return Failure(RouteNotFound);
      }
      routes := routes[id := routes[id].(active := false)];
      cache.Invalidate(routes[id].sessionId);
      return Success(id);
    }
  }

  // ---------------------------------------------------------------- what every sequence of calls keeps

  datatype Call =
    | Create(body: CreateBody)
    | Update(id: nat, change: UpdateBody, owner: Option<string>)
    | SoftDelete(id: nat, owner: Option<string>)

  function After(plans: map<string, Plan>, routes: seq<Route>, call: Call): seq<Route> {
    match call
    case Create(body) => Created(plans, routes, body).routes
    case Update(id, change, user) => Updated(plans, routes, id, change, user).routes
    case SoftDelete(id, user) => SoftDeleted(routes, id, user).routes
  }

  function Run(plans: map<string, Plan>, calls: seq<Call>): seq<Route> {
    if calls == [] then [] else After(plans, Run(plans, calls[..|calls| - 1]), calls[|calls| - 1])
  }

  ghost predicate WithinPlan(plans: map<string, Plan>, routes: seq<Route>, userId: string) {
    userId in plans ==>
      var limits := LimitsOf(plans[userId]);
      && Within(|ActiveSources(routes, userId, None)|, limits.maxSourceGroups)
      && Within(|ActiveDestinations(routes, userId, None)|, limits.maxDestinationGroups)
  }

  ghost predicate KeysUnique(routes: seq<Route>) {
    forall i, j | 0 <= i < |routes| && 0 <= j < |routes| :: SameKey(routes[i], routes[j]) ==> i == j
  }

  ghost predicate NoLoops(routes: seq<Route>) {
    forall r <- routes :: r.source != r.destination
  }

  lemma {:induction false} SubsetSize(a: set<string>, b: set<string>)
    requires a <= b
    ensures |a| <= |b|
    decreases |a|
  {
    if a != {} {
      var x :| x in a;
      SubsetSize(a - {x}, b - {x});
    }
  }

  /** Writing `route` at `id`, when it was admitted or is inactive, keeps its user within the plan. */
  lemma WriteKeepsPlan(plans: map<string, Plan>, routes: seq<Route>, id: nat, route: Route, userId: string)
    requires WithinPlan(plans, routes, userId) && id < |routes| && routes[id].userId == route.userId
    requires route.active ==>
               CannotCreateRoute(plans, routes, route.userId, route.source, route.destination, Some(id)).None?
    ensures WithinPlan(plans, routes[id := route], userId)
  {
    var next := routes[id := route];
    var sources, destinations := ActiveSources(next, userId, None), ActiveDestinations(next, userId, None);
    if userId == route.userId && route.active {
      SubsetSize(sources, ActiveSources(routes, userId, Some(id)) + {route.source});
      SubsetSize(destinations, ActiveDestinations(routes, userId, Some(id)) + {route.destination});
    } else {
      SubsetSize(sources, ActiveSources(routes, userId, None));
      SubsetSize(destinations, ActiveDestinations(routes, userId, None));
    }
  }

  lemma AppendedGroups(routes: seq<Route>, route: Route, userId: string)
    ensures var mine := userId == route.userId;
            && ActiveSources(routes + [route], userId, None)
               <= ActiveSources(routes, userId, None) + (if mine then {route.source} else {})
            && ActiveDestinations(routes + [route], userId, None)
               <= ActiveDestinations(routes, userId, None) + (if mine then {route.destination} else {})
  {
  }

  lemma AppendKeepsPlan(plans: map<string, Plan>, routes: seq<Route>, route: Route, userId: string)
    requires WithinPlan(plans, routes, userId)
    requires CannotCreateRoute(plans, routes, route.userId, route.source, route.destination, None).None?
    ensures WithinPlan(plans, routes + [route], userId)
  {
    AppendedGroups(routes, route, userId);
    var sources := ActiveSources(routes + [route], userId, None);
    var destinations := ActiveDestinations(routes + [route], userId, None);
    if userId == route.userId {
      SubsetSize(sources, ActiveSources(routes, userId, None) + {route.source});
      SubsetSize(destinations, ActiveDestinations(routes, userId, None) + {route.destination});
    } else {
      SubsetSize(sources, ActiveSources(routes, userId, None));
      SubsetSize(destinations, ActiveDestinations(routes, userId, None));
    }
  }

  /** Leaving a row out of the count never hurts, so admission without exclusion implies it with. */
  lemma ExclusionHelps(
    plans: map<string, Plan>, routes: seq<Route>, userId: string, source: string, destination: string, id: nat)
    requires CannotCreateRoute(plans, routes, userId, source, destination, None).None?
    ensures CannotCreateRoute(plans, routes, userId, source, destination, Some(id)).None?
  {
    SubsetSize(ActiveSources(routes, userId, Some(id)) + {source}, ActiveSources(routes, userId, None) + {source});
    SubsetSize(ActiveDestinations(routes, userId, Some(id)) + {destination},
               ActiveDestinations(routes, userId, None) + {destination});
  }

  /** A successful creation writes one admitted row, a new one or one with the same key. */
  lemma CreatedShape(plans: map<string, Plan>, routes: seq<Route>, body: CreateBody)
    requires Created(plans, routes, body).result.Success?
    ensures var outcome := Created(plans, routes, body);
            var id := outcome.result.value;
            && id < |outcome.routes| && id <= |routes|
            && var route := outcome.routes[id];
            && route.active && route.source != route.destination && outcome.invalidated == [route.sessionId]
            && outcome.routes == (if id < |routes| then routes[id := route] else routes + [route])
            && (if id < |routes| then SameKey(routes[id], route)
                else forall i | 0 <= i < |routes| :: !SameKey(routes[i], route))
            && CannotCreateRoute(plans, routes, route.userId, route.source, route.destination, None).None?
  {
  }

  lemma UpdatedShape(
    plans: map<string, Plan>, routes: seq<Route>, id: nat, body: UpdateBody, userId: Option<string>)
    requires Updated(plans, routes, id, body, userId).result.Success?
    ensures var outcome := Updated(plans, routes, id, body, userId);
            && id < |routes| == |outcome.routes|
            && var route := outcome.routes[id];
            && outcome.routes == routes[id := route] && route.userId == routes[id].userId
            && route.source != route.destination && !Taken(routes, route, Some(id))
            && (route.active ==>
                  CannotCreateRoute(plans, routes, route.userId, route.source, route.destination, Some(id)).None?)
            && outcome.invalidated == if route.sessionId == routes[id].sessionId then [route.sessionId]
                                      else [routes[id].sessionId, route.sessionId]
  {
  }

  lemma CallKeepsPlan(plans: map<string, Plan>, routes: seq<Route>, call: Call, userId: string)
    requires WithinPlan(plans, routes, userId)
    ensures WithinPlan(plans, After(plans, routes, call), userId)
  {
    match call
    case Create(body) =>
      var outcome := Created(plans, routes, body);
      if outcome.result.Success? {
        CreatedShape(plans, routes, body);
        var id := outcome.result.value;
        var route := outcome.routes[id];
        if id == |routes| {
          AppendKeepsPlan(plans, routes, route, userId);
        } else {
          ExclusionHelps(plans, routes, route.userId, route.source, route.destination, id);
          WriteKeepsPlan(plans, routes, id, route, userId);
        }
      }
    case Update(id, change, user) =>
      if Updated(plans, routes, id, change, user).result.Success? {
        UpdatedShape(plans, routes, id, change, user);
        WriteKeepsPlan(plans, routes, id, Updated(plans, routes, id, change, user).routes[id], userId);
      }
    case SoftDelete(id, user) =>
      if Found(routes, id, user) {
        WriteKeepsPlan(plans, routes, id, routes[id].(active := false), userId);
      }
  }

  lemma WriteKeepsKeys(routes: seq<Route>, id: nat, route: Route)
    requires KeysUnique(routes) && NoLoops(routes) && id < |routes|
    requires !Taken(routes, route, Some(id)) && route.source != route.destination
    ensures KeysUnique(routes[id := route]) && NoLoops(routes[id := route])
  {
    var next := routes[id := route];
    assert forall k | 0 <= k < |routes| && k != id :: !SameKey(routes[k], route) && next[k] == routes[k];
  }

  lemma AppendKeepsKeys(routes: seq<Route>, route: Route)
    requires KeysUnique(routes) && NoLoops(routes)
    requires (forall i | 0 <= i < |routes| :: !SameKey(routes[i], route)) && route.source != route.destination
    ensures KeysUnique(routes + [route]) && NoLoops(routes + [route])
  {
    var next := routes + [route];
    assert forall k | 0 <= k < |routes| :: next[k] == routes[k];
  }

  lemma CreationKeepsKeys(plans: map<string, Plan>, routes: seq<Route>, body: CreateBody)
    requires KeysUnique(routes) && NoLoops(routes) && Created(plans, routes, body).result.Success?
    ensures KeysUnique(Created(plans, routes, body).routes) && NoLoops(Created(plans, routes, body).routes)
  {
    CreatedShape(plans, routes, body);
    var id := Created(plans, routes, body).result.value;
    var route := Created(plans, routes, body).routes[id];
    if id == |routes| { AppendKeepsKeys(routes, route); } else { WriteKeepsKeys(routes, id, route); }
  }

  lemma DeletionKeepsKeys(routes: seq<Route>, id: nat)
    requires KeysUnique(routes) && NoLoops(routes) && id < |routes|
    ensures var next := routes[id := routes[id].(active := false)]; KeysUnique(next) && NoLoops(next)
  {
    assert routes[id] in routes;
    assert SameKey(routes[id], routes[id].(active := false));
    WriteKeepsKeys(routes, id, routes[id].(active := false));
  }

  lemma CallKeepsKeys(plans: map<string, Plan>, routes: seq<Route>, call: Call)
    requires KeysUnique(routes) && NoLoops(routes)
    ensures KeysUnique(After(plans, routes, call)) && NoLoops(After(plans, routes, call))
  {
    match call
    case Create(body) =>
      if Created(plans, routes, body).result.Success? { CreationKeepsKeys(plans, routes, body); }
    case Update(id, change, owner) =>
      if Updated(plans, routes, id, change, owner).result.Success? {
        UpdatedShape(plans, routes, id, change, owner);
        WriteKeepsKeys(routes, id, Updated(plans, routes, id, change, owner).routes[id]);
      }
    case SoftDelete(id, owner) =>
      if Found(routes, id, owner) { DeletionKeepsKeys(routes, id); }
  }

  /** Over every sequence of calls: the caps on distinct active groups hold for every user, no two rows,
      active or not, share user, session, source and destination, and no route feeds its own source. */
  lemma {:induction false} RunsStayWithinPlan(plans: map<string, Plan>, calls: seq<Call>, userId: string)
    ensures WithinPlan(plans, Run(plans, calls), userId)
    ensures KeysUnique(Run(plans, calls)) && NoLoops(Run(plans, calls))
    decreases |calls|
  {
    if calls == [] {
      assert ActiveSources([], userId, None) == {} && ActiveDestinations([], userId, None) == {};
    } else {
      var before := calls[..|calls| - 1];
      RunsStayWithinPlan(plans, before, userId);
      CallKeepsPlan(plans, Run(plans, before), calls[|calls| - 1], userId);
      CallKeepsKeys(plans, Run(plans, before), calls[|calls| - 1]);
    }
  }

  // ---------------------------------------------------------------- deleting and creating again

  /** The body that asks for a route, word for word. */
  function BodyOf(r: Route): CreateBody {
    CreateBody(r.userId, r.sessionId, r.source, r.destination, r.inviteUrl)
  }

  predicate Normalized(r: Route) {
    && r.userId != "" && r.sessionId != "" && r.source != "" && r.destination != ""
    && Trim(r.userId) == r.userId && Trim(r.sessionId) == r.sessionId
    && Trim(r.source) == r.source && Trim(r.destination) == r.destination
    && TrimOptional(r.inviteUrl) == r.inviteUrl
  }

  lemma AdmittedAgain(plans: map<string, Plan>, routes: seq<Route>, id: nat)
    requires id < |routes| && routes[id].active
    requires routes[id].userId in plans && WithinPlan(plans, routes, routes[id].userId)
    ensures CannotCreateRoute(plans, routes[id := routes[id].(active := false)], routes[id].userId,
                              routes[id].source, routes[id].destination, None).None?
  {
    var route := routes[id];
    var deleted := routes[id := route.(active := false)];
    SubsetSize(ActiveSources(deleted, route.userId, None) + {route.source}, ActiveSources(routes, route.userId, None));
    SubsetSize(ActiveDestinations(deleted, route.userId, None) + {route.destination},
               ActiveDestinations(routes, route.userId, None));
  }

  lemma FoundByKey(routes: seq<Route>, id: nat, route: Route)
    requires KeysUnique(routes) && id < |routes| && SameKey(routes[id], route)
    ensures FirstMatch(routes, (r: Route) => SameKey(r, route)) == Some(id)
  {
    var found := FirstMatch(routes, (r: Route) => SameKey(r, route));
    assert found.Some? && SameKey(routes[found.value], routes[id]);
  }

  /** Deleting an active route and asking for it again gives back the very same table, under the same id. */
  lemma CreateUndoesSoftDelete(plans: map<string, Plan>, routes: seq<Route>, id: nat)
    requires KeysUnique(routes) && NoLoops(routes) && id < |routes| && routes[id].active && Normalized(routes[id])
    requires routes[id].userId in plans && WithinPlan(plans, routes, routes[id].userId)
    ensures var deleted := SoftDeleted(routes, id, Some(routes[id].userId)).routes;
            Created(plans, deleted, BodyOf(routes[id])) == Outcome(routes, [routes[id].sessionId], Success(id))
  {
    var route := routes[id];
    var deleted := routes[id := route.(active := false)];
    assert deleted == SoftDeleted(routes, id, Some(route.userId)).routes;
    assert route in routes && routes[id := route] == routes;
    CallKeepsKeys(plans, routes, SoftDelete(id, Some(route.userId)));
    FoundByKey(deleted, id, route);
    AdmittedAgain(plans, routes, id);
    assert deleted[id := route] == routes;
  }
}
