/** When the calls on routes succeed and what they leave, field by field, written out without the functions that
    compute it (message-routes.service.ts, plan-limits.service.ts). */
module RouteOutcomes {
  import opened Wrappers
  import opened Rows
  import opened PlanLimits
  import opened MessageRoutes

  // ---------------------------------------------------------------- trimming

  /** WhiteSpace and LineTerminator of ECMAScript (sections 12.2 and 12.3 of ECMA-262). */
  const SPACES :=
    "\t\n\U{0B}\U{0C}\r\U{20}\U{A0}\U{1680}\U{2000}\U{2001}\U{2002}\U{2003}\U{2004}\U{2005}\U{2006}\U{2007}"
    + "\U{2008}\U{2009}\U{200A}\U{2028}\U{2029}\U{202F}\U{205F}\U{3000}\U{FEFF}"

  lemma SpacesAre(c: char)
    ensures IsSpace(c) <==> c in SPACES
  {
    assert SPACES[0] == '\t' && SPACES[1] == '\n';
  }

  ghost predicate OnlySpaces(s: string) {
    forall c <- s :: IsSpace(c)
  }

  lemma OneMoreSpace(s: string, rest: string, k: nat)
    requires s != "" && rest == s[1..] && IsSpace(s[0]) && k <= |rest| && OnlySpaces(rest[..k])
    ensures rest[k..] == s[k + 1..] && OnlySpaces(s[..k + 1])
  {
    forall c <- s[..k + 1] ensures IsSpace(c) {
      var i :| 0 <= i < k + 1 && s[i] == c;
      if i > 0 { assert c == rest[..k][i - 1]; }
    }
  }

  lemma {:induction false} TrimStartCuts(s: string) returns (k: nat)
    ensures k <= |s| && TrimStart(s) == s[k..] && OnlySpaces(s[..k])
    ensures TrimStart(s) != "" ==> !IsSpace(TrimStart(s)[0])
    decreases |s|
  {
    k := 0;
    if s != "" && IsSpace(s[0]) {
      var rest := s[1..];
      k := TrimStartCuts(rest);
      OneMoreSpace(s, rest, k);
      k := k + 1;
    }
  }

  lemma OneMoreSpaceBehind(s: string, init: string, k: nat)
    requires s != "" && init == s[..|s| - 1] && IsSpace(s[|s| - 1]) && k <= |init| && OnlySpaces(init[k..])
    ensures init[..k] == s[..k] && OnlySpaces(s[k..])
  {
    forall c <- s[k..] ensures IsSpace(c) {
      var i :| k <= i < |s| && s[i] == c;
      if i < |init| { assert c == init[k..][i - k]; }
    }
  }

  lemma {:induction false} TrimEndCuts(s: string) returns (k: nat)
    ensures k <= |s| && TrimEnd(s) == s[..k] && OnlySpaces(s[k..])
    ensures TrimEnd(s) != "" ==> !IsSpace(TrimEnd(s)[|TrimEnd(s)| - 1])
    decreases |s|
  {
    k := |s|;
    if s != "" && IsSpace(s[|s| - 1]) {
      var init := s[..|s| - 1];
      k := TrimEndCuts(init);
      OneMoreSpaceBehind(s, init, k);
    }
  }

  lemma Pieces(s: string, rest: string, i: nat, k: nat)
    requires i + k <= |s| && rest == s[i..]
    ensures rest[..k] == s[i..i + k] && rest[k..] == s[i + k..]
  {
  }

  lemma CutAtBothEnds(s: string, start: string, trimmed: string, i: nat, k: nat)
    requires i <= |s| && start == s[i..] && OnlySpaces(s[..i])
    requires k <= |start| && trimmed == start[..k] && OnlySpaces(start[k..])
    ensures trimmed == s[i..i + k] && OnlySpaces(s[i + k..])
    ensures trimmed != "" ==> start != "" && trimmed[0] == start[0]
  {
    Pieces(s, start, i, k);
  }

  /** Trimming cuts off white space at both ends, all of it, and nothing else. */
  lemma TrimCutsSpaces(s: string) returns (i: nat, j: nat)
    ensures i <= j <= |s| && Trim(s) == s[i..j] && OnlySpaces(s[..i]) && OnlySpaces(s[j..])
    ensures Trim(s) != "" ==> !IsSpace(Trim(s)[0]) && !IsSpace(Trim(s)[|Trim(s)| - 1])
  {
    i := TrimStartCuts(s);
    var k := TrimEndCuts(TrimStart(s));
    CutAtBothEnds(s, TrimStart(s), Trim(s), i, k);
    j := i + k;
  }

  // ---------------------------------------------------------------- the caps

  function SourceCap(plan: Plan): Option<nat> {
    match plan case FREE => Some(3) case BASIC => Some(10) case PRO => None
  }

  function DestinationCap(plan: Plan): Option<nat> {
    match plan case FREE => Some(1) case BASIC => Some(5) case PRO => None
  }

  /** The active routes of the user, but for an excluded one. */
  ghost function ActiveRoutes(routes: seq<Route>, userId: string, exclude: Option<nat>): set<nat> {
    set i: nat | i < |routes| && Some(i) != exclude && routes[i].userId == userId && routes[i].active
  }

  /** With one more active route the user would have more distinct groups than the plan allows. */
  ghost predicate Exceeds(
    plan: Plan, routes: seq<Route>, userId: string, source: string, destination: string, exclude: Option<nat>)
  {
    var sources := set i <- ActiveRoutes(routes, userId, exclude) :: routes[i].source;
    var destinations := set i <- ActiveRoutes(routes, userId, exclude) :: routes[i].destination;
    || (SourceCap(plan).Some? && |sources + {source}| > SourceCap(plan).value)
    || (DestinationCap(plan).Some? && |destinations + {destination}| > DestinationCap(plan).value)
  }

  lemma GroupsOfActiveRoutes(routes: seq<Route>, userId: string, exclude: Option<nat>)
    ensures ActiveSources(routes, userId, exclude)
         == set i <- ActiveRoutes(routes, userId, exclude) :: routes[i].source
    ensures ActiveDestinations(routes, userId, exclude)
         == set i <- ActiveRoutes(routes, userId, exclude) :: routes[i].destination
  {
  }

  /** A route is admitted exactly if its user exists and stays within the plan. */
  lemma AdmissionIff(
    plans: map<string, Plan>, routes: seq<Route>, userId: string, source: string, destination: string,
    exclude: Option<nat>)
    ensures CannotCreateRoute(plans, routes, userId, source, destination, exclude)
         == if userId !in plans then Some(RouteError.UserNotFound)
            else if Exceeds(plans[userId], routes, userId, source, destination, exclude) then Some(PlanLimitReached)
            else None
  {
    GroupsOfActiveRoutes(routes, userId, exclude);
  }

  // ---------------------------------------------------------------- creation

  ghost predicate KeyOf(r: Route, userId: string, sessionId: string, source: string, destination: string) {
    (r.userId, r.sessionId, r.source, r.destination) == (userId, sessionId, source, destination)
  }

  /** The first row with the key, the only one when keys are unique. */
  ghost predicate FirstWithKey(
    routes: seq<Route>, k: nat, userId: string, sessionId: string, source: string, destination: string)
  {
    && k < |routes| && KeyOf(routes[k], userId, sessionId, source, destination)
    && forall i | 0 <= i < k :: !KeyOf(routes[i], userId, sessionId, source, destination)
  }

  /** An invite link of white space only counts as none. */
  function InviteOf(given: Option<string>): Option<string> {
    if given.Some? && Trim(given.value) != "" then Some(Trim(given.value)) else None
  }

  /** What a creation finds wrong with the request itself, the first fault counting. */
  function RequestFault(body: CreateBody): Option<RouteError> {
    if Trim(body.userId) == "" then Some(Required("userId"))
    else if Trim(body.sessionId) == "" then Some(Required("sessionId"))
    else if Trim(body.source) == "" then Some(Required("sourceGroupJid"))
    else if Trim(body.destination) == "" then Some(Required("destinationGroupJid"))
    else if Trim(body.source) == Trim(body.destination) then Some(SameGroup)
    else None
  }

  /** A creation whose key is new, or is that of row `k`. */
  ghost predicate KeyIsNew(routes: seq<Route>, body: CreateBody) {
    forall i | 0 <= i < |routes| ::
      !KeyOf(routes[i], Trim(body.userId), Trim(body.sessionId), Trim(body.source), Trim(body.destination))
  }

  ghost predicate KeyIsOf(routes: seq<Route>, body: CreateBody, k: nat) {
    FirstWithKey(routes, k, Trim(body.userId), Trim(body.sessionId), Trim(body.source), Trim(body.destination))
  }

  /** The row a creation asks for. */
  function Wanted(body: CreateBody): Route {
    Route(Trim(body.userId), Trim(body.sessionId), Trim(body.source), Trim(body.destination), InviteOf(body.inviteUrl),
          true)
  }

  /** The inactive row with the key made active: only a given link replaces its own. */
  function Reactivated(row: Route, body: CreateBody): Route {
    row.(active := true,
         inviteUrl := if InviteOf(body.inviteUrl).Some? then InviteOf(body.inviteUrl) else row.inviteUrl)
  }

  lemma ExistingIs(routes: seq<Route>, body: CreateBody, route: Route)
    requires SameKey(route, Wanted(body))
    ensures forall k: nat ::
              KeyIsOf(routes, body, k) <==> FirstMatch(routes, (r: Route) => SameKey(r, route)) == Some(k)
    ensures KeyIsNew(routes, body) <==> FirstMatch(routes, (r: Route) => SameKey(r, route)) == None
  {
    assert forall r :: (SameKey(r, route)
                        <==> KeyOf(r, Trim(body.userId), Trim(body.sessionId), Trim(body.source),
                                   Trim(body.destination)));
  }

  ghost predicate KeyIsActive(routes: seq<Route>, body: CreateBody) {
    exists k: nat :: KeyIsOf(routes, body, k) && routes[k].active
  }

  lemma KeyIsActiveIff(routes: seq<Route>, body: CreateBody)
    ensures var found := FirstMatch(routes, (r: Route) => SameKey(r, Wanted(body)));
            KeyIsActive(routes, body) <==> found.Some? && routes[found.value].active
  {
    ExistingIs(routes, body, Wanted(body));
  }

  lemma CreateRefusesFaults(plans: map<string, Plan>, routes: seq<Route>, body: CreateBody)
    requires RequestFault(body).Some?
    ensures Created(plans, routes, body) == Outcome(routes, [], Failure(RequestFault(body).value))
  {
  }

  /** A refused creation changes nothing and says why, the first reason counting. */
  lemma CreateRefusals(plans: map<string, Plan>, routes: seq<Route>, body: CreateBody)
    ensures var outcome := Created(plans, routes, body);
            var w := Wanted(body);
            && (outcome.result.Failure? ==> outcome.routes == routes && outcome.invalidated == [])
            && if RequestFault(body).Some? then outcome.result == Failure(RequestFault(body).value)
               else if KeyIsActive(routes, body) then outcome.result == Failure(Duplicate)
               else if w.userId !in plans then outcome.result == Failure(RouteError.UserNotFound)
               else if Exceeds(plans[w.userId], routes, w.userId, w.source, w.destination, None)
               then outcome.result == Failure(PlanLimitReached)
               else outcome.result.Success?
  {
    if RequestFault(body).Some? {
      CreateRefusesFaults(plans, routes, body);
    } else {
      var w := Wanted(body);
      KeyIsActiveIff(routes, body);
      AdmissionIff(plans, routes, w.userId, w.source, w.destination, None);
    }
  }

  /** A successful creation makes the inactive row with the key active or leaves the wanted one at the end, and
      invalidates its session. */
  lemma CreateLeaves(plans: map<string, Plan>, routes: seq<Route>, body: CreateBody)
    requires Created(plans, routes, body).result.Success?
    ensures var outcome := Created(plans, routes, body);
            && outcome.invalidated == [Trim(body.sessionId)]
            && (KeyIsNew(routes, body) ==>
                  outcome.result == Success(|routes|) && outcome.routes == routes + [Wanted(body)])
            && (forall k: nat :: KeyIsOf(routes, body, k) ==>
                  outcome.result == Success(k) && outcome.routes == routes[k := Reactivated(routes[k], body)])
  {
    ExistingIs(routes, body, Wanted(body));
  }

  // ---------------------------------------------------------------- update and deletion

  /** The route is there, and is of the owner when one is given; an empty owner counts as none. */
  ghost predicate IsFound(routes: seq<Route>, id: nat, owner: Option<string>) {
    id < |routes| && (owner in {None, Some("")} || routes[id].userId == Trim(owner.value))
  }

  ghost predicate IsBlank(field: Option<string>) {
    field.Some? && Trim(field.value) == ""
  }

  /** The row an update asks for: given fields trimmed, the others as they are, the owner always; a blank link counts
      as not given. */
  function Asked(row: Route, body: UpdateBody): Route {
    Route(
      row.userId,
      if body.sessionId.Some? then Trim(body.sessionId.value) else row.sessionId,
      if body.source.Some? then Trim(body.source.value) else row.source,
      if body.destination.Some? then Trim(body.destination.value) else row.destination,
      if InviteOf(body.inviteUrl).Some? then InviteOf(body.inviteUrl) else row.inviteUrl,
      if body.active.Some? then body.active.value else row.active)
  }

  lemma RequestedIsAsked(row: Route, body: UpdateBody)
    ensures Requested(row, body) == Asked(row, body)
  {
  }

  ghost predicate Collides(routes: seq<Route>, id: nat, row: Route) {
    exists i | 0 <= i < |routes| && i != id :: KeyOf(routes[i], row.userId, row.sessionId, row.source, row.destination)
  }

  ghost predicate CollidesActively(routes: seq<Route>, id: nat, row: Route) {
    exists i | 0 <= i < |routes| && i != id ::
      routes[i].active && KeyOf(routes[i], row.userId, row.sessionId, row.source, row.destination)
  }

  /** A refused update changes nothing and says why, the first reason counting. Only a route that is to be active is
      held against the plan; a key another row has is refused in any case. */
  lemma UpdateRefusals(
    plans: map<string, Plan>, routes: seq<Route>, id: nat, body: UpdateBody, owner: Option<string>)
    ensures var outcome := Updated(plans, routes, id, body, owner);
            && (outcome.result.Failure? ==> outcome.routes == routes && outcome.invalidated == [])
            && if owner.Some? && owner.value != "" && Trim(owner.value) == ""
               then outcome.result == Failure(Required("userId"))
               else if !IsFound(routes, id, owner) then outcome.result == Failure(RouteNotFound)
               else if IsBlank(body.sessionId) then outcome.result == Failure(Required("sessionId"))
               else if IsBlank(body.source) then outcome.result == Failure(Required("sourceGroupJid"))
               else if IsBlank(body.destination) then outcome.result == Failure(Required("destinationGroupJid"))
               else
                 var row := Asked(routes[id], body);
                 if row.source == row.destination then outcome.result == Failure(SameGroup)
                 else if row.active && CollidesActively(routes, id, row) then outcome.result == Failure(Duplicate)
                 else if row.active && row.userId !in plans then outcome.result == Failure(RouteError.UserNotFound)
                 else if row.active
                         && Exceeds(plans[row.userId], routes, row.userId, row.source, row.destination, Some(id))
                 then outcome.result == Failure(PlanLimitReached)
                 else if Collides(routes, id, row) then outcome.result == Failure(Duplicate)
                 else outcome.result == Success(id)
  {
    if IsFound(routes, id, owner) {
      var row := Asked(routes[id], body);
      RequestedIsAsked(routes[id], body);
      AdmissionIff(plans, routes, row.userId, row.source, row.destination, Some(id));
      CollisionsAre(routes, id, row);
    }
  }

  lemma CollisionsAre(routes: seq<Route>, id: nat, row: Route)
    ensures Taken(routes, row, Some(id)) <==> Collides(routes, id, row)
    ensures ActivelyTaken(routes, row, id) <==> CollidesActively(routes, id, row)
  {
    if Collides(routes, id, row) {
      var i :| 0 <= i < |routes| && i != id
        && KeyOf(routes[i], row.userId, row.sessionId, row.source, row.destination);
      assert SameKey(routes[i], row);
    }
    if CollidesActively(routes, id, row) {
      var i :| 0 <= i < |routes| && i != id && routes[i].active
        && KeyOf(routes[i], row.userId, row.sessionId, row.source, row.destination);
      assert SameKey(routes[i], row);
    }
  }

  /** A successful update leaves the row it asks for and no other change, and invalidates the session the route had
      and the one it has. */
  lemma UpdateLeaves(
    plans: map<string, Plan>, routes: seq<Route>, id: nat, body: UpdateBody, owner: Option<string>)
    requires Updated(plans, routes, id, body, owner).result.Success?
    ensures id < |routes|
    ensures var outcome := Updated(plans, routes, id, body, owner);
            var row := Asked(routes[id], body);
            && outcome.routes == routes[id := row]
            && outcome.invalidated == [routes[id].sessionId]
                                      + (if row.sessionId != routes[id].sessionId then [row.sessionId] else [])
  {
    UpdatedShape(plans, routes, id, body, owner);
    RequestedIsAsked(routes[id], body);
    assert Updated(plans, routes, id, body, owner).routes[id] == Requested(routes[id], body);
  }

  /** A deletion of a route that is there makes it inactive and invalidates its session. */
  lemma DeletionLeaves(routes: seq<Route>, id: nat, owner: Option<string>)
    ensures SoftDeleted(routes, id, owner)
         == if owner.Some? && owner.value != "" && Trim(owner.value) == ""
            then Outcome(routes, [], Failure(Required("userId")))
            else if !IsFound(routes, id, owner) then Outcome(routes, [], Failure(RouteNotFound))
            else Outcome(routes[id := routes[id].(active := false)], [routes[id].sessionId], Success(id))
  {
  }

  // ---------------------------------------------------------------- invite links

  lemma CreationKeepsLinks(plans: map<string, Plan>, routes: seq<Route>, body: CreateBody, id: nat)
    requires id < |routes| && routes[id].inviteUrl.Some?
    ensures id < |Created(plans, routes, body).routes| && Created(plans, routes, body).routes[id].inviteUrl.Some?
  {
  }

  lemma CallKeepsLinks(plans: map<string, Plan>, routes: seq<Route>, call: Call, id: nat)
    requires id < |routes| && routes[id].inviteUrl.Some?
    ensures id < |After(plans, routes, call)| && After(plans, routes, call)[id].inviteUrl.Some?
  {
    match call
    case Create(body) =>
      CreationKeepsLinks(plans, routes, body, id);
    case Update(u, change, owner) =>
      if Updated(plans, routes, u, change, owner).result.Success? { UpdateLeaves(plans, routes, u, change, owner); }
    case SoftDelete(_, _) =>
  }

  /** No call clears an invite link: in any sequence of calls a row that once had one has one ever after, though the
      update accepts null for it. */
  lemma {:induction false} LinksAreNeverCleared(plans: map<string, Plan>, calls: seq<Call>, n: nat, id: nat)
    requires n <= |calls| && id < |Run(plans, calls[..n])| && Run(plans, calls[..n])[id].inviteUrl.Some?
    ensures id < |Run(plans, calls)| && Run(plans, calls)[id].inviteUrl.Some?
    decreases |calls|
  {
    if n == |calls| {
      assert calls[..n] == calls;
    } else {
      var init := calls[..|calls| - 1];
      assert init[..n] == calls[..n];
      LinksAreNeverCleared(plans, init, n, id);
      CallKeepsLinks(plans, Run(plans, init), calls[|calls| - 1], id);
    }
  }
}
