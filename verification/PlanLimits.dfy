/** Plans, their limits and the two admission checks (plan-limits.service.ts). */
module PlanLimits {
  import opened Wrappers

  datatype Plan = FREE | BASIC | PRO

  datatype Limits = Limits(
    maxWhatsAppSessions: nat,
    maxSourceGroups: Option<nat>,
    maxDestinationGroups: Option<nat>,
    adsEnabled: bool,
    dailyForwardLimit: Option<nat>)

  function LimitsOf(plan: Plan): Limits {
    match plan
    case FREE => Limits(1, Some(3), Some(1), true, Some(100))
    case BASIC => Limits(1, Some(10), Some(5), false, None)
    case PRO => Limits(5, None, None, false, None)
  }

  predicate Within(count: nat, limit: Option<nat>) {
    limit.None? || count <= limit.value
  }

  datatype Route = Route(
    userId: string,
    sessionId: string,
    source: string,
    destination: string,
    inviteUrl: Option<string>,
    active: bool)

  function ActiveSources(routes: seq<Route>, userId: string, exclude: Option<nat>): set<string> {
    set i | 0 <= i < |routes| && exclude != Some(i) && routes[i].userId == userId && routes[i].active ::
      routes[i].source
  }

  function ActiveDestinations(routes: seq<Route>, userId: string, exclude: Option<nat>): set<string> {
    set i | 0 <= i < |routes| && exclude != Some(i) && routes[i].userId == userId && routes[i].active ::
      routes[i].destination
  }

  function DistinctGroupCount(groups: set<string>, next: string): nat {
    |groups + {next}|
  }

  datatype RouteError =
    Required(field: string) | SameGroup | Duplicate | RouteNotFound | UserNotFound | PlanLimitReached

  /** `assertCanCreateRoute`: the error it throws, if any. */
  function CannotCreateRoute(
    plans: map<string, Plan>, routes: seq<Route>, userId: string, source: string, destination: string,
    exclude: Option<nat>)
    : Option<RouteError>
  {
    if userId !in plans then Some(UserNotFound)
    else
      var limits := LimitsOf(plans[userId]);
      var sourceGroups := DistinctGroupCount(ActiveSources(routes, userId, exclude), source);
      var destinationGroups := DistinctGroupCount(ActiveDestinations(routes, userId, exclude), destination);
      if Within(sourceGroups, limits.maxSourceGroups) && Within(destinationGroups, limits.maxDestinationGroups)
      then None
      else Some(PlanLimitReached)
  }
}
