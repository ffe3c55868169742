/**
 * Route identity: the closed table from the feed's route short names to the
 * ferry routes' stable ids and names, and the route colour default.
 */
module RouteIdentity {
  import opened Wrappers
  import opened Gtfs

  const RID_ALD: int := 100_001
  const RID_WS: int := 100_002

  const FER_D: string := "FerD"
  const FER_W: string := "FerW"

  const RTS_ALD: string := "ALD"
  const RTS_WS: string := "WS"

  const RLN_ALD: string := "Alderney"
  const RLN_WS: string := "Woodside"

  /** `AGENCY_COLOR_BLUE`, the colour given to a route the feed gives none. */
  const DEFAULT_ROUTE_COLOR: string := "08215C"

  /** What the resolver gives one route: its numeric id, short name and long name. */
  datatype RouteIdentity = RouteIdentity(id: int, shortName: string, longName: string)

  /** The exact, case-sensitive lookup shared by `getRouteId`, `getRouteShortName` and `getRouteLongName`. */
  function Resolve(code: string): (r: Option<RouteIdentity>)
    ensures r.Some? <==> code == FER_D || code == FER_W
  {
    if code == FER_D then Some(RouteIdentity(RID_ALD, RTS_ALD, RLN_ALD))
    else if code == FER_W then Some(RouteIdentity(RID_WS, RTS_WS, RLN_WS))
    else None
  }

  /** Two codes that resolve give the same route only when they are the same code. */
  lemma ResolveInjective(c1: string, c2: string)
    requires Resolve(c1).Some? && Resolve(c2).Some?
    ensures Resolve(c1).value.id == Resolve(c2).value.id <==> c1 == c2
    ensures Resolve(c1).value.shortName == Resolve(c2).value.shortName <==> c1 == c2
    ensures Resolve(c1).value.longName == Resolve(c2).value.longName <==> c1 == c2
  {
  }

  /** `StringUtils.isEmpty` on the feed's (nullable) colour. */
  predicate IsEmptyColor(color: Option<string>) {
    color.None? || color.value == ""
  }

  /**
   * `getRouteColor`: the default colour when the feed gives none, otherwise
   * what the inherited getter makes of the route (which may be null).
   */
  function RouteColor(route: Route, inheritedColor: Route -> Option<string>): (r: Option<string>)
    ensures IsEmptyColor(route.color) ==> r == Some(DEFAULT_ROUTE_COLOR)
    ensures !IsEmptyColor(route.color) ==> r == inheritedColor(route)
  {
    if IsEmptyColor(route.color) then Some(DEFAULT_ROUTE_COLOR) else inheritedColor(route)
  }

  /** The inherited getter that passes the feed's colour through, null included. */
  function FeedColor(route: Route): Option<string> {
    route.color
  }

  /**
   * With the pass-through getter, the feed's colour is kept whenever it is
   * given, the result is the default colour exactly when the feed gives
   * none or gives that same colour, and it is never null or empty.
   */
  lemma RouteColorPassesFeedColor(route: Route)
    ensures !IsEmptyColor(route.color) ==> RouteColor(route, FeedColor) == route.color
    ensures RouteColor(route, FeedColor) == Some(DEFAULT_ROUTE_COLOR)
        <==> IsEmptyColor(route.color) || route.color.value == DEFAULT_ROUTE_COLOR
    ensures !IsEmptyColor(RouteColor(route, FeedColor))
  {
  }
}
