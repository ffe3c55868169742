/**
 * The legacy snapshot of the Halifax Transit ferry agency tools. A run
 * fails by printing a message and calling `System.exit(-1)` (or by the
 * exceptions of `Integer.parseInt` and `printf`); here the failure is a
 * value. Service ids are strings.
 */
module HalifaxFerryLegacy {
  import opened Wrappers
  import opened Gtfs
  import opened StopIdentity
  import opened RouteIdentity
  import ServiceFilter
  import opened RouteTripSpecs

  /** The status every failure path passes to `System.exit`. */
  const EXIT_STATUS: int := -1

  /** How a run of this snapshot ends early. */
  datatype Failure =
    | Exit(status: int, reason: Reason)
    | NumberFormat(input: string)
    | MissingFormatArgument(specifier: string)

  // ---------------------------------------------------------------------
  // Stop identity

  /** `getStopId`: the value of the stop's digits. */
  function GetStopId(stopId: string): (r: Result<int, Failure>)
    ensures r.Ok? ==> 0 <= r.value <= INT_MAX
    ensures IsDigitsOnly(stopId) && r.Ok? ==> r.value == DigitsValue(stopId)
    ensures IsDigitsOnly(stopId) ==> (r.Err? <==> stopId == [] || DigitsValue(stopId) > INT_MAX)
    ensures stopId != [] && !HasDigit(stopId) ==> r == Err(Exit(EXIT_STATUS, UnexpectedStopId))
  {
    match StopDigits(stopId)
    case None => Err(Exit(EXIT_STATUS, UnexpectedStopId))
    case Some(d) =>
      match ParseDigits(d)
      case None => Err(NumberFormat(d))
      case Some(n) => Ok(n)
  }

  /** `getStopCode`: the stop's digits themselves. */
  function GetStopCode(stopId: string): (r: Result<string, Failure>)
    ensures IsDigitsOnly(stopId) ==> r == Ok(stopId)
    ensures r.Ok? ==> IsDigitsOnly(r.value) && exists start :: OccursAt(stopId, start, r.value)
    ensures r.Err? <==> stopId != [] && !HasDigit(stopId)
    ensures r.Err? ==> r.error == Exit(EXIT_STATUS, UnexpectedStopCode)
  {
    match StopDigits(stopId)
    case None => Err(Exit(EXIT_STATUS, UnexpectedStopCode))
    case Some(d) => Ok(d)
  }

  /** An id that is not digits only stands for its first maximal run of digits. */
  lemma StopIdOfFirstRun(stopId: string, start: nat, run: string)
    requires !IsDigitsOnly(stopId) && IsFirstMaximalRun(stopId, start, run)
    ensures GetStopCode(stopId) == Ok(run)
    ensures GetStopId(stopId) == if DigitsValue(run) <= INT_MAX then Ok(DigitsValue(run)) else Err(NumberFormat(run))
  {
    FindDigitsIsFirstMaximalRun(stopId, start, run);
  }

  /**
   * When both succeed the code parses back to the stop id; and a code that
   * parses means the stop id succeeds.
   */
  lemma StopCodeParsesToStopId(stopId: string)
    ensures GetStopId(stopId).Ok? ==> GetStopCode(stopId).Ok?
    ensures GetStopId(stopId).Ok? && GetStopCode(stopId).Ok? ==>
      ParseDigits(GetStopCode(stopId).value) == Some(GetStopId(stopId).value)
    ensures GetStopCode(stopId).Ok? && ParseDigits(GetStopCode(stopId).value).Some? ==>
      GetStopId(stopId) == Ok(ParseDigits(GetStopCode(stopId).value).value)
  {
  }

  // ---------------------------------------------------------------------
  // Route identity

  /**
   * `getRouteId` as written: for an unknown name, the message
   * "\nUnexpected route ID  for %s %s!\n" is given one argument for two
   * `%s`, so `printf` throws `MissingFormatArgumentException` and
   * `System.exit(-1)` is never reached.
   */
  function GetRouteIdAsWritten(route: Route): (r: Result<int, Failure>)
    ensures route.shortName == FER_D ==> r == Ok(RID_ALD)
    ensures route.shortName == FER_W ==> r == Ok(RID_WS)
    ensures route.shortName != FER_D && route.shortName != FER_W ==> r == Err(MissingFormatArgument("%s"))
  {
    match Resolve(route.shortName)
    case Some(identity) => Ok(identity.id)
    case None => Err(MissingFormatArgument("%s"))
  }

  /** `getRouteId` as intended: an unknown name prints the message and exits with -1. */
  function GetRouteId(route: Route): (r: Result<int, Failure>)
    ensures route.shortName == FER_D ==> r == Ok(RID_ALD)
    ensures route.shortName == FER_W ==> r == Ok(RID_WS)
    ensures route.shortName != FER_D && route.shortName != FER_W ==> r == Err(Exit(EXIT_STATUS, UnexpectedRouteId))
  {
    match Resolve(route.shortName)
    case Some(identity) => Ok(identity.id)
    case None => Err(Exit(EXIT_STATUS, UnexpectedRouteId))
  }

  /**
   * The two agree on the ferry codes; on every other code the written one
   * fails with a formatting exception instead of the exit status -1.
   */
  lemma RouteIdFailureAsWritten(route: Route)
    ensures GetRouteIdAsWritten(route).Ok? <==> GetRouteId(route).Ok?
    ensures GetRouteIdAsWritten(route).Ok? ==> GetRouteIdAsWritten(route) == GetRouteId(route)
    ensures GetRouteId(route).Err? ==> GetRouteIdAsWritten(route) != GetRouteId(route)
    ensures GetRouteIdAsWritten(Route("FerX", None)) == Err(MissingFormatArgument("%s"))
  {
  }

  /** `getRouteShortName`. */
  function GetRouteShortName(route: Route): (r: Result<string, Failure>)
    ensures route.shortName == FER_D ==> r == Ok(RTS_ALD)
    ensures route.shortName == FER_W ==> r == Ok(RTS_WS)
    ensures route.shortName != FER_D && route.shortName != FER_W ==> r == Err(Exit(EXIT_STATUS, UnexpectedRouteShortName))
  {
    match Resolve(route.shortName)
    case Some(identity) => Ok(identity.shortName)
    case None => Err(Exit(EXIT_STATUS, UnexpectedRouteShortName))
  }

  /** `getRouteLongName`. */
  function GetRouteLongName(route: Route): (r: Result<string, Failure>)
    ensures route.shortName == FER_D ==> r == Ok(RLN_ALD)
    ensures route.shortName == FER_W ==> r == Ok(RLN_WS)
    ensures route.shortName != FER_D && route.shortName != FER_W ==> r == Err(Exit(EXIT_STATUS, UnexpectedRouteLongName))
  {
    match Resolve(route.shortName)
    case Some(identity) => Ok(identity.longName)
    case None => Err(Exit(EXIT_STATUS, UnexpectedRouteLongName))
  }

  /** `getRouteColor`. */
  function GetRouteColor(route: Route, inherited: Inherited<string>): (r: Option<string>)
    ensures IsEmptyColor(route.color) ==> r == Some(DEFAULT_ROUTE_COLOR)
    ensures !IsEmptyColor(route.color) ==> r == inherited.routeColor(route)
  {
    RouteColor(route, inherited.routeColor)
  }

  // ---------------------------------------------------------------------
  // Service filter

  /** The agency tools object, with the `String` service ids `start` computes. */
  class AgencyTools {
    /** `serviceIds`: None until `start` has run, or when no set could be computed. */
    var serviceIds: Option<set<string>>
    const inherited: Inherited<string>

    constructor (inherited: Inherited<string>)
      ensures this.inherited == inherited
      ensures serviceIds == None
    {
      this.inherited := inherited;
      serviceIds := None;
    }

    /** The part of `start` that matters here: keep the set the feed library extracted. */
    method Start(extracted: Option<set<string>>)
      modifies this`serviceIds
      ensures serviceIds == extracted
    {
      serviceIds := extracted;
    }

    /** `excludingAll`. */
    predicate ExcludingAll()
      reads this
      ensures ExcludingAll() <==> serviceIds.Some? && |serviceIds.value| == 0
    {
      ServiceFilter.ExcludingAll(serviceIds)
    }

    /** `excludeCalendar`. */
    predicate ExcludeCalendar(c: Calendar<string>)
      reads this
      ensures serviceIds.Some? ==> (ExcludeCalendar(c) <==> c.serviceId !in serviceIds.value)
      ensures serviceIds.None? ==> (ExcludeCalendar(c) <==> inherited.excludeCalendar(c))
    {
      ServiceFilter.ExcludeCalendar(serviceIds, inherited, c)
    }

    /** `excludeCalendarDate`. */
    predicate ExcludeCalendarDate(d: CalendarDate<string>)
      reads this
      ensures serviceIds.Some? ==> (ExcludeCalendarDate(d) <==> d.serviceId !in serviceIds.value)
      ensures serviceIds.None? ==> (ExcludeCalendarDate(d) <==> inherited.excludeCalendarDate(d))
    {
      ServiceFilter.ExcludeCalendarDate(serviceIds, inherited, d)
    }

    /** `excludeTrip`. */
    predicate ExcludeTrip(t: Trip<string>)
      reads this
      ensures serviceIds.Some? ==> (ExcludeTrip(t) <==> t.serviceId !in serviceIds.value)
      ensures serviceIds.None? ==> (ExcludeTrip(t) <==> inherited.excludeTrip(t))
    {
      ServiceFilter.ExcludeTrip(serviceIds, inherited, t)
    }
  }

  /** A set that is computed decides alone: records it holds are kept, all others excluded. */
  method StartWithServices(tools: AgencyTools, ids: set<string>, t: Trip<string>)
    modifies tools
    ensures !tools.ExcludingAll() <==> ids != {}
    ensures tools.ExcludeTrip(t) <==> t.serviceId !in ids
  {
    tools.Start(Some(ids));
  }

  // ---------------------------------------------------------------------
  // Route trip specifications

  /** The static initialiser, with its stop lists written as arrays. */
  method BuildAllRouteTrips() returns (allRouteTrips2: map<int, RouteTripSpec>)
    ensures allRouteTrips2 == ALL_ROUTE_TRIPS2
  {
    var map2: map<int, RouteTripSpec> := map[];
    var ald0: seq<string> := ["1073", "1074"];
    var ald1: seq<string> := ["1074", "1073"];
    map2 := map2[RID_ALD := RouteTripSpec(RID_ALD,
      DirectionSpec(0, HEADSIGN_TYPE_STRING, DARTMOUTH, ald0),
      DirectionSpec(1, HEADSIGN_TYPE_STRING, HALIFAX, ald1))];
    var ws0: seq<string> := ["1075", "1073"];
    var ws1: seq<string> := ["1073", "1075"];
    map2 := map2[RID_WS := RouteTripSpec(RID_WS,
      DirectionSpec(0, HEADSIGN_TYPE_STRING, HALIFAX, ws0),
      DirectionSpec(1, HEADSIGN_TYPE_STRING, WOODSIDE, ws1))];
    allRouteTrips2 := map2;
  }

  /** `setTripHeadsign`: nothing to do for a split route; any other route exits with -1. */
  function SetTripHeadsign(route: MRoute, trip: MTrip): (r: Result<MTrip, Failure>)
    ensures route.id in ALL_ROUTE_TRIPS2 ==> r == Ok(trip)
    ensures route.id !in ALL_ROUTE_TRIPS2 ==> r == Err(Exit(EXIT_STATUS, UnexpectedTrip))
  {
    if route.id in ALL_ROUTE_TRIPS2 then Ok(trip) else Err(Exit(EXIT_STATUS, UnexpectedTrip))
  }
}
