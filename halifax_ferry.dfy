/**
 * The current snapshot of the Halifax Transit ferry agency tools. A run
 * fails by throwing `MTLog.Fatal` (or the `NumberFormatException` of
 * `Integer.parseInt`); here the failure is a value. Service ids are integers.
 */
module HalifaxFerry {
  import opened Wrappers
  import opened Gtfs
  import opened StopIdentity
  import opened RouteIdentity
  import ServiceFilter
  import opened RouteTripSpecs

  /** How a run of this snapshot is aborted. */
  datatype Failure =
    | Fatal(reason: Reason)
    | NumberFormat(input: string)

  // ---------------------------------------------------------------------
  // Stop identity

  /** `getStopId`: the value of the stop's digits. */
  function GetStopId(stopId: string): (r: Result<int, Failure>)
    ensures r.Ok? ==> 0 <= r.value <= INT_MAX
    ensures IsDigitsOnly(stopId) && r.Ok? ==> r.value == DigitsValue(stopId)
    ensures IsDigitsOnly(stopId) ==> (r.Err? <==> stopId == [] || DigitsValue(stopId) > INT_MAX)
    ensures stopId != [] && !HasDigit(stopId) ==> r == Err(Fatal(UnexpectedStopId))
  {
    match StopDigits(stopId)
    case None => Err(Fatal(UnexpectedStopId))
    case Some(d) =>
      match ParseDigits(d)
      case None => Err(NumberFormat(d))
      case Some(n) => Ok(n)
  }

  /** `getStopCode`: the stop's digits themselves. */
  function GetStopCode(stopId: string): (r: Result<string, Failure>)
    ensures IsDigitsOnly(stopId) ==> r == Ok(stopId)
    ensures r.Ok? ==> IsDigitsOnly(r.value) && exists start :: OccursAt(stopId, start, r.value)
    ensures r.Err? <==> stopId != [] && !HasDigit(stopId)
    ensures r.Err? ==> r.error == Fatal(UnexpectedStopCode)
  {
    match StopDigits(stopId)
    case None => Err(Fatal(UnexpectedStopCode))
    case Some(d) => Ok(d)
  }

  /**
   * An id that is not digits only stands for its first maximal run of
   * digits, as code and, when it fits, as number.
   */
  lemma StopIdOfFirstRun(stopId: string, start: nat, run: string)
    requires !IsDigitsOnly(stopId) && IsFirstMaximalRun(stopId, start, run)
    ensures GetStopCode(stopId) == Ok(run)
    ensures GetStopId(stopId) == if DigitsValue(run) <= INT_MAX then Ok(DigitsValue(run)) else Err(NumberFormat(run))
  {
    FindDigitsIsFirstMaximalRun(stopId, start, run);
  }

  /**
   * Whenever the stop id succeeds, so does the stop code, and the code is
   * digits cut from the raw id that parse back to the stop id.
   */
  lemma StopCodeAgreesWithStopId(stopId: string)
    requires GetStopId(stopId).Ok?
    ensures GetStopCode(stopId).Ok?
    ensures ParseDigits(GetStopCode(stopId).value) == Some(GetStopId(stopId).value)
    ensures exists start :: OccursAt(stopId, start, GetStopCode(stopId).value)
  {
  }

  /** The digits "1073" have the value 1073. */
  lemma DigitsValueExample(d: string)
    requires d == "1073"
    ensures IsDigitsOnly(d) && DigitsValue(d) == 1073
  {
    assert d[..3] == "107" && d[..3][..2] == "10" && d[..3][..2][..1] == "1" && d[..3][..2][..1][..0] == "";
    assert DigitsValue("1") == 1;
    assert DigitsValue("10") == 10;
    assert DigitsValue("107") == 107;
  }

  /** The id "1073" is stop 1073 with code "1073". */
  lemma NumericStopIdExample(d: string)
    requires d == "1073"
    ensures GetStopId(d) == Ok(1073) && GetStopCode(d) == Ok(d)
  {
    DigitsValueExample(d);
  }

  /** The id "STOP_1073B" is stop 1073 with code "1073": the letters around the number are dropped. */
  lemma MixedStopIdExample(s: string, d: string)
    requires s == "STOP_1073B" && d == "1073"
    ensures GetStopId(s) == Ok(1073) && GetStopCode(s) == Ok(d)
  {
    DigitsValueExample(d);
    assert !IsDigit(s[0]);
    assert s[5..9] == d;
    assert IsFirstMaximalRun(s, 5, d);
    StopIdOfFirstRun(s, 5, d);
  }

  /** The id "STOP" has no digit, so both getters abort the run. */
  lemma StopIdWithoutDigitsExample(s: string)
    requires s == "STOP"
    ensures GetStopId(s) == Err(Fatal(UnexpectedStopId)) && GetStopCode(s) == Err(Fatal(UnexpectedStopCode))
  {
    assert !HasDigit(s);
  }

  // ---------------------------------------------------------------------
  // Route identity

  /** `getRouteId`: exact match on the feed's short name; any other name aborts the run. */
  function GetRouteId(route: Route): (r: Result<int, Failure>)
    ensures route.shortName == FER_D ==> r == Ok(RID_ALD)
    ensures route.shortName == FER_W ==> r == Ok(RID_WS)
    ensures route.shortName != FER_D && route.shortName != FER_W ==> r == Err(Fatal(UnexpectedRouteId))
  {
    match Resolve(route.shortName)
    case Some(identity) => Ok(identity.id)
    case None => Err(Fatal(UnexpectedRouteId))
  }

  /** `getRouteShortName`. */
  function GetRouteShortName(route: Route): (r: Result<string, Failure>)
    ensures route.shortName == FER_D ==> r == Ok(RTS_ALD)
    ensures route.shortName == FER_W ==> r == Ok(RTS_WS)
    ensures route.shortName != FER_D && route.shortName != FER_W ==> r == Err(Fatal(UnexpectedRouteShortName))
  {
    match Resolve(route.shortName)
    case Some(identity) => Ok(identity.shortName)
    case None => Err(Fatal(UnexpectedRouteShortName))
  }

  /** `getRouteLongName`. */
  function GetRouteLongName(route: Route): (r: Result<string, Failure>)
    ensures route.shortName == FER_D ==> r == Ok(RLN_ALD)
    ensures route.shortName == FER_W ==> r == Ok(RLN_WS)
    ensures route.shortName != FER_D && route.shortName != FER_W ==> r == Err(Fatal(UnexpectedRouteLongName))
  {
    match Resolve(route.shortName)
    case Some(identity) => Ok(identity.longName)
    case None => Err(Fatal(UnexpectedRouteLongName))
  }

  /** The three getters succeed and fail together: on exactly the two ferry codes. */
  lemma RouteGettersAgree(route: Route)
    ensures GetRouteId(route).Ok? <==> GetRouteShortName(route).Ok?
    ensures GetRouteId(route).Ok? <==> GetRouteLongName(route).Ok?
    ensures GetRouteId(route).Ok? <==> route.shortName in {FER_D, FER_W}
  {
  }

  /** `getRouteColor`. */
  function GetRouteColor(route: Route, inherited: Inherited<int>): (r: Option<string>)
    ensures IsEmptyColor(route.color) ==> r == Some(DEFAULT_ROUTE_COLOR)
    ensures !IsEmptyColor(route.color) ==> r == inherited.routeColor(route)
  {
    RouteColor(route, inherited.routeColor)
  }

  // ---------------------------------------------------------------------
  // Service filter

  /** The agency tools object: the set `start` computes drives the exclusions. */
  class AgencyTools {
    /** `serviceIdInts`: None until `start` has run, or when no set could be computed. */
    var serviceIdInts: Option<set<int>>
    const inherited: Inherited<int>

    constructor (inherited: Inherited<int>)
      ensures this.inherited == inherited
      ensures serviceIdInts == None
    {
      this.inherited := inherited;
      serviceIdInts := None;
    }

    /** The part of `start` that matters here: keep the set the feed library extracted. */
    method Start(extracted: Option<set<int>>)
      modifies this`serviceIdInts
      ensures serviceIdInts == extracted
    {
      serviceIdInts := extracted;
    }

    /** `excludingAll`. */
    predicate ExcludingAll()
      reads this
      ensures ExcludingAll() <==> serviceIdInts.Some? && |serviceIdInts.value| == 0
    {
      ServiceFilter.ExcludingAll(serviceIdInts)
    }

    /** `excludeCalendar`. */
    predicate ExcludeCalendar(c: Calendar<int>)
      reads this
      ensures serviceIdInts.Some? ==> (ExcludeCalendar(c) <==> c.serviceId !in serviceIdInts.value)
      ensures serviceIdInts.None? ==> (ExcludeCalendar(c) <==> inherited.excludeCalendar(c))
    {
      ServiceFilter.ExcludeCalendar(serviceIdInts, inherited, c)
    }

    /** `excludeCalendarDate`. */
    predicate ExcludeCalendarDate(d: CalendarDate<int>)
      reads this
      ensures serviceIdInts.Some? ==> (ExcludeCalendarDate(d) <==> d.serviceId !in serviceIdInts.value)
      ensures serviceIdInts.None? ==> (ExcludeCalendarDate(d) <==> inherited.excludeCalendarDate(d))
    {
      ServiceFilter.ExcludeCalendarDate(serviceIdInts, inherited, d)
    }

    /** `excludeTrip`. */
    predicate ExcludeTrip(t: Trip<int>)
      reads this
      ensures serviceIdInts.Some? ==> (ExcludeTrip(t) <==> t.serviceId !in serviceIdInts.value)
      ensures serviceIdInts.None? ==> (ExcludeTrip(t) <==> inherited.excludeTrip(t))
    {
      ServiceFilter.ExcludeTrip(serviceIdInts, inherited, t)
    }
  }

  /** Once `start` has found no useful service, every calendar, calendar date and trip is excluded. */
  method StartWithNoUsefulService(tools: AgencyTools, c: Calendar<int>, d: CalendarDate<int>, t: Trip<int>)
    modifies tools
    ensures tools.ExcludingAll()
    ensures tools.ExcludeCalendar(c) && tools.ExcludeCalendarDate(d) && tools.ExcludeTrip(t)
  {
    tools.Start(Some({}));
  }

  // ---------------------------------------------------------------------
  // Route trip specifications

  /** The static initialiser: `ALL_ROUTE_TRIPS2` is filled by two successive `put`s. */
  method BuildAllRouteTrips() returns (allRouteTrips2: map<int, RouteTripSpec>)
    ensures allRouteTrips2 == ALL_ROUTE_TRIPS2
  {
    var map2: map<int, RouteTripSpec> := map[];
    map2 := map2[RID_ALD := RouteTripSpec(RID_ALD,
      DirectionSpec(0, HEADSIGN_TYPE_STRING, DARTMOUTH, ["1073", "1074"]),
      DirectionSpec(1, HEADSIGN_TYPE_STRING, HALIFAX, ["1074", "1073"]))];
    map2 := map2[RID_WS := RouteTripSpec(RID_WS,
      DirectionSpec(0, HEADSIGN_TYPE_STRING, HALIFAX, ["1075", "1073"]),
      DirectionSpec(1, HEADSIGN_TYPE_STRING, WOODSIDE, ["1073", "1075"]))];
    allRouteTrips2 := map2;
  }

  /** `setTripHeadsign`: nothing to do for a split route; any other route aborts the run. */
  function SetTripHeadsign(route: MRoute, trip: MTrip): (r: Result<MTrip, Failure>)
    ensures route.id in ALL_ROUTE_TRIPS2 ==> r == Ok(trip)
    ensures route.id !in ALL_ROUTE_TRIPS2 ==> r == Err(Fatal(UnexpectedTrip))
  {
    if route.id in ALL_ROUTE_TRIPS2 then Ok(trip) else Err(Fatal(UnexpectedTrip))
  }

  /**
   * Every route the resolver accepts is a split route: it gets its two
   * direction trips and its headsigns are left as the directions set them.
   */
  lemma ResolvedRoutesAreSplit(route: Route, gTrip: Option<Trip<int>>, trip: MTrip, inherited: Inherited<int>)
    requires GetRouteId(route).Ok?
    ensures SetTripHeadsign(MRoute(GetRouteId(route).value), trip) == Ok(trip)
    ensures |SplitTrip(MRoute(GetRouteId(route).value), gTrip, inherited)| == 2
  {
    ResolvedRoutesHaveSpecs(route.shortName);
    FerryRoutesSplitInTwo(MRoute(GetRouteId(route).value), gTrip, inherited);
  }
}
