/**
 * The route trip specifications: for each ferry route, its two directions,
 * each with a headsign and a reference sequence of stop ids, and the
 * dispatch that sends those routes to the specification and every other
 * route to the inherited behaviour.
 *
 * How the feed library matches trips and stops against a specification is
 * not part of this model. In its place stands an oracle: a trip belongs to
 * the first direction whose reference sequence it can be walked along with
 * a cursor that only moves forward, each stop visit takes the reference
 * position the cursor reached, and visits compare by that position.
 */
module RouteTripSpecs {
  import opened Wrappers
  import opened Gtfs
  import opened RouteIdentity
  import StopIdentity

  /** `MTrip.HEADSIGN_TYPE_STRING`: the headsign is a plain label. */
  const HEADSIGN_TYPE_STRING: int := 0

  const WOODSIDE: string := "Woodside"
  const DARTMOUTH: string := "Dartmouth"
  const HALIFAX: string := "Halifax"

  /** One direction of a route: its id, its headsign and its reference stop sequence (`addTripSort`). */
  datatype DirectionSpec = DirectionSpec(directionId: int, headsignType: int, headsign: string, tripSort: seq<string>)

  /** A `RouteTripSpec`: a route with exactly two directions. */
  datatype RouteTripSpec = RouteTripSpec(routeId: int, dir0: DirectionSpec, dir1: DirectionSpec)

  const ALDERNEY_TRIPS: RouteTripSpec :=
    RouteTripSpec(RID_ALD,
      DirectionSpec(0, HEADSIGN_TYPE_STRING, DARTMOUTH, ["1073", "1074"]),
      DirectionSpec(1, HEADSIGN_TYPE_STRING, HALIFAX, ["1074", "1073"]))

  const WOODSIDE_TRIPS: RouteTripSpec :=
    RouteTripSpec(RID_WS,
      DirectionSpec(0, HEADSIGN_TYPE_STRING, HALIFAX, ["1075", "1073"]),
      DirectionSpec(1, HEADSIGN_TYPE_STRING, WOODSIDE, ["1073", "1075"]))

  /** `ALL_ROUTE_TRIPS2`, the table the static initialiser builds. */
  const ALL_ROUTE_TRIPS2: map<int, RouteTripSpec> := map[RID_ALD := ALDERNEY_TRIPS, RID_WS := WOODSIDE_TRIPS]

  function Reverse<T>(s: seq<T>): (r: seq<T>)
    ensures |r| == |s|
  {
    if s == [] then [] else Reverse(s[1..]) + [s[0]]
  }

  lemma {:induction false} ReverseAt<T>(s: seq<T>, k: nat)
    requires k < |s|
    ensures Reverse(s)[k] == s[|s| - 1 - k]
  {
    if k < |s| - 1 {
      ReverseAt(s[1..], k);
    }
  }

  /**
   * The table holds exactly the two ferry routes; each entry is filed
   * under its own route id, has directions 0 and 1 with distinct headsigns,
   * and its direction 1 runs direction 0's stops backwards.
   */
  lemma RouteTripTableShape()
    ensures ALL_ROUTE_TRIPS2.Keys == {RID_ALD, RID_WS}
    ensures forall id | id in ALL_ROUTE_TRIPS2 ::
      && ALL_ROUTE_TRIPS2[id].routeId == id
      && ALL_ROUTE_TRIPS2[id].dir0.directionId == 0
      && ALL_ROUTE_TRIPS2[id].dir1.directionId == 1
      && ALL_ROUTE_TRIPS2[id].dir0.headsign != ALL_ROUTE_TRIPS2[id].dir1.headsign
      && ALL_ROUTE_TRIPS2[id].dir1.tripSort == Reverse(ALL_ROUTE_TRIPS2[id].dir0.tripSort)
      && ALL_ROUTE_TRIPS2[id].dir1.tripSort != ALL_ROUTE_TRIPS2[id].dir0.tripSort
    ensures ALL_ROUTE_TRIPS2[RID_ALD].dir0.headsign == DARTMOUTH
    ensures ALL_ROUTE_TRIPS2[RID_ALD].dir0.tripSort == ["1073", "1074"]
    ensures ALL_ROUTE_TRIPS2[RID_ALD].dir1.headsign == HALIFAX
    ensures ALL_ROUTE_TRIPS2[RID_WS].dir0.headsign == HALIFAX
    ensures ALL_ROUTE_TRIPS2[RID_WS].dir0.tripSort == ["1075", "1073"]
    ensures ALL_ROUTE_TRIPS2[RID_WS].dir1.headsign == WOODSIDE
  {
    assert Reverse(["1073", "1074"]) == ["1074", "1073"] by {
      ReverseAt(["1073", "1074"], 0);
      ReverseAt(["1073", "1074"], 1);
    }
    assert Reverse(["1075", "1073"]) == ["1073", "1075"] by {
      ReverseAt(["1075", "1073"], 0);
      ReverseAt(["1075", "1073"], 1);
    }
  }

  /**
   * Every stop id of the table is digits only, so its stop code is the id
   * itself and its numeric stop id is its value.
   */
  lemma RouteTripTableStopsAreNumeric()
    ensures forall id, k | id in ALL_ROUTE_TRIPS2 && 0 <= k < |ALL_ROUTE_TRIPS2[id].dir0.tripSort| ::
      StopIdentity.IsDigitsOnly(ALL_ROUTE_TRIPS2[id].dir0.tripSort[k])
      && StopIdentity.StopDigits(ALL_ROUTE_TRIPS2[id].dir0.tripSort[k]) == Some(ALL_ROUTE_TRIPS2[id].dir0.tripSort[k])
    ensures forall id, k | id in ALL_ROUTE_TRIPS2 && 0 <= k < |ALL_ROUTE_TRIPS2[id].dir1.tripSort| ::
      StopIdentity.IsDigitsOnly(ALL_ROUTE_TRIPS2[id].dir1.tripSort[k])
      && StopIdentity.StopDigits(ALL_ROUTE_TRIPS2[id].dir1.tripSort[k]) == Some(ALL_ROUTE_TRIPS2[id].dir1.tripSort[k])
  {
  }

  /** Every route the resolver knows has an entry in the table, filed under the id the resolver gives. */
  lemma ResolvedRoutesHaveSpecs(code: string)
    requires Resolve(code).Some?
    ensures Resolve(code).value.id in ALL_ROUTE_TRIPS2
    ensures ALL_ROUTE_TRIPS2[Resolve(code).value.id].routeId == Resolve(code).value.id
  {
  }

  // ---------------------------------------------------------------------
  // The matching oracle

  /** The first index at or after `cursor` where `ref` holds `stopId`. */
  function IndexFrom(ref: seq<string>, stopId: string, cursor: nat): (r: Option<nat>)
    ensures r.Some? ==> cursor <= r.value < |ref| && ref[r.value] == stopId
    ensures r.Some? ==> forall j :: cursor <= j < r.value ==> ref[j] != stopId
    ensures r.None? ==> forall j :: cursor <= j < |ref| ==> ref[j] != stopId
    decreases |ref| - cursor
  {
    if cursor >= |ref| then None
    else if ref[cursor] == stopId then Some(cursor)
    else IndexFrom(ref, stopId, cursor + 1)
  }

  /**
   * `ps` places the visits `stops` on the reference sequence `ref`: each
   * visit at a reference position holding its stop, positions never going
   * back, and none before `cursor`.
   */
  ghost predicate IsMonotonePlacement(ref: seq<string>, stops: seq<string>, ps: seq<nat>, cursor: nat) {
    && |ps| == |stops|
    && (forall k :: 0 <= k < |ps| ==> cursor <= ps[k] < |ref| && ref[ps[k]] == stops[k])
    && (forall k :: 0 < k < |ps| ==> ps[k - 1] <= ps[k])
  }

  /** Walk `stops` along `ref` with a forward-only cursor, each visit taking the first match at or after it. */
  function PlaceFrom(ref: seq<string>, stops: seq<string>, cursor: nat): (r: Option<seq<nat>>)
    ensures r.Some? ==> IsMonotonePlacement(ref, stops, r.value, cursor)
    decreases |stops|
  {
    if stops == [] then Some([])
    else
      match IndexFrom(ref, stops[0], cursor)
      case None => None
      case Some(i) =>
        match PlaceFrom(ref, stops[1..], i)
        case None => None
        case Some(rest) => Some([i] + rest)
  }

  /** A placement that is valid from some cursor is also valid from any earlier one. */
  lemma PlacementFromEarlierCursor(ref: seq<string>, stops: seq<string>, ps: seq<nat>, c: nat, c': nat)
    requires IsMonotonePlacement(ref, stops, ps, c) && c' <= c
    ensures IsMonotonePlacement(ref, stops, ps, c')
  {
  }

  /**
   * The forward walk is complete and takes the earliest positions: whenever
   * some monotone placement exists, the walk succeeds, and each of its
   * positions is at or before that placement's.
   */
  lemma {:induction false} PlaceFromComplete(ref: seq<string>, stops: seq<string>, qs: seq<nat>, cursor: nat)
    requires IsMonotonePlacement(ref, stops, qs, cursor)
    ensures PlaceFrom(ref, stops, cursor).Some?
    ensures forall k :: 0 <= k < |qs| ==> PlaceFrom(ref, stops, cursor).value[k] <= qs[k]
    decreases |stops|
  {
    if stops != [] {
      var i := IndexFrom(ref, stops[0], cursor);
      assert ref[qs[0]] == stops[0] && cursor <= qs[0];
      assert i.Some? && i.value <= qs[0];
      var tail := qs[1..];
      assert IsMonotonePlacement(ref, stops[1..], tail, qs[0]) by {
        forall k | 0 <= k < |tail| ensures qs[0] <= tail[k] {
          var m := 0;
          while m < k + 1
            invariant 0 <= m <= k + 1
            invariant qs[0] <= qs[m]
          {
            m := m + 1;
          }
        }
      }
      PlacementFromEarlierCursor(ref, stops[1..], tail, qs[0], i.value);
      PlaceFromComplete(ref, stops[1..], tail, i.value);
      var rest := PlaceFrom(ref, stops[1..], i.value).value;
      assert PlaceFrom(ref, stops, cursor) == Some([i.value] + rest);
    }
  }

  /**
   * Trip classification: the first direction (0, then 1) along whose
   * reference sequence the trip's stops can be walked; None when neither fits.
   */
  function Classify(spec: RouteTripSpec, stops: seq<string>): (r: Option<DirectionSpec>)
    ensures r.Some? ==> r.value == spec.dir0 || r.value == spec.dir1
    ensures r.Some? ==> PlaceFrom(r.value.tripSort, stops, 0).Some?
  {
    if PlaceFrom(spec.dir0.tripSort, stops, 0).Some? then Some(spec.dir0)
    else if PlaceFrom(spec.dir1.tripSort, stops, 0).Some? then Some(spec.dir1)
    else None
  }

  /** A trip is classified exactly when one of the two directions admits a monotone placement of it. */
  lemma ClassifyComplete(spec: RouteTripSpec, stops: seq<string>, d: DirectionSpec, qs: seq<nat>)
    requires d == spec.dir0 || d == spec.dir1
    requires IsMonotonePlacement(d.tripSort, stops, qs, 0)
    ensures Classify(spec, stops).Some?
    ensures d == spec.dir0 ==> Classify(spec, stops) == Some(spec.dir0)
  {
    PlaceFromComplete(d.tripSort, stops, qs, 0);
  }

  /** Why the splitting of a trip fails: no direction of the specification fits it. */
  datatype SplitFailure = NoDirectionMatches

  /**
   * The oracle's `splitTripStop` for the visit at `index` of a trip: the
   * direction the trip is classified in, and the reference position that
   * the forward walk gives the visit.
   */
  function PlaceStop(spec: RouteTripSpec, stops: seq<string>, index: nat): (r: Result<Placement, SplitFailure>)
    requires index < |stops|
    ensures r.Err? <==> Classify(spec, stops).None?
    ensures r.Ok? ==>
      var d := Classify(spec, stops).value;
      && d.directionId == r.value.directionId
      && r.value.stopSequence < |d.tripSort|
      && d.tripSort[r.value.stopSequence] == stops[index]
  {
    match Classify(spec, stops)
    case None => Err(NoDirectionMatches)
    case Some(d) =>
      var ps := PlaceFrom(d.tripSort, stops, 0).value;
      Ok(Placement(d.directionId, ps[index]))
  }

  /** Within one trip, later visits never get an earlier position than earlier visits (the monotone cursor). */
  lemma PlaceStopMonotone(spec: RouteTripSpec, stops: seq<string>, i: nat, j: nat)
    requires i <= j < |stops|
    requires Classify(spec, stops).Some?
    ensures PlaceStop(spec, stops, i).Ok? && PlaceStop(spec, stops, j).Ok?
    ensures PlaceStop(spec, stops, i).value.directionId == PlaceStop(spec, stops, j).value.directionId
    ensures PlaceStop(spec, stops, i).value.stopSequence <= PlaceStop(spec, stops, j).value.stopSequence
  {
    var ps := PlaceFrom(Classify(spec, stops).value.tripSort, stops, 0).value;
    var m := i;
    while m < j
      invariant i <= m <= j
      invariant ps[i] <= ps[m]
    {
      m := m + 1;
    }
  }

  /** The oracle's `RouteTripSpec.compare`: visits order by the position the split gave them. */
  function ComparePositions(ts1: MTripStop, ts2: MTripStop): (r: int)
    ensures r < 0 <==> ts1.stopSequence < ts2.stopSequence
    ensures r > 0 <==> ts1.stopSequence > ts2.stopSequence
    ensures -1 <= r <= 1
  {
    if ts1.stopSequence < ts2.stopSequence then -1
    else if ts1.stopSequence > ts2.stopSequence then 1
    else 0
  }

  /** The comparison is antisymmetric and transitive, so it is a consistent ordering. */
  lemma ComparePositionsOrdering(a: MTripStop, b: MTripStop, c: MTripStop)
    ensures ComparePositions(a, b) == -ComparePositions(b, a)
    ensures ComparePositions(a, b) <= 0 && ComparePositions(b, c) <= 0 ==> ComparePositions(a, c) <= 0
    ensures ComparePositions(a, a) == 0
  {
  }

  /** `getAllTrips`: one output trip per direction, carrying the direction's own headsign. */
  function AllTrips(spec: RouteTripSpec): (r: seq<MTrip>)
    ensures |r| == 2
    ensures r[0] == MTrip(spec.routeId, spec.dir0.headsignType, spec.dir0.headsign, spec.dir0.directionId)
    ensures r[1] == MTrip(spec.routeId, spec.dir1.headsignType, spec.dir1.headsign, spec.dir1.directionId)
  {
    [MTrip(spec.routeId, spec.dir0.headsignType, spec.dir0.headsign, spec.dir0.directionId),
     MTrip(spec.routeId, spec.dir1.headsignType, spec.dir1.headsign, spec.dir1.directionId)]
  }

  // ---------------------------------------------------------------------
  // The dispatch of the agency tools (the same in both snapshots)

  /** `compareEarly`: routes of the table compare by the specification, all others as inherited. */
  function CompareEarly<S>(routeId: int, ts1: MTripStop, ts2: MTripStop, inherited: Inherited<S>): (r: int)
    ensures routeId in ALL_ROUTE_TRIPS2 ==> (r < 0 <==> ts1.stopSequence < ts2.stopSequence)
    ensures routeId in ALL_ROUTE_TRIPS2 ==> (r == 0 <==> ts1.stopSequence == ts2.stopSequence)
    ensures routeId !in ALL_ROUTE_TRIPS2 ==> r == inherited.compareEarly(routeId, ts1, ts2)
  {
    if routeId in ALL_ROUTE_TRIPS2 then ComparePositions(ts1, ts2) else inherited.compareEarly(routeId, ts1, ts2)
  }

  /** `splitTrip`: a route of the table yields its specification's two trips, whatever the raw trip. */
  function SplitTrip<S>(route: MRoute, trip: Option<Trip<S>>, inherited: Inherited<S>): (r: seq<MTrip>)
    ensures route.id in ALL_ROUTE_TRIPS2 ==> r == AllTrips(ALL_ROUTE_TRIPS2[route.id])
    ensures route.id !in ALL_ROUTE_TRIPS2 ==> r == inherited.splitTrip(route, trip)
  {
    if route.id in ALL_ROUTE_TRIPS2 then AllTrips(ALL_ROUTE_TRIPS2[route.id]) else inherited.splitTrip(route, trip)
  }

  /** `splitTripStop`: a route of the table places the visit by its specification, all others as inherited. */
  function SplitTripStop<S>(route: MRoute, trip: Trip<S>, index: nat, inherited: Inherited<S>)
    : (r: Result<seq<Placement>, SplitFailure>)
    requires index < |trip.stopIds|
    ensures route.id in ALL_ROUTE_TRIPS2 ==>
      match PlaceStop(ALL_ROUTE_TRIPS2[route.id], trip.stopIds, index)
      case Ok(p) => r == Ok([p])
      case Err(e) => r == Err(e)
    ensures route.id !in ALL_ROUTE_TRIPS2 ==> r == Ok(inherited.splitTripStop(route, trip, index))
  {
    if route.id in ALL_ROUTE_TRIPS2 then
      match PlaceStop(ALL_ROUTE_TRIPS2[route.id], trip.stopIds, index)
      case Ok(p) => Ok([p])
      case Err(e) => Err(e)
    else Ok(inherited.splitTripStop(route, trip, index))
  }

  /**
   * Every ferry route splits into exactly two output trips, directions 0
   * and 1, carrying their directions' headsigns and the route's id.
   */
  lemma FerryRoutesSplitInTwo<S>(route: MRoute, trip: Option<Trip<S>>, inherited: Inherited<S>)
    requires route.id in ALL_ROUTE_TRIPS2
    ensures |SplitTrip(route, trip, inherited)| == 2
    ensures SplitTrip(route, trip, inherited)[0].directionId == 0
    ensures SplitTrip(route, trip, inherited)[1].directionId == 1
    ensures forall k | 0 <= k < 2 :: SplitTrip(route, trip, inherited)[k].routeId == route.id
    ensures SplitTrip(route, trip, inherited)[0].headsign != SplitTrip(route, trip, inherited)[1].headsign
  {
    RouteTripTableShape();
  }

  /** A trip of the Alderney route that goes 1073 then 1074 runs in direction 0, towards Dartmouth. */
  lemma AlderneyForwardTrip()
    ensures Classify(ALDERNEY_TRIPS, ["1073", "1074"]) == Some(ALDERNEY_TRIPS.dir0)
  {
    ClassifyComplete(ALDERNEY_TRIPS, ["1073", "1074"], ALDERNEY_TRIPS.dir0, [0, 1]);
  }

  /** The Alderney trip that goes 1074 then 1073 does not fit direction 0 and runs in direction 1, towards Halifax. */
  lemma AlderneyBackwardTrip()
    ensures Classify(ALDERNEY_TRIPS, ["1074", "1073"]) == Some(ALDERNEY_TRIPS.dir1)
  {
    var ref := ALDERNEY_TRIPS.dir0.tripSort;
    var stops := ["1074", "1073"];
    assert ref[0] != "1074" && ref[1] == "1074";
    assert IndexFrom(ref, stops[0], 0) == Some(1);
    assert ref[1] != "1073";
    assert IndexFrom(ref, "1073", 1).None?;
    assert stops[1..] == ["1073"];
    assert PlaceFrom(ref, stops[1..], 1).None?;
    assert PlaceFrom(ref, stops, 0).None?;
    ClassifyComplete(ALDERNEY_TRIPS, stops, ALDERNEY_TRIPS.dir1, [0, 1]);
  }

  /** A trip through a stop the Alderney route does not serve fits neither direction. */
  lemma AlderneyForeignTrip()
    ensures Classify(ALDERNEY_TRIPS, ["1075"]).None?
  {
    var r0 := ALDERNEY_TRIPS.dir0.tripSort;
    var r1 := ALDERNEY_TRIPS.dir1.tripSort;
    assert r0[0] != "1075" && r0[1] != "1075";
    assert r1[0] != "1075" && r1[1] != "1075";
    assert IndexFrom(r0, "1075", 0).None?;
    assert IndexFrom(r1, "1075", 0).None?;
  }

  /**
   * Tie-break: at stop 1073, which both Woodside directions share, a visit
   * placed at reference position 0 sorts before one placed at position 1.
   */
  lemma TieBreakAtSharedStop<S>(inherited: Inherited<S>)
    ensures CompareEarly(RID_WS, MTripStop(1, "1073", 0), MTripStop(0, "1073", 1), inherited) < 0
  {
  }
}
