/**
 * The feed records the agency layer reads and writes, and the behaviour it
 * inherits from the feed library's default agency tools (which are not part
 * of this model and therefore come in as a record of functions).
 */
module Gtfs {
  import opened Wrappers

  /** A route of the input feed: its `route_short_name` and its optional `route_color`. */
  datatype Route = Route(shortName: string, color: Option<string>)

  /** A `calendar` record; `S` is the type of service ids. */
  datatype Calendar<S> = Calendar(serviceId: S, startDate: int, endDate: int)

  /** A `calendar_dates` record. */
  datatype CalendarDate<S> = CalendarDate(serviceId: S, date: int, exceptionType: int)

  /** A trip of the input feed with the raw stop ids it visits, in order. */
  datatype Trip<S> = Trip(routeId: string, serviceId: S, headsign: string, stopIds: seq<string>)

  /** A route of the output, known by its numeric id. */
  datatype MRoute = MRoute(id: int)

  /** A trip of the output: one per route and direction. */
  datatype MTrip = MTrip(routeId: int, headsignType: int, headsign: string, directionId: int)

  /** A stop visit of an output trip, with the position the trip split gave it. */
  datatype MTripStop = MTripStop(directionId: int, stopId: string, stopSequence: nat)

  /** Where a trip split puts one stop visit: the output trip (by direction) and the position in it. */
  datatype Placement = Placement(directionId: int, stopSequence: nat)

  /** The overridable behaviour of the default agency tools that the ferry tools fall back to. */
  datatype Inherited<!S> = Inherited(
    excludeCalendar: Calendar<S> -> bool,
    excludeCalendarDate: CalendarDate<S> -> bool,
    excludeTrip: Trip<S> -> bool,
    routeColor: Route -> Option<string>,
    compareEarly: (int, MTripStop, MTripStop) -> int,
    splitTrip: (MRoute, Option<Trip<S>>) -> seq<MTrip>,
    splitTripStop: (MRoute, Trip<S>, nat) -> seq<Placement>)

  /** Why a run is aborted: the configuration no longer matches the feed. */
  datatype Reason =
    | UnexpectedStopId
    | UnexpectedStopCode
    | UnexpectedRouteId
    | UnexpectedRouteLongName
    | UnexpectedRouteShortName
    | UnexpectedTrip
}
