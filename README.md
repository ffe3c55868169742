# Halifax Transit ferry agency tools, modelled in Dafny

This project models the agency-specific part of the MonTransit GTFS parser for
the Halifax Transit ferries: the class `HalifaxTransitFerryAgencyTools`. It
reads the Halifax GTFS feed and turns it into the app's data for the two
ferry routes, Alderney (`FerD`) and Woodside (`FerW`). The class comes in
two snapshots. The current one fails by throwing `MTLog.Fatal` and keys
services by integer ids. The legacy one prints a message and calls
`System.exit(-1)`, and keys services by string ids. Both are modelled.

The modules:

- `Wrappers`: `Option` and `Result`.
- `Gtfs`: the feed and output records the class reads and writes. It also holds
  `Inherited`, the behaviour of the parent class `DefaultAgencyTools`, given as functions.
- `StopIdentity`: the digits that stand for a raw stop id, and
  `Integer.parseInt` on them, including its failure above `Integer.MAX_VALUE`
  and on the empty string.
- `RouteIdentity`: the closed table from route short names to the route
  ids `100001`/`100002`, the names `ALD`/`WS` and `Alderney`/`Woodside`,
  and the default colour `08215C`.
- `ServiceFilter`: the exclusion of calendars, calendar dates and trips whose
  service is not among the useful ones computed at start.
- `RouteTripSpecs`: the `ALL_ROUTE_TRIPS2` table of the two routes' directions
  and reference stop sequences, the dispatch of `compareEarly`, `splitTrip`
  and `splitTripStop` to it, and an oracle for the feed library's matching.
  Under the oracle, a trip belongs to the first direction along which its stops
  can be walked with a forward-only cursor. Each visit takes the position that
  cursor reaches, and visits compare by that position.
- `StopNameCleaning`: the two fixed regular-expression steps of
  `cleanStopName`, `(ferry stop - )` case-insensitive and `( \([\d]+\)$)`,
  written out as functions.
- `HalifaxFerry` and `HalifaxFerryLegacy`: the two snapshots' getters, their
  failure values, and the agency tools object with its service-id field.

Failures are values. `HalifaxFerry.Failure` is `Fatal(reason)` or
`NumberFormat(input)`. `HalifaxFerryLegacy.Failure` is `Exit(-1, reason)`,
`NumberFormat(input)` or `MissingFormatArgument(specifier)`.

Neither cleaning step is idempotent. Cutting a `ferry stop - ` out of
`ferry stop ferry stop - - ` leaves a new match. Cutting the trailing number
out of `Pier (1) (2)` leaves another trailing number. The lemmas
`StopNameCleaning.RemoveFerryStopNotIdempotent` and
`StopNameCleaning.StripTrailingNumberNotIdempotent` prove both. This is how a
single `replaceAll` behaves, so it is stated as a property of the code, not as a defect.

## Model

| member | source | states |
|---|---|---|
| StopIdentity.FindDigits | src/main/java/org/mtransit/parser/ca_halifax_transit_ferry/HalifaxTransitFerryAgencyTools.java:254 | None exactly when the id has no digit; otherwise the first maximal run of digits and where it starts, as `find()`/`group()` yield |
| StopIdentity.FirstMaximalRunUnique | src/main/java/org/mtransit/parser/ca_halifax_transit_ferry/HalifaxTransitFerryAgencyTools.java:263-265 | only one run can be the first maximal run of digits in an id |
| StopIdentity.FindDigitsIsFirstMaximalRun | src/main/java/org/mtransit/parser/ca_halifax_transit_ferry/HalifaxTransitFerryAgencyTools.java:263-265 | the search returns exactly the first maximal run of digits |
| StopIdentity.StopDigits | src/main/java/org/mtransit/parser/ca_halifax_transit_ferry/HalifaxTransitFerryAgencyTools.java:257-267 | a digits-only id is kept whole; otherwise the first maximal run; nothing exactly when the id is non-empty and has no digit; the result is always digits cut from the id |
| StopIdentity.ParseDigits | src/main/java/org/mtransit/parser/ca_halifax_transit_ferry/HalifaxTransitFerryAgencyTools.java:261 | parseInt on digits: succeeds exactly when the string is non-empty and its decimal value is at most 2147483647 (leading zeros allowed), and then gives that value |
| StopIdentity.ShortDigitsParse | src/main/java/org/mtransit/parser/ca_halifax_transit_ferry/HalifaxTransitFerryAgencyTools.java:261 | every run of one to nine digits parses to its decimal value |
| HalifaxFerry.GetStopId | src/main/java/org/mtransit/parser/ca_halifax_transit_ferry/HalifaxTransitFerryAgencyTools.java:256-268 | the value is in int range; a digits-only id gives its own value, and fails exactly when empty or too large; an id without digits fails fatally as an unexpected stop id |
| HalifaxFerry.GetStopCode | src/main/java/org/mtransit/parser/ca_halifax_transit_ferry/HalifaxTransitFerryAgencyTools.java:271-283 | a digits-only id is its own code; any code is digits cut from the id; fails exactly when the id is non-empty and has no digit |
| HalifaxFerry.StopIdOfFirstRun | src/main/java/org/mtransit/parser/ca_halifax_transit_ferry/HalifaxTransitFerryAgencyTools.java:263-266 | a mixed id stands for its first maximal run of digits, for both the stop id and the stop code |
| HalifaxFerry.StopCodeAgreesWithStopId | src/main/java/org/mtransit/parser/ca_halifax_transit_ferry/HalifaxTransitFerryAgencyTools.java:256-283 | when the stop id succeeds, the stop code succeeds too and parses back to the stop id |
| HalifaxFerry.DigitsValueExample | src/main/java/org/mtransit/parser/ca_halifax_transit_ferry/HalifaxTransitFerryAgencyTools.java:261 | the digits "1073" have the value 1073 |
| HalifaxFerry.NumericStopIdExample | src/main/java/org/mtransit/parser/ca_halifax_transit_ferry/HalifaxTransitFerryAgencyTools.java:256-283 | "1073" is stop 1073 with code "1073" |
| HalifaxFerry.MixedStopIdExample | src/main/java/org/mtransit/parser/ca_halifax_transit_ferry/HalifaxTransitFerryAgencyTools.java:256-283 | "STOP_1073B" is stop 1073 with code "1073" |
| HalifaxFerry.StopIdWithoutDigitsExample | src/main/java/org/mtransit/parser/ca_halifax_transit_ferry/HalifaxTransitFerryAgencyTools.java:256-283 | "STOP" fails in both getters |
| RouteIdentity.Resolve | src/main/java/org/mtransit/parser/ca_halifax_transit_ferry/HalifaxTransitFerryAgencyTools.java:97-139 | a route resolves exactly when its short name is FerD or FerW |
| RouteIdentity.ResolveInjective | src/main/java/org/mtransit/parser/ca_halifax_transit_ferry/HalifaxTransitFerryAgencyTools.java:97-139 | distinct codes give distinct ids, short names and long names |
| HalifaxFerry.GetRouteId | src/main/java/org/mtransit/parser/ca_halifax_transit_ferry/HalifaxTransitFerryAgencyTools.java:103-111 | FerD is 100001, FerW is 100002, any other short name fails fatally |
| HalifaxFerry.GetRouteShortName | src/main/java/org/mtransit/parser/ca_halifax_transit_ferry/HalifaxTransitFerryAgencyTools.java:127-139 | FerD is ALD, FerW is WS, any other fails fatally |
| HalifaxFerry.GetRouteLongName | src/main/java/org/mtransit/parser/ca_halifax_transit_ferry/HalifaxTransitFerryAgencyTools.java:113-125 | FerD is Alderney, FerW is Woodside, any other fails fatally |
| HalifaxFerry.RouteGettersAgree | src/main/java/org/mtransit/parser/ca_halifax_transit_ferry/HalifaxTransitFerryAgencyTools.java:103-139 | the three route getters succeed together, on exactly the two ferry codes |
| RouteIdentity.RouteColor | src/main/java/org/mtransit/parser/ca_halifax_transit_ferry/HalifaxTransitFerryAgencyTools.java:152-159 | no colour or an empty colour gives 08215C; any other colour goes to the inherited getter, whose result may be null |
| HalifaxFerry.GetRouteColor | src/main/java/org/mtransit/parser/ca_halifax_transit_ferry/HalifaxTransitFerryAgencyTools.java:149-159 | the default colour when the feed gives none, the inherited result otherwise |
| RouteIdentity.RouteColorPassesFeedColor | src/main/java/org/mtransit/parser/ca_halifax_transit_ferry/HalifaxTransitFerryAgencyTools.java:152-159 | with a pass-through parent getter, a given colour is kept, the result is 08215C exactly when none is given or 08215C is given, and it is never null or empty |
| HalifaxFerry.AgencyTools.constructor | src/main/java/org/mtransit/parser/ca_halifax_transit_ferry/HalifaxTransitFerryAgencyTools.java:50-51 | no service-id set before start |
| HalifaxFerry.AgencyTools.Start | src/main/java/org/mtransit/parser/ca_halifax_transit_ferry/HalifaxTransitFerryAgencyTools.java:53-60 | the field holds the set start extracted, and nothing else changes |
| HalifaxFerry.AgencyTools.ExcludingAll | src/main/java/org/mtransit/parser/ca_halifax_transit_ferry/HalifaxTransitFerryAgencyTools.java:62-65 | true exactly when a set was computed and it is empty |
| HalifaxFerry.AgencyTools.ExcludeCalendar | src/main/java/org/mtransit/parser/ca_halifax_transit_ferry/HalifaxTransitFerryAgencyTools.java:67-73 | with a set, excluded exactly when the service id is not in it; without one, the inherited answer |
| HalifaxFerry.AgencyTools.ExcludeCalendarDate | src/main/java/org/mtransit/parser/ca_halifax_transit_ferry/HalifaxTransitFerryAgencyTools.java:75-81 | with a set, excluded exactly when the service id is not in it; without one, the inherited answer |
| HalifaxFerry.AgencyTools.ExcludeTrip | src/main/java/org/mtransit/parser/ca_halifax_transit_ferry/HalifaxTransitFerryAgencyTools.java:83-89 | with a set, excluded exactly when the service id is not in it; without one, the inherited answer |
| HalifaxFerry.StartWithNoUsefulService | src/main/java/org/mtransit/parser/ca_halifax_transit_ferry/HalifaxTransitFerryAgencyTools.java:53-89 | after a start that found no useful service, everything is excluded |
| ServiceFilter.ExcludingAllExcludesEverything | src/main/java/org/mtransit/parser/ca_halifax_transit_ferry/HalifaxTransitFerryAgencyTools.java:62-89 | when excluding all, every calendar, calendar date and trip is excluded |
| ServiceFilter.ComputedSetDecidesAlone | src/main/java/org/mtransit/parser/ca_halifax_transit_ferry/HalifaxTransitFerryAgencyTools.java:67-89 | with a set, only the record's service id matters, and a trip is kept exactly when its id is in the set |
| ServiceFilter.NoSetFallsBack | src/main/java/org/mtransit/parser/ca_halifax_transit_ferry/HalifaxTransitFerryAgencyTools.java:62-89 | without a set, nothing is excluded wholesale and every exclusion is the inherited one |
| HalifaxFerry.BuildAllRouteTrips | src/main/java/org/mtransit/parser/ca_halifax_transit_ferry/HalifaxTransitFerryAgencyTools.java:165-200 | the static initialiser builds exactly the ALL_ROUTE_TRIPS2 table |
| RouteTripSpecs.RouteTripTableShape | src/main/java/org/mtransit/parser/ca_halifax_transit_ferry/HalifaxTransitFerryAgencyTools.java:161-200 | keys are the two route ids; each entry carries its key; directions 0 and 1 with distinct headsigns; direction 1 is direction 0 reversed; the concrete headsigns and stops |
| RouteTripSpecs.RouteTripTableStopsAreNumeric | src/main/java/org/mtransit/parser/ca_halifax_transit_ferry/HalifaxTransitFerryAgencyTools.java:170-198 | every reference stop is digits only and is its own stop code |
| RouteTripSpecs.ResolvedRoutesHaveSpecs | src/main/java/org/mtransit/parser/ca_halifax_transit_ferry/HalifaxTransitFerryAgencyTools.java:97-198 | each resolved route id has a table entry filed under that id |
| RouteTripSpecs.IndexFrom | src/main/java/org/mtransit/parser/ca_halifax_transit_ferry/HalifaxTransitFerryAgencyTools.java:223 | the first position at or after the cursor that holds the stop, or none |
| RouteTripSpecs.PlaceFrom | src/main/java/org/mtransit/parser/ca_halifax_transit_ferry/HalifaxTransitFerryAgencyTools.java:223 | a successful walk places every visit at a position holding its stop, never going back |
| RouteTripSpecs.PlaceFromComplete | src/main/java/org/mtransit/parser/ca_halifax_transit_ferry/HalifaxTransitFerryAgencyTools.java:223 | whenever some forward placement exists, the walk succeeds and takes positions no later than it |
| RouteTripSpecs.Classify | src/main/java/org/mtransit/parser/ca_halifax_transit_ferry/HalifaxTransitFerryAgencyTools.java:223 | the chosen direction is one of the two, and the trip can be walked along it |
| RouteTripSpecs.ClassifyComplete | src/main/java/org/mtransit/parser/ca_halifax_transit_ferry/HalifaxTransitFerryAgencyTools.java:223 | a trip that fits a direction is classified, and one that fits direction 0 goes to direction 0 |
| RouteTripSpecs.PlaceStop | src/main/java/org/mtransit/parser/ca_halifax_transit_ferry/HalifaxTransitFerryAgencyTools.java:219-226 | fails exactly when no direction fits; otherwise the trip's direction and a position holding the visited stop |
| RouteTripSpecs.PlaceStopMonotone | src/main/java/org/mtransit/parser/ca_halifax_transit_ferry/HalifaxTransitFerryAgencyTools.java:219-226 | within a trip, later visits never get earlier positions |
| RouteTripSpecs.ComparePositions | src/main/java/org/mtransit/parser/ca_halifax_transit_ferry/HalifaxTransitFerryAgencyTools.java:205 | the sign orders visits by position |
| RouteTripSpecs.ComparePositionsOrdering | src/main/java/org/mtransit/parser/ca_halifax_transit_ferry/HalifaxTransitFerryAgencyTools.java:205 | antisymmetric, transitive and reflexive |
| RouteTripSpecs.AllTrips | src/main/java/org/mtransit/parser/ca_halifax_transit_ferry/HalifaxTransitFerryAgencyTools.java:214 | one output trip per direction, with that direction's headsign and id |
| RouteTripSpecs.CompareEarly | src/main/java/org/mtransit/parser/ca_halifax_transit_ferry/HalifaxTransitFerryAgencyTools.java:202-208 | table routes compare by position; all others as inherited |
| RouteTripSpecs.SplitTrip | src/main/java/org/mtransit/parser/ca_halifax_transit_ferry/HalifaxTransitFerryAgencyTools.java:210-217 | table routes give their two direction trips; all others as inherited |
| RouteTripSpecs.SplitTripStop | src/main/java/org/mtransit/parser/ca_halifax_transit_ferry/HalifaxTransitFerryAgencyTools.java:219-226 | table routes place the visit by the oracle; all others as inherited |
| RouteTripSpecs.FerryRoutesSplitInTwo | src/main/java/org/mtransit/parser/ca_halifax_transit_ferry/HalifaxTransitFerryAgencyTools.java:210-217 | a ferry route splits into directions 0 and 1 with the route's id and distinct headsigns |
| RouteTripSpecs.AlderneyForwardTrip | src/main/java/org/mtransit/parser/ca_halifax_transit_ferry/HalifaxTransitFerryAgencyTools.java:170-177 | an Alderney trip 1073 then 1074 runs towards Dartmouth |
| RouteTripSpecs.AlderneyBackwardTrip | src/main/java/org/mtransit/parser/ca_halifax_transit_ferry/HalifaxTransitFerryAgencyTools.java:170-182 | an Alderney trip 1074 then 1073 runs towards Halifax |
| RouteTripSpecs.AlderneyForeignTrip | src/main/java/org/mtransit/parser/ca_halifax_transit_ferry/HalifaxTransitFerryAgencyTools.java:170-182 | a trip through stop 1075 fits no Alderney direction |
| RouteTripSpecs.TieBreakAtSharedStop | src/main/java/org/mtransit/parser/ca_halifax_transit_ferry/HalifaxTransitFerryAgencyTools.java:202-208 | at shared stop 1073, the earlier position sorts first |
| HalifaxFerry.SetTripHeadsign | src/main/java/org/mtransit/parser/ca_halifax_transit_ferry/HalifaxTransitFerryAgencyTools.java:228-234 | the trip is untouched on a table route; any other route fails fatally |
| HalifaxFerry.ResolvedRoutesAreSplit | src/main/java/org/mtransit/parser/ca_halifax_transit_ferry/HalifaxTransitFerryAgencyTools.java:103-234 | a resolved route is split into two trips and its headsigns are left alone |
| StopNameCleaning.RemoveFerryStop | src/main/java/org/mtransit/parser/ca_halifax_transit_ferry/HalifaxTransitFerryAgencyTools.java:242-248 | removal never lengthens the name |
| StopNameCleaning.RemoveFerryStopKeepsCleanName | src/main/java/org/mtransit/parser/ca_halifax_transit_ferry/HalifaxTransitFerryAgencyTools.java:248 | a name without a match comes out unchanged |
| StopNameCleaning.RemoveFerryStopCopiesStretch | src/main/java/org/mtransit/parser/ca_halifax_transit_ferry/HalifaxTransitFerryAgencyTools.java:248 | a stretch where no match starts is copied as it is |
| StopNameCleaning.RemoveFerryStopDropsMatch | src/main/java/org/mtransit/parser/ca_halifax_transit_ferry/HalifaxTransitFerryAgencyTools.java:242-248 | a match at the scan position is dropped, in any letter case |
| StopNameCleaning.StripTrailingNumber | src/main/java/org/mtransit/parser/ca_halifax_transit_ferry/HalifaxTransitFerryAgencyTools.java:243-249 | removal never lengthens the name |
| StopNameCleaning.StripTrailingNumberRemovesMatch | src/main/java/org/mtransit/parser/ca_halifax_transit_ferry/HalifaxTransitFerryAgencyTools.java:243-249 | when " (digits)" ends the name, before an optional final line terminator, exactly that text is cut |
| StopNameCleaning.StripTrailingNumberKeepsOtherNames | src/main/java/org/mtransit/parser/ca_halifax_transit_ferry/HalifaxTransitFerryAgencyTools.java:243-249 | a name that does not end in a number comes out unchanged |
| StopNameCleaning.CleanStopName | src/main/java/org/mtransit/parser/ca_halifax_transit_ferry/HalifaxTransitFerryAgencyTools.java:245-252 | the two pattern steps in order, then the number and label cleaning |
| StopNameCleaning.RemoveFerryStopExample | src/main/java/org/mtransit/parser/ca_halifax_transit_ferry/HalifaxTransitFerryAgencyTools.java:248 | "Ferry Stop - " is cut from the front of "Ferry Stop - Halifax Ferry Terminal (3)" |
| StopNameCleaning.StripTrailingNumberExample | src/main/java/org/mtransit/parser/ca_halifax_transit_ferry/HalifaxTransitFerryAgencyTools.java:249 | " (3)" is cut from "Halifax Ferry Terminal (3)" |
| StopNameCleaning.CleaningExample | src/main/java/org/mtransit/parser/ca_halifax_transit_ferry/HalifaxTransitFerryAgencyTools.java:242-249 | "Ferry Stop - Halifax Ferry Terminal (3)" becomes "Halifax Ferry Terminal" |
| StopNameCleaning.RemoveFerryStopNotIdempotent | src/main/java/org/mtransit/parser/ca_halifax_transit_ferry/HalifaxTransitFerryAgencyTools.java:248 | one removal pass can leave a new match |
| StopNameCleaning.StripTrailingNumberNotIdempotent | src/main/java/org/mtransit/parser/ca_halifax_transit_ferry/HalifaxTransitFerryAgencyTools.java:249 | one removal pass can leave a new trailing number |
| HalifaxFerryLegacy.GetStopId | src/org/mtransit/parser/ca_halifax_transit_ferry/HalifaxTransitFerryAgencyTools.java:233-245 | as in the current snapshot; a non-empty id without digits exits with status -1, and a parse failure (empty id or value above Integer.MAX_VALUE) throws NumberFormatException |
| HalifaxFerryLegacy.GetStopCode | src/org/mtransit/parser/ca_halifax_transit_ferry/HalifaxTransitFerryAgencyTools.java:247-259 | as in the current snapshot; an id that is non-empty and has no digit exits with status -1, and that is its only failure |
| HalifaxFerryLegacy.StopIdOfFirstRun | src/org/mtransit/parser/ca_halifax_transit_ferry/HalifaxTransitFerryAgencyTools.java:238-240 | a mixed id stands for its first maximal run of digits |
| HalifaxFerryLegacy.StopCodeParsesToStopId | src/org/mtransit/parser/ca_halifax_transit_ferry/HalifaxTransitFerryAgencyTools.java:233-259 | the stop id succeeds exactly when the code succeeds and parses, and then the two agree |
| HalifaxFerryLegacy.GetRouteIdAsWritten | src/org/mtransit/parser/ca_halifax_transit_ferry/HalifaxTransitFerryAgencyTools.java:96-106 | FerD and FerW resolve; any other name fails with MissingFormatArgumentException |
| HalifaxFerryLegacy.GetRouteId | src/org/mtransit/parser/ca_halifax_transit_ferry/HalifaxTransitFerryAgencyTools.java:96-106 | FerD and FerW resolve; any other name exits with status -1 |
| HalifaxFerryLegacy.RouteIdFailureAsWritten | src/org/mtransit/parser/ca_halifax_transit_ferry/HalifaxTransitFerryAgencyTools.java:103-104 | the two agree on the ferry codes and differ on every other code, such as FerX |
| HalifaxFerryLegacy.GetRouteShortName | src/org/mtransit/parser/ca_halifax_transit_ferry/HalifaxTransitFerryAgencyTools.java:126-136 | ALD and WS; any other name exits with status -1 |
| HalifaxFerryLegacy.GetRouteLongName | src/org/mtransit/parser/ca_halifax_transit_ferry/HalifaxTransitFerryAgencyTools.java:111-121 | Alderney and Woodside; any other name exits with status -1 |
| HalifaxFerryLegacy.GetRouteColor | src/org/mtransit/parser/ca_halifax_transit_ferry/HalifaxTransitFerryAgencyTools.java:145-154 | the default colour when the feed gives none, the inherited result otherwise |
| HalifaxFerryLegacy.AgencyTools.constructor | src/org/mtransit/parser/ca_halifax_transit_ferry/HalifaxTransitFerryAgencyTools.java:45 | no service-id set before start |
| HalifaxFerryLegacy.AgencyTools.Start | src/org/mtransit/parser/ca_halifax_transit_ferry/HalifaxTransitFerryAgencyTools.java:47-54 | the field holds the string set start extracted |
| HalifaxFerryLegacy.AgencyTools.ExcludingAll | src/org/mtransit/parser/ca_halifax_transit_ferry/HalifaxTransitFerryAgencyTools.java:56-59 | true exactly when a set was computed and it is empty |
| HalifaxFerryLegacy.AgencyTools.ExcludeCalendar | src/org/mtransit/parser/ca_halifax_transit_ferry/HalifaxTransitFerryAgencyTools.java:61-67 | with a set, excluded exactly when the service id is not in it; without one, the inherited answer |
| HalifaxFerryLegacy.AgencyTools.ExcludeCalendarDate | src/org/mtransit/parser/ca_halifax_transit_ferry/HalifaxTransitFerryAgencyTools.java:69-75 | with a set, excluded exactly when the service id is not in it; without one, the inherited answer |
| HalifaxFerryLegacy.AgencyTools.ExcludeTrip | src/org/mtransit/parser/ca_halifax_transit_ferry/HalifaxTransitFerryAgencyTools.java:77-83 | with a set, excluded exactly when the service id is not in it; without one, the inherited answer |
| HalifaxFerryLegacy.StartWithServices | src/org/mtransit/parser/ca_halifax_transit_ferry/HalifaxTransitFerryAgencyTools.java:47-83 | after start, all is excluded exactly when the set is empty, and a trip is excluded exactly when its service is not in the set |
| HalifaxFerryLegacy.BuildAllRouteTrips | src/org/mtransit/parser/ca_halifax_transit_ferry/HalifaxTransitFerryAgencyTools.java:160-180 | the static initialiser builds the same ALL_ROUTE_TRIPS2 table as the current snapshot |
| HalifaxFerryLegacy.SetTripHeadsign | src/org/mtransit/parser/ca_halifax_transit_ferry/HalifaxTransitFerryAgencyTools.java:206-213 | the trip is untouched on a table route; any other route exits with status -1 |

## Left out

- `main` and the I/O in `start` (argument defaults, logging, timing) are not modelled. `start` is only the assignment of the extracted set, which comes in as a parameter.
- `extractUsefulServiceIdInts` / `extractUsefulServiceIds` and `excludeUseless...` belong to `DefaultAgencyTools`, which is not part of this model. The set is an input, and "useless" is taken to mean that the service id is not in the set.
- The behaviour of the parent class (`super.excludeCalendar`, `super.getRouteColor`, `super.compareEarly`, `super.splitTrip`, `super.splitTripStop`) is not part of this model. It is the `Inherited` record of functions.
- `SplitUtils` and `RouteTripSpec.compare`/`compileBothTripSort` are not part of this model. The forward-cursor oracle in `RouteTripSpecs` stands in for them. The list, `GStop` and `GSpec` arguments of `compareEarly`, `splitTrip` and `splitTripStop` are dropped, and so is the agency-tools argument passed to the library.
- `RouteTripSpecs.CompareEarly`: on table routes it compares the positions the oracle assigned. This is weaker than the library's comparison, which is not part of this model.
- The legacy snapshot's `compareEarly`, `splitTrip` and `splitTripStop` (lines 182-204 of the legacy file) are the same code as the current ones. They are modelled once, by the generic members of `RouteTripSpecs`. The legacy `cleanStopName` (lines 220-229) is modelled once, by `StopNameCleaning`, and the legacy `getRouteColor` (lines 145-154) by the shared `RouteIdentity.RouteColor`. The rows of those members cite the current file only.
- `CleanUtils.cleanNumbers` and `CleanUtils.cleanLabel` are not part of this model. They come into `CleanStopName` as functions. `cleanTripHeadsign`, which only calls `cleanLabel`, is left out for the same reason.
- General regular-expression semantics are not modelled. Only the two fixed patterns are written out, with ASCII-only case folding. Java's `$`, which may match before a final line terminator, is modelled.
- `\d` and `Utils.isDigitsOnly` are taken as ASCII `0`-`9`. `Utils` is not part of this model. Unicode digits that `Character.isDigit` accepts are left out, and `isDigitsOnly` is taken to hold on the empty string.
- `getAgencyRouteType` and `getAgencyColor` return constants and are left out.
- The message text of `MTLog.Fatal` and of the legacy `printf` calls is left out. Only which failure happens is modelled. `MTLog` is not part of this model, so the current `getRouteId` message, with its two `%s` and one argument, is modelled as the fatal failure it is thrown as.
- Nulls: the route colour of the feed and the result of `getRouteColor` (and of the inherited getter) are nullable and modelled as `Option`. A null stop id or route short name is not modelled.

## Findings

| source | as written | input that shows it | evidently intended | confidence | as-written member | corrected member |
|---|---|---|---|---|---|---|
| src/org/mtransit/parser/ca_halifax_transit_ferry/HalifaxTransitFerryAgencyTools.java:103-104 | `printf` gets the format "Unexpected route ID  for %s %s!" with one argument, so it throws `MissingFormatArgumentException` before `System.exit(-1)` | a route whose short name is `FerX` | print the message and exit with status -1, like the other getters | high; not executed | HalifaxFerryLegacy.GetRouteIdAsWritten | HalifaxFerryLegacy.GetRouteId |
