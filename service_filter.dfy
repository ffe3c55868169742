/**
 * The service filter: the set of useful service ids, computed once when the
 * run starts, decides which calendars, calendar dates and trips are kept.
 * No set (null) means the inherited behaviour applies; an empty set means
 * the whole feed is excluded.
 */
module ServiceFilter {
  import opened Wrappers
  import opened Gtfs

  /** `excludingAll`: a set was computed and it is empty. */
  predicate ExcludingAll<S>(serviceIds: Option<set<S>>) {
    serviceIds.Some? && serviceIds.value == {}
  }

  /**
   * The feed library's `excludeUseless...` checks, which are not part of this
   * model: a record is useless when its service id is not in the set.
   */
  predicate IsUselessService<S>(serviceId: S, serviceIds: set<S>) {
    serviceId !in serviceIds
  }

  predicate ExcludeCalendar<S>(serviceIds: Option<set<S>>, inherited: Inherited<S>, c: Calendar<S>) {
    if serviceIds.Some? then IsUselessService(c.serviceId, serviceIds.value) else inherited.excludeCalendar(c)
  }

  predicate ExcludeCalendarDate<S>(serviceIds: Option<set<S>>, inherited: Inherited<S>, d: CalendarDate<S>) {
    if serviceIds.Some? then IsUselessService(d.serviceId, serviceIds.value) else inherited.excludeCalendarDate(d)
  }

  predicate ExcludeTrip<S>(serviceIds: Option<set<S>>, inherited: Inherited<S>, t: Trip<S>) {
    if serviceIds.Some? then IsUselessService(t.serviceId, serviceIds.value) else inherited.excludeTrip(t)
  }

  /** When the filter is excluding everything, every record of every kind is excluded. */
  lemma ExcludingAllExcludesEverything<S>(serviceIds: Option<set<S>>, inherited: Inherited<S>,
                                          c: Calendar<S>, d: CalendarDate<S>, t: Trip<S>)
    requires ExcludingAll(serviceIds)
    ensures ExcludeCalendar(serviceIds, inherited, c)
    ensures ExcludeCalendarDate(serviceIds, inherited, d)
    ensures ExcludeTrip(serviceIds, inherited, t)
  {
  }

  /**
   * With a computed set, the three exclusions consult only that set and the
   * record's service id: the inherited behaviour and the other fields do not matter,
   * and a record is kept exactly when its service id is in the set.
   */
  lemma ComputedSetDecidesAlone<S>(ids: set<S>, i1: Inherited<S>, i2: Inherited<S>,
                                   c1: Calendar<S>, c2: Calendar<S>, d1: CalendarDate<S>, d2: CalendarDate<S>,
                                   t1: Trip<S>, t2: Trip<S>)
    requires c1.serviceId == c2.serviceId && d1.serviceId == d2.serviceId && t1.serviceId == t2.serviceId
    ensures ExcludeCalendar(Some(ids), i1, c1) == ExcludeCalendar(Some(ids), i2, c2)
    ensures ExcludeCalendarDate(Some(ids), i1, d1) == ExcludeCalendarDate(Some(ids), i2, d2)
    ensures ExcludeTrip(Some(ids), i1, t1) == ExcludeTrip(Some(ids), i2, t2)
    ensures !ExcludeTrip(Some(ids), i1, t1) <==> t1.serviceId in ids
  {
  }

  /** Without a computed set, the filter is the inherited behaviour and never excludes everything. */
  lemma NoSetFallsBack<S>(inherited: Inherited<S>, c: Calendar<S>, d: CalendarDate<S>, t: Trip<S>)
    ensures !ExcludingAll<S>(None)
    ensures ExcludeCalendar(None, inherited, c) == inherited.excludeCalendar(c)
    ensures ExcludeCalendarDate(None, inherited, d) == inherited.excludeCalendarDate(d)
    ensures ExcludeTrip(None, inherited, t) == inherited.excludeTrip(t)
  {
  }
}
