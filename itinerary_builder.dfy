/** The itinerary builder page: which stops are expanded, the arguments it
    hands to the trip store when a city or an activity is picked, its two
    catalogue filters, the cost total and the activity count. */
module ItineraryBuilder {
  import opened Wrappers
  import opened Seqs
  import opened Text
  import opened Domain
  import opened TripStore
  import opened UiStore

  /** A stop is expanded unless the collapsed map holds `true` for its id. */
  predicate IsExpanded(collapsed: map<string, bool>, stopId: string) {
    !(stopId in collapsed && collapsed[stopId])
  }

  /** `expandedStops`: the loop filling one flag per stop of the trip (none
      without a trip). */
  method ExpandedStops(trip: Option<Trip>, collapsed: map<string, bool>) returns (expanded: map<string, bool>)
    ensures trip.None? ==> expanded == map[]
    ensures trip.Some? ==> forall id :: id in expanded <==> exists i :: 0 <= i < |trip.value.stops| && trip.value.stops[i].id == id
    ensures forall id :: id in expanded ==> expanded[id] == IsExpanded(collapsed, id)
  {
    expanded := map[];
    if trip.None? {
      return;
    }
    var stops := trip.value.stops;
    var i := 0;
    while i < |stops|
      invariant 0 <= i <= |stops|
      invariant forall id :: id in expanded <==> exists k :: 0 <= k < i && stops[k].id == id
      invariant forall id :: id in expanded ==> expanded[id] == IsExpanded(collapsed, id)
    {
      var stop := stops[i];
      expanded := expanded[stop.id := !(stop.id in collapsed && collapsed[stop.id])];
      i := i + 1;
    }
  }

  /** `toggleStopExpand`: `{ ...prev, [stopId]: !prev[stopId] }`, where a
      missing flag reads as `undefined` and so becomes `true`. */
  function ToggleStop(collapsed: map<string, bool>, stopId: string): (r: map<string, bool>)
    ensures IsExpanded(r, stopId) == !IsExpanded(collapsed, stopId)
    ensures forall id :: id != stopId ==> (id in r <==> id in collapsed) && (id in r ==> r[id] == collapsed[id])
  {
    collapsed[stopId := !(stopId in collapsed && collapsed[stopId])]
  }

  /** Toggling a stop twice restores whether every stop is expanded. */
  lemma ToggleStopTwice(collapsed: map<string, bool>, stopId: string)
    ensures forall id :: IsExpanded(ToggleStop(ToggleStop(collapsed, stopId), stopId), id) == IsExpanded(collapsed, id)
  {
    var once := ToggleStop(collapsed, stopId);
    var twice := ToggleStop(once, stopId);
    forall id
      ensures IsExpanded(twice, id) == IsExpanded(collapsed, id)
    {
      if id != stopId {
        assert IsExpanded(once, id) == IsExpanded(collapsed, id);
      }
    }
  }

  /** `handleAddStop`: the picked city, between the trip's own dates. */
  function AddStopArgs(trip: Trip, city: City): (args: StopArgs)
    ensures args.cityId == city.id
    ensures args.arrivalDate == trip.startDate && args.departureDate == trip.endDate
  {
    StopArgs(city.id, trip.startDate, trip.endDate)
  }

  /** `handleAddActivity`: nothing without a selected stop; otherwise the
      activity on the stop's arrival date at ten o'clock. */
  function AddActivityArgs(selectedStop: Option<Stop>, activity: Activity): (args: Option<ActivityArgs>)
    ensures args.None? <==> selectedStop.None?
    ensures args.Some? ==> (args.value.activityId == activity.id &&
      args.value.scheduledDate == selectedStop.value.arrivalDate && args.value.scheduledTime == "10:00")
  {
    match selectedStop
    case None => None
    case Some(stop) => Some(ActivityArgs(activity.id, stop.arrivalDate, "10:00"))
  }

  /** `handleAddStop` as a whole: the stop is added, the modal closed and a
      success toast queued. */
  method HandleAddStop(store: Store, ui: UiStore, tripId: string, trip: Trip, city: City, now: nat)
    requires FindTrip(store.trips, tripId) == Some(trip)
    modifies store, ui
    ensures store.trips == AddStopTo(old(store.trips), tripId, NewStop(AddStopArgs(trip, city), now, store.cities))
    ensures store.currentTrip == old(store.currentTrip) && store.savedDestinations == old(store.savedDestinations)
    ensures ui.State() == old(ui.State()).(activeModal := None, modalData := None,
      toasts := old(ui.toasts) + [Toast(now, "success", city.name + " added to your trip!")])
  {
    store.AddStop(tripId, AddStopArgs(trip, city), now);
    ui.CloseModal();
    var _ := ui.AddToast("success", city.name + " added to your trip!", now);
  }

  /** `handleAddActivity` as a whole: without a selected stop nothing
      happens; otherwise the activity is added, the modal closed and a
      success toast queued. */
  method HandleAddActivity(store: Store, ui: UiStore, tripId: string, selectedStop: Option<Stop>,
                           activity: Activity, now: nat)
    modifies store, ui
    ensures selectedStop.None? ==> store.trips == old(store.trips) && ui.State() == old(ui.State())
    ensures selectedStop.Some? ==>
      store.trips == AddActivityTo(old(store.trips), tripId, selectedStop.value.id,
                                   NewActivity(AddActivityArgs(selectedStop, activity).value, now, store.activities)) &&
      ui.State() == old(ui.State()).(activeModal := None, modalData := None,
        toasts := old(ui.toasts) + [Toast(now, "success", activity.name + " added!")])
    ensures store.currentTrip == old(store.currentTrip) && store.savedDestinations == old(store.savedDestinations)
  {
    var args := AddActivityArgs(selectedStop, activity);
    if args.None? {
      return;
    }
    store.AddActivity(tripId, selectedStop.value.id, args.value, now);
    ui.CloseModal();
    var _ := ui.AddToast("success", activity.name + " added!", now);
  }

  /** `filteredCities`: the catalogue cities whose name or country contains
      the search text, in catalogue order. */
  function FilteredCities(cities: seq<City>, search: string): (r: seq<City>)
    ensures Picks(cities, KeptPositions(cities, (c: City) => CityMentions(c, search)), r)
    ensures forall i :: 0 <= i < |r| ==> r[i] in cities && CityMentions(r[i], search)
    ensures forall i :: 0 <= i < |cities| && CityMentions(cities[i], search) ==> cities[i] in r
  {
    FilterPicks(cities, (c: City) => CityMentions(c, search));
    Filter(cities, (c: City) => CityMentions(c, search))
  }

  /** `filteredActivities`: the catalogue activities whose name or category
      contains the search text, in catalogue order. */
  function FilteredActivities(activities: seq<Activity>, search: string): (r: seq<Activity>)
    ensures Picks(activities, KeptPositions(activities, (a: Activity) => ActivityMentions(a, search)), r)
    ensures forall i :: 0 <= i < |r| ==> r[i] in activities && ActivityMentions(r[i], search)
    ensures forall i :: 0 <= i < |activities| && ActivityMentions(activities[i], search) ==> activities[i] in r
  {
    FilterPicks(activities, (a: Activity) => ActivityMentions(a, search));
    Filter(activities, (a: Activity) => ActivityMentions(a, search))
  }

  /** The page's filters agree with the store's searches run without
      region, category or ceilings; an empty search keeps the whole catalogue. */
  lemma PageFiltersAgreeWithStore(cities: seq<City>, activities: seq<Activity>, search: string)
    ensures FilteredCities(cities, search) == Filter(cities, (c: City) => CitySearchMatch(c, search, CityFilters("", 0)))
    ensures FilteredActivities(activities, search) ==
      Filter(activities, (a: Activity) => ActivitySearchMatch(a, search, ActivityFilters("", 0, 0)))
    ensures search == "" ==> FilteredCities(cities, search) == cities && FilteredActivities(activities, search) == activities
  {
    forall c: City
      ensures CityMentions(c, search) == CitySearchMatch(c, search, CityFilters("", 0))
    {
      if search == "" {
        EmptyQueryMatches(c.name);
      }
    }
    forall a: Activity
      ensures ActivityMentions(a, search) == ActivitySearchMatch(a, search, ActivityFilters("", 0, 0))
    {
      if search == "" {
        EmptyQueryMatches(a.name);
      }
    }
    FilterCongruent(cities, (c: City) => CityMentions(c, search),
                    (c: City) => CitySearchMatch(c, search, CityFilters("", 0)));
    FilterCongruent(activities, (a: Activity) => ActivityMentions(a, search),
                    (a: Activity) => ActivitySearchMatch(a, search, ActivityFilters("", 0, 0)));
    if search == "" {
      FilterKeepsAll(cities, (c: City) => CityMentions(c, search));
      FilterKeepsAll(activities, (a: Activity) => ActivityMentions(a, search));
    }
  }

  /** `calculateTotalCost`: 0 without a trip, otherwise the loops adding up
      every activity's cost (a missing cost counting 0). */
  method CalculateTotalCost(trip: Option<Trip>) returns (total: int)
    ensures trip.None? ==> total == 0
    ensures trip.Some? ==> total == ActivitiesCost(trip.value.stops)
  {
    if trip.None? {
      return 0;
    }
    var stops := trip.value.stops;
    total := 0;
    var i := 0;
    while i < |stops|
      invariant 0 <= i <= |stops|
      invariant total == ActivitiesCost(stops[..i])
    {
      var acts := stops[i].activities;
      var j := 0;
      while j < |acts|
        invariant 0 <= j <= |acts|
        invariant total == ActivitiesCost(stops[..i]) + SumOf(acts[..j], InstanceCost)
      {
        total := total + InstanceCost(acts[j]);
        assert acts[..j + 1][..j] == acts[..j];
        j := j + 1;
      }
      assert acts[..j] == acts;
      assert stops[..i + 1][..i] == stops[..i];
      i := i + 1;
    }
    assert stops[..i] == stops;
  }

  /** The activity count in the header: the `reduce` over the stops' list
      lengths. */
  function ShownActivityCount(stops: seq<Stop>): (n: int)
    ensures n == ActivityCount(stops)
    ensures n >= 0
  {
    ReduceCountAgrees(stops);
    SumNonNegative(stops, StopSize);
    ReduceActivityCount(stops)
  }
}
