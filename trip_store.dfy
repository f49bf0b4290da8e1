/** The trip store: the trips, the trip being edited and the saved
    destinations, changed in place by the store's mutators, plus the two
    catalogue searches and the trip cost roll-up. Each mutator is specified
    by a function on the old trip list; the lemmas below state what those
    functions promise. */
module TripStore {
  import opened Wrappers
  import opened Seqs
  import opened Text
  import opened Domain

  /** The fields `createTrip` spreads into the new trip. A caller may pass a
      status and a budget too; both are overridden. */
  datatype TripData = TripData(
    name: string, description: Option<string>, startDate: Option<Day>, endDate: Option<Day>,
    coverPhoto: Option<string>, status: Option<string>, budget: Option<Budget>)

  /** The keys an `updateTrip` call may carry; a missing key keeps its value. */
  datatype TripPatch = TripPatch(
    name: Option<string>, description: Option<string>, startDate: Option<Day>,
    endDate: Option<Day>, coverPhoto: Option<string>, status: Option<string>,
    budget: Option<Budget>)

  /** The keys an `updateBudget` call may carry. */
  datatype BudgetPatch = BudgetPatch(
    total: Option<int>, transport: Option<int>, accommodation: Option<int>,
    activities: Option<int>, food: Option<int>, other: Option<int>)

  /** The argument of `addStop`. */
  datatype StopArgs = StopArgs(cityId: string, arrivalDate: Option<Day>, departureDate: Option<Day>)

  /** The argument of `addActivity`. */
  datatype ActivityArgs = ActivityArgs(activityId: string, scheduledDate: Option<Day>, scheduledTime: string)

  /** `searchCities` filters; an empty region or a zero cost disables that filter. */
  datatype CityFilters = CityFilters(region: string, maxCost: int)

  /** `searchActivities` filters; an empty category or a zero bound disables that filter. */
  datatype ActivityFilters = ActivityFilters(category: string, maxCost: int, maxDuration: int)

  const ZeroBudget := Budget(0, 0, 0, 0, 0, 0)

  /** `{...current, ...update}` for one key. */
  function Override<T>(current: T, update: Option<T>): T {
    if update.Some? then update.value else current
  }

  /** The trip `createTrip` builds: the caller's fields, then the fixed ones. */
  function NewTrip(data: TripData, now: nat, createdAt: string): (t: Trip)
    ensures t.id == "t" + Decimal(now) && t.name == data.name && t.createdAt == createdAt
    ensures t.description == data.description && t.startDate == data.startDate
    ensures t.endDate == data.endDate && t.coverPhoto == data.coverPhoto
    ensures t.stops == [] && t.budget == ZeroBudget && t.status == "draft"
    ensures !t.isPublic && t.publicUrl == None
  {
    Trip("t" + Decimal(now), data.name, data.description, data.startDate, data.endDate,
         data.coverPhoto, "draft", false, None, [], ZeroBudget, createdAt)
  }

  /** A budget or status in the creation data has no effect. */
  lemma NewTripIgnoresBudgetAndStatus(data: TripData, now: nat, createdAt: string, status: Option<string>, budget: Option<Budget>)
    ensures NewTrip(data.(status := status, budget := budget), now, createdAt) == NewTrip(data, now, createdAt)
  {
  }

  /** `{...trip, ...updates}`: a shallow merge. */
  function MergeTrip(t: Trip, p: TripPatch): (r: Trip)
    ensures r.id == t.id && r.stops == t.stops && r.createdAt == t.createdAt
    ensures r.isPublic == t.isPublic && r.publicUrl == t.publicUrl
    ensures p.name.None? ==> r.name == t.name
    ensures p.description.None? ==> r.description == t.description
    ensures p.startDate.None? ==> r.startDate == t.startDate
    ensures p.endDate.None? ==> r.endDate == t.endDate
    ensures p.coverPhoto.None? ==> r.coverPhoto == t.coverPhoto
    ensures p.status.None? ==> r.status == t.status
    ensures p.budget.None? ==> r.budget == t.budget
    ensures p.name.Some? ==> r.name == p.name.value
    ensures p.description.Some? ==> r.description == p.description
    ensures p.startDate.Some? ==> r.startDate == p.startDate
    ensures p.endDate.Some? ==> r.endDate == p.endDate
    ensures p.coverPhoto.Some? ==> r.coverPhoto == p.coverPhoto
    ensures p.status.Some? ==> r.status == p.status.value
    ensures p.budget.Some? ==> r.budget == p.budget.value
    ensures p == TripPatch(None, None, None, None, None, None, None) ==> r == t
  {
    var description := if p.description.Some? then p.description else t.description;
    var startDate := if p.startDate.Some? then p.startDate else t.startDate;
    var endDate := if p.endDate.Some? then p.endDate else t.endDate;
    var coverPhoto := if p.coverPhoto.Some? then p.coverPhoto else t.coverPhoto;
    t.(name := Override(t.name, p.name), description := description, startDate := startDate,
       endDate := endDate, coverPhoto := coverPhoto, status := Override(t.status, p.status),
       budget := Override(t.budget, p.budget))
  }

  /** `{...trip.budget, ...budgetUpdates}`. */
  function MergeBudget(b: Budget, p: BudgetPatch): (r: Budget)
    ensures p.total.None? ==> r.total == b.total
    ensures p.transport.None? ==> r.transport == b.transport
    ensures p.accommodation.None? ==> r.accommodation == b.accommodation
    ensures p.activities.None? ==> r.activities == b.activities
    ensures p.food.None? ==> r.food == b.food
    ensures p.other.None? ==> r.other == b.other
    ensures p.total.Some? ==> r.total == p.total.value
    ensures p.transport.Some? ==> r.transport == p.transport.value
    ensures p.accommodation.Some? ==> r.accommodation == p.accommodation.value
    ensures p.activities.Some? ==> r.activities == p.activities.value
    ensures p.food.Some? ==> r.food == p.food.value
    ensures p.other.Some? ==> r.other == p.other.value
  {
    Budget(Override(b.total, p.total), Override(b.transport, p.transport),
           Override(b.accommodation, p.accommodation), Override(b.activities, p.activities),
           Override(b.food, p.food), Override(b.other, p.other))
  }

  /** Applying the same update twice is applying it once, and a second
      update overrides the first on every key it carries. */
  lemma MergeTwice(t: Trip, p: TripPatch, q: TripPatch, bp: BudgetPatch, bq: BudgetPatch)
    ensures MergeTrip(MergeTrip(t, p), p) == MergeTrip(t, p)
    ensures MergeBudget(MergeBudget(t.budget, bp), bp) == MergeBudget(t.budget, bp)
    ensures q.name.Some? && q.status.Some? && q.budget.Some? ==>
      var r := MergeTrip(MergeTrip(t, p), q);
      r.name == q.name.value && r.status == q.status.value && r.budget == q.budget.value
  {
  }

  /** `trips.find(t => t.id === tripId)`. */
  function FindTrip(trips: seq<Trip>, tripId: string): Option<Trip> {
    Find(trips, (t: Trip) => t.id == tripId)
  }

  function UpdateTripIn(trips: seq<Trip>, tripId: string, p: TripPatch): (r: seq<Trip>)
    ensures |r| == |trips|
    ensures forall i :: 0 <= i < |r| ==> r[i] == if trips[i].id == tripId then MergeTrip(trips[i], p) else trips[i]
  {
    MapWhere(trips, (t: Trip) => t.id == tripId, (t: Trip) => MergeTrip(t, p))
  }

  /** `trips.filter(t => t.id !== tripId)`: the other trips, in their order. */
  function DeleteTripIn(trips: seq<Trip>, tripId: string): (r: seq<Trip>)
    ensures Picks(trips, KeptPositions(trips, (t: Trip) => t.id != tripId), r)
    ensures forall i :: 0 <= i < |r| ==> r[i].id != tripId && r[i] in trips
    ensures forall i :: 0 <= i < |trips| && trips[i].id != tripId ==> trips[i] in r
  {
    FilterPicks(trips, (t: Trip) => t.id != tripId);
    Filter(trips, (t: Trip) => t.id != tripId)
  }

  /** The stop `addStop` builds: a fresh id, the arguments, the catalogue
      city with that id (or none) and no activities. */
  function NewStop(args: StopArgs, now: nat, cities: seq<City>): (s: Stop)
    ensures s.id == "s" + Decimal(now) && s.cityId == args.cityId && s.activities == []
    ensures s.arrivalDate == args.arrivalDate && s.departureDate == args.departureDate
    ensures s.city.Some? ==> s.city.value in cities && s.city.value.id == args.cityId
    ensures s.city.None? <==> forall i :: 0 <= i < |cities| ==> cities[i].id != args.cityId
  {
    Stop("s" + Decimal(now), args.cityId, Find(cities, (c: City) => c.id == args.cityId),
         args.arrivalDate, args.departureDate, [])
  }

  function AddStopTo(trips: seq<Trip>, tripId: string, stop: Stop): (r: seq<Trip>)
    ensures |r| == |trips|
    ensures forall i :: 0 <= i < |r| ==> r[i] == if trips[i].id == tripId then trips[i].(stops := trips[i].stops + [stop]) else trips[i]
  {
    MapWhere(trips, (t: Trip) => t.id == tripId, (t: Trip) => t.(stops := t.stops + [stop]))
  }

  function RemoveStopFrom(trips: seq<Trip>, tripId: string, stopId: string): (r: seq<Trip>)
    ensures |r| == |trips|
    ensures forall i :: 0 <= i < |r| && trips[i].id != tripId ==> r[i] == trips[i]
    ensures forall i :: 0 <= i < |r| && trips[i].id == tripId ==>
      r[i] == trips[i].(stops := Filter(trips[i].stops, (s: Stop) => s.id != stopId))
  {
    MapWhere(trips, (t: Trip) => t.id == tripId,
             (t: Trip) => t.(stops := Filter(t.stops, (s: Stop) => s.id != stopId)))
  }

  function ReorderStopsIn(trips: seq<Trip>, tripId: string, order: seq<Stop>): (r: seq<Trip>)
    ensures |r| == |trips|
    ensures forall i :: 0 <= i < |r| ==> r[i] == if trips[i].id == tripId then trips[i].(stops := order) else trips[i]
  {
    MapWhere(trips, (t: Trip) => t.id == tripId, (t: Trip) => t.(stops := order))
  }

  /** The instance `addActivity` builds: the catalogue entry with the
      requested id (or the request itself), a fresh id and the schedule. */
  function NewActivity(args: ActivityArgs, now: nat, catalogue: seq<Activity>): (a: ActivityInstance)
    ensures a.id == "act" + Decimal(now)
    ensures a.scheduledDate == args.scheduledDate && a.scheduledTime == args.scheduledTime
    ensures a.origin.Catalogued? ==> a.origin.entry in catalogue && a.origin.entry.id == args.activityId
    ensures a.origin.Uncatalogued? <==> forall i :: 0 <= i < |catalogue| ==> catalogue[i].id != args.activityId
    ensures a.origin.Uncatalogued? ==> a.origin.activityId == args.activityId
  {
    var origin := match Find(catalogue, (e: Activity) => e.id == args.activityId)
      case Some(e) => Catalogued(e)
      case None => Uncatalogued(args.activityId);
    ActivityInstance("act" + Decimal(now), origin, args.scheduledDate, args.scheduledTime)
  }

  /** Appends `a` to the activities of the stops with id `stopId`. */
  function AppendToStop(stops: seq<Stop>, stopId: string, a: ActivityInstance): (r: seq<Stop>)
    ensures |r| == |stops|
    ensures forall i :: 0 <= i < |r| ==> r[i] == if stops[i].id == stopId then stops[i].(activities := stops[i].activities + [a]) else stops[i]
  {
    MapWhere(stops, (s: Stop) => s.id == stopId, (s: Stop) => s.(activities := s.activities + [a]))
  }

  /** Drops the instances with id `activityId` from the stops with id `stopId`. */
  function DropFromStop(stops: seq<Stop>, stopId: string, activityId: string): (r: seq<Stop>)
    ensures |r| == |stops|
    ensures forall i :: 0 <= i < |r| && stops[i].id != stopId ==> r[i] == stops[i]
    ensures forall i :: 0 <= i < |r| && stops[i].id == stopId ==>
      r[i] == stops[i].(activities := Filter(stops[i].activities, (x: ActivityInstance) => x.id != activityId))
  {
    MapWhere(stops, (s: Stop) => s.id == stopId,
             (s: Stop) => s.(activities := Filter(s.activities, (x: ActivityInstance) => x.id != activityId)))
  }

  function AddActivityTo(trips: seq<Trip>, tripId: string, stopId: string, a: ActivityInstance): (r: seq<Trip>)
    ensures |r| == |trips|
    ensures forall i :: 0 <= i < |r| ==> r[i] == if trips[i].id == tripId then trips[i].(stops := AppendToStop(trips[i].stops, stopId, a)) else trips[i]
  {
    MapWhere(trips, (t: Trip) => t.id == tripId, (t: Trip) => t.(stops := AppendToStop(t.stops, stopId, a)))
  }

  function RemoveActivityFrom(trips: seq<Trip>, tripId: string, stopId: string, activityId: string): (r: seq<Trip>)
    ensures |r| == |trips|
    ensures forall i :: 0 <= i < |r| ==> r[i] == if trips[i].id == tripId then trips[i].(stops := DropFromStop(trips[i].stops, stopId, activityId)) else trips[i]
  {
    MapWhere(trips, (t: Trip) => t.id == tripId, (t: Trip) => t.(stops := DropFromStop(t.stops, stopId, activityId)))
  }

  function UpdateBudgetIn(trips: seq<Trip>, tripId: string, p: BudgetPatch): (r: seq<Trip>)
    ensures |r| == |trips|
    ensures forall i :: 0 <= i < |r| ==> r[i] == if trips[i].id == tripId then trips[i].(budget := MergeBudget(trips[i].budget, p)) else trips[i]
  {
    MapWhere(trips, (t: Trip) => t.id == tripId, (t: Trip) => t.(budget := MergeBudget(t.budget, p)))
  }

  /** The public link: the lower-cased name with each whitespace run
      replaced by '-', then '-' and the timestamp. */
  function PublicSlug(name: string, now: nat): (slug: string)
    ensures slug == DashRuns(Lower(name)) + "-" + Decimal(now)
    ensures forall i :: 0 <= i < |slug| ==> !IsSpace(slug[i])
    ensures |slug| > |Decimal(now)| && slug[|slug| - |Decimal(now)| - 1..] == "-" + Decimal(now)
  {
    var head, stamp := DashRuns(Lower(name)), Decimal(now);
    assert forall i :: 0 <= i < |stamp| ==> !IsSpace(stamp[i]);
    var slug := head + "-" + stamp;
    assert slug[|head| + 1..] == stamp;
    slug
  }

  /** The same name made public at different instants gets different links. */
  lemma SlugsDifferAcrossInstants(name: string, now1: nat, now2: nat)
    requires now1 != now2
    ensures PublicSlug(name, now1) != PublicSlug(name, now2)
  {
    DecimalInjective(now1, now2);
    var prefix := DashRuns(Lower(name)) + "-";
    assert PublicSlug(name, now1)[|prefix|..] == Decimal(now1);
    assert PublicSlug(name, now2)[|prefix|..] == Decimal(now2);
  }

  /** `togglePublic`: every trip with the id flips `isPublic`; all of them
      get the link computed from the first such trip, a fresh slug when it
      was private and null when it was public. */
  function TogglePublicIn(trips: seq<Trip>, tripId: string, now: nat): (r: seq<Trip>)
    requires FindTrip(trips, tripId).Some?
    ensures |r| == |trips|
    ensures forall i :: 0 <= i < |r| && trips[i].id != tripId ==> r[i] == trips[i]
    ensures forall i :: 0 <= i < |r| && trips[i].id == tripId ==>
      r[i] == trips[i].(isPublic := !trips[i].isPublic, publicUrl := r[i].publicUrl)
    ensures forall i :: 0 <= i < |r| && trips[i].id == tripId ==>
      (r[i].publicUrl.Some? <==> !FindTrip(trips, tripId).value.isPublic)
    ensures forall i :: 0 <= i < |r| && trips[i].id == tripId && r[i].publicUrl.Some? ==>
      r[i].publicUrl.value == PublicSlug(FindTrip(trips, tripId).value.name, now)
  {
    var trip := FindTrip(trips, tripId).value;
    var publicUrl := if !trip.isPublic then Some(PublicSlug(trip.name, now)) else None;
    MapWhere(trips, (t: Trip) => t.id == tripId, (t: Trip) => t.(isPublic := !t.isPublic, publicUrl := publicUrl))
  }

  /** `toggleSavedDestination`: an absent id is appended, a present one is
      removed wherever it occurs. */
  function ToggleSaved(saved: seq<string>, cityId: string): (r: seq<string>)
    ensures cityId in r <==> cityId !in saved
    ensures forall x :: x != cityId ==> (x in r <==> x in saved)
    ensures cityId !in saved ==> r == saved + [cityId]
  {
    if cityId in saved then Filter(saved, (id: string) => id != cityId) else saved + [cityId]
  }

  /** The whitespace-free query match of `searchCities`, skipped for an empty query. */
  predicate CityQueryOk(c: City, query: string) {
    query == "" || CityMentions(c, query)
  }

  /** Everything `searchCities` asks of a city. */
  predicate CitySearchMatch(c: City, query: string, filters: CityFilters) {
    && CityQueryOk(c, query)
    && (filters.region == "" || c.region == filters.region)
    && (filters.maxCost == 0 || c.costIndex <= filters.maxCost)
  }

  /** Everything `searchActivities` asks of an activity. */
  predicate ActivitySearchMatch(a: Activity, query: string, filters: ActivityFilters) {
    && (query == "" || ActivityMentions(a, query))
    && (filters.category == "" || a.category == filters.category)
    && (filters.maxCost == 0 || a.cost <= filters.maxCost)
    && (filters.maxDuration == 0 || a.duration <= filters.maxDuration)
  }

  /** An id no trip carries leaves the trip-level mutators without effect. */
  lemma UnknownTripKeepsTrips(trips: seq<Trip>, tripId: string, p: TripPatch, bp: BudgetPatch)
    requires forall i :: 0 <= i < |trips| ==> trips[i].id != tripId
    ensures UpdateTripIn(trips, tripId, p) == trips
    ensures DeleteTripIn(trips, tripId) == trips
    ensures UpdateBudgetIn(trips, tripId, bp) == trips
  {
    var r := UpdateTripIn(trips, tripId, p);
    assert forall i :: 0 <= i < |trips| ==> r[i] == trips[i];
    FilterKeepsAll(trips, (t: Trip) => t.id != tripId);
    var r1 := UpdateBudgetIn(trips, tripId, bp);
    assert forall i :: 0 <= i < |trips| ==> r1[i] == trips[i];
  }

  /** An id no trip carries leaves the stop and activity mutators without effect. */
  lemma UnknownTripKeepsStops(trips: seq<Trip>, tripId: string, stop: Stop, stopId: string,
                              order: seq<Stop>, a: ActivityInstance)
    requires forall i :: 0 <= i < |trips| ==> trips[i].id != tripId
    ensures AddStopTo(trips, tripId, stop) == trips
    ensures RemoveStopFrom(trips, tripId, stopId) == trips
    ensures ReorderStopsIn(trips, tripId, order) == trips
    ensures AddActivityTo(trips, tripId, stopId, a) == trips
    ensures RemoveActivityFrom(trips, tripId, stopId, a.id) == trips
  {
    var r1 := AddStopTo(trips, tripId, stop);
    assert forall i :: 0 <= i < |trips| ==> r1[i] == trips[i];
    var r2 := RemoveStopFrom(trips, tripId, stopId);
    assert forall i :: 0 <= i < |trips| ==> r2[i] == trips[i];
    var r3 := ReorderStopsIn(trips, tripId, order);
    assert forall i :: 0 <= i < |trips| ==> r3[i] == trips[i];
    var r4 := AddActivityTo(trips, tripId, stopId, a);
    assert forall i :: 0 <= i < |trips| ==> r4[i] == trips[i];
    var r5 := RemoveActivityFrom(trips, tripId, stopId, a.id);
    assert forall i :: 0 <= i < |trips| ==> r5[i] == trips[i];
  }

  /** Removing a stop right after adding it, by its (fresh) id, restores
      every trip exactly. */
  lemma AddStopThenRemove(trips: seq<Trip>, tripId: string, stop: Stop)
    requires forall i, j :: 0 <= i < |trips| && trips[i].id == tripId && 0 <= j < |trips[i].stops| ==>
      trips[i].stops[j].id != stop.id
    ensures RemoveStopFrom(AddStopTo(trips, tripId, stop), tripId, stop.id) == trips
  {
    var added := AddStopTo(trips, tripId, stop);
    var removed := RemoveStopFrom(added, tripId, stop.id);
    forall i | 0 <= i < |trips|
      ensures removed[i] == trips[i]
    {
      if trips[i].id == tripId {
        var keep := (s: Stop) => s.id != stop.id;
        FilterKeepsAll(trips[i].stops, keep);
        assert Filter(trips[i].stops + [stop], keep) == Filter(trips[i].stops, keep);
      }
    }
  }

  /** Removing an activity right after adding it, by its (fresh) id,
      restores every trip exactly. */
  lemma AddActivityThenRemove(trips: seq<Trip>, tripId: string, stopId: string, a: ActivityInstance)
    requires forall i, j, k ::
      (0 <= i < |trips| && trips[i].id == tripId && 0 <= j < |trips[i].stops| &&
       trips[i].stops[j].id == stopId && 0 <= k < |trips[i].stops[j].activities|) ==>
      trips[i].stops[j].activities[k].id != a.id
    ensures RemoveActivityFrom(AddActivityTo(trips, tripId, stopId, a), tripId, stopId, a.id) == trips
  {
    var added := AddActivityTo(trips, tripId, stopId, a);
    var removed := RemoveActivityFrom(added, tripId, stopId, a.id);
    forall i | 0 <= i < |trips|
      ensures removed[i] == trips[i]
    {
      if trips[i].id == tripId {
        var stops := trips[i].stops;
        var back := DropFromStop(AppendToStop(stops, stopId, a), stopId, a.id);
        forall j | 0 <= j < |stops|
          ensures back[j] == stops[j]
        {
          if stops[j].id == stopId {
            var keep := (x: ActivityInstance) => x.id != a.id;
            FilterKeepsAll(stops[j].activities, keep);
            assert Filter(stops[j].activities + [a], keep) == Filter(stops[j].activities, keep);
          }
        }
        assert back == stops;
      }
    }
  }

  /** Making a private trip public and toggling again leaves every trip with
      that id as it was, except that its link is null. */
  lemma TogglePublicTwice(trips: seq<Trip>, tripId: string, now1: nat, now2: nat)
    requires FindTrip(trips, tripId).Some? && !FindTrip(trips, tripId).value.isPublic
    ensures FindTrip(TogglePublicIn(trips, tripId, now1), tripId).Some?
    ensures var twice := TogglePublicIn(TogglePublicIn(trips, tripId, now1), tripId, now2);
      |twice| == |trips| &&
      forall i :: 0 <= i < |trips| ==>
        twice[i] == if trips[i].id == tripId then trips[i].(publicUrl := None) else trips[i]
  {
    var once := TogglePublicIn(trips, tripId, now1);
    var k := FindIndex(trips, (t: Trip) => t.id == tripId).value;
    assert once[k].id == tripId;
    var k1 := FindIndex(once, (t: Trip) => t.id == tripId).value;
    assert k1 == k by {
      assert forall j :: 0 <= j < |trips| ==> (once[j].id == tripId) == (trips[j].id == tripId);
    }
    assert FindTrip(once, tripId).value.isPublic;
  }

  /** Toggling a saved destination twice restores which ids are saved, and
      restores the list itself when the id was not saved. */
  lemma ToggleSavedTwice(saved: seq<string>, cityId: string)
    ensures forall x :: x in ToggleSaved(ToggleSaved(saved, cityId), cityId) <==> x in saved
    ensures cityId !in saved ==> ToggleSaved(ToggleSaved(saved, cityId), cityId) == saved
  {
    if cityId !in saved {
      var keep := (id: string) => id != cityId;
      FilterKeepsAll(saved, keep);
      assert Filter(saved + [cityId], keep) == Filter(saved, keep);
    }
  }

  /** A stop holding catalogue activities costing 150 and 200 contributes
      350 to the activities cost, which the plan adds to the four other
      allocations. */
  lemma ExampleTripCost(b: Budget, stop: Stop, catalogue: seq<Activity>, now1: nat, now2: nat, day: Option<Day>)
    requires |catalogue| >= 2 && catalogue[0].id == "a1" && catalogue[0].cost == 150
    requires catalogue[1].id == "a4" && catalogue[1].cost == 200
    requires stop.activities == []
    ensures var a1 := NewActivity(ActivityArgs("a1", day, "10:00"), now1, catalogue);
      var a4 := NewActivity(ActivityArgs("a4", day, "10:00"), now2, catalogue);
      var stops := AppendToStop(AppendToStop([stop], stop.id, a1), stop.id, a4);
      ActivitiesCost(stops) == 350 && PlannedSpend(b, stops) == b.transport + b.accommodation + b.food + b.other + 350
  {
    var a1 := NewActivity(ActivityArgs("a1", day, "10:00"), now1, catalogue);
    var a4 := NewActivity(ActivityArgs("a4", day, "10:00"), now2, catalogue);
    assert a1.origin == Catalogued(catalogue[0]);
    assert FindIndex(catalogue, (e: Activity) => e.id == "a4") == Some(1);
    assert a4.origin == Catalogued(catalogue[1]);
    var once := AppendToStop([stop], stop.id, a1);
    assert once[0] == stop.(activities := [] + [a1]);
    var stops := AppendToStop(once, stop.id, a4);
    assert stops[0] == stop.(activities := [a1] + [a4]);
    var acts := [a1, a4];
    assert acts[..1] == [a1] && [a1][..0] == [];
    assert SumOf(acts, InstanceCost) == SumOf([a1], InstanceCost) + InstanceCost(a4);
    assert SumOf([a1], InstanceCost) == InstanceCost(a1);
    assert StopCost(stops[0]) == 350;
    assert stops[..0] == [];
    assert ActivitiesCost(stops) == SumOf(stops[..0], StopCost) + StopCost(stops[0]);
  }

  class Store {
    const cities: seq<City>
    const activities: seq<Activity>
    var trips: seq<Trip>
    var currentTrip: Option<Trip>
    var savedDestinations: seq<string>

    /** A store over the given catalogue, trips and saved destinations, with no current trip. */
    constructor(cities: seq<City>, activities: seq<Activity>, trips: seq<Trip>, savedDestinations: seq<string>)
      ensures this.cities == cities && this.activities == activities
      ensures this.trips == trips && this.savedDestinations == savedDestinations
      ensures currentTrip == None
    {
      this.cities := cities;
      this.activities := activities;
      this.trips := trips;
      this.savedDestinations := savedDestinations;
      this.currentTrip := None;
    }

    method CreateTrip(data: TripData, now: nat, createdAt: string) returns (t: Trip)
      modifies this
      ensures t == NewTrip(data, now, createdAt)
      ensures trips == old(trips) + [t] && currentTrip == Some(t)
      ensures savedDestinations == old(savedDestinations)
    {
      t := NewTrip(data, now, createdAt);
      trips := trips + [t];
      currentTrip := Some(t);
    }

    method UpdateTrip(tripId: string, p: TripPatch)
      modifies this
      ensures trips == UpdateTripIn(old(trips), tripId, p)
      ensures currentTrip == if old(currentTrip).Some? && old(currentTrip).value.id == tripId
                             then Some(MergeTrip(old(currentTrip).value, p)) else old(currentTrip)
      ensures savedDestinations == old(savedDestinations)
    {
      trips := UpdateTripIn(trips, tripId, p);
      if currentTrip.Some? && currentTrip.value.id == tripId {
        currentTrip := Some(MergeTrip(currentTrip.value, p));
      }
    }

    method DeleteTrip(tripId: string)
      modifies this
      ensures trips == DeleteTripIn(old(trips), tripId)
      ensures currentTrip == if old(currentTrip).Some? && old(currentTrip).value.id == tripId
                             then None else old(currentTrip)
      ensures savedDestinations == old(savedDestinations)
    {
      trips := DeleteTripIn(trips, tripId);
      if currentTrip.Some? && currentTrip.value.id == tripId {
        currentTrip := None;
      }
    }

    method SetCurrentTrip(tripId: string)
      modifies this
      ensures currentTrip == FindTrip(trips, tripId)
      ensures trips == old(trips) && savedDestinations == old(savedDestinations)
    {
      currentTrip := FindTrip(trips, tripId);
    }

    /** Adds a stop to the trip; the current trip is not refreshed. */
    method AddStop(tripId: string, args: StopArgs, now: nat)
      modifies this
      ensures trips == AddStopTo(old(trips), tripId, NewStop(args, now, cities))
      ensures currentTrip == old(currentTrip) && savedDestinations == old(savedDestinations)
    {
      var stop := NewStop(args, now, cities);
      trips := AddStopTo(trips, tripId, stop);
    }

    method RemoveStop(tripId: string, stopId: string)
      modifies this
      ensures trips == RemoveStopFrom(old(trips), tripId, stopId)
      ensures currentTrip == old(currentTrip) && savedDestinations == old(savedDestinations)
    {
      trips := RemoveStopFrom(trips, tripId, stopId);
    }

    /** Replaces the stop list wholesale; nothing checks that `order` is a
        permutation of the old stops. */
    method ReorderStops(tripId: string, order: seq<Stop>)
      modifies this
      ensures trips == ReorderStopsIn(old(trips), tripId, order)
      ensures currentTrip == old(currentTrip) && savedDestinations == old(savedDestinations)
    {
      trips := ReorderStopsIn(trips, tripId, order);
    }

    method AddActivity(tripId: string, stopId: string, args: ActivityArgs, now: nat)
      modifies this
      ensures trips == AddActivityTo(old(trips), tripId, stopId, NewActivity(args, now, activities))
      ensures currentTrip == old(currentTrip) && savedDestinations == old(savedDestinations)
    {
      var a := NewActivity(args, now, activities);
      trips := AddActivityTo(trips, tripId, stopId, a);
    }

    method RemoveActivity(tripId: string, stopId: string, activityId: string)
      modifies this
      ensures trips == RemoveActivityFrom(old(trips), tripId, stopId, activityId)
      ensures currentTrip == old(currentTrip) && savedDestinations == old(savedDestinations)
    {
      trips := RemoveActivityFrom(trips, tripId, stopId, activityId);
    }

    method UpdateBudget(tripId: string, p: BudgetPatch)
      modifies this
      ensures trips == UpdateBudgetIn(old(trips), tripId, p)
      ensures currentTrip == old(currentTrip) && savedDestinations == old(savedDestinations)
    {
      trips := UpdateBudgetIn(trips, tripId, p);
    }

    /** The trip must exist: the source reads `isPublic` of the trip it found. */
    method TogglePublic(tripId: string, now: nat)
      requires FindTrip(trips, tripId).Some?
      modifies this
      ensures trips == TogglePublicIn(old(trips), tripId, now)
      ensures currentTrip == old(currentTrip) && savedDestinations == old(savedDestinations)
    {
      trips := TogglePublicIn(trips, tripId, now);
    }

    method ToggleSavedDestination(cityId: string)
      modifies this
      ensures savedDestinations == ToggleSaved(old(savedDestinations), cityId)
      ensures trips == old(trips) && currentTrip == old(currentTrip)
    {
      savedDestinations := ToggleSaved(savedDestinations, cityId);
    }

    /** The catalogue cities matching every enabled criterion, in catalogue order. */
    method SearchCities(query: string, filters: CityFilters) returns (results: seq<City>)
      ensures results == Filter(cities, (c: City) => CitySearchMatch(c, query, filters))
    {
      var byQuery := (c: City) => CityQueryOk(c, query);
      var byRegion := (c: City) => CityQueryOk(c, query) && (filters.region == "" || c.region == filters.region);
      var all := (c: City) => CitySearchMatch(c, query, filters);
      results := cities;
      if query != "" {
        results := Filter(results, (c: City) => CityMentions(c, query));
        FilterCongruent(cities, (c: City) => CityMentions(c, query), byQuery);
      } else {
        FilterKeepsAll(cities, byQuery);
      }
      assert results == Filter(cities, byQuery);
      if filters.region != "" {
        results := Filter(results, (c: City) => c.region == filters.region);
        FilterFilter(cities, byQuery, (c: City) => c.region == filters.region, byRegion);
      } else {
        FilterCongruent(cities, byQuery, byRegion);
      }
      assert results == Filter(cities, byRegion);
      if filters.maxCost != 0 {
        results := Filter(results, (c: City) => c.costIndex <= filters.maxCost);
        FilterFilter(cities, byRegion, (c: City) => c.costIndex <= filters.maxCost, all);
      } else {
        FilterCongruent(cities, byRegion, all);
      }
    }

    /** The catalogue activities matching every enabled criterion, in catalogue order. */
    method SearchActivities(query: string, filters: ActivityFilters) returns (results: seq<Activity>)
      ensures results == Filter(activities, (a: Activity) => ActivitySearchMatch(a, query, filters))
    {
      var p1 := (a: Activity) => query == "" || ActivityMentions(a, query);
      var p2 := (a: Activity) => p1(a) && (filters.category == "" || a.category == filters.category);
      var p3 := (a: Activity) => p2(a) && (filters.maxCost == 0 || a.cost <= filters.maxCost);
      var all := (a: Activity) => ActivitySearchMatch(a, query, filters);
      results := activities;
      if query != "" {
        results := Filter(results, (a: Activity) => ActivityMentions(a, query));
        FilterCongruent(activities, (a: Activity) => ActivityMentions(a, query), p1);
      } else {
        FilterKeepsAll(activities, p1);
      }
      if filters.category != "" {
        results := Filter(results, (a: Activity) => a.category == filters.category);
        FilterFilter(activities, p1, (a: Activity) => a.category == filters.category, p2);
      } else {
        FilterCongruent(activities, p1, p2);
      }
      if filters.maxCost != 0 {
        results := Filter(results, (a: Activity) => a.cost <= filters.maxCost);
        FilterFilter(activities, p2, (a: Activity) => a.cost <= filters.maxCost, p3);
      } else {
        FilterCongruent(activities, p2, p3);
      }
      if filters.maxDuration != 0 {
        results := Filter(results, (a: Activity) => a.duration <= filters.maxDuration);
        FilterFilter(activities, p3, (a: Activity) => a.duration <= filters.maxDuration, all);
      } else {
        FilterCongruent(activities, p3, all);
      }
    }

    /** The cost roll-up. None stands for the `0` returned for an unknown
        trip. Otherwise the record is the stored budget with `total`
        replaced by the planned spend: its `activities` field is the STORED
        allocation, because the spread of the budget overrides the derived
        activities cost written before it. */
    method CalculateTripCost(tripId: string) returns (r: Option<Budget>)
      ensures r.None? <==> forall i :: 0 <= i < |trips| ==> trips[i].id != tripId
      ensures r.Some? ==> (FindTrip(trips, tripId).Some? &&
        var t := FindTrip(trips, tripId).value;
        r.value == t.budget.(total := PlannedSpend(t.budget, t.stops)))
    {
      var found := FindTrip(trips, tripId);
      if found.None? {
        return None;
      }
      var trip := found.value;
      var totalActivitiesCost := 0;
      var i := 0;
      while i < |trip.stops|
        invariant 0 <= i <= |trip.stops|
        invariant totalActivitiesCost == ActivitiesCost(trip.stops[..i])
      {
        var stop := trip.stops[i];
        var j := 0;
        while j < |stop.activities|
          invariant 0 <= j <= |stop.activities|
          invariant totalActivitiesCost == ActivitiesCost(trip.stops[..i]) + SumOf(stop.activities[..j], InstanceCost)
        {
          totalActivitiesCost := totalActivitiesCost + InstanceCost(stop.activities[j]);
          assert stop.activities[..j + 1][..j] == stop.activities[..j];
          j := j + 1;
        }
        assert stop.activities[..j] == stop.activities;
        assert trip.stops[..i + 1][..i] == trip.stops[..i];
        i := i + 1;
      }
      assert trip.stops[..i] == trip.stops;
      var b := trip.budget;
      r := Some(Budget(b.transport + b.accommodation + totalActivitiesCost + b.food + b.other,
                       b.transport, b.accommodation, b.activities, b.food, b.other));
    }
  }
}
