/** The records the trip store holds and the pages read (catalogue cities
    and activities, booked activity instances, stops, budgets, trips), and
    the cost and count every page derives from a trip's stops. */
module Domain {
  import opened Wrappers
  import opened Seqs
  import opened Text

  /** A calendar date, as a day number. */
  type Day = int

  /** A catalogue city. `popularity` is in tenths of a star (4.9 is 49). */
  datatype City = City(
    id: string, name: string, country: string, region: string,
    costIndex: int, popularity: int, image: string, description: string)

  /** A catalogue activity; `duration` is in hours. */
  datatype Activity = Activity(
    id: string, name: string, category: string, cost: int, duration: int,
    image: string, description: Option<string>)

  /** Where a booked activity's fields come from: the catalogue entry it
      copies, or, when the requested id is not in the catalogue, the request
      itself (which carries `activityId` and no cost). */
  datatype Origin = Catalogued(entry: Activity) | Uncatalogued(activityId: string)

  /** An activity booked on a stop: its own id, the copied fields and the schedule. */
  datatype ActivityInstance = ActivityInstance(
    id: string, origin: Origin, scheduledDate: Option<Day>, scheduledTime: string)

  /** A city visit within a trip. `city` is missing when `cityId` was not in
      the catalogue at the time the stop was added. */
  datatype Stop = Stop(
    id: string, cityId: string, city: Option<City>,
    arrivalDate: Option<Day>, departureDate: Option<Day>,
    activities: seq<ActivityInstance>)

  datatype Budget = Budget(
    total: int, transport: int, accommodation: int, activities: int, food: int, other: int)

  datatype Trip = Trip(
    id: string, name: string, description: Option<string>,
    startDate: Option<Day>, endDate: Option<Day>, coverPhoto: Option<string>,
    status: string, isPublic: bool, publicUrl: Option<string>,
    stops: seq<Stop>, budget: Budget, createdAt: string)

  /** `activity.cost || 0`: an instance copied from the request has no cost. */
  function InstanceCost(a: ActivityInstance): int {
    match a.origin
    case Catalogued(entry) => entry.cost
    case Uncatalogued(_) => 0
  }

  function StopCost(s: Stop): int {
    SumOf(s.activities, InstanceCost)
  }

  function StopSize(s: Stop): int {
    |s.activities|
  }

  /** The cost of every activity instance over all stops. */
  function ActivitiesCost(stops: seq<Stop>): int {
    SumOf(stops, StopCost)
  }

  /** The number of activity instances over all stops. */
  function ActivityCount(stops: seq<Stop>): int {
    SumOf(stops, StopSize)
  }

  /** What a trip's plan costs: the four stored allocations other than
      `activities`, plus the activities cost derived from the stops. */
  function PlannedSpend(b: Budget, stops: seq<Stop>): int {
    b.transport + b.accommodation + ActivitiesCost(stops) + b.food + b.other
  }

  /** `stop.activities.reduce((aSum, a) => aSum + (a.cost || 0), 0)`. */
  function StopCostByReduce(s: Stop): int {
    FoldSum(0, s.activities, InstanceCost)
  }

  /** `stops.reduce((sum, stop) => sum + <that stop's reduce>, 0)`. */
  function ReduceActivitiesCost(stops: seq<Stop>): int {
    FoldSum(0, stops, StopCostByReduce)
  }

  /** `stops.reduce((sum, stop) => sum + stop.activities.length, 0)`. */
  function ReduceActivityCount(stops: seq<Stop>): int {
    FoldSum(0, stops, StopSize)
  }

  /** The pages' `reduce` computes the same activities cost as the store's loops. */
  lemma ReduceCostAgrees(stops: seq<Stop>)
    ensures ReduceActivitiesCost(stops) == ActivitiesCost(stops)
  {
    FoldSumIsSum(0, stops, StopCostByReduce);
    forall s | s in stops
      ensures StopCostByReduce(s) == StopCost(s)
    {
      FoldSumIsSum(0, s.activities, InstanceCost);
    }
    SumCongruent(stops, StopCostByReduce, StopCost);
  }

  /** The pages' `reduce` counts every activity instance once. */
  lemma ReduceCountAgrees(stops: seq<Stop>)
    ensures ReduceActivityCount(stops) == ActivityCount(stops)
  {
    FoldSumIsSum(0, stops, StopSize);
  }

  /** Reordering the stops (a permutation) changes neither the activities
      cost nor the activity count. */
  lemma ReorderKeepsTotals(stops: seq<Stop>, order: seq<Stop>)
    requires multiset(order) == multiset(stops)
    ensures ActivitiesCost(order) == ActivitiesCost(stops)
    ensures ActivityCount(order) == ActivityCount(stops)
  {
    SumPermutation(order, stops, StopCost);
    SumPermutation(order, stops, StopSize);
  }

  /** The name or the country contains the query, ignoring case. */
  predicate CityMentions(c: City, query: string) {
    ContainsIgnoringCase(c.name, query) || ContainsIgnoringCase(c.country, query)
  }

  /** The name or the category contains the query, ignoring case. */
  predicate ActivityMentions(a: Activity, query: string) {
    ContainsIgnoringCase(a.name, query) || ContainsIgnoringCase(a.category, query)
  }
}
