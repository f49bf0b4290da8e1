/** The public itinerary page: the shared trip found by its link or id,
    the path a shared link uses, the summary totals, and the one stop whose
    details are open. */
module PublicItinerary {
  import opened Wrappers
  import opened Seqs
  import opened Domain

  /** The trip a `/share/<segment>` link shows: the first trip whose public
      link or whose id equals the segment. */
  predicate Shares(t: Trip, segment: string) {
    t.publicUrl == Some(segment) || t.id == segment
  }

  function FindShared(trips: seq<Trip>, segment: string): (r: Option<Trip>)
    ensures r.None? <==> forall i :: 0 <= i < |trips| ==> !Shares(trips[i], segment)
    ensures r.Some? ==> r.value in trips && Shares(r.value, segment)
    ensures r.Some? ==> exists i :: 0 <= i < |trips| && trips[i] == r.value && forall j :: 0 <= j < i ==> !Shares(trips[j], segment)
  {
    Find(trips, (t: Trip) => Shares(t, segment))
  }

  /** The segment of `shareUrl`: the public link, or the id while the trip
      has none (`publicUrl || id`, so an empty link falls back too). */
  function SharePath(t: Trip): (path: string)
    ensures t.publicUrl.Some? && t.publicUrl.value != "" ==> path == t.publicUrl.value
    ensures t.publicUrl.None? || t.publicUrl.value == "" ==> path == t.id
  {
    if t.publicUrl.Some? && t.publicUrl.value != "" then t.publicUrl.value else t.id
  }

  /** The share path of a listed trip always opens a trip; it opens that very
      trip when no other trip carries the same path as its link or id. */
  lemma SharePathLeadsBack(trips: seq<Trip>, k: nat)
    requires k < |trips|
    ensures FindShared(trips, SharePath(trips[k])).Some?
    ensures (forall i :: 0 <= i < |trips| && Shares(trips[i], SharePath(trips[k])) ==> trips[i] == trips[k]) ==>
      FindShared(trips, SharePath(trips[k])) == Some(trips[k])
  {
    assert Shares(trips[k], SharePath(trips[k]));
  }

  /** The summary the page shows. */
  datatype Summary = Summary(totalCost: int, totalDays: int, totalActivities: int)

  /** `totalCost` and `totalActivities` (the `reduce`s over the stops), and
      `totalDays`: the day difference plus one when both dates are present,
      else the number of stops. */
  function Totals(trip: Trip): (r: Summary)
    ensures r.totalCost == ActivitiesCost(trip.stops)
    ensures r.totalActivities == ActivityCount(trip.stops)
    ensures trip.startDate.Some? && trip.endDate.Some? ==> r.totalDays == trip.endDate.value - trip.startDate.value + 1
    ensures trip.startDate.None? || trip.endDate.None? ==> r.totalDays == |trip.stops|
  {
    ReduceCostAgrees(trip.stops);
    ReduceCountAgrees(trip.stops);
    var days := if trip.startDate.Some? && trip.endDate.Some?
                then trip.endDate.value - trip.startDate.value + 1 else |trip.stops|;
    Summary(ReduceActivitiesCost(trip.stops), days, ReduceActivityCount(trip.stops))
  }

  /** The open stop after a click on stop `index`: closed (-1) if it was
      open, that stop otherwise. */
  function NextExpanded(expandedDay: int, index: nat): (r: int)
    ensures r == -1 || r == index
    ensures r == index <==> expandedDay != index
  {
    if expandedDay == index then -1 else index
  }

  /** Two clicks on the same stop leave it open exactly when it was open
      before, and otherwise leave nothing open. */
  lemma ClickTwice(expandedDay: int, index: nat)
    ensures NextExpanded(NextExpanded(expandedDay, index), index) == if expandedDay == index then index else -1
  {
  }
}
