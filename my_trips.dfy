/** The trip list page: the search and status filter over the trips, and
    the badge colour of a status. */
module MyTrips {
  import opened Wrappers
  import opened Seqs
  import opened Text
  import opened Domain

  /** The query in the name or, when there is one, the description, and the
      status filter unless it is 'all'. */
  predicate PageMatch(t: Trip, query: string, status: string) {
    && (ContainsIgnoringCase(t.name, query) ||
        (t.description.Some? && ContainsIgnoringCase(t.description.value, query)))
    && (status == "all" || t.status == status)
  }

  /** `filteredTrips`: the matching trips in their original order. */
  function FilteredTrips(trips: seq<Trip>, query: string, status: string): (r: seq<Trip>)
    ensures Picks(trips, KeptPositions(trips, (t: Trip) => PageMatch(t, query, status)), r)
    ensures forall i :: 0 <= i < |r| ==> r[i] in trips && PageMatch(r[i], query, status)
    ensures forall i :: 0 <= i < |trips| && PageMatch(trips[i], query, status) ==> trips[i] in r
  {
    FilterPicks(trips, (t: Trip) => PageMatch(t, query, status));
    Filter(trips, (t: Trip) => PageMatch(t, query, status))
  }

  /** Without a query and with 'all', every trip is listed. */
  lemma NoFilterListsAll(trips: seq<Trip>)
    ensures FilteredTrips(trips, "", "all") == trips
  {
    forall t | t in trips
      ensures PageMatch(t, "", "all")
    {
      EmptyQueryMatches(t.name);
    }
    FilterKeepsAll(trips, (t: Trip) => PageMatch(t, "", "all"));
  }

  /** A status other than 'all' lists only trips with exactly that status,
      and with an empty query lists all of them. */
  lemma StatusFilterIsExact(trips: seq<Trip>, query: string, status: string)
    requires status != "all"
    ensures var r := FilteredTrips(trips, query, status);
      forall i :: 0 <= i < |r| ==> r[i].status == status
    ensures var r := FilteredTrips(trips, "", status);
      forall i :: 0 <= i < |trips| && trips[i].status == status ==> trips[i] in r
  {
    forall i | 0 <= i < |trips| && trips[i].status == status
      ensures PageMatch(trips[i], "", status)
    {
      EmptyQueryMatches(trips[i].name);
    }
  }

  /** Narrowing by a status keeps the subsequence of the 'all' listing with that status. */
  lemma StatusNarrowsAllListing(trips: seq<Trip>, query: string, status: string)
    requires status != "all"
    ensures FilteredTrips(trips, query, status) ==
      Filter(FilteredTrips(trips, query, "all"), (t: Trip) => t.status == status)
  {
    FilterFilter(trips, (t: Trip) => PageMatch(t, query, "all"), (t: Trip) => t.status == status,
                 (t: Trip) => PageMatch(t, query, status));
  }

  /** `getStatusColor`. */
  function GetStatusColor(status: string): (color: string)
    ensures status == "confirmed" ==> color == "badge-emerald"
    ensures status == "draft" ==> color == "badge-blue"
    ensures status != "confirmed" && status != "draft" ==> color == "badge-amber"
  {
    match status
    case "confirmed" => "badge-emerald"
    case "upcoming" => "badge-amber"
    case "draft" => "badge-blue"
    case _ => "badge-amber"
  }
}
