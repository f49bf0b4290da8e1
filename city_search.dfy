/** The city search page: the filter over the catalogue, the in-place sort
    of the filtered cities, and the cost tier label. */
module CitySearch {
  import opened Wrappers
  import opened Seqs
  import opened Text
  import opened Domain
  import opened TripStore

  /** The page's filter: the query in name or country, the selected region
      unless it is 'all', and a cost index within the ceiling (always applied). */
  predicate PageMatch(c: City, query: string, region: string, maxCost: int) {
    && CityMentions(c, query)
    && (region == "all" || c.region == region)
    && c.costIndex <= maxCost
  }

  /** For a real region and a non-zero ceiling the page keeps exactly the
      cities the store's search returns. */
  lemma PageMatchAgreesWithStore(cities: seq<City>, query: string, region: string, maxCost: int)
    requires region != "all" && region != "" && maxCost != 0
    ensures Filter(cities, (c: City) => PageMatch(c, query, region, maxCost)) ==
            Filter(cities, (c: City) => CitySearchMatch(c, query, CityFilters(region, maxCost)))
  {
    forall c: City
      ensures PageMatch(c, query, region, maxCost) == CitySearchMatch(c, query, CityFilters(region, maxCost))
    {
      if query == "" {
        EmptyQueryMatches(c.name);
      }
    }
    FilterCongruent(cities, (c: City) => PageMatch(c, query, region, maxCost),
                    (c: City) => CitySearchMatch(c, query, CityFilters(region, maxCost)));
  }

  /** The sort key of a sort mode: cities ascend by the key. 'name' orders by
      `localeCompare`, which is not part of this model, and any other mode
      leaves the order alone; neither has a key. */
  function SortKey(sortBy: string): (key: Option<City -> int>)
    ensures key.Some? <==> sortBy in {"popularity", "cost-low", "cost-high"}
  {
    if sortBy == "popularity" then Some((c: City) => -c.popularity)
    else if sortBy == "cost-low" then Some((c: City) => c.costIndex)
    else if sortBy == "cost-high" then Some((c: City) => -c.costIndex)
    else None
  }

  /** The three keyed sorts, in the page's own terms. */
  lemma SortKeyMeaning(sortBy: string, a: City, b: City)
    ensures sortBy == "popularity" ==> (SortKey(sortBy).value(a) <= SortKey(sortBy).value(b) <==> a.popularity >= b.popularity)
    ensures sortBy == "cost-low" ==> (SortKey(sortBy).value(a) <= SortKey(sortBy).value(b) <==> a.costIndex <= b.costIndex)
    ensures sortBy == "cost-high" ==> (SortKey(sortBy).value(a) <= SortKey(sortBy).value(b) <==> a.costIndex >= b.costIndex)
  {
  }

  predicate SortedBy(s: seq<City>, key: City -> int) {
    forall p, q :: 0 <= p < q < |s| ==> key(s[p]) <= key(s[q])
  }

  /** Halfway through inserting `s[j]` into the sorted prefix `s[..i+1]`:
      apart from position j the prefix is in order, and `s[j]` is below
      everything after it. */
  predicate Inserting(s: seq<City>, i: nat, j: nat, key: City -> int)
    requires j <= i < |s|
  {
    && (forall p, q :: 0 <= p < q <= i && p != j && q != j ==> key(s[p]) <= key(s[q]))
    && (forall q :: j < q <= i ==> key(s[j]) < key(s[q]))
  }

  /** A sorted prefix of length i with one more element after it is where
      the insertion starts. */
  lemma StartInserting(s: seq<City>, i: nat, key: City -> int)
    requires i < |s| && SortedBy(s[..i], key)
    ensures Inserting(s, i, i, key)
  {
    forall p, q | 0 <= p < q <= i && p != i && q != i
      ensures key(s[p]) <= key(s[q])
    {
      assert s[p] == s[..i][p] && s[q] == s[..i][q];
    }
  }

  /** Swapping the inserted element with a larger left neighbour moves the
      insertion one place left. */
  lemma SwapLeft(s: seq<City>, i: nat, j: nat, key: City -> int)
    requires 0 < j <= i < |s| && Inserting(s, i, j, key) && key(s[j - 1]) > key(s[j])
    ensures Inserting(s[j - 1 := s[j]][j := s[j - 1]], i, j - 1, key)
    ensures multiset(s[j - 1 := s[j]][j := s[j - 1]]) == multiset(s)
  {
    var t := s[j - 1 := s[j]][j := s[j - 1]];
    forall p, q | 0 <= p < q <= i && p != j - 1 && q != j - 1
      ensures key(t[p]) <= key(t[q])
    {
      if p == j {
        assert key(s[j - 1]) <= key(s[q]) || q > j;
      }
    }
  }

  /** Once the inserted element is not below its left neighbour, the prefix
      up to i is sorted. */
  lemma DoneInserting(s: seq<City>, i: nat, j: nat, key: City -> int)
    requires j <= i < |s| && Inserting(s, i, j, key)
    requires j == 0 || key(s[j - 1]) <= key(s[j])
    ensures SortedBy(s[..i + 1], key)
  {
    forall p, q | 0 <= p < q <= i
      ensures key(s[p]) <= key(s[q])
    {
      if p == j || q == j {
        if q == j && 0 < j {
          assert p == j - 1 || key(s[p]) <= key(s[j - 1]);
        }
      }
    }
  }

  /** `filteredCities.sort(...)`: sorts the array in place by ascending key,
      keeping its elements. */
  method SortByKey(a: array<City>, key: City -> int)
    modifies a
    ensures SortedBy(a[..], key)
    ensures multiset(a[..]) == multiset(old(a[..]))
  {
    if a.Length == 0 {
      return;
    }
    var i := 1;
    while i < a.Length
      invariant 1 <= i <= a.Length
      invariant SortedBy(a[..i], key)
      invariant multiset(a[..]) == multiset(old(a[..]))
    {
      StartInserting(a[..], i, key);
      var j := i;
      while j > 0 && key(a[j - 1]) > key(a[j])
        invariant 0 <= j <= i
        invariant Inserting(a[..], i, j, key)
        invariant multiset(a[..]) == multiset(old(a[..]))
      {
        SwapLeft(a[..], i, j, key);
        a[j - 1], a[j] := a[j], a[j - 1];
        j := j - 1;
      }
      DoneInserting(a[..], i, j, key);
      i := i + 1;
    }
    assert a[..] == a[..a.Length];
  }

  /** The filtered and sorted list the page shows: the cities passing the
      filter, rearranged into ascending key order for a keyed sort and in
      catalogue order for a mode the page does not sort by. The 'name' sort
      compares with `localeCompare`, which is not part of this model: for it
      only the contents are promised. */
  method FilterAndSort(cities: seq<City>, query: string, region: string, maxCost: int, sortBy: string)
    returns (result: seq<City>)
    ensures multiset(result) == multiset(Filter(cities, (c: City) => PageMatch(c, query, region, maxCost)))
    ensures forall i :: 0 <= i < |result| ==> result[i] in cities && PageMatch(result[i], query, region, maxCost)
    ensures SortKey(sortBy).Some? ==> SortedBy(result, SortKey(sortBy).value)
    ensures SortKey(sortBy).None? && sortBy != "name" ==> result == Filter(cities, (c: City) => PageMatch(c, query, region, maxCost))
  {
    var filtered := Filter(cities, (c: City) => PageMatch(c, query, region, maxCost));
    result := filtered;
    var key := SortKey(sortBy);
    if key.Some? {
      var a := new City[|filtered|](i requires 0 <= i < |filtered| => filtered[i]);
      assert a[..] == filtered;
      SortByKey(a, key.value);
      result := a[..];
      forall i | 0 <= i < |result|
        ensures result[i] in cities && PageMatch(result[i], query, region, maxCost)
      {
        assert result[i] in multiset(filtered);
      }
    }
  }

  /** A cost tier and its colour. */
  datatype CostLabel = CostLabel(tier: string, color: string)

  /** `getCostLabel`: up to 100 is 'Budget', up to 200 'Moderate', above
      that 'Luxury'. */
  function GetCostLabel(costIndex: int): (r: CostLabel)
    ensures costIndex <= 100 ==> r == CostLabel("Budget", "text-emerald-400")
    ensures 100 < costIndex <= 200 ==> r == CostLabel("Moderate", "text-amber-400")
    ensures 200 < costIndex ==> r == CostLabel("Luxury", "text-rose-400")
  {
    if costIndex <= 100 then CostLabel("Budget", "text-emerald-400")
    else if costIndex <= 200 then CostLabel("Moderate", "text-amber-400")
    else CostLabel("Luxury", "text-rose-400")
  }

  function TierRank(l: CostLabel): int {
    if l.tier == "Budget" then 0 else if l.tier == "Moderate" then 1 else 2
  }

  /** A dearer city never gets a cheaper tier. */
  lemma CostTierMonotone(c1: int, c2: int)
    requires c1 <= c2
    ensures TierRank(GetCostLabel(c1)) <= TierRank(GetCostLabel(c2))
  {
  }
}
