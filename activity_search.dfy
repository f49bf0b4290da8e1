/** The activity search page: the filter over the catalogue, and the icon
    and colour shown for a category. */
module ActivitySearch {
  import opened Wrappers
  import opened Seqs
  import opened Text
  import opened Domain

  /** The query in the name or, when there is one, the description; the
      category is not searched. */
  predicate QueryMatch(a: Activity, query: string) {
    ContainsIgnoringCase(a.name, query) ||
    (a.description.Some? && ContainsIgnoringCase(a.description.value, query))
  }

  /** The page's filter: the query, the selected category unless it is
      'all', and both ceilings (always applied). */
  predicate PageMatch(a: Activity, query: string, category: string, maxCost: int, maxDuration: int) {
    && QueryMatch(a, query)
    && (category == "all" || a.category == category)
    && a.cost <= maxCost
    && a.duration <= maxDuration
  }

  /** `filteredActivities`: the matching catalogue activities, in catalogue order. */
  function FilteredActivities(activities: seq<Activity>, query: string, category: string, maxCost: int, maxDuration: int)
    : (r: seq<Activity>)
    ensures Picks(activities, KeptPositions(activities, (a: Activity) => PageMatch(a, query, category, maxCost, maxDuration)), r)
    ensures forall i :: 0 <= i < |r| ==> r[i] in activities && PageMatch(r[i], query, category, maxCost, maxDuration)
    ensures forall i :: 0 <= i < |activities| && PageMatch(activities[i], query, category, maxCost, maxDuration) ==>
      activities[i] in r
  {
    FilterPicks(activities, (a: Activity) => PageMatch(a, query, category, maxCost, maxDuration));
    Filter(activities, (a: Activity) => PageMatch(a, query, category, maxCost, maxDuration))
  }

  /** With an empty query only the category and the ceilings restrict, so
      with 'all' and ceilings every activity meets, the whole catalogue is shown. */
  lemma EmptyQueryKeepsEverything(activities: seq<Activity>, category: string, maxCost: int, maxDuration: int)
    ensures forall a: Activity :: PageMatch(a, "", category, maxCost, maxDuration) <==>
      (category == "all" || a.category == category) && a.cost <= maxCost && a.duration <= maxDuration
    ensures (forall i :: 0 <= i < |activities| ==> activities[i].cost <= maxCost && activities[i].duration <= maxDuration) ==>
      FilteredActivities(activities, "", "all", maxCost, maxDuration) == activities
  {
    forall a: Activity
      ensures QueryMatch(a, "")
    {
      EmptyQueryMatches(a.name);
    }
    if forall i :: 0 <= i < |activities| ==> activities[i].cost <= maxCost && activities[i].duration <= maxDuration {
      FilterKeepsAll(activities, (a: Activity) => PageMatch(a, "", "all", maxCost, maxDuration));
    }
  }

  /** One row of the category menu. */
  datatype CategoryOption = CategoryOption(value: string, name: string, icon: string)

  const Categories: seq<CategoryOption> := [
    CategoryOption("all", "All Categories", "\U{1F31F}"),
    CategoryOption("adventure", "Adventure", "\U{1F3AF}"),
    CategoryOption("cultural", "Cultural", "\U{1F3DB}\U{FE0F}"),
    CategoryOption("food", "Food & Dining", "\U{1F37D}\U{FE0F}"),
    CategoryOption("relaxation", "Relaxation", "\U{1F9D8}"),
    CategoryOption("shopping", "Shopping", "\U{1F6CD}\U{FE0F}")
  ]

  /** `getCategoryIcon`: the icon of the menu row with that value, the star
      when there is none. */
  function GetCategoryIcon(category: string): (icon: string)
    ensures forall i :: 0 <= i < |Categories| && Categories[i].value == category ==> icon == Categories[i].icon
    ensures (forall i :: 0 <= i < |Categories| ==> Categories[i].value != category) ==> icon == "\U{1F31F}"
  {
    match Find(Categories, (c: CategoryOption) => c.value == category)
    case Some(c) => if c.icon != "" then c.icon else "\U{1F31F}"
    case None => "\U{1F31F}"
  }

  /** `getCategoryColor`: the five known categories' gradients, blue otherwise. */
  function GetCategoryColor(category: string): (color: string)
    ensures category == "adventure" || category == "food" ==> color == "gradient-amber"
    ensures category == "relaxation" ==> color == "gradient-emerald"
    ensures category == "shopping" ==> color == "gradient-pink"
    ensures category !in {"adventure", "food", "relaxation", "shopping"} ==> color == "gradient-blue"
  {
    match category
    case "adventure" => "gradient-amber"
    case "cultural" => "gradient-blue"
    case "food" => "gradient-amber"
    case "relaxation" => "gradient-emerald"
    case "shopping" => "gradient-pink"
    case _ => "gradient-blue"
  }
}
