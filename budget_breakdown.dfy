/** The budget breakdown page: the activities cost derived from the stops,
    the spend and what remains of the budget, the pie slices, the daily bar
    labels and the category list. */
module BudgetBreakdown {
  import opened Wrappers
  import opened Seqs
  import opened Text
  import opened Domain

  /** `activitiesCost`: the nested `reduce` over the stops' activity costs. */
  function PageActivitiesCost(stops: seq<Stop>): (cost: int)
    ensures cost == ActivitiesCost(stops)
  {
    ReduceCostAgrees(stops);
    ReduceActivitiesCost(stops)
  }

  /** `totalSpent`: the four stored allocations besides `activities`, plus the
      derived activities cost. */
  function TotalSpent(b: Budget, stops: seq<Stop>): (spent: int)
    ensures spent == PlannedSpend(b, stops)
  {
    b.transport + b.accommodation + PageActivitiesCost(stops) + b.food + b.other
  }

  /** `remaining`: what is left of the total after the spend. */
  function Remaining(b: Budget, stops: seq<Stop>): (left: int)
    ensures left + PlannedSpend(b, stops) == b.total
  {
    b.total - TotalSpent(b, stops)
  }

  /** `isOverBudget`: the spend exceeds the total. */
  predicate IsOverBudget(b: Budget, stops: seq<Stop>)
  {
    Remaining(b, stops) < 0
  }

  /** The page is over budget exactly when the plan costs more than the
      total, and the stored `activities` allocation plays no part. */
  lemma OverBudgetIffPlanExceedsTotal(b: Budget, stops: seq<Stop>, storedActivities: int)
    ensures IsOverBudget(b, stops) <==> PlannedSpend(b, stops) > b.total
    ensures IsOverBudget(b.(activities := storedActivities), stops) == IsOverBudget(b, stops)
    ensures TotalSpent(b.(activities := storedActivities), stops) == TotalSpent(b, stops)
  {
  }

  /** The five spending categories, in the order every chart lists them. */
  datatype Category = Transport | Accommodation | Activities | Food | Other

  function Rank(c: Category): int {
    match c
    case Transport => 0
    case Accommodation => 1
    case Activities => 2
    case Food => 3
    case Other => 4
  }

  /** A pie slice or a category row: its category, label, amount and colour. */
  datatype Slice = Slice(category: Category, name: string, value: int, color: string)

  /** The sum of a five-row table is the sum of its rows. */
  lemma {:induction false} FiveRowTotal(r: seq<Slice>)
    requires |r| == 5
    ensures SumOf(r, (s: Slice) => s.value) == r[0].value + r[1].value + r[2].value + r[3].value + r[4].value
  {
    var f := (s: Slice) => s.value;
    assert r[..4][..3] == r[..3] && r[..3][..2] == r[..2] && r[..2][..1] == r[..1] && r[..1][..0] == [];
    assert SumOf(r[..1], f) == r[0].value;
    assert SumOf(r[..2], f) == SumOf(r[..1], f) + r[1].value;
    assert SumOf(r[..3], f) == SumOf(r[..2], f) + r[2].value;
    assert SumOf(r[..4], f) == SumOf(r[..3], f) + r[3].value;
  }

  /** The five slices before filtering, in their fixed order. */
  function AllSlices(b: Budget, activitiesCost: int): (r: seq<Slice>)
    ensures |r| == 5
    ensures forall i :: 0 <= i < 5 ==> Rank(r[i].category) == i
    ensures r[0].value == b.transport && r[1].value == b.accommodation && r[2].value == activitiesCost
    ensures r[3].value == b.food && r[4].value == b.other
  {
    [Slice(Transport, "Transport", b.transport, "#3b82f6"),
     Slice(Accommodation, "Accommodation", b.accommodation, "#8b5cf6"),
     Slice(Activities, "Activities", activitiesCost, "#f59e0b"),
     Slice(Food, "Food", b.food, "#10b981"),
     Slice(Other, "Other", b.other, "#6366f1")]
  }

  /** `pieData`: the slices with a positive value. */
  function PieData(b: Budget, activitiesCost: int): (r: seq<Slice>)
    ensures |r| <= 5
    ensures forall i :: 0 <= i < |r| ==> r[i].value > 0 && r[i] in AllSlices(b, activitiesCost)
    ensures forall i :: 0 <= i < 5 && AllSlices(b, activitiesCost)[i].value > 0 ==> AllSlices(b, activitiesCost)[i] in r
    ensures forall i, j :: 0 <= i < j < |r| ==> Rank(r[i].category) < Rank(r[j].category)
  {
    var all := AllSlices(b, activitiesCost);
    var positive := (s: Slice) => s.value > 0;
    FilterKeepsOrder(all, positive, (s: Slice) => Rank(s.category));
    var r := Filter(all, positive);
    assert Increasing(r, (s: Slice) => Rank(s.category));
    assert forall i :: 0 <= i < 5 && all[i].value > 0 ==> all[i] in r by {
      assert forall i :: 0 <= i < |all| && positive(all[i]) ==> all[i] in r;
    }
    r
  }

  /** With no negative amount, the pie shows the whole spend. */
  lemma PieShowsAllSpend(b: Budget, stops: seq<Stop>)
    requires b.transport >= 0 && b.accommodation >= 0 && b.food >= 0 && b.other >= 0
    requires ActivitiesCost(stops) >= 0
    ensures SumOf(PieData(b, PageActivitiesCost(stops)), (s: Slice) => s.value) == TotalSpent(b, stops)
  {
    var all := AllSlices(b, PageActivitiesCost(stops));
    SumWithoutZeros(all, (s: Slice) => s.value, (s: Slice) => s.value > 0);
    FiveRowTotal(all);
  }

  /** `tripDays` of the bar chart: the day difference when both dates are
      present, a week otherwise. */
  function BarTripDays(startDate: Option<Day>, endDate: Option<Day>): (days: int)
    ensures startDate.None? || endDate.None? ==> days == 7
    ensures startDate.Some? && endDate.Some? ==> startDate.value + days == endDate.value
  {
    if startDate.Some? && endDate.Some? then endDate.value - startDate.value else 7
  }

  /** The labels of `barData`: "Day 1" … "Day k" for k = min(tripDays, 10),
      none when that is not positive. */
  function BarLabels(tripDays: int): (labels: seq<string>)
    ensures |labels| == if tripDays <= 0 then 0 else if tripDays < 10 then tripDays else 10
    ensures forall i :: 0 <= i < |labels| ==> labels[i] == "Day " + Decimal(i + 1)
  {
    var n := if tripDays < 10 then tripDays else 10;
    if n <= 0 then [] else seq(n, (i: int) requires 0 <= i => "Day " + Decimal(i + 1))
  }

  /** No two bars share a label. */
  lemma BarLabelsDistinct(tripDays: int)
    ensures var labels := BarLabels(tripDays);
      forall i, j :: 0 <= i < j < |labels| ==> labels[i] != labels[j]
  {
    var labels := BarLabels(tripDays);
    forall i, j | 0 <= i < j < |labels|
      ensures labels[i] != labels[j]
    {
      DecimalInjective(i + 1, j + 1);
      assert labels[i][4..] == Decimal(i + 1);
      assert labels[j][4..] == Decimal(j + 1);
    }
  }

  /** The category list: always the five categories, activities carrying the
      derived cost. */
  function Categories(b: Budget, activitiesCost: int): (r: seq<Slice>)
    ensures |r| == 5 && r[2].value == activitiesCost
    ensures r[0].value == b.transport && r[1].value == b.accommodation
    ensures r[3].value == b.food && r[4].value == b.other
    ensures forall i :: 0 <= i < 5 ==> Rank(r[i].category) == i
  {
    [Slice(Transport, "Transport", b.transport, "text-blue-400"),
     Slice(Accommodation, "Accommodation", b.accommodation, "text-purple-400"),
     Slice(Activities, "Activities", activitiesCost, "text-amber-400"),
     Slice(Food, "Food & Dining", b.food, "text-emerald-400"),
     Slice(Other, "Other", b.other, "text-indigo-400")]
  }

  /** The category amounts add up to the spend. */
  lemma CategoriesAddUpToSpend(b: Budget, stops: seq<Stop>)
    ensures SumOf(Categories(b, PageActivitiesCost(stops)), (s: Slice) => s.value) == TotalSpent(b, stops)
  {
    FiveRowTotal(Categories(b, PageActivitiesCost(stops)));
  }
}
