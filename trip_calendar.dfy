/** The trip calendar page: the span of calendar days, the spread of a
    trip's activity instances over those days, and the stop shown for a
    day. Dates are day numbers; a day index is a date minus the start. */
module TripCalendar {
  import opened Wrappers
  import opened Seqs
  import opened Text
  import opened Domain

  /** The first calendar day: the trip's start, or today without one. */
  function StartDay(startDate: Option<Day>, today: Day): Day {
    startDate.GetOr(today)
  }

  /** The last calendar day: the trip's end, or a week after the start. */
  function EndDay(startDate: Option<Day>, endDate: Option<Day>, today: Day): Day {
    endDate.GetOr(StartDay(startDate, today) + 7)
  }

  /** `differenceInDays(endDate, startDate) + 1`: the days of the trip,
      both ends included. Zero or negative when the end precedes the start. */
  function TripDays(startDate: Option<Day>, endDate: Option<Day>, today: Day): (n: int)
    ensures n == EndDay(startDate, endDate, today) - StartDay(startDate, today) + 1
    ensures endDate.None? ==> n == 8
  {
    EndDay(startDate, endDate, today) - StartDay(startDate, today) + 1
  }

  /** `Array.from({ length: tripDays }, (_, i) => addDays(startDate, i))`:
      a non-positive length gives no days. */
  function CalendarDays(startDate: Option<Day>, endDate: Option<Day>, today: Day): (days: seq<Day>)
    ensures |days| == if TripDays(startDate, endDate, today) > 0 then TripDays(startDate, endDate, today) else 0
    ensures forall i :: 0 <= i < |days| ==> days[i] == StartDay(startDate, today) + i
  {
    var n := TripDays(startDate, endDate, today);
    var start := StartDay(startDate, today);
    if n <= 0 then [] else seq(n, i => start + i)
  }

  /** When the end does not precede the start, the calendar runs from the
      start day to the end day, each exactly once. */
  lemma CalendarSpansTrip(startDate: Option<Day>, endDate: Option<Day>, today: Day)
    requires EndDay(startDate, endDate, today) >= StartDay(startDate, today)
    ensures var days := CalendarDays(startDate, endDate, today);
      |days| >= 1 && days[0] == StartDay(startDate, today) &&
      days[|days| - 1] == EndDay(startDate, endDate, today) &&
      forall d :: StartDay(startDate, today) <= d <= EndDay(startDate, endDate, today) ==> d in days
  {
    var days := CalendarDays(startDate, endDate, today);
    var start := StartDay(startDate, today);
    forall d | start <= d <= EndDay(startDate, endDate, today)
      ensures d in days
    {
      assert days[d - start] == d;
    }
  }

  /** An activity as the calendar lists it: the instance, the city label and
      the time label. */
  datatype Entry = Entry(activity: ActivityInstance, city: string, time: string)

  /** `stop.city?.name || 'Unknown'`. */
  function CityLabel(stop: Stop): (text: string)
    ensures stop.city.Some? && stop.city.value.name != "" ==> text == stop.city.value.name
    ensures stop.city.None? || stop.city.value.name == "" ==> text == "Unknown"
    ensures text != ""
  {
    if stop.city.Some? && stop.city.value.name != "" then stop.city.value.name else "Unknown"
  }

  /** `${9 + actIndex * 2}:00`: the n-th activity of a stop is at 9 + 2n o'clock. */
  function TimeLabel(actIndex: nat): (text: string)
    ensures |text| >= 4 && text[|text| - 3..] == ":00"
    ensures IsDigits(text[..|text| - 3]) && DecimalValue(text[..|text| - 3]) == 9 + 2 * actIndex
  {
    var hour := Decimal(9 + 2 * actIndex);
    DecimalRoundTrip(9 + 2 * actIndex);
    assert (hour + ":00")[..|hour|] == hour;
    hour + ":00"
  }

  /** `(stopIndex + actIndex) % tripDays === dayIndex`. Both indices are
      non-negative, so the JavaScript remainder is the Euclidean one; a zero
      `tripDays` gives NaN, which equals no day. */
  predicate LandsOn(stopIndex: nat, actIndex: nat, tripDays: int, dayIndex: int) {
    tripDays != 0 && (stopIndex + actIndex) % tripDays == dayIndex
  }

  /** With at least one day, every activity lands on exactly one day index,
      and that index is within the calendar. */
  lemma LandsOnExactlyOneDay(stopIndex: nat, actIndex: nat, tripDays: int)
    requires tripDays >= 1
    ensures 0 <= (stopIndex + actIndex) % tripDays < tripDays
    ensures LandsOn(stopIndex, actIndex, tripDays, (stopIndex + actIndex) % tripDays)
    ensures forall d :: LandsOn(stopIndex, actIndex, tripDays, d) ==> d == (stopIndex + actIndex) % tripDays
  {
  }

  /** The entries the inner loop pushes for the first `count` activities of
      the stop at `stopIndex`. */
  function StopEntries(stop: Stop, stopIndex: nat, count: nat, tripDays: int, dayIndex: int): (r: seq<Entry>)
    requires count <= |stop.activities|
    ensures |r| <= count
    ensures forall i :: 0 <= i < |r| ==> r[i].city == CityLabel(stop) && r[i].activity in stop.activities[..count]
  {
    if count == 0 then []
    else
      var init := StopEntries(stop, stopIndex, count - 1, tripDays, dayIndex);
      assert stop.activities[..count - 1] <= stop.activities[..count];
      if LandsOn(stopIndex, count - 1, tripDays, dayIndex)
      then init + [Entry(stop.activities[count - 1], CityLabel(stop), TimeLabel(count - 1))]
      else init
  }

  /** Everything `getActivitiesForDay` returns for the first |stops| stops. */
  function DayEntries(stops: seq<Stop>, tripDays: int, dayIndex: int): (r: seq<Entry>)
  {
    if stops == [] then []
    else
      var last := stops[|stops| - 1];
      DayEntries(stops[..|stops| - 1], tripDays, dayIndex)
        + StopEntries(last, |stops| - 1, |last.activities|, tripDays, dayIndex)
  }

  /** `getActivitiesForDay`: the nested loops over stops and their
      activities, pushing each activity whose assigned day is `dayIndex`. */
  method GetActivitiesForDay(stops: seq<Stop>, tripDays: int, dayIndex: int) returns (activities: seq<Entry>)
    ensures activities == DayEntries(stops, tripDays, dayIndex)
  {
    activities := [];
    var stopIndex := 0;
    while stopIndex < |stops|
      invariant 0 <= stopIndex <= |stops|
      invariant activities == DayEntries(stops[..stopIndex], tripDays, dayIndex)
    {
      var stop := stops[stopIndex];
      var before := activities;
      var actIndex := 0;
      while actIndex < |stop.activities|
        invariant 0 <= actIndex <= |stop.activities|
        invariant activities == before + StopEntries(stop, stopIndex, actIndex, tripDays, dayIndex)
      {
        if LandsOn(stopIndex, actIndex, tripDays, dayIndex) {
          activities := activities + [Entry(stop.activities[actIndex], CityLabel(stop), TimeLabel(actIndex))];
        }
        actIndex := actIndex + 1;
      }
      assert stops[..stopIndex + 1][..stopIndex] == stops[..stopIndex];
      assert DayEntries(stops[..stopIndex + 1], tripDays, dayIndex) ==
        DayEntries(stops[..stopIndex], tripDays, dayIndex) + StopEntries(stop, stopIndex, |stop.activities|, tripDays, dayIndex);
      stopIndex := stopIndex + 1;
    }
    assert stops[..stopIndex] == stops;
  }

  /** The sum of `f` over the day indices 0 .. days-1. */
  function OverDays(days: nat, f: int -> int): int {
    if days == 0 then 0 else OverDays(days - 1, f) + f(days - 1)
  }

  lemma {:induction false} OverDaysAdd(days: nat, f: int -> int, g: int -> int, h: int -> int)
    requires forall d :: h(d) == f(d) + g(d)
    ensures OverDays(days, h) == OverDays(days, f) + OverDays(days, g)
  {
    if days > 0 {
      OverDaysAdd(days - 1, f, g, h);
    }
  }

  lemma {:induction false} OverDaysZero(days: nat, f: int -> int)
    requires forall d :: f(d) == 0
    ensures OverDays(days, f) == 0
  {
    if days > 0 {
      OverDaysZero(days - 1, f);
    }
  }

  /** Counting the days equal to `k` among 0 .. days-1 gives one exactly when k is among them. */
  lemma {:induction false} OverDaysIndicator(days: nat, k: int)
    ensures OverDays(days, d => if d == k then 1 else 0) == if 0 <= k < days then 1 else 0
  {
    if days > 0 {
      OverDaysIndicator(days - 1, k);
    }
  }

  /** Over all days of the calendar, the first `count` activities of a stop
      are listed `count` times in all. */
  lemma {:induction false} StopEntriesOverDays(stop: Stop, stopIndex: nat, count: nat, tripDays: int)
    requires tripDays >= 1 && count <= |stop.activities|
    ensures OverDays(tripDays, d => |StopEntries(stop, stopIndex, count, tripDays, d)|) == count
  {
    if count > 0 {
      StopEntriesOverDays(stop, stopIndex, count - 1, tripDays);
      var k := (stopIndex + count - 1) % tripDays;
      var hit := (d: int) => if d == k then 1 else 0;
      OverDaysIndicator(tripDays, k);
      var before := d => |StopEntries(stop, stopIndex, count - 1, tripDays, d)|;
      var after := d => |StopEntries(stop, stopIndex, count, tripDays, d)|;
      forall d
        ensures after(d) == before(d) + hit(d)
      {
        assert LandsOn(stopIndex, count - 1, tripDays, d) <==> d == k;
      }
      OverDaysAdd(tripDays, before, hit, after);
    } else {
      OverDaysZero(tripDays, d => |StopEntries(stop, stopIndex, count, tripDays, d)|);
    }
  }

  /** Over all days of the calendar, every activity instance of the trip is
      listed exactly as often as there are instances: the day lists add up
      to the trip's activity count. */
  lemma {:induction false} EveryActivityListedOnce(stops: seq<Stop>, tripDays: int)
    requires tripDays >= 1
    ensures OverDays(tripDays, d => |DayEntries(stops, tripDays, d)|) == ActivityCount(stops)
  {
    if stops == [] {
      OverDaysZero(tripDays, d => |DayEntries(stops, tripDays, d)|);
    } else {
      var init, last := stops[..|stops| - 1], stops[|stops| - 1];
      EveryActivityListedOnce(init, tripDays);
      StopEntriesOverDays(last, |stops| - 1, |last.activities|, tripDays);
      OverDaysAdd(tripDays, d => |DayEntries(init, tripDays, d)|,
                  d => |StopEntries(last, |stops| - 1, |last.activities|, tripDays, d)|,
                  d => |DayEntries(stops, tripDays, d)|);
    }
  }

  /** `Math.ceil(a / b)` for a positive divisor. */
  function CeilDiv(a: int, b: int): (q: int)
    requires b > 0
    ensures b * (q - 1) < a <= b * q
  {
    -((-a) / b)
  }

  /** `Math.floor(a / b)` for a non-zero divisor. */
  function FloorDiv(a: int, b: int): (q: int)
    requires b != 0
    ensures b > 0 ==> b * q <= a < b * (q + 1)
    ensures b < 0 ==> b * q >= a > b * (q + 1)
  {
    if b > 0 then a / b else (-a) / (-b)
  }

  /** The index `getStopForDay` reads, or None where it returns null (no
      stops) or `undefined` (an index that is negative, -Infinity or NaN).
      `daysPerStop` is zero when tripDays is in (-n, 0]: it is +0 for a zero
      tripDays and -0 below, and the day index over it is then ±Infinity or
      NaN; +Infinity reads the last stop. */
  function StopIndexForDay(stopCount: nat, tripDays: int, dayIndex: int): (r: Option<nat>)
    ensures stopCount == 0 ==> r.None?
    ensures r.Some? ==> r.value < stopCount
    ensures dayIndex < 0 && tripDays >= 0 ==> r.None?
  {
    if stopCount == 0 then None
    else
      var daysPerStop := CeilDiv(tripDays, stopCount);
      if daysPerStop == 0 then
        if (tripDays == 0 && dayIndex > 0) || (tripDays < 0 && dayIndex < 0) then Some(stopCount - 1) else None
      else
        var stopIndex := FloorDiv(dayIndex, daysPerStop);
        var i := if stopIndex < stopCount - 1 then stopIndex else stopCount - 1;
        if i < 0 then None else Some(i)
  }

  /** `getStopForDay`. */
  function GetStopForDay(stops: seq<Stop>, tripDays: int, dayIndex: int): (r: Option<Stop>)
    ensures stops == [] ==> r.None?
    ensures r.Some? ==> r.value in stops
  {
    match StopIndexForDay(|stops|, tripDays, dayIndex)
    case None => None
    case Some(i) => Some(stops[i])
  }

  /** `Math.ceil(tripDays / stopCount)` is at least one day per stop. */
  lemma DaysPerStopPositive(stopCount: nat, tripDays: int)
    requires stopCount >= 1 && tripDays >= 1
    ensures CeilDiv(tripDays, stopCount) >= 1
  {
  }

  lemma FloorDivMonotone(a: int, b: int, p: int)
    requires p >= 1 && a <= b
    ensures FloorDiv(a, p) <= FloorDiv(b, p)
  {
    var qa, qb := FloorDiv(a, p), FloorDiv(b, p);
    assert p * qa <= a <= b < p * (qb + 1);
  }

  /** Within a trip of at least one day, every day on or after the start
      has a stop; day 0 shows the first stop. */
  lemma StopForEveryDay(stopCount: nat, tripDays: int, dayIndex: int)
    requires stopCount >= 1 && tripDays >= 1 && dayIndex >= 0
    ensures StopIndexForDay(stopCount, tripDays, dayIndex).Some?
    ensures dayIndex == 0 ==> StopIndexForDay(stopCount, tripDays, dayIndex) == Some(0)
  {
    var per := CeilDiv(tripDays, stopCount);
    DaysPerStopPositive(stopCount, tripDays);
    FloorDivMonotone(0, dayIndex, per);
    if dayIndex == 0 {
      FloorDivMonotone(dayIndex, 0, per);
    }
  }

  /** Stops appear in trip order: a later day never shows an earlier stop. */
  lemma StopIndexMonotone(stopCount: nat, tripDays: int, day1: int, day2: int)
    requires stopCount >= 1 && tripDays >= 1 && 0 <= day1 <= day2
    ensures var i1, i2 := StopIndexForDay(stopCount, tripDays, day1), StopIndexForDay(stopCount, tripDays, day2);
      i1.Some? && i2.Some? && i1.value <= i2.value
  {
    StopForEveryDay(stopCount, tripDays, day1);
    StopForEveryDay(stopCount, tripDays, day2);
    DaysPerStopPositive(stopCount, tripDays);
    FloorDivMonotone(day1, day2, CeilDiv(tripDays, stopCount));
  }
}
