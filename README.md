# Globe-Trotter trip and itinerary model

A Dafny model of the client-side state of the Globe-Trotter travel planner, with proofs about it.

The **trip store** holds three mutable fields:

- the trips;
- the trip being edited;
- the saved destinations.

The trip store's operations:

- create, update, delete and select trips;
- add, remove and reorder a trip's stops;
- add and remove a stop's booked activities;
- merge a budget;
- make a trip public or private, generating its share slug;
- save or unsave a destination;
- search the city and activity catalogues;
- roll up a trip's cost.

The **UI store** holds:

- the sidebar flag;
- the single active modal;
- the toast queue;
- the loading flag;
- the global search text;
- the theme;
- the two view modes.

Both stores are Dafny classes whose fields are that state. Each mutator is a method that `modifies` the store. Its `ensures` ties the new state to a pure function of the old state, and lemmas state what those functions guarantee:

- round trips: add then remove, toggle twice;
- frame conditions: an unknown id changes nothing, a setter touches only its own field;
- agreement between the different ways the code computes the same total.

The pages compute derived values from the store. Each is modelled in its own module:

- `TripCalendar`: the span of calendar days, the spread of activities over the days, and the stop shown for a day.
- `BudgetBreakdown`: spend, remaining budget, over-budget flag, pie slices, bar labels and the category list.
- `ItineraryBuilder`: stop expansion, the arguments handed to the store, the catalogue filters, the cost total and the activity count.
- `PublicItinerary`: share-link lookup, share path, totals and the open stop.
- `CitySearch`: the filter and the in-place sort.
- `ActivitySearch`: the filter, category icons and category colours.
- `MyTrips`: the trip filter and status badges.

The shared vocabulary lives in four modules:

- `Wrappers`: optional values.
- `Seqs`: `filter`, `find`, map-where-id-matches and sums, with their algebra.
- `Text`: ASCII case folding, substring search, whitespace-run dashing and decimal rendering.
- `Domain`: the records, and the activity cost and count of a trip.

Modelling conventions:

- **Dates** are integer day numbers. A date field that can be missing is an `Option<Day>`.
- **`Date.now()`** is a `now: nat` parameter. Trips, stops and activity instances get ids `"t"`, `"s"` and `"act"` followed by its decimal digits.
- **ISO timestamps** are plain string parameters.
- **Popularity** is in tenths of a star.

Two behaviours of the code worth noting:

- `createTrip` always installs an all-zero budget, even when the caller supplies budget fields, because the literal comes after the spread.
- Two trips with the same name made public in the same millisecond get the same slug. The model only proves that different instants give different slugs (`TripStore.SlugsDifferAcrossInstants`).

`calculateTripCost` has a quirk that the model keeps:

- The `activities` field of its result is the stored `budget.activities`, because the spread of the budget overrides the derived value written before it.
- Its `total`, by contrast, uses the derived activities cost.
- That total is `Domain.PlannedSpend`, the same figure the budget page shows as its spend.

## Model

| member | source | states |
|---|---|---|
| TripStore.NewTrip | src/store/tripStore.js:111-121 | a new trip has id `t<now>`, the caller's name, description, dates and cover, no stops, an all-zero budget, status draft, is private and has no public link |
| TripStore.NewTripIgnoresBudgetAndStatus | src/store/tripStore.js:114-117 | a status or budget in the creation data has no effect on the created trip |
| TripStore.MergeTrip | src/store/tripStore.js:129 | shallow merge: every key the update carries takes the update's value, every key it does not carry keeps its value, and an empty update is the identity; id, stops, sharing fields and creation time stay as they were because an update in this model carries only the editable keys |
| TripStore.MergeTwice | src/store/tripStore.js:126-236 | merging the same trip or budget update twice equals merging it once, and a later update's keys override an earlier one's |
| TripStore.MergeBudget | src/store/tripStore.js:232 | shallow budget merge: each allocation in the update takes its value, each allocation not in it keeps the old value |
| TripStore.UpdateTripIn | src/store/tripStore.js:128-130 | exactly the trips with the id are merged, the others are unchanged and the list keeps its length |
| TripStore.DeleteTripIn | src/store/tripStore.js:139 | the result is the trips at the `KeptPositions` of the other ids: every trip with another id, once, in its original order, and no trip with the id |
| TripStore.NewStop | src/store/tripStore.js:151-157 | a new stop has id `s<now>`, the requested city id and dates, no activities, and the catalogue city with that id, missing exactly when no catalogue city has it |
| TripStore.AddStopTo | src/store/tripStore.js:158-164 | the stop is appended to the stops of exactly the trips with the id |
| TripStore.RemoveStopFrom | src/store/tripStore.js:167-175 | the stops with the id are filtered out of exactly the trips with the trip id |
| TripStore.ReorderStopsIn | src/store/tripStore.js:177-183 | the trips with the id get the given stop list, others are unchanged |
| TripStore.NewActivity | src/store/tripStore.js:187-193 | the instance copies the catalogue entry with the requested id (uncatalogued exactly when there is none), gets id `act<now>` and the requested date and time |
| TripStore.AppendToStop | src/store/tripStore.js:199-203 | the instance is appended to exactly the stops with the id |
| TripStore.DropFromStop | src/store/tripStore.js:216-220 | the instances with the id are filtered out of exactly the stops with the stop id |
| TripStore.AddActivityTo | src/store/tripStore.js:194-207 | only the target trip's target stop gains the instance |
| TripStore.RemoveActivityFrom | src/store/tripStore.js:211-224 | only the target trip's target stop loses the instances with the id |
| TripStore.UpdateBudgetIn | src/store/tripStore.js:228-236 | exactly the trips with the id get their budget merged |
| TripStore.PublicSlug | src/store/tripStore.js:241 | the slug is the lower-cased name with its whitespace runs dashed, then `-` and the timestamp's digits; it has no whitespace and ends in `-` followed by those digits |
| TripStore.SlugsDifferAcrossInstants | src/store/tripStore.js:241 | the same name made public at two different instants gets two different slugs |
| TripStore.TogglePublicIn | src/store/tripStore.js:239-249 | trips with the id flip `isPublic` and nothing else but the link; the link is present exactly when the first trip with the id was private, and is then that trip's slug; other trips are unchanged |
| TripStore.ToggleSaved | src/store/tripStore.js:252-258 | the city id's membership flips, every other id's membership is kept, and an absent id is appended at the end |
| TripStore.UnknownTripKeepsTrips | src/store/tripStore.js:126-142 | updating, deleting or re-budgeting with an id no trip has leaves the trip list unchanged |
| TripStore.UnknownTripKeepsStops | src/store/tripStore.js:150-225 | adding, removing or reordering stops and adding or removing activities for an unknown trip id leaves the trip list unchanged |
| TripStore.AddStopThenRemove | src/store/tripStore.js:150-175 | removing a just-added stop by its fresh id restores every trip exactly |
| TripStore.AddActivityThenRemove | src/store/tripStore.js:186-225 | removing a just-added activity by its fresh id restores every trip exactly |
| TripStore.TogglePublicTwice | src/store/tripStore.js:239-249 | making a private trip public and toggling again restores every trip, with its link cleared |
| TripStore.ToggleSavedTwice | src/store/tripStore.js:252-258 | toggling a destination twice restores membership, and restores the list itself when the id was not saved |
| TripStore.ExampleTripCost | src/store/tripStore.js:310-325 | two catalogue activities costing 150 and 200 on one stop give an activities cost of 350, and a planned spend of the four other allocations plus 350 |
| TripStore.Store.constructor | src/store/tripStore.js:104-108 | a store over a catalogue, trips and saved destinations starts with no current trip |
| TripStore.Store.CreateTrip | src/store/tripStore.js:111-124 | appends the new trip at the end, makes it current and returns it |
| TripStore.Store.UpdateTrip | src/store/tripStore.js:126-135 | merges into the trips with the id, and into the current trip exactly when its id matches |
| TripStore.Store.DeleteTrip | src/store/tripStore.js:137-142 | removes the trips with the id and clears the current trip exactly when its id matches |
| TripStore.Store.SetCurrentTrip | src/store/tripStore.js:144-147 | the current trip becomes the first trip with the id, or none |
| TripStore.Store.AddStop | src/store/tripStore.js:150-165 | the trips become `AddStopTo` of the old trips with the new stop; the current trip is not refreshed |
| TripStore.Store.RemoveStop | src/store/tripStore.js:167-175 | the trips become `RemoveStopFrom` of the old trips |
| TripStore.Store.ReorderStops | src/store/tripStore.js:177-183 | the trips become `ReorderStopsIn` of the old trips |
| TripStore.Store.AddActivity | src/store/tripStore.js:186-208 | the trips become `AddActivityTo` of the old trips with the new instance |
| TripStore.Store.RemoveActivity | src/store/tripStore.js:210-225 | the trips become `RemoveActivityFrom` of the old trips |
| TripStore.Store.UpdateBudget | src/store/tripStore.js:228-236 | the trips become `UpdateBudgetIn` of the old trips |
| TripStore.Store.TogglePublic | src/store/tripStore.js:239-249 | needs a trip with the id, which the code dereferences; the trips become `TogglePublicIn` of the old trips |
| TripStore.Store.ToggleSavedDestination | src/store/tripStore.js:252-258 | the saved list becomes `ToggleSaved` of the old list, and the trips are unchanged |
| TripStore.Store.SearchCities | src/store/tripStore.js:261-281 | the successive filters give exactly the catalogue cities matching query, region and cost ceiling, in catalogue order; an empty query, empty region or zero ceiling disables that filter |
| TripStore.Store.SearchActivities | src/store/tripStore.js:283-307 | the successive filters give exactly the catalogue activities matching query, category, cost and duration ceilings, in catalogue order; empty or zero disables a filter |
| TripStore.Store.CalculateTripCost | src/store/tripStore.js:310-326 | none (the code's `0`) exactly when no trip has the id; otherwise the stored budget with `total` = transport + accommodation + food + other + the loops' sum of activity costs, and `activities` left at the stored value |
| UiStore.WithoutToast | src/store/uiStore.js:29-31 | the toasts at the `KeptPositions` of the other ids: every toast with another id, once, in queue order, and none with the id |
| UiStore.RemoveAbsentToast | src/store/uiStore.js:29-31 | removing an id no toast has changes nothing |
| UiStore.RemoveToastIdempotent | src/store/uiStore.js:23-31 | the timer's removal after a manual dismissal changes nothing |
| UiStore.AddThenRemoveToast | src/store/uiStore.js:17-31 | dismissing a toast whose id was fresh restores the queue |
| UiStore.RemoveToastsCommute | src/store/uiStore.js:29-31 | dismissals of two ids give the same queue in either order |
| UiStore.NextTheme | src/store/uiStore.js:43-45 | the next theme is dark or light and differs from a known current theme |
| UiStore.ThemeToggleTwice | src/store/uiStore.js:43-45 | toggling twice from dark or light restores it, and any value settles after one toggle |
| UiStore.UiStore.constructor | src/store/uiStore.js:3-52 | sidebar closed, no modal, no toasts, not loading, empty search, dark theme, grid trips, month calendar |
| UiStore.UiStore.ToggleSidebar | src/store/uiStore.js:6 | flips the sidebar flag and nothing else |
| UiStore.UiStore.CloseSidebar | src/store/uiStore.js:7 | the sidebar is closed and nothing else changes |
| UiStore.UiStore.OpenModal | src/store/uiStore.js:12 | sets the active modal and its data (null when none is given), replacing any open modal |
| UiStore.UiStore.CloseModal | src/store/uiStore.js:13 | clears the modal and its data |
| UiStore.UiStore.AddToast | src/store/uiStore.js:17-28 | appends exactly one toast stamped with `now` after the existing ones |
| UiStore.UiStore.RemoveToast | src/store/uiStore.js:29-31 | the queue becomes `WithoutToast` of the old queue, nothing else changes |
| UiStore.UiStore.SetPageLoading | src/store/uiStore.js:35 | replaces only the loading flag |
| UiStore.UiStore.SetGlobalSearchQuery | src/store/uiStore.js:39 | replaces only the search text |
| UiStore.UiStore.ToggleTheme | src/store/uiStore.js:43-45 | replaces only the theme, by `NextTheme` |
| UiStore.UiStore.SetTripViewMode | src/store/uiStore.js:49 | replaces only the trip view mode |
| UiStore.UiStore.SetCalendarViewMode | src/store/uiStore.js:52 | replaces only the calendar view mode |
| TripCalendar.TripDays | src/pages/TripCalendar.jsx:30-32 | end minus start plus one, with today standing in for a missing start and start plus 7 for a missing end, so 8 days without an end |
| TripCalendar.CalendarDays | src/pages/TripCalendar.jsx:35 | as many consecutive days from the start as `tripDays` (none when it is not positive) |
| TripCalendar.CalendarSpansTrip | src/pages/TripCalendar.jsx:30-35 | when the end does not precede the start, the calendar begins on the start, ends on the end and contains every day between |
| TripCalendar.CityLabel | src/pages/TripCalendar.jsx:49 | the stop's city name, or 'Unknown' when the city or its name is missing |
| TripCalendar.TimeLabel | src/pages/TripCalendar.jsx:50 | `<h>:00` where h reads back as 9 + 2 × the activity's index |
| TripCalendar.LandsOnExactlyOneDay | src/pages/TripCalendar.jsx:45-46 | with at least one day, an activity lands on exactly one day index, (stop index + activity index) mod tripDays, inside the calendar |
| TripCalendar.StopEntries | src/pages/TripCalendar.jsx:44-53 | each pushed entry carries the stop's city label and one of the stop's activities |
| TripCalendar.GetActivitiesForDay | src/pages/TripCalendar.jsx:38-57 | the nested loops build exactly `DayEntries`: per stop in order, the activities whose assigned day is the given one |
| TripCalendar.EveryActivityListedOnce | src/pages/TripCalendar.jsx:38-57 | summed over all calendar days, the day lists hold as many entries as the trip has activity instances |
| TripCalendar.CeilDiv | src/pages/TripCalendar.jsx:64 | `Math.ceil` of an exact quotient |
| TripCalendar.FloorDiv | src/pages/TripCalendar.jsx:65 | `Math.floor` of an exact quotient, for either sign of divisor |
| TripCalendar.StopIndexForDay | src/pages/TripCalendar.jsx:60-67 | the index read, min(⌊day / ⌈tripDays/n⌉⌋, n−1), is always a valid stop index; none without stops, and none for a day before the start (the code reads a negative index) |
| TripCalendar.GetStopForDay | src/pages/TripCalendar.jsx:60-67 | null without stops; otherwise a stop of the trip, or none |
| TripCalendar.DaysPerStopPositive | src/pages/TripCalendar.jsx:64 | with at least one day and one stop, each stop gets at least one day |
| TripCalendar.FloorDivMonotone | src/pages/TripCalendar.jsx:65 | the floor quotient never decreases as the day grows |
| TripCalendar.StopForEveryDay | src/pages/TripCalendar.jsx:60-67 | with at least one day and one stop, every day from the start shows a stop, and day 0 shows the first |
| TripCalendar.StopIndexMonotone | src/pages/TripCalendar.jsx:64-66 | a later day never shows an earlier stop |
| BudgetBreakdown.PageActivitiesCost | src/pages/BudgetBreakdown.jsx:43-45 | the nested `reduce` equals the activity cost summed over all stops, a missing cost counting 0 |
| BudgetBreakdown.TotalSpent | src/pages/BudgetBreakdown.jsx:47 | equals the planned spend, i.e. the store's `calculateTripCost` total |
| BudgetBreakdown.Remaining | src/pages/BudgetBreakdown.jsx:48 | remaining plus the planned spend is the budget total |
| BudgetBreakdown.OverBudgetIffPlanExceedsTotal | src/pages/BudgetBreakdown.jsx:47-49 | over budget exactly when the plan costs more than the total; the stored activities allocation changes neither spend nor flag |
| BudgetBreakdown.AllSlices | src/pages/BudgetBreakdown.jsx:52-57 | five slices in the fixed order carrying transport, accommodation, the derived activities cost, food and other |
| BudgetBreakdown.PieData | src/pages/BudgetBreakdown.jsx:52-58 | exactly the slices with a positive value, in the fixed category order |
| BudgetBreakdown.PieShowsAllSpend | src/pages/BudgetBreakdown.jsx:47-58 | with no negative amount the pie slices add up to the spend |
| BudgetBreakdown.BarTripDays | src/pages/BudgetBreakdown.jsx:61-63 | the day difference (no +1) when both dates exist, else 7 |
| BudgetBreakdown.BarLabels | src/pages/BudgetBreakdown.jsx:67-71 | min(tripDays, 10) bars (none when not positive) labelled "Day 1" … "Day k" |
| BudgetBreakdown.BarLabelsDistinct | src/pages/BudgetBreakdown.jsx:67-68 | no two bars share a label |
| BudgetBreakdown.Categories | src/pages/BudgetBreakdown.jsx:73-79 | always five rows in fixed key order, activities carrying the derived cost |
| BudgetBreakdown.CategoriesAddUpToSpend | src/pages/BudgetBreakdown.jsx:73-79 | the category amounts add up to the spend |
| ItineraryBuilder.ExpandedStops | src/pages/ItineraryBuilder.jsx:32-38 | one flag per stop id of the trip (none without a trip), true unless the collapsed map says true |
| ItineraryBuilder.ToggleStop | src/pages/ItineraryBuilder.jsx:48-50 | flips that stop's expansion and leaves every other entry as it was |
| ItineraryBuilder.ToggleStopTwice | src/pages/ItineraryBuilder.jsx:48-50 | toggling twice restores every stop's expansion |
| ItineraryBuilder.AddStopArgs | src/pages/ItineraryBuilder.jsx:53-57 | the picked city with the trip's start and end dates |
| ItineraryBuilder.AddActivityArgs | src/pages/ItineraryBuilder.jsx:71-76 | nothing without a selected stop; else the activity on the stop's arrival date at 10:00 |
| ItineraryBuilder.HandleAddStop | src/pages/ItineraryBuilder.jsx:52-61 | adds the stop, closes the modal and queues one success toast |
| ItineraryBuilder.HandleAddActivity | src/pages/ItineraryBuilder.jsx:70-80 | no effect without a selected stop; else adds the activity, closes the modal and queues one success toast |
| ItineraryBuilder.FilteredCities | src/pages/ItineraryBuilder.jsx:87-90 | the catalogue cities whose name or country contains the text, ignoring case, each once and in catalogue order (the cities at `KeptPositions`) |
| ItineraryBuilder.FilteredActivities | src/pages/ItineraryBuilder.jsx:92-95 | the catalogue activities whose name or category contains the text, ignoring case, each once and in catalogue order (the activities at `KeptPositions`) |
| ItineraryBuilder.PageFiltersAgreeWithStore | src/pages/ItineraryBuilder.jsx:87-95 | both filters equal the store's searches without other criteria; an empty text keeps the whole catalogue |
| ItineraryBuilder.CalculateTotalCost | src/pages/ItineraryBuilder.jsx:97-106 | 0 without a trip, else the activity cost summed over all stops |
| ItineraryBuilder.ShownActivityCount | src/pages/ItineraryBuilder.jsx:147 | the `reduce` over list lengths equals the number of activity instances, never negative |
| PublicItinerary.FindShared | src/pages/PublicItinerary.jsx:15 | the first trip whose public link or id equals the segment; none exactly when no trip has either |
| PublicItinerary.SharePath | src/pages/PublicItinerary.jsx:36 | the public link when present and non-empty, else the trip id |
| PublicItinerary.SharePathLeadsBack | src/pages/PublicItinerary.jsx:15-36 | a trip's share path always opens a trip, and opens that trip when no other trip carries the same path |
| PublicItinerary.Totals | src/pages/PublicItinerary.jsx:68-76 | total cost and activity count over all stops; days = difference + 1 with both dates, else the number of stops |
| PublicItinerary.NextExpanded | src/pages/PublicItinerary.jsx:184 | clicking stop i opens it exactly when it was not open, and otherwise closes all |
| PublicItinerary.ClickTwice | src/pages/PublicItinerary.jsx:184 | two clicks on a stop leave it open exactly when it was open before, else nothing is open |
| CitySearch.PageMatchAgreesWithStore | src/pages/CitySearch.jsx:23-29 | for a real region and non-zero ceiling the page filter keeps exactly what the store's search keeps |
| CitySearch.SortKey | src/pages/CitySearch.jsx:32-40 | a key exists exactly for 'popularity', 'cost-low' and 'cost-high' |
| CitySearch.SortKeyMeaning | src/pages/CitySearch.jsx:32-37 | ascending key order is descending popularity, ascending cost, descending cost respectively |
| CitySearch.SortByKey | src/pages/CitySearch.jsx:32-37 | the in-place sort leaves the array ordered by key and a permutation of its old contents |
| CitySearch.FilterAndSort | src/pages/CitySearch.jsx:23-40 | a permutation of the filtered cities, each matching query, region ('all' disables) and ceiling; sorted by the mode's key for the three keyed modes, in catalogue order for a mode the page does not sort by, and only a permutation for 'name' |
| CitySearch.GetCostLabel | src/pages/CitySearch.jsx:53-57 | Budget up to 100, Moderate up to 200, Luxury above, with their colours |
| CitySearch.CostTierMonotone | src/pages/CitySearch.jsx:53-57 | a dearer city never gets a cheaper tier |
| ActivitySearch.FilteredActivities | src/pages/ActivitySearch.jsx:28-35 | exactly the activities whose name or description contains the query, in the category ('all' disables), within both ceilings, each once and in catalogue order (the activities at `KeptPositions`) |
| ActivitySearch.EmptyQueryKeepsEverything | src/pages/ActivitySearch.jsx:29-35 | an empty query leaves only category and ceilings, so 'all' with met ceilings shows the whole catalogue |
| ActivitySearch.GetCategoryIcon | src/pages/ActivitySearch.jsx:37-40 | the icon of the menu row with that value, the star when there is none |
| ActivitySearch.GetCategoryColor | src/pages/ActivitySearch.jsx:42-51 | amber for adventure and food, emerald for relaxation, pink for shopping, blue otherwise |
| MyTrips.FilteredTrips | src/pages/MyTrips.jsx:19-24 | exactly the trips whose name or description contains the query and whose status matches ('all' disables), each once and in original order (the trips at `KeptPositions`) |
| MyTrips.NoFilterListsAll | src/pages/MyTrips.jsx:19-24 | 'all' with an empty query lists every trip |
| MyTrips.StatusFilterIsExact | src/pages/MyTrips.jsx:22 | a non-'all' status lists only trips with that status, and all of them when the query is empty |
| MyTrips.StatusNarrowsAllListing | src/pages/MyTrips.jsx:19-24 | the status-filtered list is the 'all' list narrowed to that status, in order |
| MyTrips.GetStatusColor | src/pages/MyTrips.jsx:34-41 | emerald for confirmed, blue for draft, amber for everything else |
| Domain.ReduceCostAgrees | src/pages/BudgetBreakdown.jsx:43-45 | the pages' left-fold `reduce` of activity costs equals the store's loop sum |
| Domain.ReduceCountAgrees | src/pages/ItineraryBuilder.jsx:147 | the `reduce` over list lengths equals the activity count |
| Domain.ReorderKeepsTotals | src/store/tripStore.js:177-183 | reordering the stops as a permutation keeps the activities cost and the activity count |
| Text.LowerChar | src/store/tripStore.js:265 | folding yields no upper-case ASCII letter and leaves other characters alone |
| Text.Lower | src/store/tripStore.js:265 | same length, each character folded |
| Text.LowerIdempotent | src/store/tripStore.js:265 | folding twice is folding once |
| Text.EmptyQueryMatches | src/store/tripStore.js:266-268 | every text contains the empty query |
| Text.QueryCaseIrrelevant | src/store/tripStore.js:265-268 | the case of the query does not change whether it matches |
| Text.DropSpaces | src/store/tripStore.js:241 | a suffix of the input that does not start with whitespace |
| Text.DashRuns | src/store/tripStore.js:241 | no longer than the input and free of whitespace |
| Text.DropSpacesRun | src/store/tripStore.js:241 | dropping a whitespace run that is followed by nothing or by a non-space leaves exactly what follows |
| Text.DashRunsRun | src/store/tripStore.js:241 | plain text, then a whitespace run, then nothing or a non-space: the run becomes exactly one `-` and the plain text is kept |
| Text.DashRunsKeepsPlainText | src/store/tripStore.js:241 | text without whitespace passes through unchanged |
| Text.Decimal | src/store/tripStore.js:113 | at least one character, all decimal digits |
| Text.DecimalRoundTrip | src/store/tripStore.js:113 | reading the digits back gives the number |
| Text.DecimalInjective | src/store/tripStore.js:113 | distinct numbers render differently |

## Left out

- Persistence, the `zustand` plumbing and the seed trips and catalogue (`src/store/tripStore.js:5-108`): a store is built from whatever catalogue, trips and saved list it is given.
- `src/store/authStore.js` and the pages without derived logic (login, dashboard, trip creation, profile, layout components) are not part of this model.
- Clocks are parameters. `Date.now()` is `now`, ISO creation times are strings and `new Date()` is `today`. Nothing proves ids unique, and the code does not guarantee it.
- Timers are not modelled. The toast's five-second dismissal is the explicit `UiStore.UiStore.RemoveToast(id)` it performs. Copy-link resets and simulated latency are left out too.
- Calendar arithmetic over `Date` values becomes integer day numbers. Time-of-day truncation in `differenceInDays`, and the millisecond difference and `Math.ceil` on the budget page, are not modelled. The model assumes whole days.
- Floating point is not modelled: `dailyAvg`, the bar amounts, percentages and currency formatting. Popularity is an integer in tenths.
- The 'name' sort of the city page is left unordered. It uses `localeCompare`, which depends on the locale. `CitySearch.FilterAndSort` only promises a permutation of the filtered cities for it.
- `CitySearch.SortByKey`: does not state that equal keys keep their relative order. The JavaScript sort is stable and this insertion sort is too, but that is not proved.
- `Text.Lower`: folds only ASCII letters. `toLowerCase` also folds other scripts.
- Spread keys beyond the modelled fields are not modelled: a caller-supplied `id` in `createTrip`/`addStop` data, which would replace the generated id, and an `updates` key set explicitly to `undefined`, which would erase a field. A patch can only set a key or leave it alone.
- Dates that are present but empty count as present. The code treats `''` as missing.
- `BudgetBreakdown` receives a budget for every trip, because every trip in the model has one. The page's all-zero fallback for a trip without a budget therefore has no counterpart.
- Activity instances are kept apart from catalogue entries, so the seed trips' instances, which reuse catalogue ids, are not represented. An uncatalogued instance has cost 0, as `a.cost || 0` gives.
- `TripStore.Store.TogglePublic` requires the trip to exist. On an unknown id the code throws when it reads `isPublic`.
- Browser side effects are not modelled: clipboard, share-window URLs and `window.confirm`. The confirmed removals are the store's own `RemoveStop`/`RemoveActivity`/`DeleteTrip`.
