# Sawariya trip planner: a verified model of its core

Sawariya is a browser app for planning a day trip in Sri Lanka. The traveller searches for places and adds them as stops, which are saved in the browser. A watchlist shows what is worth seeing near the first five stops. For a suggested plan, the planner card lays out a timed day: breakfast, the visits, the road legs between them (routed by OSRM, with a 1.3 "Lankan" traffic buffer), lunch half way and dinner. It also advises when to set off.

This project models that core in Dafny and proves what the code promises about it.

| module | file | models |
|---|---|---|
| `Types` | `types.dfy` | the stop and plan records of `lib/types.ts`, plus an `Option` |
| `Text` | `text.dfy` | the string helpers the core relies on: decimal `toString`, `padStart(2, "0")`, `join`/`split`, JavaScript's `trim` |
| `Clock` | `clock.dfy` | `toTimeLabel`, the 12-hour wall-clock label |
| `Planner` | `planner.dfy` | the timeline, the totals, the start advice and the travel effect of `components/AIPlannerCard.tsx` |
| `Osrm` | `osrm.dfy` | the post-processing in `lib/osrm.ts` once its fetch has answered |
| `Overpass` | `overpass.dfy` | naming, classifying, placing and ranking points of interest in `lib/overpass.ts` |
| `TripProvider` | `trip_provider.dfy` | the trip store, its saving and its restoring |
| `TripWatchlist` | `trip_watchlist.dfy` | the watchlist's category filter, its first-five cap, its loading loop and its `watch-` ids |
| `SearchBar` | `search_bar.dfy` | the search box's state and how it adds a result to the trip |

## How the model is built

**Numbers.** JavaScript numbers appear as `int` where they count minutes or identify things. Coordinates, seconds, metres and kilometres are exact `real`s. `Math.round(x)` is `(x + 0.5).Floor`. JavaScript's truncating `%` is written out as `Clock.JsRem`, and a text's `.length` counts UTF-16 code units (`Text.Utf16Length`).

**Outside the model.** Everything the core gets from outside is a parameter:
- the routing, Overpass and geocoding answers;
- the distance function;
- `Number(text)`;
- the float-to-text rendering in URLs;
- the JSON text format of the saved trip.

**Where the code works in place.** It is imperative Dafny there:
- The component state slots are classes whose methods reassign their fields:
  - `Planner.PlannerCard` for the planner card;
  - `TripProvider.TripStore` for the trip store, with the browser storage as a `map` field;
  - `TripWatchlist.Watchlist` for the watchlist;
  - `SearchBar.SearchBox` for the search box.
- The loops are methods with loop invariants:
  - `Planner.BuildSteps` pushes the steps;
  - `Planner.AssignTimeLabels` advances the clock;
  - `TripWatchlist.LoadGroups` loads one group per stop.

**Where the code is expression-shaped** (`lib/osrm.ts`, `lib/overpass.ts` and the planner's memos), it is modelled as functions and lemmas.

**How the timeline is specified.** The step list is specified by slots, one per step: breakfast, stop `i`'s visit, lunch, the leg out of stop `i`, and dinner. Lemmas prove where each step lands and what the steps add up to.

### Behaviour worth knowing

- **Total travel time.** The total travel time is rounded once from the summed buffered seconds. It is not the sum of the rounded per-leg minutes, and the two can differ (`Planner.TotalTravelIsNotSumOfLegs`).
- **Clock start.** The timeline's clock starts at 6:30 only when the trip total is known and above 480 minutes. While travel is still loading there is no total, so the clock starts at 8:00.

## Model

| member | source | states |
|---|---|---|
| `Types.Ids` | components/SearchBar.tsx:25-28 | the ids of a list of stops, one per stop, in order |
| `Text.NatToString` | components/AIPlannerCard.tsx:73 | the decimal text of a number is non-empty, all digits, one digit below 10 and two below 100 |
| `Text.DigitsValueOfNatToString` | components/AIPlannerCard.tsx:73 | reading back the decimal text of a number gives the number |
| `Text.NatToStringInjective` | components/AIPlannerCard.tsx:73 | different numbers have different decimal texts |
| `Text.PadStart2` | components/AIPlannerCard.tsx:73 | `padStart(2, "0")` leaves texts of two or more characters alone and left-fills shorter ones with zeros up to two |
| `Text.IndexOf` | lib/osrm.ts:26-28 | the first position of the separator, or the length when it is absent |
| `Text.SplitJoin` | lib/osrm.ts:26-28 | splitting a joined list of separator-free parts at the separator gives the parts back |
| `Text.Trim` | components/SearchBar.tsx:31 | `trim()` is no longer than its input and neither starts nor ends with whitespace |
| `Text.TrimSlice` | components/SearchBar.tsx:31 | `trim()` is the slice of the input between a whitespace-only prefix and a whitespace-only suffix |
| `Clock.JsRem` | components/AIPlannerCard.tsx:69-70 | JavaScript's `%` agrees with the mathematical remainder on non-negative operands, stays within the divisor, is never positive for a negative dividend, and is what is left of the dividend after the quotient truncated toward zero |
| `Clock.ToTimeLabel` | components/AIPlannerCard.tsx:68-74 | `toTimeLabel`; what its label shows is stated by `Clock.TimeLabelReadsBack`, `Clock.TimeLabelPeriodic`, `Clock.EightAm` and `Clock.SixThirtyAm` |
| `Clock.ReadAssembledLabel` | components/AIPlannerCard.tsx:73 | a label assembled as hour, colon, two-digit minute, space, AM/PM reads back as its parts |
| `Clock.PaddedMinuteValue` | components/AIPlannerCard.tsx:70-73 | a minute below 60, padded to two characters, is two digits that read back as the minute |
| `Clock.TimeLabelReadsBack` | components/AIPlannerCard.tsx:68-74 | for a non-negative minute count the label shows an hour in 1..12, a minute in 0..59, PM exactly when the hour of the day is 12 or later, and names the same minute of the day |
| `Clock.DayArithmetic` | components/AIPlannerCard.tsx:69-72 | the 12-hour hour, the minute and the AM/PM half together recover the minute of the day |
| `Clock.TimeLabelPeriodic` | components/AIPlannerCard.tsx:68-74 | the label depends only on the minute count modulo a day |
| `Clock.EightAm` | components/AIPlannerCard.tsx:239-240 | the usual start, minute 480, reads "8:00 AM" |
| `Clock.SixThirtyAm` | components/AIPlannerCard.tsx:239-240 | the early start, minute 390, reads "6:30 AM" |
| `Osrm.CoordinatePath` | lib/osrm.ts:26-28 | the `lng,lat;…` path; that it splits back into one pair per stop, in order, is `Osrm.CoordinatePathPairs` |
| `Osrm.CoordinatePathPairs` | lib/osrm.ts:26-28 | the coordinate path holds one `lng,lat` pair per stop, in stop order, separated by `;` |
| `Osrm.RouteUrl` | lib/osrm.ts:25-32 | `fetchOsrmRoute`'s request URL starts with the service base and ends with the full-GeoJSON-geometry query, with the coordinate path in between |
| `Osrm.LegsUrl` | lib/osrm.ts:64-70 | `fetchOsrmLegDurations`' request URL starts with the service base and ends with the no-overview, no-steps query, with the coordinate path in between |
| `Osrm.UrlReadsBack` | lib/osrm.ts:25-32 | after the base, a request URL's text up to the first `?` is the coordinate path and the rest is the query |
| `Osrm.RouteUrlReadsBack` | lib/osrm.ts:25-32 | the route request carries the stops' coordinate path and the query `?overview=full&geometries=geojson` |
| `Osrm.LegsUrlReadsBack` | lib/osrm.ts:64-70 | the legs request carries the stops' coordinate path and the query `?overview=false&steps=false` |
| `Text.JoinAvoids` | lib/osrm.ts:26-28 | a character that is not the separator and is in no part is not in the joined text |
| `Osrm.FirstRouteLegs` | lib/osrm.ts:81-82 | the legs of the first route exist exactly when there is a first route whose legs array is present and non-empty |
| `Osrm.Durations` | lib/osrm.ts:84 | one duration per leg, index-aligned |
| `Osrm.Distances` | lib/osrm.ts:85 | one distance per leg, index-aligned |
| `Osrm.Buffered` | lib/osrm.ts:86-88 | each buffered duration is the raw duration times 1.3, index-aligned |
| `Osrm.FetchLegDurations` | lib/osrm.ts:59-105 | no result for fewer than two stops, a failed response, or no first route with legs |
| `Osrm.LegDurationsAligned` | lib/osrm.ts:84-96 | when there is a result, all three per-leg arrays are as long as the legs and aligned with them; the buffered total is the sum of the buffered legs and 1.3 times the raw total; the distance total is the sum of the leg distances |
| `Osrm.BufferedSum` | lib/osrm.ts:86-92 | buffering each leg and then summing equals summing and then buffering |
| `Osrm.SwapAll` | lib/osrm.ts:48 | every geometry point is swapped from `[lng, lat]` to `[lat, lng]`, count and order kept |
| `Osrm.SwapAllTwice` | lib/osrm.ts:48 | swapping twice gives the points back |
| `Osrm.FetchRoute` | lib/osrm.ts:21-57 | no result for fewer than two stops, a failed response, or no route; otherwise the first route's swapped geometry, its distance, its duration and its duration times 1.3 |
| `Overpass.PickName` | lib/overpass.ts:69-78 | no name without tags; Sinhala prefers `name:si`, Tamil `name:ta`, any other language `name:en`; each falls back to `name` and then to none |
| `Overpass.PickCategory` | lib/overpass.ts:80-91 | the category is always one of the eight known ones |
| `Overpass.PickCategoryPrecedence` | lib/overpass.ts:82-90 | a natural beach is a beach exactly when tagged so; then a natural waterfall; then a natural peak or a tourism viewpoint is a viewpoint; then museum; then heritage; then temple; then park; then attraction. Each category is chosen exactly when every earlier test fails and its own tag matches |
| `Overpass.ResolveLatLng` | lib/overpass.ts:93-101 | the element's own coordinates when it has both, else its centre, and none exactly when it has neither |
| `Overpass.ItemId` | lib/overpass.ts:129 | the `${type}-${id}` id; that it tells elements apart is `Overpass.ItemIdInjective` |
| `Overpass.ItemIdInjective` | lib/overpass.ts:129 | `${type}-${id}` ids of different elements differ |
| `Overpass.ToItem` | lib/overpass.ts:122-136 | an element yields an item exactly when it has coordinates and a non-empty name; the item carries the `${type}-${id}` id, the name, the category, the distance and the coordinates |
| `Overpass.Survivors` | lib/overpass.ts:121-137 | the kept items are exactly the items of the elements that yield one; one item per surviving element, in answer order, is `Overpass.SurvivorsDistributes` with `Overpass.SurvivorsOfOne` |
| `Overpass.SurvivorsOfOne` | lib/overpass.ts:121-137 | a single element gives its one item when it yields one, and nothing otherwise |
| `Overpass.SurvivorsDistributes` | lib/overpass.ts:121-137 | the survivors of a concatenation are the survivors of each part, in order, so every surviving element contributes its own item at its own place |
| `Overpass.InsertByDistance` | lib/overpass.ts:138 | inserting adds exactly the one item |
| `Overpass.InsertKeepsSorted` | lib/overpass.ts:138 | inserting into a list ordered by distance keeps it ordered |
| `Overpass.SortByDistance` | lib/overpass.ts:138 | the sort is a permutation ordered by ascending distance |
| `Overpass.AtDistance` | lib/overpass.ts:138 | the items at one distance, in list order, are exactly the list's items at that distance |
| `Overpass.InsertAtDistance` | lib/overpass.ts:138 | inserting puts the item ahead of the items at its own distance and leaves every other distance's items as they were |
| `Overpass.SortByDistanceStable` | lib/overpass.ts:138 | the sort is stable: at every distance, the sorted list holds the same items in the same order as the input |
| `Overpass.SortedPrefixIsNearest` | lib/overpass.ts:139 | a prefix of a distance-sorted list is sorted, part of the list, and no farther than anything after it |
| `Overpass.NearestFirst` | lib/overpass.ts:138-139 | sorting and taking four gives at most four items in distance order, drawn from the survivors, all of them when there are at most four, and none farther than a survivor left out |
| `Overpass.FetchWatchItems` | lib/overpass.ts:103-142 | `fetchWatchItems` once the service has answered; what it returns is stated by `Overpass.WatchItemsAreNearest` |
| `Overpass.WatchItemsAreNearest` | lib/overpass.ts:103-142 | a failed response gives no items; otherwise at most four items, sorted by distance, the nearest of the surviving elements |
| `Planner.LastName` | components/AIPlannerCard.tsx:65-66 | the name map answers for an id exactly when a stop has it, with the name of the last such stop |
| `Planner.LastEstimate` | components/AIPlannerCard.tsx:175-177 | the estimate map answers for an id exactly when an estimate has it, with the last such estimate |
| `Planner.VisitMinutes` | components/AIPlannerCard.tsx:181 | `timeMap.get(id) ?? DEFAULT_VISIT_MINUTES`; its value is stated by `Planner.VisitMinutesLastEstimateWins` |
| `Planner.NameOf` | components/AIPlannerCard.tsx:180 | `nameMap.get(id) ?? id`; the name map's answer is stated by `Planner.LastName`, and its use per stop by `Planner.StopsOf` |
| `Planner.VisitMinutesLastEstimateWins` | components/AIPlannerCard.tsx:178-182 | a visit lasts 60 minutes without an estimate for its id, otherwise the last estimate given for the id |
| `Planner.StopsOf` | components/AIPlannerCard.tsx:178-182 | one stop per id, in order, with the id's name (the id itself when unknown) and visit minutes |
| `Planner.LunchInsertIndex` | components/AIPlannerCard.tsx:194 | lunch goes after one of the stops: the index is at least 1 and at most the number of stops |
| `Planner.BuildSteps` | components/AIPlannerCard.tsx:184-237 | pushing breakfast, then each stop's visit, lunch after the chosen stop and the leg to the next stop, then dinner, yields exactly the slot-by-slot specification of the timeline |
| `Planner.PushStop` | components/AIPlannerCard.tsx:196-229 | one turn of the `forEach` appends the stop's visit, then lunch when it is the chosen stop, then the leg to the next stop unless it is the last, and leaves what was pushed before untouched |
| `Planner.PushedIsRendered` | components/AIPlannerCard.tsx:184-229 | after breakfast and `k` turns, the pushed steps are the rendering of breakfast and the first `k` stops' slot blocks |
| `Planner.MealSubtitle` | components/AIPlannerCard.tsx:190 | a meal's subtitle (breakfast here, lunch and dinner alike) is the suggestion when it is non-empty, otherwise the generic meal label; it is empty only when both are |
| `Planner.TravelMinutesAt` | components/AIPlannerCard.tsx:217-218 | `travelMinutes[index] ?? 45`; its use in each leg is stated by `Planner.TravelStepAt` |
| `Planner.DistanceAt` | components/AIPlannerCard.tsx:219 | `travelDistancesKm[index]`, absent past the end; its use in each leg is stated by `Planner.TravelStepAt` |
| `Planner.TimelineSteps` | components/AIPlannerCard.tsx:184-237 | the slot-by-slot step list that `Planner.BuildSteps` is proved to push; its layout is stated by `Planner.VisitStepAt`, `Planner.TravelStepAt`, `Planner.LunchPlacement` and `Planner.TimelineShape` |
| `Planner.VisitStepAt` | components/AIPlannerCard.tsx:196-203 | stop `i`'s visit sits at position `1 + 2i`, one later once lunch has passed, and carries the id, the name and the visit minutes of the stop |
| `Planner.TravelStepAt` | components/AIPlannerCard.tsx:215-227 | the leg between stops `i` and `i + 1` comes right before stop `i + 1`'s visit, is a travel step named after both ids, lasts `travelMinutes[i]` or 45 when absent, and carries `travelDistancesKm[i]` when present |
| `Planner.LunchPlacement` | components/AIPlannerCard.tsx:194-213 | lunch comes right after the visit of stop `max(1, floor(n / 2)) - 1`, followed by that stop's outgoing leg, or by dinner for a single stop |
| `Planner.VisitBeforeLunch` | components/AIPlannerCard.tsx:196-213 | the step right before lunch is the visit of stop `max(1, floor(n / 2)) - 1` |
| `Planner.LegAfterLunch` | components/AIPlannerCard.tsx:205-227 | with two or more stops, the step right after lunch is the leg out of the stop lunch follows, to the next stop |
| `Planner.TimelineShape` | components/AIPlannerCard.tsx:186-237 | with no stops the timeline is breakfast and dinner; with `n` stops it starts with breakfast, ends with dinner and has `n` visits, `n - 1` legs and three meals, `2n + 2` steps |
| `Planner.SumMinutesByKind` | components/AIPlannerCard.tsx:184-237 | every step's minutes count as a visit, a leg or a meal |
| `Planner.TotalVisitMinutes` | components/AIPlannerCard.tsx:141-150 | `totalVisitMinutes`; that it is the timeline's visit minutes is stated by `Planner.StopsMinutesAreVisitSum` and `Planner.TimelineDuration` |
| `Planner.StopsMinutesAreVisitSum` | components/AIPlannerCard.tsx:141-150 | the ordered stops' visit minutes add up as `totalVisitMinutes` adds them |
| `Planner.TimelineMeasure` | components/AIPlannerCard.tsx:184-237 | any per-kind count or minute total of the timeline equals that of breakfast, dinner, the visits, lunch (when there are stops) and the `n - 1` legs |
| `Planner.TimelineDuration` | components/AIPlannerCard.tsx:141-150 | with stops, the timeline lasts the 135 meal minutes, plus `totalVisitMinutes`, plus the legs it shows; its visit minutes are `totalVisitMinutes` |
| `Planner.TotalMealMinutes` | components/AIPlannerCard.tsx:152-157 | 135 minutes once there is a plan, none without |
| `Planner.TotalTripMinutes` | components/AIPlannerCard.tsx:159-171 | known exactly when there is a plan, travel is not loading and total travel is known; then travel plus visits plus 135 |
| `Planner.TripTotalIsTimelineLength` | components/AIPlannerCard.tsx:159-237 | when the routed total equals the legs shown, the trip total is the timeline's duration |
| `Planner.BaseStartMinutes` | components/AIPlannerCard.tsx:239-240 | the clock starts at 390 exactly when the total is known and above 480, otherwise at 480 |
| `Planner.BestStartTime` | components/AIPlannerCard.tsx:258-263 | no advice while the total is unknown or zero; early advice exactly when it is above 480 |
| `Planner.AdviceMatchesClock` | components/AIPlannerCard.tsx:239-263 | early advice is given exactly when the clock starts at 6:30; while travel loads there is no total and no advice, and the clock starts at 8:00 |
| `Planner.AssignTimeLabels` | components/AIPlannerCard.tsx:241-247 | step `k` is labelled with the clock at the base plus the minutes of the steps before it |
| `Planner.Timeline` | components/AIPlannerCard.tsx:173-247 | the steps of the timeline, each labelled `toTimeLabel(base + minutes before it)`, with the base as the trip total decides |
| `Planner.RoundHalfUp` | components/AIPlannerCard.tsx:292 | `Math.round` is within half a unit of its argument |
| `Planner.LegMinutes` | components/AIPlannerCard.tsx:291-293 | at least one minute; one minute exactly below 90 seconds; otherwise the nearest whole minute |
| `Planner.LegKm` | components/AIPlannerCard.tsx:294-296 | at least 0.1 km, and exactly 0.1 for less than 150 metres; always a whole number of tenths; above 0.1, the distance to the nearest tenth of a kilometre |
| `Planner.ConvertLegs` | components/AIPlannerCard.tsx:291-301 | one rounded minute figure per buffered leg and one km figure per leg distance, index-aligned, and the total rounded once from the buffered total |
| `Planner.TotalTravelIsNotSumOfLegs` | components/AIPlannerCard.tsx:299-301 | two 10-second legs show one minute each but total one minute: the total is not the sum of the legs |
| `Planner.LegsShownArePositive` | components/AIPlannerCard.tsx:215-227 | when the routed figures came from the leg conversion, every travel step in the timeline lasts at least a minute and shows at least 0.1 km |
| `Planner.FindLocation` | components/AIPlannerCard.tsx:268 | `find` answers exactly when a stop has the id, with the first such stop |
| `Planner.OrderedLocations` | components/AIPlannerCard.tsx:267-269 | no more locations than ids in the order; which ones is stated by `Planner.OrderedLocationsFound` and `Planner.OrderedLocationsIds` |
| `Planner.OrderedLocationsFound` | components/AIPlannerCard.tsx:267-269 | the ordered locations are, one for one and in order, the first stops with the plan's known ids |
| `Planner.OrderedLocationsIds` | components/AIPlannerCard.tsx:267-269 | the ordered locations carry exactly the known ids of the order and are all current stops |
| `Planner.PlannerCard.constructor` | components/AIPlannerCard.tsx:83-91 | the plan is the initial plan, with no travel figures and not loading |
| `Planner.PlannerCard.SetResult` | components/AIPlannerCard.tsx:94-96 | the plan is replaced (by a new initial plan, or cleared) and the travel state is kept |
| `Planner.PlannerCard.StartTravel` | components/AIPlannerCard.tsx:265-281 | nothing without a plan; with fewer than two known stops the figures are cleared and nothing is requested; otherwise travel loads and the ordered stops are requested |
| `Planner.PlannerCard.FinishTravel` | components/AIPlannerCard.tsx:281-302 | a missing routing result clears the figures; otherwise they are the converted legs; loading ends either way |
| `Planner.PlannerCard.TotalTrip` | components/AIPlannerCard.tsx:159-171 | no trip total while travel loads |
| `Planner.PlannerCard.CurrentTimeline` | components/AIPlannerCard.tsx:173-247 | no steps without a plan; otherwise the labelled timeline of the current state, whose travel steps last at least a minute and show at least 0.1 km |
| `TripProvider.Lookup` | components/TripProvider.tsx:32 | `getItem` returns the text under the key exactly when there is one |
| `TripProvider.ReadStoredTrip` | components/TripProvider.tsx:27-45 | nothing is restored from a missing or empty text, an unparsable text or JSON `null`; otherwise a missing language becomes "en" and locations that are not an array become empty |
| `TripProvider.SavedTripRestores` | components/TripProvider.tsx:27-65 | with a faithful JSON format, what the saving effect wrote is what is restored |
| `TripProvider.Removed` | components/TripProvider.tsx:73-74 | removing never lengthens the list; what it keeps is stated by the four `Removed…` lemmas below |
| `TripProvider.RemovedMembers` | components/TripProvider.tsx:73-74 | removing keeps exactly the entries with other ids; none with the id remains |
| `TripProvider.RemovedDistributes` | components/TripProvider.tsx:73-74 | removing works piece by piece, so the kept entries stay in order |
| `TripProvider.RemovedAbsent` | components/TripProvider.tsx:73-74 | removing an absent id changes nothing |
| `TripProvider.RemovedIdempotent` | components/TripProvider.tsx:73-74 | removing twice is removing once |
| `TripProvider.TripStore.constructor` | components/TripProvider.tsx:48-50 | English, no stops, not yet hydrated |
| `TripProvider.TripStore.Persist` | components/TripProvider.tsx:61-65 | the state is written under "sawariya_trip" once hydrated, and nothing is written before |
| `TripProvider.TripStore.Mount` | components/TripProvider.tsx:52-65 | after mounting the store is hydrated, holds the restored trip if there was one (its own state otherwise), and the storage holds that state |
| `TripProvider.TripStore.AddLocation` | components/TripProvider.tsx:72 | the stop is appended, duplicates included, and saved once hydrated |
| `TripProvider.TripStore.RemoveLocation` | components/TripProvider.tsx:73-74 | every stop with the id goes, the rest stay in order, and the result is saved once hydrated |
| `TripProvider.TripStore.ClearLocations` | components/TripProvider.tsx:75 | no stops remain, saved once hydrated |
| `TripProvider.TripStore.SetLanguage` | components/TripProvider.tsx:48 | the language is replaced and saved once hydrated |
| `TripWatchlist.CategoryLabel` | components/TripWatchlist.tsx:64-86 | anything but the seven named categories shows the attraction label |
| `TripWatchlist.CategoryOptions` | components/TripWatchlist.tsx:163-172 | the eight filter buttons in display order; what they cover and how they are titled is stated by the three lemmas below |
| `TripWatchlist.OptionsCoverSelection` | components/TripWatchlist.tsx:163-172 | the filter buttons are exactly the eight selectable categories |
| `TripWatchlist.OptionKeysDistinct` | components/TripWatchlist.tsx:163-172 | no category has two filter buttons |
| `TripWatchlist.OptionsAgreeWithLabels` | components/TripWatchlist.tsx:64-86 | each button's title is the label `categoryLabel` gives its category |
| `TripWatchlist.InitialSelectionIsTaxonomy` | components/TripWatchlist.tsx:97-108 | all eight categories start selected, and they are exactly the categories a point of interest can get |
| `TripWatchlist.Toggled` | components/TripWatchlist.tsx:151-161 | the toggled category's membership flips |
| `TripWatchlist.ToggledLeavesOthers` | components/TripWatchlist.tsx:151-161 | every other category keeps its membership |
| `TripWatchlist.ToggleTwice` | components/TripWatchlist.tsx:151-161 | toggling twice restores the selection |
| `TripWatchlist.ActiveLocations` | components/TripWatchlist.tsx:115 | the first five stops (all when fewer), in order |
| `TripWatchlist.LoadGroups` | components/TripWatchlist.tsx:127-142 | one group per active stop, in order, each holding the points of interest found within the radius around it |
| `TripWatchlist.StopItems` | components/TripWatchlist.tsx:130-137 | one stop's `fetchWatchItems` call with the radius in metres; its shape is `TripWatchlist.StopItemsShape` |
| `TripWatchlist.StopItemsShape` | components/TripWatchlist.tsx:130-137 | each group holds at most four items, sorted by distance, each in a selectable category |
| `TripWatchlist.Visible` | components/TripWatchlist.tsx:253-257 | the shown items are no more than the group's |
| `TripWatchlist.VisibleMembers` | components/TripWatchlist.tsx:253-257 | the shown items are exactly the group's items with a selected category |
| `TripWatchlist.VisibleDistributes` | components/TripWatchlist.tsx:253-257 | filtering works piece by piece, so the shown items keep their order |
| `TripWatchlist.VisibleAll` | components/TripWatchlist.tsx:253-257 | when every category is selected, every item is shown |
| `TripWatchlist.InitiallyAllShown` | components/TripWatchlist.tsx:97-108 | with the initial selection every loaded item is shown |
| `TripWatchlist.WatchLocationId` | components/TripWatchlist.tsx:259 | the location id is "watch-" followed by the item id |
| `TripWatchlist.WatchLocationIdInjective` | components/TripWatchlist.tsx:259 | different items get different location ids |
| `TripWatchlist.WatchLocation` | components/TripWatchlist.tsx:285-293 | the added stop has the watch id, the item's name and its coordinates |
| `TripWatchlist.ExistingIds` | components/TripWatchlist.tsx:110-113 | the id set holds exactly the ids of the stops |
| `TripWatchlist.IsAdded` | components/TripWatchlist.tsx:259-260 | the add button is disabled; when is stated by `TripWatchlist.AddThenAdded` and `TripWatchlist.RemoveThenAddable` |
| `TripWatchlist.AddThenAdded` | components/TripWatchlist.tsx:259-293 | after adding an item its button is disabled, and other items' buttons are unaffected |
| `TripWatchlist.RemoveThenAddable` | components/TripWatchlist.tsx:259-260 | after removing an item's stop its button is enabled again |
| `TripWatchlist.Watchlist.constructor` | components/TripWatchlist.tsx:94-108 | no groups, not loading, a 3 km radius and every category selected |
| `TripWatchlist.Watchlist.ToggleCategory` | components/TripWatchlist.tsx:151-161 | the selection becomes the toggled selection |
| `TripWatchlist.Watchlist.SetRadius` | components/TripWatchlist.tsx:197 | the radius becomes the slider's value |
| `TripWatchlist.Watchlist.Refresh` | components/TripWatchlist.tsx:117-149 | no groups and not loading without stops; otherwise one group per active stop, in order, and loading over |
| `SearchBar.ResultToLocation` | components/SearchBar.tsx:9-14 | the place id becomes the stop's id, the display name its name, and the coordinate texts are read as numbers |
| `SearchBar.AfterSelect` | components/SearchBar.tsx:53-60 | the trip after a selection: it keeps its stops in place and grows by at most one; the rest is `SearchBar.SelectAddsOnce` and `SearchBar.SelectKeepsIdsDistinct` |
| `SearchBar.SelectAddsOnce` | components/SearchBar.tsx:53-60 | after selecting, the trip has a stop with the result's id, keeps its stops in place, grows by at most one, and selecting again changes nothing |
| `SearchBar.SelectKeepsIdsDistinct` | components/SearchBar.tsx:53-60 | selecting never gives two stops the same id |
| `SearchBar.Chosen` | components/SearchBar.tsx:62-66 | nothing without results; the active result when the index points at one, the first result otherwise |
| `SearchBar.ChosenIsListed` | components/SearchBar.tsx:65 | the submitted result is one of the listed results |
| `SearchBar.ShouldSearch` | components/SearchBar.tsx:31 | `query.trim().length >= 2` in UTF-16 code units; when it holds is stated by the three lemmas below |
| `SearchBar.SearchedIsVisible` | components/SearchBar.tsx:31 | a searched query holds two characters that are not whitespace, or one character that takes two UTF-16 code units |
| `SearchBar.TwoVisibleIsSearched` | components/SearchBar.tsx:31 | two characters that are not whitespace make a query searched |
| `SearchBar.AstralIsSearched` | components/SearchBar.tsx:31 | one character outside the Basic Multilingual Plane makes a query searched |
| `SearchBar.ShouldSearchIffVisible` | components/SearchBar.tsx:31 | a search is issued exactly when the trimmed query is at least two UTF-16 code units long, that is, when it holds two non-whitespace characters or one astral character |
| `SearchBar.SearchBox.constructor` | components/SearchBar.tsx:18-21 | an empty query, no results, not loading, index 0 |
| `SearchBar.SearchBox.OnChange` | components/SearchBar.tsx:76-84 | the query follows the input; a query too short to search clears the results, resets the index and stops loading, and a longer one leaves them |
| `SearchBar.SearchBox.Search` | components/SearchBar.tsx:30-51 | a short query changes nothing; otherwise the results are the answer for the trimmed query, the index is 0 and loading is over |
| `SearchBar.SearchBox.Hover` | components/SearchBar.tsx:114 | the hovered row becomes active |
| `SearchBar.SearchBox.Select` | components/SearchBar.tsx:53-60 | the result's stop is added unless the trip has its id; the storage is untouched before hydration or when the id was already there, and otherwise is the old storage with the trip written under "sawariya_trip"; query and results are cleared |
| `SearchBar.SearchBox.Submit` | components/SearchBar.tsx:62-66 | nothing happens without results, storage included; otherwise the chosen result is selected, with the storage written only under "sawariya_trip" and only once hydrated |

## Left out

- Network I/O is not modelled: the `fetch` calls of `lib/osrm.ts`, `lib/overpass.ts` and `lib/nominatim.ts`. Their answers are parameters. Only "not ok" and the shape of the parsed body are modelled.
- Timing and cancellation are not modelled: debounce timers, `AbortController` and the `active` stale-result flags. They only matter for asynchronous interleaving. Each effect is modelled as running to completion.
- The haversine `distanceKm` and `toRadians` are not modelled. They are floating-point trigonometry, so distance is an opaque parameter that serves as the sort key.
- `new URL(...)` is taken to leave the coordinate path as written. The rendered numbers hold only digits, signs, `.` and `e`, which the URL parser keeps. `Osrm.RouteUrl` and `Osrm.LegsUrl` are the texts requested; `Osrm.FetchRoute` and `Osrm.FetchLegDurations` take the answer to that request as a parameter.
- The Overpass query text is not modelled. It is opaque text sent to an external service.
- `Planner.VisitMinutes` and `Clock.ToTimeLabel`: visit minutes are whole numbers here, while the plan's `timeEstimates[].minutes` is any JavaScript number. A fractional estimate would make the clock fractional and print labels such as "9:30.5 AM"; the model does not cover that.
- Floating-point rounding is not modelled; numbers are exact reals. The same goes for the text rendering of numbers in URLs and for `Number(text)`, which is a parameter. `NaN` coordinates are not modelled.
- JSX rendering, icons and styling are not modelled. That includes the route summary, the rotating texts, the error text, the map, the preloader, the language switcher and the theme toggle.
- The localisation dictionary is not modelled. Labels and category titles are parameters.
- `optimizeTrip` and `handleOptimize` are not modelled: `optimizeTrip` only throws. A plan enters through `Planner.PlannerCard.SetResult`.
- `localStorage` and `JSON.parse`/`JSON.stringify` are not modelled. They are a `map` and a codec parameter. A stored language that is not a string, and array elements that are not valid stops, are taken as given.
- `SearchBar.SearchBox.Search`: the transient `isLoading = true` while the request is pending is not modelled, only the state once the answer is in. The same holds for `TripWatchlist.Watchlist.Refresh`.
- `TripProvider.TripStore.Mount`: React's batching is not modelled. The two mounting effects run in order, the saving effect once with the pre-restore state and once with the restored state.
- `Planner.PlannerCard.TotalTrip`: only the loading case is stated here. The full rule is `Planner.TotalTripMinutes`, which this member returns.
- `TripWatchlist.CategoryLabel`: its own contract states only the fallback. That each of the seven named categories gets its own label is proved in `TripWatchlist.OptionsAgreeWithLabels`.
