# Trip planner front end: map view and planner rules

This project models the decision logic of two React components of a trip
planner's front end, and proves properties of the model.

The **map view** (`frontend/app/components/MapView.tsx`) plots an itinerary's
activities. The model covers:

- which days are shown (`showAllDays`, `activeDay`);
- which activities carry usable coordinates: truthy, not NaN, in range;
- the single 1-based stop counter that runs across days;
- the map centre and zoom. With no stop, a 25-entry place table gives the
  centre: exact key, then the first key in declaration order that contains
  or is contained in the location, then Jaipur, at zoom 11. One stop gives
  zoom 14. Several stops give the bounding-box midpoint and a zoom ladder on
  the larger span;
- marker colour, size and opacity, and the category legend (distinct,
  first-appearance order, at most six).

The **planner page** (`frontend/app/planner/page.tsx`) holds the form and
booking state. The model covers:

- the ordered first-failure validation of `handleGenerate`;
- the theme multiselect toggle and remove;
- the booking items derived from an itinerary, their selection toggle and
  the selected-and-bookable total;
- the tab indicator's count and slot;
- previous/next day clamping and the day buttons;
- the card-number and CVV input normalisation;
- the icon, colour, price-level, star-rating, weather and budget-warning
  lookups.

The page state is the class `Planner.PlannerState`, whose methods are the
state setters. Loops in the source are methods proved against the
specification functions:

- the stop counter: `MapView.PlotActivities` and `MapView.PlotDay`;
- the zoom ladder: `MapView.ChooseZoom`;
- the fallback `find`: `MapView.FindPartial` and `MapView.ResolveFallback`;
- the booking-item loops: `Planner.BuildBookingItems`;
- the tab counters: `Planner.TabCount` and `Planner.TabPosition`.

The code also needed some JavaScript value semantics, which are made
explicit in two modules:

- `Trip`: optional fields; truthiness of numbers and day numbers; NaN (a
  number is `Finite`, `NaN` or an infinity, and comparisons with NaN are
  false).
- `Text`: `trim` and the `\s` class over the ECMAScript white-space and
  line-terminator code points; `\D`; `includes`; `repeat`; ASCII
  `toLowerCase`.

Points where the code does something a reader might not expect:

- Activities are read only through their flat `latitude`/`longitude`
  fields.
- The legend takes the categories of every plotted stop, active or not.
- The multi-stop zoom (up to 15) may exceed the single-stop zoom (14).
- Validation reads the duration, budget and traveller state that no
  handler updates (see Findings).

## Model

| member | source | states |
|---|---|---|
| `MapView.DaySelection` | frontend/app/components/MapView.tsx:159-161 | With `showAllDays`, or with an absent or zero `activeDay`, every day is shown in order; otherwise exactly the days numbered `activeDay`. |
| `MapView.FilterDaysMembers` | frontend/app/components/MapView.tsx:161 | A day survives the filter iff it is one of the input days and `!activeDay \|\| day.day === activeDay` holds for it. |
| `MapView.HasCoordinatesIff` | frontend/app/components/MapView.tsx:166-176 | An activity is kept iff both coordinates are present, finite, non-zero and in [-90,90] / [-180,180]; out-of-range values are dropped, never clamped. |
| `MapView.PlotDay` | frontend/app/components/MapView.tsx:166-182 | The inner loop appends exactly the day's kept activities, in order, numbered by the counter continuing from the stops already plotted. |
| `MapView.PlotActivities` | frontend/app/components/MapView.tsx:158-184 | The counter loop produces exactly `Stops(days, activeDay, showAllDays)`, and the i-th stop is numbered i + 1. |
| `MapView.StopNumbers` | frontend/app/components/MapView.tsx:163-181 | Stop numbers are 1..n in days-then-activities order; the counter is never reset at a day boundary. |
| `MapView.DayStopNumbers` | frontend/app/components/MapView.tsx:181 | Within one day the stops continue the count from the stops before it. |
| `MapView.DayStopsSound` | frontend/app/components/MapView.tsx:166-182 | Every stop of a day comes from a kept activity of that day and carries its coordinates, its day and `isActiveDay`. |
| `MapView.DayStopsComplete` | frontend/app/components/MapView.tsx:166-182 | Every kept activity of a day becomes a stop of that day. |
| `MapView.TripStopsSound` | frontend/app/components/MapView.tsx:164-182 | Every stop comes from a kept activity of a shown day; `isActiveDay` holds iff `activeDay` is falsy or equals the stop's day. |
| `MapView.TripStopsComplete` | frontend/app/components/MapView.tsx:164-182 | Every kept activity of every shown day is a stop. |
| `MapView.ActiveCount` | frontend/app/components/MapView.tsx:238 | `activeActivitiesCount` is at most the number of stops. |
| `MapView.SingleDayAllActive` | frontend/app/components/MapView.tsx:238 | Outside all-days mode every stop is on the active day, so the count of active stops is the number of stops. |
| `MapView.ChooseZoom` | frontend/app/components/MapView.tsx:226-232 | The reassigned `zoom` equals the ladder function for the span. |
| `MapView.ZoomSteps` | frontend/app/components/MapView.tsx:226-232 | Zoom is 15/13/12/10/9/8 below 0.01/0.05/0.1/0.5/1/otherwise, always within 8..15. |
| `MapView.ZoomMonotone` | frontend/app/components/MapView.tsx:226-232 | The zoom never increases as the span grows. |
| `MapView.LadderMonotone` | frontend/app/components/MapView.tsx:226-232 | For any ladder with ascending thresholds and descending zooms, the chosen zoom is non-increasing in the span. |
| `MapView.ExactIndex` | frontend/app/components/MapView.tsx:193 | A found index holds exactly the key; no index means no entry has that key. |
| `MapView.FirstPartial` | frontend/app/components/MapView.tsx:197-199 | A found key partially matches (either string contains the other) and no earlier key does; none found means no key matches. |
| `MapView.FindPartial` | frontend/app/components/MapView.tsx:197-199 | The `find` loop returns the first partially matching key in declaration order, or none. |
| `MapView.ResolveFallback` | frontend/app/components/MapView.tsx:190-201 | The reassigned `defaultCoord` equals the fallback centre with the own-keys lookup: exact hit, else first partial match, else Jaipur. |
| `MapView.FallbackCenterInTable` | frontend/app/components/MapView.tsx:188-201 | The fallback centre is always one of the table's coordinates. |
| `MapView.FallbackCenterIgnoresCase` | frontend/app/components/MapView.tsx:190 | Lower-casing the location beforehand does not change the centre. |
| `MapView.FallbackExactMatch` | frontend/app/components/MapView.tsx:190-193 | " Udaipur " is trimmed and lower-cased to the `udaipur` entry (24.5854, 73.7125). |
| `MapView.FallbackUnknownLocation` | frontend/app/components/MapView.tsx:190-201 | "Nowhereville" matches no key exactly or partially and is centred on Jaipur. |
| `MapView.NoPartialMatch` | frontend/app/components/MapView.tsx:197-199 | A key longer than every table key, lacking a character of each, matches none of them exactly or partially. |
| `MapView.FallbackBlankLocation` | frontend/app/components/MapView.tsx:190-200 | A blank location trims to "", which the first key (`jaipur`) contains, so that key is the partial match. |
| `MapView.LookupAsWritten` | frontend/app/components/MapView.tsx:193 | `DEFAULT_COORDINATES[key]` is an own entry iff a table key equals `key`, else an inherited `Object.prototype` member when `key` names one, else undefined. |
| `MapView.ConstructorIsNotACentre` | frontend/app/components/MapView.tsx:193-203 | As written, the location "Constructor" yields the inherited `constructor` function as the centre; the own-keys lookup gives Jaipur. |
| `MapView.AsWrittenAgreesOffPrototype` | frontend/app/components/MapView.tsx:190-201 | For every key that is not an inherited member name, the lookup as written and the own-keys lookup give the same centre. |
| `MapView.ComputeViewport` | frontend/app/components/MapView.tsx:187-235 | The memo's branches compute exactly `Viewport(stops, location)`, whose fallback uses the own-keys lookup. |
| `MapView.ViewportEmpty` | frontend/app/components/MapView.tsx:188-204 | With no stops the centre is the fallback centre, at zoom 11. |
| `MapView.ViewportSingle` | frontend/app/components/MapView.tsx:206-212 | One stop: the centre is that stop, at zoom 14. |
| `MapView.ViewportMany` | frontend/app/components/MapView.tsx:214-234 | With two or more stops the location is not consulted: the view is the bounding-box view. |
| `MapView.SpreadViewCentred` | frontend/app/components/MapView.tsx:214-219 | The centre is equidistant from the minimum and maximum latitude and longitude (the midpoint, not the mean), so it lies inside the bounding box. |
| `MapView.BoxHoldsStops` | frontend/app/components/MapView.tsx:215-216 | Every stop lies within the min/max bounding box of the stops. |
| `MapView.ViewportFramesStops` | frontend/app/components/MapView.tsx:206-234 | Whenever something is plotted, the centre lies in the stops' bounding box and the zoom is within 8..15. |
| `MapView.MarkerColorIsLegendColorOfLowercase` | frontend/app/components/MapView.tsx:93-105 | The marker colour is the legend colour (lines 270-277) of the lower-cased category, so the two agree on lower-case categories. |
| `MapView.LegendColorIsCaseSensitive` | frontend/app/components/MapView.tsx:270-277 | "Food" gets an orange marker but a grey legend swatch: only the marker lower-cases. |
| `MapView.MarkerGeometry` | frontend/app/components/MapView.tsx:107-133 | Active markers are 32 px and opaque, inactive 24 px at opacity 0.6, anchored at size/2 and labelled with the stop number. |
| `MapView.MarkerLabels` | frontend/app/components/MapView.tsx:335-339 | The i-th marker sits on the i-th stop and is labelled i + 1. |
| `MapView.CategoriesExact` | frontend/app/components/MapView.tsx:263 | The category list holds exactly the non-empty categories of the plotted stops. |
| `MapView.Distinct` | frontend/app/components/MapView.tsx:263 | `Array.from(new Set(xs))` has the same members as `xs`, each once. |
| `MapView.DistinctFirstAppearance` | frontend/app/components/MapView.tsx:263 | The distinct values keep the order of their first appearance. |
| `MapView.LegendProperties` | frontend/app/components/MapView.tsx:263-265 | The legend has at most 6 entries and is a prefix of the distinct categories (all of them when there are at most 6). Its entries are distinct, non-empty and in first-appearance order, each the category of some plotted stop, active or not. |
| `MapView.CategoryEmojiCaseInsensitive` | frontend/app/components/MapView.tsx:137-149 | The popup emoji ignores the category's case. |
| `MapView.HeaderDescribesStops` | frontend/app/components/MapView.tsx:237-253 | With a day selected, the header "Day {currentDay} • {count} locations" names the day every plotted stop is on, and its count is the number of stops. With no day selected it names day 1 while every day is plotted. |
| `Text.Trim` | frontend/app/planner/page.tsx:241 | A trimmed string neither starts nor ends with white space and is no longer than the input. |
| `Text.TrimSlice` | frontend/app/planner/page.tsx:241 | The trimmed string is a contiguous slice of the input, and everything before and after that slice is white space. |
| `Text.TrimPadded` | frontend/app/components/MapView.tsx:190 | Trimming a string padded with white space on both sides returns the string, when it has non-space ends. |
| `Text.TrimAllSpace` | frontend/app/planner/page.tsx:241-252 | A string made only of white space trims to "". |
| `Text.ContainsIff` | frontend/app/components/MapView.tsx:198 | `s.includes(t)` holds iff `t` occurs in `s` as a contiguous slice. |
| `Text.RemoveSpacesTrim` | frontend/app/planner/page.tsx:1736-1738 | Trimming drops only white space: removing all white space before or after trimming gives the same string. |
| `Planner.ValidateFirstFailing` | frontend/app/planner/page.tsx:241-268 | Validation passes iff no check fails; the reported error fails and no earlier check does; any failing check with no earlier failure is the one reported. |
| `Planner.NumericChecksNeverFireAsWritten` | frontend/app/planner/page.tsx:253-264 | As written, the duration, budget and traveller checks read the state set at lines 138-140, never the entered text, so they can never fire, whatever was entered. |
| `Planner.ZeroDayTripAccepted` | frontend/app/planner/page.tsx:253-264 | With the duration and budget fields left empty (`Number("")` is 0), the form passes as written and fails on duration when the entered values are checked. |
| `Planner.CheckedFormEnforcesEntries` | frontend/app/planner/page.tsx:241-268 | Checking the entered values, the form passes iff places and date are non-blank, duration ≥ 1, budget ≥ 1000, travellers ≥ 1 and a theme is chosen; the duration error is reported iff the text checks pass and the duration is below 1. |
| `Planner.PlannerState.Generate` | frontend/app/planner/page.tsx:239-273 | It checks the form as written: the text fields, the `themes` field and the never-updated numeric state. It therefore proceeds iff the three text fields are non-blank and a theme is selected, whatever numbers were entered. It always clears `bookingConfirmed`. On failure it stores the first error's exact message and leaves the itinerary and day alone. On success it clears the error and the itinerary and resets the day to 1. |
| `Planner.WithoutTheme` | frontend/app/planner/page.tsx:221-223 | The filtered list keeps exactly the other themes and never the removed one. |
| `Planner.WithoutAppend` | frontend/app/planner/page.tsx:211-223 | The filter distributes over concatenation, so the kept themes stay in their relative order. |
| `Planner.ToggleThemeProperties` | frontend/app/planner/page.tsx:211-219 | An absent theme is appended at the end and toggling it again restores the list. A present theme loses every occurrence. All other themes are unaffected. |
| `Planner.PlannerState.constructor` | frontend/app/planner/page.tsx:135-172 | The page starts with the cultural theme, no itinerary, items or error, the list view, day 1, no confirmed booking and empty card fields. |
| `Planner.PlannerState.ToggleTheme` | frontend/app/planner/page.tsx:211-219 | The themes become the toggled list; nothing else changes. |
| `Planner.PlannerState.RemoveTheme` | frontend/app/planner/page.tsx:221-223 | No occurrence of the theme remains; nothing else changes. |
| `Planner.BuildBookingItems` | frontend/app/planner/page.tsx:329-358 | The nested loops push exactly `BookingItemsFor(itinerary)`. |
| `Planner.DayItemsExact` | frontend/app/planner/page.tsx:333-343 | An item is among a day's items iff it is built from a costed activity of that day; there are no more items than activities. |
| `Planner.DayItemsInOrder` | frontend/app/planner/page.tsx:333-343 | A day's items are one per costed activity, in the activities' order: there are as many items as costed activities, and the k-th item is built from the k-th costed activity. |
| `Planner.TripItemsExact` | frontend/app/planner/page.tsx:332-345 | The activity items are exactly those built from the costed activities of the itinerary's days. |
| `Planner.TripItemsAreActivities` | frontend/app/planner/page.tsx:335-341 | Every activity item is an activity, selected, with a positive cost and a day. |
| `Planner.CostedIff` | frontend/app/planner/page.tsx:334 | `estimated_cost && estimated_cost > 0` holds iff the cost is present and above zero. |
| `Planner.BookingItemsShape` | frontend/app/planner/page.tsx:329-358 | Every item starts selected and the activity items come first, with positive costs. A single transport item is last iff the route's cost is truthy, named after the travel mode and costing the route's cost. |
| `Planner.PlannerState.ReceiveItinerary` | frontend/app/planner/page.tsx:315-320 | The itinerary is stored and its booking items derived. An empty hotel list moves the hotels view to the list. Nothing else changes. |
| `Planner.ViewAfterLoad` | frontend/app/planner/page.tsx:318-320 | The view changes iff it is the hotels view and the itinerary's hotel list is present and empty, and then it becomes the list; it never stays on hotels when the hotel list is empty. |
| `Planner.PlannerState.ReceiveFailure` | frontend/app/planner/page.tsx:321-323 | The error is the message, or the default text for an empty message. |
| `Planner.ToggleAt` | frontend/app/planner/page.tsx:360-366 | The length is unchanged. |
| `Planner.ToggleAtProperties` | frontend/app/planner/page.tsx:360-366 | Only `selected` at the index flips. All other items are unchanged, an out-of-range index changes nothing, and toggling twice restores the list. |
| `Planner.TotalCostAppend` | frontend/app/planner/page.tsx:368-372 | The total of a concatenation is the sum of the totals. |
| `Planner.TotalCostToggle` | frontend/app/planner/page.tsx:360-372 | Toggling a bookable item adds or subtracts its cost. Toggling a non-bookable item, or an out-of-range index, leaves the total unchanged. |
| `Planner.TotalOfAllSelected` | frontend/app/planner/page.tsx:368-372 | When every item is selected and bookable, the total is the sum of all costs. |
| `Planner.PlannerState.ToggleBookingItem` | frontend/app/planner/page.tsx:360-372 | The items become the toggled list and the shown total is its total; nothing else changes. |
| `Planner.TabsShown` | frontend/app/planner/page.tsx:1185-1231 | Between 2 and 4 buttons, list first and map last. |
| `Planner.Slot` | frontend/app/planner/page.tsx:881-901 | The slot of a rendered tab is its first position; an unrendered tab gets 0. |
| `Planner.TabCount` | frontend/app/planner/page.tsx:869-874 | The stepped `count` is the number of rendered buttons. |
| `Planner.TabSlots` | frontend/app/planner/page.tsx:869-901 | The count is 2 + [hotels non-empty] + [route present]. The slot is 0 for the list, 1 for hotels when listed, 1 + [hotels] for the route when present, count - 1 for the map, and 0 otherwise, always below the count. |
| `Planner.TabPosition` | frontend/app/planner/page.tsx:881-901 | The stepped `position` is the slot times 100/count. |
| `Planner.PlannerState.SetView` | frontend/app/planner/page.tsx:1186-1223 | The view becomes the clicked tab; nothing else changes. |
| `Planner.DayNavigationInRange` | frontend/app/planner/page.tsx:1450-1461 | A day in 1..duration stays there. Each button moves it by one except at the end it clamps to. |
| `Planner.PreviousDay` | frontend/app/planner/page.tsx:1450 | The result is at least 1, and is either d - 1 or 1. |
| `Planner.NextDay` | frontend/app/planner/page.tsx:1461 | The result is at most the duration, and is either d + 1 or the duration. |
| `Planner.PlannerState.GoToPreviousDay` | frontend/app/planner/page.tsx:1450 | The day becomes `max(1, d - 1)`; nothing else changes. |
| `Planner.PlannerState.GoToNextDay` | frontend/app/planner/page.tsx:1461 | The day becomes `min(duration, d + 1)`; nothing else changes. |
| `Planner.PlannerState.SelectDay` | frontend/app/planner/page.tsx:1361 | A day button sets the day to that day's number, unclamped (the same handler is at line 1521); nothing else changes. |
| `Planner.NormaliseCardNumber` | frontend/app/planner/page.tsx:1735-1738 | The output neither starts nor ends with white space, and deleting its white space gives the input with white space deleted. |
| `Planner.Group4Spaces` | frontend/app/planner/page.tsx:1737 | Grouping inserts only spaces: removing them gives back the ungrouped string. |
| `Planner.Group4Layout` | frontend/app/planner/page.tsx:1737 | Grouping puts a space after every four characters and nowhere else. |
| `Planner.CardNumberProperties` | frontend/app/planner/page.tsx:1735-1738 | The card number has a space at every fifth position and nowhere else; normalising it again changes nothing. |
| `Planner.PlannerState.SetCardNumber` | frontend/app/planner/page.tsx:1733-1742 | The card number becomes the normalised input; nothing else changes. |
| `Planner.NormaliseCvv` | frontend/app/planner/page.tsx:1817 | The CVV holds digits only. |
| `Planner.CvvKeepsDigits` | frontend/app/planner/page.tsx:1817 | The filter works piece by piece, and keeps a single character iff it is a digit, so every digit of the input is kept, in order, and nothing else. |
| `Planner.CvvIdempotent` | frontend/app/planner/page.tsx:1817 | Normalising the CVV twice is normalising it once. |
| `Planner.PlannerState.SetCvv` | frontend/app/planner/page.tsx:1814-1819 | The CVV becomes the digits of the input; nothing else changes. |
| `Planner.TransportIconRules` | frontend/app/planner/page.tsx:529-550 | The transport icon ignores case, and an absent or empty mode shows the car. |
| `Planner.CategoryIconAgreesWithMap` | frontend/app/planner/page.tsx:468-489 | The planner's category icon equals the map popup's emoji for every category except nightlife. |
| `Planner.CategoryColorRules` | frontend/app/planner/page.tsx:491-512 | The card colour ignores the category's case. |
| `Planner.AdventureLooksLikeNature` | frontend/app/planner/page.tsx:496-503 | Adventure and nature share a colour. |
| `Planner.FormatCurrencyDiffersOnZero` | frontend/app/planner/page.tsx:514-517 | The planner's `formatCurrency` and the map popup's (MapView.tsx lines 151-154) agree on every amount but zero, which the popup shows as "Free" and the planner as an amount. |
| `Planner.PriceLevelTextProperties` | frontend/app/planner/page.tsx:524-527 | A falsy level gives "Price not available". Levels 1..4 give that many coins followed by spaces, four symbols in all. Any other level makes `repeat` raise. |
| `Planner.StarRatingProperties` | frontend/app/planner/page.tsx:519-522 | A positive rating gives exactly one star per whole point, followed by one sparkle iff the fraction is at least one half, and nothing else. A negative rating makes `repeat` raise. |
| `Planner.WeatherIconRules` | frontend/app/planner/page.tsx:1406-1411 | Each icon is shown exactly when its condition holds: rain iff the text mentions "Rain"; cloud iff it mentions "Cloud" but not "Rain"; sun iff it mentions neither. The three icons differ. |
| `Planner.LightRainShowsSun` | frontend/app/planner/page.tsx:1406-1411 | Matching is case-sensitive: "light rain" shows the sun. |
| `Planner.WarningTitleGroups` | frontend/app/planner/page.tsx:557-621 | Two levels share a heading iff they are equal or are info and error. The icons tell all four levels apart. |

## Left out

- Rendering is not modelled: JSX, CSS classes, the Leaflet map, tiles, popups, `MapController`/`setView`, and the `L.DivIcon` HTML string. Only the icon parameters are kept.
- The display strings built from numbers are not modelled: tab widths as percentage strings, `toLocaleString`, `toFixed`, and dates. `formatCurrency` is reduced to "Free" versus an amount.
- No network or browser I/O is modelled. The backend request and its JSON are replaced by a method parameter (`ReceiveItinerary`) and an error message (`ReceiveFailure`). The same goes for Google Maps autocomplete, the clipboard, file download, `window.open`, share-URL encoding, the simulated payment delay, and the text-export builder.
- Numbers are exact reals: there is no IEEE-754 rounding. NaN appears only as a coordinate value, which the filter rejects.
- Text semantics are simplified. `toLowerCase` maps ASCII letters only. Strings are sequences of code points, not UTF-16 code units. `Number()` parsing of the text inputs is not modelled.
- Browser input limits are not modelled: the `maxLength` attributes of the card and CVV inputs cap what the handlers receive, and the `min`/`max` attributes of the duration, budget and traveller inputs block a submit with an out-of-range non-empty value.
- `Planner.PriceLevelText`: the level is an integer. `repeat`'s truncation of a fractional level is not modelled.
- `Planner.StarRating`: a NaN rating is not modelled.
- `MapView.ResolveFallback` and `MapView.ComputeViewport`: these model the corrected lookup, which reads the table's own keys. For a location that names an `Object.prototype` member ("constructor", "__proto__", …) line 193 yields that member instead. `MapView.FallbackCenterAsWritten` models line 193 as written (see Findings).
- `Planner.PlannerState.Generate`: the start point, destination and date are page state in the source; here they are parameters, because the class does not hold them. The entered duration, budget and traveller numbers are parameters as well, which validation as written ignores.
- `MapView.SpreadViewCentred`: the zoom clause is not repeated there. The definition of `SpreadView` and `MapView.ZoomSteps` carry it.
- The loading flag, the modals, the share state and the other payment fields are left out: no modelled rule reads them.

## Findings

| source | as written | input that shows it | evidently intended | confidence | as-written member | corrected member |
|---|---|---|---|---|---|---|
| frontend/app/components/MapView.tsx:193 | `DEFAULT_COORDINATES[locationKey]` also reads members inherited from `Object.prototype`, and a function is truthy, so it survives the `!defaultCoord` test | location "Constructor" (key "constructor") | look up only the table's own keys, so an unknown place falls through to partial matching and then Jaipur | not executed | `MapView.ConstructorIsNotACentre` | `MapView.FallbackCenterInTable` |
| frontend/app/planner/page.tsx:253-264 | the duration, budget and traveller checks read `duration`, `budget` and `travelerCount`, which stay at 3, 10000 and 1, while the inputs edit `durationInput`, `budgetInput` and `travelerInput` | duration and budget fields left empty: no input is `required`, so the `min` attributes do not stop the submit, and `Number("")` is 0 | check the entered values | not executed | `Planner.ZeroDayTripAccepted` | `Planner.CheckedFormEnforcesEntries` |
