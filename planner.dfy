/** The planner page's rules (frontend/app/planner/page.tsx): the ordered
    form validation, the theme multiselect, booking items and their total,
    the tab indicator, day navigation, the card-number and CVV inputs and
    the small lookup tables the page renders with. */
module Planner {
  import opened Text
  import opened Trip
  import MapView

  // ---------------------------------------------------------------------
  // Form validation

  /** The values `handleGenerate` checks. */
  datatype PlannerForm = PlannerForm(
    fromLocation: string,
    toLocation: string,
    startDate: string,
    duration: real,
    budget: real,
    travelerCount: real,
    themes: seq<string>)

  /** The checks of lines 241-268, in the order they run. */
  datatype FormError =
    | MissingStart
    | MissingDestination
    | MissingStartDate
    | DurationTooShort
    | BudgetTooLow
    | TooFewTravelers
    | NoTheme
  {
    function Rank(): nat {
      match this
      case MissingStart => 0
      case MissingDestination => 1
      case MissingStartDate => 2
      case DurationTooShort => 3
      case BudgetTooLow => 4
      case TooFewTravelers => 5
      case NoTheme => 6
    }

    function Message(): string {
      match this
      case MissingStart => "Please enter a start point"
      case MissingDestination => "Please enter a destination"
      case MissingStartDate => "Please select a start date"
      case DurationTooShort => "Duration must be at least 1 day"
      case BudgetTooLow => "Budget must be at least 1000 INR"
      case TooFewTravelers => "There must be at least 1 traveler"
      case NoTheme => "Please select at least one theme"
    }
  }

  /** Whether the form fails check `e`, on its own. */
  predicate Fails(f: PlannerForm, e: FormError) {
    match e
    case MissingStart => Trim(f.fromLocation) == ""
    case MissingDestination => Trim(f.toLocation) == ""
    case MissingStartDate => Trim(f.startDate) == ""
    case DurationTooShort => f.duration < 1.0
    case BudgetTooLow => f.budget < 1000.0
    case TooFewTravelers => f.travelerCount < 1.0
    case NoTheme => |f.themes| == 0
  }

  /** The chain of early returns: the first failing check, if any. */
  function Validate(f: PlannerForm): Option<FormError> {
    if Trim(f.fromLocation) == "" then Some(MissingStart)
    else if Trim(f.toLocation) == "" then Some(MissingDestination)
    else if Trim(f.startDate) == "" then Some(MissingStartDate)
    else if f.duration < 1.0 then Some(DurationTooShort)
    else if f.budget < 1000.0 then Some(BudgetTooLow)
    else if f.travelerCount < 1.0 then Some(TooFewTravelers)
    else if |f.themes| == 0 then Some(NoTheme)
    else None
  }

  /** The reported error fails and no earlier check does; conversely a
      failing check with no earlier failure is the one reported; and the
      form passes exactly when no check fails. */
  lemma ValidateFirstFailing(f: PlannerForm)
    ensures Validate(f).None? <==> forall e: FormError :: !Fails(f, e)
    ensures Validate(f).Some? ==>
      Fails(f, Validate(f).value) && forall e: FormError :: e.Rank() < Validate(f).value.Rank() ==> !Fails(f, e)
    ensures forall e: FormError :: Fails(f, e) && (forall e': FormError :: e'.Rank() < e.Rank() ==> !Fails(f, e')) ==>
      Validate(f) == Some(e)
  {
    forall e: FormError
      ensures Fails(f, e) ==> Validate(f).Some? && Validate(f).value.Rank() <= e.Rank()
    {
      match e
      case MissingStart =>
      case MissingDestination =>
      case MissingStartDate =>
      case DurationTooShort =>
      case BudgetTooLow =>
      case TooFewTravelers =>
      case NoTheme =>
    }
    assert Validate(f).Some? ==> Fails(f, Validate(f).value);
  }

  /** Lines 138-140: the numeric state the checks at lines 253-264 read. No
      handler calls `setDuration`, `setBudget` or `setTravelerCount`; the
      inputs edit `durationInput`, `budgetInput` and `travelerInput`. */
  const StateDuration := 3.0
  const StateBudget := 10000.0
  const StateTravelerCount := 1.0

  /** The form `handleGenerate` checks, as written: the entered numbers are
      ignored in favour of the never-updated state. */
  function CheckedFormAsWritten(fromLocation: string, toLocation: string, startDate: string,
                                enteredDuration: real, enteredBudget: real, enteredTravelers: real,
                                themes: seq<string>): PlannerForm
  {
    PlannerForm(fromLocation, toLocation, startDate, StateDuration, StateBudget, StateTravelerCount, themes)
  }

  /** The form checked with the values the user entered. */
  function CheckedForm(fromLocation: string, toLocation: string, startDate: string,
                       enteredDuration: real, enteredBudget: real, enteredTravelers: real,
                       themes: seq<string>): PlannerForm
  {
    PlannerForm(fromLocation, toLocation, startDate, enteredDuration, enteredBudget, enteredTravelers, themes)
  }

  /** As written, the duration, budget and traveller checks can never fire,
      whatever was entered. */
  lemma NumericChecksNeverFireAsWritten(fromLocation: string, toLocation: string, startDate: string,
                                        enteredDuration: real, enteredBudget: real, enteredTravelers: real,
                                        themes: seq<string>)
    ensures var e := Validate(CheckedFormAsWritten(fromLocation, toLocation, startDate,
                                                   enteredDuration, enteredBudget, enteredTravelers, themes));
      e != Some(DurationTooShort) && e != Some(BudgetTooLow) && e != Some(TooFewTravelers)
  {
  }

  /** Duration and budget fields left empty: no input is `required`, so
      the browser's `min` checks let the empty fields through, and
      `Number("")` is 0. Such a 0-day trip with no budget is accepted as
      written and rejected, for its duration, when the entered values are
      checked. */
  lemma ZeroDayTripAccepted()
    ensures Validate(CheckedFormAsWritten("Delhi", "Goa", "2025-01-01", 0.0, 0.0, 1.0, ["cultural"])) == None
    ensures Validate(CheckedForm("Delhi", "Goa", "2025-01-01", 0.0, 0.0, 1.0, ["cultural"])) == Some(DurationTooShort)
  {
    TrimNoSpace("Delhi");
    TrimNoSpace("Goa");
    TrimNoSpace("2025-01-01");
  }

  /** Checking the entered values, a form that passes has a duration of at
      least 1, a budget of at least 1000, at least one traveller, a theme and
      non-blank places and date; a failure names the first bad entry. */
  lemma CheckedFormEnforcesEntries(fromLocation: string, toLocation: string, startDate: string,
                                   enteredDuration: real, enteredBudget: real, enteredTravelers: real,
                                   themes: seq<string>)
    ensures var e := Validate(CheckedForm(fromLocation, toLocation, startDate,
                                          enteredDuration, enteredBudget, enteredTravelers, themes));
      && (e.None? <==>
          Trim(fromLocation) != "" && Trim(toLocation) != "" && Trim(startDate) != ""
          && enteredDuration >= 1.0 && enteredBudget >= 1000.0 && enteredTravelers >= 1.0 && themes != [])
      && (e == Some(DurationTooShort) <==>
          Trim(fromLocation) != "" && Trim(toLocation) != "" && Trim(startDate) != "" && enteredDuration < 1.0)
  {
  }

  // ---------------------------------------------------------------------
  // Themes

  /** `prev.filter(t => t !== theme)`. */
  function WithoutTheme(themes: seq<string>, theme: string): (r: seq<string>)
    ensures theme !in r
    ensures forall t :: t in r <==> t in themes && t != theme
    ensures |r| <= |themes|
  {
    if themes == [] then []
    else (if themes[0] == theme then [] else [themes[0]]) + WithoutTheme(themes[1..], theme)
  }

  /** `handleThemeToggle`: remove every occurrence of a present theme, append
      an absent one. */
  function ToggledThemes(themes: seq<string>, theme: string): seq<string> {
    if theme in themes then WithoutTheme(themes, theme) else themes + [theme]
  }

  lemma {:induction false} WithoutAbsent(themes: seq<string>, theme: string)
    requires theme !in themes
    ensures WithoutTheme(themes, theme) == themes
  {
    if themes != [] {
      WithoutAbsent(themes[1..], theme);
    }
  }

  /** Filtering distributes over concatenation: the themes kept from each
      part stay in their order. */
  lemma {:induction false} WithoutAppend(a: seq<string>, b: seq<string>, theme: string)
    ensures WithoutTheme(a + b, theme) == WithoutTheme(a, theme) + WithoutTheme(b, theme)
  {
    if a == [] {
      assert a + b == b;
    } else {
      assert (a + b)[0] == a[0];
      assert (a + b)[1..] == a[1..] + b;
      WithoutAppend(a[1..], b, theme);
    }
  }

  /** Toggling an absent theme appends it; toggling a present one removes it
      everywhere; either way the other themes keep their relative order, and
      toggling an absent theme twice restores the list. */
  lemma ToggleThemeProperties(themes: seq<string>, theme: string)
    ensures theme !in themes ==> ToggledThemes(themes, theme) == themes + [theme]
    ensures theme in themes ==> theme !in ToggledThemes(themes, theme)
    ensures WithoutTheme(ToggledThemes(themes, theme), theme) == WithoutTheme(themes, theme)
    ensures theme !in themes ==> ToggledThemes(ToggledThemes(themes, theme), theme) == themes
  {
    if theme !in themes {
      WithoutAppend(themes, [theme], theme);
      WithoutAbsent(themes, theme);
      assert WithoutTheme([theme], theme) == [];
    } else {
      WithoutAbsent(WithoutTheme(themes, theme), theme);
    }
  }

  // ---------------------------------------------------------------------
  // Booking items

  datatype ItemKind = ActivityBooking | HotelBooking | TransportBooking

  datatype BookingItem = BookingItem(
    kind: ItemKind,
    name: string,
    cost: real,
    day: Option<int>,
    selected: bool,
    bookable: bool)

  /** `activity.estimated_cost && activity.estimated_cost > 0`. */
  predicate Costed(a: Activity) {
    a.estimatedCost.Some? && a.estimatedCost.value != 0.0 && a.estimatedCost.value > 0.0
  }

  /** `itinerary.route_details?.estimated_cost`: present and not 0. */
  predicate TransportCosted(route: Option<RouteDetails>) {
    route.Some? && route.value.estimatedCost.Some? && route.value.estimatedCost.value != 0.0
  }

  function ActivityItem(a: Activity, day: int): BookingItem
    requires Costed(a)
  {
    BookingItem(ActivityBooking, a.name, a.estimatedCost.value, Some(day), true, a.bookable != Some(false))
  }

  function TransportItem(route: RouteDetails): BookingItem
    requires route.estimatedCost.Some?
  {
    BookingItem(TransportBooking, route.travelMode + " transportation", route.estimatedCost.value, None, true, true)
  }

  /** The items pushed for the activities `acts` of day `day`. */
  function DayItems(acts: seq<Activity>, day: int): seq<BookingItem> {
    if acts == [] then []
    else
      var a := acts[|acts| - 1];
      DayItems(acts[..|acts| - 1], day) + (if Costed(a) then [ActivityItem(a, day)] else [])
  }

  /** `acts.filter(Costed)`, built from the front: an independent reference
      for which activities get an item. */
  function CostedActivities(acts: seq<Activity>): (r: seq<Activity>)
    ensures forall a :: a in r ==> Costed(a)
  {
    if acts == [] then []
    else (if Costed(acts[0]) then [acts[0]] else []) + CostedActivities(acts[1..])
  }

  lemma {:induction false} CostedActivitiesSnoc(acts: seq<Activity>, a: Activity)
    ensures CostedActivities(acts + [a]) == CostedActivities(acts) + (if Costed(a) then [a] else [])
  {
    if acts == [] {
      assert acts + [a] == [a];
      assert [a][1..] == [];
    } else {
      assert (acts + [a])[0] == acts[0];
      assert (acts + [a])[1..] == acts[1..] + [a];
      CostedActivitiesSnoc(acts[1..], a);
    }
  }

  /** A day's items are one per costed activity, in the activities' order:
      the k-th item is built from the k-th costed activity. */
  lemma {:induction false} DayItemsInOrder(acts: seq<Activity>, day: int)
    ensures |DayItems(acts, day)| == |CostedActivities(acts)|
    ensures forall k :: 0 <= k < |DayItems(acts, day)| ==>
      DayItems(acts, day)[k] == ActivityItem(CostedActivities(acts)[k], day)
  {
    if acts != [] {
      var init := acts[..|acts| - 1];
      var a := acts[|acts| - 1];
      DayItemsInOrder(init, day);
      assert init + [a] == acts;
      CostedActivitiesSnoc(init, a);
    }
  }

  /** The items pushed by the nested `forEach` over days and activities. */
  function TripItems(days: seq<Day>): seq<BookingItem> {
    if days == [] then []
    else
      var d := days[|days| - 1];
      TripItems(days[..|days| - 1]) + DayItems(d.activities, d.day)
  }

  /** What `generateBookingItems` stores. */
  function BookingItemsFor(itinerary: Itinerary): seq<BookingItem> {
    TripItems(itinerary.days)
    + (if TransportCosted(itinerary.route) then [TransportItem(itinerary.route.value)] else [])
  }

  /** Lines 329-358: a local list pushed to in nested loops. */
  method BuildBookingItems(itinerary: Itinerary) returns (items: seq<BookingItem>)
    ensures items == BookingItemsFor(itinerary)
  {
    items := [];
    var d := 0;
    while d < |itinerary.days|
      invariant 0 <= d <= |itinerary.days|
      invariant items == TripItems(itinerary.days[..d])
    {
      var day := itinerary.days[d];
      ghost var done := items;
      var k := 0;
      while k < |day.activities|
        invariant 0 <= k <= |day.activities|
        invariant items == done + DayItems(day.activities[..k], day.day)
      {
        var activity := day.activities[k];
        assert day.activities[..k + 1][..k] == day.activities[..k];
        if activity.estimatedCost.Some? && activity.estimatedCost.value != 0.0 && activity.estimatedCost.value > 0.0 {
          items := items + [ActivityItem(activity, day.day)];
        }
        k := k + 1;
      }
      assert day.activities[..k] == day.activities;
      assert itinerary.days[..d + 1][..d] == itinerary.days[..d];
      d := d + 1;
    }
    assert itinerary.days[..d] == itinerary.days;
    if itinerary.route.Some? && itinerary.route.value.estimatedCost.Some? && itinerary.route.value.estimatedCost.value != 0.0 {
      items := items + [TransportItem(itinerary.route.value)];
    }
  }

  /** The activity items are exactly one per costed activity, each selected,
      bookable unless the activity says `bookable: false`, with a positive
      cost and the activity's day. */
  lemma {:induction false} DayItemsExact(acts: seq<Activity>, day: int)
    ensures forall item :: item in DayItems(acts, day) <==>
      exists a :: a in acts && Costed(a) && item == ActivityItem(a, day)
    ensures |DayItems(acts, day)| <= |acts|
  {
    if acts != [] {
      var init := acts[..|acts| - 1];
      var a := acts[|acts| - 1];
      DayItemsExact(init, day);
      forall item | item in DayItems(acts, day)
        ensures exists b :: b in acts && Costed(b) && item == ActivityItem(b, day)
      {
        if item in DayItems(init, day) {
          var b :| b in init && Costed(b) && item == ActivityItem(b, day);
          assert b in acts;
        }
      }
      forall b | b in acts && Costed(b)
        ensures ActivityItem(b, day) in DayItems(acts, day)
      {
        if b in init {
        } else {
          assert b == a;
        }
      }
    }
  }

  lemma {:induction false} TripItemsExact(days: seq<Day>)
    ensures forall item :: item in TripItems(days) <==>
      exists d, a :: d in days && a in d.activities && Costed(a) && item == ActivityItem(a, d.day)
  {
    if days != [] {
      var init := days[..|days| - 1];
      var last := days[|days| - 1];
      TripItemsExact(init);
      DayItemsExact(last.activities, last.day);
      forall item | item in TripItems(days)
        ensures exists d, a :: d in days && a in d.activities && Costed(a) && item == ActivityItem(a, d.day)
      {
        if item in TripItems(init) {
          var d, a :| d in init && a in d.activities && Costed(a) && item == ActivityItem(a, d.day);
          assert d in days;
        } else {
          var a :| a in last.activities && Costed(a) && item == ActivityItem(a, last.day);
          assert last in days;
        }
      }
      forall d, a | d in days && a in d.activities && Costed(a)
        ensures ActivityItem(a, d.day) in TripItems(days)
      {
        if d in init {
        } else {
          assert d == last;
        }
      }
    }
  }

  lemma {:induction false} TripItemsAreActivities(days: seq<Day>)
    ensures forall item :: item in TripItems(days) ==>
      item.kind == ActivityBooking && item.selected && item.cost > 0.0 && item.day.Some?
  {
    if days != [] {
      var last := days[|days| - 1];
      TripItemsAreActivities(days[..|days| - 1]);
      DayItemsExact(last.activities, last.day);
    }
  }

  /** A costed activity is one with a cost above zero. */
  lemma CostedIff(a: Activity)
    ensures Costed(a) <==> a.estimatedCost.Some? && a.estimatedCost.value > 0.0
  {
  }

  /** Every item starts selected; the activity items come first, all with
      positive costs; a single transport item, named after the travel mode,
      is last exactly when the route's cost is truthy. */
  lemma BookingItemsShape(itinerary: Itinerary)
    ensures var items := BookingItemsFor(itinerary);
      && (forall item :: item in items ==> item.selected)
      && (forall i :: 0 <= i < |TripItems(itinerary.days)| ==>
            items[i].kind == ActivityBooking && items[i].cost > 0.0)
      && (TransportCosted(itinerary.route) <==> items != [] && items[|items| - 1].kind == TransportBooking)
      && (TransportCosted(itinerary.route) ==>
            items[|items| - 1].name == itinerary.route.value.travelMode + " transportation"
            && items[|items| - 1].cost == itinerary.route.value.estimatedCost.value)
      && |items| == |TripItems(itinerary.days)| + (if TransportCosted(itinerary.route) then 1 else 0)
  {
    var acts := TripItems(itinerary.days);
    TripItemsAreActivities(itinerary.days);
    assert forall i :: 0 <= i < |acts| ==> acts[i] in acts;
  }

  // ---------------------------------------------------------------------
  // Selection and total

  /** `handleBookingItemToggle`: flip `selected` at `index`. */
  function ToggleAt(items: seq<BookingItem>, index: int): (r: seq<BookingItem>)
    ensures |r| == |items|
  {
    seq(|items|, i requires 0 <= i < |items| =>
      if i == index then items[i].(selected := !items[i].selected) else items[i])
  }

  /** Only `selected` at the index changes; an out-of-range index changes
      nothing; toggling twice restores the list. */
  lemma ToggleAtProperties(items: seq<BookingItem>, index: int)
    ensures forall i :: 0 <= i < |items| && i != index ==> ToggleAt(items, index)[i] == items[i]
    ensures 0 <= index < |items| ==>
      ToggleAt(items, index)[index] == items[index].(selected := !items[index].selected)
    ensures !(0 <= index < |items|) ==> ToggleAt(items, index) == items
    ensures ToggleAt(ToggleAt(items, index), index) == items
  {
  }

  /** `getTotalBookingCost`: the sum of the costs of the items both
      selected and bookable. */
  function TotalCost(items: seq<BookingItem>): real {
    if items == [] then 0.0
    else
      var item := items[|items| - 1];
      TotalCost(items[..|items| - 1]) + (if item.selected && item.bookable then item.cost else 0.0)
  }

  lemma {:induction false} TotalCostAppend(a: seq<BookingItem>, b: seq<BookingItem>)
    ensures TotalCost(a + b) == TotalCost(a) + TotalCost(b)
  {
    if b != [] {
      assert (a + b)[..|a + b| - 1] == a + b[..|b| - 1];
      TotalCostAppend(a, b[..|b| - 1]);
    } else {
      assert a + b == a;
    }
  }

  lemma TotalCostSplit(pre: seq<BookingItem>, item: BookingItem, post: seq<BookingItem>)
    ensures TotalCost(pre + [item] + post)
      == TotalCost(pre) + (if item.selected && item.bookable then item.cost else 0.0) + TotalCost(post)
  {
    TotalCostAppend(pre + [item], post);
    TotalCostAppend(pre, [item]);
    assert [item][..0] == [];
  }

  /** Toggling a bookable item adds or removes its cost; toggling a
      non-bookable one, or an index out of range, leaves the total alone. */
  lemma TotalCostToggle(items: seq<BookingItem>, index: int)
    ensures 0 <= index < |items| && items[index].bookable ==>
      TotalCost(ToggleAt(items, index))
        == TotalCost(items) + (if items[index].selected then -items[index].cost else items[index].cost)
    ensures !(0 <= index < |items| && items[index].bookable) ==>
      TotalCost(ToggleAt(items, index)) == TotalCost(items)
  {
    ToggleAtProperties(items, index);
    if 0 <= index < |items| {
      var t := ToggleAt(items, index);
      var pre, post := items[..index], items[index + 1..];
      assert items == pre + [items[index]] + post;
      assert t == pre + [t[index]] + post;
      TotalCostSplit(pre, items[index], post);
      TotalCostSplit(pre, t[index], post);
    }
  }

  /** Freshly built items are all selected, so the total is the sum over
      the bookable ones. */
  lemma {:induction false} TotalOfAllSelected(items: seq<BookingItem>)
    requires forall item :: item in items ==> item.selected && item.bookable
    ensures TotalCost(items) == SumCosts(items)
  {
    if items != [] {
      TotalOfAllSelected(items[..|items| - 1]);
    }
  }

  function SumCosts(items: seq<BookingItem>): real {
    if items == [] then 0.0 else SumCosts(items[..|items| - 1]) + items[|items| - 1].cost
  }

  // ---------------------------------------------------------------------
  // Tabs

  /** The page's views. `Share` and `Book` mirror the source's view type;
      no tab button of the indicator selects them. */
  datatype Tab = List | Map | Hotels | Route | Share | Book

  /** `itinerary?.hotels && itinerary.hotels.length > 0`. */
  predicate HasHotels(itinerary: Option<Itinerary>) {
    itinerary.Some? && itinerary.value.hotels.Some? && |itinerary.value.hotels.value| > 0
  }

  /** `itinerary?.route_details`. */
  predicate HasRoute(itinerary: Option<Itinerary>) {
    itinerary.Some? && itinerary.value.route.Some?
  }

  /** The tab buttons rendered at lines 1185-1231, in order. */
  function TabsShown(itinerary: Option<Itinerary>): (tabs: seq<Tab>)
    ensures 2 <= |tabs| <= 4
    ensures tabs[0] == List && tabs[|tabs| - 1] == Map
  {
    [List] + (if HasHotels(itinerary) then [Hotels] else [])
    + (if HasRoute(itinerary) then [Route] else []) + [Map]
  }

  /** The position of `view` among the rendered buttons, 0 if it has none. */
  function Slot(tabs: seq<Tab>, view: Tab): (i: nat)
    ensures i < |tabs| || (tabs == [] && i == 0)
    ensures view in tabs ==> tabs[i] == view && forall j :: 0 <= j < i ==> tabs[j] != view
    ensures view !in tabs ==> i == 0
  {
    if tabs == [] || view !in tabs then 0
    else if tabs[0] == view then 0
    else 1 + Slot(tabs[1..], view)
  }

  /** `getTabCount` (lines 869-874). */
  method TabCount(itinerary: Option<Itinerary>) returns (count: int)
    ensures count == |TabsShown(itinerary)|
  {
    count := 2;
    if itinerary.Some? && itinerary.value.hotels.Some? && |itinerary.value.hotels.value| > 0 {
      count := count + 1;
    }
    if itinerary.Some? && itinerary.value.route.Some? {
      count := count + 1;
    }
  }

  /** `getTabPosition` (lines 881-901) as a percentage: the indicator's left
      edge is the left edge of the active tab's button, or 0. */
  method TabPosition(view: Tab, itinerary: Option<Itinerary>) returns (percent: real)
    ensures var tabs := TabsShown(itinerary);
      percent == Slot(tabs, view) as real * (100.0 / |tabs| as real)
  {
    var count := TabCount(itinerary);
    var width := 100.0 / count as real;
    TabSlots(itinerary, view);
    if view == List {
      return 0.0;
    }
    var position := width;
    if view == Hotels && itinerary.Some? && itinerary.value.hotels.Some? && |itinerary.value.hotels.value| > 0 {
      return position;
    }
    if itinerary.Some? && itinerary.value.hotels.Some? && |itinerary.value.hotels.value| > 0 {
      position := position + width;
    }
    if view == Route && itinerary.Some? && itinerary.value.route.Some? {
      return position;
    }
    if itinerary.Some? && itinerary.value.route.Some? {
      position := position + width;
    }
    if view == Map {
      return position;
    }
    return 0.0;
  }

  lemma SlotsWithBoth(view: Tab)
    ensures Slot([List, Hotels, Route, Map], view)
      == (if view == Hotels then 1 else if view == Route then 2 else if view == Map then 3 else 0)
  {
  }

  lemma SlotsWithHotels(view: Tab)
    ensures Slot([List, Hotels, Map], view) == (if view == Hotels then 1 else if view == Map then 2 else 0)
  {
  }

  lemma SlotsWithRoute(view: Tab)
    ensures Slot([List, Route, Map], view) == (if view == Route then 1 else if view == Map then 2 else 0)
  {
  }

  lemma SlotsWithNeither(view: Tab)
    ensures Slot([List, Map], view) == (if view == Map then 1 else 0)
  {
  }

  /** The slot the indicator sits at: 0 for the itinerary list, 1 for hotels
      when listed, 1 + [hotels] for the route when present, the last slot for
      the map, and 0 for any view without a button; always a real slot. */
  lemma TabSlots(itinerary: Option<Itinerary>, view: Tab)
    ensures var tabs := TabsShown(itinerary);
      && |tabs| == 2 + (if HasHotels(itinerary) then 1 else 0) + (if HasRoute(itinerary) then 1 else 0)
      && Slot(tabs, view)
         == (if view == Hotels && HasHotels(itinerary) then 1
             else if view == Route && HasRoute(itinerary) then (if HasHotels(itinerary) then 2 else 1)
             else if view == Map then |tabs| - 1
             else 0)
      && Slot(tabs, view) < |tabs|
  {
    var h, r := HasHotels(itinerary), HasRoute(itinerary);
    if h && r {
      assert TabsShown(itinerary) == [List, Hotels, Route, Map];
      SlotsWithBoth(view);
    } else if h {
      assert TabsShown(itinerary) == [List, Hotels, Map];
      SlotsWithHotels(view);
    } else if r {
      assert TabsShown(itinerary) == [List, Route, Map];
      SlotsWithRoute(view);
    } else {
      assert TabsShown(itinerary) == [List, Map];
      SlotsWithNeither(view);
    }
  }

  /** After an itinerary arrives with an empty hotel list the hotels view
      switches to the list (lines 318-320); in every other case, including
      an absent hotel list, the view stays. */
  function ViewAfterLoad(view: Tab, data: Itinerary): (v: Tab)
    ensures v == Hotels ==> !(data.hotels.Some? && |data.hotels.value| == 0)
    ensures v != view ==> view == Hotels && v == List
    ensures v != view <==> view == Hotels && data.hotels.Some? && |data.hotels.value| == 0
  {
    if data.hotels.Some? && |data.hotels.value| == 0 && view == Hotels then List else view
  }

  // ---------------------------------------------------------------------
  // Day navigation

  /** "Previous Day": `Math.max(1, activeDay - 1)`. */
  function PreviousDay(activeDay: int): (d: int)
    ensures d >= 1 && d >= activeDay - 1
    ensures d == activeDay - 1 || d == 1
  {
    if activeDay - 1 >= 1 then activeDay - 1 else 1
  }

  /** "Next Day": `Math.min(itinerary.duration, activeDay + 1)`. */
  function NextDay(activeDay: int, duration: int): (d: int)
    ensures d <= duration && d <= activeDay + 1
    ensures d == activeDay + 1 || d == duration
  {
    if duration <= activeDay + 1 then duration else activeDay + 1
  }

  /** Both buttons keep a day within 1..duration, and move it by at most one. */
  lemma DayNavigationInRange(activeDay: int, duration: int)
    requires 1 <= activeDay <= duration
    ensures 1 <= PreviousDay(activeDay) <= duration
    ensures 1 <= NextDay(activeDay, duration) <= duration
    ensures activeDay > 1 ==> PreviousDay(activeDay) == activeDay - 1
    ensures activeDay < duration ==> NextDay(activeDay, duration) == activeDay + 1
    ensures activeDay == 1 ==> PreviousDay(activeDay) == 1
    ensures activeDay == duration ==> NextDay(activeDay, duration) == duration
  {
  }

  // ---------------------------------------------------------------------
  // Payment inputs

  /** `.replace(/(.{4})/g, "$1 ")`: a space after each complete group of four.
      Only called on strings without white space, so no character is a line
      terminator that `.` would skip. */
  function Group4(s: string): string {
    if |s| < 4 then s else s[..4] + " " + Group4(s[4..])
  }

  /** The card-number input (lines 1735-1738). */
  function NormaliseCardNumber(input: string): (r: string)
    ensures r == [] || (!IsSpace(r[0]) && !IsSpace(r[|r| - 1]))
    ensures RemoveSpaces(r) == RemoveSpaces(input)
  {
    var s := RemoveSpaces(input);
    Group4Spaces(s);
    RemoveSpacesTrim(Group4(s));
    RemoveSpacesNoSpace(s);
    Trim(Group4(s))
  }

  lemma {:induction false} Group4Spaces(s: string)
    requires forall i :: 0 <= i < |s| ==> !IsSpace(s[i])
    ensures RemoveSpaces(Group4(s)) == s
  {
    if |s| < 4 {
      RemoveSpacesNoSpace(s);
    } else {
      var head, tail := s[..4], s[4..];
      assert Group4(s) == head + " " + Group4(tail);
      Group4Spaces(tail);
      RemoveSpacesAppend(head + " ", Group4(tail));
      RemoveSpacesAppend(head, " ");
      RemoveSpacesNoSpace(head);
      assert RemoveSpaces(" ") == [];
      assert head + tail == s;
    }
  }

  /** Grouping a string without white space puts a space after every four
      characters and nowhere else. */
  lemma {:induction false} Group4Layout(s: string)
    requires forall i :: 0 <= i < |s| ==> !IsSpace(s[i])
    ensures |Group4(s)| == |s| + |s| / 4
    ensures forall i :: 0 <= i < |Group4(s)| ==> (IsSpace(Group4(s)[i]) <==> i % 5 == 4)
  {
    if |s| >= 4 {
      var head, tail := s[..4], s[4..];
      var g := Group4(tail);
      Group4Layout(tail);
      assert Group4(s) == head + " " + g;
      forall i | 0 <= i < |Group4(s)|
        ensures IsSpace(Group4(s)[i]) <==> i % 5 == 4
      {
        if i >= 5 {
          assert Group4(s)[i] == g[i - 5];
        }
      }
    }
  }

  /** The normalised card number has a space at every fifth position and
      nowhere else, and normalising it again changes nothing. */
  lemma CardNumberProperties(input: string)
    ensures var n := NormaliseCardNumber(input);
      && (forall i :: 0 <= i < |n| ==> (IsSpace(n[i]) <==> i % 5 == 4))
      && NormaliseCardNumber(n) == n
  {
    var s := RemoveSpaces(input);
    var g := Group4(s);
    var n := NormaliseCardNumber(input);
    Group4Layout(s);
    assert TrimStart(g) == g;
    TrimEndPrefix(g);
    assert n == g[..|n|];
    Group4Spaces(s);
    RemoveSpacesTrim(g);
    RemoveSpacesNoSpace(s);
  }

  /** The CVV input (line 1817): digits only, and idempotent. */
  function NormaliseCvv(input: string): (r: string)
    ensures forall i :: 0 <= i < |r| ==> IsDigit(r[i])
  {
    KeepDigits(input)
  }

  /** The CVV keeps every digit of the input, in order, and nothing else:
      the filter works piece by piece and keeps a single character exactly
      when it is a digit. */
  lemma CvvKeepsDigits(a: string, b: string, c: char)
    ensures NormaliseCvv(a + b) == NormaliseCvv(a) + NormaliseCvv(b)
    ensures NormaliseCvv([c]) == if IsDigit(c) then [c] else []
  {
    KeepDigitsAppend(a, b);
  }

  lemma CvvIdempotent(input: string)
    ensures NormaliseCvv(NormaliseCvv(input)) == NormaliseCvv(input)
  {
    KeepDigitsAllDigits(KeepDigits(input));
  }

  // ---------------------------------------------------------------------
  // Lookup rules

  /** `getTransportIcon`: the lower-cased mode, an absent mode read as "". */
  function TransportIcon(mode: Option<string>): string {
    var m := if mode.None? then "" else Lower(mode.value);
    if m == "driving" || m == "car" then "\U{1F697}"
    else if m == "walking" then "\U{1F6B6}"
    else if m == "transit" || m == "public transport" || m == "public_transport" then "\U{1F68C}"
    else if m == "bicycling" || m == "bike" then "\U{1F6B4}"
    else if m == "motorcycle" then "\U{1F3CD}\U{FE0F}"
    else if m == "flight" then "✈\U{FE0F}"
    else "\U{1F697}"
  }

  /** The icon ignores case; an absent or empty mode shows the car. */
  lemma TransportIconRules(mode: string)
    ensures TransportIcon(Some(mode)) == TransportIcon(Some(Lower(mode)))
    ensures TransportIcon(None) == TransportIcon(Some("")) == "\U{1F697}"
  {
    LowerIdempotent(mode);
    assert Lower("") == "";
  }

  /** `getCategoryIcon`. */
  function CategoryIcon(category: Option<string>): string {
    if category.None? then "\U{1F4CD}"
    else match Lower(category.value)
      case "sightseeing" => "\U{1F3DB}\U{FE0F}"
      case "food" => "\U{1F37D}\U{FE0F}"
      case "adventure" => "\U{1F3D4}\U{FE0F}"
      case "cultural" => "\U{1F3AD}"
      case "shopping" => "\U{1F6CD}\U{FE0F}"
      case "nature" => "\U{1F33F}"
      case "nightlife" => "\U{1F303}"
      case "heritage" => "\U{1F3F0}"
      case _ => "\U{1F4CD}"
  }

  /** The planner and the map popup show the same emoji for every category
      but nightlife, where the planner shows a night city and the map a moon. */
  lemma CategoryIconAgreesWithMap(category: Option<string>)
    ensures CategoryIcon(category) == MapView.CategoryEmoji(category)
      <==> !(category.Some? && Lower(category.value) == "nightlife")
  {
  }

  /** `getCategoryColor`. */
  function CategoryColor(category: Option<string>): string {
    if category.None? then "bg-gray-50 border-gray-200"
    else match Lower(category.value)
      case "sightseeing" => "bg-blue-50 border-blue-200"
      case "food" => "bg-orange-50 border-orange-200"
      case "adventure" => "bg-green-50 border-green-200"
      case "cultural" => "bg-purple-50 border-purple-200"
      case "shopping" => "bg-pink-50 border-pink-200"
      case "nature" => "bg-green-50 border-green-200"
      case "nightlife" => "bg-indigo-50 border-indigo-200"
      case "heritage" => "bg-yellow-50 border-yellow-200"
      case _ => "bg-gray-50 border-gray-200"
  }

  /** The colour ignores case. */
  lemma CategoryColorRules(category: string)
    ensures CategoryColor(Some(category)) == CategoryColor(Some(Lower(category)))
  {
    LowerIdempotent(category);
  }

  /** Adventure and nature share a colour. */
  lemma AdventureLooksLikeNature()
    ensures CategoryColor(Some("adventure")) == CategoryColor(Some("nature"))
  {
    assert Lower("adventure") == "adventure";
    assert Lower("nature") == "nature";
  }

  /** The planner's `formatCurrency`: "Free" only for an absent amount. */
  function FormatCurrency(amount: Option<real>): MapView.Price {
    if amount.None? then MapView.Free else MapView.Amount(amount.value)
  }

  /** The two `formatCurrency` functions differ exactly on a zero amount,
      which the map popup shows as "Free" and the planner as an amount. */
  lemma FormatCurrencyDiffersOnZero(amount: Option<real>)
    ensures FormatCurrency(amount) != MapView.FormatCurrency(amount) <==> amount == Some(0.0)
    ensures amount == Some(0.0) ==> MapView.FormatCurrency(amount) == MapView.Free && FormatCurrency(amount) == MapView.Amount(0.0)
  {
  }

  /** A value, or the exception JavaScript raises. */
  datatype Result<T> = Ok(value: T) | RangeError

  const Coin := '\U{1F4B0}'

  /** `getPriceLevelText`: a falsy level has no price; otherwise `level`
      coins and `4 - level` spaces, where `repeat` raises on a negative
      count. */
  function PriceLevelText(priceLevel: Option<int>): Result<string> {
    if priceLevel.None? || priceLevel.value == 0 then Ok("Price not available")
    else if priceLevel.value < 0 || 4 - priceLevel.value < 0 then RangeError
    else Ok(Repeat(Coin, priceLevel.value) + Repeat(' ', 4 - priceLevel.value))
  }

  /** Levels 1 to 4 give four symbols: the coins first, then padding; a
      level outside 0..4 raises; a missing or zero level has no price. */
  lemma PriceLevelTextProperties(priceLevel: Option<int>)
    ensures PriceLevelText(priceLevel).RangeError? <==>
      priceLevel.Some? && (priceLevel.value < 0 || priceLevel.value > 4)
    ensures priceLevel.None? || priceLevel.value == 0 ==> PriceLevelText(priceLevel) == Ok("Price not available")
    ensures priceLevel.Some? && 1 <= priceLevel.value <= 4 ==>
      var t := PriceLevelText(priceLevel).value;
      && |t| == 4
      && (forall i :: 0 <= i < priceLevel.value ==> t[i] == Coin)
      && (forall i :: priceLevel.value <= i < 4 ==> t[i] == ' ')
  {
  }

  const Star := '⭐'
  const Sparkle := '✨'

  /** `getStarRating`: "No rating" for a falsy rating; otherwise one star per
      whole point and a sparkle for a fractional part of at least one half.
      A negative rating makes `repeat` raise. */
  function StarRating(rating: Option<real>): Result<string> {
    if rating.None? || rating.value == 0.0 then Ok("No rating")
    else if rating.value.Floor < 0 then RangeError
    else Ok(Repeat(Star, rating.value.Floor)
            + (if rating.value - rating.value.Floor as real >= 0.5 then [Sparkle] else []))
  }

  lemma StarRatingProperties(rating: real)
    requires rating > 0.0
    ensures var t := StarRating(Some(rating)).value;
      && StarRating(Some(rating)).Ok?
      && (forall i :: 0 <= i < rating.Floor ==> t[i] == Star)
      && |t| == rating.Floor + (if rating - rating.Floor as real >= 0.5 then 1 else 0)
      && (|t| == rating.Floor + 1 <==> rating - rating.Floor as real >= 0.5)
      && (|t| == rating.Floor + 1 ==> t[rating.Floor] == Sparkle)
    ensures StarRating(Some(-rating)).RangeError?
  {
  }

  /** The weather icon (lines 1406-1411): rain wins over cloud; matching is
      case-sensitive. */
  function WeatherIcon(condition: string): string {
    if Contains(condition, "Rain") then "\U{1F327}\U{FE0F}"
    else if Contains(condition, "Cloud") then "⛅"
    else "☀\U{FE0F}"
  }

  /** The rain icon is shown exactly for a condition mentioning rain, the
      cloud exactly for one mentioning cloud but not rain, and the sun
      exactly for one mentioning neither; the three icons differ. */
  lemma WeatherIconRules(condition: string)
    ensures WeatherIcon(condition) == "\U{1F327}\U{FE0F}" <==> Contains(condition, "Rain")
    ensures WeatherIcon(condition) == "⛅" <==> !Contains(condition, "Rain") && Contains(condition, "Cloud")
    ensures WeatherIcon(condition) == "☀\U{FE0F}" <==> !Contains(condition, "Rain") && !Contains(condition, "Cloud")
  {
  }

  lemma LightRainHasNoRain()
    ensures !Contains("light rain", "Rain")
  {
    NotContainsMissingChar("light rain", "Rain", 'R');
  }

  lemma LightRainHasNoCloud()
    ensures !Contains("light rain", "Cloud")
  {
    NotContainsMissingChar("light rain", "Cloud", 'C');
  }

  /** Matching is case-sensitive: "light rain" has no capital R and shows
      the sun. */
  lemma LightRainShowsSun()
    ensures WeatherIcon("light rain") == "☀\U{FE0F}"
  {
    LightRainHasNoRain();
    LightRainHasNoCloud();
  }

  /** `budget_warning.level`. */
  datatype WarningLevel = Info | Warning | Critical | Error

  /** The icon of `getWarningStyles` (lines 557-600). */
  function WarningIcon(level: WarningLevel): string {
    match level
    case Critical => "\U{1F6A8}"
    case Warning => "⚠\U{FE0F}"
    case Info => "ℹ\U{FE0F}"
    case Error => "\U{1F4A1}"
  }

  /** The heading (lines 616-621). */
  function WarningTitle(level: WarningLevel): string {
    "Budget " + (if level == Critical then "Alert" else if level == Warning then "Notice" else "Information")
  }

  /** Two levels get the same heading exactly when they are equal or are
      info and error, which the icon still tells apart. */
  lemma WarningTitleGroups(a: WarningLevel, b: WarningLevel)
    ensures WarningTitle(a) == WarningTitle(b) <==> a == b || ({a, b} == {Info, Error})
    ensures WarningIcon(a) == WarningIcon(b) <==> a == b
  {
    var alert, notice, information := "Budget Alert", "Budget Notice", "Budget Information";
    assert alert[7] != notice[7] && alert[7] != information[7] && notice[7] != information[7];
  }

  // ---------------------------------------------------------------------
  // Page state

  /** The page's state as far as these rules read and write it. */
  class PlannerState {
    var themes: seq<string>
    var bookingItems: seq<BookingItem>
    var activeDay: int
    var error: Option<string>
    var itinerary: Option<Itinerary>
    var view: Tab
    var bookingConfirmed: bool
    var cardNumber: string
    var cvv: string

    /** The initial `useState` values (lines 135-172). */
    constructor ()
      ensures themes == ["cultural"] && bookingItems == [] && activeDay == 1
      ensures error == None && itinerary == None && view == List
      ensures !bookingConfirmed && cardNumber == "" && cvv == ""
    {
      themes := ["cultural"];
      bookingItems := [];
      activeDay := 1;
      error := None;
      itinerary := None;
      view := List;
      bookingConfirmed := false;
      cardNumber := "";
      cvv := "";
    }

    method ToggleTheme(theme: string)
      modifies this
      ensures themes == ToggledThemes(old(themes), theme)
      ensures bookingItems == old(bookingItems) && activeDay == old(activeDay) && error == old(error)
      ensures itinerary == old(itinerary) && view == old(view) && bookingConfirmed == old(bookingConfirmed)
      ensures cardNumber == old(cardNumber) && cvv == old(cvv)
    {
      themes := ToggledThemes(themes, theme);
    }

    method RemoveTheme(theme: string)
      modifies this
      ensures themes == WithoutTheme(old(themes), theme) && theme !in themes
      ensures bookingItems == old(bookingItems) && activeDay == old(activeDay) && error == old(error)
      ensures itinerary == old(itinerary) && view == old(view) && bookingConfirmed == old(bookingConfirmed)
      ensures cardNumber == old(cardNumber) && cvv == old(cvv)
    {
      themes := WithoutTheme(themes, theme);
    }

    /** The synchronous part of `handleGenerate` (lines 240-273): a failed
        check records its message and stops; passing clears the error and
        the previous itinerary and returns to day 1, ready for the request.
        The form checked is the one of lines 241-268 as written: the text
        fields, the selected themes, and the numeric state that no handler
        updates, so the entered numbers are never looked at. */
    method Generate(fromLocation: string, toLocation: string, startDate: string,
                    enteredDuration: real, enteredBudget: real, enteredTravelers: real)
      returns (proceed: bool)
      modifies this
      ensures var form := CheckedFormAsWritten(fromLocation, toLocation, startDate,
                                               enteredDuration, enteredBudget, enteredTravelers, old(themes));
        && (proceed <==> Validate(form).None?)
        && (!proceed ==>
              error == Some(Validate(form).value.Message()) && itinerary == old(itinerary) && activeDay == old(activeDay))
      ensures proceed <==> Trim(fromLocation) != "" && Trim(toLocation) != "" && Trim(startDate) != "" && old(themes) != []
      ensures proceed ==> error == None && itinerary == None && activeDay == 1
      ensures !bookingConfirmed
      ensures themes == old(themes) && bookingItems == old(bookingItems) && view == old(view)
      ensures cardNumber == old(cardNumber) && cvv == old(cvv)
    {
      bookingConfirmed := false;
      var form := CheckedFormAsWritten(fromLocation, toLocation, startDate,
                                       enteredDuration, enteredBudget, enteredTravelers, themes);
      var failure := Validate(form);
      if failure.Some? {
        error := Some(failure.value.Message());
        return false;
      }
      error := None;
      itinerary := None;
      activeDay := 1;
      return true;
    }

    /** A successful response (lines 315-320). */
    method ReceiveItinerary(data: Itinerary)
      modifies this
      ensures itinerary == Some(data)
      ensures bookingItems == BookingItemsFor(data)
      ensures view == ViewAfterLoad(old(view), data)
      ensures themes == old(themes) && activeDay == old(activeDay) && error == old(error)
      ensures bookingConfirmed == old(bookingConfirmed) && cardNumber == old(cardNumber) && cvv == old(cvv)
    {
      itinerary := Some(data);
      bookingItems := BuildBookingItems(data);
      if data.hotels.Some? && |data.hotels.value| == 0 {
        view := if view == Hotels then List else view;
      }
    }

    /** A failed request (line 322): the error's message, or a default. */
    method ReceiveFailure(message: string)
      modifies this
      ensures error == Some(if message == "" then "Something went wrong. Please try again." else message)
      ensures themes == old(themes) && bookingItems == old(bookingItems) && activeDay == old(activeDay)
      ensures itinerary == old(itinerary) && view == old(view) && bookingConfirmed == old(bookingConfirmed)
      ensures cardNumber == old(cardNumber) && cvv == old(cvv)
    {
      error := Some(if message == "" then "Something went wrong. Please try again." else message);
    }

    method SetView(tab: Tab)
      modifies this
      ensures view == tab
      ensures themes == old(themes) && bookingItems == old(bookingItems) && activeDay == old(activeDay)
      ensures itinerary == old(itinerary) && error == old(error) && bookingConfirmed == old(bookingConfirmed)
      ensures cardNumber == old(cardNumber) && cvv == old(cvv)
    {
      view := tab;
    }

    method ToggleBookingItem(index: int)
      modifies this
      ensures bookingItems == ToggleAt(old(bookingItems), index)
      ensures TotalBookingCost() == TotalCost(ToggleAt(old(bookingItems), index))
      ensures themes == old(themes) && activeDay == old(activeDay) && error == old(error)
      ensures itinerary == old(itinerary) && view == old(view) && bookingConfirmed == old(bookingConfirmed)
      ensures cardNumber == old(cardNumber) && cvv == old(cvv)
    {
      bookingItems := ToggleAt(bookingItems, index);
    }

    function TotalBookingCost(): real
      reads this
    {
      TotalCost(bookingItems)
    }

    method GoToPreviousDay()
      modifies this
      ensures activeDay == PreviousDay(old(activeDay))
      ensures themes == old(themes) && bookingItems == old(bookingItems) && error == old(error)
      ensures itinerary == old(itinerary) && view == old(view) && bookingConfirmed == old(bookingConfirmed)
      ensures cardNumber == old(cardNumber) && cvv == old(cvv)
    {
      activeDay := if activeDay - 1 >= 1 then activeDay - 1 else 1;
    }

    /** The "Next Day" button is rendered with the itinerary, whose duration
        it reads. */
    method GoToNextDay()
      requires itinerary.Some?
      modifies this
      ensures activeDay == NextDay(old(activeDay), old(itinerary.value.duration))
      ensures themes == old(themes) && bookingItems == old(bookingItems) && error == old(error)
      ensures itinerary == old(itinerary) && view == old(view) && bookingConfirmed == old(bookingConfirmed)
      ensures cardNumber == old(cardNumber) && cvv == old(cvv)
    {
      var duration := itinerary.value.duration;
      activeDay := if duration <= activeDay + 1 then duration else activeDay + 1;
    }

    /** A day button of the itinerary (lines 1361 and 1521) selects that
        day as it is, without clamping. */
    method SelectDay(day: int)
      modifies this
      ensures activeDay == day
      ensures themes == old(themes) && bookingItems == old(bookingItems) && error == old(error)
      ensures itinerary == old(itinerary) && view == old(view) && bookingConfirmed == old(bookingConfirmed)
      ensures cardNumber == old(cardNumber) && cvv == old(cvv)
    {
      activeDay := day;
    }

    method SetCardNumber(input: string)
      modifies this
      ensures cardNumber == NormaliseCardNumber(input)
      ensures themes == old(themes) && bookingItems == old(bookingItems) && activeDay == old(activeDay)
      ensures itinerary == old(itinerary) && view == old(view) && error == old(error)
      ensures bookingConfirmed == old(bookingConfirmed) && cvv == old(cvv)
    {
      cardNumber := NormaliseCardNumber(input);
    }

    method SetCvv(input: string)
      modifies this
      ensures cvv == NormaliseCvv(input)
      ensures themes == old(themes) && bookingItems == old(bookingItems) && activeDay == old(activeDay)
      ensures itinerary == old(itinerary) && view == old(view) && error == old(error)
      ensures bookingConfirmed == old(bookingConfirmed) && cardNumber == old(cardNumber)
    {
      cvv := NormaliseCvv(input);
    }
  }
}
