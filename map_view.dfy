/** The map view's derived state: which days and activities are plotted, the
    global stop numbers, the map centre and zoom, marker styling and the
    category legend (frontend/app/components/MapView.tsx). */
module MapView {
  import opened Text
  import opened Trip

  datatype LatLng = LatLng(lat: real, lng: real)

  /** `DEFAULT_COORDINATES`, in declaration order (the order `Object.keys`
      reports its keys in). */
  const DefaultCoordinates: seq<(string, LatLng)> := [
    ("jaipur", LatLng(26.9124, 75.7873)),
    ("bangalore", LatLng(12.9716, 77.5946)),
    ("mumbai", LatLng(19.0760, 72.8777)),
    ("delhi", LatLng(28.7041, 77.1025)),
    ("goa", LatLng(15.2993, 74.1240)),
    ("kerala", LatLng(10.8505, 76.2711)),
    ("paris", LatLng(48.8566, 2.3522)),
    ("london", LatLng(51.5074, -0.1278)),
    ("tokyo", LatLng(35.6762, 139.6503)),
    ("new york", LatLng(40.7128, -74.0060)),
    ("chennai", LatLng(13.0827, 80.2707)),
    ("hyderabad", LatLng(17.3850, 78.4867)),
    ("pune", LatLng(18.5204, 73.8567)),
    ("kolkata", LatLng(22.5726, 88.3639)),
    ("ahmedabad", LatLng(23.0225, 72.5714)),
    ("surat", LatLng(21.1702, 72.8311)),
    ("rajasthan", LatLng(27.0238, 74.2179)),
    ("udaipur", LatLng(24.5854, 73.7125)),
    ("jodhpur", LatLng(26.2389, 73.0243)),
    ("agra", LatLng(27.1767, 78.0081)),
    ("varanasi", LatLng(25.3176, 82.9739)),
    ("amritsar", LatLng(31.6340, 74.8723)),
    ("cochin", LatLng(9.9312, 76.2673)),
    ("mysore", LatLng(12.2958, 76.6394)),
    ("ooty", LatLng(11.4064, 76.6932))
  ]

  /** The `jaipur` entry, the centre when no key matches. */
  const Jaipur := LatLng(26.9124, 75.7873)

  const FallbackZoom := 11
  const SinglePointZoom := 14

  // ---------------------------------------------------------------------
  // Day selection

  /** `!activeDay || day.day === activeDay`: the day filter and, per stop,
      the `isActiveDay` flag. */
  predicate ShowsDay(day: int, activeDay: Option<int>) {
    Falsy(activeDay) || day == activeDay.value
  }

  function FilterDays(days: seq<Day>, activeDay: Option<int>): seq<Day> {
    if days == [] then []
    else (if ShowsDay(days[0].day, activeDay) then [days[0]] else []) + FilterDays(days[1..], activeDay)
  }

  /** `daysToShow`. */
  function SelectDays(days: seq<Day>, activeDay: Option<int>, showAllDays: bool): seq<Day> {
    if showAllDays then days else FilterDays(days, activeDay)
  }

  lemma {:induction false} FilterDaysMembers(days: seq<Day>, activeDay: Option<int>)
    ensures forall d :: d in FilterDays(days, activeDay) <==> d in days && ShowsDay(d.day, activeDay)
  {
    if days != [] {
      FilterDaysMembers(days[1..], activeDay);
    }
  }

  lemma {:induction false} FilterDaysAll(days: seq<Day>, activeDay: Option<int>)
    requires Falsy(activeDay)
    ensures FilterDays(days, activeDay) == days
  {
    if days != [] {
      FilterDaysAll(days[1..], activeDay);
    }
  }

  /** With `showAllDays`, or without an active day (absent or 0), every day is
      shown, in order; otherwise exactly the days numbered `activeDay`. */
  lemma DaySelection(days: seq<Day>, activeDay: Option<int>, showAllDays: bool)
    ensures showAllDays || Falsy(activeDay) ==> SelectDays(days, activeDay, showAllDays) == days
    ensures !showAllDays && !Falsy(activeDay) ==>
      forall d :: d in SelectDays(days, activeDay, showAllDays) <==> d in days && d.day == activeDay.value
  {
    if Falsy(activeDay) {
      FilterDaysAll(days, activeDay);
    }
    FilterDaysMembers(days, activeDay);
  }

  // ---------------------------------------------------------------------
  // Coordinate filter

  /** The filter of lines 167-176, written as the source writes it: both
      coordinates truthy, neither NaN, and both within range. */
  predicate HasCoordinates(a: Activity) {
    && Truthy(a.latitude) && Truthy(a.longitude)
    && !IsNaN(a.latitude) && !IsNaN(a.longitude)
    && AtLeast(a.latitude, -90.0) && AtMost(a.latitude, 90.0)
    && AtLeast(a.longitude, -180.0) && AtMost(a.longitude, 180.0)
  }

  /** An activity is kept exactly when both coordinates are present, finite,
      non-zero and in range; nothing out of range is clamped into it. */
  lemma HasCoordinatesIff(a: Activity)
    ensures HasCoordinates(a) <==>
      && a.latitude.Some? && a.latitude.value.Finite?
      && a.longitude.Some? && a.longitude.value.Finite?
      && a.latitude.value.value != 0.0 && -90.0 <= a.latitude.value.value <= 90.0
      && a.longitude.value.value != 0.0 && -180.0 <= a.longitude.value.value <= 180.0
  {
  }

  // ---------------------------------------------------------------------
  // Stop numbering

  /** An element of `activitiesWithCoordinates`: the activity, its day, its
      coordinates, `isActiveDay` and `globalIndex`. */
  datatype Stop = Stop(activity: Activity, day: int, lat: real, lng: real, isActiveDay: bool, number: nat)

  function Place(a: Activity, day: int, activeDay: Option<int>, number: nat): Stop
    requires HasCoordinates(a)
  {
    Stop(a, day, a.latitude.value.value, a.longitude.value.value, ShowsDay(day, activeDay), number)
  }

  /** The stops contributed by `acts` (activities of day `day`) when `before`
      stops have been numbered already. */
  function DayStops(acts: seq<Activity>, day: int, activeDay: Option<int>, before: nat): seq<Stop> {
    if acts == [] then []
    else
      var prev := DayStops(acts[..|acts| - 1], day, activeDay, before);
      var a := acts[|acts| - 1];
      prev + (if HasCoordinates(a) then [Place(a, day, activeDay, before + |prev| + 1)] else [])
  }

  /** The stops of `days`, numbered by one counter across all of them. */
  function TripStops(days: seq<Day>, activeDay: Option<int>): seq<Stop> {
    if days == [] then []
    else
      var prev := TripStops(days[..|days| - 1], activeDay);
      var d := days[|days| - 1];
      prev + DayStops(d.activities, d.day, activeDay, |prev|)
  }

  /** `activitiesWithCoordinates`. */
  function Stops(days: seq<Day>, activeDay: Option<int>, showAllDays: bool): seq<Stop> {
    TripStops(SelectDays(days, activeDay, showAllDays), activeDay)
  }

  lemma DayStopsStep(acts: seq<Activity>, k: nat, day: int, activeDay: Option<int>, before: nat)
    requires k < |acts|
    ensures DayStops(acts[..k + 1], day, activeDay, before)
      == DayStops(acts[..k], day, activeDay, before)
         + (if HasCoordinates(acts[k])
            then [Place(acts[k], day, activeDay, before + |DayStops(acts[..k], day, activeDay, before)| + 1)]
            else [])
  {
    assert acts[..k + 1][..k] == acts[..k];
  }

  lemma TripStopsStep(days: seq<Day>, d: nat, activeDay: Option<int>)
    requires d < |days|
    ensures TripStops(days[..d + 1], activeDay)
      == TripStops(days[..d], activeDay)
         + DayStops(days[d].activities, days[d].day, activeDay, |TripStops(days[..d], activeDay)|)
  {
    assert days[..d + 1][..d] == days[..d];
  }

  /** One day's `.filter(...).map(...)` under the `flatMap` of lines 165-182:
      the day's activities in order, each kept one numbered by the bumped
      counter. */
  method PlotDay(acts: seq<Activity>, day: int, activeDay: Option<int>, plotted: seq<Stop>)
    returns (stops: seq<Stop>)
    ensures stops == plotted + DayStops(acts, day, activeDay, |plotted|)
  {
    var activityIndex := |plotted|;
    stops := plotted;
    var k := 0;
    while k < |acts|
      invariant 0 <= k <= |acts|
      invariant stops == plotted + DayStops(acts[..k], day, activeDay, |plotted|)
      invariant activityIndex == |stops|
    {
      var activity := acts[k];
      DayStopsStep(acts, k, day, activeDay, |plotted|);
      if HasCoordinates(activity) {
        activityIndex := activityIndex + 1;
        stops := stops + [Place(activity, day, activeDay, activityIndex)];
      }
      k := k + 1;
    }
    assert acts[..k] == acts;
  }

  /** The memo of lines 158-184: a counter bumped once per kept activity,
      through the selected days in order and their activities in order. */
  method PlotActivities(days: seq<Day>, activeDay: Option<int>, showAllDays: bool) returns (stops: seq<Stop>)
    ensures stops == Stops(days, activeDay, showAllDays)
    ensures forall i :: 0 <= i < |stops| ==> stops[i].number == i + 1
  {
    var daysToShow := SelectDays(days, activeDay, showAllDays);
    stops := [];
    var d := 0;
    while d < |daysToShow|
      invariant 0 <= d <= |daysToShow|
      invariant stops == TripStops(daysToShow[..d], activeDay)
    {
      var day := daysToShow[d];
      TripStopsStep(daysToShow, d, activeDay);
      stops := PlotDay(day.activities, day.day, activeDay, stops);
      d := d + 1;
    }
    assert daysToShow[..d] == daysToShow;
    StopNumbers(daysToShow, activeDay);
  }

  lemma {:induction false} DayStopNumbers(acts: seq<Activity>, day: int, activeDay: Option<int>, before: nat)
    ensures forall i :: 0 <= i < |DayStops(acts, day, activeDay, before)| ==>
      DayStops(acts, day, activeDay, before)[i].number == before + i + 1
  {
    if acts != [] {
      DayStopNumbers(acts[..|acts| - 1], day, activeDay, before);
    }
  }

  /** Stop numbers are 1, 2, ..., n in traversal order: one counter for the
      whole trip, never reset at a day boundary. */
  lemma {:induction false} StopNumbers(days: seq<Day>, activeDay: Option<int>)
    ensures forall i :: 0 <= i < |TripStops(days, activeDay)| ==> TripStops(days, activeDay)[i].number == i + 1
  {
    if days != [] {
      var prev := TripStops(days[..|days| - 1], activeDay);
      var d := days[|days| - 1];
      StopNumbers(days[..|days| - 1], activeDay);
      DayStopNumbers(d.activities, d.day, activeDay, |prev|);
    }
  }

  /** What a stop carries in terms of the activity it was made from. */
  ghost predicate StopOf(s: Stop, a: Activity, day: int, activeDay: Option<int>) {
    && s.activity == a && s.day == day && HasCoordinates(a)
    && s.lat == a.latitude.value.value && s.lng == a.longitude.value.value
    && s.isActiveDay == ShowsDay(day, activeDay)
  }

  lemma {:induction false} DayStopsSound(acts: seq<Activity>, day: int, activeDay: Option<int>, before: nat)
    ensures forall s :: s in DayStops(acts, day, activeDay, before) ==>
      s.activity in acts && StopOf(s, s.activity, day, activeDay)
  {
    if acts != [] {
      DayStopsSound(acts[..|acts| - 1], day, activeDay, before);
    }
  }

  lemma {:induction false} DayStopsComplete(acts: seq<Activity>, day: int, activeDay: Option<int>, before: nat)
    ensures forall a :: a in acts && HasCoordinates(a) ==>
      exists s :: s in DayStops(acts, day, activeDay, before) && StopOf(s, a, day, activeDay)
  {
    if acts != [] {
      var init := acts[..|acts| - 1];
      DayStopsComplete(init, day, activeDay, before);
      forall a | a in acts && HasCoordinates(a)
        ensures exists s :: s in DayStops(acts, day, activeDay, before) && StopOf(s, a, day, activeDay)
      {
        if a in init {
          var s :| s in DayStops(init, day, activeDay, before) && StopOf(s, a, day, activeDay);
          assert s in DayStops(acts, day, activeDay, before);
        } else {
          var prev := DayStops(init, day, activeDay, before);
          assert StopOf(Place(a, day, activeDay, before + |prev| + 1), a, day, activeDay);
        }
      }
    }
  }

  /** Every stop comes from a kept activity of one of the given days and
      carries that activity's coordinates, its day and `isActiveDay`. */
  lemma {:induction false} TripStopsSound(days: seq<Day>, activeDay: Option<int>)
    ensures forall s :: s in TripStops(days, activeDay) ==>
      exists d :: d in days && s.activity in d.activities && StopOf(s, s.activity, d.day, activeDay)
  {
    if days != [] {
      var init := days[..|days| - 1];
      var prev := TripStops(init, activeDay);
      var last := days[|days| - 1];
      TripStopsSound(init, activeDay);
      DayStopsSound(last.activities, last.day, activeDay, |prev|);
      forall s | s in TripStops(days, activeDay)
        ensures exists d :: d in days && s.activity in d.activities && StopOf(s, s.activity, d.day, activeDay)
      {
        if s in prev {
          var d :| d in init && s.activity in d.activities && StopOf(s, s.activity, d.day, activeDay);
          assert d in days;
        } else {
          assert s in DayStops(last.activities, last.day, activeDay, |prev|);
          assert last in days;
        }
      }
    }
  }

  /** Every kept activity of every given day is a stop. */
  lemma {:induction false} TripStopsComplete(days: seq<Day>, activeDay: Option<int>)
    ensures forall d, a :: d in days && a in d.activities && HasCoordinates(a) ==>
      exists s :: s in TripStops(days, activeDay) && StopOf(s, a, d.day, activeDay)
  {
    if days != [] {
      var init := days[..|days| - 1];
      var prev := TripStops(init, activeDay);
      var last := days[|days| - 1];
      TripStopsComplete(init, activeDay);
      DayStopsComplete(last.activities, last.day, activeDay, |prev|);
      forall d, a | d in days && a in d.activities && HasCoordinates(a)
        ensures exists s :: s in TripStops(days, activeDay) && StopOf(s, a, d.day, activeDay)
      {
        if d in init {
          var s :| s in prev && StopOf(s, a, d.day, activeDay);
          assert s in TripStops(days, activeDay);
        } else {
          assert d == last;
          var s :| s in DayStops(last.activities, last.day, activeDay, |prev|) && StopOf(s, a, d.day, activeDay);
          assert s in TripStops(days, activeDay);
        }
      }
    }
  }

  /** `activeActivitiesCount`. */
  function ActiveCount(stops: seq<Stop>): (n: nat)
    ensures n <= |stops|
  {
    if stops == [] then 0
    else (if stops[0].isActiveDay then 1 else 0) + ActiveCount(stops[1..])
  }

  lemma {:induction false} ActiveCountAll(stops: seq<Stop>)
    requires forall s :: s in stops ==> s.isActiveDay
    ensures ActiveCount(stops) == |stops|
  {
    if stops != [] {
      ActiveCountAll(stops[1..]);
    }
  }

  /** Outside "all days" mode every plotted stop is on the active day, so the
      "locations plotted" count is the number of stops. */
  lemma SingleDayAllActive(days: seq<Day>, activeDay: Option<int>)
    ensures forall s :: s in Stops(days, activeDay, false) ==> s.isActiveDay
    ensures ActiveCount(Stops(days, activeDay, false)) == |Stops(days, activeDay, false)|
  {
    var stops := Stops(days, activeDay, false);
    TripStopsSound(FilterDays(days, activeDay), activeDay);
    FilterDaysMembers(days, activeDay);
    forall s | s in stops
      ensures s.isActiveDay
    {
      var d :| d in FilterDays(days, activeDay) && s.activity in d.activities && StopOf(s, s.activity, d.day, activeDay);
    }
    ActiveCountAll(stops);
  }

  // ---------------------------------------------------------------------
  // Viewport

  datatype View = View(center: LatLng, zoom: int)

  function Lats(stops: seq<Stop>): (r: seq<real>)
    ensures |r| == |stops| && forall i :: 0 <= i < |stops| ==> r[i] == stops[i].lat
  {
    seq(|stops|, i requires 0 <= i < |stops| => stops[i].lat)
  }

  function Lngs(stops: seq<Stop>): (r: seq<real>)
    ensures |r| == |stops| && forall i :: 0 <= i < |stops| ==> r[i] == stops[i].lng
  {
    seq(|stops|, i requires 0 <= i < |stops| => stops[i].lng)
  }

  /** `Math.max(...xs)` on a non-empty list. */
  function Max(xs: seq<real>): (m: real)
    requires |xs| > 0
    ensures forall i :: 0 <= i < |xs| ==> xs[i] <= m
    ensures exists i :: 0 <= i < |xs| && xs[i] == m
  {
    if |xs| == 1 then xs[0]
    else
      var m := Max(xs[1..]);
      assert forall i :: 1 <= i < |xs| ==> xs[i] == xs[1..][i - 1];
      if xs[0] >= m then xs[0] else m
  }

  /** `Math.min(...xs)` on a non-empty list. */
  function Min(xs: seq<real>): (m: real)
    requires |xs| > 0
    ensures forall i :: 0 <= i < |xs| ==> m <= xs[i]
    ensures exists i :: 0 <= i < |xs| && xs[i] == m
  {
    if |xs| == 1 then xs[0]
    else
      var m := Min(xs[1..]);
      assert forall i :: 1 <= i < |xs| ==> xs[i] == xs[1..][i - 1];
      if xs[0] <= m then xs[0] else m
  }

  function Larger(a: real, b: real): real {
    if a >= b then a else b
  }

  /** The zoom ladder of lines 226-232 as a table: the first threshold the
      span is below picks the zoom; above them all the zoom is 8. */
  const ZoomLadder: seq<(real, int)> := [(0.01, 15), (0.05, 13), (0.1, 12), (0.5, 10), (1.0, 9)]
  const WidestZoom := 8

  function LadderZoom(ladder: seq<(real, int)>, span: real): int {
    if ladder == [] then WidestZoom
    else if span < ladder[0].0 then ladder[0].1
    else LadderZoom(ladder[1..], span)
  }

  function ZoomFor(span: real): int {
    LadderZoom(ZoomLadder, span)
  }

  /** Thresholds ascend and zooms descend, every zoom above the last one. */
  ghost predicate Ladder(ladder: seq<(real, int)>, last: int) {
    && (forall i, j :: 0 <= i < j < |ladder| ==> ladder[i].0 < ladder[j].0 && ladder[i].1 > ladder[j].1)
    && (forall i :: 0 <= i < |ladder| ==> ladder[i].1 > last)
  }

  lemma {:induction false} LadderMonotone(ladder: seq<(real, int)>, a: real, b: real)
    requires Ladder(ladder, WidestZoom)
    requires a <= b
    ensures LadderZoom(ladder, b) <= LadderZoom(ladder, a)
  {
    if ladder != [] {
      var tail := ladder[1..];
      assert Ladder(tail, WidestZoom) by {
        forall i, j | 0 <= i < j < |tail|
          ensures tail[i].0 < tail[j].0 && tail[i].1 > tail[j].1
        {
          assert tail[i] == ladder[i + 1] && tail[j] == ladder[j + 1];
        }
        forall i | 0 <= i < |tail|
          ensures tail[i].1 > WidestZoom
        {
          assert tail[i] == ladder[i + 1];
        }
      }
      LadderMonotone(tail, a, b);
      if a >= ladder[0].0 {
      } else if b >= ladder[0].0 {
        LadderBelowHead(ladder, b);
      }
    }
  }

  lemma {:induction false} LadderBelowHead(ladder: seq<(real, int)>, span: real)
    requires Ladder(ladder, WidestZoom) && ladder != []
    ensures LadderZoom(ladder, span) <= ladder[0].1
  {
    if span >= ladder[0].0 {
      var tail := ladder[1..];
      if tail != [] {
        assert Ladder(tail, WidestZoom) by {
          forall i, j | 0 <= i < j < |tail|
            ensures tail[i].0 < tail[j].0 && tail[i].1 > tail[j].1
          {
            assert tail[i] == ladder[i + 1] && tail[j] == ladder[j + 1];
          }
          forall i | 0 <= i < |tail|
            ensures tail[i].1 > WidestZoom
          {
            assert tail[i] == ladder[i + 1];
          }
        }
        LadderBelowHead(tail, span);
        assert tail[0] == ladder[1];
      }
    }
  }

  /** The zoom never grows as the span grows. */
  lemma ZoomMonotone(a: real, b: real)
    requires a <= b
    ensures ZoomFor(b) <= ZoomFor(a)
  {
    LadderMonotone(ZoomLadder, a, b);
  }

  /** The ladder, step by step; every zoom it gives lies in 8..15. */
  lemma ZoomSteps(span: real)
    ensures span < 0.01 ==> ZoomFor(span) == 15
    ensures 0.01 <= span < 0.05 ==> ZoomFor(span) == 13
    ensures 0.05 <= span < 0.1 ==> ZoomFor(span) == 12
    ensures 0.1 <= span < 0.5 ==> ZoomFor(span) == 10
    ensures 0.5 <= span < 1.0 ==> ZoomFor(span) == 9
    ensures 1.0 <= span ==> ZoomFor(span) == 8
    ensures 8 <= ZoomFor(span) <= 15
  {
    var l0 := ZoomLadder;
    var l1 := [(0.05, 13), (0.1, 12), (0.5, 10), (1.0, 9)];
    var l2 := [(0.1, 12), (0.5, 10), (1.0, 9)];
    var l3 := [(0.5, 10), (1.0, 9)];
    var l4 := [(1.0, 9)];
    assert l0[1..] == l1 && l1[1..] == l2 && l2[1..] == l3 && l3[1..] == l4 && l4[1..] == [];
    assert LadderZoom(l0, span) == if span < 0.01 then 15 else LadderZoom(l1, span);
    assert LadderZoom(l1, span) == if span < 0.05 then 13 else LadderZoom(l2, span);
    assert LadderZoom(l2, span) == if span < 0.1 then 12 else LadderZoom(l3, span);
    assert LadderZoom(l3, span) == if span < 0.5 then 10 else LadderZoom(l4, span);
    assert LadderZoom(l4, span) == if span < 1.0 then 9 else LadderZoom([], span);
  }

  /** Lines 226-232: `let zoom = 12`, then the if/else ladder. */
  method ChooseZoom(maxDiff: real) returns (zoom: int)
    ensures zoom == ZoomFor(maxDiff)
  {
    ZoomSteps(maxDiff);
    zoom := 12;
    if maxDiff < 0.01 {
      zoom := 15;
    } else if maxDiff < 0.05 {
      zoom := 13;
    } else if maxDiff < 0.1 {
      zoom := 12;
    } else if maxDiff < 0.5 {
      zoom := 10;
    } else if maxDiff < 1.0 {
      zoom := 9;
    } else {
      zoom := 8;
    }
  }

  // Fallback centre

  /** Either string contains the other (line 198). */
  predicate PartialMatch(locationKey: string, key: string) {
    Contains(locationKey, key) || Contains(key, locationKey)
  }

  /** The index of the table entry whose key is `key`, if any. */
  function ExactIndex(table: seq<(string, LatLng)>, key: string): (r: Option<nat>)
    ensures r.Some? ==> r.value < |table| && table[r.value].0 == key
    ensures r.None? ==> forall i :: 0 <= i < |table| ==> table[i].0 != key
  {
    if table == [] then None
    else if table[0].0 == key then Some(0)
    else match ExactIndex(table[1..], key)
      case Some(i) => Some(i + 1)
      case None => None
  }

  /** The first table entry, in declaration order, that partially matches:
      `Object.keys(DEFAULT_COORDINATES).find(...)`. */
  function FirstPartial(table: seq<(string, LatLng)>, locationKey: string): (r: Option<nat>)
    ensures r.Some? ==> r.value < |table| && PartialMatch(locationKey, table[r.value].0)
    ensures r.Some? ==> forall j :: 0 <= j < r.value ==> !PartialMatch(locationKey, table[j].0)
    ensures r.None? ==> forall j :: 0 <= j < |table| ==> !PartialMatch(locationKey, table[j].0)
  {
    if table == [] then None
    else if PartialMatch(locationKey, table[0].0) then Some(0)
    else match FirstPartial(table[1..], locationKey)
      case Some(i) => Some(i + 1)
      case None => None
  }

  /** `itinerary.location.toLowerCase().trim()`. */
  function LocationKey(location: string): string {
    Trim(Lower(location))
  }

  /** The centre used when nothing can be plotted (lines 188-203): the exact
      entry, else the first partial match, else `jaipur`. The exact lookup
      reads the table's own keys only; see `FallbackCenterAsWritten`. */
  function FallbackCenter(location: string): LatLng {
    var key := LocationKey(location);
    match ExactIndex(DefaultCoordinates, key)
    case Some(i) => DefaultCoordinates[i].1
    case None =>
      match FirstPartial(DefaultCoordinates, key)
      case Some(i) => DefaultCoordinates[i].1
      case None => Jaipur
  }

  /** The `find` of lines 196-199: the keys are tried in order and the first
      partial match wins. */
  method FindPartial(table: seq<(string, LatLng)>, locationKey: string) returns (found: Option<nat>)
    ensures found == FirstPartial(table, locationKey)
  {
    var i := 0;
    while i < |table| && !PartialMatch(locationKey, table[i].0)
      invariant 0 <= i <= |table|
      invariant forall j :: 0 <= j < i ==> !PartialMatch(locationKey, table[j].0)
    {
      i := i + 1;
    }
    if i < |table| {
      found := Some(i);
    } else {
      found := None;
    }
  }

  /** Lines 190-203: the exact lookup, then the `find` over the keys, then
      the `jaipur` default, reassigning `defaultCoord` on the way. */
  method ResolveFallback(location: string) returns (defaultCoord: LatLng)
    ensures defaultCoord == FallbackCenter(location)
  {
    var locationKey := LocationKey(location);
    var exact := ExactIndex(DefaultCoordinates, locationKey);
    if exact.Some? {
      defaultCoord := DefaultCoordinates[exact.value].1;
    } else {
      var matchingKey := FindPartial(DefaultCoordinates, locationKey);
      if matchingKey.Some? {
        defaultCoord := DefaultCoordinates[matchingKey.value].1;
      } else {
        defaultCoord := Jaipur;
      }
    }
  }

  /** The lower-cased location is looked up as written: upper case in the
      location does not change the centre. */
  lemma FallbackCenterIgnoresCase(location: string)
    ensures FallbackCenter(Lower(location)) == FallbackCenter(location)
  {
    LowerIdempotent(location);
  }

  /** The fallback centre is always one of the table's coordinates. */
  lemma FallbackCenterInTable(location: string)
    ensures exists i :: 0 <= i < |DefaultCoordinates| && DefaultCoordinates[i].1 == FallbackCenter(location)
  {
    var key := LocationKey(location);
    match ExactIndex(DefaultCoordinates, key)
    case Some(i) =>
      assert DefaultCoordinates[i].1 == FallbackCenter(location);
    case None =>
      match FirstPartial(DefaultCoordinates, key)
      case Some(i) =>
        assert DefaultCoordinates[i].1 == FallbackCenter(location);
      case None =>
        assert DefaultCoordinates[0].1 == FallbackCenter(location);
  }

  lemma ExactIndexAt(table: seq<(string, LatLng)>, key: string, i: nat)
    requires i < |table| && table[i].0 == key
    requires forall j :: 0 <= j < |table| && j != i ==> table[j].0 != key
    ensures ExactIndex(table, key) == Some(i)
  {
  }

  lemma FirstPartialAt(table: seq<(string, LatLng)>, key: string, i: nat)
    requires i < |table| && PartialMatch(key, table[i].0)
    requires forall j :: 0 <= j < i ==> !PartialMatch(key, table[j].0)
    ensures FirstPartial(table, key) == Some(i)
  {
  }

  /** No key partially matches `key` when each key is shorter than it and
      has a character (`missing[i]` for the i-th key) that `key` lacks. */
  lemma NoPartialMatch(table: seq<(string, LatLng)>, key: string, missing: string)
    requires |missing| == |table|
    requires forall i :: 0 <= i < |table| ==> |table[i].0| < |key|
    requires forall i :: 0 <= i < |table| ==> missing[i] in table[i].0 && missing[i] !in key
    ensures FirstPartial(table, key) == None
    ensures ExactIndex(table, key) == None
  {
    forall i | 0 <= i < |table|
      ensures !PartialMatch(key, table[i].0)
    {
      NotContainsLonger(table[i].0, key);
      NotContainsMissingChar(key, table[i].0, missing[i]);
    }
  }

  lemma UdaipurKey()
    ensures LocationKey(" Udaipur ") == "udaipur"
  {
    assert Lower(" Udaipur ") == " " + "udaipur" + " ";
    TrimPadded(" ", "udaipur", " ");
  }

  /** Case and surrounding blanks are ignored: " Udaipur " is the udaipur entry. */
  lemma FallbackExactMatch()
    ensures FallbackCenter(" Udaipur ") == LatLng(24.5854, 73.7125)
  {
    UdaipurKey();
    ExactIndexAt(DefaultCoordinates, "udaipur", 17);
  }

  lemma NowherevilleKey()
    ensures LocationKey("Nowhereville") == "nowhereville"
  {
    assert Lower("Nowhereville") == "nowhereville";
    TrimNoSpace("nowhereville");
  }

  /** No key of the table is ten characters long or more. */
  lemma KeysShorterThan(key: string)
    requires |key| >= 10
    ensures forall i :: 0 <= i < |DefaultCoordinates| ==> |DefaultCoordinates[i].0| < |key|
  {
  }

  /** The i-th letter of the witness occurs in the i-th key ... */
  lemma WitnessInKeys()
    ensures var missing := "jbmdgkpdtycypkasjujaaacmt";
      forall i :: 0 <= i < |DefaultCoordinates| ==> missing[i] in DefaultCoordinates[i].0
  {
  }

  /** ... and not in "nowhereville". */
  lemma WitnessNotInNowhereville()
    ensures var missing := "jbmdgkpdtycypkasjujaaacmt";
      forall i :: 0 <= i < |missing| ==> missing[i] !in "nowhereville"
  {
  }

  /** A location matching no key, exactly or partially, is centred on Jaipur. */
  lemma FallbackUnknownLocation()
    ensures FallbackCenter("Nowhereville") == Jaipur
  {
    NowherevilleKey();
    KeysShorterThan("nowhereville");
    WitnessInKeys();
    WitnessNotInNowhereville();
    NoPartialMatch(DefaultCoordinates, "nowhereville", "jbmdgkpdtycypkasjujaaacmt");
  }

  lemma BlankKey()
    ensures LocationKey("  ") == ""
  {
    assert Lower("  ") == "  ";
    TrimAllSpace("  ");
  }

  lemma ExactIndexAbsent(table: seq<(string, LatLng)>, key: string)
    requires forall j :: 0 <= j < |table| ==> table[j].0 != key
    ensures ExactIndex(table, key) == None
  {
  }

  lemma NoEmptyKey()
    ensures ExactIndex(DefaultCoordinates, "") == None
  {
    assert forall j :: 0 <= j < |DefaultCoordinates| ==> |DefaultCoordinates[j].0| > 0;
    ExactIndexAbsent(DefaultCoordinates, "");
  }

  /** A blank location trims to "", which every key contains, so the first
      key (jaipur) matches partially. */
  lemma FallbackBlankLocation()
    ensures LocationKey("  ") == ""
    ensures FirstPartial(DefaultCoordinates, "") == Some(0)
    ensures FallbackCenter("  ") == Jaipur
  {
    BlankKey();
    ContainsEmpty(DefaultCoordinates[0].0);
    FirstPartialAt(DefaultCoordinates, "", 0);
    NoEmptyKey();
  }

  // The exact lookup as written

  /** The members every object literal inherits from `Object.prototype`.
      The key is lower-cased first, so of these only "constructor" and
      "__proto__" can be reached from a location; the camelCase names
      cannot equal a lower-cased key. */
  const ObjectPrototypeMembers: seq<string> := [
    "constructor", "__proto__", "toString", "toLocaleString", "valueOf", "hasOwnProperty",
    "isPrototypeOf", "propertyIsEnumerable", "__defineGetter__", "__defineSetter__",
    "__lookupGetter__", "__lookupSetter__"
  ]

  /** What `DEFAULT_COORDINATES[key]` evaluates to. */
  datatype Lookup = OwnEntry(coord: LatLng) | InheritedMember(name: string) | Missing

  /** Line 193: a bracket lookup reads the table's own keys and, failing
      those, the inherited members. */
  function LookupAsWritten(key: string): (r: Lookup)
    ensures r.OwnEntry? <==> exists i :: 0 <= i < |DefaultCoordinates| && DefaultCoordinates[i].0 == key
    ensures r.InheritedMember? ==> r.name == key && key in ObjectPrototypeMembers
    ensures r.Missing? ==> key !in ObjectPrototypeMembers
  {
    match ExactIndex(DefaultCoordinates, key)
    case Some(i) => OwnEntry(DefaultCoordinates[i].1)
    case None => if key in ObjectPrototypeMembers then InheritedMember(key) else Missing
  }

  /** `defaultCoord` as lines 190-203 compute it: a coordinate pair, or an
      inherited member (a function or `Object.prototype`), which is truthy
      and so survives the `!defaultCoord` test. */
  datatype Center = Coordinates(coord: LatLng) | NotCoordinates(member: string)

  function FallbackCenterAsWritten(location: string): Center {
    var key := LocationKey(location);
    match LookupAsWritten(key)
    case OwnEntry(c) => Coordinates(c)
    case InheritedMember(name) => NotCoordinates(name)
    case Missing =>
      match FirstPartial(DefaultCoordinates, key)
      case Some(i) => Coordinates(DefaultCoordinates[i].1)
      case None => Coordinates(Jaipur)
  }

  lemma ConstructorKey()
    ensures LocationKey("Constructor") == "constructor"
  {
    assert Lower("Constructor") == "constructor";
    TrimNoSpace("constructor");
  }

  lemma ConstructorWitnessInKeys()
    ensures var missing := "jbmdgkpdkwhhpkaajdjaaahmy";
      forall i :: 0 <= i < |DefaultCoordinates| ==> missing[i] in DefaultCoordinates[i].0
  {
  }

  lemma ConstructorWitnessNotInKey()
    ensures var missing := "jbmdgkpdkwhhpkaajdjaaahmy";
      forall i :: 0 <= i < |missing| ==> missing[i] !in "constructor"
  {
  }

  lemma ConstructorLookup()
    ensures LookupAsWritten("constructor") == InheritedMember("constructor")
    ensures FirstPartial(DefaultCoordinates, "constructor") == None
  {
    KeysShorterThan("constructor");
    ConstructorWitnessInKeys();
    ConstructorWitnessNotInKey();
    NoPartialMatch(DefaultCoordinates, "constructor", "jbmdgkpdkwhhpkaajdjaaahmy");
    assert ObjectPrototypeMembers[0] == "constructor";
  }

  /** The location "Constructor" lower-cases to an inherited member: as
      written the centre is the `Object` constructor, where the own-keys
      lookup falls through to Jaipur. */
  lemma ConstructorIsNotACentre()
    ensures FallbackCenterAsWritten("Constructor") == NotCoordinates("constructor")
    ensures FallbackCenter("Constructor") == Jaipur
  {
    ConstructorKey();
    ConstructorLookup();
  }

  /** Away from the inherited names the lookup as written and the own-keys
      lookup agree. */
  lemma AsWrittenAgreesOffPrototype(location: string)
    requires LocationKey(location) !in ObjectPrototypeMembers
    ensures FallbackCenterAsWritten(location) == Coordinates(FallbackCenter(location))
  {
  }

  /** Lines 215-234: the bounding box's midpoint and the ladder's zoom for
      its larger span. */
  function SpreadView(stops: seq<Stop>): View
    requires |stops| >= 2
  {
    var lats, lngs := Lats(stops), Lngs(stops);
    View(LatLng((Max(lats) + Min(lats)) / 2.0, (Max(lngs) + Min(lngs)) / 2.0),
         ZoomFor(Larger(Max(lats) - Min(lats), Max(lngs) - Min(lngs))))
  }

  /** `{ mapCenter, mapZoom }` (lines 187-235). */
  function Viewport(stops: seq<Stop>, location: string): View {
    if |stops| == 0 then View(FallbackCenter(location), FallbackZoom)
    else if |stops| == 1 then View(LatLng(stops[0].lat, stops[0].lng), SinglePointZoom)
    else SpreadView(stops)
  }

  /** The memo of lines 187-235. */
  method ComputeViewport(stops: seq<Stop>, location: string) returns (view: View)
    ensures view == Viewport(stops, location)
  {
    if |stops| == 0 {
      var defaultCoord := ResolveFallback(location);
      return View(defaultCoord, FallbackZoom);
    }
    if |stops| == 1 {
      var activity := stops[0];
      return View(LatLng(activity.lat, activity.lng), SinglePointZoom);
    }
    var lats, lngs := Lats(stops), Lngs(stops);
    var centerLat := (Max(lats) + Min(lats)) / 2.0;
    var centerLng := (Max(lngs) + Min(lngs)) / 2.0;
    var latDiff := Max(lats) - Min(lats);
    var lngDiff := Max(lngs) - Min(lngs);
    var maxDiff := Larger(latDiff, lngDiff);
    var zoom := ChooseZoom(maxDiff);
    view := View(LatLng(centerLat, centerLng), zoom);
  }

  /** Nothing to plot: the fallback table decides the centre, at zoom 11. */
  lemma ViewportEmpty(location: string)
    ensures Viewport([], location) == View(FallbackCenter(location), 11)
  {
  }

  /** One stop: centred on it at zoom 14. */
  lemma ViewportSingle(s: Stop, location: string)
    ensures Viewport([s], location) == View(LatLng(s.lat, s.lng), 14)
  {
  }

  /** Every stop lies in the bounding box of the stops. */
  lemma BoxHoldsStops(stops: seq<Stop>)
    requires |stops| >= 1
    ensures forall i :: 0 <= i < |stops| ==> Min(Lats(stops)) <= stops[i].lat <= Max(Lats(stops))
    ensures forall i :: 0 <= i < |stops| ==> Min(Lngs(stops)) <= stops[i].lng <= Max(Lngs(stops))
  {
    var lats, lngs := Lats(stops), Lngs(stops);
    forall i | 0 <= i < |stops|
      ensures Min(lats) <= stops[i].lat <= Max(lats) && Min(lngs) <= stops[i].lng <= Max(lngs)
    {
      assert lats[i] == stops[i].lat && lngs[i] == stops[i].lng;
    }
  }

  /** The spread view's centre is the midpoint of the bounding box, so it
      lies inside the box. */
  lemma SpreadViewCentred(stops: seq<Stop>)
    requires |stops| >= 2
    ensures var v := SpreadView(stops);
      && Min(Lats(stops)) <= v.center.lat <= Max(Lats(stops))
      && Min(Lngs(stops)) <= v.center.lng <= Max(Lngs(stops))
      && v.center.lat - Min(Lats(stops)) == Max(Lats(stops)) - v.center.lat
      && v.center.lng - Min(Lngs(stops)) == Max(Lngs(stops)) - v.center.lng
  {
    var lats, lngs := Lats(stops), Lngs(stops);
    var loLat, hiLat, loLng, hiLng := Min(lats), Max(lats), Min(lngs), Max(lngs);
    assert loLat <= lats[0] <= hiLat && loLng <= lngs[0] <= hiLng;
    var v := SpreadView(stops);
    assert v.center == LatLng((hiLat + loLat) / 2.0, (hiLng + loLng) / 2.0);
  }

  /** Several stops: the location plays no part, the view is the spread view. */
  lemma ViewportMany(stops: seq<Stop>, location: string, other: string)
    requires |stops| >= 2
    ensures Viewport(stops, location) == Viewport(stops, other) == SpreadView(stops)
  {
  }

  /** Whatever is plotted, the centre lies within the plotted stops' bounding
      box and the zoom is one of 8..15. */
  lemma ViewportFramesStops(stops: seq<Stop>, location: string)
    requires |stops| >= 1
    ensures var v := Viewport(stops, location);
      && Min(Lats(stops)) <= v.center.lat <= Max(Lats(stops))
      && Min(Lngs(stops)) <= v.center.lng <= Max(Lngs(stops))
      && 8 <= v.zoom <= 15
  {
    if |stops| == 1 {
      assert Lats(stops) == [stops[0].lat];
      assert Lngs(stops) == [stops[0].lng];
    } else {
      ZoomSteps(Larger(Max(Lats(stops)) - Min(Lats(stops)), Max(Lngs(stops)) - Min(Lngs(stops))));
    }
  }

  // ---------------------------------------------------------------------
  // Markers and legend

  /** `getIconColor`: switches on the lower-cased category. */
  function IconColor(category: Option<string>): string {
    if category.None? then "#6b7280"
    else match Lower(category.value)
      case "sightseeing" => "#4f46e5"
      case "food" => "#f97316"
      case "adventure" => "#059669"
      case "cultural" => "#7c3aed"
      case "shopping" => "#ec4899"
      case "nature" => "#16a34a"
      case "nightlife" => "#f59e0b"
      case "heritage" => "#9333ea"
      case _ => "#6b7280"
  }

  /** The legend swatch colour (lines 270-277): compares the category as it
      is, without lower-casing. */
  function LegendColor(category: string): string {
    if category == "sightseeing" then "#4f46e5"
    else if category == "food" then "#f97316"
    else if category == "adventure" then "#059669"
    else if category == "cultural" then "#7c3aed"
    else if category == "shopping" then "#ec4899"
    else if category == "nature" then "#16a34a"
    else if category == "nightlife" then "#f59e0b"
    else if category == "heritage" then "#9333ea"
    else "#6b7280"
  }

  /** The marker colour is the legend colour of the lower-cased category, so
      the two agree on every lower-case category. */
  lemma MarkerColorIsLegendColorOfLowercase(category: string)
    ensures IconColor(Some(category)) == LegendColor(Lower(category))
    ensures Lower(category) == category ==> IconColor(Some(category)) == LegendColor(category)
  {
  }

  /** ... and disagree on a capitalised one: "Food" markers are orange while
      its legend swatch is the default grey. */
  lemma LegendColorIsCaseSensitive()
    ensures IconColor(Some("Food")) == "#f97316"
    ensures LegendColor("Food") == "#6b7280"
  {
    assert Lower("Food") == "food";
  }

  /** The parameters `createNumberedIcon` gives the marker. */
  datatype MarkerIcon = MarkerIcon(stopNumber: nat, color: string, size: int, opacity: real, anchor: real, fontSize: int)

  function NumberedIcon(number: nat, category: Option<string>, isActive: bool): MarkerIcon {
    var size := if isActive then 32 else 24;
    MarkerIcon(number, IconColor(category), size, if isActive then 1.0 else 0.6,
               size as real / 2.0, if isActive then 11 else 9)
  }

  /** A marker is anchored at its centre; active markers are 32 pixels and
      opaque, inactive ones 24 pixels at opacity 0.6. */
  lemma MarkerGeometry(number: nat, category: Option<string>, isActive: bool)
    ensures var m := NumberedIcon(number, category, isActive);
      && m.anchor * 2.0 == m.size as real
      && m.stopNumber == number
      && (isActive ==> m.size == 32 && m.opacity == 1.0)
      && (!isActive ==> m.size == 24 && m.opacity == 0.6)
  {
  }

  datatype Marker = Marker(position: LatLng, icon: MarkerIcon)

  /** One marker per stop (lines 335-339). */
  function Markers(stops: seq<Stop>): (r: seq<Marker>)
    ensures |r| == |stops|
  {
    seq(|stops|, i requires 0 <= i < |stops| =>
      Marker(LatLng(stops[i].lat, stops[i].lng),
             NumberedIcon(stops[i].number, stops[i].activity.category, stops[i].isActiveDay)))
  }

  /** The i-th marker sits on the i-th stop and is labelled i + 1. */
  lemma MarkerLabels(days: seq<Day>, activeDay: Option<int>, showAllDays: bool)
    ensures var stops := Stops(days, activeDay, showAllDays);
      forall i :: 0 <= i < |stops| ==>
        Markers(stops)[i].icon.stopNumber == i + 1
        && Markers(stops)[i].position == LatLng(stops[i].lat, stops[i].lng)
  {
    StopNumbers(SelectDays(days, activeDay, showAllDays), activeDay);
  }

  /** `activitiesWithCoordinates.map(a => a.category).filter(Boolean)`. */
  function Categories(stops: seq<Stop>): (r: seq<string>)
    ensures forall c :: c in r ==> c != ""
  {
    if stops == [] then []
    else
      var c := stops[|stops| - 1].activity.category;
      Categories(stops[..|stops| - 1]) + (if c.Some? && c.value != "" then [c.value] else [])
  }

  lemma {:induction false} CategoriesExact(stops: seq<Stop>)
    ensures forall c :: c in Categories(stops) <==> c != "" && exists s :: s in stops && s.activity.category == Some(c)
  {
    if stops != [] {
      var init := stops[..|stops| - 1];
      CategoriesExact(init);
      forall c | c != "" && (exists s :: s in stops && s.activity.category == Some(c))
        ensures c in Categories(stops)
      {
        var s :| s in stops && s.activity.category == Some(c);
        if s in init {
        } else {
          assert s == stops[|stops| - 1];
        }
      }
    }
  }

  /** `Array.from(new Set(xs))`: each value once, at its first appearance. */
  function Distinct(xs: seq<string>): (r: seq<string>)
    ensures forall x :: x in r <==> x in xs
    ensures forall i, j :: 0 <= i < j < |r| ==> r[i] != r[j]
  {
    if xs == [] then []
    else
      var r := Distinct(xs[..|xs| - 1]);
      var x := xs[|xs| - 1];
      assert forall y :: y in xs <==> y in xs[..|xs| - 1] || y == x;
      if x in r then r else r + [x]
  }

  /** The index of the first occurrence of `x` in `xs`. */
  function FirstIndex(xs: seq<string>, x: string): (i: nat)
    requires x in xs
    ensures i < |xs| && xs[i] == x && forall j :: 0 <= j < i ==> xs[j] != x
  {
    if xs[0] == x then 0 else 1 + FirstIndex(xs[1..], x)
  }

  lemma FirstIndexInit(xs: seq<string>, x: string)
    requires |xs| > 0 && x in xs[..|xs| - 1]
    ensures x in xs && FirstIndex(xs, x) == FirstIndex(xs[..|xs| - 1], x) < |xs| - 1
  {
    var init := xs[..|xs| - 1];
    var i := FirstIndex(init, x);
    assert xs[i] == init[i];
    var k := FirstIndex(xs, x);
    assert k < |xs| - 1 ==> init[k] == xs[k];
  }

  lemma FirstIndexLast(xs: seq<string>)
    requires |xs| > 0 && xs[|xs| - 1] !in xs[..|xs| - 1]
    ensures FirstIndex(xs, xs[|xs| - 1]) == |xs| - 1
  {
    var init := xs[..|xs| - 1];
    assert forall m :: 0 <= m < |xs| - 1 ==> xs[m] == init[m];
  }

  ghost predicate InFirstAppearanceOrder(r: seq<string>, xs: seq<string>)
    requires forall x :: x in r ==> x in xs
  {
    forall i, j :: 0 <= i < j < |r| ==> FirstIndex(xs, r[i]) < FirstIndex(xs, r[j])
  }

  lemma FirstAppearanceStep(xs: seq<string>, r0: seq<string>)
    requires |xs| > 0
    requires forall x :: x in r0 <==> x in xs[..|xs| - 1]
    requires InFirstAppearanceOrder(r0, xs[..|xs| - 1])
    ensures InFirstAppearanceOrder(r0, xs)
    ensures xs[|xs| - 1] !in r0 ==> InFirstAppearanceOrder(r0 + [xs[|xs| - 1]], xs)
  {
    forall i | 0 <= i < |r0|
      ensures r0[i] in xs[..|xs| - 1] && r0[i] in xs
      ensures FirstIndex(xs, r0[i]) == FirstIndex(xs[..|xs| - 1], r0[i]) < |xs| - 1
    {
      assert r0[i] in r0;
      FirstIndexInit(xs, r0[i]);
    }
    var x := xs[|xs| - 1];
    if x !in r0 {
      FirstIndexLast(xs);
      var r := r0 + [x];
      forall i, j | 0 <= i < j < |r|
        ensures FirstIndex(xs, r[i]) < FirstIndex(xs, r[j])
      {
        assert r[i] == r0[i];
        if j < |r0| {
          assert r[j] == r0[j];
        }
      }
    }
  }

  /** The distinct values keep the order in which they first appear. */
  lemma {:induction false} DistinctFirstAppearance(xs: seq<string>)
    ensures InFirstAppearanceOrder(Distinct(xs), xs)
  {
    if xs != [] {
      var init := xs[..|xs| - 1];
      DistinctFirstAppearance(init);
      FirstAppearanceStep(xs, Distinct(init));
    }
  }

  const LegendSize := 6

  /** The legend (lines 263-265): the distinct non-empty categories of all
      plotted stops, active or not, in first-appearance order, at most 6. */
  function Legend(stops: seq<Stop>): seq<string> {
    var d := Distinct(Categories(stops));
    if |d| <= LegendSize then d else d[..LegendSize]
  }

  /** The legend has at most 6 entries, none empty, none twice, each the
      category of some plotted stop, in first-appearance order; it is a
      prefix of all distinct categories, and holds all of them when there
      are no more than 6. */
  lemma LegendProperties(stops: seq<Stop>)
    ensures var l, d := Legend(stops), Distinct(Categories(stops));
      && |l| <= 6
      && l == d[..|l|]
      && (|d| <= 6 ==> l == d)
      && (forall i, j :: 0 <= i < j < |l| ==> l[i] != l[j])
      && (forall c :: c in l ==> c != "" && exists s :: s in stops && s.activity.category == Some(c))
      && InFirstAppearanceOrder(l, Categories(stops))
  {
    var d := Distinct(Categories(stops));
    CategoriesExact(stops);
    DistinctFirstAppearance(Categories(stops));
    var l := Legend(stops);
    forall c | c in l
      ensures c in d
    {
    }
  }

  /** `getCategoryEmoji`. */
  function CategoryEmoji(category: Option<string>): string {
    if category.None? then "\U{1F4CD}"
    else match Lower(category.value)
      case "sightseeing" => "\U{1F3DB}\U{FE0F}"
      case "food" => "\U{1F37D}\U{FE0F}"
      case "adventure" => "\U{1F3D4}\U{FE0F}"
      case "cultural" => "\U{1F3AD}"
      case "shopping" => "\U{1F6CD}\U{FE0F}"
      case "nature" => "\U{1F33F}"
      case "nightlife" => "\U{1F319}"
      case "heritage" => "\U{1F3F0}"
      case _ => "\U{1F4CD}"
  }

  /** The emoji ignores the category's case. */
  lemma CategoryEmojiCaseInsensitive(category: string)
    ensures CategoryEmoji(Some(category)) == CategoryEmoji(Some(Lower(category)))
  {
    LowerIdempotent(category);
  }

  /** What a price renders as, with the number formatting abstracted. */
  datatype Price = Free | Amount(value: real)

  /** `formatCurrency` of the map popup: "Free" for an absent or zero cost. */
  function FormatCurrency(amount: Option<real>): Price {
    if amount.None? || amount.value == 0.0 then Free else Amount(amount.value)
  }

  /** `activeDay || 1`: the day named in the header. */
  function CurrentDay(activeDay: Option<int>): int {
    if Falsy(activeDay) then 1 else activeDay.value
  }

  /** The single-day header of line 253, "Day {currentDay} • {count}
      locations", describes what is plotted: with a day selected every stop
      is on the day it names, and the count is the number of stops. With no
      day selected the header names day 1 while every day is plotted. */
  lemma HeaderDescribesStops(days: seq<Day>, activeDay: Option<int>)
    ensures ActiveCount(Stops(days, activeDay, false)) == |Stops(days, activeDay, false)|
    ensures !Falsy(activeDay) ==>
      forall s :: s in Stops(days, activeDay, false) ==> s.day == CurrentDay(activeDay)
    ensures Falsy(activeDay) ==>
      CurrentDay(activeDay) == 1 && Stops(days, activeDay, false) == Stops(days, activeDay, true)
  {
    SingleDayAllActive(days, activeDay);
    if Falsy(activeDay) {
      FilterDaysAll(days, activeDay);
    } else {
      TripStopsSound(FilterDays(days, activeDay), activeDay);
      FilterDaysMembers(days, activeDay);
      forall s | s in Stops(days, activeDay, false)
        ensures s.day == CurrentDay(activeDay)
      {
        var d :| d in FilterDays(days, activeDay) && s.activity in d.activities && StopOf(s, s.activity, d.day, activeDay);
      }
    }
  }
}
