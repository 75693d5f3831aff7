/** The itinerary record the backend returns, as far as the map view and the
    planner read it, and the small pieces of JavaScript value semantics that
    their guards rely on (optional fields, truthiness, NaN). */
module Trip {

  datatype Option<+T> = None | Some(value: T)

  /** A JavaScript number as the map view sees it: a finite value, NaN, or an
      infinity. Finite values are exact reals: rounding is not modelled. */
  datatype Number = Finite(value: real) | NaN | Infinity(positive: bool)

  /** `n` is truthy: present, not 0 and not NaN. */
  predicate Truthy(n: Option<Number>) {
    match n
    case None => false
    case Some(Finite(v)) => v != 0.0
    case Some(NaN) => false
    case Some(Infinity(_)) => true
  }

  /** `isNaN(n)`: undefined converts to NaN. */
  predicate IsNaN(n: Option<Number>) {
    n.None? || n.value.NaN?
  }

  /** `n >= b` for a finite bound `b`: false whenever `n` is undefined or NaN. */
  predicate AtLeast(n: Option<Number>, b: real) {
    match n
    case None => false
    case Some(Finite(v)) => v >= b
    case Some(NaN) => false
    case Some(Infinity(positive)) => positive
  }

  /** `n <= b` for a finite bound `b`. */
  predicate AtMost(n: Option<Number>, b: real) {
    match n
    case None => false
    case Some(Finite(v)) => v <= b
    case Some(NaN) => false
    case Some(Infinity(positive)) => !positive
  }

  /** An optional day number is falsy when it is absent or 0 (`!activeDay`). */
  predicate Falsy(n: Option<int>) {
    n.None? || n.value == 0
  }

  datatype Activity = Activity(
    name: string,
    description: string,
    latitude: Option<Number>,
    longitude: Option<Number>,
    estimatedCost: Option<real>,
    category: Option<string>,
    bookable: Option<bool>)

  datatype Day = Day(day: int, activities: seq<Activity>)

  /** The hotel record; the modelled rules only read whether the list is
      empty. `rating` and `priceLevel` mirror the source's type (the hotel
      card passes `rating` to `getStarRating`). */
  datatype Hotel = Hotel(name: string, rating: Option<real>, priceLevel: Option<int>)

  datatype RouteDetails = RouteDetails(travelMode: string, estimatedCost: Option<real>)

  datatype Itinerary = Itinerary(
    location: string,
    duration: int,
    days: seq<Day>,
    hotels: Option<seq<Hotel>>,
    route: Option<RouteDetails>)
}
