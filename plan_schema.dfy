/** The trip plan the planning service returns, as the planner reads it.
    Every field whose presence decides whether a section is drawn is an
    `Option`; a field that is drawn unconditionally is a plain string, where
    an absent value draws as the empty string. */
module PlanSchema {
  import opened Wrappers

  datatype TripPlan = TripPlan(
    itinerary: Option<Itinerary>,
    hotels: Option<seq<Hotel>>,
    flights: Option<seq<Flight>>)

  datatype Itinerary = Itinerary(
    title: string,
    description: string,
    dailyPlans: Option<seq<DayPlan>>)

  datatype DayPlan = DayPlan(
    day: int,
    title: string,
    theme: string,
    activities: Option<seq<Activity>>,
    meals: Option<Meals>)

  datatype Activity = Activity(
    time: string,
    name: string,
    description: string,
    location: Option<Venue>,
    estimatedDuration: Option<string>,
    estimatedCost: Option<string>)

  datatype Venue = Venue(address: string, cuisine: Option<string>, priceRange: string)

  /** The three meal slots of a day, in the order they are listed. */
  datatype MealSlot = Breakfast | Lunch | Dinner

  function SlotOrdinal(s: MealSlot): nat {
    match s
    case Breakfast => 0
    case Lunch => 1
    case Dinner => 2
  }

  /** A meal is either a bare name or a place with a name and maybe an address. */
  datatype MealEntry = PlainMeal(text: string) | PlaceMeal(name: string, address: Option<string>)

  datatype Meals = Meals(
    breakfast: Option<MealEntry>,
    lunch: Option<MealEntry>,
    dinner: Option<MealEntry>)
  {
    function Entry(slot: MealSlot): Option<MealEntry> {
      match slot
      case Breakfast => breakfast
      case Lunch => lunch
      case Dinner => dinner
    }
  }

  /** A hotel offer. `rating` is in tenths of a star (4.6 is 46). */
  datatype Hotel = Hotel(
    name: string,
    location: Option<GeoPoint>,
    address: Option<PostalAddress>,
    price: Option<Price>,
    rating: Option<int>)

  /** Coordinates as already-formatted text ("" when absent). */
  datatype GeoPoint = GeoPoint(latitude: string, longitude: string)

  datatype PostalAddress = PostalAddress(
    lines: Option<seq<string>>,
    cityName: string,
    countryCode: string)

  datatype Price = Price(currency: string, total: string)

  /** A flight offer: its legs (outbound first) and maybe a price. */
  datatype Flight = Flight(itineraries: Option<seq<Leg>>, price: Option<Price>)

  datatype Leg = Leg(duration: string, segments: Option<seq<Segment>>)

  datatype Segment = Segment(
    departure: Endpoint,
    arrival: Endpoint,
    carrier: string,
    flightNumber: string)

  /** An airport and a timestamp as sent ("" when absent). */
  datatype Endpoint = Endpoint(airport: string, time: string)

  /** JavaScript truthiness of an optional text field: absent and "" are both false. */
  predicate Truthy(o: Option<string>) {
    o.Some? && o.value != ""
  }

  /** The elements of an optional array; `xs?.map(...)` on an absent array draws nothing. */
  function Items<T>(o: Option<seq<T>>): seq<T> {
    if o.Some? then o.value else []
  }
}
