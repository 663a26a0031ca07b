/** What the three result tabs draw from a trip plan: pure projections that
    keep the count and order of every list and omit every section whose
    data is absent. Markup and styling are not modelled; each view keeps
    the texts and the structure. */
module PlanViews {
  import opened Wrappers
  import opened JsText
  import opened PlanSchema

  /** `xs.map(f)`: one result per element, in the same order. */
  function Map<A, B>(f: A -> B, xs: seq<A>): (r: seq<B>)
    ensures |r| == |xs|
    ensures forall i :: 0 <= i < |xs| ==> r[i] == f(xs[i])
  {
    if xs == [] then [] else [f(xs[0])] + Map(f, xs[1..])
  }

  /** `{field && <line>}` for a text field: the line is drawn, with the
      field's text, exactly when the field is truthy. */
  function Shown(field: Option<string>): (r: Option<string>)
    ensures r.Some? <==> Truthy(field)
    ensures r.Some? ==> r == field
  {
    if Truthy(field) then field else None
  }

  // ---------------------------------------------------------------- itinerary

  /** The cuisine line under a restaurant venue. */
  datatype CuisineLine = CuisineLine(cuisine: string, priceRange: string)

  /** The location box of an activity. */
  datatype VenueBox = VenueBox(venueName: Option<string>, address: string, cuisine: Option<CuisineLine>)

  datatype ActivityCard = ActivityCard(
    time: string,
    name: string,
    description: string,
    venue: Option<VenueBox>,
    duration: Option<string>,
    cost: Option<string>)

  /** One activity: the location box only when a location is given, the venue
      name and cuisine line only for a venue with a cuisine, and the
      duration and cost lines only when those fields are truthy. */
  function ActivityCardOf(a: Activity): (c: ActivityCard)
    ensures c.time == a.time && c.name == a.name && c.description == a.description
    ensures c.venue.Some? <==> a.location.Some?
    ensures c.venue.Some? ==> c.venue.value.address == a.location.value.address
    ensures c.venue.Some? ==>
              (c.venue.value.venueName.Some? <==> Truthy(a.location.value.cuisine))
              && (c.venue.value.cuisine.Some? <==> Truthy(a.location.value.cuisine))
    ensures c.venue.Some? && c.venue.value.cuisine.Some? ==>
              c.venue.value.venueName == Some(a.name)
              && c.venue.value.cuisine.value
                 == CuisineLine(a.location.value.cuisine.value, a.location.value.priceRange)
    ensures c.duration.Some? <==> Truthy(a.estimatedDuration)
    ensures c.duration.Some? ==> c.duration == a.estimatedDuration
    ensures c.cost.Some? <==> Truthy(a.estimatedCost)
    ensures c.cost.Some? ==> c.cost == a.estimatedCost
  {
    var venue :=
      match a.location
      case None => None
      case Some(v) =>
        var restaurant := Truthy(v.cuisine);
        Some(VenueBox(
          if restaurant then Some(a.name) else None,
          v.address,
          if restaurant then Some(CuisineLine(v.cuisine.value, v.priceRange)) else None));
    ActivityCard(a.time, a.name, a.description, venue,
                 Shown(a.estimatedDuration), Shown(a.estimatedCost))
  }

  /** The location pin drawn before the lunch and dinner addresses. */
  const Pin: string := "\U{1F4CD} "

  /** One row of the dining summary. */
  datatype MealRow = MealRow(slot: MealSlot, name: string, addressLine: Option<string>)

  /** The row for one meal slot. A missing meal or an empty bare name draws
      no row. A bare name draws as the name with no address line. A place
      draws its name, and an address line when its address is truthy; the
      breakfast address is drawn as it is, lunch and dinner addresses after
      a pin. */
  function MealRowOf(slot: MealSlot, meal: Option<MealEntry>): (r: Option<MealRow>)
    ensures r.None? <==> meal.None? || meal.value == PlainMeal("")
    ensures r.Some? ==> r.value.slot == slot
    ensures r.Some? && meal.value.PlainMeal? ==>
              r.value.name == meal.value.text && r.value.addressLine.None?
    ensures r.Some? && meal.value.PlaceMeal? ==>
              r.value.name == meal.value.name
              && (r.value.addressLine.Some? <==> Truthy(meal.value.address))
    ensures r.Some? && r.value.addressLine.Some? ==>
              r.value.addressLine.value
              == (if slot == Breakfast then "" else Pin) + meal.value.address.value
  {
    match meal
    case None => None
    case Some(PlainMeal(text)) =>
      if text == "" then None else Some(MealRow(slot, text, None))
    case Some(PlaceMeal(name, address)) =>
      var line :=
        if !Truthy(address) then None
        else if slot == Breakfast then Some(address.value)
        else Some(Pin + address.value);
      Some(MealRow(slot, name, line))
  }

  function RowsOf(r: Option<MealRow>): seq<MealRow> {
    if r.Some? then [r.value] else []
  }

  /** The dining summary: breakfast, lunch and dinner rows, each drawn only
      when its meal is, each at most once and in that order. */
  function DiningRows(m: Meals): (rows: seq<MealRow>)
    ensures |rows| <= 3
    ensures forall i, j :: 0 <= i < j < |rows| ==> SlotOrdinal(rows[i].slot) < SlotOrdinal(rows[j].slot)
    ensures forall slot :: MealRowOf(slot, m.Entry(slot)).Some? ==>
              MealRowOf(slot, m.Entry(slot)).value in rows
    ensures forall row :: row in rows ==> MealRowOf(row.slot, m.Entry(row.slot)) == Some(row)
  {
    RowsOf(MealRowOf(Breakfast, m.breakfast))
    + RowsOf(MealRowOf(Lunch, m.lunch))
    + RowsOf(MealRowOf(Dinner, m.dinner))
  }

  datatype DayCard = DayCard(
    day: int,
    title: string,
    theme: string,
    activities: seq<ActivityCard>,
    dining: Option<seq<MealRow>>)

  /** One day: its activities in order, then the dining summary exactly when
      the day has a `meals` object (even if none of its meals draws a row). */
  function DayCardOf(d: DayPlan): (c: DayCard)
    ensures c.day == d.day && c.title == d.title && c.theme == d.theme
    ensures |c.activities| == |Items(d.activities)|
    ensures forall i :: 0 <= i < |c.activities| ==>
              c.activities[i] == ActivityCardOf(Items(d.activities)[i])
    ensures c.dining.Some? <==> d.meals.Some?
    ensures c.dining.Some? ==> c.dining.value == DiningRows(d.meals.value)
  {
    DayCard(d.day, d.title, d.theme,
            Map(ActivityCardOf, Items(d.activities)),
            if d.meals.Some? then Some(DiningRows(d.meals.value)) else None)
  }

  datatype ItineraryView = ItineraryView(title: string, description: string, days: seq<DayCard>)

  /** The itinerary tab: nothing without an itinerary, otherwise its header
      and one card per daily plan, in order. */
  function RenderItinerary(plan: TripPlan): (v: Option<ItineraryView>)
    ensures v.Some? <==> plan.itinerary.Some?
    ensures v.Some? ==> v.value.title == plan.itinerary.value.title
                        && v.value.description == plan.itinerary.value.description
    ensures v.Some? ==> |v.value.days| == |Items(plan.itinerary.value.dailyPlans)|
    ensures v.Some? ==> forall i :: 0 <= i < |v.value.days| ==>
              v.value.days[i] == DayCardOf(Items(plan.itinerary.value.dailyPlans)[i])
  {
    match plan.itinerary
    case None => None
    case Some(it) =>
      Some(ItineraryView(it.title, it.description, Map(DayCardOf, Items(it.dailyPlans))))
  }

  // ---------------------------------------------------------------- offers

  /** A list of offers: either the empty-state message or one card per offer. */
  datatype OfferList<T> = EmptyState(message: string) | Cards(cards: seq<T>)

  const NoHotelsMessage: string := "No hotel recommendations available"
  const NoFlightsMessage: string := "No flight options available"

  /** The number on the hotels tab: `hotels?.length || 0`. */
  function HotelCount(plan: TripPlan): (n: nat)
    ensures plan.hotels.None? ==> n == 0
    ensures plan.hotels.Some? ==> n == |plan.hotels.value|
  {
    |Items(plan.hotels)|
  }

  /** The number on the flights tab: `flights?.length || 0`. */
  function FlightCount(plan: TripPlan): (n: nat)
    ensures plan.flights.None? ==> n == 0
    ensures plan.flights.Some? ==> n == |plan.flights.value|
  {
    |Items(plan.flights)|
  }

  // ---------------------------------------------------------------- hotels

  /** `Math.round` of a rating given in tenths: the nearest whole number,
      halves rounded up. */
  function RoundTenths(tenths: int): (n: int)
    ensures 10 * n - 5 <= tenths < 10 * n + 5
  {
    (tenths + 5) / 10
  }

  const StarCount := 5

  function CountFilled(stars: seq<bool>): nat {
    if stars == [] then 0 else (if stars[0] then 1 else 0) + CountFilled(stars[1..])
  }

  function Clamp(lo: int, hi: int, n: int): int {
    if n < lo then lo else if n > hi then hi else n
  }

  /** A row of stars whose star `i` is filled exactly when `i < n` has
      `n` filled stars, clamped to the length of the row. */
  lemma {:induction false} CountFilledBelow(stars: seq<bool>, n: int)
    requires forall i :: 0 <= i < |stars| ==> (stars[i] <==> i < n)
    ensures CountFilled(stars) == Clamp(0, |stars|, n)
  {
    if stars != [] {
      forall i | 0 <= i < |stars[1..]| ensures stars[1..][i] <==> i < n - 1 {
        assert stars[1..][i] == stars[i + 1];
      }
      CountFilledBelow(stars[1..], n - 1);
    }
  }

  /** The five stars of a rating rounded to `n`: star `i` is filled exactly
      when `i < n`, so the filled stars come first and there are
      `min(5, max(0, n))` of them. */
  function StarRow(n: int): (stars: seq<bool>)
    ensures |stars| == StarCount
    ensures forall i :: 0 <= i < StarCount ==> (stars[i] <==> i < n)
    ensures CountFilled(stars) == Clamp(0, StarCount, n)
  {
    var stars := seq(StarCount, i => i < n);
    CountFilledBelow(stars, n);
    stars
  }

  datatype AddressBlock = AddressBlock(street: string, cityName: string, countryCode: string)

  /** The rating block: the five stars and the raw rating, in tenths. */
  datatype RatingBlock = RatingBlock(stars: seq<bool>, tenths: int)

  /** What `{hotel.rating && (...)}` draws: nothing for an absent rating,
      the bare text "0" for a rating of 0 (the falsy number itself is
      rendered), and the rating block otherwise. */
  datatype RatingSlot = NoRating | ZeroText | Rated(block: RatingBlock)

  datatype HotelCard = HotelCard(
    name: string,
    coordinates: Option<GeoPoint>,
    address: Option<AddressBlock>,
    price: Option<Price>,
    rating: RatingSlot)

  /** One hotel: the coordinate line whenever a location object is given,
      the address block with its lines joined by ", ", the nightly price when
      given, the text "0" for a rating of 0, and the rating block for any
      other present rating, whose stars fill the rounded rating clamped to
      [0, 5]. */
  function HotelCardOf(h: Hotel): (c: HotelCard)
    ensures c.name == h.name
    ensures c.coordinates == h.location
    ensures c.address.Some? <==> h.address.Some?
    ensures c.address.Some? ==>
              c.address.value == AddressBlock(JoinWithComma(Items(h.address.value.lines)),
                                              h.address.value.cityName, h.address.value.countryCode)
    ensures c.price == h.price
    ensures c.rating == NoRating <==> h.rating.None?
    ensures c.rating == ZeroText <==> h.rating == Some(0)
    ensures c.rating.Rated? <==> h.rating.Some? && h.rating.value != 0
    ensures c.rating.Rated? ==>
              c.rating.block.tenths == h.rating.value
              && |c.rating.block.stars| == StarCount
              && CountFilled(c.rating.block.stars) == Clamp(0, StarCount, RoundTenths(h.rating.value))
              && forall i :: 0 <= i < StarCount ==>
                   (c.rating.block.stars[i] <==> i < RoundTenths(h.rating.value))
  {
    var address :=
      match h.address
      case None => None
      case Some(a) => Some(AddressBlock(JoinWithComma(Items(a.lines)), a.cityName, a.countryCode));
    var rating :=
      match h.rating
      case None => NoRating
      case Some(t) => if t == 0 then ZeroText else Rated(RatingBlock(StarRow(RoundTenths(t)), t));
    HotelCard(h.name, h.location, address, h.price, rating)
  }

  /** The hotels tab: the empty-state message exactly when the tab's count
      is zero, otherwise one card per hotel in order. */
  function RenderHotels(plan: TripPlan): (v: OfferList<HotelCard>)
    ensures v.EmptyState? <==> HotelCount(plan) == 0
    ensures v.EmptyState? ==> v.message == NoHotelsMessage
    ensures v.Cards? ==> |v.cards| == HotelCount(plan)
    ensures v.Cards? ==> forall i :: 0 <= i < |v.cards| ==>
              v.cards[i] == HotelCardOf(plan.hotels.value[i])
  {
    if HotelCount(plan) == 0 then EmptyState(NoHotelsMessage)
    else Cards(Map(HotelCardOf, plan.hotels.value))
  }

  // ---------------------------------------------------------------- flights

  /** The badge of a leg. */
  datatype LegLabel = Outbound | Return

  /** A segment row, left to right: departure, carrier and flight number,
      arrival. Timestamps are kept as sent. */
  datatype SegmentRow = SegmentRow(
    fromAirport: string, departs: string,
    carrier: string, flightNumber: string,
    toAirport: string, arrives: string)

  datatype LegBlock = LegBlock(badge: LegLabel, duration: string, segments: seq<SegmentRow>)

  datatype FlightCard = FlightCard(legs: seq<LegBlock>, price: Option<Price>)

  /** A segment row: the departure airport and time on the left, carrier and
      flight number in the middle, the arrival airport and time on the right. */
  function SegmentRowOf(s: Segment): (r: SegmentRow)
    ensures r.fromAirport == s.departure.airport && r.departs == s.departure.time
    ensures r.toAirport == s.arrival.airport && r.arrives == s.arrival.time
    ensures r.carrier == s.carrier && r.flightNumber == s.flightNumber
  {
    SegmentRow(s.departure.airport, s.departure.time, s.carrier, s.flightNumber,
               s.arrival.airport, s.arrival.time)
  }

  /** The legs of a flight, the first of them at index `first` of the flight's
      itineraries: index 0 is the outbound leg, every later one a return leg. */
  function LegBlocks(legs: seq<Leg>, first: nat): (r: seq<LegBlock>)
    ensures |r| == |legs|
    ensures forall i :: 0 <= i < |legs| ==>
              r[i].badge == (if first + i == 0 then Outbound else Return)
              && r[i].duration == legs[i].duration
              && r[i].segments == Map(SegmentRowOf, Items(legs[i].segments))
  {
    if legs == [] then []
    else
      var badge := if first == 0 then Outbound else Return;
      [LegBlock(badge, legs[0].duration, Map(SegmentRowOf, Items(legs[0].segments)))]
      + LegBlocks(legs[1..], first + 1)
  }

  /** One flight: one block per leg in order, the first labelled Outbound and
      every other Return, each listing its segments in order; the price only
      when given. */
  function FlightCardOf(f: Flight): (c: FlightCard)
    ensures |c.legs| == |Items(f.itineraries)|
    ensures forall i :: 0 <= i < |c.legs| ==> c.legs[i].badge == (if i == 0 then Outbound else Return)
    ensures forall i :: 0 <= i < |c.legs| ==>
              c.legs[i].duration == Items(f.itineraries)[i].duration
              && |c.legs[i].segments| == |Items(Items(f.itineraries)[i].segments)|
    ensures forall i, j :: 0 <= i < |c.legs| && 0 <= j < |c.legs[i].segments| ==>
              c.legs[i].segments[j] == SegmentRowOf(Items(Items(f.itineraries)[i].segments)[j])
    ensures c.price == f.price
  {
    FlightCard(LegBlocks(Items(f.itineraries), 0), f.price)
  }

  /** The flights tab: the empty-state message exactly when the tab's count
      is zero, otherwise one card per flight in order. */
  function RenderFlights(plan: TripPlan): (v: OfferList<FlightCard>)
    ensures v.EmptyState? <==> FlightCount(plan) == 0
    ensures v.EmptyState? ==> v.message == NoFlightsMessage
    ensures v.Cards? ==> |v.cards| == FlightCount(plan)
    ensures v.Cards? ==> forall i :: 0 <= i < |v.cards| ==>
              v.cards[i] == FlightCardOf(plan.flights.value[i])
  {
    if FlightCount(plan) == 0 then EmptyState(NoFlightsMessage)
    else Cards(Map(FlightCardOf, plan.flights.value))
  }
}
