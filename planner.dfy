/** The travel planner controller: the form fields, the request lifecycle
    (`isLoading`, `tripData`, `error`), the active tab, and the screen they
    produce. The asynchronous request is split at its first suspension point,
    the `fetch`: `PlanTrip` is the handler up to the request, `FinishPlanTrip`
    what runs when the planning service has answered, with the reading of
    the response body folded into the outcome it is given. */
module Planner {
  import opened Wrappers
  import opened JsText
  import opened TripForm
  import opened PlanSchema
  import opened PlanViews

  /** The result tabs. */
  datatype Tab = ItineraryTab | HotelsTab | FlightsTab

  /** How the planning service answered: a plan; a non-success status whose
      body may carry an `error` field; or a thrown error (the request or the
      parsing of a body failed) with its message. */
  datatype ServiceOutcome =
    | Delivered(plan: TripPlan)
    | Rejected(errorField: Option<string>)
    | Thrown(message: string)

  const FallbackError: string := "Failed to generate trip plan"

  /** The request lifecycle as one value. */
  datatype RequestStatus = Idle | Loading | Succeeded | Errored

  /** The content under the tab bar. */
  datatype TabContent =
    | ItineraryContent(itinerary: Option<ItineraryView>)
    | HotelsContent(hotels: OfferList<HotelCard>)
    | FlightsContent(flights: OfferList<FlightCard>)

  /** What is on screen: the form while there is no plan, the results once
      there is one. */
  datatype Screen =
    | FormScreen(form: FormData, errorBanner: Option<string>, submitDisabled: bool)
    | ResultsScreen(
        destination: string, country: string, days: int,
        checkIn: string, checkOut: string,
        hotelCount: nat, flightCount: nat,
        active: Tab, content: TabContent)

  /** The content a tab draws for a plan. */
  function ContentOf(plan: TripPlan, tab: Tab): (c: TabContent)
    ensures tab == ItineraryTab <==> c.ItineraryContent?
    ensures tab == HotelsTab <==> c.HotelsContent?
    ensures c.ItineraryContent? ==> c.itinerary == RenderItinerary(plan)
    ensures c.HotelsContent? ==> c.hotels == RenderHotels(plan)
    ensures c.FlightsContent? ==> c.flights == RenderFlights(plan)
  {
    match tab
    case ItineraryTab => ItineraryContent(RenderItinerary(plan))
    case HotelsTab => HotelsContent(RenderHotels(plan))
    case FlightsTab => FlightsContent(RenderFlights(plan))
  }

  class TravelPlanner {
    var destination: string
    var country: string
    var days: int
    var budget: string
    var checkIn: string
    var checkOut: string
    var preferences: Preferences
    var isLoading: bool
    var tripData: Option<TripPlan>
    var activeTab: Tab
    var error: Option<string>

    /** While a request is out there is neither a plan nor an error; a plan
        and an error are never held together; without a plan the itinerary
        tab is the active one. */
    ghost predicate Valid()
      reads this
    {
      (isLoading ==> tripData.None? && error.None?)
      && !(tripData.Some? && error.Some?)
      && (tripData.None? ==> activeTab == ItineraryTab)
    }

    /** The form fields as one value. */
    function Form(): FormData
      reads this
    {
      FormData(destination, country, days, budget, checkIn, checkOut, preferences)
    }

    function Status(): RequestStatus
      reads this
    {
      if isLoading then Loading
      else if tripData.Some? then Succeeded
      else if error.Some? then Errored
      else Idle
    }

    /** The whole screen. The error banner shows only a truthy error and the
        submit button is disabled while a request is out. */
    function View(): (r: Screen)
      reads this
      ensures r.FormScreen? <==> tripData.None?
      ensures r.FormScreen? ==>
                r.form == Form() && r.submitDisabled == isLoading
                && (r.errorBanner.Some? <==> error.Some? && error.value != "")
                && (r.errorBanner.Some? ==> r.errorBanner == error)
      ensures r.ResultsScreen? ==>
                r.destination == destination && r.country == country && r.days == days
                && r.checkIn == checkIn && r.checkOut == checkOut
                && r.hotelCount == HotelCount(tripData.value)
                && r.flightCount == FlightCount(tripData.value)
                && r.active == activeTab && r.content == ContentOf(tripData.value, activeTab)
    {
      match tripData
      case None =>
        FormScreen(Form(), if error.Some? && error.value != "" then error else None, isLoading)
      case Some(plan) =>
        ResultsScreen(destination, country, days, checkIn, checkOut,
                      HotelCount(plan), FlightCount(plan), activeTab, ContentOf(plan, activeTab))
    }

    /** The initial state: an empty form with a seven-day trip, no preference
        selected, no request out, no plan, no error, the itinerary tab. */
    constructor ()
      ensures Valid()
      ensures Form() == FormData("", "", 7, "", "", "", NoPreferences)
      ensures !isLoading && tripData.None? && error.None? && activeTab == ItineraryTab
      ensures Status() == Idle
    {
      destination, country, days, budget, checkIn, checkOut := "", "", 7, "", "", "";
      preferences := NoPreferences;
      isLoading, tripData, activeTab, error := false, None, ItineraryTab, None;
    }

    /** Typing in the destination field. */
    method SetDestination(s: string)
      requires Valid() && tripData.None?
      modifies this
      ensures Valid()
      ensures Form() == old(Form()).(destination := s)
      ensures isLoading == old(isLoading) && tripData == old(tripData)
      ensures error == old(error) && activeTab == old(activeTab)
    {
      destination := s;
    }

    /** Typing in the country field. */
    method SetCountry(s: string)
      requires Valid() && tripData.None?
      modifies this
      ensures Valid()
      ensures Form() == old(Form()).(country := s)
      ensures isLoading == old(isLoading) && tripData == old(tripData)
      ensures error == old(error) && activeTab == old(activeTab)
    {
      country := s;
    }

    /** Changing the number of days; `n` is what the number input parsed. */
    method SetDays(n: int)
      requires Valid() && tripData.None?
      modifies this
      ensures Valid()
      ensures Form() == old(Form()).(days := n)
      ensures isLoading == old(isLoading) && tripData == old(tripData)
      ensures error == old(error) && activeTab == old(activeTab)
    {
      days := n;
    }

    /** Typing in the budget field. */
    method SetBudget(s: string)
      requires Valid() && tripData.None?
      modifies this
      ensures Valid()
      ensures Form() == old(Form()).(budget := s)
      ensures isLoading == old(isLoading) && tripData == old(tripData)
      ensures error == old(error) && activeTab == old(activeTab)
    {
      budget := s;
    }

    /** Picking the check-in date. */
    method SetCheckIn(s: string)
      requires Valid() && tripData.None?
      modifies this
      ensures Valid()
      ensures Form() == old(Form()).(checkIn := s)
      ensures isLoading == old(isLoading) && tripData == old(tripData)
      ensures error == old(error) && activeTab == old(activeTab)
    {
      checkIn := s;
    }

    /** Picking the check-out date. */
    method SetCheckOut(s: string)
      requires Valid() && tripData.None?
      modifies this
      ensures Valid()
      ensures Form() == old(Form()).(checkOut := s)
      ensures isLoading == old(isLoading) && tripData == old(tripData)
      ensures error == old(error) && activeTab == old(activeTab)
    {
      checkOut := s;
    }

    /** A preference button: flips exactly flag `k`; every other flag and
        every other field keeps its value. */
    method TogglePreference(k: PreferenceKind)
      requires Valid() && tripData.None?
      modifies this
      ensures Valid()
      ensures preferences.Get(k) == !old(preferences).Get(k)
      ensures forall j :: j != k ==> preferences.Get(j) == old(preferences).Get(j)
      ensures Form() == old(Form()).(preferences := old(preferences).Toggle(k))
      ensures isLoading == old(isLoading) && tripData == old(tripData)
      ensures error == old(error) && activeTab == old(activeTab)
    {
      preferences := preferences.Toggle(k);
    }

    /** Submitting the form, up to the request. The form exists only while
        there is no plan, and its submit button is disabled while a request
        is out. A blank destination, then a day count outside [1, 30], is
        refused and changes nothing; otherwise the request is issued with
        the loading flag set and the error cleared. The previous plan is not
        touched here. */
    method PlanTrip() returns (sent: Result<TripRequest, ValidationError>)
      requires Valid() && tripData.None? && !isLoading
      modifies this
      ensures Valid()
      ensures sent == Validate(old(Form()))
      ensures Form() == old(Form()) && tripData == old(tripData) && activeTab == old(activeTab)
      ensures sent.Err? ==> isLoading == old(isLoading) && error == old(error)
      ensures sent.Ok? ==> isLoading && error.None? && Status() == Loading
    {
      if Trim(destination) == [] {
        return Err(EmptyDestination);
      }
      if days < MinDays || days > MaxDays {
        return Err(InvalidDuration);
      }
      isLoading := true;
      error := None;
      sent := Ok(TripRequest(destination, country, days, budget, checkIn, checkOut,
                             WireNames(Selected(preferences))));
    }

    /** The planning service has answered the request that is out. A plan is
        stored; a refusal stores the body's `error` field when it is truthy
        and the fallback message otherwise; a thrown error stores its
        message. In every case the loading flag is cleared afterwards. */
    method FinishPlanTrip(outcome: ServiceOutcome)
      requires Valid() && isLoading
      modifies this
      ensures Valid()
      ensures !isLoading
      ensures Form() == old(Form())
      ensures outcome.Delivered? ==>
                tripData == Some(outcome.plan) && error.None?
                && activeTab == ItineraryTab && Status() == Succeeded
      ensures !outcome.Delivered? ==> tripData.None? && error.Some? && Status() == Errored
      ensures outcome.Rejected? && Truthy(outcome.errorField) ==> error == outcome.errorField
      ensures outcome.Rejected? && !Truthy(outcome.errorField) ==> error == Some(FallbackError)
      ensures outcome.Thrown? ==> error == Some(outcome.message)
    {
      match outcome {
        case Delivered(plan) =>
          tripData := Some(plan);
        case Rejected(field) =>
          var message := if Truthy(field) then field.value else FallbackError;
          error := Some(message);
        case Thrown(message) =>
          error := Some(message);
      }
      isLoading := false;
    }

    /** "Plan New Trip": drops the plan and goes back to the itinerary tab;
        the form keeps what was typed. */
    method PlanNewTrip()
      requires Valid() && tripData.Some?
      modifies this
      ensures Valid()
      ensures tripData.None? && activeTab == ItineraryTab
      ensures Form() == old(Form()) && isLoading == old(isLoading) && error == old(error)
      ensures Status() == Idle
      ensures View() == FormScreen(Form(), None, false)
    {
      tripData := None;
      activeTab := ItineraryTab;
    }

    /** A tab button: that tab becomes the active one and draws its content;
        choosing the tab that is already active changes nothing on screen. */
    method SelectTab(t: Tab)
      requires Valid() && tripData.Some?
      modifies this
      ensures Valid()
      ensures activeTab == t
      ensures Form() == old(Form()) && isLoading == old(isLoading)
      ensures tripData == old(tripData) && error == old(error)
      ensures View().ResultsScreen? && View().active == t
      ensures View().content == ContentOf(tripData.value, t)
      ensures old(activeTab) == t ==> View() == old(View())
    {
      activeTab := t;
    }
  }
}

/** A whole session driven only through the contracts above: fill in Tokyo,
    Japan, seven days and the food preference, submit, receive a plan with one
    day. The request carries exactly the food preference, the plan is held,
    the itinerary tab is active and draws exactly one day. */
module Session {
  import opened Wrappers
  import opened TripForm
  import opened PlanSchema
  import opened PlanViews
  import opened Planner

  /** With only the food flag set, the request lists just "food". */
  lemma FoodOnly()
    ensures WireNames(Selected(NoPreferences.Toggle(Food))) == ["food"]
  {
    var p := NoPreferences.Toggle(Food);
    var order := DeclarationOrder;
    assert SelectedFrom(p, order[5..]) == [];
    assert SelectedFrom(p, order[4..]) == [];
    assert SelectedFrom(p, order[3..]) == [Food];
    assert SelectedFrom(p, order[2..]) == [Food];
    assert SelectedFrom(p, order[1..]) == [Food];
    assert Selected(p) == [Food];
  }

  method TokyoTrip(plan: TripPlan) returns (sent: Result<TripRequest, ValidationError>, screen: Screen)
    requires plan.itinerary.Some? && |Items(plan.itinerary.value.dailyPlans)| == 1
    ensures sent == Ok(TripRequest("Tokyo", "Japan", 7, "", "", "", ["food"]))
    ensures screen.ResultsScreen? && screen.destination == "Tokyo" && screen.active == ItineraryTab
    ensures screen.content.ItineraryContent? && screen.content.itinerary.Some?
    ensures |screen.content.itinerary.value.days| == 1
  {
    var app := new TravelPlanner();
    app.SetDestination("Tokyo");
    app.SetCountry("Japan");
    app.TogglePreference(Food);
    assert !JsText.IsTrimmable('T');
    FoodOnly();
    sent := app.PlanTrip();
    app.FinishPlanTrip(Delivered(plan));
    screen := app.View();
  }
}
