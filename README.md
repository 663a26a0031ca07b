# Travel planner controller, modelled in Dafny

This project models the client-side trip planner of the travel site: the
React component in `components/TravelPlanner.jsx`. The component collects a
destination, country, number of days, budget, dates and six travel
preferences. It refuses a blank destination or a day count outside 1..30,
posts the request to the planning service and tracks the request with
`isLoading`, `tripData` and `error`. It then shows the returned plan in three
tabs: itinerary, hotels and flights.

The model has six modules:

- `Wrappers` (`wrappers.dfy`): `Option` and `Result`.
- `JsText` (`js_text.dfy`): `String.prototype.trim`, with ECMAScript's whitespace and line terminators, and `join(", ")`.
- `TripForm` (`trip_form.dfy`): the preference flags and the toggle, the form snapshot, the submit gate `Validate` and the request's `preferences` list.
- `PlanSchema` (`plan_schema.dfy`): the trip plan returned by the service. A field whose presence decides whether a section is drawn is an `Option`. A field drawn unconditionally is a string, and an absent value draws as `""`. Meals are a tagged variant: a bare name or a place.
- `PlanViews` (`plan_views.dfy`): the three tab renderers as pure functions.
- `Planner` (`planner.dfy`): the class `TravelPlanner`, which holds the component's state fields. Its methods are the event handlers. `View()` is what the component draws. `Session` is a client that drives a whole session through the contracts alone.

`handlePlanTrip` is split at its first `await`, the `fetch` at `components/TravelPlanner.jsx:53`. `PlanTrip` is the handler up to the request and returns the request it would post. `FinishPlanTrip` is the rest: the `try`/`catch`/`finally` that runs when the service answers, with the answer passed in as a `ServiceOutcome`. The later `response.json()` awaits (`:68`, `:72`) are folded into `ServiceOutcome`: a body that fails to parse is `Thrown`.

The class invariant `Valid()` says three things:
- while a request is out there is neither a plan nor an error;
- a plan and an error are never held together;
- without a plan the itinerary tab is active.

Every method keeps `Valid()`.

A handler's precondition says which controls are on screen when it can run. The form, with its fields, preference buttons and submit button, exists only while there is no plan. The tab buttons and "Plan New Trip" exist only while there is one. The submit button is disabled while a request is out.

Three behaviours of the code worth stating plainly:
- A hotel's coordinate line is drawn whenever a `location` object is present, even when latitude or longitude is missing (`components/TravelPlanner.jsx:253-257`).
- The handler does not check `isLoading`. Only the disabled submit button (`:541`) prevents a second submit, so "not loading" is a precondition of `PlanTrip`.
- `preferences` is sent as a list of property names in declaration order.

## Model

| member | source | states |
|---|---|---|
| `JsText.Trim` | components/TravelPlanner.jsx:39 | `trim()` returns the slice of `s` left after removing a blank prefix and a blank suffix. The slice neither starts nor ends with whitespace. It is empty exactly when every character is ECMAScript whitespace or a line terminator. |
| `JsText.JoinWithComma` | components/TravelPlanner.jsx:262 | `lines.join(", ")` is `""` for no lines and the line itself for one line. Otherwise it starts with the first line and is as long as all lines plus two separator characters between each pair. |
| `JsText.JoinSnoc` | components/TravelPlanner.jsx:262 | Joining one more line appends ", " and that line. So the separator sits between every pair of neighbouring lines and the lines keep their order. |
| `TripForm.Preferences.Toggle` | components/TravelPlanner.jsx:29-34 | Toggling `k` flips flag `k`. Every other flag keeps its value. |
| `TripForm.ToggleTwice` | components/TravelPlanner.jsx:29-34 | Toggling the same preference twice restores the flags. |
| `TripForm.KeyInjective` | components/TravelPlanner.jsx:14-21 | Different preference kinds have different property names. |
| `TripForm.WireNames` | components/TravelPlanner.jsx:63 | The posted names are one property name per kind, in the same order. A kind's name is present iff the kind is, and distinct kinds give distinct names. |
| `TripForm.SelectedFrom` | components/TravelPlanner.jsx:63 | The filter keeps exactly the listed kinds whose flag is set. For a list in declaration order, the result is in declaration order too. |
| `TripForm.Selected` | components/TravelPlanner.jsx:63 | The request's `preferences` contains a kind iff its flag is set. The kinds appear in declaration order (adventure, relaxation, culture, food, nature, shopping), and none appears twice. |
| `TripForm.Validate` | components/TravelPlanner.jsx:39-64 | The gate fails with `EmptyDestination` iff the destination is blank. It fails with `InvalidDuration` iff the destination is not blank and days is outside [1, 30]. Otherwise it succeeds with the fields unchanged (destination untrimmed). Its `preferences` are the names of the selected kinds in declaration order: a kind's name appears iff its flag is set, and no name appears twice. |
| `TripForm.ValidationError.Message` | components/TravelPlanner.jsx:39-47 | A blank destination is notified as "Please enter a destination" (`:40`). A day count out of range is notified as "Trip duration must be between 1 and 30 days" (`:45`). Each text goes with its refusal only, so the two notifications can be told apart. |
| `PlanViews.Map` | components/TravelPlanner.jsx:248 | `xs.map(f)` gives one result per element, in order. |
| `PlanViews.Shown` | components/TravelPlanner.jsx:147-156 | An optional text line is drawn, with the field's text, exactly when the field is truthy. |
| `PlanViews.ActivityCardOf` | components/TravelPlanner.jsx:107-161 | An activity has a location box iff it has a location. The box shows the venue name and the cuisine line iff the cuisine is truthy. The duration and cost lines appear iff those fields are truthy. |
| `PlanViews.MealRowOf` | components/TravelPlanner.jsx:168-221 | A missing meal or an empty bare name draws no row. A bare name draws as the name with no address line. A place draws its name, plus an address line iff its address is truthy. Only lunch and dinner addresses carry the pin prefix. |
| `PlanViews.DiningRows` | components/TravelPlanner.jsx:164-227 | The dining summary has at most three rows, in breakfast, lunch, dinner order. It has a row for a slot exactly when that slot's meal draws one. |
| `PlanViews.DayCardOf` | components/TravelPlanner.jsx:98-230 | A day draws one activity card per activity, in order. It has a dining summary iff it has a `meals` object. |
| `PlanViews.RenderItinerary` | components/TravelPlanner.jsx:84-233 | The itinerary tab draws nothing without an itinerary. Otherwise it draws the header and one day card per daily plan, in order. |
| `PlanViews.RoundTenths` | components/TravelPlanner.jsx:286 | `Math.round` of a rating in tenths gives the nearest integer, with halves rounded up. |
| `PlanViews.CountFilledBelow` | components/TravelPlanner.jsx:281-289 | A star row whose star `i` is filled iff `i < n` has `n` filled stars, clamped to the row's length. |
| `PlanViews.StarRow` | components/TravelPlanner.jsx:281-291 | There are five stars. Star `i` is filled iff `i < round(rating)`, so `min(5, max(0, round(rating)))` stars are filled. |
| `PlanViews.HotelCardOf` | components/TravelPlanner.jsx:248-300 | A hotel card has the coordinate line iff a location is given, and the address block iff an address is given, with lines joined by ", ". It has the price iff a price is given. The rating slot is empty for an absent rating and the bare text "0" for a rating of 0. For any other rating it is the rating block, with the filled stars described above. |
| `PlanViews.RenderHotels` | components/TravelPlanner.jsx:235-303 | The hotels tab shows only "No hotel recommendations available" iff the tab count (the hotel array's length, 0 when absent) is 0. Otherwise it shows one card per hotel, in order. |
| `PlanViews.HotelCount` | components/TravelPlanner.jsx:597 | The number on the hotels tab is the hotel array's length, or 0 when it is absent. |
| `PlanViews.LegBlocks` | components/TravelPlanner.jsx:321-376 | There is one block per leg. The leg at index 0 is labelled Outbound and every later leg Return. Segments keep their order. |
| `PlanViews.SegmentRowOf` | components/TravelPlanner.jsx:332-374 | A segment row shows the departure airport and time, the carrier and flight number, and the arrival airport and time. |
| `PlanViews.FlightCardOf` | components/TravelPlanner.jsx:316-394 | A flight card has one block per itinerary leg. The first is Outbound and the others are Return. Each leg lists its segments in array order. The price appears iff it is given. |
| `PlanViews.RenderFlights` | components/TravelPlanner.jsx:305-397 | The flights tab shows only "No flight options available" iff the tab count is 0. Otherwise it shows one card per flight, in order. |
| `PlanViews.FlightCount` | components/TravelPlanner.jsx:605 | The number on the flights tab is the flight array's length, or 0 when it is absent. |
| `Planner.ContentOf` | components/TravelPlanner.jsx:609-614 | Each tab draws exactly its own renderer's output. |
| `Planner.TravelPlanner.View` | components/TravelPlanner.jsx:399-616 | The form is shown iff there is no plan. On the form, the error banner appears iff the error is a non-empty text and shows that text, and submit is disabled iff a request is out. The results screen shows the form's destination, country, days and dates, the two tab counts, the active tab and that tab's content. |
| `Planner.TravelPlanner.constructor` | components/TravelPlanner.jsx:8-27 | The initial state is an empty form with 7 days and no preferences. It is not loading and holds no plan and no error. The itinerary tab is active. |
| `Planner.TravelPlanner.SetDestination` | components/TravelPlanner.jsx:431 | Changes only the destination. |
| `Planner.TravelPlanner.SetCountry` | components/TravelPlanner.jsx:445 | Changes only the country. |
| `Planner.TravelPlanner.SetDays` | components/TravelPlanner.jsx:461 | Changes only the day count. |
| `Planner.TravelPlanner.SetBudget` | components/TravelPlanner.jsx:477 | Changes only the budget. |
| `Planner.TravelPlanner.SetCheckIn` | components/TravelPlanner.jsx:491 | Changes only the check-in date. |
| `Planner.TravelPlanner.SetCheckOut` | components/TravelPlanner.jsx:505 | Changes only the check-out date. |
| `Planner.TravelPlanner.TogglePreference` | components/TravelPlanner.jsx:517-528 | Flips exactly flag `k`. Nothing else changes. |
| `Planner.TravelPlanner.PlanTrip` | components/TravelPlanner.jsx:36-65 | Returns `Validate` of the form. A refusal leaves the loading flag, the error and the plan unchanged and issues no request. An accepted submit sets loading, clears the error and keeps the plan and the tab. |
| `Planner.TravelPlanner.FinishPlanTrip` | components/TravelPlanner.jsx:66-81 | Loading is cleared in every outcome. A plan is stored with no error and the itinerary tab active. A refusal stores the truthy `error` field or else "Failed to generate trip plan". A thrown error stores its message. After any failure the plan stays absent. |
| `Planner.TravelPlanner.PlanNewTrip` | components/TravelPlanner.jsx:571-574 | Clears the plan and resets the tab to itinerary. The form keeps its values, and the screen is the form with no error banner and an enabled submit. |
| `Planner.TravelPlanner.SelectTab` | components/TravelPlanner.jsx:583-606 | Sets the active tab to exactly `t`, and the screen shows `t`'s content. Re-selecting the active tab leaves the screen unchanged. |
| `Session.FoodOnly` | components/TravelPlanner.jsx:63 | With only the food flag set, `preferences` is `["food"]`. |
| `Session.TokyoTrip` | components/TravelPlanner.jsx:36-82 | Submitting Tokyo, Japan, 7 days and food, then receiving a one-day plan, posts exactly that request with `preferences` `["food"]`. It ends on the results screen with the itinerary tab active and exactly one day card. |

## Left out

- The `fetch` call, JSON encoding and decoding, `toast` notifications and `console.error` are not modelled. The service's answer is an input (`ServiceOutcome`) and notifications are no-ops. The texts of the two refusal notifications are kept as `ValidationError.Message`.
- `FinishPlanTrip` requires a request to be out, and this excludes nothing the code can do. While a request is out there is no plan, so only the form is drawn (`:413`). Its submit is disabled (`:541`), and there are no tab or "Plan New Trip" buttons (`:558`). Only field edits and preference toggles can happen, and the answer writes none of those fields. So every answer arrives with `isLoading` set.
- An answer's one late effect is modelled: the results header (`:563-568`) shows the fields as they were edited while the request was out, not the values that were sent. The `Set*` methods are allowed while loading, and `View` draws the current fields.
- The browser's own constraint checks are not modelled: the `required` and `min`/`max` attributes of the destination and days inputs. The model is the handler's checks only.
- `parseInt` can produce `NaN` for the days field, and `NaN` passes the range check. Days is modelled as an integer, so this case is out of scope.
- Number and date formatting is not modelled. Coordinates (`toFixed(4)`) are kept as already-formatted text. Segment times (`new Date(...).toLocaleString()`, which draws "Invalid Date" for a missing time) are kept as sent.
- `PlanViews.HotelCardOf`: ratings are integer tenths of a star, so a rating with a finer fraction is not modelled. The rating's "(x/5)" label keeps the number, not its printed form.
- The day number is modelled as an integer. The price total, estimated cost and estimated duration are modelled as the text they draw as, so a numeric 0 cost or duration, which would be drawn as the text "0", is not modelled. A rating of 0 is modelled.
- A successful answer whose body is `null` is not modelled: `Delivered` always carries a plan. A non-text truthy `error` field in a refusal is not modelled either.
- Markup, CSS classes and emoji are not modelled. The one exception is the pin drawn before lunch and dinner addresses but not breakfast addresses. The "View Details" and "Book Flight" buttons have no handlers and are not modelled. The `userId` property is unused.
- `agentic-service/main.py`, `agentic-service/test_daily_plans.py` and `agentic-service/agents/__init__.py` are not part of this model. They are an HTTP wrapper and a script around a planner whose source is not available.
