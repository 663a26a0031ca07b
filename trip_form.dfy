/** The planning form: the six travel-preference flags, a snapshot of the
    form fields, the submit gate and the request it produces. */
module TripForm {
  import opened Wrappers
  import opened JsText

  /** The keys of the preference object, in the order they are declared. */
  datatype PreferenceKind = Adventure | Relaxation | Culture | Food | Nature | Shopping

  /** Position of a kind in the declaration order of the preference object. */
  function Ordinal(k: PreferenceKind): nat {
    match k
    case Adventure => 0
    case Relaxation => 1
    case Culture => 2
    case Food => 3
    case Nature => 4
    case Shopping => 5
  }

  /** The property name under which the kind is stored and sent. */
  function Key(k: PreferenceKind): string {
    match k
    case Adventure => "adventure"
    case Relaxation => "relaxation"
    case Culture => "culture"
    case Food => "food"
    case Nature => "nature"
    case Shopping => "shopping"
  }

  /** Different kinds are posted under different names. */
  lemma KeyInjective(a: PreferenceKind, b: PreferenceKind)
    requires Key(a) == Key(b)
    ensures a == b
  {
    assert |Key(a)| == |Key(b)|;
  }

  /** The names posted for a list of kinds, one per kind and in the same
      order; a name is in the result exactly when its kind is in the list. */
  function WireNames(ks: seq<PreferenceKind>): (r: seq<string>)
    ensures |r| == |ks|
    ensures forall i :: 0 <= i < |ks| ==> r[i] == Key(ks[i])
    ensures forall k :: Key(k) in r <==> k in ks
    ensures (forall i, j :: 0 <= i < j < |ks| ==> ks[i] != ks[j]) ==>
              forall i, j :: 0 <= i < j < |r| ==> r[i] != r[j]
  {
    var r := seq(|ks|, i requires 0 <= i < |ks| => Key(ks[i]));
    assert forall k :: Key(k) in r ==> k in ks by {
      forall k | Key(k) in r ensures k in ks {
        var i :| 0 <= i < |r| && r[i] == Key(k);
        KeyInjective(ks[i], k);
      }
    }
    forall i, j | 0 <= i < j < |r| && r[i] == r[j] ensures ks[i] == ks[j] {
      KeyInjective(ks[i], ks[j]);
    }
    r
  }

  /** The keys in the order `Object.keys` lists them. */
  const DeclarationOrder: seq<PreferenceKind> :=
    [Adventure, Relaxation, Culture, Food, Nature, Shopping]

  /** Each kind comes strictly after the ones before it in declaration order;
      in particular no kind occurs twice. */
  predicate InDeclarationOrder(ks: seq<PreferenceKind>) {
    forall i, j :: 0 <= i < j < |ks| ==> Ordinal(ks[i]) < Ordinal(ks[j])
  }

  /** The preference object: one flag per kind, all false initially. */
  datatype Preferences = Preferences(
    adventure: bool, relaxation: bool, culture: bool,
    food: bool, nature: bool, shopping: bool)
  {
    /** `preferences[k]` */
    function Get(k: PreferenceKind): bool {
      match k
      case Adventure => adventure
      case Relaxation => relaxation
      case Culture => culture
      case Food => food
      case Nature => nature
      case Shopping => shopping
    }

    /** `{...prev, [k]: !prev[k]}`: flag `k` flipped, every other flag kept. */
    function Toggle(k: PreferenceKind): (r: Preferences)
      ensures r.Get(k) == !Get(k)
      ensures forall j :: j != k ==> r.Get(j) == Get(j)
    {
      match k
      case Adventure => this.(adventure := !adventure)
      case Relaxation => this.(relaxation := !relaxation)
      case Culture => this.(culture := !culture)
      case Food => this.(food := !food)
      case Nature => this.(nature := !nature)
      case Shopping => this.(shopping := !shopping)
    }
  }

  /** Pressing a preference button twice gives back the flags it started from. */
  lemma ToggleTwice(p: Preferences, k: PreferenceKind)
    ensures p.Toggle(k).Toggle(k) == p
  {
  }

  const NoPreferences: Preferences := Preferences(false, false, false, false, false, false)

  /** `ks.filter(k => p[k])`: the kinds of `ks` whose flag is set, in the order of `ks`. */
  function SelectedFrom(p: Preferences, ks: seq<PreferenceKind>): (r: seq<PreferenceKind>)
    ensures |r| <= |ks|
    ensures forall k :: k in r <==> k in ks && p.Get(k)
    ensures InDeclarationOrder(ks) ==> InDeclarationOrder(r)
  {
    if ks == [] then []
    else
      var rest := SelectedFrom(p, ks[1..]);
      assert InDeclarationOrder(ks) ==> forall k :: k in rest ==> Ordinal(ks[0]) < Ordinal(k) by {
        if InDeclarationOrder(ks) {
          forall k | k in rest ensures Ordinal(ks[0]) < Ordinal(k) {
            var j :| 0 <= j < |ks[1..]| && ks[1..][j] == k;
            assert ks[j + 1] == k;
          }
        }
      }
      assert InDeclarationOrder(ks) ==> InDeclarationOrder(ks[1..]);
      if p.Get(ks[0]) then [ks[0]] + rest else rest
  }

  /** The `preferences` list of the request: exactly the kinds whose flag is
      set, each once, in declaration order. */
  function Selected(p: Preferences): (r: seq<PreferenceKind>)
    ensures forall k :: k in r <==> p.Get(k)
    ensures InDeclarationOrder(r)
    ensures forall i, j :: 0 <= i < j < |r| ==> r[i] != r[j]
  {
    assert forall k :: k in DeclarationOrder by {
      forall k ensures k in DeclarationOrder {
        assert DeclarationOrder[Ordinal(k)] == k;
      }
    }
    SelectedFrom(p, DeclarationOrder)
  }

  const MinDays := 1
  const MaxDays := 30

  /** The form fields at the moment of submission. `days` is the integer the
      number input produced. */
  datatype FormData = FormData(
    destination: string, country: string, days: int, budget: string,
    checkIn: string, checkOut: string, preferences: Preferences)

  /** The body posted to the planning service. The destination is sent as
      typed, not trimmed; `preferences` holds the property names of the set
      flags. */
  datatype TripRequest = TripRequest(
    destination: string, country: string, days: int, budget: string,
    checkIn: string, checkOut: string, preferences: seq<string>)

  /** Why a submission was refused before any request was made. */
  datatype ValidationError = EmptyDestination | InvalidDuration {
    /** The text of the error notification. */
    function Message(): (m: string)
      ensures m == "Please enter a destination" <==> this == EmptyDestination
      ensures m == "Trip duration must be between 1 and 30 days" <==> this == InvalidDuration
    {
      match this
      case EmptyDestination => "Please enter a destination"
      case InvalidDuration => "Trip duration must be between 1 and 30 days"
    }
  }

  /** The submit gate: a blank destination is refused first, then a day
      count outside [MinDays, MaxDays]; otherwise the request carries the
      fields unchanged and the selected preferences. */
  function Validate(f: FormData): (r: Result<TripRequest, ValidationError>)
    ensures r == Err(EmptyDestination) <==> IsBlank(f.destination)
    ensures r == Err(InvalidDuration) <==>
              !IsBlank(f.destination) && (f.days < MinDays || f.days > MaxDays)
    ensures r.Ok? <==> !IsBlank(f.destination) && MinDays <= f.days <= MaxDays
    ensures r.Ok? ==> r.value.destination == f.destination && r.value.country == f.country
                      && r.value.days == f.days && r.value.budget == f.budget
                      && r.value.checkIn == f.checkIn && r.value.checkOut == f.checkOut
    ensures r.Ok? ==> r.value.preferences == WireNames(Selected(f.preferences))
    ensures r.Ok? ==> forall k :: Key(k) in r.value.preferences <==> f.preferences.Get(k)
    ensures r.Ok? ==> forall i, j :: 0 <= i < j < |r.value.preferences| ==>
                        r.value.preferences[i] != r.value.preferences[j]
  {
    if Trim(f.destination) == [] then Err(EmptyDestination)
    else if f.days < MinDays || f.days > MaxDays then Err(InvalidDuration)
    else Ok(TripRequest(f.destination, f.country, f.days, f.budget,
                        f.checkIn, f.checkOut, WireNames(Selected(f.preferences))))
  }
}
