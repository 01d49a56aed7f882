// The Japan planner page: it loads an itinerary (a saved trip, the auto-saved
// draft, or the bundled ten-day template), lets the user add, edit and delete
// days and activities (every change is auto-saved as the draft), shows one
// map marker per city and a per-currency budget, and saves the trip to the
// user's profile through the server.

module JapanPlan {
  import opened Common
  import opened Itinerary
  import opened Storage
  import opened Api

  // ---------------------------------------------------------------------
  // Loading

  datatype Loaded = Loaded(days: seq<Day>, fromTrip: bool)

  /** The value under `key` when it parses as an itinerary. */
  function DaysAt(store: Store, key: string): Option<seq<Day>>
  {
    if key in store && store[key].DaysValue? then Some(store[key].days) else None
  }

  /**
   * What the page starts from: the saved trip named in the URL when it is
   * stored and parses; otherwise, in planner mode, the draft or nothing; in
   * any other mode, the draft or a copy of the template.
   */
  function InitialItinerary(store: Store, tripIdParam: string, mode: string, template: seq<Day>): (r: Loaded)
    ensures r.fromTrip <==> tripIdParam != "" && DaysAt(store, ItineraryKey(tripIdParam)).Some?
    ensures r.fromTrip ==> r.days == DaysAt(store, ItineraryKey(tripIdParam)).value
    ensures !r.fromTrip && DaysAt(store, DraftKey).Some? ==> r.days == DaysAt(store, DraftKey).value
    ensures !r.fromTrip && DaysAt(store, DraftKey).None? ==> r.days == (if mode == "planner" then [] else template)
  {
    if tripIdParam != "" && DaysAt(store, ItineraryKey(tripIdParam)).Some? then
      Loaded(DaysAt(store, ItineraryKey(tripIdParam)).value, true)
    else if mode == "planner" then
      Loaded(DaysAt(store, DraftKey).GetOr([]), false)
    else
      Loaded(DaysAt(store, DraftKey).GetOr(template), false)
  }

  /** Planner mode never shows the ten-day template unless it was saved as the draft or trip. */
  lemma PlannerModeStartsEmpty(store: Store, tripIdParam: string, template: seq<Day>)
    requires DaysAt(store, DraftKey).None?
    requires tripIdParam == "" || DaysAt(store, ItineraryKey(tripIdParam)).None?
    ensures InitialItinerary(store, tripIdParam, "planner", template).days == []
  {
  }

  // ---------------------------------------------------------------------
  // Map markers

  datatype CityMarker = CityMarker(name: string, at: Coord, days: seq<int>)

  datatype MapView = FitRoute(path: seq<Coord>) | CenterOn(at: Coord) | KeepView

  /** `day.lat && day.lng && day.city` */
  predicate OnMap(d: Day)
  {
    HasCoords(d.coords) && d.city != ""
  }

  /** `acc[day.city] ||= {name, lat, lng, days: []}; acc[day.city].days.push(day.day)` */
  function AddCity(markers: seq<CityMarker>, d: Day): seq<CityMarker>
    requires OnMap(d)
  {
    if markers == [] then [CityMarker(d.city, d.coords.value, [d.day])]
    else if markers[0].name == d.city then [markers[0].(days := markers[0].days + [d.day])] + markers[1..]
    else [markers[0]] + AddCity(markers[1..], d)
  }

  /** `Object.values(itinerary.filter(OnMap).reduce(AddCity, {}))` */
  function Cities(days: seq<Day>): seq<CityMarker>
  {
    if days == [] then []
    else
      var last := days[|days| - 1];
      if OnMap(last) then AddCity(Cities(days[..|days| - 1]), last) else Cities(days[..|days| - 1])
  }

  function MarkerNames(markers: seq<CityMarker>): seq<string>
  {
    if markers == [] then [] else [markers[0].name] + MarkerNames(markers[1..])
  }

  function FindCity(markers: seq<CityMarker>, name: string): Option<CityMarker>
  {
    if markers == [] then None else if markers[0].name == name then Some(markers[0]) else FindCity(markers[1..], name)
  }

  // The reference: what a city's marker should say, read straight off the days.

  /** The cities with a marker, each once, in the order they are first visited. */
  function FirstVisits(days: seq<Day>): seq<string>
  {
    if days == [] then []
    else
      var last := days[|days| - 1];
      var before := FirstVisits(days[..|days| - 1]);
      if OnMap(last) && last.city !in before then before + [last.city] else before
  }

  /** The numbers of the mappable days spent in `city`, in itinerary order. */
  function DaysIn(days: seq<Day>, city: string): seq<int>
  {
    if days == [] then []
    else
      var last := days[|days| - 1];
      DaysIn(days[..|days| - 1], city) + (if OnMap(last) && last.city == city then [last.day] else [])
  }

  /** Where the first mappable day spent in `city` is, if there is one. */
  function FirstCoords(days: seq<Day>, city: string): Option<Coord>
  {
    if days == [] then None
    else
      var last := days[|days| - 1];
      var before := FirstCoords(days[..|days| - 1], city);
      if before.None? && OnMap(last) && last.city == city then last.coords else before
  }

  lemma {:induction false} AddCityFind(markers: seq<CityMarker>, d: Day, name: string)
    requires OnMap(d)
    ensures FindCity(AddCity(markers, d), name)
         == if name != d.city then FindCity(markers, name)
            else match FindCity(markers, name)
              case None => Some(CityMarker(d.city, d.coords.value, [d.day]))
              case Some(m) => Some(m.(days := m.days + [d.day]))
  {
    if markers != [] && markers[0].name != d.city {
      AddCityFind(markers[1..], d, name);
    }
  }

  lemma {:induction false} AddCityNames(markers: seq<CityMarker>, d: Day)
    requires OnMap(d)
    ensures MarkerNames(AddCity(markers, d))
         == if d.city in MarkerNames(markers) then MarkerNames(markers) else MarkerNames(markers) + [d.city]
  {
    if markers != [] && markers[0].name != d.city {
      AddCityNames(markers[1..], d);
    }
  }

  lemma {:induction false} FindCityName(markers: seq<CityMarker>, name: string)
    ensures FindCity(markers, name).Some? <==> name in MarkerNames(markers)
    ensures FindCity(markers, name).Some? ==> FindCity(markers, name).value.name == name
  {
    if markers != [] {
      FindCityName(markers[1..], name);
    }
  }

  /**
   * There is one marker per mappable city, in order of first visit; a city's
   * marker sits where the first day in that city is and lists the numbers of
   * all its days in itinerary order.
   */
  lemma {:induction false} CitiesMatchItinerary(days: seq<Day>, city: string)
    ensures DaysIn(days, city) == [] <==> FirstCoords(days, city).None?
    ensures MarkerNames(Cities(days)) == FirstVisits(days)
    ensures FindCity(Cities(days), city)
         == if DaysIn(days, city) == [] then None
            else Some(CityMarker(city, FirstCoords(days, city).value, DaysIn(days, city)))
  {
    EmptyDaysNoCoords(days, city);
    if days != [] {
      var init := days[..|days| - 1];
      var last := days[|days| - 1];
      assert days[..|days| - 1] == init;
      CitiesMatchItinerary(init, city);
      CitiesMatchItinerary(init, last.city);
      FindCityName(Cities(init), city);
      FindCityName(Cities(init), last.city);
      if OnMap(last) {
        AddCityFind(Cities(init), last, city);
        AddCityNames(Cities(init), last);
        if city == last.city {
          assert DaysIn(days, city) == DaysIn(init, city) + [last.day];
          var ms := Cities(init);
          assert Cities(days) == AddCity(ms, last);
          if DaysIn(init, city) == [] {
            assert FindCity(ms, city) == None;
            assert FindCity(AddCity(ms, last), city) == Some(CityMarker(last.city, last.coords.value, [last.day]));
            assert DaysIn(days, city) == [last.day];
            assert FirstCoords(days, city) == last.coords;
          } else {
            var m := FindCity(ms, city).value;
            assert m == CityMarker(city, FirstCoords(init, city).value, DaysIn(init, city));
            assert FindCity(AddCity(ms, last), city) == Some(m.(days := m.days + [last.day]));
            assert FirstCoords(days, city) == FirstCoords(init, city);
          }
        } else {
          assert Cities(days) == AddCity(Cities(init), last);
          assert DaysIn(days, city) == DaysIn(init, city);
          assert FirstCoords(days, city) == FirstCoords(init, city);
        }
      } else {
        assert Cities(days) == Cities(init);
        assert DaysIn(days, city) == DaysIn(init, city);
        assert FirstCoords(days, city) == FirstCoords(init, city);
      }
    }
  }

  lemma {:induction false} EmptyDaysNoCoords(days: seq<Day>, city: string)
    ensures DaysIn(days, city) == [] <==> FirstCoords(days, city).None?
  {
    if days != [] {
      EmptyDaysNoCoords(days[..|days| - 1], city);
    }
  }

  function MinOf(s: seq<int>): int
    requires s != []
  {
    if |s| == 1 then s[0] else var m := MinOf(s[1..]); if s[0] < m then s[0] else m
  }

  function MaxOf(s: seq<int>): int
    requires s != []
  {
    if |s| == 1 then s[0] else var m := MaxOf(s[1..]); if s[0] > m then s[0] else m
  }

  /** The popup text: `Days <first>-<last>` for a city of several days, `Day <n>` otherwise. */
  function DayRange(days: seq<int>): string
    requires days != []
  {
    if |days| > 1 then "Days " + IntToString(MinOf(days)) + "-" + IntToString(MaxOf(days))
    else "Day " + IntToString(days[0])
  }

  /** A route through every city when there are several, centred on the only one, or no move. */
  function View(markers: seq<CityMarker>): (v: MapView)
    ensures v.FitRoute? <==> |markers| > 1
    ensures v.FitRoute? ==> |v.path| == |markers| && forall i :: 0 <= i < |markers| ==> v.path[i] == markers[i].at
    ensures v.CenterOn? <==> |markers| == 1
    ensures v.CenterOn? ==> v.at == markers[0].at
  {
    if |markers| > 1 then FitRoute(seq(|markers|, i requires 0 <= i < |markers| => markers[i].at))
    else if |markers| == 1 then CenterOn(markers[0].at)
    else KeepView
  }

  /**
   * Three days in Tokyo followed by one in Kyoto give two markers, labelled
   * "Days 1-3" and "Day 4", joined by a route.
   */
  lemma TokyoKyotoExample(tokyo: Coord, kyoto: Coord)
    requires tokyo.lat != 0.0 && tokyo.lng != 0.0 && kyoto.lat != 0.0 && kyoto.lng != 0.0
    ensures var days := [Day(1, "", "Arrival", "Tokyo", Some(tokyo), []),
                         Day(2, "", "Asakusa", "Tokyo", Some(tokyo), []),
                         Day(3, "", "Shinjuku", "Tokyo", Some(tokyo), []),
                         Day(4, "", "Temples", "Kyoto", Some(kyoto), [])];
      var ms := Cities(days);
      && ms == [CityMarker("Tokyo", tokyo, [1, 2, 3]), CityMarker("Kyoto", kyoto, [4])]
      && DayRange(ms[0].days) == "Days 1-3"
      && DayRange(ms[1].days) == "Day 4"
      && View(ms) == FitRoute([tokyo, kyoto])
  {
    var d1 := Day(1, "", "Arrival", "Tokyo", Some(tokyo), []);
    var d2 := Day(2, "", "Asakusa", "Tokyo", Some(tokyo), []);
    var d3 := Day(3, "", "Shinjuku", "Tokyo", Some(tokyo), []);
    var d4 := Day(4, "", "Temples", "Kyoto", Some(kyoto), []);
    var days := [d1, d2, d3, d4];
    assert [d1, d2][..1] == [d1];
    assert [d1, d2, d3][..2] == [d1, d2];
    assert days[..3] == [d1, d2, d3];
    assert Cities([d1]) == [CityMarker("Tokyo", tokyo, [1])];
    assert [1] + [2] == [1, 2] && [1, 2] + [3] == [1, 2, 3];
    assert Cities([d1, d2]) == AddCity(Cities([d1]), d2);
    assert Cities([d1, d2]) == [CityMarker("Tokyo", tokyo, [1, 2])];
    assert Cities([d1, d2, d3]) == AddCity(Cities([d1, d2]), d3);
    assert Cities([d1, d2, d3]) == [CityMarker("Tokyo", tokyo, [1, 2, 3])];
    assert Cities(days) == AddCity(Cities([d1, d2, d3]), d4);
    var ms := Cities(days);
    assert ms == [CityMarker("Tokyo", tokyo, [1, 2, 3]), CityMarker("Kyoto", kyoto, [4])];
    assert NatToString(1) == "1" && NatToString(3) == "3" && NatToString(4) == "4";
    assert MinOf([1, 2, 3]) == 1 && MaxOf([1, 2, 3]) == 3;
    assert View(ms) == FitRoute([tokyo, kyoto]);
  }

  // ---------------------------------------------------------------------
  // Budget panel

  datatype Expense = Expense(name: string, kind: string, price: int)

  datatype CurrencyTotal = CurrencyTotal(currency: string, total: int, items: seq<Expense>)

  /** `activity.budget === 'Paid' && activity.price` (no currency needed here). */
  predicate Counted(a: Activity)
  {
    a.budget == "Paid" && PriceTruthy(a.price)
  }

  /** `activity.currency || 'JPY'` */
  function CurrencyOf(a: Activity): string
  {
    if a.currency == "" then "JPY" else a.currency
  }

  function AddExpense(totals: seq<CurrencyTotal>, a: Activity): seq<CurrencyTotal>
    requires Counted(a)
  {
    var e := Expense(a.name, a.kind, a.price.value);
    if totals == [] then [CurrencyTotal(CurrencyOf(a), e.price, [e])]
    else if totals[0].currency == CurrencyOf(a) then
      [totals[0].(total := totals[0].total + e.price, items := totals[0].items + [e])] + totals[1..]
    else [totals[0]] + AddExpense(totals[1..], a)
  }

  /** The per-currency totals after visiting `acts` in order. */
  function Totals(acts: seq<Activity>): seq<CurrencyTotal>
  {
    if acts == [] then []
    else
      var a := acts[|acts| - 1];
      var before := Totals(acts[..|acts| - 1]);
      if Counted(a) then AddExpense(before, a) else before
  }

  function FindTotal(totals: seq<CurrencyTotal>, currency: string): Option<CurrencyTotal>
  {
    if totals == [] then None
    else if totals[0].currency == currency then Some(totals[0])
    else FindTotal(totals[1..], currency)
  }

  /** The counted expenses in `currency`, in itinerary order (the reference). */
  function ExpensesIn(acts: seq<Activity>, currency: string): seq<Expense>
  {
    if acts == [] then []
    else
      var a := acts[|acts| - 1];
      ExpensesIn(acts[..|acts| - 1], currency)
        + (if Counted(a) && CurrencyOf(a) == currency then [Expense(a.name, a.kind, a.price.value)] else [])
  }

  function SumPrices(items: seq<Expense>): int
  {
    if items == [] then 0 else SumPrices(items[..|items| - 1]) + items[|items| - 1].price
  }

  lemma {:induction false} AddExpenseFind(totals: seq<CurrencyTotal>, a: Activity, c: string)
    requires Counted(a)
    ensures FindTotal(AddExpense(totals, a), c)
         == if c != CurrencyOf(a) then FindTotal(totals, c)
            else
              var e := Expense(a.name, a.kind, a.price.value);
              match FindTotal(totals, c)
              case None => Some(CurrencyTotal(c, e.price, [e]))
              case Some(t) => Some(t.(total := t.total + e.price, items := t.items + [e]))
  {
    if totals != [] && totals[0].currency != CurrencyOf(a) {
      AddExpenseFind(totals[1..], a, c);
    }
  }

  /**
   * A currency is listed exactly when some paid activity is priced in it
   * (an activity without a currency counts as yen); its list holds those
   * activities in itinerary order and its total is the sum of their prices.
   */
  lemma {:induction false} TotalsMatchExpenses(acts: seq<Activity>, c: string)
    ensures FindTotal(Totals(acts), c)
         == if ExpensesIn(acts, c) == [] then None
            else Some(CurrencyTotal(c, SumPrices(ExpensesIn(acts, c)), ExpensesIn(acts, c)))
  {
    if acts != [] {
      var init := acts[..|acts| - 1];
      var a := acts[|acts| - 1];
      TotalsMatchExpenses(init, c);
      if Counted(a) {
        AddExpenseFind(Totals(init), a, c);
        if CurrencyOf(a) == c {
          var xs := ExpensesIn(init, c);
          var e := Expense(a.name, a.kind, a.price.value);
          assert ExpensesIn(acts, c) == xs + [e];
          assert (xs + [e])[..|xs|] == xs;
          assert SumPrices(xs + [e]) == SumPrices(xs) + e.price;
          FindTotalCurrency(Totals(init), c);
          if xs == [] {
            assert xs + [e] == [e];
          }
        } else {
          assert ExpensesIn(acts, c) == ExpensesIn(init, c);
        }
      } else {
        assert Totals(acts) == Totals(init);
        assert ExpensesIn(acts, c) == ExpensesIn(init, c);
      }
    }
  }

  lemma {:induction false} FindTotalCurrency(totals: seq<CurrencyTotal>, c: string)
    ensures FindTotal(totals, c).Some? ==> FindTotal(totals, c).value.currency == c
  {
    if totals != [] && totals[0].currency != c {
      FindTotalCurrency(totals[1..], c);
    }
  }

  // ---------------------------------------------------------------------
  // Deleting a day moves the highlighted day with it

  /** `currentActiveDayIndex` after `deleteDay(index)`. */
  function ActiveAfterDelete(active: Option<int>, index: int): Option<int>
  {
    if active == Some(index) then None
    else if active.Some? && active.value > index then Some(active.value - 1)
    else active
  }

  /**
   * After a day is deleted the highlight is dropped if it was on that day,
   * and otherwise still points at the same day (now renumbered).
   */
  lemma ActiveFollowsItsDay(days: seq<Day>, index: nat, a: nat)
    requires index < |days| && a < |days|
    ensures ActiveAfterDelete(Some(a), index).None? <==> a == index
    ensures a != index ==>
      var b := ActiveAfterDelete(Some(a), index).value;
      var after := Renumbered(RemoveAt(days, index));
      0 <= b < |after| && after[b] == days[a].(day := b + 1)
  {
  }

  // ---------------------------------------------------------------------
  // Saving to the profile

  datatype SaveOutcome = NoUser | NoDays | Cancelled | Errored | Rejected | Saved(dbId: string)

  datatype SaveStep = SaveStep(outcome: SaveOutcome, sent: Option<TripBody>, store: Store)

  /** `String(data.id)`, which is "undefined" when the reply has no id. */
  function ReplyIdText(r: PostReply): string
  {
    match r.id
    case None => "undefined"
    case Some(id) => IdText(id)
  }

  /** `itinerary[0].date || today` and `itinerary[last].date || startDate`. */
  function TripDates(days: seq<Day>, today: string): (string, string)
    requires days != []
  {
    var start := if days[0].date != "" then days[0].date else today;
    var end := if days[|days| - 1].date != "" then days[|days| - 1].date else start;
    (start, end)
  }

  /** What `saveJapanTripToProfileAndDatabase` does, given the user's answers and the server's reply. */
  function SaveSpec(store: Store, days: seq<Day>, user: Option<User>, nameInput: Option<string>,
                    today: string, now: int, reply: Fetch<PostReply>): SaveStep
  {
    if user.None? || (user.value.id == "" && user.value.email == "") then SaveStep(NoUser, None, store)
    else if days == [] then SaveStep(NoDays, None, store)
    else if nameInput.None? || Trim(nameInput.value) == "" then SaveStep(Cancelled, None, store)
    else
      var name := Trim(nameInput.value);
      var (start, end) := TripDates(days, today);
      var u := user.value;
      var body := TripBody(if u.id != "" then u.id else u.email, name, "Japan", start, end, Some(|days|), Some(days));
      match reply
      case Threw => SaveStep(Errored, Some(body), store)
      case NotOk(_) => SaveStep(Rejected, Some(body), store)
      case Ok(r) =>
        var dbId := ReplyIdText(r);
        var summary := Summary(StrId(dbId), name, "Japan", "Japan", start, end, Some(|days|), Some(now), false);
        var owner := OwnerOf(u);
        SaveStep(Saved(dbId), Some(body), RecordSave(store, owner, dbId, summary, days))
  }

  /** Only a save the server accepted writes anything to the browser's storage. */
  lemma OnlyAcceptedSaveWrites(store: Store, days: seq<Day>, user: Option<User>, nameInput: Option<string>,
                               today: string, now: int, reply: Fetch<PostReply>)
    ensures var st := SaveSpec(store, days, user, nameInput, today, now, reply);
      !st.outcome.Saved? ==> st.store == store
    ensures var st := SaveSpec(store, days, user, nameInput, today, now, reply);
      st.sent.Some? <==> st.outcome in {Errored, Rejected} || st.outcome.Saved?
  {
  }

  /** The days written by a save are what the page loads when opened with that trip's id. */
  lemma RecordSaveReopens(store: Store, owner: string, dbId: string, summary: Summary, days: seq<Day>,
                          mode: string, template: seq<Day>)
    requires dbId != ""
    ensures InitialItinerary(RecordSave(store, owner, dbId, summary, days), dbId, mode, template) == Loaded(days, true)
  {
    KeysDistinct(dbId, owner);
  }

  /**
   * A trip the server accepted reopens with the same days when the page is
   * opened with its id, and the owner's list (when it parses) names it and
   * still names no trip twice.
   */
  lemma SavedTripReopens(store: Store, days: seq<Day>, user: Option<User>, nameInput: Option<string>,
                         today: string, now: int, reply: Fetch<PostReply>, mode: string, template: seq<Day>)
    requires SaveSpec(store, days, user, nameInput, today, now, reply).outcome.Saved?
    requires reply.Ok? ==> reply.body.id != Some(StrId(""))
    ensures var st := SaveSpec(store, days, user, nameInput, today, now, reply);
      InitialItinerary(st.store, st.outcome.dbId, mode, template) == Loaded(days, true)
    ensures var st := SaveSpec(store, days, user, nameInput, today, now, reply);
      var u := user.value;
      var key := TripsKey(OwnerOf(u));
      ReadTrips(store, key).Some? && UniqueIds(ReadTrips(store, key).value) ==>
        ReadTrips(st.store, key).Some? && UniqueIds(ReadTrips(st.store, key).value)
        && exists t :: t in ReadTrips(st.store, key).value && IdText(t.id) == st.outcome.dbId
  {
    var r := reply.body;
    var dbId := ReplyIdText(r);
    var u := user.value;
    var owner := OwnerOf(u);
    var name := Trim(nameInput.value);
    var (start, end) := TripDates(days, today);
    var summary := Summary(StrId(dbId), name, "Japan", "Japan", start, end, Some(|days|), Some(now), false);
    var st := SaveSpec(store, days, user, nameInput, today, now, reply);
    assert st.store == RecordSave(store, owner, dbId, summary, days) && st.outcome.dbId == dbId;
    assert dbId != "" by {
      if r.id.Some? {
        match r.id.value
        case NumId(n) =>
        case StrId(x) =>
      }
    }
    RecordSaveReopens(store, owner, dbId, summary, days, mode, template);
    if ReadTrips(store, TripsKey(owner)).Some? && UniqueIds(ReadTrips(store, TripsKey(owner)).value) {
      RecordSaveLists(store, owner, dbId, summary, days);
      assert IdText(summary.id) == dbId;
    }
  }

  datatype WindowReply = WindowReply(saved: bool, server: bool, id: Option<string>)

  // ---------------------------------------------------------------------
  // The page

  class JapanPage {
    var itinerary: seq<Day>
    /** `currentActiveDayIndex` */
    var activeDay: Option<int>
    /** `editingDayIndex`, shared by the day form and the activity form */
    var editingDay: Option<int>
    var editingActivity: Option<int>
    var pendingDelete: Option<int>
    /** `window.currentTripId` and `window.currentTripName` */
    var tripId: Option<string>
    var tripName: Option<string>
    var store: Store
    /** `originalJapanItinerary` */
    const template: seq<Day>

    constructor (template: seq<Day>, store: Store)
      ensures this.template == template && this.store == store
      ensures itinerary == [] && activeDay == None && editingDay == None && editingActivity == None
      ensures pendingDelete == None && tripId == None && tripName == None
    {
      this.template := template;
      this.store := store;
      itinerary := [];
      activeDay := None;
      editingDay := None;
      editingActivity := None;
      pendingDelete := None;
      tripId := None;
      tripName := None;
    }

    /** `initializeItinerary` */
    method InitializeItinerary(tripIdParam: string, mode: string, countryLabel: string)
      modifies this`itinerary, this`tripId, this`tripName, this`store
      ensures var l := InitialItinerary(old(store), tripIdParam, mode, template);
        && itinerary == l.days
        && (l.fromTrip ==> tripId == Some(tripIdParam)
                           && tripName == Some(if countryLabel != "" then countryLabel else "Japan Trip")
                           && store == old(store)[DraftKey := DaysValue(l.days)])
        && (!l.fromTrip ==> tripId == old(tripId) && tripName == old(tripName) && store == old(store))
    {
      if tripIdParam != "" {
        var key := ItineraryKey(tripIdParam);
        if key in store && store[key].DaysValue? {
          itinerary := store[key].days;
          tripId := Some(tripIdParam);
          tripName := Some(if countryLabel != "" then countryLabel else "Japan Trip");
          store := store[DraftKey := DaysValue(itinerary)];
          return;
        }
      }
      if mode == "planner" {
        if DraftKey in store && store[DraftKey].DaysValue? {
          itinerary := store[DraftKey].days;
        } else {
          itinerary := [];
        }
        return;
      }
      if DraftKey in store && store[DraftKey].DaysValue? {
        itinerary := store[DraftKey].days;
      } else {
        itinerary := template;
      }
    }

    /** `updateMapMarkers`: the markers to draw and how the map moves. */
    function MapMarkers(): (r: (seq<CityMarker>, MapView))
      reads this
      ensures r.0 == Cities(itinerary) && r.1 == View(r.0)
    {
      var ms := Cities(itinerary);
      (ms, View(ms))
    }

    /** `toggleDay(index)`: returns where the map centres, if it moves. */
    method ToggleDay(index: int) returns (centre: Option<Coord>)
      modifies this`activeDay
      ensures activeDay == if old(activeDay) == Some(index) then None else Some(index)
      ensures centre.Some? <==> old(activeDay) != Some(index) && 0 <= index < |itinerary| && HasCoords(itinerary[index].coords)
      ensures centre.Some? ==> centre == itinerary[index].coords
    {
      if activeDay == Some(index) {
        activeDay := None;
        centre := None;
      } else {
        activeDay := Some(index);
        if 0 <= index < |itinerary| && HasCoords(itinerary[index].coords) {
          centre := itinerary[index].coords;
        } else {
          centre := None;
        }
      }
    }

    /** `updateBalance`: the per-currency totals, in order of first appearance. */
    method UpdateBalance() returns (totals: seq<CurrencyTotal>)
      ensures totals == Totals(AllActivities(itinerary))
    {
      totals := [];
      var d := 0;
      while d < |itinerary|
        invariant 0 <= d <= |itinerary|
        invariant totals == Totals(AllActivities(itinerary[..d]))
      {
        var acts := itinerary[d].activities;
        var k := 0;
        ghost var before := AllActivities(itinerary[..d]);
        assert before + acts[..0] == before;
        while k < |acts|
          invariant 0 <= k <= |acts|
          invariant totals == Totals(before + acts[..k])
        {
          var a := acts[k];
          assert (before + acts[..k + 1])[..|before| + k] == before + acts[..k];
          if a.budget == "Paid" && a.price.Some? && a.price.value != 0 {
            totals := AddExpense(totals, a);
          }
          k := k + 1;
        }
        assert acts[..k] == acts;
        assert itinerary[..d + 1][..d] == itinerary[..d];
        assert AllActivities(itinerary[..d + 1]) == before + acts;
        d := d + 1;
      }
      assert itinerary[..d] == itinerary;
    }

    /** `savePlan`: auto-save the draft. */
    method SavePlan()
      modifies this`store
      ensures store == old(store)[DraftKey := DaysValue(itinerary)]
    {
      store := store[DraftKey := DaysValue(itinerary)];
    }

    method OpenAddDayModal()
      modifies this`editingDay
      ensures editingDay == None
    {
      editingDay := None;
    }

    method OpenEditDayModal(index: int)
      modifies this`editingDay
      ensures editingDay == Some(index)
    {
      editingDay := Some(index);
    }

    /**
     * `handleDaySubmit`: a blank title is refused; otherwise the day being
     * edited gets the new title, city, date and coordinates, or a new day is
     * appended with the next number; the draft is saved and the form closed.
     * Editing a day that does not exist throws before anything changes.
     */
    method HandleDaySubmit(titleInput: string, cityInput: string, date: string, geocoded: Option<Coord>)
      returns (accepted: bool)
      modifies this`itinerary, this`store, this`editingDay
      ensures var title := Trim(titleInput);
        var city := Trim(cityInput);
        var coords := if city != "" then geocoded else None;
        accepted <==> title != "" && (old(editingDay).None? || 0 <= old(editingDay).value < |old(itinerary)|)
      ensures !accepted ==> itinerary == old(itinerary) && store == old(store) && editingDay == old(editingDay)
      ensures accepted ==>
        var title := Trim(titleInput);
        var city := Trim(cityInput);
        var coords := if city != "" then geocoded else None;
        && editingDay == None
        && store == old(store)[DraftKey := DaysValue(itinerary)]
        && (old(editingDay).Some? ==>
              var i := old(editingDay).value;
              itinerary == old(itinerary)[i := old(itinerary)[i].(title := title, city := city, date := date, coords := coords)])
        && (old(editingDay).None? ==>
              itinerary == old(itinerary) + [Day(|old(itinerary)| + 1, date, title, city, coords, [])])
    {
      var title := Trim(titleInput);
      var city := Trim(cityInput);
      if title == "" {
        return false;
      }
      var coords: Option<Coord> := None;
      if city != "" {
        coords := geocoded;
      }
      if editingDay.Some? {
        var i := editingDay.value;
        if !(0 <= i < |itinerary|) {
          return false;
        }
        itinerary := itinerary[i := itinerary[i].(title := title, city := city, date := date, coords := coords)];
      } else {
        itinerary := itinerary + [Day(|itinerary| + 1, date, title, city, coords, [])];
      }
      SavePlan();
      editingDay := None;
      accepted := true;
    }

    /**
     * `deleteDay(index)`: an index outside the itinerary is ignored;
     * otherwise the day is removed, the rest renumbered, the highlighted day
     * adjusted and the draft saved.
     */
    method DeleteDay(index: int)
      modifies this`itinerary, this`activeDay, this`store
      ensures !(0 <= index < |old(itinerary)|) ==>
        itinerary == old(itinerary) && activeDay == old(activeDay) && store == old(store)
      ensures 0 <= index < |old(itinerary)| ==>
        && itinerary == Renumbered(RemoveAt(old(itinerary), index))
        && activeDay == ActiveAfterDelete(old(activeDay), index)
        && store == old(store)[DraftKey := DaysValue(itinerary)]
    {
      if index < 0 || index >= |itinerary| {
        return;
      }
      var days := RemoveAt(itinerary, index);
      itinerary := RenumberDays(days);
      activeDay := ActiveAfterDelete(activeDay, index);
      SavePlan();
    }

    method OpenDeleteDayConfirm(index: int)
      modifies this`pendingDelete
      ensures pendingDelete == Some(index)
    {
      pendingDelete := Some(index);
    }

    method CloseDeleteDayConfirm()
      modifies this`pendingDelete
      ensures pendingDelete == None
    {
      pendingDelete := None;
    }

    /** `handleConfirmDeleteDay`: deletes the day awaiting confirmation, if any. */
    method ConfirmDeleteDay()
      modifies this`itinerary, this`activeDay, this`store, this`pendingDelete
      ensures old(pendingDelete).None? ==>
        itinerary == old(itinerary) && activeDay == old(activeDay) && store == old(store) && pendingDelete == None
      ensures old(pendingDelete).Some? ==>
        var index := old(pendingDelete).value;
        && pendingDelete == None
        && (0 <= index < |old(itinerary)| ==>
              itinerary == Renumbered(RemoveAt(old(itinerary), index))
              && activeDay == ActiveAfterDelete(old(activeDay), index)
              && store == old(store)[DraftKey := DaysValue(itinerary)])
        && (!(0 <= index < |old(itinerary)|) ==>
              itinerary == old(itinerary) && activeDay == old(activeDay) && store == old(store))
    {
      if pendingDelete.None? {
        return;
      }
      DeleteDay(pendingDelete.value);
      CloseDeleteDayConfirm();
    }

    method OpenAddActivityModal(dayIndex: int)
      modifies this`editingDay, this`editingActivity
      ensures editingDay == Some(dayIndex) && editingActivity == None
    {
      editingDay := Some(dayIndex);
      editingActivity := None;
    }

    method OpenEditActivityModal(dayIndex: int, activityIndex: int)
      modifies this`editingDay, this`editingActivity
      ensures editingDay == Some(dayIndex) && editingActivity == Some(activityIndex)
    {
      editingDay := Some(dayIndex);
      editingActivity := Some(activityIndex);
    }

    /**
     * `handleActivitySubmit`: type, name, start and end time are required;
     * the price is the parsed number for a paid activity (0 when it does not
     * parse) and 0 otherwise; the activity carries no id.  It replaces the
     * activity being edited or is appended to the day, the draft is saved
     * and the form closed.
     */
    method HandleActivitySubmit(kind: string, nameInput: string, locationInput: string, linkInput: string,
                                descriptionInput: string, startTime: string, endTime: string, budget: string,
                                parsedPrice: Option<int>, currency: string, geocoded: Option<Coord>)
      returns (accepted: bool)
      modifies this`itinerary, this`store, this`editingDay, this`editingActivity
      ensures accepted <==>
        kind != "" && Trim(nameInput) != "" && startTime != "" && endTime != ""
        && old(editingDay).Some? && 0 <= old(editingDay).value < |old(itinerary)|
      ensures !accepted ==>
        itinerary == old(itinerary) && store == old(store)
        && editingDay == old(editingDay) && editingActivity == old(editingActivity)
      ensures accepted ==>
        var location := Trim(locationInput);
        var price := if budget == "Paid" then parsedPrice.GetOr(0) else 0;
        var a := Activity(None, kind, Trim(nameInput), location, Trim(linkInput), startTime, endTime, budget,
                          Some(price), currency, if location != "" then geocoded else None, Trim(descriptionInput));
        var d := old(editingDay).value;
        var acts := old(itinerary)[d].activities;
        && itinerary == old(itinerary)[d := old(itinerary)[d].(activities :=
             if old(editingActivity).Some? then AssignAt(acts, old(editingActivity).value, a) else acts + [a])]
        && store == old(store)[DraftKey := DaysValue(itinerary)]
        && editingDay == None && editingActivity == None
    {
      var name := Trim(nameInput);
      var location := Trim(locationInput);
      var link := Trim(linkInput);
      var description := Trim(descriptionInput);
      var price := 0;
      if budget == "Paid" && parsedPrice.Some? {
        price := parsedPrice.value;
      }
      if kind == "" || name == "" || startTime == "" || endTime == "" {
        return false;
      }
      var coords: Option<Coord> := None;
      if location != "" {
        coords := geocoded;
      }
      var a := Activity(None, kind, name, location, link, startTime, endTime, budget, Some(price), currency, coords, description);
      if editingDay.None? || !(0 <= editingDay.value < |itinerary|) {
        return false;
      }
      var d := editingDay.value;
      var acts := itinerary[d].activities;
      if editingActivity.Some? {
        acts := AssignAt(acts, editingActivity.value, a);
      } else {
        acts := acts + [a];
      }
      itinerary := itinerary[d := itinerary[d].(activities := acts)];
      SavePlan();
      editingDay := None;
      editingActivity := None;
      accepted := true;
    }

    /**
     * `deleteActivity`: when confirmed, `splice(activityIndex, 1)` on the
     * day's activities (a negative index counts from the end) and the draft
     * is saved; a missing day throws before anything changes.
     */
    method DeleteActivity(dayIndex: int, activityIndex: int, confirmed: bool)
      modifies this`itinerary, this`store
      ensures !confirmed || !(0 <= dayIndex < |old(itinerary)|) ==>
        itinerary == old(itinerary) && store == old(store)
      ensures confirmed && 0 <= dayIndex < |old(itinerary)| ==>
        var day := old(itinerary)[dayIndex];
        && itinerary == old(itinerary)[dayIndex := day.(activities := Splice1(day.activities, activityIndex))]
        && store == old(store)[DraftKey := DaysValue(itinerary)]
    {
      if !confirmed || !(0 <= dayIndex < |itinerary|) {
        return;
      }
      var day := itinerary[dayIndex];
      itinerary := itinerary[dayIndex := day.(activities := Splice1(day.activities, activityIndex))];
      SavePlan();
    }

    /** `saveJapanTripToProfileAndDatabase`; `sent` is the body posted to the server, if any. */
    method SaveToProfile(user: Option<User>, nameInput: Option<string>, today: string, now: int, reply: Fetch<PostReply>)
      returns (outcome: SaveOutcome, sent: Option<TripBody>)
      modifies this`store
      ensures SaveStep(outcome, sent, store) == SaveSpec(old(store), itinerary, user, nameInput, today, now, reply)
    {
      if user.None? || (user.value.id == "" && user.value.email == "") {
        return NoUser, None;
      }
      if itinerary == [] {
        return NoDays, None;
      }
      if nameInput.None? || Trim(nameInput.value) == "" {
        return Cancelled, None;
      }
      var name := Trim(nameInput.value);
      var (start, end) := TripDates(itinerary, today);
      var u := user.value;
      sent := Some(TripBody(if u.id != "" then u.id else u.email, name, "Japan", start, end, Some(|itinerary|), Some(itinerary)));
      match reply {
        case Threw =>
          outcome := Errored;
        case NotOk(_) =>
          outcome := Rejected;
        case Ok(r) =>
          var dbId := ReplyIdText(r);
          store := store[ItineraryKey(dbId) := DaysValue(itinerary)];
          var owner := OwnerOf(u);
          var tripsKey := TripsKey(owner);
          var trips := ReadTrips(store, tripsKey);
          if trips.Some? {
            var summary := Summary(StrId(dbId), name, "Japan", "Japan", start, end, Some(|itinerary|), Some(now), false);
            store := store[tripsKey := TripsValue(Upsert(trips.value, SameText(StrId(dbId)), summary))];
          }
          outcome := Saved(dbId);
      }
    }

    /**
     * `window.savePlannerTripToProfileAndDatabase` on this page: runs the
     * save and reports `{saved: true, server: true, id}` whatever happened,
     * unless the request threw (then the returned promise rejects: `None`).
     */
    method WindowSave(user: Option<User>, nameInput: Option<string>, today: string, now: int, reply: Fetch<PostReply>)
      returns (result: Option<WindowReply>)
      modifies this`store
      ensures var st := SaveSpec(old(store), itinerary, user, nameInput, today, now, reply);
        && store == st.store
        && (st.outcome == Errored <==> result.None?)
        && (result.Some? ==> result.value == WindowReply(true, true, tripId))
    {
      var outcome, _ := SaveToProfile(user, nameInput, today, now, reply);
      if outcome == Errored {
        return None;
      }
      result := Some(WindowReply(true, true, tripId));
    }
  }
}
