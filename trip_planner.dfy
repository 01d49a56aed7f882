// The generic planner page (`trip-planner.html`): a country mode chosen from
// the URL picks a template and a default currency; the user edits days and
// activities in place; the balance panel groups paid activities; the save
// button posts the trip to the server and records it in the browser.

module TripPlanner {
  import opened Common
  import opened Itinerary
  import opened Storage
  import opened Api
  import opened Budget

  // ---------------------------------------------------------------------
  // The country registry

  datatype TemplateDay = TemplateDay(day: int, city: string, title: string, coords: Coord)

  datatype CountryConfig = CountryConfig(currency: string, template: seq<TemplateDay>)

  const JapanDays: seq<TemplateDay> := [
    TemplateDay(1, "Tokyo", "Arrival in Tokyo", Coord(35.6762, 139.6503)),
    TemplateDay(2, "Tokyo", "Explore Tokyo", Coord(35.6762, 139.6503)),
    TemplateDay(3, "Kyoto", "Travel to Kyoto", Coord(35.0116, 135.7681)),
    TemplateDay(4, "Kyoto", "Temples and Culture", Coord(35.0116, 135.7681)),
    TemplateDay(5, "Osaka", "Osaka Food Tour", Coord(34.6937, 135.5023)),
    TemplateDay(6, "Osaka", "Universal Studios Japan", Coord(34.6654, 135.4324)),
    TemplateDay(7, "Tokyo", "Return to Tokyo & Departure", Coord(35.6762, 139.6503))]

  const MalaysiaDays: seq<TemplateDay> := [
    TemplateDay(1, "Kuala Lumpur", "Arrival in Kuala Lumpur", Coord(3.1390, 101.6869)),
    TemplateDay(2, "Kuala Lumpur", "City Tour & Petronas Towers", Coord(3.1579, 101.7114)),
    TemplateDay(3, "Kota Kinabalu", "Flight to Kota Kinabalu", Coord(5.9780, 116.0735)),
    TemplateDay(4, "Kota Kinabalu", "Island Hopping", Coord(5.9780, 116.0735)),
    TemplateDay(5, "Mount Kinabalu", "Mount Kinabalu National Park", Coord(6.0329, 116.1193)),
    TemplateDay(6, "Kuala Lumpur", "Return to Kuala Lumpur", Coord(3.1390, 101.6869)),
    TemplateDay(7, "Kuala Lumpur", "Shopping & Departure", Coord(3.1390, 101.6869))]

  // The Paris titles keep the characters the repository's file holds.
  const ParisDays: seq<TemplateDay> := [
    TemplateDay(1, "Paris", "Arrival and Eiffel Tower", Coord(48.8584, 2.2945)),
    TemplateDay(2, "Paris", "Louvre and Seine Cruise", Coord(48.8606, 2.3376)),
    TemplateDay(3, "Paris", "Montmartre & Sacr\U{221A}\U{00A9}-C\U{2248}\U{00EC}ur", Coord(48.8867, 2.3431)),
    TemplateDay(4, "Paris", "Versailles Day Trip", Coord(48.8049, 2.1204)),
    TemplateDay(5, "Paris", "Shopping & Caf\U{221A}\U{00A9}s", Coord(48.8566, 2.3522))]

  const NewYorkDays: seq<TemplateDay> := [
    TemplateDay(1, "New York", "Arrival and Times Square", Coord(40.7580, -73.9855)),
    TemplateDay(2, "New York", "Central Park & Museums", Coord(40.7812, -73.9665)),
    TemplateDay(3, "New York", "Statue of Liberty & Ellis Island", Coord(40.7061, -74.0170)),
    TemplateDay(4, "New York", "Brooklyn Bridge & DUMBO", Coord(40.7061, -73.9969)),
    TemplateDay(5, "New York", "Shopping and Departure", Coord(40.7580, -73.9855))]

  /** `COUNTRY_REGISTRY[mode]`: the currency and day template of each mode. */
  function Registry(mode: string): Option<CountryConfig>
  {
    if mode == "japan" then Some(CountryConfig("JPY", JapanDays))
    else if mode == "malaysia" then Some(CountryConfig("MYR", MalaysiaDays))
    else if mode == "paris" then Some(CountryConfig("EUR", ParisDays))
    else if mode == "newyork" then Some(CountryConfig("USD", NewYorkDays))
    else if mode == "blank" then Some(CountryConfig("USD", []))
    else None
  }

  predicate TemplateNumbered(template: seq<TemplateDay>)
  {
    forall i :: 0 <= i < |template| ==> template[i].day == i + 1
  }

  /** Every template numbers its days 1, 2, ... in order. */
  lemma RegistryTemplatesNumbered(mode: string)
    requires Registry(mode).Some?
    ensures TemplateNumbered(Registry(mode).value.template)
    ensures forall i :: 0 <= i < |Registry(mode).value.template| ==> Registry(mode).value.template[i].title != ""
    ensures Registry(mode).value.template == [] <==> mode == "blank"
  {
  }

  /**
   * `detectMode`: the lower-cased `mode` query parameter (default `blank`)
   * when the registry knows it, `blank` otherwise.
   */
  function ResolveMode(param: string): (m: string)
    ensures Registry(m).Some?
    ensures Registry(Lower(param)).Some? ==> m == Lower(param)
    ensures Registry(Lower(param)).None? ==> m == "blank"
  {
    var requested := Lower(if param != "" then param else "blank");
    if Registry(requested).Some? then requested else "blank"
  }

  /** A resolved mode resolves to itself: the registry's names are lower case. */
  lemma ResolveModeIdempotent(param: string)
    ensures ResolveMode(ResolveMode(param)) == ResolveMode(param)
  {
    var m := ResolveMode(param);
    if Registry(Lower(param)).Some? {
      LowerIdempotent(param);
    } else {
      assert Lower("blank") == "blank" by {
        forall i | 0 <= i < 5
          ensures Lower("blank")[i] == "blank"[i]
        {
        }
      }
    }
    assert Lower(m) == m;
  }

  // ---------------------------------------------------------------------
  // Factories

  /** `createDay(n, city, title, coords, date)` */
  function CreateDay(n: int, city: string, title: string, coords: Option<Coord>, date: string): (d: Day)
    ensures d.day == n && d.activities == [] && d.coords == coords
    ensures d.title == if title != "" then title else "Day " + IntToString(n)
  {
    Day(n, date, if title != "" then title else "Day " + IntToString(n), city, coords, [])
  }

  /**
   * The fields a caller hands to `createActivity`; `None` is a field the
   * caller leaves out (so the default applies).  A provided `null` price is
   * `Some(None)`, a provided `null` currency is `Some("")`.
   */
  datatype ActivityFields = ActivityFields(
    id: Option<Option<string>>,
    kind: Option<string>,
    name: Option<string>,
    location: Option<string>,
    link: Option<string>,
    startTime: Option<string>,
    endTime: Option<string>,
    budget: Option<string>,
    price: Option<Option<int>>,
    currency: Option<string>,
    coords: Option<Option<Coord>>,
    description: Option<string>)

  const NoFields: ActivityFields := ActivityFields(None, None, None, None, None, None, None, None, None, None, None, None)

  /** The activity `createActivity({})` builds, given its generated id. */
  function DefaultActivity(id: string, defaultCurrency: string): Activity
  {
    Activity(Some(id), "Activity", "", "", "", "", "", "Free", None,
             if defaultCurrency != "" then defaultCurrency else "USD", None, "")
  }

  /** `Object.assign({}, defaultActivity, overrides)` */
  function CreateActivity(overrides: ActivityFields, id: string, defaultCurrency: string): (a: Activity)
    ensures var d := DefaultActivity(id, defaultCurrency);
      && a.id == overrides.id.GetOr(d.id) && a.kind == overrides.kind.GetOr(d.kind)
      && a.name == overrides.name.GetOr(d.name) && a.budget == overrides.budget.GetOr(d.budget)
      && a.price == overrides.price.GetOr(d.price) && a.currency == overrides.currency.GetOr(d.currency)
      && a.coords == overrides.coords.GetOr(d.coords)
  {
    var d := DefaultActivity(id, defaultCurrency);
    Activity(
      overrides.id.GetOr(d.id), overrides.kind.GetOr(d.kind), overrides.name.GetOr(d.name),
      overrides.location.GetOr(d.location), overrides.link.GetOr(d.link),
      overrides.startTime.GetOr(d.startTime), overrides.endTime.GetOr(d.endTime),
      overrides.budget.GetOr(d.budget), overrides.price.GetOr(d.price),
      overrides.currency.GetOr(d.currency), overrides.coords.GetOr(d.coords),
      overrides.description.GetOr(d.description))
  }

  /** With nothing overridden the factory yields the defaults, whose currency is never empty. */
  lemma CreateActivityDefaults(id: string, defaultCurrency: string)
    ensures CreateActivity(NoFields, id, defaultCurrency) == DefaultActivity(id, defaultCurrency)
    ensures CreateActivity(NoFields, id, defaultCurrency).currency != ""
    ensures CreateActivity(NoFields, id, defaultCurrency).id == Some(id)
  {
  }

  // ---------------------------------------------------------------------
  // The activity form

  /** The raw values of the activity form's inputs. */
  datatype ActivityInputs = ActivityInputs(
    name: string,
    kind: string,
    location: string,
    link: string,
    startTime: string,
    endTime: string,
    budget: string,
    priceInput: string,
    parsedPrice: Option<int>,
    currency: string,
    description: string)

  /** The `activityData` object the form handler builds. */
  datatype ActivityData = ActivityData(
    name: string,
    kind: string,
    location: string,
    link: string,
    startTime: string,
    endTime: string,
    budget: string,
    price: Option<int>,
    currency: string,
    description: string)

  /**
   * Trimmed text fields; a price (`Number(input)`, `None` for NaN) only when
   * the budget is Paid and a price was typed; a currency only when Paid.
   */
  function ReadActivity(f: ActivityInputs): (d: ActivityData)
    ensures d.budget == f.budget && d.kind == f.kind && d.startTime == f.startTime && d.endTime == f.endTime
    ensures d.name == Trim(f.name) && d.location == Trim(f.location) && d.link == Trim(f.link)
    ensures d.description == Trim(f.description)
    ensures d.budget != "Paid" ==> d.price.None? && d.currency == ""
    ensures d.budget == "Paid" ==> d.currency == f.currency
    ensures d.price == if f.budget == "Paid" && f.priceInput != "" then f.parsedPrice else None
  {
    ActivityData(Trim(f.name), f.kind, Trim(f.location), Trim(f.link), f.startTime, f.endTime, f.budget,
                 if f.budget == "Paid" && f.priceInput != "" then f.parsedPrice else None,
                 if f.budget == "Paid" then f.currency else "",
                 Trim(f.description))
  }

  /** `activityData` as overrides: it names every field except the id and the coordinates. */
  function AsFields(d: ActivityData): ActivityFields
  {
    ActivityFields(None, Some(d.kind), Some(d.name), Some(d.location), Some(d.link), Some(d.startTime),
                   Some(d.endTime), Some(d.budget), Some(d.price), Some(d.currency), None, Some(d.description))
  }

  /** `Object.assign(activity, activityData)`: the form's fields over the existing activity. */
  function Merge(a: Activity, d: ActivityData): Activity
  {
    a.(kind := d.kind, name := d.name, location := d.location, link := d.link, startTime := d.startTime,
       endTime := d.endTime, budget := d.budget, price := d.price, currency := d.currency, description := d.description)
  }

  /**
   * Adding and editing agree: a new activity is the defaults with the form
   * merged in, so it differs from an edited one only in the id and the
   * coordinates it keeps.
   */
  lemma AddedActivityIsMergedDefaults(d: ActivityData, id: string, defaultCurrency: string)
    ensures CreateActivity(AsFields(d), id, defaultCurrency) == Merge(DefaultActivity(id, defaultCurrency), d)
    ensures forall a: Activity :: Merge(a, d).id == a.id && Merge(a, d).coords == a.coords
  {
  }

  // ---------------------------------------------------------------------
  // The template itinerary

  datatype UrlParams = UrlParams(mode: string, country: string, countryLabel: string, startDate: string, endDate: string)

  /** The day `createDay` builds from a template entry, without a date. */
  function FromTemplate(t: TemplateDay): Day
  {
    CreateDay(t.day, t.city, t.title, Some(t.coords), "")
  }

  /**
   * The date day `i` receives: `start + i` formatted, when both URL dates
   * are present and both parse (`start`, `end` are the parsed day numbers);
   * the end date plays no other part.
   */
  function TemplateDate(url: UrlParams, start: Option<int>, end: Option<int>, format: int -> string, i: int): string
  {
    if url.startDate != "" && url.endDate != "" && start.Some? && end.Some? then format(start.value + i) else ""
  }

  /** `initializeItineraryFromTemplate` */
  function TemplatePlan(template: seq<TemplateDay>, url: UrlParams, start: Option<int>, end: Option<int>,
                        format: int -> string): seq<Day>
  {
    if template == [] then [CreateDay(1, "", "Day 1", None, "")]
    else seq(|template|, i requires 0 <= i < |template| => FromTemplate(template[i]).(date := TemplateDate(url, start, end, format, i)))
  }

  /**
   * The plan of every mode is numbered from 1 and has no activities: one
   * "Day 1" for the blank mode, one day per template entry otherwise, with
   * the template's city and title.
   */
  lemma TemplatePlanShape(mode: string, url: UrlParams, start: Option<int>, end: Option<int>, format: int -> string)
    requires Registry(mode).Some?
    ensures var t := Registry(mode).value.template;
      var plan := TemplatePlan(t, url, start, end, format);
      && Numbered(plan)
      && (forall i :: 0 <= i < |plan| ==> plan[i].activities == [])
      && (t == [] ==> |plan| == 1 && plan[0].title == "Day 1" && plan[0].date == "")
      && (t != [] ==> |plan| == |t| && forall i :: 0 <= i < |t| ==> plan[i].city == t[i].city && plan[i].title == t[i].title)
  {
    RegistryTemplatesNumbered(mode);
    TemplatePlanNumbered(Registry(mode).value.template, url, start, end, format);
  }

  lemma TemplatePlanNumbered(t: seq<TemplateDay>, url: UrlParams, start: Option<int>, end: Option<int>, format: int -> string)
    requires TemplateNumbered(t)
    requires forall i :: 0 <= i < |t| ==> t[i].title != ""
    ensures var plan := TemplatePlan(t, url, start, end, format);
      && Numbered(plan)
      && (forall i :: 0 <= i < |plan| ==> plan[i].activities == [])
      && (t == [] ==> |plan| == 1 && plan[0].title == "Day 1" && plan[0].date == "")
      && (t != [] ==> |plan| == |t| && forall i :: 0 <= i < |t| ==> plan[i].city == t[i].city && plan[i].title == t[i].title)
  {
  }

  // ---------------------------------------------------------------------
  // Saving

  /** The `tripData` object the save button hands to the save routine. */
  datatype TripData = TripData(id: string, title: string, country: string, countryLabel: string,
                               startDate: string, endDate: string)

  /**
   * The trip's name: `tripData.title || currentTripName`, or, when that is
   * blank, the trimmed answer to the prompt (`None` when cancelled or blank).
   */
  function ChosenName(title: string, current: Option<string>, answer: Option<string>): Option<string>
  {
    var known := if title != "" then title else current.GetOr("");
    if Trim(known) != "" then Some(known)
    else if answer.Some? && Trim(answer.value) != "" then Some(Trim(answer.value))
    else None
  }

  /**
   * A chosen name is never blank, and there is none exactly when both the
   * known name and the answer to the prompt are blank or missing.
   */
  lemma ChosenNameNotBlank(title: string, current: Option<string>, answer: Option<string>)
    ensures var r := ChosenName(title, current, answer);
      && (r.Some? ==> Trim(r.value) != "")
      && (r.None? <==> Trim(if title != "" then title else current.GetOr("")) == "" && (answer.None? || Trim(answer.value) == ""))
  {
    var known := if title != "" then title else current.GetOr("");
    if Trim(known) == "" && answer.Some? && Trim(answer.value) != "" {
      TrimIdempotent(answer.value);
    }
  }

  /** A name made of a no-break space is refused, as `trim()` strips it. */
  lemma NoBreakSpaceNameRefused()
    ensures ChosenName("", None, Some("\U{00A0}")) == None
  {
    NoBreakSpaceIsBlank();
  }

  /** `data.id || tripData.id || generateTripId()`, as text. */
  function DbIdOf(r: PostReply, tripId: string, spareId: string): (dbId: string)
    ensures tripId != "" ==> dbId != ""
  {
    if r.id.Some? && IdTruthy(r.id.value) then IdText(r.id.value)
    else if tripId != "" then tripId
    else spareId
  }

  /**
   * A save reaches the request when there is a user with an id or an
   * email, at least one day, and a name.
   */
  predicate SaveReady(user: Option<User>, days: seq<Day>, data: TripData, current: Option<string>, answer: Option<string>)
  {
    && user.Some? && (user.value.id != "" || user.value.email != "")
    && days != []
    && ChosenName(data.title, current, answer).Some?
  }

  /** `tripData.startDate || itinerary[0].date || ''` */
  function StartOf(data: TripData, days: seq<Day>): string
    requires days != []
  {
    if data.startDate != "" then data.startDate else days[0].date
  }

  /** `tripData.endDate || itinerary[itinerary.length - 1].date || ''` */
  function EndOf(data: TripData, days: seq<Day>): string
    requires days != []
  {
    if data.endDate != "" then data.endDate else days[|days| - 1].date
  }

  /** The body of the `POST /api/trips` request; its `user_id` is `user.id || user.email`. */
  function PlannerBody(u: User, name: string, data: TripData, days: seq<Day>): TripBody
    requires days != []
  {
    TripBody(if u.id != "" then u.id else u.email, name, data.country, StartOf(data, days), EndOf(data, days),
             Some(|days|), Some(days))
  }

  /** The summary an accepted save upserts into the owner's list of trips. */
  function SavedSummary(data: TripData, name: string, days: seq<Day>, dbId: string, now: int): Summary
    requires days != []
  {
    Summary(StrId(dbId), name, data.country, if data.countryLabel != "" then data.countryLabel else data.country,
            StartOf(data, days), EndOf(data, days), Some(|days|), Some(now), false)
  }

  /**
   * After an accepted save the trip's days are stored under its database
   * id; the owner's list (when it parsed and named no trip twice) then
   * names the trip once, under that id and the chosen name, keeps every
   * other trip, and still names no trip twice.
   */
  lemma PlannerSaveRecordsTrip(store: Store, u: User, data: TripData, name: string, days: seq<Day>, dbId: string, now: int)
    requires days != []
    ensures var after := RecordSave(store, OwnerOf(u), dbId, SavedSummary(data, name, days, dbId, now), days);
      ItineraryKey(dbId) in after && after[ItineraryKey(dbId)] == DaysValue(days)
    ensures var key := TripsKey(OwnerOf(u));
      var after := RecordSave(store, OwnerOf(u), dbId, SavedSummary(data, name, days, dbId, now), days);
      ReadTrips(store, key).Some? && UniqueIds(ReadTrips(store, key).value) ==>
        && ReadTrips(after, key).Some? && UniqueIds(ReadTrips(after, key).value)
        && (exists t :: t in ReadTrips(after, key).value && t.id == StrId(dbId) && t.title == name && t.days == Some(|days|))
        && (forall t :: t in ReadTrips(store, key).value && IdText(t.id) != dbId ==> t in ReadTrips(after, key).value)
  {
    var summary := SavedSummary(data, name, days, dbId, now);
    RecordSaveFrame(store, OwnerOf(u), dbId, summary, days);
    if ReadTrips(store, TripsKey(OwnerOf(u))).Some? && UniqueIds(ReadTrips(store, TripsKey(OwnerOf(u))).value) {
      RecordSaveLists(store, OwnerOf(u), dbId, summary, days);
    }
  }

  // ---------------------------------------------------------------------
  // What the global name `savePlannerTripToProfileAndDatabase` calls

  /**
   * The function a call through the global name reaches.  The top-level
   * declaration binds the name to the saving routine; the export to
   * `window` at the end of the script assigns the same global binding a
   * wrapper whose body calls the global name again.
   */
  datatype SaveBinding = DeclaredSave | ExportedWrapper

  /** The binding in effect once the script has run: the export replaced the declaration. */
  function BindingAfterLoad(): (b: SaveBinding)
    ensures b != DeclaredSave
  {
    ExportedWrapper
  }

  datatype CallEnd = ReachedSave | StackOverflow

  /**
   * Where a call through the global name ends, given the stack frames left:
   * the declared routine runs its body; the wrapper looks the name up again,
   * finds itself and calls itself with one frame fewer.
   */
  function CallGlobal(b: SaveBinding, frames: nat): CallEnd
  {
    if frames == 0 then StackOverflow
    else match b
      case DeclaredSave => ReachedSave
      case ExportedWrapper => CallGlobal(ExportedWrapper, frames - 1)
  }

  /** As written: however deep the stack, a call through the exported wrapper never reaches the save. */
  lemma {:induction false} WrapperNeverSaves(frames: nat)
    ensures CallGlobal(BindingAfterLoad(), frames) == StackOverflow
  {
    if frames > 0 {
      WrapperNeverSaves(frames - 1);
    }
  }

  /** As intended: with the declared routine bound to the name, any call with a frame to spare reaches it. */
  lemma DeclaredSaveRuns(frames: nat)
    requires frames > 0
    ensures CallGlobal(DeclaredSave, frames) == ReachedSave
  {
  }

  // ---------------------------------------------------------------------
  // The page

  class PlannerPage {
    var mode: string
    /** `currentCountryConfig` */
    var config: CountryConfig
    var defaultCurrency: string
    var itinerary: seq<Day>
    var currentDayIndex: int
    var expandedActivityId: Option<string>
    /** The script's own `let currentTripId`, which the save never updates. */
    var currentTripId: Option<string>
    /** `window.currentTripId`, a different variable, set by a successful save. */
    var windowTripId: Option<string>
    /** `currentTripName`, declared with `var` and so also `window.currentTripName`. */
    var currentTripName: Option<string>
    var store: Store

    /** The selected day is never negative and lies inside a non-empty itinerary. */
    predicate DaySelected()
      reads this
    {
      0 <= currentDayIndex && (currentDayIndex < |itinerary| || currentDayIndex == 0)
    }

    constructor (store: Store)
      ensures mode == "blank" && config == Registry("blank").value && defaultCurrency == "USD"
      ensures itinerary == [] && currentDayIndex == 0 && expandedActivityId == None
      ensures currentTripId == None && windowTripId == None && currentTripName == None
      ensures this.store == store && DaySelected()
    {
      mode := "blank";
      config := CountryConfig("USD", []);
      defaultCurrency := "USD";
      itinerary := [];
      currentDayIndex := 0;
      expandedActivityId := None;
      currentTripId := None;
      windowTripId := None;
      currentTripName := None;
      this.store := store;
    }

    /** `detectMode` */
    method DetectMode(param: string)
      modifies this`mode, this`config, this`defaultCurrency
      ensures mode == ResolveMode(param) && Registry(mode) == Some(config)
      ensures defaultCurrency == config.currency
    {
      var requested := Lower(if param != "" then param else "blank");
      var found := Registry(requested);
      if found.Some? {
        mode := requested;
        config := found.value;
      } else {
        mode := "blank";
        config := Registry("blank").value;
      }
      defaultCurrency := config.currency;
    }

    /** `applyDatesToItinerary`: day `i` gets `start + i`, unless a date does not parse. */
    method ApplyDates(start: Option<int>, end: Option<int>, format: int -> string)
      modifies this`itinerary
      ensures start.None? || end.None? ==> itinerary == old(itinerary)
      ensures start.Some? && end.Some? ==>
        && |itinerary| == |old(itinerary)|
        && forall i :: 0 <= i < |itinerary| ==> itinerary[i] == old(itinerary)[i].(date := format(start.value + i))
    {
      if start.None? || end.None? {
        return;
      }
      var i := 0;
      while i < |itinerary|
        invariant 0 <= i <= |itinerary| == |old(itinerary)|
        invariant forall j :: 0 <= j < i ==> itinerary[j] == old(itinerary)[j].(date := format(start.value + j))
        invariant forall j :: i <= j < |itinerary| ==> itinerary[j] == old(itinerary)[j]
      {
        itinerary := itinerary[i := itinerary[i].(date := format(start.value + i))];
        i := i + 1;
      }
    }

    /** `initializeItineraryFromTemplate`; `start` and `end` are the URL dates as parsed. */
    method InitializeFromTemplate(url: UrlParams, start: Option<int>, end: Option<int>, format: int -> string)
      modifies this`itinerary
      ensures itinerary == TemplatePlan(config.template, url, start, end, format)
    {
      itinerary := [];
      var template := config.template;
      if template == [] {
        itinerary := [CreateDay(1, "", "Day 1", None, "")];
        return;
      }
      var i := 0;
      while i < |template|
        invariant 0 <= i <= |template|
        invariant |itinerary| == i && forall j :: 0 <= j < i ==> itinerary[j] == FromTemplate(template[j])
      {
        var t := template[i];
        itinerary := itinerary + [CreateDay(t.day, t.city, t.title, Some(t.coords), "")];
        i := i + 1;
      }
      if url.startDate != "" && url.endDate != "" {
        ApplyDates(start, end, format);
      }
    }

    /** `setCurrentDay`: an index outside the itinerary is ignored. */
    method SetCurrentDay(index: int)
      modifies this`currentDayIndex
      ensures currentDayIndex == if 0 <= index < |itinerary| then index else old(currentDayIndex)
      ensures old(DaySelected()) ==> DaySelected()
    {
      if index < 0 || index >= |itinerary| {
        return;
      }
      currentDayIndex := index;
    }

    /** `addNewDay`: appends "Day n+1" and selects it. */
    method AddNewDay()
      modifies this`itinerary, this`currentDayIndex
      ensures itinerary == old(itinerary) + [CreateDay(|old(itinerary)| + 1, "", "", None, "")]
      ensures currentDayIndex == |itinerary| - 1 && DaySelected()
      ensures old(Numbered(itinerary)) ==> Numbered(itinerary)
    {
      itinerary := itinerary + [CreateDay(|itinerary| + 1, "", "", None, "")];
      currentDayIndex := |itinerary| - 1;
    }

    /**
     * `deleteDay(index)`: removes that day and renumbers the rest; the
     * selection moves to the last day only when it falls off the end.
     */
    method DeleteDay(index: int)
      modifies this`itinerary, this`currentDayIndex
      ensures !(0 <= index < |old(itinerary)|) ==>
        itinerary == old(itinerary) && currentDayIndex == old(currentDayIndex)
      ensures 0 <= index < |old(itinerary)| ==>
        && itinerary == Renumbered(RemoveAt(old(itinerary), index))
        && currentDayIndex == if old(currentDayIndex) >= |itinerary| then (if |itinerary| > 0 then |itinerary| - 1 else 0)
                              else old(currentDayIndex)
      ensures old(DaySelected()) ==> DaySelected()
    {
      if index < 0 || index >= |itinerary| {
        return;
      }
      var rest := RemoveAt(itinerary, index);
      itinerary := RenumberDays(rest);
      assert itinerary == Renumbered(rest);
      if currentDayIndex >= |itinerary| {
        currentDayIndex := if |itinerary| - 1 > 0 then |itinerary| - 1 else 0;
      }
    }

    /** `deleteActivity`: removes exactly that activity, or nothing when either index is out of range. */
    method DeleteActivity(dayIndex: int, activityIndex: int)
      modifies this`itinerary
      ensures (0 <= dayIndex < |old(itinerary)| && 0 <= activityIndex < |old(itinerary)[dayIndex].activities|) ==>
        var day := old(itinerary)[dayIndex];
        itinerary == old(itinerary)[dayIndex := day.(activities := RemoveAt(day.activities, activityIndex))]
      ensures !(0 <= dayIndex < |old(itinerary)| && 0 <= activityIndex < |old(itinerary)[dayIndex].activities|) ==>
        itinerary == old(itinerary)
    {
      if dayIndex < 0 || dayIndex >= |itinerary| {
        return;
      }
      var day := itinerary[dayIndex];
      if activityIndex < 0 || activityIndex >= |day.activities| {
        return;
      }
      itinerary := itinerary[dayIndex := day.(activities := RemoveAt(day.activities, activityIndex))];
    }

    /** `toggleActivityDetails(id)`: at most one activity is expanded. */
    method ToggleActivityDetails(id: string)
      modifies this`expandedActivityId
      ensures expandedActivityId == if old(expandedActivityId) == Some(id) then None else Some(id)
    {
      if expandedActivityId == Some(id) {
        expandedActivityId := None;
      } else {
        expandedActivityId := Some(id);
      }
    }

    /**
     * The day form's submit handler.  `editing` is the hidden day index
     * (`None` when empty).  Editing keeps the old title and date when the
     * new ones are empty; adding appends a day numbered after the last.
     */
    method SubmitDayForm(editing: Option<int>, titleInput: string, cityInput: string, date: string)
      modifies this`itinerary
      ensures editing.None? ==>
        itinerary == old(itinerary) + [CreateDay(|old(itinerary)| + 1, Trim(cityInput), Trim(titleInput), None, date)]
      ensures editing.Some? && 0 <= editing.value < |old(itinerary)| ==>
        var d := old(itinerary)[editing.value];
        itinerary == old(itinerary)[editing.value := d.(title := if Trim(titleInput) != "" then Trim(titleInput) else d.title,
                                                         city := Trim(cityInput),
                                                         date := if date != "" then date else d.date)]
      ensures editing.Some? && !(0 <= editing.value < |old(itinerary)|) ==> itinerary == old(itinerary)
      ensures Numbered(old(itinerary)) ==> Numbered(itinerary)
    {
      var title := Trim(titleInput);
      var city := Trim(cityInput);
      if editing.None? {
        var added := CreateDay(|itinerary| + 1, city, title, None, date);
        if Numbered(itinerary) {
          NumberedAppend(itinerary, added);
        }
        itinerary := itinerary + [added];
        return;
      }
      var i := editing.value;
      if !(0 <= i < |itinerary|) {
        return;
      }
      var d := itinerary[i];
      var edited := d.(title := if title != "" then title else d.title,
                       city := city,
                       date := if date != "" then date else d.date);
      if Numbered(itinerary) {
        NumberedUpdate(itinerary, i, edited);
      }
      itinerary := itinerary[i := edited];
    }

    /**
     * The activity form's submit handler.  A day index outside the
     * itinerary aborts; editing merges the form into the existing activity
     * (keeping its id and coordinates) when it exists; adding appends the
     * factory's activity with a fresh id.
     */
    method SubmitActivityForm(dayIndex: int, editing: Option<int>, inputs: ActivityInputs, freshSuffix: string)
      modifies this`itinerary
      ensures !(0 <= dayIndex < |old(itinerary)|) ==> itinerary == old(itinerary)
      ensures 0 <= dayIndex < |old(itinerary)| ==>
        var data := ReadActivity(inputs);
        var day := old(itinerary)[dayIndex];
        var acts := day.activities;
        && (editing.None? ==>
              itinerary == old(itinerary)[dayIndex := day.(activities := acts + [CreateActivity(AsFields(data), "activity_" + freshSuffix, defaultCurrency)])])
        && (editing.Some? && 0 <= editing.value < |acts| ==>
              itinerary == old(itinerary)[dayIndex := day.(activities := acts[editing.value := Merge(acts[editing.value], data)])])
        && (editing.Some? && !(0 <= editing.value < |acts|) ==> itinerary == old(itinerary))
    {
      if dayIndex < 0 || dayIndex >= |itinerary| {
        return;
      }
      var data := ReadActivity(inputs);
      var day := itinerary[dayIndex];
      var acts := day.activities;
      if editing.Some? {
        var j := editing.value;
        if 0 <= j < |acts| {
          itinerary := itinerary[dayIndex := day.(activities := acts[j := Merge(acts[j], data)])];
        }
      } else {
        var a := CreateActivity(AsFields(data), "activity_" + freshSuffix, defaultCurrency);
        itinerary := itinerary[dayIndex := day.(activities := acts + [a])];
      }
    }

    /** `renderBalanceCalculator`: the currency groups in code order. */
    method Balance() returns (groups: seq<CurrencyGroup>)
      ensures groups == ByCode(Grouped(PaidItems(itinerary)))
    {
      var paid, grouped := Tally(itinerary);
      groups := ByCode(grouped);
    }

    /**
     * `loadSavedTrip(tripId)`: the server's copy replaces the itinerary (an
     * itinerary that is not an array loads as empty); a failure changes nothing.
     */
    method LoadSavedTrip(reply: Fetch<TripRecord>)
      modifies this`itinerary, this`currentTripId, this`currentTripName
      ensures reply.Ok? ==>
        && itinerary == reply.body.itinerary.GetOr([])
        && currentTripId == Some(IdText(reply.body.id))
        && currentTripName == Some(if reply.body.tripName != "" then reply.body.tripName else "Trip")
      ensures !reply.Ok? ==>
        itinerary == old(itinerary) && currentTripId == old(currentTripId) && currentTripName == old(currentTripName)
    {
      match reply {
        case Ok(data) =>
          currentTripId := Some(IdText(data.id));
          currentTripName := Some(if data.tripName != "" then data.tripName else "Trip");
          itinerary := data.itinerary.GetOr([]);
        case _ =>
      }
    }

    /**
     * The two writes of an accepted save: the days under the trip's key,
     * then the summary upserted by textual id into the owner's list when
     * that list parses.
     */
    method StoreTrip(owner: string, dbId: string, summary: Summary)
      modifies this`store
      ensures store == RecordSave(old(store), owner, dbId, summary, itinerary)
    {
      store := store[ItineraryKey(dbId) := DaysValue(itinerary)];
      var tripsKey := TripsKey(owner);
      var trips := ReadTrips(store, tripsKey);
      if trips.Some? {
        store := store[tripsKey := TripsValue(Upsert(trips.value, SameText(StrId(dbId)), summary))];
      }
    }

    /**
     * The body of `savePlannerTripToProfileAndDatabase(tripData)` as
     * declared.  `sent` is the request it makes, if it gets that far; it
     * returns whether the server accepted the trip.  Only then does it write
     * to the browser's storage, and `window.currentTripId` and the trip
     * name follow the saved trip.
     */
    method SavePlannerTrip(user: Option<User>, data: TripData, answer: Option<string>, reply: Fetch<PostReply>,
                           spareId: string, now: int)
      returns (saved: bool, sent: Option<TripBody>)
      modifies this`store, this`windowTripId, this`currentTripName
      ensures sent.Some? <==> SaveReady(user, itinerary, data, old(currentTripName), answer)
      ensures sent.Some? ==>
        sent.value == PlannerBody(user.value, ChosenName(data.title, old(currentTripName), answer).value, data, itinerary)
      ensures saved <==> sent.Some? && reply.Ok?
      ensures !saved ==> store == old(store) && windowTripId == old(windowTripId) && currentTripName == old(currentTripName)
      ensures saved ==>
        var name := ChosenName(data.title, old(currentTripName), answer).value;
        var dbId := DbIdOf(reply.body, data.id, spareId);
        && store == RecordSave(old(store), OwnerOf(user.value), dbId, SavedSummary(data, name, itinerary, dbId, now), itinerary)
        && windowTripId == Some(dbId) && currentTripName == Some(name)
    {
      if user.None? || (user.value.id == "" && user.value.email == "") {
        return false, None;
      }
      if itinerary == [] {
        return false, None;
      }
      var chosen := ChosenName(data.title, currentTripName, answer);
      if chosen.None? {
        return false, None;
      }
      var u, name := user.value, chosen.value;
      sent := Some(PlannerBody(u, name, data, itinerary));
      if !reply.Ok? {
        return false, sent;
      }
      var dbId := DbIdOf(reply.body, data.id, spareId);
      StoreTrip(OwnerOf(u), dbId, SavedSummary(data, name, itinerary, dbId, now));
      windowTripId := Some(dbId);
      currentTripName := Some(name);
      saved := true;
    }

    /**
     * `handleSaveTripClick` as written: needs a user with an email and a
     * non-empty itinerary; a trip without an id first asks for a name
     * (cancel or blank aborts with nothing assigned) and gets a temporary
     * `trip_...` id.  The save it then awaits goes through the global name,
     * which by then is the self-calling wrapper: the call exhausts the stack
     * (`frames` is the depth left) and the click rejects with nothing sent
     * and nothing stored.
     */
    method HandleSaveTripClick(user: Option<User>, firstAnswer: Option<string>, tempSuffix: string, frames: nat)
      returns (threw: bool)
      modifies this`currentTripId, this`currentTripName
      ensures threw <==>
        && HasEmail(user) && itinerary != []
        && ((old(currentTripId).None? || old(currentTripId).value == "") ==> firstAnswer.Some? && Trim(firstAnswer.value) != "")
      ensures threw && (old(currentTripId).None? || old(currentTripId).value == "") ==>
        currentTripId == Some("trip_" + tempSuffix) && currentTripName == Some(Trim(firstAnswer.value))
      ensures !threw || (old(currentTripId).Some? && old(currentTripId).value != "") ==>
        currentTripId == old(currentTripId) && currentTripName == old(currentTripName)
      ensures store == old(store) && windowTripId == old(windowTripId)
    {
      if user.None? || user.value.email == "" {
        return false;
      }
      if itinerary == [] {
        return false;
      }
      if currentTripId.None? || currentTripId.value == "" {
        if firstAnswer.None? || Trim(firstAnswer.value) == "" {
          return false;
        }
        currentTripName := Some(Trim(firstAnswer.value));
        currentTripId := Some("trip_" + tempSuffix);
      }
      WrapperNeverSaves(frames);
      threw := CallGlobal(BindingAfterLoad(), frames) == StackOverflow;
    }

    /**
     * `handleSaveTripClick` as intended, with the call reaching the declared
     * save: after the same guards and naming, the trip gets a `trip_...` id
     * that the script keeps even after the server assigns one, and is saved
     * as `SavePlannerTrip` states.
     */
    method HandleSaveTripClickIntended(user: Option<User>, url: UrlParams, firstAnswer: Option<string>, tempSuffix: string,
                               secondAnswer: Option<string>, reply: Fetch<PostReply>, spareId: string, now: int)
      returns (saved: bool)
      modifies this`currentTripId, this`currentTripName, this`windowTripId, this`store
      ensures user.None? || user.value.email == "" || itinerary == [] ==>
        && !saved && currentTripId == old(currentTripId) && currentTripName == old(currentTripName)
        && windowTripId == old(windowTripId) && store == old(store)
      ensures var needsName := old(currentTripId).None? || old(currentTripId).value == "";
        HasEmail(user) && itinerary != [] && needsName &&
        (firstAnswer.None? || Trim(firstAnswer.value) == "") ==>
          && !saved && currentTripId == old(currentTripId) && currentTripName == old(currentTripName)
          && windowTripId == old(windowTripId) && store == old(store)
      ensures var needsName := old(currentTripId).None? || old(currentTripId).value == "";
        HasEmail(user) && itinerary != [] &&
        (needsName ==> firstAnswer.Some? && Trim(firstAnswer.value) != "") ==>
          var id := if needsName then "trip_" + tempSuffix else old(currentTripId).value;
          var named := if needsName then Some(Trim(firstAnswer.value)) else old(currentTripName);
          var data := TripData(id, named.GetOr(""), url.country, url.countryLabel, url.startDate, url.endDate);
          var name := ChosenName(data.title, named, secondAnswer);
          var dbId := if reply.Ok? then DbIdOf(reply.body, id, spareId) else "";
          && currentTripId == Some(id)
          && (saved <==> name.Some? && reply.Ok?)
          && (saved ==> && store == RecordSave(old(store), user.value.email, dbId, SavedSummary(data, name.value, itinerary, dbId, now), itinerary)
                        && windowTripId == Some(dbId) && currentTripName == name)
          && (!saved ==> store == old(store) && windowTripId == old(windowTripId) && currentTripName == named)
    {
      if user.None? || user.value.email == "" {
        return false;
      }
      if itinerary == [] {
        return false;
      }
      if currentTripId.None? || currentTripId.value == "" {
        if firstAnswer.None? || Trim(firstAnswer.value) == "" {
          return false;
        }
        currentTripName := Some(Trim(firstAnswer.value));
        currentTripId := Some("trip_" + tempSuffix);
      }
      var data := TripData(currentTripId.value, currentTripName.GetOr(""), url.country, url.countryLabel,
                           url.startDate, url.endDate);
      var sent;
      saved, sent := SavePlannerTrip(user, data, secondAnswer, reply, spareId, now);
    }
  }
}
