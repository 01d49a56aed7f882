// `openTrip(tripId)` on the profile page: it looks up the trip's summary in
// the user's list, asks the server for the whole trip and, when that works,
// seeds local storage with the trip's days and a merged summary so the
// planner can show it at once; then it always navigates to the planner with
// routing parameters taken from the summary.

module TripOpen {
  import opened Common
  import opened Itinerary
  import opened Storage
  import opened Api
  import opened TripLoader

  /** The navigation `openTrip` performs: target page and query parameters. */
  datatype Route = Route(
    page: string,
    tripId: string,
    country: string,
    countryLabel: string,
    startDate: string,
    endDate: string,
    mode: string)

  const PlannerPage: string := "japan-custom-plan.html"

  /** Stands for a missing summary in `tripSummary && tripSummary.field`: every field falsy. */
  const NoSummary: Summary := Summary(StrId(""), "", "", "", "", "", None, None, false)

  /** `a || b || c` over strings. */
  function FirstSet(a: string, b: string, c: string): string
  {
    if a != "" then a else if b != "" then b else c
  }

  /** `trips.find(t => String(t.id) === String(tripId)) || null` */
  function FindByText(trips: seq<Summary>, id: string): (r: Option<Summary>)
    ensures r.Some? ==> r.value in trips && IdText(r.value.id) == id
    ensures r.Some? ==>
      exists i :: 0 <= i < |trips| && trips[i] == r.value && forall k :: 0 <= k < i ==> IdText(trips[k].id) != id
    ensures r.None? ==> forall t :: t in trips ==> IdText(t.id) != id
  {
    var i := FirstMatch(trips, SameText(StrId(id)));
    if i >= 0 then Some(trips[i])
    else
      assert forall k :: 0 <= k < |trips| ==> !SameText(StrId(id))(trips[k]);
      None
  }

  /** The summary the user's stored list holds for the trip, if the list is there and parses. */
  function LocalSummary(store: Store, user: Option<User>, id: string): Option<Summary>
  {
    if !HasEmail(user) || TripsKey(user.value.email) !in store then None
    else match ReadTrips(store, TripsKey(user.value.email))
      case None => None
      case Some(trips) => FindByText(trips, id)
  }

  /** The summary seeded after a successful fetch: server fields first, then the local summary's. */
  function MergedSummary(data: TripRecord, local: Option<Summary>, now: int): Summary
  {
    var l := local.GetOr(NoSummary);
    Summary(
      StrId(IdText(data.id)),
      FirstSet(data.tripName, l.title, "Untitled Trip"),
      FirstSet(data.country, l.country, ""),
      FirstSet(data.country, l.countryLabel, ""),
      FirstSet(data.startDate, l.startDate, ""),
      FirstSet(data.endDate, l.endDate, ""),
      Some(if CountTruthy(data.daysCount) then data.daysCount.value
           else if data.itinerary.Some? then |data.itinerary.value| else 0),
      Some(now),
      false)
  }

  /** The store after the fetch: unchanged unless the server answered. */
  function Seeded(store: Store, user: Option<User>, id: string, reply: Fetch<TripRecord>, now: int): Store
  {
    if !reply.Ok? then store
    else
      var data := reply.body;
      var s1 := store[ItineraryKey(id) := DaysValue(data.itinerary.GetOr([]))];
      if !HasEmail(user) then s1
      else match ReadTrips(s1, TripsKey(user.value.email))
        case None => s1
        case Some(existing) =>
          s1[TripsKey(user.value.email) :=
               TripsValue(Upsert(existing, SameText(StrId(id)), MergedSummary(data, LocalSummary(store, user, id), now)))]
  }

  /** The routing country: the summary's country lower-cased, else `japan` for a `Japan` label. */
  function RoutingCountry(s: Option<Summary>): string
  {
    var country := if s.Some? then Lower(s.value.country) else "";
    if country == "" && s.Some? && s.value.countryLabel != "" && Lower(s.value.countryLabel) == "japan" then "japan"
    else country
  }

  /** The route for a trip given the summary used for routing. */
  function RouteFor(id: string, s: Option<Summary>): Route
  {
    var l := s.GetOr(NoSummary);
    Route(GetTargetPageForCountry(RoutingCountry(s)), id, RoutingCountry(s),
          FirstSet(l.countryLabel, l.country, "Custom"), l.startDate, l.endDate, "planner")
  }

  /** `getTargetPageForCountry`: every listed country and the default map to the same planner. */
  function GetTargetPageForCountry(country: string): (page: string)
    ensures page == PlannerPage
  {
    if country in {"japan", "malaysia", "france", "italy", "usa", "uk"} then PlannerPage else PlannerPage
  }

  // ---------------------------------------------------------------------
  // Properties

  /**
   * The routing country is the lower-cased summary country when there is
   * one; otherwise it is `japan` exactly when the label reads `japan` in any
   * case, and empty when it does not.
   */
  lemma RoutingCountryFacts(s: Option<Summary>)
    ensures s.Some? && s.value.country != "" ==> RoutingCountry(s) == Lower(s.value.country)
    ensures (s.None? || s.value.country == "") ==>
      (RoutingCountry(s) == "japan" <==> s.Some? && Lower(s.value.countryLabel) == "japan")
    ensures RoutingCountry(s) == "" <==> (s.None? || s.value.country == "") && !(s.Some? && Lower(s.value.countryLabel) == "japan")
  {
    if s.Some? && s.value.country != "" {
      assert |Lower(s.value.country)| == |s.value.country|;
    }
  }

  /** Every route goes to the planner in planner mode, carries the trip id and a non-empty label. */
  lemma RouteFacts(id: string, s: Option<Summary>)
    ensures var r := RouteFor(id, s);
      r.page == PlannerPage && r.mode == "planner" && r.tripId == id && r.countryLabel != ""
  {
  }

  /**
   * The merged summary carries the server's id as text and a title that is
   * never empty; each field is the server's when the server sent it and the
   * local summary's otherwise; the day count is the server's when truthy,
   * else the length of the days it sent.
   */
  lemma MergedSummaryFacts(data: TripRecord, local: Option<Summary>, now: int)
    ensures var m := MergedSummary(data, local, now);
      && IdText(m.id) == IdText(data.id)
      && m.title != ""
      && (data.tripName != "" ==> m.title == data.tripName)
      && (data.tripName == "" && local.Some? && local.value.title != "" ==> m.title == local.value.title)
      && (data.country != "" ==> m.country == data.country && m.countryLabel == data.country)
      && (data.country == "" && local.Some? ==> m.country == local.value.country && m.countryLabel == local.value.countryLabel)
      && (data.startDate != "" ==> m.startDate == data.startDate)
      && (data.startDate == "" && local.Some? ==> m.startDate == local.value.startDate)
      && (data.endDate != "" ==> m.endDate == data.endDate)
      && (data.endDate == "" && local.Some? ==> m.endDate == local.value.endDate)
      && (CountTruthy(data.daysCount) ==> m.days == data.daysCount)
      && (!CountTruthy(data.daysCount) && data.itinerary.Some? ==> m.days == Some(|data.itinerary.value|))
  {
    assert IdText(StrId(IdText(data.id))) == IdText(data.id);
  }

  /**
   * The planner can show an opened trip at once: after a successful fetch,
   * loading the trip from local storage succeeds with the days the server
   * sent (none when it sent no array), provided the user's list, if any,
   * parses.
   */
  lemma SeededTripLoadsLocally(st: LoadState, store: Store, user: Option<User>, id: string, data: TripRecord, now: int)
    requires HasEmail(user) ==> ReadTrips(store, TripsKey(user.value.email)).Some?
    ensures var (after, ok) := LocalLoad(st, Seeded(store, user, id, Ok(data), now), user, id);
      ok && after.itinerary == data.itinerary.GetOr([]) && after.tripId == Some(StrId(id))
  {
    var seeded := Seeded(store, user, id, Ok(data), now);
    if HasEmail(user) {
      KeysDistinct(id, user.value.email);
      var s1 := store[ItineraryKey(id) := DaysValue(data.itinerary.GetOr([]))];
      assert ReadTrips(s1, TripsKey(user.value.email)) == ReadTrips(store, TripsKey(user.value.email));
      assert ItineraryKey(id) in seeded && seeded[ItineraryKey(id)] == DaysValue(data.itinerary.GetOr([]));
      assert ReadTrips(seeded, TripsKey(user.value.email)).Some?;
    }
  }

  /**
   * Seeding keeps the user's list free of duplicates and leaves the merged
   * summary in it when the server's id reads as the requested one.
   */
  lemma SeededListStaysUnique(store: Store, user: User, id: string, data: TripRecord, now: int)
    requires user.email != "" && IdText(data.id) == id
    requires ReadTrips(store, TripsKey(user.email)).Some? && UniqueIds(ReadTrips(store, TripsKey(user.email)).value)
    ensures var after := ReadTrips(Seeded(store, Some(user), id, Ok(data), now), TripsKey(user.email));
      && after.Some? && UniqueIds(after.value)
      && MergedSummary(data, LocalSummary(store, Some(user), id), now) in after.value
  {
    var m := MergedSummary(data, LocalSummary(store, Some(user), id), now);
    var existing := ReadTrips(store, TripsKey(user.email)).value;
    KeysDistinct(id, user.email);
    var s1 := store[ItineraryKey(id) := DaysValue(data.itinerary.GetOr([]))];
    assert ReadTrips(s1, TripsKey(user.email)) == Some(existing);
    FirstMatchSameText(existing, StrId(id), m.id);
    UpsertByTextKeepsIdsUnique(existing, m);
  }

  // ---------------------------------------------------------------------
  // The opener

  class TripOpener {
    var store: Store

    constructor (store0: Store)
      ensures store == store0
    {
      store := store0;
    }

    /** The local summary lookup, as the opener performs it before and after the fetch. */
    method ReadLocalSummary(user: Option<User>, id: string) returns (found: Option<Summary>)
      ensures found == LocalSummary(store, user, id)
    {
      found := None;
      if user.Some? && user.value.email != "" {
        var tripsKey := TripsKey(user.value.email);
        if tripsKey in store {
          var trips := ReadTrips(store, tripsKey);
          if trips.Some? {
            found := FindByText(trips.value, id);
          }
        }
      }
    }

    /**
     * `openTrip(tripId)`: `user` is `getCurrentUser()`, `reply` the server's
     * answer to `GET /api/trip/<tripId>` and `now` the clock.  Returns the
     * navigation, `None` when there is no id.
     */
    method OpenTrip(id: string, user: Option<User>, reply: Fetch<TripRecord>, now: int) returns (nav: Option<Route>)
      modifies this`store
      ensures id == "" ==> nav == None && store == old(store)
      ensures id != "" ==>
        && store == Seeded(old(store), user, id, reply, now)
        && var before := LocalSummary(old(store), user, id);
           nav == Some(RouteFor(id, if before.Some? then before else LocalSummary(store, user, id)))
    {
      if id == "" {
        return None;
      }
      var tripSummary := ReadLocalSummary(user, id);
      if reply.Ok? {
        var data := reply.body;
        var itineraryKey := ItineraryKey(id);
        store := store[itineraryKey := DaysValue(data.itinerary.GetOr([]))];
        if user.Some? && user.value.email != "" {
          var tripsKey := TripsKey(user.value.email);
          var existing := ReadTrips(store, tripsKey);
          KeysDistinct(id, user.value.email);
          if existing.Some? {
            var summary := MergedSummary(data, tripSummary, now);
            var idx := FirstMatch(existing.value, SameText(StrId(id)));
            var list := if idx >= 0 then existing.value[idx := summary] else existing.value + [summary];
            store := store[tripsKey := TripsValue(list)];
          }
        }
      }
      var summaryForRouting := tripSummary;
      if summaryForRouting.None? {
        summaryForRouting := ReadLocalSummary(user, id);
      }
      var country := RoutingCountry(summaryForRouting);
      var l := summaryForRouting.GetOr(NoSummary);
      nav := Some(Route(GetTargetPageForCountry(country), id, country,
                        FirstSet(l.countryLabel, l.country, "Custom"), l.startDate, l.endDate, "planner"));
    }
  }
}
