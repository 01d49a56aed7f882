// The save handler that asks for a new trip's name in a styled modal rather
// than `prompt()`.  It shares the login, days and naming checks with the
// plain handler, derives the trip's country from the query, the path and the
// mode, and posts the trip; a refused post writes nothing, and a successful
// one adopts the database id and upserts the trip by its textual id.

module SaveModal {
  import opened Common
  import opened Itinerary
  import opened Storage
  import opened Api
  import opened RealFix

  /** The country and its label as the trip records them. */
  datatype CountryChoice = CountryChoice(country: string, shown: string)

  predicate OnJapanPage(path: string, mode: Option<string>)
  {
    Contains(Lower(path), "japan-custom-plan") || mode == Some("japan")
  }

  /** The derivation `proceedWithSave` performs, as one value. */
  function ChooseCountry(q: PageQuery, mode: Option<string>, path: string): CountryChoice
  {
    var country := if q.country == "" && OnJapanPage(path, mode) then "japan" else Lower(q.country);
    var shown :=
      if q.countryLabel != "" then q.countryLabel
      else if country == "japan" then "Japan"
      else "Custom";
    CountryChoice(country, shown)
  }

  /**
   * The label is never empty; an explicit country is kept lower-cased; a
   * missing one becomes `japan` exactly on the Japan page or in Japan mode;
   * a missing label defaults to `Japan` for Japan and `Custom` otherwise.
   */
  lemma ChooseCountryFacts(q: PageQuery, mode: Option<string>, path: string)
    ensures var c := ChooseCountry(q, mode, path);
      && c.shown != ""
      && (q.country != "" ==> c.country == Lower(q.country))
      && (q.country == "" ==> (c.country == "japan" <==> OnJapanPage(path, mode)))
      && (q.country == "" && !OnJapanPage(path, mode) ==> c.country == "")
      && (q.countryLabel != "" ==> c.shown == q.countryLabel)
      && (q.countryLabel == "" ==> c.shown == (if c.country == "japan" then "Japan" else "Custom"))
  {
  }

  /** `tripData` as `proceedWithSave` builds it. */
  function ModalTrip(id: JsId, name: string, q: PageQuery, mode: Option<string>, path: string, days: seq<Day>, now: int): Summary
    requires days != []
  {
    var c := ChooseCountry(q, mode, path);
    Summary(id, name, c.country, c.shown, TripStart(q, days), TripEnd(q, days), Some(|days|), Some(now), false)
  }

  /** The state after this handler's `saveToDatabase` sees `reply`: no fallback, a textual upsert. */
  function ModalAfterSave(st: SaveState, u: User, trip: Summary, days: seq<Day>, reply: Fetch<PostReply>): SaveState
  {
    match reply
    case Ok(r) =>
      var id := SavedId(r, trip);
      SaveState(
        RecordSave(st.store, u.email, IdText(id), trip.(id := id), days),
        if ReplyHasId(r) then Some(r.id.value) else st.tripId)
    case _ => st
  }

  /**
   * A refused or failed post changes nothing; a successful one stores the
   * days under the trip's final id and, when the user's list parses and
   * names each trip once, still names each trip once, holds the trip and
   * keeps every other trip.
   */
  lemma ModalSaveEffect(st: SaveState, u: User, trip: Summary, days: seq<Day>, reply: Fetch<PostReply>)
    ensures !reply.Ok? ==> ModalAfterSave(st, u, trip, days, reply) == st
    ensures reply.Ok? ==>
      var id := SavedId(reply.body, trip);
      var after := ModalAfterSave(st, u, trip, days, reply).store;
      && ItineraryKey(IdText(id)) in after && after[ItineraryKey(IdText(id))] == DaysValue(days)
      && (var lists := ReadTrips(st.store, TripsKey(u.email));
          lists.Some? && UniqueIds(lists.value) ==>
            var now := ReadTrips(after, TripsKey(u.email));
            && now.Some? && UniqueIds(now.value) && trip.(id := id) in now.value
            && forall t :: t in lists.value && IdText(t.id) != IdText(id) ==> t in now.value)
  {
    if reply.Ok? {
      var id := SavedId(reply.body, trip);
      RecordSaveFrame(st.store, u.email, IdText(id), trip.(id := id), days);
      var lists := ReadTrips(st.store, TripsKey(u.email));
      if lists.Some? && UniqueIds(lists.value) {
        RecordSaveLists(st.store, u.email, IdText(id), trip.(id := id), days);
      }
    }
  }

  /** Posting the same trip twice with the same answer leaves the store as posting it once. */
  lemma ModalSaveTwiceIsOnce(st: SaveState, u: User, trip: Summary, days: seq<Day>, r: PostReply)
    requires ReplyHasId(r) || IdTruthy(trip.id)
    ensures var once := ModalAfterSave(st, u, trip, days, Ok(r));
      ModalAfterSave(once, u, trip, days, Ok(r)).store == once.store
  {
    var id := SavedId(r, trip);
    RecordSaveIdempotent(st.store, u.email, IdText(id), trip.(id := id), days);
  }

  class ModalSavePage {
    /** The days being planned (`itinerary`). */
    var itinerary: seq<Day>
    /** `window.currentTripId` */
    var tripId: Option<JsId>
    /** `window.currentTripName` */
    var tripName: Option<string>
    var store: Store

    constructor (days: seq<Day>, id: Option<JsId>, name: Option<string>, store0: Store)
      ensures itinerary == days && tripId == id && tripName == name && store == store0
    {
      itinerary := days;
      tripId := id;
      tripName := name;
      store := store0;
    }

    /** The country and label `proceedWithSave` settles on, by its own sequence of reassignments. */
    static method DeriveCountry(q: PageQuery, mode: Option<string>, path: string) returns (country: string, countryLabel: string)
      ensures CountryChoice(country, countryLabel) == ChooseCountry(q, mode, path)
    {
      country := Lower(q.country);
      countryLabel := q.countryLabel;
      if country == "" {
        if Contains(Lower(path), "japan-custom-plan") || mode == Some("japan") {
          country := "japan";
          if countryLabel == "" {
            countryLabel := "Japan";
          }
        }
      }
      if countryLabel == "" {
        if country == "japan" {
          countryLabel := "Japan";
        } else {
          countryLabel := "Custom";
        }
      }
    }

    /** `saveToDatabase`: the request body is returned, `reply` is the server's answer. */
    method SaveToDatabase(u: User, trip: Summary, reply: Fetch<PostReply>) returns (sent: TripBody)
      modifies this`store, this`tripId
      ensures sent == RequestBody(u, trip, itinerary)
      ensures SaveState(store, tripId) == ModalAfterSave(SaveState(old(store), old(tripId)), u, trip, itinerary, reply)
    {
      sent := RequestBody(u, trip, itinerary);
      if !reply.Ok? {
        return;
      }
      var data := trip;
      var result := reply.body;
      if result.id.Some? && IdTruthy(result.id.value) {
        data := data.(id := result.id.value);
        tripId := Some(result.id.value);
      }
      store := store[ItineraryKey(IdText(data.id)) := DaysValue(itinerary)];
      var tripsKey := TripsKey(u.email);
      var trips := ReadTrips(store, tripsKey);
      if trips.Some? {
        FirstMatchSameText(trips.value, StrId(IdText(data.id)), data.id);
        var existingIndex := FirstMatch(trips.value, SameText(data.id));
        var list := if existingIndex >= 0 then trips.value[existingIndex := data] else trips.value + [data];
        store := store[tripsKey := TripsValue(list)];
      }
    }

    /** `proceedWithSave`: builds the trip (dates, country, label) and posts it. */
    method ProceedWithSave(u: User, id: JsId, name: string, q: PageQuery, mode: Option<string>, path: string, now: int,
                           reply: Fetch<PostReply>)
      returns (trip: Summary, sent: TripBody)
      requires itinerary != []
      modifies this`store, this`tripId
      ensures trip == ModalTrip(id, name, q, mode, path, itinerary, now)
      ensures sent == RequestBody(u, trip, itinerary)
      ensures SaveState(store, tripId) == ModalAfterSave(SaveState(old(store), old(tripId)), u, trip, itinerary, reply)
    {
      var startDate := q.startDate;
      var endDate := q.endDate;
      if startDate == "" || endDate == "" {
        if startDate == "" {
          startDate := itinerary[0].date;
        }
        if endDate == "" {
          endDate := itinerary[|itinerary| - 1].date;
        }
      }
      var country, countryLabel := DeriveCountry(q, mode, path);
      trip := Summary(id, name, country, countryLabel, startDate, endDate, Some(|itinerary|), Some(now), false);
      sent := SaveToDatabase(u, trip, reply);
    }

    /**
     * `handleSaveClick` together with the modal's callback: `modalName` is
     * the name the modal hands back (`None` for cancel) and `tempSuffix`
     * the tail of the id a new trip gets.
     */
    method HandleSaveClick(user: Option<User>, q: PageQuery, mode: Option<string>, path: string, modalName: Option<string>,
                           tempSuffix: string, now: int, reply: Fetch<PostReply>)
      returns (outcome: ClickOutcome)
      modifies this`store, this`tripId, this`tripName
      ensures !HasEmail(user) ==> outcome == NotLoggedIn
      ensures HasEmail(user) && itinerary == [] ==> outcome == NothingToSave
      ensures HasEmail(user) && itinerary != [] && !TripIdSet(old(tripId)) && modalName.None? ==> outcome == NameCancelled
      ensures !(HasEmail(user) && itinerary != [] && (TripIdSet(old(tripId)) || modalName.Some?)) ==>
        store == old(store) && tripId == old(tripId) && tripName == old(tripName)
      ensures HasEmail(user) && itinerary != [] && (TripIdSet(old(tripId)) || modalName.Some?) ==>
        var id := NamedId(old(tripId), tempSuffix);
        var name := NamedName(old(tripId), old(tripName), modalName);
        var trip := ModalTrip(id, name, q, mode, path, itinerary, now);
        && tripName == (if TripIdSet(old(tripId)) then old(tripName) else Some(name))
        && outcome == Posted(trip, RequestBody(user.value, trip, itinerary))
        && SaveState(store, tripId) == ModalAfterSave(SaveState(old(store), Some(id)), user.value, trip, itinerary, reply)
    {
      if user.None? || user.value.email == "" {
        return NotLoggedIn;
      }
      if itinerary == [] {
        return NothingToSave;
      }
      var id: JsId, name: string;
      if !TripIdSet(tripId) {
        if modalName.None? {
          return NameCancelled;
        }
        name := Trim(modalName.value);
        id := StrId("trip_" + tempSuffix);
        tripId := Some(id);
        tripName := Some(name);
      } else {
        id := tripId.value;
        name := tripName.GetOr("");
      }
      var trip, sent := ProceedWithSave(user.value, id, name, q, mode, path, now, reply);
      outcome := Posted(trip, sent);
    }
  }
}
