// The single save-button handler that replaces every older one on the
// planner page: it checks the user and the days, names a new trip, builds the
// trip's summary, hands it to the planner's own save routine when there is
// one, and otherwise posts it to the server itself.  A failed post falls back
// to a local save; a successful one adopts the database id and records the
// trip in the user's list with a strict (`===`) id comparison.

module RealFix {
  import opened Common
  import opened Itinerary
  import opened Storage
  import opened Api

  /** The query parameters the handler reads; `""` stands for a missing one. */
  datatype PageQuery = PageQuery(country: string, countryLabel: string, startDate: string, endDate: string)

  /** What `window.savePlannerTripToProfileAndDatabase` does with the trip. */
  datatype Delegate = NoDelegate | DelegateThrew | DelegateReturnedObject | DelegateReturnedOther

  /** How a click ends. */
  datatype ClickOutcome =
    | NotLoggedIn
    | NothingToSave
    | NameCancelled
    | Delegated(trip: Summary)
    | Posted(trip: Summary, body: TripBody)

  /** `window.currentTripId` and the store, the state a save changes. */
  datatype SaveState = SaveState(store: Store, tripId: Option<JsId>)

  predicate TripIdSet(tripId: Option<JsId>)
  {
    tripId.Some? && IdTruthy(tripId.value)
  }

  /** The prompt's answer is neither a cancel nor blank. */
  predicate NameGiven(answer: Option<string>)
  {
    answer.Some? && Trim(answer.value) != ""
  }

  /** The click gets past the login, days and naming checks. */
  predicate Proceeds(user: Option<User>, days: seq<Day>, tripId: Option<JsId>, answer: Option<string>)
  {
    HasEmail(user) && days != [] && (TripIdSet(tripId) || NameGiven(answer))
  }

  /** The trip id once naming is done: the current one, or `trip_<suffix>` for a new trip. */
  function NamedId(tripId: Option<JsId>, tempSuffix: string): (id: JsId)
    ensures IdTruthy(id)
  {
    if TripIdSet(tripId) then tripId.value else StrId("trip_" + tempSuffix)
  }

  /** The trip name once naming is done; a missing current name is `""`. */
  function NamedName(tripId: Option<JsId>, tripName: Option<string>, answer: Option<string>): string
    requires TripIdSet(tripId) || answer.Some?
  {
    if TripIdSet(tripId) then tripName.GetOr("") else Trim(answer.value)
  }

  /** `params.get('startDate') || itinerary[0].date || ''` */
  function TripStart(q: PageQuery, days: seq<Day>): string
    requires days != []
  {
    if q.startDate != "" then q.startDate else days[0].date
  }

  /** `params.get('endDate') || itinerary[itinerary.length - 1].date || ''` */
  function TripEnd(q: PageQuery, days: seq<Day>): string
    requires days != []
  {
    if q.endDate != "" then q.endDate else days[|days| - 1].date
  }

  /** The `tripData` object the handler builds. */
  function PreparedTrip(id: JsId, name: string, q: PageQuery, days: seq<Day>, now: int): Summary
    requires days != []
  {
    Summary(id, name, q.country, q.countryLabel, TripStart(q, days), TripEnd(q, days), Some(|days|), Some(now), false)
  }

  /** The body of `POST /api/trips`: `user.id || user.email`, `countryLabel || country || 'Custom'`. */
  function RequestBody(u: User, trip: Summary, days: seq<Day>): TripBody
  {
    TripBody(
      if u.id != "" then u.id else u.email,
      trip.title,
      if trip.countryLabel != "" then trip.countryLabel else if trip.country != "" then trip.country else "Custom",
      trip.startDate,
      trip.endDate,
      trip.days,
      Some(days))
  }

  /** `tripData.id || generateTripId()` */
  function FallbackId(trip: Summary, spareId: string): JsId
  {
    if IdTruthy(trip.id) then trip.id else StrId("trip_" + spareId)
  }

  predicate ReplyHasId(r: PostReply)
  {
    r.id.Some? && IdTruthy(r.id.value)
  }

  /** The id the trip carries after a successful post: the database's, when it sent one. */
  function SavedId(r: PostReply, trip: Summary): JsId
  {
    if ReplyHasId(r) then r.id.value else trip.id
  }

  /**
   * The store after a successful post: the days under `itinerary:<id>` and,
   * when the user's list parses, the trip upserted into it by `t.id === id`.
   */
  function StrictRecord(store: Store, email: string, entry: Summary, days: seq<Day>): Store
  {
    var s1 := store[ItineraryKey(IdText(entry.id)) := DaysValue(days)];
    match ReadTrips(s1, TripsKey(email))
    case None => s1
    case Some(trips) => s1[TripsKey(email) := TripsValue(Upsert(trips, SameValue(entry.id), entry))]
  }

  /** The state after `saveToDatabase` sees `reply`. */
  function AfterSave(st: SaveState, u: User, trip: Summary, days: seq<Day>, reply: Fetch<PostReply>, spareId: string, later: int): SaveState
  {
    match reply
    case Threw => st
    case NotOk(_) =>
      var fid := FallbackId(trip, spareId);
      SaveState(
        RecordSave(st.store, OwnerOf(u), IdText(fid), trip.(id := fid, lastUpdated := Some(later), localOnly := true), days),
        Some(fid))
    case Ok(r) =>
      SaveState(
        StrictRecord(st.store, u.email, trip.(id := SavedId(r, trip)), days),
        if ReplyHasId(r) then Some(r.id.value) else st.tripId)
  }

  // ---------------------------------------------------------------------
  // What a save leaves behind

  /**
   * A failed post keeps the work: the days are stored under the trip's id,
   * which the handler's trips always carry, and the user's list (when it
   * parses) stays free of duplicates and holds the trip marked local-only.
   */
  lemma FallbackSavesLocally(st: SaveState, u: User, trip: Summary, days: seq<Day>, status: int, spareId: string, later: int)
    requires IdTruthy(trip.id)
    ensures var after := AfterSave(st, u, trip, days, NotOk(status), spareId, later);
      && after.tripId == Some(trip.id)
      && ItineraryKey(IdText(trip.id)) in after.store
      && after.store[ItineraryKey(IdText(trip.id))] == DaysValue(days)
    ensures var lists := ReadTrips(st.store, TripsKey(OwnerOf(u)));
      lists.Some? && UniqueIds(lists.value) ==>
        var after := ReadTrips(AfterSave(st, u, trip, days, NotOk(status), spareId, later).store, TripsKey(OwnerOf(u)));
        && after.Some? && UniqueIds(after.value)
        && trip.(lastUpdated := Some(later), localOnly := true) in after.value
        && forall t :: t in lists.value && IdText(t.id) != IdText(trip.id) ==> t in after.value
  {
    var summary := trip.(lastUpdated := Some(later), localOnly := true);
    RecordSaveFrame(st.store, OwnerOf(u), IdText(trip.id), summary, days);
    var lists := ReadTrips(st.store, TripsKey(OwnerOf(u)));
    if lists.Some? && UniqueIds(lists.value) {
      RecordSaveLists(st.store, OwnerOf(u), IdText(trip.id), summary, days);
    }
  }

  /**
   * A successful post adopts the database's id when it sends one: the days
   * are stored under that id, `window.currentTripId` becomes it, and the
   * user's list (when it parses) holds the trip under it.
   */
  lemma SuccessAdoptsDatabaseId(st: SaveState, u: User, trip: Summary, days: seq<Day>, r: PostReply, spareId: string, later: int)
    ensures var after := AfterSave(st, u, trip, days, Ok(r), spareId, later);
      var id := if ReplyHasId(r) then r.id.value else trip.id;
      && after.tripId == (if ReplyHasId(r) then r.id else st.tripId)
      && ItineraryKey(IdText(id)) in after.store
      && after.store[ItineraryKey(IdText(id))] == DaysValue(days)
      && (ReadTrips(st.store, TripsKey(u.email)).Some? ==>
            var list := ReadTrips(after.store, TripsKey(u.email));
            list.Some? && trip.(id := id) in list.value)
      && forall k :: k in st.store && k != ItineraryKey(IdText(id)) && k != TripsKey(u.email) ==>
            k in after.store && after.store[k] == st.store[k]
  {
    var id := SavedId(r, trip);
    var entry := trip.(id := id);
    KeysDistinct(IdText(id), u.email);
    var s1 := st.store[ItineraryKey(IdText(id)) := DaysValue(days)];
    assert ReadTrips(s1, TripsKey(u.email)) == ReadTrips(st.store, TripsKey(u.email));
    match ReadTrips(s1, TripsKey(u.email)) {
      case None =>
      case Some(trips) => UpsertHolds(trips, SameValue(id), entry);
    }
  }

  /** An upsert always leaves the entry in the list. */
  lemma UpsertHolds(list: seq<Summary>, matches: Summary -> bool, entry: Summary)
    ensures entry in Upsert(list, matches, entry)
  {
    var i := FirstMatch(list, matches);
    if i >= 0 {
      assert Upsert(list, matches, entry)[i] == entry;
    } else {
      assert Upsert(list, matches, entry)[|list|] == entry;
    }
  }

  /**
   * When the stored ids and the saved id are all text, the strict upsert of
   * a successful post finds the same entry a textual one would, so the list
   * stays free of duplicates and holds the trip.
   */
  lemma StrictUpsertOverTextIds(list: seq<Summary>, entry: Summary)
    requires entry.id.StrId?
    requires forall i :: 0 <= i < |list| ==> list[i].id.StrId?
    requires UniqueIds(list)
    ensures Upsert(list, SameValue(entry.id), entry) == Upsert(list, SameText(entry.id), entry)
    ensures UniqueIds(Upsert(list, SameValue(entry.id), entry))
    ensures entry in Upsert(list, SameValue(entry.id), entry)
  {
    forall i | 0 <= i < |list|
      ensures SameValue(entry.id)(list[i]) == SameText(entry.id)(list[i])
    {
    }
    UpsertByTextKeepsIdsUnique(list, entry);
  }

  /**
   * When the database answers with the number `n` and the user's list
   * already holds the trip under the text `"n"`, the strict comparison
   * misses it: a successful post appends a second entry for the same trip.
   */
  lemma NumericReplyDuplicatesTextEntry(store: Store, u: User, trip: Summary, days: seq<Day>, n: nat, spareId: string, later: int, k: nat)
    requires n != 0
    requires ReadTrips(store, TripsKey(u.email)).Some?
    requires var list := ReadTrips(store, TripsKey(u.email)).value;
      && k < |list| && list[k].id == StrId(NatToString(n))
      && forall t :: t in list ==> t.id != NumId(n)
    ensures var before := ReadTrips(store, TripsKey(u.email)).value;
      var after := AfterSave(SaveState(store, None), u, trip, days, Ok(PostReply(Some(NumId(n)))), spareId, later);
      && after.tripId == Some(NumId(n))
      && ReadTrips(after.store, TripsKey(u.email)) == Some(before + [trip.(id := NumId(n))])
      && !UniqueIds(before + [trip.(id := NumId(n))])
  {
    var before := ReadTrips(store, TripsKey(u.email)).value;
    var entry := trip.(id := NumId(n));
    KeysDistinct(NatToString(n), u.email);
    var s1 := store[ItineraryKey(IdText(entry.id)) := DaysValue(days)];
    assert ReadTrips(s1, TripsKey(u.email)) == Some(before);
    forall j | 0 <= j < |before|
      ensures !SameValue(entry.id)(before[j])
    {
      assert before[j] in before;
    }
    assert FirstMatch(before, SameValue(entry.id)) == -1;
    var r := before + [entry];
    assert r[k] == before[k] && r[|before|] == entry;
    assert IdText(r[k].id) == IdText(r[|before|].id);
  }

  // ---------------------------------------------------------------------
  // The page

  class RealFixPage {
    /** The days being planned (`itinerary`). */
    var itinerary: seq<Day>
    /** `window.currentTripId` */
    var tripId: Option<JsId>
    /** `window.currentTripName` */
    var tripName: Option<string>
    var store: Store

    constructor (days: seq<Day>, id: Option<JsId>, name: Option<string>, store0: Store)
      ensures itinerary == days && tripId == id && tripName == name && store == store0
    {
      itinerary := days;
      tripId := id;
      tripName := name;
      store := store0;
    }

    /**
     * `saveToDatabase(user, tripData, itinerary)`: posts the trip (the request
     * body is returned) and then records the outcome `reply`.  `spareId` is
     * the suffix a fresh id would get and `later` the fallback's timestamp.
     */
    method SaveToDatabase(u: User, trip: Summary, reply: Fetch<PostReply>, spareId: string, later: int) returns (sent: TripBody)
      modifies this`store, this`tripId
      ensures sent == RequestBody(u, trip, itinerary)
      ensures SaveState(store, tripId) == AfterSave(SaveState(old(store), old(tripId)), u, trip, itinerary, reply, spareId, later)
    {
      sent := RequestBody(u, trip, itinerary);
      match reply {
        case Threw =>
        case NotOk(_) =>
          var fallbackId := if IdTruthy(trip.id) then trip.id else StrId("trip_" + spareId);
          tripId := Some(fallbackId);
          store := store[ItineraryKey(IdText(fallbackId)) := DaysValue(itinerary)];
          var tripsKey := TripsKey(OwnerOf(u));
          var trips := ReadTrips(store, tripsKey);
          if trips.Some? {
            var summary := trip.(id := fallbackId, lastUpdated := Some(later), localOnly := true);
            FirstMatchSameText(trips.value, StrId(IdText(fallbackId)), fallbackId);
            var existingIndex := FirstMatch(trips.value, SameText(fallbackId));
            var list := if existingIndex >= 0 then trips.value[existingIndex := summary] else trips.value + [summary];
            store := store[tripsKey := TripsValue(list)];
          }
        case Ok(r) =>
          var data := trip;
          if r.id.Some? && IdTruthy(r.id.value) {
            data := data.(id := r.id.value);
            tripId := Some(r.id.value);
          }
          store := store[ItineraryKey(IdText(data.id)) := DaysValue(itinerary)];
          var tripsKey := TripsKey(u.email);
          var trips := ReadTrips(store, tripsKey);
          if trips.Some? {
            var existingIndex := FirstMatch(trips.value, SameValue(data.id));
            var list := if existingIndex >= 0 then trips.value[existingIndex := data] else trips.value + [data];
            store := store[tripsKey := TripsValue(list)];
          }
      }
    }

    /**
     * `handleSaveClick`: `user` is `getCurrentUser()`, `answer` the reply to
     * the name prompt (`None` for cancel), `tempSuffix` the tail of the id a
     * new trip gets, `now` the clock, `delegate` what the planner's own save
     * routine does and `reply` what the server answers.
     */
    method HandleSaveClick(user: Option<User>, q: PageQuery, answer: Option<string>, tempSuffix: string, now: int,
                           delegate: Delegate, reply: Fetch<PostReply>, spareId: string, later: int)
      returns (outcome: ClickOutcome)
      modifies this`store, this`tripId, this`tripName
      ensures !HasEmail(user) ==> outcome == NotLoggedIn
      ensures HasEmail(user) && itinerary == [] ==> outcome == NothingToSave
      ensures HasEmail(user) && itinerary != [] && !TripIdSet(old(tripId)) && !NameGiven(answer) ==> outcome == NameCancelled
      ensures !Proceeds(user, itinerary, old(tripId), answer) ==>
        store == old(store) && tripId == old(tripId) && tripName == old(tripName)
      ensures Proceeds(user, itinerary, old(tripId), answer) ==>
        var id := NamedId(old(tripId), tempSuffix);
        var name := NamedName(old(tripId), old(tripName), answer);
        var trip := PreparedTrip(id, name, q, itinerary, now);
        && tripName == (if TripIdSet(old(tripId)) then old(tripName) else Some(name))
        && (delegate == DelegateReturnedObject ==>
              outcome == Delegated(trip) && store == old(store) && tripId == Some(id))
        && (delegate != DelegateReturnedObject ==>
              && outcome == Posted(trip, RequestBody(user.value, trip, itinerary))
              && SaveState(store, tripId) == AfterSave(SaveState(old(store), Some(id)), user.value, trip, itinerary, reply, spareId, later))
    {
      if user.None? || user.value.email == "" {
        return NotLoggedIn;
      }
      if itinerary == [] {
        return NothingToSave;
      }
      var id: JsId, name: string;
      if !TripIdSet(tripId) {
        if answer.None? || Trim(answer.value) == "" {
          return NameCancelled;
        }
        name := Trim(answer.value);
        id := StrId("trip_" + tempSuffix);
        tripId := Some(id);
        tripName := Some(name);
      } else {
        id := tripId.value;
        name := tripName.GetOr("");
      }
      var trip := PreparedTrip(id, name, q, itinerary, now);
      if delegate == DelegateReturnedObject {
        return Delegated(trip);
      }
      var sent := SaveToDatabase(user.value, trip, reply, spareId, later);
      outcome := Posted(trip, sent);
    }
  }
}
