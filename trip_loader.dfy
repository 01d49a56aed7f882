// The planner page's loader for saved trips: with a `tripId` in the URL it
// fetches the trip from the server, adopts its days and name, and mirrors it
// into local storage for offline use; when the server fails it loads the
// trip from local storage instead.  Without a `tripId` the page starts from
// its template.

module TripLoader {
  import opened Common
  import opened Itinerary
  import opened Storage
  import opened Api

  /** The globals a load sets: `itinerary`, `currentTripId`, `currentTripName`. */
  datatype LoadState = LoadState(itinerary: seq<Day>, tripId: Option<JsId>, tripName: Option<string>)

  /** How the page starts. */
  datatype PageStart = FromTemplate | SavedTrip(loaded: bool)

  /** JavaScript truthiness of `days_count`. */
  predicate CountTruthy(n: Option<int>)
  {
    n.Some? && n.value != 0
  }

  /**
   * `tripData.days_count || tripData.itinerary.length`; `None` when the
   * count is falsy and there is no array to measure, where the source throws.
   */
  function MirrorDays(record: TripRecord): Option<int>
  {
    if CountTruthy(record.daysCount) then record.daysCount
    else if record.itinerary.Some? then Some(|record.itinerary.value|)
    else None
  }

  /** The summary `saveToLocalStorage` records: text id, the country doubling as label. */
  function Metadata(record: TripRecord, days: int, now: int): Summary
  {
    Summary(StrId(IdText(record.id)), record.tripName, record.country, record.country,
            record.startDate, record.endDate, Some(days), Some(now), false)
  }

  /** The value `JSON.stringify(tripData.itinerary)` leaves under the trip's key. */
  function MirroredValue(record: TripRecord): StoredValue
  {
    match record.itinerary
    case Some(days) => DaysValue(days)
    case None => Unparseable
  }

  /** The store after `saveToLocalStorage(tripData)`. */
  function Mirror(store: Store, user: Option<User>, record: TripRecord, now: int): Store
  {
    if !HasEmail(user) then store
    else
      var email := user.value.email;
      var s1 := store[ItineraryKey(IdText(record.id)) := MirroredValue(record)];
      match ReadTrips(s1, TripsKey(email))
      case None => s1
      case Some(trips) =>
        match MirrorDays(record)
        case None => s1
        case Some(n) => s1[TripsKey(email) := TripsValue(Upsert(trips, SameText(record.id), Metadata(record, n, now)))]
  }

  /**
   * `loadTripFromLocalStorage(tripId)`: the new globals and the result.  A
   * missing or unreadable itinerary changes nothing; a readable one is
   * adopted, and a list that does not parse then makes the load report
   * failure although the itinerary has been taken.
   */
  function LocalLoad(st: LoadState, store: Store, user: Option<User>, id: string): (LoadState, bool)
  {
    var key := ItineraryKey(id);
    if key !in store || !store[key].DaysValue? then (st, false)
    else
      var st1 := st.(itinerary := store[key].days, tripId := Some(StrId(id)));
      if !HasEmail(user) || TripsKey(user.value.email) !in store then (st1, true)
      else match ReadTrips(store, TripsKey(user.value.email))
        case None => (st1, false)
        case Some(trips) =>
          var i := FirstMatch(trips, SameText(StrId(id)));
          if i >= 0 then (st1.(tripName := Some(trips[i].title)), true) else (st1, true)
  }

  /** The name a remote load adopts: `trip_name || 'Trip'`. */
  function RemoteName(record: TripRecord): string
  {
    if record.tripName != "" then record.tripName else "Trip"
  }

  // ---------------------------------------------------------------------
  // Properties

  /**
   * Mirroring a trip whose days came as an array is the same save every
   * other page performs: the days under `itinerary:<id>` and the summary
   * upserted by textual id.
   */
  lemma MirrorIsRecordSave(store: Store, user: User, record: TripRecord, now: int)
    requires user.email != "" && record.itinerary.Some?
    ensures MirrorDays(record).Some?
    ensures Mirror(store, Some(user), record, now)
         == RecordSave(store, user.email, IdText(record.id), Metadata(record, MirrorDays(record).value, now), record.itinerary.value)
  {
    var s1 := store[ItineraryKey(IdText(record.id)) := DaysValue(record.itinerary.value)];
    match ReadTrips(s1, TripsKey(user.email)) {
      case None =>
      case Some(trips) => FirstMatchSameText(trips, record.id, StrId(IdText(record.id)));
    }
  }

  /** Without a logged-in email the mirror writes nothing. */
  lemma MirrorNeedsEmail(store: Store, user: Option<User>, record: TripRecord, now: int)
    requires !HasEmail(user)
    ensures Mirror(store, user, record, now) == store
  {
  }

  /**
   * The offline copy works: once a trip loaded from the server has been
   * mirrored into a store whose list parses and names each trip once,
   * loading it from local storage gives back the same days, the trip's id
   * as text and its name.
   */
  lemma MirrorThenLocalLoad(st: LoadState, store: Store, user: User, record: TripRecord, now: int)
    requires user.email != "" && record.itinerary.Some?
    requires ReadTrips(store, TripsKey(user.email)).Some? && UniqueIds(ReadTrips(store, TripsKey(user.email)).value)
    ensures LocalLoad(st, Mirror(store, Some(user), record, now), Some(user), IdText(record.id))
         == (LoadState(record.itinerary.value, Some(StrId(IdText(record.id))), Some(record.tripName)), true)
  {
    var id := IdText(record.id);
    var meta := Metadata(record, MirrorDays(record).value, now);
    var days := record.itinerary.value;
    MirrorIsRecordSave(store, user, record, now);
    var after := RecordSave(store, user.email, id, meta, days);
    RecordSaveFrame(store, user.email, id, meta, days);
    RecordSaveLists(store, user.email, id, meta, days);
    KeysDistinct(id, user.email);
    var trips := ReadTrips(after, TripsKey(user.email)).value;
    assert TripsKey(user.email) in after;
    var i := FirstMatch(trips, SameText(StrId(id)));
    var j :| 0 <= j < |trips| && trips[j] == meta;
    assert SameText(StrId(id))(trips[j]);
    assert i >= 0;
  }

  /**
   * A local load succeeds exactly when the trip's itinerary is stored
   * readably (and the list, if present, parses); whenever the itinerary is
   * readable it is adopted together with the id, and when it is not, nothing
   * changes.
   */
  lemma LocalLoadFacts(st: LoadState, store: Store, user: Option<User>, id: string)
    ensures var (after, ok) := LocalLoad(st, store, user, id);
      var key := ItineraryKey(id);
      && (key in store && store[key].DaysValue? ==>
            after.itinerary == store[key].days && after.tripId == Some(StrId(id)))
      && (!(key in store && store[key].DaysValue?) ==> after == st && !ok)
      && (ok <==> key in store && store[key].DaysValue?
                  && (HasEmail(user) ==> ReadTrips(store, TripsKey(user.value.email)).Some?))
  {
  }

  // ---------------------------------------------------------------------
  // The page

  class TripLoaderPage {
    var itinerary: seq<Day>
    /** `currentTripId` */
    var tripId: Option<JsId>
    /** `currentTripName` */
    var tripName: Option<string>
    var store: Store

    constructor (days: seq<Day>, store0: Store)
      ensures itinerary == days && tripId == None && tripName == None && store == store0
    {
      itinerary := days;
      tripId := None;
      tripName := None;
      store := store0;
    }

    /** `saveToLocalStorage(tripData)`; `user` is `getCurrentUser()` and `now` the clock. */
    method SaveToLocalStorage(user: Option<User>, record: TripRecord, now: int)
      modifies this`store
      ensures store == Mirror(old(store), user, record, now)
    {
      if user.None? || user.value.email == "" {
        return;
      }
      var itineraryKey := ItineraryKey(IdText(record.id));
      store := store[itineraryKey := MirroredValue(record)];
      var tripsKey := TripsKey(user.value.email);
      var existingTrips := ReadTrips(store, tripsKey);
      if existingTrips.None? {
        return;
      }
      var days: int;
      if record.daysCount.Some? && record.daysCount.value != 0 {
        days := record.daysCount.value;
      } else if record.itinerary.Some? {
        days := |record.itinerary.value|;
      } else {
        return;
      }
      var tripMetadata := Metadata(record, days, now);
      var idx := FirstMatch(existingTrips.value, SameText(record.id));
      var trips := if idx >= 0 then existingTrips.value[idx := tripMetadata] else existingTrips.value + [tripMetadata];
      store := store[tripsKey := TripsValue(trips)];
    }

    /** `loadTripFromLocalStorage(tripId)` */
    method LoadTripFromLocalStorage(user: Option<User>, id: string) returns (ok: bool)
      modifies this`itinerary, this`tripId, this`tripName
      ensures (LoadState(itinerary, tripId, tripName), ok)
           == LocalLoad(LoadState(old(itinerary), old(tripId), old(tripName)), store, user, id)
    {
      var itineraryKey := ItineraryKey(id);
      if itineraryKey !in store {
        return false;
      }
      var stored := store[itineraryKey];
      if !stored.DaysValue? {
        return false;
      }
      itinerary := stored.days;
      tripId := Some(StrId(id));
      if user.Some? && user.value.email != "" {
        var tripsKey := TripsKey(user.value.email);
        if tripsKey in store {
          var trips := ReadTrips(store, tripsKey);
          if trips.None? {
            return false;
          }
          var i := FirstMatch(trips.value, SameText(StrId(id)));
          if i >= 0 {
            tripName := Some(trips.value[i].title);
          }
        }
      }
      return true;
    }

    /**
     * `loadTripFromDatabase(tripId)`: `reply` is the server's answer to
     * `GET /api/trip/<tripId>`.  A success adopts the trip and mirrors it; any
     * failure falls back to the local copy.
     */
    method LoadTripFromDatabase(user: Option<User>, id: string, reply: Fetch<TripRecord>, now: int) returns (ok: bool)
      modifies this`itinerary, this`tripId, this`tripName, this`store
      ensures reply.Ok? ==>
        && ok
        && itinerary == reply.body.itinerary.GetOr([])
        && tripId == Some(reply.body.id)
        && tripName == Some(RemoteName(reply.body))
        && store == Mirror(old(store), user, reply.body, now)
      ensures !reply.Ok? ==>
        && store == old(store)
        && (LoadState(itinerary, tripId, tripName), ok)
           == LocalLoad(LoadState(old(itinerary), old(tripId), old(tripName)), old(store), user, id)
    {
      if !reply.Ok? {
        ok := LoadTripFromLocalStorage(user, id);
        return;
      }
      var tripData := reply.body;
      tripId := Some(tripData.id);
      tripName := Some(if tripData.tripName != "" then tripData.tripName else "Trip");
      if tripData.itinerary.Some? {
        itinerary := tripData.itinerary.value;
      } else {
        itinerary := [];
      }
      SaveToLocalStorage(user, tripData, now);
      ok := true;
    }

    /** `initializeTripLoader()`: nothing without a `tripId`, otherwise a load. */
    method InitializeTripLoader(param: string, user: Option<User>, reply: Fetch<TripRecord>, now: int) returns (loaded: Option<bool>)
      modifies this`itinerary, this`tripId, this`tripName, this`store
      ensures param == "" ==>
        && loaded == None && store == old(store) && itinerary == old(itinerary)
        && tripId == old(tripId) && tripName == old(tripName)
      ensures param != "" && reply.Ok? ==>
        && loaded == Some(true) && itinerary == reply.body.itinerary.GetOr([])
        && store == Mirror(old(store), user, reply.body, now)
      ensures param != "" && !reply.Ok? ==>
        && store == old(store) && loaded.Some?
        && (LoadState(itinerary, tripId, tripName), loaded.value)
           == LocalLoad(LoadState(old(itinerary), old(tripId), old(tripName)), old(store), user, param)
    {
      if param == "" {
        return None;
      }
      var success := LoadTripFromDatabase(user, param, reply, now);
      loaded := Some(success);
    }

    /**
     * The page's `DOMContentLoaded` handler: a `tripId` in the URL loads that
     * trip and skips the template; otherwise the template start runs and
     * nothing modelled here changes.
     */
    method OnPageLoad(param: string, user: Option<User>, reply: Fetch<TripRecord>, now: int) returns (start: PageStart)
      modifies this`itinerary, this`tripId, this`tripName, this`store
      ensures start.FromTemplate? <==> param == ""
      ensures param == "" ==>
        && store == old(store) && itinerary == old(itinerary)
        && tripId == old(tripId) && tripName == old(tripName)
      ensures param != "" && reply.Ok? ==> start == SavedTrip(true) && itinerary == reply.body.itinerary.GetOr([])
      ensures param != "" && !reply.Ok? ==>
        && store == old(store)
        && (LoadState(itinerary, tripId, tripName), start.loaded)
           == LocalLoad(LoadState(old(itinerary), old(tripId), old(tripName)), old(store), user, param)
    {
      if param != "" {
        var loaded := InitializeTripLoader(param, user, reply, now);
        return SavedTrip(loaded.value);
      }
      return FromTemplate;
    }
  }
}
