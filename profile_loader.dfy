// The profile page's trip list: fetched from the server for the logged-in
// user, reshaped into the summaries the page lists and cached in local
// storage; when the server fails, the cached list is read back, oldest first.

module ProfileLoader {
  import opened Common
  import opened Storage
  import opened Api
  import opened Sorting

  /** `new Date(t.lastUpdated || 0)` as a number of milliseconds. */
  function LastUpdatedKey(t: Summary): int
  {
    t.lastUpdated.GetOr(0)
  }

  /** One server row as the page lists it. */
  function TransformRow(row: TripListRow, now: int): Summary
  {
    Summary(
      StrId(IdText(row.id)),
      if row.tripName != "" then row.tripName else "Untitled Trip",
      row.country,
      row.country,
      row.startDate,
      row.endDate,
      row.daysCount,
      Some(if row.createdAt.Some? then row.createdAt.value else now),
      false)
  }

  /** `trips.map(...)` over the server's rows. */
  function TransformRows(rows: seq<TripListRow>, now: int): (r: seq<Summary>)
    ensures |r| == |rows|
    ensures forall i :: 0 <= i < |rows| ==> r[i] == TransformRow(rows[i], now)
  {
    seq(|rows|, i requires 0 <= i < |rows| => TransformRow(rows[i], now))
  }

  /** `getAllSavedTripsFromLocalStorage()`: the cached list, oldest first; `[]` when absent or unreadable. */
  function LocalTrips(store: Store, user: Option<User>): seq<Summary>
  {
    if !HasEmail(user) || TripsKey(user.value.email) !in store then []
    else match ReadTrips(store, TripsKey(user.value.email))
      case None => []
      case Some(trips) => SortBy(trips, LastUpdatedKey)
  }

  /** The store after `saveTripsToLocalStorage(trips)`. */
  function CacheTrips(store: Store, user: Option<User>, trips: seq<Summary>): Store
  {
    if HasEmail(user) then store[TripsKey(user.value.email) := TripsValue(trips)] else store
  }

  // ---------------------------------------------------------------------
  // Properties

  /**
   * Each row becomes a summary with its id as text, a non-empty title (the
   * trip's name when it has one), the country doubling as label, the row's
   * day count, and its creation time or else the present.
   */
  lemma TransformRowFacts(row: TripListRow, now: int)
    ensures var t := TransformRow(row, now);
      && t.id.StrId? && IdText(t.id) == IdText(row.id)
      && t.title != "" && (row.tripName != "" ==> t.title == row.tripName)
      && t.country == row.country && t.countryLabel == row.country
      && t.days == row.daysCount
      && t.lastUpdated == Some(row.createdAt.GetOr(now))
      && !t.localOnly
  {
  }

  /**
   * The cached list comes back as a reordering of what is stored, oldest
   * first, with trips of equal age in their stored order; without an email
   * or a readable list it is empty.
   */
  lemma LocalTripsFacts(store: Store, user: Option<User>)
    ensures var r := LocalTrips(store, user);
      && SortedBy(r, LastUpdatedKey)
      && (!HasEmail(user) ==> r == [])
      && (HasEmail(user) && ReadTrips(store, TripsKey(user.value.email)).None? ==> r == [])
      && (HasEmail(user) && ReadTrips(store, TripsKey(user.value.email)).Some? ==>
            && multiset(r) == multiset(ReadTrips(store, TripsKey(user.value.email)).value)
            && forall k :: WithKey(r, LastUpdatedKey, k) == WithKey(ReadTrips(store, TripsKey(user.value.email)).value, LastUpdatedKey, k))
  {
    if HasEmail(user) {
      var key := TripsKey(user.value.email);
      match ReadTrips(store, key) {
        case None =>
        case Some(trips) =>
          SortBySorted(trips, LastUpdatedKey);
          forall k ensures WithKey(SortBy(trips, LastUpdatedKey), LastUpdatedKey, k) == WithKey(trips, LastUpdatedKey, k) {
            SortByStable(trips, LastUpdatedKey, k);
          }
          if key !in store {
            assert trips == [];
          }
      }
    }
  }

  /**
   * After a remote load is cached, reading the cache offline gives back the
   * same trips, oldest first.
   */
  lemma CachedTripsReadBack(store: Store, user: Option<User>, rows: seq<TripListRow>, now: int)
    requires HasEmail(user)
    ensures var r := LocalTrips(CacheTrips(store, user, TransformRows(rows, now)), user);
      multiset(r) == multiset(TransformRows(rows, now)) && SortedBy(r, LastUpdatedKey)
  {
    SortBySorted(TransformRows(rows, now), LastUpdatedKey);
  }

  // ---------------------------------------------------------------------
  // The page

  class ProfilePage {
    var store: Store

    constructor (store0: Store)
      ensures store == store0
    {
      store := store0;
    }

    /** `getAllSavedTripsFromLocalStorage()`; `user` is `getCurrentUser()`. */
    method GetAllSavedTripsFromLocalStorage(user: Option<User>) returns (trips: seq<Summary>)
      ensures trips == LocalTrips(store, user)
    {
      if user.None? || user.value.email == "" {
        return [];
      }
      var tripsKey := TripsKey(user.value.email);
      if tripsKey !in store {
        return [];
      }
      var parsed := ReadTrips(store, tripsKey);
      if parsed.None? {
        return [];
      }
      trips := SortBy(parsed.value, LastUpdatedKey);
    }

    /** `saveTripsToLocalStorage(trips)` */
    method SaveTripsToLocalStorage(user: Option<User>, trips: seq<Summary>)
      modifies this`store
      ensures store == CacheTrips(old(store), user, trips)
    {
      if user.None? || user.value.email == "" {
        return;
      }
      store := store[TripsKey(user.value.email) := TripsValue(trips)];
    }

    /**
     * `loadUserTripsFromDatabase()`: `reply` is the server's answer to
     * `GET /api/trips/<user.id || user.email>` and `now` the clock.
     */
    method LoadUserTripsFromDatabase(user: Option<User>, reply: Fetch<seq<TripListRow>>, now: int) returns (trips: seq<Summary>)
      modifies this`store
      ensures !HasEmail(user) ==> trips == [] && store == old(store)
      ensures HasEmail(user) && reply.Ok? ==>
        && trips == TransformRows(reply.body, now)
        && store == CacheTrips(old(store), user, trips)
      ensures HasEmail(user) && !reply.Ok? ==> trips == LocalTrips(store, user) && store == old(store)
    {
      if user.None? || user.value.email == "" {
        return [];
      }
      if !reply.Ok? {
        trips := GetAllSavedTripsFromLocalStorage(user);
        return;
      }
      var transformed := TransformRows(reply.body, now);
      SaveTripsToLocalStorage(user, transformed);
      trips := transformed;
    }
  }
}
