// The Express back end: sign-up and login over a users table, and trip
// creation and lookup over a trips table.  The MySQL tables are modelled as
// the server's own state: each table is its rows in insertion order with an
// auto-increment counter.  A failing query is an oracle flag on each route.

module Server {
  import opened Common
  import opened Itinerary
  import opened Api
  import opened Sorting

  /** A row of `users`. */
  datatype UserRow = UserRow(id: nat, name: string, email: string, password: string)

  /** How `itinerary_json` comes back from the driver: SQL NULL, text to parse, or a value the driver parsed. */
  datatype ItineraryColumn = NullColumn | TextColumn(parsed: Option<seq<Day>>) | ParsedColumn(days: seq<Day>)

  /** A row of `trips`; `createdAt` is the `created_at` timestamp in milliseconds. */
  datatype TripRow = TripRow(
    id: nat,
    userId: string,
    tripName: string,
    country: string,
    startDate: string,
    endDate: string,
    daysCount: Option<int>,
    itineraryJson: ItineraryColumn,
    createdAt: int)

  /** The user as sign-up and login return it: no password. */
  datatype AuthUser = AuthUser(id: nat, name: string, email: string)

  /** An HTTP reply: an error status with its message, or a 200 with a body. */
  datatype Reply<+T> = Failure(status: int, error: string) | Success(body: T)

  // ---------------------------------------------------------------------
  // Table lookups and response shaping

  /** `SELECT ... FROM users WHERE email = ?` then `results[0]`. */
  function FindUser(users: seq<UserRow>, email: string): (r: Option<UserRow>)
    ensures r.Some? ==> r.value in users && r.value.email == email
    ensures r.None? ==> forall u :: u in users ==> u.email != email
  {
    if users == [] then None
    else if users[0].email == email then Some(users[0])
    else FindUser(users[1..], email)
  }

  /** `SELECT ... FROM trips WHERE id = ?` then `results[0]`. */
  function FindTrip(trips: seq<TripRow>, id: nat): (r: Option<TripRow>)
    ensures r.Some? ==> r.value in trips && r.value.id == id
    ensures r.None? ==> forall t :: t in trips ==> t.id != id
  {
    if trips == [] then None
    else if trips[0].id == id then Some(trips[0])
    else FindTrip(trips[1..], id)
  }

  /** `WHERE user_id = ?`, in table order. */
  function TripsOf(trips: seq<TripRow>, userId: string): (r: seq<TripRow>)
    ensures forall t :: t in r <==> t in trips && t.userId == userId
  {
    if trips == [] then []
    else (if trips[0].userId == userId then [trips[0]] else []) + TripsOf(trips[1..], userId)
  }

  /** The columns `GET /api/trips/:userId` selects: every column but `user_id` and `itinerary`. */
  function ListRow(t: TripRow): TripListRow
  {
    TripListRow(NumId(t.id), t.tripName, t.country, t.startDate, t.endDate, t.daysCount, Some(t.createdAt))
  }

  function ListRows(trips: seq<TripRow>): (r: seq<TripListRow>)
    ensures |r| == |trips|
    ensures forall i :: 0 <= i < |trips| ==> r[i] == ListRow(trips[i])
  {
    seq(|trips|, i requires 0 <= i < |trips| => ListRow(trips[i]))
  }

  /** `ORDER BY created_at DESC` as an ascending sort on the negated time. */
  function NewestKey(r: TripListRow): int
  {
    -r.createdAt.GetOr(0)
  }

  /** The list `GET /api/trips/:userId` returns. */
  function UserTripList(trips: seq<TripRow>, userId: string): seq<TripListRow>
  {
    SortBy(ListRows(TripsOf(trips, userId)), NewestKey)
  }

  /** The itinerary a stored column yields: `[]` for NULL or unparsable text, the value otherwise. */
  function ColumnDays(c: ItineraryColumn): seq<Day>
  {
    match c
    case NullColumn => []
    case TextColumn(p) => p.GetOr([])
    case ParsedColumn(d) => d
  }

  /** The body of `GET /api/trip/:id` for a row. */
  function TripJson(t: TripRow): TripRecord
  {
    TripRecord(NumId(t.id), t.userId, t.tripName, t.country, t.startDate, t.endDate, t.daysCount, Some(ColumnDays(t.itineraryJson)))
  }

  /** `!user_id || !country || !start_date || !end_date` fails validation. */
  predicate TripFieldsPresent(b: TripBody)
  {
    b.userId != "" && b.country != "" && b.startDate != "" && b.endDate != ""
  }

  /** `days_count || null` */
  function StoredCount(n: Option<int>): Option<int>
  {
    if n.Some? && n.value != 0 then n else None
  }

  /** The row `POST /api/trips` inserts; `jsonColumn` says whether the driver hands the column back parsed. */
  function NewTripRow(b: TripBody, id: nat, now: int, jsonColumn: bool): TripRow
  {
    var days := b.itinerary.GetOr([]);
    TripRow(id, b.userId, b.tripName, b.country, b.startDate, b.endDate, StoredCount(b.daysCount),
            if jsonColumn then ParsedColumn(days) else TextColumn(Some(days)), now)
  }

  /** The body `POST /api/trips` answers with. */
  function CreatedJson(b: TripBody, id: nat): TripRecord
  {
    TripRecord(NumId(id), b.userId, b.tripName, b.country, b.startDate, b.endDate, StoredCount(b.daysCount), Some(b.itinerary.GetOr([])))
  }

  /** Row ids strictly increase in table order and stay below the counter, which starts at 1. */
  predicate IdsBelow(ids: seq<nat>, next: nat)
  {
    && (forall i :: 0 <= i < |ids| ==> 1 <= ids[i] < next)
    && (forall i, j :: 0 <= i < j < |ids| ==> ids[i] < ids[j])
  }

  function UserIds(users: seq<UserRow>): seq<nat>
  {
    seq(|users|, i requires 0 <= i < |users| => users[i].id)
  }

  function TripIds(trips: seq<TripRow>): seq<nat>
  {
    seq(|trips|, i requires 0 <= i < |trips| => trips[i].id)
  }

  // ---------------------------------------------------------------------
  // Properties

  /**
   * The reply to a successful `POST /api/trips` describes the trip exactly
   * as `GET /api/trip/:id` later returns it, whichever way the driver hands
   * back the itinerary column.
   */
  lemma CreatedJsonMatchesStoredTrip(b: TripBody, id: nat, now: int, jsonColumn: bool)
    ensures TripJson(NewTripRow(b, id, now, jsonColumn)) == CreatedJson(b, id)
  {
  }

  /**
   * An insert never updates: the new row is found under its fresh id and
   * every earlier id still finds the row it found before.
   */
  lemma {:induction false} InsertKeepsRows(trips: seq<TripRow>, row: TripRow)
    requires forall t :: t in trips ==> t.id != row.id
    ensures FindTrip(trips + [row], row.id) == Some(row)
    ensures forall id :: id != row.id ==> FindTrip(trips + [row], id) == FindTrip(trips, id)
  {
    if trips != [] {
      assert (trips + [row])[1..] == trips[1..] + [row];
      InsertKeepsRows(trips[1..], row);
    }
  }

  /**
   * Signing up and then logging in with the same email finds the new
   * account when the email was free.
   */
  lemma {:induction false} SignupThenFind(users: seq<UserRow>, row: UserRow)
    requires forall u :: u in users ==> u.email != row.email
    ensures FindUser(users + [row], row.email) == Some(row)
  {
    if users != [] {
      assert (users + [row])[1..] == users[1..] + [row];
      SignupThenFind(users[1..], row);
    }
  }

  /**
   * A user's list holds exactly that user's trips, each once, newest first,
   * without their itineraries.
   */
  lemma UserTripListFacts(trips: seq<TripRow>, userId: string)
    ensures var r := UserTripList(trips, userId);
      && multiset(r) == multiset(ListRows(TripsOf(trips, userId)))
      && SortedBy(r, NewestKey)
      && forall x :: x in r ==> exists t :: t in trips && t.userId == userId && x == ListRow(t)
  {
    var rows := ListRows(TripsOf(trips, userId));
    SortBySorted(rows, NewestKey);
    forall x | x in UserTripList(trips, userId)
      ensures exists t :: t in trips && t.userId == userId && x == ListRow(t)
    {
      assert x in multiset(rows);
      var i :| 0 <= i < |rows| && rows[i] == x;
      assert TripsOf(trips, userId)[i] in TripsOf(trips, userId);
    }
  }

  /** Appending a row with the counter's id and bumping the counter keeps the ids ordered. */
  lemma IdsBelowAppend(ids: seq<nat>, next: nat)
    requires IdsBelow(ids, next) && 1 <= next
    ensures IdsBelow(ids + [next], next + 1)
  {
  }

  // ---------------------------------------------------------------------
  // The server

  class TripServer {
    var users: seq<UserRow>
    var trips: seq<TripRow>
    var nextUserId: nat
    var nextTripId: nat
    /** Whether `itinerary_json` is a JSON column the driver parses. */
    const jsonColumn: bool

    /** Ids are unique and below the counters, and the unique index on `email` holds. */
    predicate Valid()
      reads this
    {
      && 1 <= nextUserId && 1 <= nextTripId
      && IdsBelow(UserIds(users), nextUserId)
      && IdsBelow(TripIds(trips), nextTripId)
      && forall i, j :: 0 <= i < j < |users| ==> users[i].email != users[j].email
    }

    constructor (parsesColumn: bool)
      ensures Valid() && users == [] && trips == [] && jsonColumn == parsesColumn
    {
      users := [];
      trips := [];
      nextUserId := 1;
      nextTripId := 1;
      jsonColumn := parsesColumn;
    }

    /** `POST /api/signup`; `dbError` says the insert fails for a reason other than a duplicate email. */
    method Signup(name: string, email: string, password: string, dbError: bool) returns (r: Reply<AuthUser>)
      requires Valid()
      modifies this`users, this`nextUserId
      ensures Valid()
      ensures name == "" || email == "" || password == "" ==>
        r == Failure(400, "Missing name, email, or password") && users == old(users)
      ensures name != "" && email != "" && password != "" && dbError ==>
        r == Failure(500, "Could not create user") && users == old(users)
      ensures name != "" && email != "" && password != "" && !dbError && FindUser(old(users), email).Some? ==>
        r == Failure(400, "Email already exists") && users == old(users)
      ensures name != "" && email != "" && password != "" && !dbError && FindUser(old(users), email).None? ==>
        && r == Success(AuthUser(old(nextUserId), name, email))
        && users == old(users) + [UserRow(old(nextUserId), name, email, password)]
        && nextUserId == old(nextUserId) + 1
    {
      if name == "" || email == "" || password == "" {
        return Failure(400, "Missing name, email, or password");
      }
      if dbError {
        return Failure(500, "Could not create user");
      }
      if FindUser(users, email).Some? {
        return Failure(400, "Email already exists");
      }
      var id := nextUserId;
      IdsBelowAppend(UserIds(users), nextUserId);
      assert UserIds(users + [UserRow(id, name, email, password)]) == UserIds(users) + [id];
      users := users + [UserRow(id, name, email, password)];
      nextUserId := nextUserId + 1;
      r := Success(AuthUser(id, name, email));
    }

    /** `POST /api/login`; `dbError` says the query fails. */
    method Login(email: string, password: string, dbError: bool) returns (r: Reply<AuthUser>)
      requires Valid()
      ensures email == "" || password == "" ==> r == Failure(400, "Missing email or password")
      ensures email != "" && password != "" && dbError ==> r == Failure(500, "Database error")
      ensures email != "" && password != "" && !dbError ==>
        match FindUser(users, email)
        case None => r == Failure(401, "User not found")
        case Some(u) =>
          if u.password != password then r == Failure(401, "Invalid password")
          else r == Success(AuthUser(u.id, u.name, u.email))
      ensures r.Success? <==>
        email != "" && password != "" && !dbError && exists u :: u in users && u.email == email && u.password == password
    {
      if email == "" || password == "" {
        return Failure(400, "Missing email or password");
      }
      if dbError {
        return Failure(500, "Database error");
      }
      var found := FindUser(users, email);
      if found.None? {
        return Failure(401, "User not found");
      }
      var user := found.value;
      if user.password != password {
        forall u | u in users && u.email == email
          ensures u.password != password
        {
          var i :| 0 <= i < |users| && users[i] == u;
          var j :| 0 <= j < |users| && users[j] == user;
          assert i == j;
        }
        return Failure(401, "Invalid password");
      }
      r := Success(AuthUser(user.id, user.name, user.email));
    }

    /** `POST /api/trips`: every valid request inserts a fresh row; `now` is `created_at`. */
    method PostTrip(b: TripBody, dbError: bool, now: int) returns (r: Reply<TripRecord>)
      requires Valid()
      modifies this`trips, this`nextTripId
      ensures Valid()
      ensures !TripFieldsPresent(b) ==> r == Failure(400, "Missing required trip fields") && trips == old(trips)
      ensures TripFieldsPresent(b) && dbError ==> r == Failure(500, "Failed to save trip") && trips == old(trips)
      ensures TripFieldsPresent(b) && !dbError ==>
        && r == Success(CreatedJson(b, old(nextTripId)))
        && trips == old(trips) + [NewTripRow(b, old(nextTripId), now, jsonColumn)]
        && nextTripId == old(nextTripId) + 1
        && forall t :: t in old(trips) ==> t.id != old(nextTripId)
    {
      if !TripFieldsPresent(b) {
        return Failure(400, "Missing required trip fields");
      }
      if dbError {
        return Failure(500, "Failed to save trip");
      }
      var id := nextTripId;
      var row := NewTripRow(b, id, now, jsonColumn);
      forall t | t in trips
        ensures t.id != id
      {
        var i :| 0 <= i < |trips| && trips[i] == t;
        assert TripIds(trips)[i] == t.id;
      }
      IdsBelowAppend(TripIds(trips), nextTripId);
      assert TripIds(trips + [row]) == TripIds(trips) + [id];
      trips := trips + [row];
      nextTripId := nextTripId + 1;
      r := Success(CreatedJson(b, id));
    }

    /** `GET /api/trips/:userId` */
    method GetTripsForUser(userId: string, dbError: bool) returns (r: Reply<seq<TripListRow>>)
      ensures dbError ==> r == Failure(500, "Failed to load trips")
      ensures !dbError ==> r == Success(UserTripList(trips, userId))
    {
      if dbError {
        return Failure(500, "Failed to load trips");
      }
      r := Success(UserTripList(trips, userId));
    }

    /**
     * `GET /api/trip/:id`.  The path parameter is text; MySQL compares it
     * with the integer `id` column after converting it to a number, which
     * `key` stands for: the whole number the conversion yields (`12` for
     * "12" and for "12abc", `0` for text without a leading number such as a
     * client-side `trip_...` id), `None` when it yields a negative or
     * fractional number, which matches no row.
     */
    method GetTrip(key: Option<nat>, dbError: bool) returns (r: Reply<TripRecord>)
      requires Valid()
      ensures dbError ==> r == Failure(500, "Failed to load trip")
      ensures !dbError && (key.None? || forall t :: t in trips ==> t.id != key.value) ==>
        r == Failure(404, "Trip not found")
      ensures !dbError && key.Some? && FindTrip(trips, key.value).Some? ==>
        r == Success(TripJson(FindTrip(trips, key.value).value))
      ensures !dbError && key == Some(0) ==> r == Failure(404, "Trip not found")
    {
      if dbError {
        return Failure(500, "Failed to load trip");
      }
      if key.None? {
        return Failure(404, "Trip not found");
      }
      // auto-increment ids start at 1, so the key 0 finds nothing
      forall t | t in trips
        ensures t.id != 0
      {
        var i :| 0 <= i < |trips| && trips[i] == t;
        assert TripIds(trips)[i] == t.id;
      }
      var found := FindTrip(trips, key.value);
      if found.None? {
        return Failure(404, "Trip not found");
      }
      var row := found.value;
      var itinerary: seq<Day> := [];
      match row.itineraryJson {
        case NullColumn =>
        case TextColumn(parsed) =>
          if parsed.Some? {
            itinerary := parsed.value;
          }
        case ParsedColumn(days) =>
          itinerary := days;
      }
      r := Success(TripRecord(NumId(row.id), row.userId, row.tripName, row.country, row.startDate, row.endDate,
                              row.daysCount, Some(itinerary)));
    }
  }
}
