// The browser's localStorage as the pages use it: a map from keys to JSON
// values.  Three kinds of entry matter:
//   "itinerary:<id>"           the days of one saved trip,
//   "tripwise:trips:<owner>"   the owner's list of trip summaries,
//   "japanCustomItinerary"     the Japan page's auto-saved draft.
// Values are kept as the structures they encode; a value that does not parse
// (or parses to the wrong shape) is `Unparseable`.

module Storage {
  import opened Common
  import opened Itinerary

  /** One entry of a user's trip list, as the profile page lists it. */
  datatype Summary = Summary(
    id: JsId,
    title: string,
    country: string,
    countryLabel: string,
    startDate: string,
    endDate: string,
    days: Option<int>,
    lastUpdated: Option<int>,
    localOnly: bool)

  datatype StoredValue = DaysValue(days: seq<Day>) | TripsValue(trips: seq<Summary>) | Unparseable

  type Store = map<string, StoredValue>

  /** The logged-in user as the front end reads it; `""` stands for a missing field. */
  datatype User = User(id: string, email: string)

  const DraftKey: string := "japanCustomItinerary"

  /** `user && user.email`: someone is logged in with an email. */
  predicate HasEmail(user: Option<User>)
  {
    user.Some? && user.value.email != ""
  }

  /** `user.email || user.id`: whose trip list a save updates. */
  function OwnerOf(u: User): string
  {
    if u.email != "" then u.email else u.id
  }

  function ItineraryKey(id: string): string
  {
    "itinerary:" + id
  }

  function TripsKey(owner: string): string
  {
    "tripwise:trips:" + owner
  }

  /** The three kinds of key never collide, so writing one never clobbers another. */
  lemma KeysDistinct(a: string, b: string)
    ensures ItineraryKey(a) != TripsKey(b)
    ensures ItineraryKey(a) != DraftKey && TripsKey(b) != DraftKey
    ensures ItineraryKey(a) == ItineraryKey(b) <==> a == b
    ensures TripsKey(a) == TripsKey(b) <==> a == b
  {
    assert ItineraryKey(a)[0] != TripsKey(b)[0];
    assert ItineraryKey(a)[0] != DraftKey[0];
    assert TripsKey(b)[0] != DraftKey[0];
    if ItineraryKey(a) == ItineraryKey(b) {
      assert a == ItineraryKey(a)[10..] && b == ItineraryKey(b)[10..];
    }
    if TripsKey(a) == TripsKey(b) {
      assert a == TripsKey(a)[15..] && b == TripsKey(b)[15..];
    }
  }

  /**
   * `JSON.parse(localStorage.getItem(key) || '[]')` for a trip list:
   * `None` when parsing throws, the empty list when the key is absent.
   */
  function ReadTrips(store: Store, key: string): (r: Option<seq<Summary>>)
    ensures key !in store ==> r == Some([])
    ensures r.Some? && key in store ==> store[key] == TripsValue(r.value)
  {
    if key !in store then Some([])
    else match store[key]
      case TripsValue(l) => Some(l)
      case _ => None
  }

  // ---------------------------------------------------------------------
  // findIndex and the upsert every save path performs

  /** `list.findIndex(matches)`. */
  function FirstMatch(list: seq<Summary>, matches: Summary -> bool): (i: int)
    ensures -1 <= i < |list|
    ensures i >= 0 ==> matches(list[i]) && forall j :: 0 <= j < i ==> !matches(list[j])
    ensures i == -1 ==> forall j :: 0 <= j < |list| ==> !matches(list[j])
  {
    if list == [] then -1
    else if matches(list[0]) then 0
    else
      var k := FirstMatch(list[1..], matches);
      if k == -1 then -1 else k + 1
  }

  /** `if (idx >= 0) list[idx] = entry; else list.push(entry);` */
  function Upsert(list: seq<Summary>, matches: Summary -> bool, entry: Summary): seq<Summary>
  {
    var i := FirstMatch(list, matches);
    if i >= 0 then list[i := entry] else list + [entry]
  }

  /** `t => String(t.id) === String(id)` */
  function SameText(id: JsId): Summary -> bool
  {
    (t: Summary) => IdText(t.id) == IdText(id)
  }

  /** `t => t.id === id` */
  function SameValue(id: JsId): Summary -> bool
  {
    (t: Summary) => t.id == id
  }

  /** No two entries of the list name the same trip once ids are compared as text. */
  predicate UniqueIds(list: seq<Summary>)
  {
    forall i, j :: 0 <= i < j < |list| ==> IdText(list[i].id) != IdText(list[j].id)
  }

  /**
   * Upserting by textual id keeps the list free of duplicates, leaves the new
   * entry in it, grows the list only when the trip was new, and keeps every
   * entry for another trip.
   */
  lemma {:induction false} UpsertByTextKeepsIdsUnique(list: seq<Summary>, entry: Summary)
    requires UniqueIds(list)
    ensures var r := Upsert(list, SameText(entry.id), entry);
      && UniqueIds(r)
      && entry in r
      && (|r| == |list| <==> exists t :: t in list && IdText(t.id) == IdText(entry.id))
      && (forall t :: t in list && IdText(t.id) != IdText(entry.id) ==> t in r)
  {
    var p := SameText(entry.id);
    var i := FirstMatch(list, p);
    var r := Upsert(list, p, entry);
    if i >= 0 {
      assert r == list[i := entry];
      forall a, b | 0 <= a < b < |r|
        ensures IdText(r[a].id) != IdText(r[b].id)
      {
        if a == i {
          assert IdText(list[a].id) == IdText(entry.id);
        } else if b == i {
          assert IdText(list[b].id) == IdText(entry.id);
        }
      }
      assert r[i] == entry;
      assert list[i] in list;
      forall t | t in list && IdText(t.id) != IdText(entry.id)
        ensures t in r
      {
        var j :| 0 <= j < |list| && list[j] == t;
        assert r[j] == t;
      }
    } else {
      assert r == list + [entry];
      forall a, b | 0 <= a < b < |r|
        ensures IdText(r[a].id) != IdText(r[b].id)
      {
        if b == |list| {
          assert !p(list[a]);
        }
      }
      assert r[|list|] == entry;
      forall t | t in list
        ensures IdText(t.id) != IdText(entry.id)
      {
        var j :| 0 <= j < |list| && list[j] == t;
        assert !p(list[j]);
      }
      forall t | t in list
        ensures t in r
      {
        var j :| 0 <= j < |list| && list[j] == t;
        assert r[j] == t;
      }
    }
  }

  /** Saving the same summary twice leaves the list as saving it once. */
  lemma UpsertByTextIdempotent(list: seq<Summary>, entry: Summary)
    ensures var once := Upsert(list, SameText(entry.id), entry);
      Upsert(once, SameText(entry.id), entry) == once
  {
    var p := SameText(entry.id);
    var i := FirstMatch(list, p);
    var once := Upsert(list, p, entry);
    var k := FirstMatch(once, p);
    if i >= 0 {
      assert once[i] == entry;
      assert k == i;
    } else {
      assert once[|list|] == entry;
      assert k == |list|;
    }
  }

  /**
   * Upserting with strict equality (`t.id === id`) does not recognise a stored
   * text id such as "6" when the new entry carries the number 6: the entry is
   * appended and the list then names the trip twice.
   */
  lemma StrictUpsertDuplicatesTextId(stored: Summary, entry: Summary)
    requires stored.id == StrId("6") && entry.id == NumId(6)
    ensures var r := Upsert([stored], SameValue(entry.id), entry);
      && r == [stored, entry]
      && UniqueIds([stored])
      && !UniqueIds(r)
  {
    assert NatToString(6) == "6";
    var r := Upsert([stored], SameValue(entry.id), entry);
    assert FirstMatch([stored], SameValue(entry.id)) == -1;
    assert IdText(r[0].id) == IdText(r[1].id);
  }

  // ---------------------------------------------------------------------
  // What a successful save leaves behind

  /**
   * The store after a successful save: the days under `itinerary:<dbId>`
   * and, when the owner's list parses, the summary upserted into it.
   */
  function RecordSave(store: Store, owner: string, dbId: string, summary: Summary, days: seq<Day>): Store
  {
    var s1 := store[ItineraryKey(dbId):= DaysValue(days)];
    match ReadTrips(s1, TripsKey(owner))
    case None => s1
    case Some(trips) => s1[TripsKey(owner) := TripsValue(Upsert(trips, SameText(StrId(dbId)), summary))]
  }

  /** A save leaves the owner's list (when it parses) naming the trip once and no trip twice. */
  lemma RecordSaveLists(store: Store, owner: string, dbId: string, summary: Summary, days: seq<Day>)
    requires IdText(summary.id) == dbId
    requires ReadTrips(store, TripsKey(owner)).Some? && UniqueIds(ReadTrips(store, TripsKey(owner)).value)
    ensures var after := ReadTrips(RecordSave(store, owner, dbId, summary, days), TripsKey(owner));
      && after.Some? && UniqueIds(after.value) && summary in after.value
      && forall t :: t in ReadTrips(store, TripsKey(owner)).value && IdText(t.id) != dbId ==> t in after.value
  {
    KeysDistinct(dbId, owner);
    var s1 := store[ItineraryKey(dbId) := DaysValue(days)];
    var trips := ReadTrips(store, TripsKey(owner)).value;
    assert ReadTrips(s1, TripsKey(owner)) == Some(trips);
    FirstMatchSameText(trips, StrId(dbId), summary.id);
    UpsertByTextKeepsIdsUnique(trips, summary);
  }

  /** Saving the same trip twice leaves the store as saving it once. */
  lemma RecordSaveIdempotent(store: Store, owner: string, dbId: string, summary: Summary, days: seq<Day>)
    requires IdText(summary.id) == dbId
    ensures var once := RecordSave(store, owner, dbId, summary, days);
      RecordSave(once, owner, dbId, summary, days) == once
  {
    KeysDistinct(dbId, owner);
    var once := RecordSave(store, owner, dbId, summary, days);
    var s1 := store[ItineraryKey(dbId) := DaysValue(days)];
    var t1 := once[ItineraryKey(dbId) := DaysValue(days)];
    assert t1 == once;
    match ReadTrips(s1, TripsKey(owner)) {
      case None =>
      case Some(trips) =>
        FirstMatchSameText(trips, StrId(dbId), summary.id);
        var listed := Upsert(trips, SameText(StrId(dbId)), summary);
        assert ReadTrips(t1, TripsKey(owner)) == Some(listed);
        UpsertByTextIdempotent(trips, summary);
        FirstMatchSameText(listed, StrId(dbId), summary.id);
    }
  }

  /** Two ids with the same text select the same entry. */
  lemma FirstMatchSameText(list: seq<Summary>, a: JsId, b: JsId)
    requires IdText(a) == IdText(b)
    ensures FirstMatch(list, SameText(a)) == FirstMatch(list, SameText(b))
  {
    forall t ensures SameText(a)(t) == SameText(b)(t) {
    }
  }

  /**
   * A save stores the days under the trip's key and touches no key other
   * than that one and the owner's list.
   */
  lemma RecordSaveFrame(store: Store, owner: string, dbId: string, summary: Summary, days: seq<Day>)
    ensures var after := RecordSave(store, owner, dbId, summary, days);
      && ItineraryKey(dbId) in after && after[ItineraryKey(dbId)] == DaysValue(days)
      && forall k :: k in store && k != ItineraryKey(dbId) && k != TripsKey(owner) ==> k in after && after[k] == store[k]
  {
    KeysDistinct(dbId, owner);
  }
}
