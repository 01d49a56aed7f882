// The itinerary every planner page edits: an ordered list of days, each with
// its own list of activities.  The day number shown to the user is stored in
// the day itself and is expected to equal its 1-based position.

module Itinerary {
  import opened Common

  datatype Coord = Coord(lat: real, lng: real)

  /** `x.lat && x.lng`: both coordinates present and non-zero. */
  predicate HasCoords(c: Option<Coord>)
  {
    c.Some? && c.value.lat != 0.0 && c.value.lng != 0.0
  }

  /**
   * An activity.  `kind` is the JavaScript `type` field; an empty `currency`
   * stands for `null`; `price` is `None` for `null` and for `NaN`.
   */
  datatype Activity = Activity(
    id: Option<string>,
    kind: string,
    name: string,
    location: string,
    link: string,
    startTime: string,
    endTime: string,
    budget: string,
    price: Option<int>,
    currency: string,
    coords: Option<Coord>,
    description: string)

  /** JavaScript truthiness of `activity.price`. */
  predicate PriceTruthy(p: Option<int>)
  {
    p.Some? && p.value != 0
  }

  datatype Day = Day(
    day: int,
    date: string,
    title: string,
    city: string,
    coords: Option<Coord>,
    activities: seq<Activity>)

  /** Every day's number is its 1-based position. */
  predicate Numbered(days: seq<Day>)
  {
    forall i :: 0 <= i < |days| ==> days[i].day == i + 1
  }

  /** `days.forEach((d, i) => d.day = i + 1)` */
  function Renumbered(days: seq<Day>): seq<Day>
  {
    seq(|days|, i requires 0 <= i < |days| => days[i].(day := i + 1))
  }

  /** The `forEach` that writes each day's position into its number. */
  method RenumberDays(days: seq<Day>) returns (r: seq<Day>)
    ensures |r| == |days| && Numbered(r)
    ensures forall k :: 0 <= k < |r| ==> r[k] == days[k].(day := k + 1)
  {
    r := days;
    var k := 0;
    while k < |r|
      invariant 0 <= k <= |r| == |days|
      invariant forall j :: 0 <= j < k ==> r[j] == days[j].(day := j + 1)
      invariant forall j :: k <= j < |r| ==> r[j] == days[j]
    {
      r := r[k := r[k].(day := k + 1)];
      k := k + 1;
    }
  }

  /** Appending a day numbered one past the end keeps the numbering. */
  lemma NumberedAppend(days: seq<Day>, d: Day)
    requires Numbered(days) && d.day == |days| + 1
    ensures Numbered(days + [d])
  {
  }

  /** Replacing a day by one with the same number keeps the numbering. */
  lemma NumberedUpdate(days: seq<Day>, i: nat, d: Day)
    requires Numbered(days) && i < |days| && d.day == days[i].day
    ensures Numbered(days[i := d])
  {
  }

  function RemoveAt<T>(s: seq<T>, i: nat): seq<T>
    requires i < |s|
  {
    s[..i] + s[i + 1..]
  }

  /**
   * Removing day `i` and renumbering leaves a numbered list one shorter, in
   * which the days before `i` keep their place and the later ones move up by
   * one, each otherwise unchanged.
   */
  lemma RemoveDayRenumbers(days: seq<Day>, i: nat)
    requires i < |days|
    ensures var r := Renumbered(RemoveAt(days, i));
      && |r| == |days| - 1
      && Numbered(r)
      && (forall k :: 0 <= k < i ==> r[k] == days[k].(day := k + 1))
      && (forall k :: i <= k < |r| ==> r[k] == days[k + 1].(day := k + 1))
  {
  }

  /**
   * The element `s.splice(start, 1)` removes, if any: a negative start
   * counts from the end (and is clamped at 0), a start at or past the end
   * removes nothing.
   */
  function SpliceTarget(len: nat, start: int): (r: Option<nat>)
    ensures r.Some? ==> r.value < len
    ensures r.None? <==> len == 0 || start >= len
    ensures 0 <= start < len ==> r == Some(start)
    ensures start < 0 && len + start >= 0 ==> r.Some? && r.value == len + start
    ensures len + start < 0 && len > 0 ==> r.Some? && r.value == 0
  {
    var p := if start >= 0 then start else if len + start < 0 then 0 else len + start;
    if p < len then Some(p) else None
  }

  /** `s` after `s.splice(start, 1)`. */
  function Splice1<T>(s: seq<T>, start: int): (r: seq<T>)
    ensures SpliceTarget(|s|, start).None? ==> r == s
    ensures SpliceTarget(|s|, start).Some? ==> r == RemoveAt(s, SpliceTarget(|s|, start).value)
  {
    match SpliceTarget(|s|, start)
    case None => s
    case Some(p) => RemoveAt(s, p)
  }

  /**
   * `s[i] = x` on a JavaScript array: in range it replaces, at the end it
   * appends, and a negative index adds no element.  Past the end JavaScript
   * leaves holes (saved as `null`) before the value; the model appends the
   * value alone there.
   */
  function AssignAt<T>(s: seq<T>, i: int, x: T): (r: seq<T>)
    ensures 0 <= i < |s| ==> r == s[i := x]
    ensures i >= |s| ==> r == s + [x]
    ensures i < 0 ==> r == s
  {
    if i < 0 then s else if i < |s| then s[i := x] else s + [x]
  }

  /** Every activity of the itinerary, day by day, in order. */
  function AllActivities(days: seq<Day>): seq<Activity>
  {
    if days == [] then [] else AllActivities(days[..|days| - 1]) + days[|days| - 1].activities
  }
}
