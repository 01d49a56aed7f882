// The home page: ready-made plan cards reordered so that the ones matching
// the user's preferred trip styles come first, the search form's check
// before it opens the planner, and the greeting name taken from an email.

module Home {
  import opened Common

  // ---------------------------------------------------------------------
  // Ready-plan recommendations

  /**
   * A ready-plan card as the recommendation pass sees it: its `data-tags`
   * text (`""` when the attribute is absent), whether it has a
   * `.trip-overlay` to hold a badge, whether it carries a
   * `.recommended-badge`, and whether it has the `recommended` class.
   */
  datatype Card = Card(tags: string, hasOverlay: bool, badge: bool, recommended: bool)

  /**
   * The parsed `userPreferences` entry of local storage; `tripStyles` is
   * `None` when the field is not an array.
   */
  datatype Preferences = Preferences(tripStyles: Option<seq<string>>)

  /** The preferences carry at least one selected trip style. */
  predicate HasStyles(prefs: Option<Preferences>)
  {
    prefs.Some? && prefs.value.tripStyles.Some? && |prefs.value.tripStyles.value| > 0
  }

  /** `tripStyles.map(s => s.toLowerCase())` */
  function SelectedStyles(styles: seq<string>): (r: seq<string>)
    ensures |r| == |styles|
    ensures forall i :: 0 <= i < |styles| ==> r[i] == Lower(styles[i])
  {
    seq(|styles|, i requires 0 <= i < |styles| => Lower(styles[i]))
  }

  /** `parts.map(t => t.trim()).filter(Boolean)` */
  function TrimmedNonEmpty(parts: seq<string>): seq<string>
  {
    if parts == [] then []
    else (if Trim(parts[0]) == "" then [] else [Trim(parts[0])]) + TrimmedNonEmpty(parts[1..])
  }

  /** The tags of a card: its lower-cased `data-tags` split on commas, trimmed, blanks dropped. */
  function Tags(raw: string): seq<string>
  {
    TrimmedNonEmpty(Split(Lower(raw), ','))
  }

  /** `tags.some(tag => selectedStyles.includes(tag))` */
  predicate IsMatch(c: Card, styles: seq<string>)
  {
    exists t :: t in Tags(c.tags) && t in styles
  }

  /**
   * The card after the pass has looked at it: a matching card gains the
   * `recommended` class and, when it has an overlay and no badge yet, a
   * badge; any other card loses both.
   */
  function Marked(c: Card, styles: seq<string>): Card
  {
    if IsMatch(c, styles) then c.(badge := c.badge || c.hasOverlay, recommended := true)
    else c.(badge := false, recommended := false)
  }

  function MarkAll(cards: seq<Card>, styles: seq<string>): (r: seq<Card>)
    ensures |r| == |cards|
    ensures forall i :: 0 <= i < |cards| ==> r[i] == Marked(cards[i], styles)
  {
    seq(|cards|, i requires 0 <= i < |cards| => Marked(cards[i], styles))
  }

  /** The marked cards whose match is `want`, in their original order (`recommended` or `others`). */
  function Pick(cards: seq<Card>, styles: seq<string>, want: bool): seq<Card>
  {
    if cards == [] then []
    else
      var last := cards[|cards| - 1];
      Pick(cards[..|cards| - 1], styles, want)
        + (if IsMatch(last, styles) == want then [Marked(last, styles)] else [])
  }

  /** The grid after the pass: recommended cards first, then the others. */
  function Reordered(cards: seq<Card>, styles: seq<string>): seq<Card>
  {
    Pick(cards, styles, true) + Pick(cards, styles, false)
  }

  // Properties

  /** Looking at one more card extends each list by that card's contribution. */
  lemma PickStep(cards: seq<Card>, i: int, styles: seq<string>)
    requires 0 <= i < |cards|
    ensures Pick(cards[..i + 1], styles, true) == Pick(cards[..i], styles, true)
      + (if IsMatch(cards[i], styles) then [Marked(cards[i], styles)] else [])
    ensures Pick(cards[..i + 1], styles, false) == Pick(cards[..i], styles, false)
      + (if IsMatch(cards[i], styles) then [] else [Marked(cards[i], styles)])
    ensures MarkAll(cards[..i + 1], styles) == MarkAll(cards[..i], styles) + [Marked(cards[i], styles)]
  {
    assert cards[..i + 1][..i] == cards[..i];
  }

  lemma MarkedKeepsMatch(c: Card, styles: seq<string>)
    ensures IsMatch(Marked(c, styles), styles) == IsMatch(c, styles)
    ensures Marked(Marked(c, styles), styles) == Marked(c, styles)
  {
  }

  /** Every picked card has the wanted match and flags that agree with it. */
  lemma {:induction false} PickFlags(cards: seq<Card>, styles: seq<string>, want: bool)
    ensures forall c :: c in Pick(cards, styles, want) ==>
      IsMatch(c, styles) == want && c.recommended == want && (c.badge ==> want)
  {
    if cards != [] {
      PickFlags(cards[..|cards| - 1], styles, want);
      MarkedKeepsMatch(cards[|cards| - 1], styles);
    }
  }

  /** The two picks together are the marked cards, each kept once. */
  lemma {:induction false} PickSplits(cards: seq<Card>, styles: seq<string>)
    ensures multiset(Pick(cards, styles, true)) + multiset(Pick(cards, styles, false))
      == multiset(MarkAll(cards, styles))
  {
    if cards != [] {
      var init := cards[..|cards| - 1];
      var last := cards[|cards| - 1];
      PickSplits(init, styles);
      assert MarkAll(cards, styles) == MarkAll(init, styles) + [Marked(last, styles)];
    }
  }

  /** A card that matches nothing is never picked as recommended. */
  lemma {:induction false} NoMatchPicksNone(cards: seq<Card>, styles: seq<string>)
    requires forall i :: 0 <= i < |cards| ==> !IsMatch(cards[i], styles)
    ensures Pick(cards, styles, true) == []
  {
    if cards != [] {
      NoMatchPicksNone(cards[..|cards| - 1], styles);
    }
  }

  /** With no match at all, the others are all the cards, in place. */
  lemma {:induction false} NoMatchPicksAll(cards: seq<Card>, styles: seq<string>)
    requires Pick(cards, styles, true) == []
    ensures Pick(cards, styles, false) == MarkAll(cards, styles)
  {
    if cards != [] {
      var init := cards[..|cards| - 1];
      NoMatchPicksAll(init, styles);
      assert MarkAll(cards, styles) == MarkAll(init, styles) + [Marked(cards[|cards| - 1], styles)];
    }
  }

  /** Picking distributes over concatenation. */
  lemma {:induction false} PickAppend(a: seq<Card>, b: seq<Card>, styles: seq<string>, want: bool)
    ensures Pick(a + b, styles, want) == Pick(a, styles, want) + Pick(b, styles, want)
    decreases |b|
  {
    if b == [] {
      assert a + b == a;
    } else {
      var bInit := b[..|b| - 1];
      assert (a + b)[..|a + b| - 1] == a + bInit;
      assert (a + b)[|a + b| - 1] == b[|b| - 1];
      PickAppend(a, bInit, styles, want);
    }
  }

  /** Picking again from a pick keeps it whole or drops it whole. */
  lemma {:induction false} PickPick(cards: seq<Card>, styles: seq<string>, want: bool, again: bool)
    ensures Pick(Pick(cards, styles, want), styles, again)
      == if want == again then Pick(cards, styles, want) else []
  {
    if cards != [] {
      var init := cards[..|cards| - 1];
      var last := cards[|cards| - 1];
      var tail := if IsMatch(last, styles) == want then [Marked(last, styles)] else [];
      PickPick(init, styles, want, again);
      PickAppend(Pick(init, styles, want), tail, styles, again);
      MarkedKeepsMatch(last, styles);
      if tail != [] {
        assert tail[..0] == [];
      }
    }
  }

  /**
   * The pass is a stable partition: recommended cards all come before the
   * others, each group keeps its original relative order, the grid holds
   * the same (marked) cards as before, and a card carries the class, and
   * possibly the badge, exactly when it matches.
   */
  lemma RecommendedFirst(cards: seq<Card>, styles: seq<string>)
    ensures var r := Reordered(cards, styles);
      && multiset(r) == multiset(MarkAll(cards, styles))
      && (forall i, j :: 0 <= i < j < |r| && IsMatch(r[j], styles) ==> IsMatch(r[i], styles))
      && (forall i :: 0 <= i < |r| ==> r[i].recommended == IsMatch(r[i], styles))
      && (forall i :: 0 <= i < |r| && r[i].badge ==> r[i].recommended)
      && Pick(r, styles, true) == Pick(cards, styles, true)
      && Pick(r, styles, false) == Pick(cards, styles, false)
  {
    var r := Reordered(cards, styles);
    var rec := Pick(cards, styles, true);
    var oth := Pick(cards, styles, false);
    PickSplits(cards, styles);
    PickFlags(cards, styles, true);
    PickFlags(cards, styles, false);
    forall i | 0 <= i < |r|
      ensures IsMatch(r[i], styles) == (i < |rec|)
      ensures r[i].recommended == IsMatch(r[i], styles)
      ensures r[i].badge ==> r[i].recommended
    {
      if i < |rec| {
        assert r[i] == rec[i];
        assert r[i] in rec;
      } else {
        assert r[i] == oth[i - |rec|];
        assert r[i] in oth;
      }
    }
    PickAppend(rec, oth, styles, true);
    PickAppend(rec, oth, styles, false);
    PickPick(cards, styles, true, true);
    PickPick(cards, styles, true, false);
    PickPick(cards, styles, false, true);
    PickPick(cards, styles, false, false);
  }

  /** When no card matches, no card moves; only the flags are cleared. */
  lemma NoMatchNoMove(cards: seq<Card>, styles: seq<string>)
    requires forall i :: 0 <= i < |cards| ==> !IsMatch(cards[i], styles)
    ensures Reordered(cards, styles) == MarkAll(cards, styles)
  {
    NoMatchPicksNone(cards, styles);
    NoMatchPicksAll(cards, styles);
  }

  /**
   * Running the pass twice is the same as running it once: no card gains a
   * second badge and the order settles after one pass.
   */
  lemma ReorderIdempotent(cards: seq<Card>, styles: seq<string>)
    ensures Reordered(Reordered(cards, styles), styles) == Reordered(cards, styles)
  {
    RecommendedFirst(cards, styles);
  }

  /** The home page's ready-trips grid. */
  class ReadyTripsGrid {
    var cards: seq<Card>

    constructor (cards0: seq<Card>)
      ensures cards == cards0
    {
      cards := cards0;
    }

    /**
     * `applyReadyPlanRecommendations()` (the later of its two definitions,
     * the one in effect); `prefs` is `getUserPreferences()`.
     */
    method ApplyReadyPlanRecommendations(prefs: Option<Preferences>)
      modifies this
      ensures !HasStyles(prefs) ==> cards == old(cards)
      ensures HasStyles(prefs) ==>
        cards == Reordered(old(cards), SelectedStyles(prefs.value.tripStyles.value))
    {
      if prefs.None? || prefs.value.tripStyles.None? || |prefs.value.tripStyles.value| == 0 {
        return;
      }
      var selected := SelectedStyles(prefs.value.tripStyles.value);
      var recommended: seq<Card> := [];
      var others: seq<Card> := [];
      var inPlace: seq<Card> := [];
      var i := 0;
      while i < |cards|
        invariant 0 <= i <= |cards| && cards == old(cards)
        invariant recommended == Pick(cards[..i], selected, true)
        invariant others == Pick(cards[..i], selected, false)
        invariant inPlace == MarkAll(cards[..i], selected)
      {
        var card := cards[i];
        PickStep(cards, i, selected);
        var isMatch := IsMatch(card, selected);
        if isMatch {
          if card.hasOverlay && !card.badge {
            card := card.(badge := true);
          }
          card := card.(recommended := true);
          recommended := recommended + [card];
        } else {
          card := card.(badge := false, recommended := false);
          others := others + [card];
        }
        inPlace := inPlace + [card];
        i := i + 1;
      }
      assert cards[..|cards|] == cards;
      if |recommended| > 0 {
        cards := recommended + others;
      } else {
        NoMatchPicksAll(cards, selected);
        cards := inPlace;
      }
    }
  }

  // ---------------------------------------------------------------------
  // The search form

  /** `countryLabels`: display names of the countries the form offers. */
  const CountryLabels: map<string, string> := map[
    "saudi-arabia" := "Saudi Arabia",
    "india" := "India",
    "japan" := "Japan",
    "malaysia" := "Malaysia",
    "france" := "France",
    "italy" := "Italy",
    "united-states" := "United States",
    "thailand" := "Thailand",
    "turkey" := "Turkey",
    "uae" := "United Arab Emirates",
    "indonesia" := "Indonesia",
    "spain" := "Spain",
    "greece" := "Greece",
    "morocco" := "Morocco",
    "egypt" := "Egypt"]

  /** `countryLabels[country] || country` */
  function CountryLabel(country: string): string
  {
    if country in CountryLabels then CountryLabels[country] else country
  }

  datatype PlanOutcome =
    | MissingFields
    | DatesOutOfOrder
    | Navigate(page: string, query: seq<(string, string)>)

  /**
   * `handlePlanTrip()`: `startDay` and `endDay` are `new Date(...)` of the
   * two date fields as day numbers, `None` for an invalid date (NaN, which
   * compares false with everything).
   */
  function HandlePlanTrip(country: string, startDate: string, endDate: string,
                          startDay: Option<int>, endDay: Option<int>): PlanOutcome
  {
    if country == "" || startDate == "" || endDate == "" then MissingFields
    else if startDay.Some? && endDay.Some? && startDay.value >= endDay.value then DatesOutOfOrder
    else Navigate("japan-custom-plan.html",
                  [("country", country), ("countryLabel", CountryLabel(country)),
                   ("startDate", startDate), ("endDate", endDate), ("mode", "planner")])
  }

  /**
   * The form opens the planner only with every field filled and a return
   * date after the departure date (two valid dates that are not in order are
   * refused); the planner is opened in planner mode for the chosen country,
   * labelled from the table or by the country's own value.
   */
  lemma PlanTripFacts(country: string, startDate: string, endDate: string,
                      startDay: Option<int>, endDay: Option<int>)
    ensures var r := HandlePlanTrip(country, startDate, endDate, startDay, endDay);
      && (r.MissingFields? <==> country == "" || startDate == "" || endDate == "")
      && (r.Navigate? ==> startDay.Some? && endDay.Some? ==> startDay.value < endDay.value)
      && (r.Navigate? <==> country != "" && startDate != "" && endDate != ""
                           && !(startDay.Some? && endDay.Some? && startDay.value >= endDay.value))
      && (r.Navigate? ==>
            && r.page == "japan-custom-plan.html"
            && ("mode", "planner") in r.query
            && ("country", country) in r.query
            && ("countryLabel", CountryLabel(country)) in r.query
            && CountryLabel(country) != "")
  {
    var r := HandlePlanTrip(country, startDate, endDate, startDay, endDay);
    if r.Navigate? {
      assert r.query[4] == ("mode", "planner");
      assert r.query[0] == ("country", country);
      assert r.query[1] == ("countryLabel", CountryLabel(country));
    }
  }

  // ---------------------------------------------------------------------
  // Greeting name

  /** `getUserNameFromEmail(email)`: the part before `@`, first character upper-cased. */
  function UserNameFromEmail(email: string): (r: string)
    ensures '@' !in r
  {
    var local := BeforeFirst(email, '@');
    if local == "" then "" else [UpperChar(local[0])] + local[1..]
  }

  /**
   * The greeting is the email's local part, differing at most in the case
   * of its first letter; applying the rule to a greeting changes nothing.
   */
  lemma UserNameFacts(email: string)
    ensures var local := BeforeFirst(email, '@');
      var r := UserNameFromEmail(email);
      && |r| == |local|
      && Lower(r) == Lower(local)
      && (r != "" ==> r[1..] == local[1..] && !('a' <= r[0] <= 'z'))
      && UserNameFromEmail(r) == r
  {
    var local := BeforeFirst(email, '@');
    var r := UserNameFromEmail(email);
    if local != "" {
      assert Lower(r) == [LowerChar(r[0])] + Lower(r[1..]);
      assert Lower(local) == [LowerChar(local[0])] + Lower(local[1..]);
      assert BeforeFirst(r, '@') == r;
    }
  }
}
