// The shared planner script of the authenticated pages: its currency list,
// the sign-up checks, the navigation label, the pending action that waits
// for a login, and its own copy of the day and activity editors and of the
// balance calculator.

module AuthFinal {
  import opened Common
  import opened Itinerary
  import opened Sorting
  import opened Budget

  // ---------------------------------------------------------------------
  // Currencies

  datatype CurrencyInfo = CurrencyInfo(code: string, symbol: string, name: string)

  /** `Object.values(countryCurrencies)`, in the order the table lists its 15 countries. */
  const CountryCurrencies: seq<CurrencyInfo> := [
    CurrencyInfo("SAR", "\U{FDFC}", "Saudi Riyal"),
    CurrencyInfo("INR", "\U{20B9}", "Indian Rupee"),
    CurrencyInfo("JPY", "\U{00A5}", "Japanese Yen"),
    CurrencyInfo("MYR", "RM", "Malaysian Ringgit"),
    CurrencyInfo("EUR", "\U{20AC}", "Euro"),
    CurrencyInfo("EUR", "\U{20AC}", "Euro"),
    CurrencyInfo("USD", "$", "US Dollar"),
    CurrencyInfo("THB", "\U{0E3F}", "Thai Baht"),
    CurrencyInfo("TRY", "\U{20BA}", "Turkish Lira"),
    CurrencyInfo("AED", "\U{062F}.\U{0625}", "UAE Dirham"),
    CurrencyInfo("IDR", "Rp", "Indonesian Rupiah"),
    CurrencyInfo("EUR", "\U{20AC}", "Euro"),
    CurrencyInfo("EUR", "\U{20AC}", "Euro"),
    CurrencyInfo("MAD", "\U{062F}.\U{0645}.", "Moroccan Dirham"),
    CurrencyInfo("EGP", "\U{00A3}", "Egyptian Pound")
  ]

  /**
   * `uniqueCurrencies[curr.code] = curr` on an object: a code seen before
   * keeps its place and takes the new value, a new code goes last.
   */
  function PutByCode(acc: seq<CurrencyInfo>, c: CurrencyInfo): seq<CurrencyInfo>
  {
    if acc == [] then [c]
    else if acc[0].code == c.code then [c] + acc[1..]
    else [acc[0]] + PutByCode(acc[1..], c)
  }

  /** The object built by the `forEach`, as the list of its values. */
  function UniqueByCode(cs: seq<CurrencyInfo>): seq<CurrencyInfo>
  {
    if cs == [] then [] else PutByCode(UniqueByCode(cs[..|cs| - 1]), cs[|cs| - 1])
  }

  predicate DistinctCodes(cs: seq<CurrencyInfo>)
  {
    forall i, j :: 0 <= i < j < |cs| ==> cs[i].code != cs[j].code
  }

  function Codes(cs: seq<CurrencyInfo>): set<string>
  {
    set c | c in cs :: c.code
  }

  /** `getAllCurrencies()`: one entry per code, sorted by code. */
  function GetAllCurrencies(): seq<CurrencyInfo>
  {
    SortByText(UniqueByCode(CountryCurrencies), (c: CurrencyInfo) => c.code)
  }

  lemma {:induction false} PutByCodeCodes(acc: seq<CurrencyInfo>, c: CurrencyInfo)
    ensures Codes(PutByCode(acc, c)) == Codes(acc) + {c.code}
    ensures forall x :: x in PutByCode(acc, c) ==> x == c || x in acc
  {
    if acc != [] {
      assert acc == [acc[0]] + acc[1..];
      assert Codes(acc) == {acc[0].code} + Codes(acc[1..]);
      if acc[0].code != c.code {
        PutByCodeCodes(acc[1..], c);
        assert Codes(PutByCode(acc, c)) == {acc[0].code} + Codes(PutByCode(acc[1..], c));
      } else {
        assert Codes(PutByCode(acc, c)) == {c.code} + Codes(acc[1..]);
      }
    }
  }

  lemma {:induction false} PutByCodeDistinct(acc: seq<CurrencyInfo>, c: CurrencyInfo)
    requires DistinctCodes(acc)
    ensures DistinctCodes(PutByCode(acc, c))
  {
    if acc != [] && acc[0].code != c.code {
      var rest := acc[1..];
      assert DistinctCodes(rest) by {
        forall i, j | 0 <= i < j < |rest|
          ensures rest[i].code != rest[j].code
        {
          assert rest[i] == acc[i + 1] && rest[j] == acc[j + 1];
        }
      }
      PutByCodeDistinct(rest, c);
      assert acc[0].code !in Codes(PutByCode(rest, c)) by {
        forall k | 0 <= k < |rest|
          ensures rest[k].code != acc[0].code
        {
          assert rest[k] == acc[k + 1];
        }
        PutByCodeCodes(rest, c);
      }
      ConsDistinct(acc[0], PutByCode(rest, c));
    } else if acc != [] {
      var r := PutByCode(acc, c);
      forall i, j | 0 <= i < j < |r|
        ensures r[i].code != r[j].code
      {
        assert r[j] == acc[j];
      }
    }
  }

  lemma ConsDistinct(x: CurrencyInfo, t: seq<CurrencyInfo>)
    requires DistinctCodes(t) && x.code !in Codes(t)
    ensures DistinctCodes([x] + t)
  {
    var r := [x] + t;
    forall i, j | 0 <= i < j < |r|
      ensures r[i].code != r[j].code
    {
      assert r[j] == t[j - 1];
      if i > 0 {
        assert r[i] == t[i - 1];
      }
    }
  }

  /**
   * The deduplicated list names every code of the input exactly once, and
   * each of its entries is one of the input's.
   */
  lemma {:induction false} UniqueByCodeFacts(cs: seq<CurrencyInfo>)
    ensures DistinctCodes(UniqueByCode(cs))
    ensures Codes(UniqueByCode(cs)) == Codes(cs)
    ensures forall x :: x in UniqueByCode(cs) ==> x in cs
  {
    if cs != [] {
      var init, last := cs[..|cs| - 1], cs[|cs| - 1];
      var u := UniqueByCode(init);
      assert UniqueByCode(cs) == PutByCode(u, last);
      UniqueByCodeFacts(init);
      PutByCodeCodes(u, last);
      PutByCodeDistinct(u, last);
      assert cs == init + [last];
      CodesSnoc(init, last);
    }
  }

  lemma CodesSnoc(cs: seq<CurrencyInfo>, c: CurrencyInfo)
    ensures Codes(cs + [c]) == Codes(cs) + {c.code}
  {
    forall k | k in Codes(cs + [c])
      ensures k in Codes(cs) + {c.code}
    {
      var x :| x in cs + [c] && x.code == k;
      if x != c {
        assert x in cs;
      }
    }
    forall k | k in Codes(cs)
      ensures k in Codes(cs + [c])
    {
      var x :| x in cs && x.code == k;
      assert x in cs + [c];
    }
    assert c in cs + [c];
  }

  /**
   * The currency menu names every currency of the table exactly once (the
   * four euro countries give one entry), each as the table describes it,
   * in ascending code order.
   */
  lemma GetAllCurrenciesOncePerCode()
    ensures var r := GetAllCurrencies();
      && DistinctCodes(r)
      && Codes(r) == Codes(CountryCurrencies)
      && (forall x :: x in r ==> x in CountryCurrencies)
      && SortedByText(r, (c: CurrencyInfo) => c.code)
  {
    var u := UniqueByCode(CountryCurrencies);
    var key := (c: CurrencyInfo) => c.code;
    UniqueByCodeFacts(CountryCurrencies);
    SortByTextSorted(u, key);
    var r := SortByText(u, key);
    assert multiset(r) == multiset(u);
    forall x | x in r
      ensures x in u
    {
      assert x in multiset(r);
    }
    forall x | x in u
      ensures x in r
    {
      assert x in multiset(u);
    }
    forall i, j | 0 <= i < j < |r|
      ensures r[i].code != r[j].code
    {
      if r[i].code == r[j].code {
        assert r[i] in multiset(u) && r[j] in multiset(u);
        var a :| 0 <= a < |u| && u[a] == r[i];
        var b :| 0 <= b < |u| && u[b] == r[j];
        if a == b {
          MultisetTwice(r, i, j);
          assert multiset(r)[r[i]] >= 2;
          OnceInDistinct(u, a);
        }
      }
    }
    assert Codes(r) == Codes(u);
  }

  /** Two positions holding the same element count it twice. */
  lemma MultisetTwice<T>(s: seq<T>, i: nat, j: nat)
    requires i < j < |s| && s[i] == s[j]
    ensures multiset(s)[s[i]] >= 2
  {
    assert s == s[..i] + [s[i]] + s[i + 1..j] + [s[j]] + s[j + 1..];
  }

  /** An element of a list with distinct codes occurs in it once. */
  lemma {:induction false} OnceInDistinct(s: seq<CurrencyInfo>, a: nat)
    requires DistinctCodes(s) && a < |s|
    ensures multiset(s)[s[a]] == 1
  {
    if a == 0 {
      assert s == [s[0]] + s[1..];
      assert s[0] !in s[1..];
    } else {
      assert s == [s[0]] + s[1..];
      assert DistinctCodes(s[1..]) by {
        forall i, j | 0 <= i < j < |s[1..]|
          ensures s[1..][i].code != s[1..][j].code
        {
          assert s[1..][i] == s[i + 1] && s[1..][j] == s[j + 1];
        }
      }
      OnceInDistinct(s[1..], a - 1);
      assert s[1..][a - 1] == s[a];
      assert s[0] != s[a];
    }
  }

  // ---------------------------------------------------------------------
  // Accounts

  /** What the page knows of the signed-in user; `""` stands for a missing field. */
  datatype Profile = Profile(displayName: string, name: string, email: string)

  /** The label of the navigation's user button. */
  function NavLabel(loggedIn: bool, user: Option<Profile>): (shown: string)
    ensures !loggedIn || user.None? ==> shown == "Profile"
    ensures loggedIn && user.Some? && user.value.displayName != "" ==> shown == user.value.displayName
    ensures loggedIn && user.Some? && user.value.displayName == "" && user.value.name != "" ==> shown == user.value.name
    ensures loggedIn && user.Some? && user.value.displayName == "" && user.value.name == "" && user.value.email != "" ==>
      shown == Split(user.value.email, '@')[0] && '@' !in shown && shown <= user.value.email
    ensures loggedIn && user.Some? && user.value == Profile("", "", "") ==> shown == "Profile"
  {
    if !loggedIn || user.None? then "Profile"
    else if user.value.displayName != "" then user.value.displayName
    else if user.value.name != "" then user.value.name
    else if user.value.email != "" then BeforeFirst(user.value.email, '@')
    else "Profile"
  }

  datatype SignupCheck = MissingField | ShortPassword | BadEmail | Ready(fullName: string)

  /**
   * The checks of the sign-up form before any request: every field filled,
   * a password of at least 6 characters, then the address format
   * (`emailMatches` is the result of the page's e-mail pattern).
   */
  function CheckSignup(firstName: string, lastName: string, email: string, password: string, emailMatches: bool): (r: SignupCheck)
    ensures r.Ready? <==> firstName != "" && lastName != "" && email != "" && |password| >= 6 && emailMatches
    ensures r.Ready? ==> r.fullName == firstName + " " + lastName
    ensures r == MissingField <==> firstName == "" || lastName == "" || email == "" || password == ""
    ensures r == ShortPassword ==> password != "" && |password| < 6
    ensures r == BadEmail ==> |password| >= 6 && !emailMatches
  {
    if firstName == "" || lastName == "" || email == "" || password == "" then MissingField
    else if |password| < 6 then ShortPassword
    else if !emailMatches then BadEmail
    else Ready(firstName + " " + lastName)
  }

  /** A callback the page may have to run later; `tag` identifies it. */
  datatype Action = Action(tag: string)

  /** The login gate: the action waiting for a login, and the actions run so far. */
  class AuthGate {
    var loggedIn: bool
    var pendingAction: Option<Action>
    var loginShown: bool
    var ran: seq<Action>

    constructor ()
      ensures !loggedIn && pendingAction == None && !loginShown && ran == []
    {
      loggedIn := false;
      pendingAction := None;
      loginShown := false;
      ran := [];
    }

    /** `requireAuth(callback)`: run it now when logged in, else keep it and show the login. */
    method RequireAuth(callback: Action)
      modifies this`pendingAction, this`loginShown, this`ran
      ensures old(loggedIn) ==>
        ran == old(ran) + [callback] && pendingAction == old(pendingAction) && loginShown == old(loginShown)
      ensures !old(loggedIn) ==>
        ran == old(ran) && pendingAction == Some(callback) && loginShown
    {
      if loggedIn {
        ran := ran + [callback];
      } else {
        pendingAction := Some(callback);
        loginShown := true;
      }
    }

    /**
     * `finishAuth()`: the pending action, if any, is cleared before it
     * runs, so it runs exactly once.
     */
    method FinishAuth()
      modifies this`pendingAction, this`loginShown, this`ran
      ensures pendingAction == None && !loginShown
      ensures old(pendingAction).Some? ==> ran == old(ran) + [old(pendingAction).value]
      ensures old(pendingAction).None? ==> ran == old(ran)
    {
      loginShown := false;
      if pendingAction.Some? {
        var action := pendingAction.value;
        pendingAction := None;
        ran := ran + [action];
      }
    }
  }

  // ---------------------------------------------------------------------
  // The activity form

  /** The activity form's fields as typed. */
  datatype ActivityForm = ActivityForm(
    kind: string,
    name: string,
    location: string,
    link: string,
    description: string,
    startTime: string,
    endTime: string,
    budget: string,
    currency: string)

  /**
   * When the form passes: a type and a trimmed name, both times, a link
   * that is empty or parses (`linkParses` is what `new URL` decides), and
   * an end time not before the start time as strings compare.
   */
  predicate FormAcceptable(f: ActivityForm, linkParses: bool)
  {
    && Trim(f.kind) != ""
    && Trim(f.name) != ""
    && (Trim(f.link) == "" || linkParses)
    && f.startTime != ""
    && f.endTime != ""
    && !StrLess(f.endTime, f.startTime)
  }

  /** `validateActivityForm()`: every failed check clears `isValid`. */
  method ValidateActivityForm(f: ActivityForm, linkParses: bool) returns (isValid: bool)
    ensures isValid <==> FormAcceptable(f, linkParses)
  {
    var kind, name, link := Trim(f.kind), Trim(f.name), Trim(f.link);
    isValid := true;
    if kind == "" {
      isValid := false;
    }
    if name == "" {
      isValid := false;
    }
    if link != "" && !linkParses {
      isValid := false;
    }
    if f.startTime == "" {
      isValid := false;
    }
    if f.endTime == "" {
      isValid := false;
    }
    if f.startTime != "" && f.endTime != "" && StrLess(f.endTime, f.startTime) {
      isValid := false;
    }
  }

  /**
   * The activity the handler stores: the trimmed text fields, the price
   * and currency only for a paid budget, and the geocoded coordinates.
   */
  function ActivityData(f: ActivityForm, id: Option<string>, parsedPrice: Option<int>, coords: Option<Coord>): (a: Activity)
  {
    Activity(id, f.kind, Trim(f.name), Trim(f.location), Trim(f.link), f.startTime, f.endTime, f.budget,
             if f.budget == "Paid" then parsedPrice else None,
             if f.budget == "Paid" then f.currency else "",
             coords, Trim(f.description))
  }

  /** A stored activity carries a price or a currency only when its budget is paid. */
  lemma UnpaidActivityHasNoPrice(f: ActivityForm, id: Option<string>, parsedPrice: Option<int>, coords: Option<Coord>)
    ensures var a := ActivityData(f, id, parsedPrice, coords);
      && (a.budget != "Paid" ==> a.price.None? && a.currency == "")
      && (a.budget == "Paid" ==> a.price == parsedPrice && a.currency == f.currency)
      && a.id == id && a.name == Trim(f.name)
  {
  }

  /**
   * The itinerary after an accepted activity form: editing activity `j` of
   * the selected day replaces it and keeps its id, adding appends one with
   * the fresh id.  No day selected, or a day or edited activity outside the
   * lists, makes the script throw before any change.
   */
  function ActivitySaved(days: seq<Day>, selected: Option<int>, editing: Option<int>, f: ActivityForm,
                         parsedPrice: Option<int>, coords: Option<Coord>, freshId: string): seq<Day>
  {
    if selected.None? || !(0 <= selected.value < |days|) then days
    else
      var d := selected.value;
      var acts := days[d].activities;
      match editing
      case Some(j) =>
        if 0 <= j < |acts| then days[d := days[d].(activities := acts[j := ActivityData(f, acts[j].id, parsedPrice, coords)])]
        else days
      case None => days[d := days[d].(activities := acts + [ActivityData(f, Some(freshId), parsedPrice, coords)])]
  }

  /**
   * Saving an activity leaves the days, their numbers and every other
   * activity as they were; the edited activity keeps its id, an added one
   * has the fresh id and goes last; an unpaid activity has no price and no
   * currency.
   */
  lemma ActivitySavedKeepsIds(days: seq<Day>, selected: Option<int>, editing: Option<int>, f: ActivityForm,
                              parsedPrice: Option<int>, coords: Option<Coord>, freshId: string)
    ensures var r := ActivitySaved(days, selected, editing, f, parsedPrice, coords, freshId);
      && |r| == |days|
      && (forall k :: 0 <= k < |days| ==> r[k].day == days[k].day && r[k].title == days[k].title)
      && (Numbered(days) ==> Numbered(r))
      && (forall k :: 0 <= k < |days| && (selected.None? || k != selected.value) ==> r[k] == days[k])
    ensures selected.Some? && 0 <= selected.value < |days| ==>
      var d := selected.value;
      var acts := days[d].activities;
      var after := ActivitySaved(days, selected, editing, f, parsedPrice, coords, freshId)[d].activities;
      && (editing.Some? && 0 <= editing.value < |acts| ==>
            |after| == |acts| && after[editing.value].id == acts[editing.value].id
            && (forall k :: 0 <= k < |acts| && k != editing.value ==> after[k] == acts[k]))
      && (editing.None? ==>
            |after| == |acts| + 1 && after[..|acts|] == acts && after[|acts|].id == Some(freshId))
      && (forall a :: a in after && a !in acts ==> (a.budget != "Paid" ==> a.price.None? && a.currency == ""))
  {
  }

  datatype BalanceView = NoExpenses | Sections(groups: seq<CurrencyGroup>)

  /** Each currency section with its type rows in sorted order. */
  function TypesSorted(groups: seq<CurrencyGroup>): (r: seq<CurrencyGroup>)
    ensures |r| == |groups|
    ensures forall i :: 0 <= i < |r| ==> r[i].code == groups[i].code && multiset(r[i].types) == multiset(groups[i].types)
  {
    seq(|groups|, i requires 0 <= i < |groups| => groups[i].(types := ByKind(groups[i].types)))
  }

  /** Every section lists its type rows in ascending name order, as `Object.keys(types).sort()` does. */
  lemma TypesSortedSorted(groups: seq<CurrencyGroup>)
    ensures forall i :: 0 <= i < |groups| ==> SortedByText(TypesSorted(groups)[i].types, (t: TypeTotal) => t.kind)
  {
    forall i | 0 <= i < |groups|
      ensures SortedByText(TypesSorted(groups)[i].types, (t: TypeTotal) => t.kind)
    {
      ByKindSorted(groups[i].types);
    }
  }

  /**
   * The itinerary after the day form is saved: the selected day takes the
   * form's title, city and date; with no day selected a new day is
   * appended, numbered after the last, without activities or coordinates.
   * A selection outside the itinerary makes the script throw before any
   * change.
   */
  function DaySaved(days: seq<Day>, selected: Option<int>, title: string, city: string, date: string): seq<Day>
  {
    match selected
    case None => days + [Day(|days| + 1, date, title, city, None, [])]
    case Some(i) =>
      if 0 <= i < |days| then days[i := days[i].(title := title, city := city, date := date)] else days
  }

  /**
   * Saving the day form keeps the days numbered from 1; adding grows the
   * list by one day, editing touches only the selected day's title, city
   * and date and keeps its activities.
   */
  lemma DaySavedKeepsNumbering(days: seq<Day>, selected: Option<int>, title: string, city: string, date: string)
    requires Numbered(days)
    ensures var r := DaySaved(days, selected, title, city, date);
      && Numbered(r)
      && (selected.None? ==> |r| == |days| + 1 && r[..|days|] == days && r[|days|].activities == [])
      && (selected.Some? ==> |r| == |days| && forall k :: 0 <= k < |days| ==>
            r[k].day == days[k].day && r[k].activities == days[k].activities && r[k].coords == days[k].coords
            && (k != selected.value ==> r[k] == days[k]))
  {
    match selected
    case None =>
      NumberedAppend(days, Day(|days| + 1, date, title, city, None, []));
    case Some(i) =>
      if 0 <= i < |days| {
        NumberedUpdate(days, i, days[i].(title := title, city := city, date := date));
      }
  }

  // ---------------------------------------------------------------------
  // The planner

  class AuthPlanner {
    var itinerary: seq<Day>
    /** `currentDayIndex`, `null` as `None`. */
    var currentDayIndex: Option<int>
    var currentActivityIndex: Option<int>
    var isEditMode: bool
    var expandedActivityId: Option<string>

    constructor (days: seq<Day>)
      ensures itinerary == days && currentDayIndex == None && currentActivityIndex == None
      ensures !isEditMode && expandedActivityId == None
    {
      itinerary := days;
      currentDayIndex := None;
      currentActivityIndex := None;
      isEditMode := false;
      expandedActivityId := None;
    }

    /** `toggleActivity(id)`: the expanded activity closes, any other becomes the only one open. */
    method ToggleActivity(activityId: string)
      modifies this`expandedActivityId
      ensures old(expandedActivityId) == Some(activityId) ==> expandedActivityId == None
      ensures old(expandedActivityId) != Some(activityId) ==> expandedActivityId == Some(activityId)
    {
      var wasExpanded := expandedActivityId == Some(activityId);
      if !wasExpanded {
        expandedActivityId := Some(activityId);
      } else {
        expandedActivityId := None;
      }
    }

    /** `openDayModal()`: the next day form adds a day. */
    method OpenDayModal()
      modifies this`currentDayIndex
      ensures currentDayIndex == None
    {
      currentDayIndex := None;
    }

    /**
     * `editDay(i)`: the next day form edits day `i`.  The form is filled
     * from `itinerary[i]` first, so an index outside the itinerary throws
     * (`threw`) before anything is assigned.
     */
    method EditDay(dayIndex: int) returns (threw: bool)
      modifies this`currentDayIndex
      ensures threw <==> !(0 <= dayIndex < |itinerary|)
      ensures currentDayIndex == if threw then old(currentDayIndex) else Some(dayIndex)
    {
      if !(0 <= dayIndex < |itinerary|) {
        return true;
      }
      currentDayIndex := Some(dayIndex);
      threw := false;
    }

    /** `openActivityModal(d)`: the next activity form adds to day `d`. */
    method OpenActivityModal(dayIndex: int)
      modifies this`currentDayIndex, this`currentActivityIndex, this`isEditMode
      ensures currentDayIndex == Some(dayIndex) && currentActivityIndex == None && !isEditMode
    {
      currentDayIndex := Some(dayIndex);
      currentActivityIndex := None;
      isEditMode := false;
    }

    /**
     * `editActivity(d, a)`: the next activity form edits activity `a` of day
     * `d`.  Reading `itinerary[d].activities` throws (`threw`) for a day
     * outside the itinerary, before anything is assigned; an activity index
     * outside the day reads `undefined`, so the three assignments run and
     * filling the form from it then throws.
     */
    method EditActivity(dayIndex: int, activityIndex: int) returns (threw: bool)
      modifies this`currentDayIndex, this`currentActivityIndex, this`isEditMode
      ensures threw <==>
        !(0 <= dayIndex < |itinerary|) || !(0 <= activityIndex < |itinerary[dayIndex].activities|)
      ensures !(0 <= dayIndex < |itinerary|) ==>
        currentDayIndex == old(currentDayIndex) && currentActivityIndex == old(currentActivityIndex)
        && isEditMode == old(isEditMode)
      ensures 0 <= dayIndex < |itinerary| ==>
        currentDayIndex == Some(dayIndex) && currentActivityIndex == Some(activityIndex) && isEditMode
    {
      if !(0 <= dayIndex < |itinerary|) {
        return true;
      }
      currentDayIndex := Some(dayIndex);
      currentActivityIndex := Some(activityIndex);
      isEditMode := true;
      threw := !(0 <= activityIndex < |itinerary[dayIndex].activities|);
    }

    /**
     * `deleteDay(i)` once the user confirms: `splice(i, 1)` (which counts a
     * negative index from the end) and renumbering from 1.
     */
    method DeleteDay(dayIndex: int, confirmed: bool)
      modifies this`itinerary
      ensures !confirmed ==> itinerary == old(itinerary)
      ensures confirmed ==> itinerary == Renumbered(Splice1(old(itinerary), dayIndex)) && Numbered(itinerary)
    {
      if !confirmed {
        return;
      }
      var rest := Splice1(itinerary, dayIndex);
      itinerary := RenumberDays(rest);
      assert itinerary == Renumbered(rest);
    }

    /** `saveDayHandler`: the title and city are trimmed, the date is taken as typed. */
    method SaveDayHandler(titleInput: string, cityInput: string, date: string)
      modifies this`itinerary
      ensures itinerary == DaySaved(old(itinerary), currentDayIndex, Trim(titleInput), Trim(cityInput), date)
    {
      var title, city := Trim(titleInput), Trim(cityInput);
      if currentDayIndex.Some? {
        var i := currentDayIndex.value;
        if 0 <= i < |itinerary| {
          itinerary := itinerary[i := itinerary[i].(title := title, city := city, date := date)];
        }
      } else {
        itinerary := itinerary + [Day(|itinerary| + 1, date, title, city, None, [])];
      }
    }

    /**
     * `saveActivityHandler`: an invalid form changes nothing.  The
     * geocoder's answer `geocoded` is used only when a location was given;
     * `parsedPrice` is what `parseFloat` makes of the price field.
     */
    method SaveActivityHandler(f: ActivityForm, linkParses: bool, parsedPrice: Option<int>, geocoded: Option<Coord>,
                               freshId: string)
      modifies this`itinerary
      ensures !FormAcceptable(f, linkParses) ==> itinerary == old(itinerary)
      ensures FormAcceptable(f, linkParses) ==>
        itinerary == ActivitySaved(old(itinerary), currentDayIndex, if isEditMode then currentActivityIndex else None, f,
                                   parsedPrice, if Trim(f.location) != "" then geocoded else None, freshId)
    {
      var valid := ValidateActivityForm(f, linkParses);
      if !valid {
        return;
      }
      var location := Trim(f.location);
      var coords := if location != "" then geocoded else None;
      if currentDayIndex.None? || !(0 <= currentDayIndex.value < |itinerary|) {
        return;
      }
      var d := currentDayIndex.value;
      var day := itinerary[d];
      var acts := day.activities;
      if isEditMode && currentActivityIndex.Some? {
        var j := currentActivityIndex.value;
        if !(0 <= j < |acts|) {
          return;
        }
        var data := ActivityData(f, acts[j].id, parsedPrice, coords);
        itinerary := itinerary[d := day.(activities := acts[j := data])];
      } else {
        var data := ActivityData(f, Some(freshId), parsedPrice, coords);
        itinerary := itinerary[d := day.(activities := acts + [data])];
      }
    }

    /**
     * `renderBalanceCalculator()`: nothing paid shows the empty state;
     * otherwise one section per currency in code order, each with its type
     * rows in name order.
     */
    method RenderBalance() returns (view: BalanceView)
      ensures PaidItems(itinerary) == [] ==> view == NoExpenses
      ensures PaidItems(itinerary) != [] ==> view == Sections(TypesSorted(ByCode(Grouped(PaidItems(itinerary)))))
    {
      var paid, groups := Tally(itinerary);
      if |paid| == 0 {
        return NoExpenses;
      }
      view := Sections(TypesSorted(ByCode(groups)));
    }
  }
}
