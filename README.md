# TripWise itinerary core in Dafny

TripWise is a travel planner written for the browser. Its pages keep a trip as an
ordered list of days, each day holding an ordered list of activities. The pages
edit that list, draw derived views of it, and save it through an Express/MySQL
back end and the browser's localStorage. This project models:

- the itinerary rules of the three planner pages (`japan-custom-plan.js`,
  `trip-planner.js`, `tripwise-auth-final.js`). Each page's variant is modelled
  as it is written; the three are not unified;
- the derived views: budget totals by currency (and by activity type), and the
  city markers of the map together with the decision between a route, centring
  on one city, or leaving the map alone;
- the save, load and open-trip code (`REAL_FIX.js`, `save-with-custom-modal.js`,
  `trip-loader-fix.js`, `trip-open-handler.js`, `profile-loader-fix.js`) over a
  localStorage modelled as `map<string, StoredValue>`;
- the server's handlers (`server/server.js`) over tables held by the class
  `Server.TripServer`;
- the home page's helpers (`main.js`): the ready-plan recommendation reorder,
  the plan-trip form check and the greeting name.

Each core file is one module. A page whose script changes globals in place is a
class whose fields are those globals (`itinerary`, the current day, the trip id
and name, `store` for localStorage). Its methods carry `modifies` clauses and are
proved against specification functions (`SaveSpec`, `RecordSave`, `Renumbered`,
`Totals`, `Cities`, `Grouped`, `Reordered`, ...). The properties of the
specification functions are proved as lemmas.

Everything outside the script is a parameter of the operation that uses it:

- a fetch is `Fetch<T>`: it threw, it answered with a non-ok status, or it
  answered ok with a body;
- the geocoder answers `Option<Coord>`;
- a prompt or modal answers `Option<string>`, with `None` for cancel;
- `confirm` is a `bool`;
- generated ids are a fresh suffix;
- the clock is an `int`;
- date parsing yields `Option<int>` day ordinals and date formatting is a
  function parameter;
- the URL validity and e-mail pattern checks are `bool`s.

Shared modules:

- `Common`: `Option`, JavaScript ids that are numbers or strings (`JsId`) and
  their `String(...)` text, trimming, ASCII lower/upper case, `split`, string
  order;
- `Itinerary`: days, activities, numbering, `splice`;
- `Storage`: the keys, trip summaries, the `findIndex` upsert and the save
  every page performs;
- `Api`: the JSON documents exchanged with the server;
- `Budget`: the paid-activity grouping shared by two pages;
- `Sorting`: a stable insertion sort by a numeric or a text key.

## Model

| member | source | states |
|---|---|---|
| Itinerary.RemoveDayRenumbers | tripwise-restructured/japan-custom-plan.js:1200-1208 | removing day i and renumbering gives a list one shorter, numbered 1..n, with the days before i in place and the later days moved up by one, each otherwise unchanged |
| Itinerary.RenumberDays | tripwise-restructured/japan-custom-plan.js:1206-1208 | the renumbering loop gives every day its 1-based position and changes nothing else |
| Itinerary.Splice1 | tripwise-restructured/tripwise-auth-final.js:1810-1816 | `splice(start, 1)` removes the element at `start`, counting a negative start from the end and clamping it at 0; a start at or past the end removes nothing |
| Itinerary.AssignAt | tripwise-restructured/japan-custom-plan.js:1358-1364 | `acts[i] = x` replaces in range, appends at the end, and adds nothing for a negative index |
| Storage.KeysDistinct | tripwise-restructured/REAL_FIX.js:190-196 | the `itinerary:`, `tripwise:trips:` and draft keys never collide, and each prefix is injective |
| Storage.ReadTrips | tripwise-restructured/save-with-custom-modal.js:214-220 | a missing list reads as `[]`, and a parsed list is exactly what is stored |
| Storage.FirstMatch | tripwise-restructured/save-with-custom-modal.js:222 | `findIndex` returns the first matching position, or -1 exactly when nothing matches |
| Storage.UpsertByTextKeepsIdsUnique | tripwise-restructured/save-with-custom-modal.js:222-229 | the upsert by `String(id)` keeps a duplicate-free list duplicate-free, leaves the entry in it, grows the list only for a new trip, and keeps every other trip |
| Storage.UpsertByTextIdempotent | tripwise-restructured/trip-loader-fix.js:136-141 | upserting the same summary twice gives the same list as upserting it once |
| Storage.StrictUpsertDuplicatesTextId | tripwise-restructured/REAL_FIX.js:254-261 | with `t.id === id`, a stored text id "6" is missed by the number 6, so the trip is appended and then listed twice |
| Storage.RecordSaveLists | tripwise-restructured/japan-custom-plan.js:1500-1535 | after a save, the owner's list (when it parses and is duplicate-free) names the trip, names no trip twice and keeps every other trip |
| Storage.RecordSaveIdempotent | tripwise-restructured/japan-custom-plan.js:1500-1535 | saving the same trip twice leaves the store as saving it once |
| Storage.RecordSaveFrame | tripwise-restructured/japan-custom-plan.js:1500-1506 | a save stores the days under `itinerary:<id>` and touches no key other than that one and the owner's list |
| Storage.FirstMatchSameText | tripwise-restructured/trip-open-handler.js:82 | two ids with the same text select the same entry |
| Budget.Tally | tripwise-restructured/trip-planner.js:865-896 | the two loops collect the paid activities day by day and group them by currency and type, as `PaidItems` and `Grouped` define |
| Budget.GroupedTypeTotals | tripwise-restructured/tripwise-auth-final.js:1503-1518 | each (currency, type) group holds exactly the sum and the count of the paid items of that currency and type, and there is no group for a pair without items |
| Budget.GroupedCurrencyTotal | tripwise-restructured/tripwise-auth-final.js:1529-1535 | a currency's total, the sum of its type totals, equals the sum of its paid items' prices |
| Budget.GroupedCurrencies | tripwise-restructured/tripwise-auth-final.js:1488-1518 | there is one group per currency that occurs among the paid items and no other, and there are no groups exactly when nothing is paid |
| Budget.AddToGroupsDistinct | tripwise-restructured/trip-planner.js:889-896 | adding an item never creates a second group for a currency |
| Budget.ByCode | tripwise-restructured/trip-planner.js:900 | the currency sections are a permutation of the groups |
| Budget.ByCodeSorted | tripwise-restructured/trip-planner.js:900 | the currency sections are in ascending code order |
| Budget.ByKind | tripwise-restructured/tripwise-auth-final.js:1529-1535 | the type rows of a currency are a permutation of its type totals |
| Budget.ByKindSorted | tripwise-restructured/tripwise-auth-final.js:1548 | the type rows of a currency are in ascending name order |
| JapanPlan.InitialItinerary | tripwise-restructured/japan-custom-plan.js:554-632 | a parseable `itinerary:<tripId>` wins; otherwise the draft; otherwise `[]` in planner mode and the template in any other mode |
| JapanPlan.PlannerModeStartsEmpty | tripwise-restructured/japan-custom-plan.js:583-599 | without a saved trip or draft, planner mode starts with no days |
| JapanPlan.JapanPage.InitializeItinerary | tripwise-restructured/japan-custom-plan.js:554-632 | the page loads what `InitialItinerary` chooses; a loaded trip also sets the trip id, the name (`countryLabel` or `Japan Trip`) and the draft key; any other start changes neither the store nor the trip globals |
| JapanPlan.CitiesMatchItinerary | tripwise-restructured/japan-custom-plan.js:664-681 | one marker per mappable city, in order of first visit, at the first such day's coordinates, listing the numbers of all its days in itinerary order |
| JapanPlan.AddCityNames | tripwise-restructured/japan-custom-plan.js:664-681 | adding a day adds its city to the marker names only if it is not there yet |
| JapanPlan.View | tripwise-restructured/japan-custom-plan.js:724-733 | a route through all markers when there are two or more, centring on the only marker when there is one, no move otherwise |
| JapanPlan.TokyoKyotoExample | tripwise-restructured/japan-custom-plan.js:664-733 | three Tokyo days then a Kyoto day give two markers labelled "Days 1-3" and "Day 4", joined by a route |
| JapanPlan.JapanPage.MapMarkers | tripwise-restructured/japan-custom-plan.js:656-734 | the markers drawn are `Cities(itinerary)`: one per mappable city in first-visit order, listing all its days (`JapanPlan.CitiesMatchItinerary`); the map draws a route for two or more markers, centres on a single one and otherwise stays put (`JapanPlan.View`) |
| JapanPlan.JapanPage.ToggleDay | tripwise-restructured/japan-custom-plan.js:902-918 | toggling the active day clears it and any other index becomes active (also out of range); the map centres only on a newly active day with coordinates |
| JapanPlan.TotalsMatchExpenses | tripwise-restructured/japan-custom-plan.js:926-946 | a currency is listed exactly when some paid, priced activity uses it (no currency counts as JPY); its items are in itinerary order and its total is their sum |
| JapanPlan.JapanPage.UpdateBalance | tripwise-restructured/japan-custom-plan.js:921-955 | the accumulation loop yields `Totals(AllActivities(itinerary))` |
| JapanPlan.JapanPage.SavePlan | tripwise-restructured/japan-custom-plan.js:1407-1416 | the draft key holds the current itinerary and nothing else changes |
| JapanPlan.JapanPage.OpenAddDayModal | tripwise-restructured/japan-custom-plan.js:1127-1134 | the next day form adds a day |
| JapanPlan.JapanPage.OpenEditDayModal | tripwise-restructured/japan-custom-plan.js:1136-1144 | the next day form edits day `index` |
| JapanPlan.JapanPage.HandleDaySubmit | tripwise-restructured/japan-custom-plan.js:1151-1198 | a blank trimmed title changes nothing; editing overwrites only title, city, date and coordinates and keeps the activities; adding appends a day numbered length + 1 with no activities; a failed geocode gives no coordinates; the draft is saved |
| JapanPlan.JapanPage.DeleteDay | tripwise-restructured/japan-custom-plan.js:1200-1222 | an index out of range changes nothing; otherwise exactly that day goes, the rest are renumbered, and the active day is cleared if deleted, moved down if after it, kept otherwise |
| JapanPlan.ActiveFollowsItsDay | tripwise-restructured/japan-custom-plan.js:1211-1215 | after a delete, the active index is dropped exactly when its day was deleted, and otherwise still points at the same day |
| JapanPlan.JapanPage.OpenDeleteDayConfirm | tripwise-restructured/japan-custom-plan.js:1224-1243 | the day awaiting confirmation is recorded |
| JapanPlan.JapanPage.CloseDeleteDayConfirm | tripwise-restructured/japan-custom-plan.js:1245-1251 | no day awaits confirmation |
| JapanPlan.JapanPage.ConfirmDeleteDay | tripwise-restructured/japan-custom-plan.js:1253-1258 | with no day pending nothing changes; otherwise the pending day is deleted as `DeleteDay` states and the confirmation closes |
| JapanPlan.JapanPage.OpenAddActivityModal | tripwise-restructured/japan-custom-plan.js:1262-1278 | the next activity form adds to day `dayIndex` |
| JapanPlan.JapanPage.OpenEditActivityModal | tripwise-restructured/japan-custom-plan.js:1280-1305 | the next activity form edits activity `activityIndex` of day `dayIndex` |
| JapanPlan.JapanPage.HandleActivitySubmit | tripwise-restructured/japan-custom-plan.js:1313-1371 | accepted exactly when type, name, start and end are filled (no time order check); a paid price is the parsed value or 0 and a free price is 0; editing replaces at the index and adding appends; a rejected form changes nothing |
| JapanPlan.JapanPage.DeleteActivity | tripwise-restructured/japan-custom-plan.js:1373-1383 | once confirmed, `splice(activityIndex, 1)` on that day and the draft is saved; otherwise nothing changes |
| JapanPlan.JapanPage.SaveToProfile | tripwise-restructured/japan-custom-plan.js:1433-1535 | the save proceeds as `SaveSpec`: no user, no days, a blank or cancelled name, a throw or a non-ok answer write nothing; success writes `itinerary:<dbId>` and upserts the summary |
| JapanPlan.OnlyAcceptedSaveWrites | tripwise-restructured/japan-custom-plan.js:1435-1492 | only a save the server accepted changes the store, and a request is sent exactly when the guards pass |
| JapanPlan.RecordSaveReopens | tripwise-restructured/japan-custom-plan.js:559-576 | the days a save writes are what the page loads when opened with that trip's id |
| JapanPlan.SavedTripReopens | tripwise-restructured/japan-custom-plan.js:1497-1535 | an accepted trip reopens with the same days, and the owner's list names it and no trip twice |
| JapanPlan.JapanPage.WindowSave | tripwise-restructured/japan-custom-plan.js:1545-1551 | the exported wrapper answers `{saved: true, server: true}` whatever the save did, unless the request threw |
| TripPlanner.RegistryTemplatesNumbered | tripwise-restructured/trip-planner.js:9-118 | every registry template numbers its days 1, 2, ...; only `blank` has an empty template |
| TripPlanner.ResolveMode | tripwise-restructured/trip-planner.js:137-151 | a known lower-cased mode is kept and an unknown one falls back to `blank` |
| TripPlanner.ResolveModeIdempotent | tripwise-restructured/trip-planner.js:137-151 | resolving a resolved mode gives it back |
| TripPlanner.PlannerPage.DetectMode | tripwise-restructured/trip-planner.js:137-151 | the mode and its config are set, and `defaultCurrency` becomes the config's currency |
| TripPlanner.CreateDay | tripwise-restructured/trip-planner.js:246-257 | the title defaults to `Day n`; the day has no activities and the given coordinates |
| TripPlanner.CreateActivity | tripwise-restructured/trip-planner.js:259-276 | every field the caller gives overrides the default, and every other field keeps it |
| TripPlanner.CreateActivityDefaults | tripwise-restructured/trip-planner.js:259-276 | with nothing overridden the activity is the defaults: the fresh id, and a currency that is never empty |
| TripPlanner.ReadActivity | tripwise-restructured/trip-planner.js:801-812 | the budget, type and times are the form's; the name, location, link and description are its trimmed text; the price is `Number(input)` exactly when the budget is Paid and a price was typed, and absent otherwise; the currency is the form's when Paid and absent otherwise |
| TripPlanner.AddedActivityIsMergedDefaults | tripwise-restructured/trip-planner.js:818-826 | adding gives the defaults merged with the form; editing keeps the activity's id and coordinates |
| TripPlanner.TemplatePlanShape | tripwise-restructured/trip-planner.js:279-305 | the plan is numbered from 1 without activities: a single `Day 1` for an empty template, one day per template entry otherwise, with its city and title |
| TripPlanner.PlannerPage.InitializeFromTemplate | tripwise-restructured/trip-planner.js:279-305 | the itinerary becomes `TemplatePlan` of the current config |
| TripPlanner.PlannerPage.ApplyDates | tripwise-restructured/trip-planner.js:308-328 | when either date does not parse nothing changes; otherwise day i gets start + i, whatever the end date |
| TripPlanner.PlannerPage.SetCurrentDay | tripwise-restructured/trip-planner.js:601-606 | an index out of range is ignored and the selection stays valid |
| TripPlanner.PlannerPage.AddNewDay | tripwise-restructured/trip-planner.js:608-614 | appends `Day n+1` numbered length + 1 and selects it; the numbering is kept |
| TripPlanner.PlannerPage.DeleteDay | tripwise-restructured/trip-planner.js:616-630 | out of range changes nothing; otherwise the day goes, the rest are renumbered, and the selection moves to the last day only when it falls off the end |
| TripPlanner.PlannerPage.DeleteActivity | tripwise-restructured/trip-planner.js:632-640 | removes exactly that activity, or nothing when either index is out of range |
| TripPlanner.PlannerPage.ToggleActivityDetails | tripwise-restructured/trip-planner.js:592-599 | toggling the expanded activity closes it, and any other id becomes the only expanded one |
| TripPlanner.PlannerPage.SubmitDayForm | tripwise-restructured/trip-planner.js:747-775 | adding appends a day numbered after the last; editing keeps the old title and date when the new ones are empty; the numbering is kept |
| TripPlanner.PlannerPage.SubmitActivityForm | tripwise-restructured/trip-planner.js:777-832 | an invalid day aborts; editing merges the form into the existing activity (same id and coordinates); adding appends the factory's activity with a fresh id |
| TripPlanner.PlannerPage.Balance | tripwise-restructured/trip-planner.js:859-930 | the currency groups of the paid activities, in code order |
| TripPlanner.PlannerPage.LoadSavedTrip | tripwise-restructured/trip-planner.js:1075-1138 | the server's trip replaces the itinerary (a non-array loads as empty) with its id as text and name or `Trip`; a failure changes nothing |
| TripPlanner.NoBreakSpaceNameRefused | tripwise-restructured/trip-planner.js:1207-1213 | a name made only of a no-break space is refused, since `trim()` strips it |
| TripPlanner.ChosenNameNotBlank | tripwise-restructured/trip-planner.js:1207-1213 | a chosen name is never blank, and there is none exactly when the known name and the answer are both blank or missing |
| TripPlanner.DbIdOf | tripwise-restructured/trip-planner.js:1252 | the saved id is never empty when the trip had an id |
| TripPlanner.PlannerPage.StoreTrip | tripwise-restructured/trip-planner.js:1255-1287 | the two writes of an accepted save are `RecordSave` |
| TripPlanner.PlannerSaveRecordsTrip | tripwise-restructured/trip-planner.js:1255-1287 | an accepted save stores the days under the database id, and the owner's list names the trip once under that id and name, keeps every other trip and names no trip twice |
| TripPlanner.PlannerPage.SavePlannerTrip | tripwise-restructured/trip-planner.js:1193-1317 | the declared routine's body: a request is sent exactly when there is a user, days and a name; it reports success exactly on an ok answer; only then are the store, `window.currentTripId` and the name updated |
| TripPlanner.WrapperNeverSaves | tripwise-restructured/trip-planner.js:1321-1323 | once the script has run, a call through the global name reaches the wrapper, which calls itself until the stack runs out, whatever its depth: the declared save never runs |
| TripPlanner.DeclaredSaveRuns | tripwise-restructured/trip-planner.js:1193 | with the declared routine bound to the name, a call reaches it |
| TripPlanner.PlannerPage.HandleSaveTripClick | tripwise-restructured/trip-planner.js:1145-1186 | as written: no email or no days ends the click with nothing changed; a blank or cancelled name for a new trip ends it without an id; otherwise the trip gets its name and a `trip_` id and the click throws, with the store and `window.currentTripId` unchanged |
| TripPlanner.PlannerPage.HandleSaveTripClickIntended | tripwise-restructured/trip-planner.js:1145-1186 | as intended, with the call reaching the declared save: the same guards and naming, then the trip is saved as `SavePlannerTrip` states |
| AuthFinal.GetAllCurrenciesOncePerCode | tripwise-restructured/tripwise-auth-final.js:996-1002 | the currency menu names every currency of the table exactly once (EUR once for four countries), as the table describes it, in ascending code order |
| AuthFinal.UniqueByCodeFacts | tripwise-restructured/tripwise-auth-final.js:996-1001 | the object keyed by code holds every code of the input once, each value taken from the input |
| AuthFinal.PutByCodeDistinct | tripwise-restructured/tripwise-auth-final.js:999-1000 | writing a code into the object never creates a second entry for it |
| AuthFinal.NavLabel | tripwise-restructured/tripwise-auth-final.js:163-178 | the button shows the display name, else the name, else the e-mail's local part, else `Profile` |
| AuthFinal.CheckSignup | tripwise-restructured/tripwise-auth-final.js:533-557 | the form is sent exactly when all fields are filled, the password has at least 6 characters and the address matches; the full name joins first and last name |
| AuthFinal.AuthGate.RequireAuth | tripwise-restructured/tripwise-auth-final.js:743-752 | logged in, the callback runs now; otherwise it becomes the pending action and the login shows |
| AuthFinal.AuthGate.FinishAuth | tripwise-restructured/tripwise-auth-final.js:684-714 | the pending action is cleared before it runs, so it runs exactly once |
| AuthFinal.ValidateActivityForm | tripwise-restructured/tripwise-auth-final.js:1696-1764 | valid exactly when type and trimmed name are filled, both times are given, the link is empty or parses, and the end time is not before the start time as strings compare |
| AuthFinal.UnpaidActivityHasNoPrice | tripwise-restructured/tripwise-auth-final.js:2026-2042 | a stored activity has a price or a currency only when its budget is paid |
| AuthFinal.ActivitySavedKeepsIds | tripwise-restructured/tripwise-auth-final.js:2044-2052 | saving an activity keeps the days, their numbers and every other activity; an edited activity keeps its id, an added one has the fresh id and goes last |
| AuthFinal.DaySavedKeepsNumbering | tripwise-restructured/tripwise-auth-final.js:1840-1857 | saving the day form keeps the numbering; adding grows the list by one day, editing touches only title, city and date and keeps the activities |
| AuthFinal.TypesSorted | tripwise-restructured/tripwise-auth-final.js:1529-1535 | each currency section keeps its code and its type rows are a permutation of its type totals |
| AuthFinal.TypesSortedSorted | tripwise-restructured/tripwise-auth-final.js:1548 | each section's type rows are in ascending name order, as `Object.keys(types).sort()` gives them |
| AuthFinal.AuthPlanner.ToggleActivity | tripwise-restructured/tripwise-auth-final.js:1336-1368 | the expanded activity closes, and any other becomes the only one open |
| AuthFinal.AuthPlanner.OpenDayModal | tripwise-restructured/tripwise-auth-final.js:1769-1778 | the next day form adds a day |
| AuthFinal.AuthPlanner.EditDay | tripwise-restructured/tripwise-auth-final.js:1791-1805 | for a day of the itinerary the next day form edits day `dayIndex`; any other index throws before anything is assigned |
| AuthFinal.AuthPlanner.OpenActivityModal | tripwise-restructured/tripwise-auth-final.js:1867-1904 | the next activity form adds to day `dayIndex` |
| AuthFinal.AuthPlanner.EditActivity | tripwise-restructured/tripwise-auth-final.js:1914-1962 | a day outside the itinerary throws before anything is assigned; otherwise the next activity form edits activity `activityIndex` of day `dayIndex`, and an activity outside the day throws after those assignments |
| AuthFinal.AuthPlanner.DeleteDay | tripwise-restructured/tripwise-auth-final.js:1810-1828 | once confirmed, `splice(dayIndex, 1)` and renumbering from 1; otherwise nothing changes |
| AuthFinal.AuthPlanner.SaveDayHandler | tripwise-restructured/tripwise-auth-final.js:1833-1862 | the itinerary becomes `DaySaved` of the trimmed title and city and the date as typed |
| AuthFinal.AuthPlanner.SaveActivityHandler | tripwise-restructured/tripwise-auth-final.js:2002-2064 | an invalid form changes nothing; otherwise the itinerary becomes `ActivitySaved`, geocoding only when a location was given |
| AuthFinal.AuthPlanner.RenderBalance | tripwise-restructured/tripwise-auth-final.js:1469-1535 | nothing paid shows the empty state; otherwise the sections are `TypesSorted(ByCode(...))` of the paid groups: one per currency in code order (`ByCodeSorted`), each with its type rows in name order (`TypesSortedSorted`) |
| RealFix.NamedId | tripwise-restructured/REAL_FIX.js:73-94 | the trip id after naming is always truthy |
| RealFix.RealFixPage.HandleSaveClick | tripwise-restructured/REAL_FIX.js:44-143 | no email, or no days, or a cancelled or blank name for a new trip ends the click with nothing changed; a delegate that returns an object ends it; otherwise the internal save runs on the prepared trip |
| RealFix.RealFixPage.SaveToDatabase | tripwise-restructured/REAL_FIX.js:146-291 | the request body is `user.id \|\| user.email` with `countryLabel \|\| country \|\| 'Custom'`, and the new state is `AfterSave` of the answer |
| RealFix.FallbackSavesLocally | tripwise-restructured/REAL_FIX.js:184-203 | a non-ok answer stores the days under the trip's id, keeps that id, and upserts the trip marked local-only into a list that stays duplicate-free and keeps every other trip |
| RealFix.SuccessAdoptsDatabaseId | tripwise-restructured/REAL_FIX.js:230-261 | a successful post adopts the database id when sent, stores the days under it, lists the trip under it, and touches no other key |
| RealFix.UpsertHolds | tripwise-restructured/REAL_FIX.js:254-261 | whatever the comparison, the upsert leaves the entry in the list |
| RealFix.StrictUpsertOverTextIds | tripwise-restructured/REAL_FIX.js:254-261 | when every id is text, the strict upsert agrees with the textual one and keeps the list duplicate-free |
| RealFix.NumericReplyDuplicatesTextEntry | tripwise-restructured/REAL_FIX.js:230-261 | a numeric database id n meeting a stored entry "n" is appended, so the list then names the trip twice |
| SaveModal.ChooseCountryFacts | tripwise-restructured/save-with-custom-modal.js:121-139 | a given country is lower-cased; a missing one becomes `japan` exactly on the Japan page or in Japan mode; the label is the given one, else `Japan` for Japan, else `Custom`, and never empty |
| SaveModal.ModalSavePage.DeriveCountry | tripwise-restructured/save-with-custom-modal.js:120-139 | the sequence of reassignments yields `ChooseCountry` |
| SaveModal.ModalSavePage.ProceedWithSave | tripwise-restructured/save-with-custom-modal.js:107-159 | the trip takes the URL dates, else the first and last days' dates, and the derived country and label, and is posted |
| SaveModal.ModalSavePage.SaveToDatabase | tripwise-restructured/save-with-custom-modal.js:162-234 | the request body is built from the trip; the new state is `ModalAfterSave` of the answer |
| SaveModal.ModalSaveEffect | tripwise-restructured/save-with-custom-modal.js:187-229 | a refused or failed post changes nothing; a successful one stores the days under the final id and upserts the trip by textual id into a list that stays duplicate-free |
| SaveModal.ModalSaveTwiceIsOnce | tripwise-restructured/save-with-custom-modal.js:197-229 | posting the same trip twice with the same answer leaves the store as posting it once |
| SaveModal.ModalSavePage.HandleSaveClick | tripwise-restructured/save-with-custom-modal.js:45-104 | no email or no days ends the click; a new trip gets its id and name only when the modal returns a name, and a cancel leaves both unset; otherwise the trip is posted |
| TripLoader.MirrorIsRecordSave | tripwise-restructured/trip-loader-fix.js:112-149 | mirroring a trip whose days are an array is the same save every page performs |
| TripLoader.MirrorNeedsEmail | tripwise-restructured/trip-loader-fix.js:114-115 | without an e-mail the mirror writes nothing |
| TripLoader.MirrorThenLocalLoad | tripwise-restructured/trip-loader-fix.js:112-212 | after mirroring, loading the trip from local storage gives back the same days, the id as text and the trip's name |
| TripLoader.LocalLoadFacts | tripwise-restructured/trip-loader-fix.js:154-212 | a local load succeeds exactly when the itinerary is stored readably and the list, if present, parses; a readable itinerary is adopted with the id; otherwise nothing changes |
| TripLoader.TripLoaderPage.SaveToLocalStorage | tripwise-restructured/trip-loader-fix.js:112-149 | the store becomes `Mirror` of the trip: days under its key, summary upserted by `String(id)` with `days_count \|\| itinerary.length` |
| TripLoader.TripLoaderPage.LoadTripFromLocalStorage | tripwise-restructured/trip-loader-fix.js:154-212 | the globals and the result are `LocalLoad` of the store |
| TripLoader.TripLoaderPage.LoadTripFromDatabase | tripwise-restructured/trip-loader-fix.js:1-62 | a success adopts the trip's days (or none), id and name (or `Trip`) and mirrors it; any failure falls back to the local load |
| TripLoader.TripLoaderPage.InitializeTripLoader | tripwise-restructured/trip-loader-fix.js:218-235 | without a `tripId` nothing happens; otherwise the trip is loaded |
| TripLoader.TripLoaderPage.OnPageLoad | tripwise-restructured/trip-loader-fix.js:254-279 | the template start runs exactly when there is no `tripId`; otherwise the trip is loaded |
| TripOpen.FindByText | tripwise-restructured/trip-open-handler.js:44 | finds the first entry whose id reads as the given text, or reports that none does |
| TripOpen.GetTargetPageForCountry | tripwise-restructured/trip-open-handler.js:134-149 | every country maps to `japan-custom-plan.html` |
| TripOpen.RoutingCountryFacts | tripwise-restructured/trip-open-handler.js:105-109 | the routing country is the lower-cased summary country, else `japan` exactly when the label reads `japan` in any case, else empty |
| TripOpen.RouteFacts | tripwise-restructured/trip-open-handler.js:111-123 | every route goes to the planner page in `planner` mode with the trip id and a non-empty label |
| TripOpen.MergedSummaryFacts | tripwise-restructured/trip-open-handler.js:71-80 | the seeded summary takes each server field when present and the local summary's otherwise; the title is never empty |
| TripOpen.SeededTripLoadsLocally | tripwise-restructured/trip-open-handler.js:57-60 | after a successful fetch the planner's local load succeeds with the days the server sent |
| TripOpen.SeededListStaysUnique | tripwise-restructured/trip-open-handler.js:66-85 | seeding keeps the user's list duplicate-free and leaves the merged summary in it |
| TripOpen.TripOpener.ReadLocalSummary | tripwise-restructured/trip-open-handler.js:37-49 | the summary lookup yields `LocalSummary` of the store |
| TripOpen.TripOpener.OpenTrip | tripwise-restructured/trip-open-handler.js:15-127 | an empty id does nothing; otherwise the store is seeded only on an ok fetch, and navigation always follows, routed by the summary read before the fetch or else after it |
| ProfileLoader.TransformRowFacts | tripwise-restructured/profile-loader-fix.js:26-35 | each row becomes a summary with its id as text, the name or `Untitled Trip`, the country doubling as label, the day count, and the creation time or now |
| ProfileLoader.LocalTripsFacts | tripwise-restructured/profile-loader-fix.js:54-78 | the cached list comes back as a permutation of the stored one, oldest first, equal ages in stored order; no e-mail or an unreadable list gives `[]` |
| ProfileLoader.CachedTripsReadBack | tripwise-restructured/profile-loader-fix.js:38 | after a remote load is cached, reading the cache gives back the same trips, oldest first |
| ProfileLoader.ProfilePage.GetAllSavedTripsFromLocalStorage | tripwise-restructured/profile-loader-fix.js:54-78 | the result is `LocalTrips` of the store |
| ProfileLoader.ProfilePage.SaveTripsToLocalStorage | tripwise-restructured/profile-loader-fix.js:83-95 | with an e-mail the whole list is replaced; without one nothing changes |
| ProfileLoader.ProfilePage.LoadUserTripsFromDatabase | tripwise-restructured/profile-loader-fix.js:1-49 | no e-mail gives `[]`; success returns and caches the transformed rows; failure returns the cached list |
| Server.FindUser | tripwise-restructured/server/server.js:86-98 | finds a user with that e-mail, or reports there is none |
| Server.FindTrip | tripwise-restructured/server/server.js:207-231 | finds the trip with that id, or reports there is none |
| Server.TripsOf | tripwise-restructured/server/server.js:178-190 | exactly the rows of that user |
| Server.UserTripListFacts | tripwise-restructured/server/server.js:178-198 | a user's list holds exactly that user's trips, each once, newest first |
| Server.CreatedJsonMatchesStoredTrip | tripwise-restructured/server/server.js:140-168 | the reply to a create describes the trip exactly as a later `GET /api/trip/:id` returns it, however the driver returns the column |
| Server.InsertKeepsRows | tripwise-restructured/server/server.js:142-152 | an insert never updates: the new row is found under its id and every other id finds what it found before |
| Server.SignupThenFind | tripwise-restructured/server/server.js:52-71 | after a sign-up with a free e-mail, a lookup finds the new account |
| Server.IdsBelowAppend | tripwise-restructured/server/server.js:159-160 | an auto-increment insert keeps the ids increasing and below the counter |
| Server.TripServer.Signup | tripwise-restructured/server/server.js:43-73 | a missing field is 400; a duplicate e-mail is 400 "Email already exists"; another database error is 500; otherwise the user is inserted with the next id and returned without the password |
| Server.TripServer.Login | tripwise-restructured/server/server.js:77-112 | a missing field is 400; an unknown e-mail or wrong password is 401; success returns id, name and e-mail, and happens exactly when a user with that e-mail and password exists |
| Server.TripServer.PostTrip | tripwise-restructured/server/server.js:121-171 | a missing user, country or date is 400; otherwise a fresh row is always inserted and the reply echoes it with the new id, `[]` for no itinerary and null for a falsy day count |
| Server.TripServer.GetTripsForUser | tripwise-restructured/server/server.js:175-200 | the reply is that user's list, newest first |
| Server.TripServer.GetTrip | tripwise-restructured/server/server.js:204-260 | the path text is looked up by its numeric conversion: a database error is 500; a conversion matching no row is 404, including the 0 that a `trip_...` id converts to; a found row's NULL or unparsable column gives `[]`, a parsed one passes through |
| Home.RecommendedFirst | tripwise-restructured/main.js:146-151 | the reorder is a permutation of the marked cards, with the matching cards first and the others after, each group in its original order; a card is flagged recommended exactly when it matches and carries a badge only then |
| Home.PickSplits | tripwise-restructured/main.js:119-151 | the recommended and the other cards together are all the cards |
| Home.NoMatchNoMove | tripwise-restructured/main.js:146-151 | when no card matches, no card moves |
| Home.ReorderIdempotent | tripwise-restructured/main.js:103-152 | applying the recommendations twice gives the same order as once |
| Home.MarkedKeepsMatch | tripwise-restructured/main.js:124-143 | marking a card does not change whether it matches |
| Home.ReadyTripsGrid.ApplyReadyPlanRecommendations | tripwise-restructured/main.js:103-152 | no preferences or no styles changes nothing; otherwise the grid becomes `Reordered` of the cards |
| Home.PlanTripFacts | tripwise-restructured/main.js:206-236 | a missing field is refused, a start not before the end is refused, and otherwise the page navigates with the country's label |
| Home.UserNameFromEmail | tripwise-restructured/main.js:322-324 | the name contains no `@` |
| Home.UserNameFacts | tripwise-restructured/main.js:322-324 | the name is the e-mail's local part with only its first character upper-cased; applying it again changes nothing |

## Left out

- Rendering: the DOM, HTML templates, modals, toasts, the Leaflet map and Chart.js. The map is modelled only as the marker list and the route / centre / no-move decision.
- The JSON round trip: storage values are kept as structures, and a value of the wrong shape reads as unparseable. The key order of `Object.values` (integer-like keys first) is not modelled; group and marker lists keep insertion order.
- Floating point: prices are integers; `parseFloat` is a parameter; `toFixed` and currency formatting are not modelled.
- Dates: day ordinals and a format function stand for the `Date` object; time zones and `toISOString` are not modelled. In `handlePlanTrip` an unparsable date (`NaN`) passes the order check, and the model keeps that.
- Network, geocoding, MySQL, `prompt`, `confirm`, the name modal, `Date.now` and `Math.random`: each is a parameter. Each table query's failure is a `dbError` flag.
- Asynchrony: the order in which auto-save, explicit save and delayed initialisation interleave; the button cloning that strips listeners.
- Google sign-in and JWT decoding; the e-mail pattern and `new URL`, which are given as `bool`s.
- `tripwise-custom-modal.js` is pure UI and is not part of this model; its answer is an `Option<string>`.
- `trip-open-handlerold.js` is a superseded copy of the open handler and is not part of this model.
- The admin dashboard is not part of this model.
- `getUserPreferences` (`main.js:91-100`) is a parameter of the recommendation method; the grid being absent is not modelled.
- The contents of `originalJapanItinerary` are not reproduced; the Japan page's template is a field of the page object. The country registry's templates are reproduced; only their numbering and titles are used in proofs.
- `getIconForType`, `calculateInclusiveDays`, `formatPrice` and `getUrlParams` are display or date helpers and are not modelled.
- `profile-loader-fix.js` does not parse as written: the top-level `await` at line 102 is a syntax error in a classic script, and the top-level `return` at line 119 is one in a module as well. A browser therefore defines none of its functions. The model describes those functions as they would behave if the stray block at lines 101-120 were removed; the block itself is not modelled.
- JapanPlan.JapanPage.ToggleDay: an index outside the itinerary makes the script throw after the active day was set; the model keeps the new active day and reports no centring, and does not model the exception.
- RealFix.RealFixPage.HandleSaveClick: the delegate's outcome is a parameter and its effects are not composed into this method. On the planner page the delegate is the self-calling wrapper of `trip-planner.js`, so it always throws (`TripPlanner.WrapperNeverSaves`), writes nothing, and the fallback save runs. On the Japan page the delegate is `JapanPlan.JapanPage.WindowSave`.
- Itinerary.AssignAt: past the end of the array JavaScript leaves holes, which `JSON.stringify` saves as `null`, before the assigned value; the model appends the value alone.
- JapanPlan.JapanPage.HandleActivitySubmit: inherits the `AssignAt` gap above for an edited activity index past the end.
- AuthFinal.AuthPlanner.EditDay: the throw is modelled on the assumption that the day form's title field exists; without it the read of `day.title` is skipped.
- Home.UserNameFacts: upper-casing is ASCII-only (`Common.UpperChar`). JavaScript's `toUpperCase` maps other letters too, some to several characters ("ß" becomes "SS"), so `|r| == |local|` and `r[1..] == local[1..]` hold only when the first character is ASCII or has a one-character upper case.
- Common.Lower: lower-casing is ASCII-only. `toLowerCase` also maps non-ASCII letters, which affects `TripPlanner.ResolveMode`, `SaveModal.ChooseCountryFacts`, `TripOpen.RoutingCountryFacts` and the style list of `Home`; every name these compare against is ASCII.
- AuthFinal.CheckSignup: the 6-character minimum counts characters, while JavaScript's `.length` counts UTF-16 code units, so a password with characters outside the Basic Multilingual Plane counts longer in the source.
- Server.FindUser: e-mails are compared exactly; MySQL's default collations compare case-insensitively, and the source sets no other collation.
- Server.TripsOf: user ids are compared exactly, for the same collation reason.
- Server.TripServer.GetTripsForUser: `ORDER BY created_at DESC` leaves the order of trips created at the same time unspecified; the model fixes one order (the stable sort keeps insertion order), and `Server.UserTripListFacts`' newest-first ordering is exact only for distinct creation times.
- Server.TripServer.GetTrip: MySQL's conversion of the path text to a number (leading spaces, sign, decimals, exponent, the longest numeric prefix) is a parameter of the handler, not computed.
- Object lookups such as `countryPageMap[country]` (`trip-open-handler.js:148`) and `countryLabels[country]` (`main.js:222`) also find inherited keys like `constructor` or `__proto__`; the model looks only at the map's own entries and uses the fallback for those names.

## Findings

| source | as written | input that shows it | evidently intended | confidence | as-written member | corrected member |
|---|---|---|---|---|---|---|
| tripwise-restructured/trip-planner.js:1184 | the export at lines 1321-1323 assigns the global binding that the declaration at line 1193 created, so the click's `await savePlannerTripToProfileAndDatabase(tripData)` reaches a wrapper that calls itself until the stack runs out (`TripPlanner.WrapperNeverSaves`); the click rejects after naming the trip, with no request sent and nothing stored | a logged-in user with an e-mail, one day in the itinerary, and the name "Tokyo" typed at the prompt | the click runs the declared save: a request, and on an ok answer the days and the summary are stored | not executed | TripPlanner.PlannerPage.HandleSaveTripClick | TripPlanner.PlannerPage.HandleSaveTripClickIntended |
