# TrackLogs call tracking client, modelled in Dafny

TrackLogs is a React Native client for sales staff. It reads the phone's call log and keeps the calls made or taken in business hours. It records outgoing calls placed from the app's dial pad and contact list in a local Realm table, 'CallData', and mirrors them into AsyncStorage. It counts the calls the server has not yet seen and uploads them in one batch when the user presses "Usync". A small authentication reducer decides whether the login screens or the home screens are shown.

This project models that core:

- **`CallLog`** (`call_log.dfy`): a call-log entry, with the date fields that moment.js would compute (hour, weekday, day, and the day of the `dateTime` text) given as integer fields.
- **`Sync`** (`sync.dfy`): the per-entry upload request and `SyncData_API`. What the network did with request i is a parameter `server(i)`.
- **`CallStore`** (`call_store.dfy`): the 'CallData' table as a class with its id assignment (last id + 1, or 1), and the 'realmDataoutgoing' mirror that only gains an entry whose id is new.
- **`DemoCallScreen`** (`demo_call_screen.dfy`): `src/screens/CallScreen/demo.js`. It covers the 9:00–21:59 weekday filter, today's logs, `compareCallLogs`, the all-or-nothing sync, the `fetchNewCallLogs` filter and the 'callData' push.
- **`NewCallScreen`** (`new_call_screen.dfy`): `src/screens/CallScreen/newCallscreen.js`.
  - Incoming calls are listed, and so are outgoing calls whose `dateTime` a saved record has exactly.
  - Today's outgoing calls are listed.
  - The "+" confirmation moves a call into the pending 'finaldata' list.
  - The `Map`-based dedup by timestamp keeps each timestamp's last item, in first-seen order.
  - The sync clears everything only when the whole batch succeeds.
- **`OrderedMap`** (`ordered_map.dfy`): JavaScript `new Map(pairs)` as a list of entries in insertion order, where setting a present key replaces its value in place.
- **`CallScreenMerge`** (`call_screen_merge.dfy`): `src/screens/CallScreen/CallScreen.js`. It covers the 8:00–21:59 incoming/missed filter and the nested loops that push, for every database record, every outgoing device call of the same day.
- **`ContactsScreen`** (`contacts.dfy`): the contact list. It covers the sort by display name (JavaScript string `<`), the case-insensitive search, and the call tap.
- **`DialScreen`** (`dial_screen.dfy`): the dial pad. The typed number is edited by key and delete presses, and a call is placed only for a non-empty number.
- **`AppAuth`** (`app_auth.dfy`): the App.js reducer over `{userToken, isLoading}`, the token read at start-up, and the render decision.
- **`DemoAuth`** (`demo_auth.dfy`): the `src/demo.js` reducer variant. It has no default case, so an unknown action leaves the state undefined and rendering fails.

`Seqs` and `Wrappers` hold the generic filter, count, subsequence and option definitions that the rest share.

The screens hard-code these choices:

- The business-hours window is hard-coded differently: 9–21 in `demo.js` and 8–21 in `CallScreen.js`. It is not configurable.
- Outgoing matching is exact text equality (`newCallscreen.js`) or same-calendar-day equality (`CallScreen.js`). It is not tolerant to the minute.
- `demo.js` uploads all of today's logs, not only the unmatched ones. `BatchCanExceedCount` shows the displayed count and the batch size differing.
- The `newCallscreen.js` guard `synccount === 0 || undefined` reduces to `synccount === 0`.

## Model

| member | source | states |
|---|---|---|
| CallStore.NextId | src/component/DialScreen.js:53-54 | the new id exceeds every stored id; it is 1 for an empty table, otherwise one more than an existing id (the largest) |
| CallStore.NextIdAfterLast | src/screens/Contacts/Contacts.js:104-105 | when ids grow in creation order, the new id is the last record's id + 1 |
| CallStore.ConsecutiveIds | src/screens/CallScreen/newCallscreen.js:139-140 | a table holding ids 1..n gets n + 1 next, so ids assigned from empty have no gaps |
| CallStore.MirrorAppend | src/screens/Contacts/Contacts.js:117-128 | the mirrored list gains the record at the end exactly when no entry has its id, else is unchanged; the id is present afterwards and unique ids stay unique |
| CallStore.MirrorAppendIdempotent | src/component/DialScreen.js:66-77 | saving the same record into the mirror twice equals saving it once |
| CallStore.CallDataStore.Create | src/screens/CallScreen/newCallscreen.js:139-148 | appends exactly one record with the next id (1 on an empty table, last + 1 otherwise), an id not yet in use; ids keep growing; the mirror is untouched |
| CallStore.CallDataStore.CreateMirrored | src/component/DialScreen.js:53-77 | as Create, and the mirror becomes MirrorAppend of the new record |
| CallStore.CallDataStore.DeleteAll | src/screens/CallScreen/newCallscreen.js:246-251 | every 'CallData' record is deleted; the mirror is untouched |
| OrderedMap.FromPairsIsMap | src/screens/CallScreen/newCallscreen.js:201 | the Map built from pairs has each key once, maps it to the last value given for it, and keeps keys in first-insertion order |
| OrderedMap.SizeIsDistinctKeys | src/screens/CallScreen/newCallscreen.js:201-202 | the Map's size is the number of distinct keys among the pairs |
| Sync.MakeRequest | src/screens/CallScreen/demo.js:187-198 | each form field carries its field of the entry or the user; the local db id is the entry's timestamp |
| Sync.Requests | src/screens/CallScreen/demo.js:186-198 | one request per entry, in order: the entry's timestamp as timestamp and local db id, its dateTime, duration, name, phone number and type, and the user's id, password and company id |
| Sync.SyncDataApi | src/screens/CallScreen/demo.js:219-251 | the reply reports success exactly when the server answered with success; a thrown fetch or parse gives `{success: false}` |
| Sync.Replies | src/screens/CallScreen/demo.js:186-200 | one reply per request, the i-th being `SyncData_API` of what happened to request i |
| Sync.AllSuccess | src/screens/CallScreen/demo.js:202 | true exactly when every reply reports success |
| Sync.OneFailureSpoilsBatch | src/screens/CallScreen/newCallscreen.js:237-259 | a single refused or thrown request makes the whole batch count as failed |
| DemoCallScreen.BusinessHoursLogs | src/screens/CallScreen/demo.js:133-145 | keeps exactly the INCOMING, MISSED and OUTGOING entries at hours 9..21 on weekdays 1..5, in order and with their multiplicity; weekend or out-of-hours entries are dropped |
| DemoCallScreen.TodayLogs | src/screens/CallScreen/demo.js:164-167 | keeps exactly the stored logs whose day is today, in order and with their multiplicity |
| DemoCallScreen.DatabaseTimestamps | src/screens/CallScreen/demo.js:87 | the set of history timestamps; an absent history gives the empty set |
| DemoCallScreen.CountUnknown | src/screens/CallScreen/demo.js:88-90 | the reduce counts exactly the logs whose timestamp is not in the set |
| DemoCallScreen.CompareCallLogs | src/screens/CallScreen/demo.js:86-92 | the number of today's logs whose timestamp the server lacks: between 0 and the number of today's logs, 0 exactly when all are known, all of them when the history is absent or empty |
| DemoCallScreen.UnknownCountFacts | src/screens/CallScreen/demo.js:86-92 | the count is 0 iff every timestamp is known, and the full length when nothing is known |
| DemoCallScreen.FreshLogs | src/screens/CallScreen/demo.js:256-258 | keeps, in order and with their multiplicity, exactly the new logs whose timestamp occurs in none of today's logs |
| DemoCallScreen.BatchCanExceedCount | src/screens/CallScreen/demo.js:181-200 | with one of two logs known to the server the count is 1 while two requests are sent |
| DemoCallScreen.CallScreen.FetchCallLogs | src/screens/CallScreen/demo.js:130-150 | the shown and stored logs become the business-hours filter of the device log |
| DemoCallScreen.CallScreen.FetchTodayCallLogs | src/screens/CallScreen/demo.js:157-173 | with stored logs, today's logs become their today filter; with none, nothing changes |
| DemoCallScreen.CallScreen.UpdateUnmatchedCount | src/screens/CallScreen/demo.js:37-41 | the unmatched count becomes compareCallLogs of the history and today's logs, within 0..number of today's logs |
| DemoCallScreen.CallScreen.SyncCallLogs | src/screens/CallScreen/demo.js:179-208 | "No Data" exactly when the count is zero, and then nothing is sent; otherwise one request per today log; it succeeds exactly when every reply does, and only then are today's logs emptied |
| DemoCallScreen.CallScreen.SavePhoneNumberToStorage | src/screens/CallScreen/demo.js:332-343 | exactly one `{phoneNumber, timeStamp}` entry is pushed at the end; earlier entries are unchanged |
| NewCallScreen.ConfirmedLogs | src/screens/CallScreen/newCallscreen.js:118-125 | keeps every INCOMING entry, an OUTGOING entry iff a saved record has exactly its dateTime, nothing of other types; in order and with their multiplicity |
| NewCallScreen.OutgoingToday | src/screens/CallScreen/newCallscreen.js:163-171 | keeps, in order and with their multiplicity, exactly the OUTGOING logs whose dateTime falls on today |
| NewCallScreen.ClickHidesConfirm | src/screens/CallScreen/newCallscreen.js:333 | the "+" of an incoming call of today shows until its timestamp is clicked; clicking a timestamp hides exactly the items with that timestamp |
| NewCallScreen.Keyed | src/screens/CallScreen/newCallscreen.js:201 | one `[timestamp, item]` pair per item, in order |
| NewCallScreen.UniqueByTimestamp | src/screens/CallScreen/newCallscreen.js:201 | no two results share a timestamp, every input timestamp is present, each result is the last input item with its timestamp, results follow first-seen order, and their number is the number of distinct timestamps |
| NewCallScreen.DedupEntries | src/screens/CallScreen/newCallscreen.js:201 | the Map's values are items of the input |
| NewCallScreen.DedupDistinct | src/screens/CallScreen/newCallscreen.js:201 | the Map's values have distinct timestamps |
| NewCallScreen.DedupSize | src/screens/CallScreen/newCallscreen.js:201-202 | the sync count equals the number of distinct timestamps |
| NewCallScreen.DedupLast | src/screens/CallScreen/newCallscreen.js:201 | each value is the last input item with its timestamp |
| NewCallScreen.DedupCovers | src/screens/CallScreen/newCallscreen.js:201 | every input timestamp has a value |
| NewCallScreen.DedupOrder | src/screens/CallScreen/newCallscreen.js:201 | values appear in the order their timestamps were first seen |
| NewCallScreen.CallScreen.FetchCallLogs | src/screens/CallScreen/newCallscreen.js:113-127 | the list becomes the confirmed logs against the stored 'CallData' records, and today's outgoing list is filtered from it |
| NewCallScreen.CallScreen.SavePhoneNumberToStorage | src/screens/CallScreen/newCallscreen.js:134-148 | one record with the next id is added to 'CallData'; the mirror is not written |
| NewCallScreen.CallScreen.HandleIncomingCountIncrement | src/screens/CallScreen/newCallscreen.js:174-184 | the count goes up by one; the pending list plus the call is stored as 'finaldata' and read back, so the list becomes its dedup by timestamp and the sync count its number of distinct timestamps (at least one); the timestamp is clicked, so its "+" is no longer shown on any day |
| NewCallScreen.CallScreen.FetchStoredData | src/screens/CallScreen/newCallscreen.js:195-204 | with stored data the pending list becomes its dedup by timestamp and the count the number of distinct timestamps; without, nothing changes |
| NewCallScreen.CallScreen.SyncCallLogs | src/screens/CallScreen/newCallscreen.js:210-259 | "No Data" exactly when the count is zero, and then nothing is sent; otherwise one request per pending call; only full success removes 'finaldata', deletes every record, resets count and list; otherwise nothing changes |
| CallScreenMerge.BaseFilter | src/screens/CallScreen/CallScreen.js:75-87 | keeps exactly the INCOMING and MISSED entries at hours 8..21 on weekdays 1..5, in order and with their multiplicity; no OUTGOING entry passes |
| CallScreenMerge.MatchesFor | src/screens/CallScreen/CallScreen.js:100-112 | `matchingOutgoingLogs`: exactly the OUTGOING logs whose dateTime day renders like the record's date, in order and with their multiplicity |
| CallScreenMerge.AsAppended | src/screens/CallScreen/CallScreen.js:117-123 | one pushed `{type: 'OUTGOING', phoneNumber, dateTime}` object per matching log, in order |
| CallScreenMerge.PushMatches | src/screens/CallScreen/CallScreen.js:116-124 | the combined list is extended by the pushed object of each matching log, in order |
| CallScreenMerge.CombineLogs | src/screens/CallScreen/CallScreen.js:89-125 | the combined list is the filtered logs followed, record by record, by the pushed objects for its same-day outgoing logs; with no records it is the filtered logs alone |
| CallScreenMerge.AppendedCount | src/screens/CallScreen/CallScreen.js:92-125 | the number of pushed objects is the sum over records of their same-day outgoing logs |
| CallScreenMerge.AppendedAreMatchingOutgoing | src/screens/CallScreen/CallScreen.js:100-123 | every pushed object is OUTGOING and carries the number and dateTime of a device log matching some record |
| CallScreenMerge.CombinedStartsWithFiltered | src/screens/CallScreen/CallScreen.js:89 | the combined list starts with the filtered logs unchanged |
| CallScreenMerge.DuplicatesPossible | src/screens/CallScreen/CallScreen.js:92-125 | two records of one day push the same outgoing call twice |
| CallScreenMerge.UnparsedDatesMatch | src/screens/CallScreen/CallScreen.js:94-111 | a log date and a record date that both fail strict parsing render alike, so the log is pushed |
| ContactsScreen.StrLessIrreflexive | src/screens/Contacts/Contacts.js:85 | no name sorts before itself |
| ContactsScreen.StrLessTransitive | src/screens/Contacts/Contacts.js:85-86 | name order is transitive |
| ContactsScreen.StrLessTotal | src/screens/Contacts/Contacts.js:84-88 | of two different names one sorts first |
| ContactsScreen.InsertByName | src/screens/Contacts/Contacts.js:84-88 | inserting into a sorted list adds exactly that contact and keeps the list sorted |
| ContactsScreen.SortContacts | src/screens/Contacts/Contacts.js:84-88 | the result is a permutation of the fetched contacts, ascending by display name |
| ContactsScreen.ToLower | src/screens/Contacts/Contacts.js:149 | same length; A–Z become a–z, every other character is kept |
| ContactsScreen.ToLowerIdempotent | src/screens/Contacts/Contacts.js:149 | lowering twice equals lowering once |
| ContactsScreen.FilteredContacts | src/screens/Contacts/Contacts.js:148-150 | keeps exactly the contacts with a non-empty display name containing the query ignoring case, in order and with their multiplicity; an empty query keeps every named contact |
| ContactsScreen.EmptyQueryMatchesNamed | src/screens/Contacts/Contacts.js:148-150 | every contact with a non-empty name matches the empty query |
| ContactsScreen.QueryCaseIrrelevant | src/screens/Contacts/Contacts.js:149 | a query and its lower-case form give the same list |
| ContactsScreen.FirstNumber | src/screens/Contacts/Contacts.js:153 | the first phone number when there is one, none otherwise |
| ContactsScreen.HandleCall | src/screens/Contacts/Contacts.js:138-146 | a missing or empty number places no call and saves nothing; otherwise one record with the next id is saved and mirrored |
| DialScreen.PadKeys | src/component/DialScreen.js:29-34 | the pad's keys are exactly 0–9, `*` and `#` |
| DialScreen.Dialer.constructor | src/component/DialScreen.js:26 | the typed number starts empty |
| DialScreen.Dialer.HandleNumberPress | src/component/DialScreen.js:36-38 | the typed number becomes the old one followed by the key; it still holds only pad keys |
| DialScreen.Dialer.HandleDeletePress | src/component/DialScreen.js:40-44 | removes exactly the last character of a non-empty number; an empty number stays empty |
| DialScreen.Dialer.PressThenDelete | src/component/DialScreen.js:36-44 | a press followed by a delete restores the typed number |
| DialScreen.Dialer.HandleCallPress | src/component/DialScreen.js:87-99 | an empty number places no call and saves nothing; otherwise one record with the next id is saved and mirrored |
| AppAuth.InitialStateLoads | App.js:18-21 | the initial state has a null token and is loading, so nothing renders |
| AppAuth.AuthReducer | App.js:24-47 | LOGIN and RETRIEVE_TOKEN set the action's token, LOGOUT clears it, all three end loading; an unrecognised action returns the previous state unchanged |
| AppAuth.LoadingNeverReturns | App.js:24-47 | once loading is over, no sequence of actions brings it back |
| AppAuth.LoadingUntilRecognised | App.js:18-47 | from a loading state the app still loads exactly when no action so far was recognised |
| AppAuth.LastRecognisedDecides | App.js:24-47 | after any sequence the token is the one the last recognised action set, and loading is over |
| AppAuth.UnrecognisedKeepState | App.js:44-45 | a run of unrecognised actions leaves the state unchanged |
| AppAuth.Render | App.js:116-124 | loading renders nothing, a null token AuthStack, any other token HomeStack |
| AppAuth.RetrieveTokenAction | App.js:99-112 | a non-empty stored token is dispatched, a missing or empty one dispatches null, a failed read dispatches nothing |
| AppAuth.Startup | App.js:99-113 | a failed read keeps the initial state; otherwise loading ends, with a token exactly when a non-empty one is stored, and that token |
| AppAuth.StartupRender | App.js:99-124 | at start-up a non-empty stored token opens HomeStack, a missing or empty one AuthStack, a failed read stays blank |
| AppAuth.LoginAction | App.js:52-58 | login dispatches a recognised action carrying the token string |
| AppAuth.EmptyTokenLostOnRestart | App.js:52-106 | an empty token opens HomeStack after login but AuthStack after the next start-up |
| AppAuth.LoginLogout | App.js:26-37 | login followed by logout shows AuthStack whatever the state was |
| DemoAuth.DemoInitialShowsAuth | src/demo.js:26-28 | the initial state has a null token, so AuthStack is shown |
| DemoAuth.DemoReducer | src/demo.js:30-53 | a state exists afterwards exactly when the action was recognised; LOGIN and RETRIEVE_TOKEN set the action's token, LOGOUT null |
| DemoAuth.AgreesWithApp | src/demo.js:30-53 | on recognised actions this reducer and the App.js one set the same token |
| DemoAuth.UndefinedIffLastUnknown | src/demo.js:30-53 | after a non-empty run of actions the state is undefined exactly when the last action was unrecognised |
| DemoAuth.DemoRender | src/demo.js:117-121 | an undefined state fails to render, a null token shows AuthStack, any other HomeStack; nothing renders blank |
| DemoAuth.UnknownActionBreaksRender | src/demo.js:30-53 | an unrecognised action leaves the app unable to render |
| DemoAuth.DemoRetrieveToken | src/demo.js:100-105 | a truthy stored token is parsed and dispatched, a missing or empty one dispatches null, a parse error dispatches nothing |
| DemoAuth.DemoStartupRender | src/demo.js:100-121 | start-up shows HomeStack exactly when a stored token parses to a string |

## Left out

- Date parsing and formatting with moment.js. Hour, weekday, calendar day and the day of the `dateTime` text are fields of the entry, and "today" is a given day number. The text "Invalid date" is the value `InvalidDate`.
- The `dateTimeDay` field is the day of `dateTime` as parsed by the screen that reads the entry. CallScreen.js parses strictly, and newCallscreen.js parses forgivingly. The model does not relate the two parses.
- AsyncStorage, Realm and the device call log. They are in-memory fields and parameters. So are `CallLogs.load(100)` and `load(20)`, whose limits are not modelled.
- HTTP transport, `fetch` and `response.json()`. What happened to each request is the parameter `server`. `CallHistory_API`, which loads the server's history, is a parameter too.
- Concurrency and timing: `Promise.all` ordering, the `setInterval` polling, AppState and focus listeners, and React state batching and stale closures. Each handler runs to completion on the state it reads.
- NewCallScreen.CallScreen.HandleIncomingCountIncrement: the unawaited `storeFinalData` and `fetchStoredData` inside the state updater are modelled as running in order, write before read. A read that overtakes the write is not modelled.
- Platform glue: permission requests, `ImmediatePhoneCall` (placing a call is the `placed` result), alerts, toasts, logging and rendering beyond the stack decision.
- `SyncData_API` removes 'callLogs' (demo.js) or 'finaldata' (newCallscreen.js) after each single request, before the batch outcome is known. This is not modelled, so a failed batch here leaves storage as it was.
- `fetchNewCallLogs` awaits `fetchCallLogs`, which returns nothing. Only its filter is modelled (`FreshLogs`), not the call that always receives undefined.
- `compareCallLogs()` called with no arguments (demo.js lines 49, 63, 73, 241) returns undefined. This is not modelled. Neither is an undefined `todayLogs` in general, since the model always passes a list.
- DemoCallScreen.CallScreen.SyncCallLogs: the follow-up `fetchNewCallLogs` after success is not modelled; today's logs end empty, as the second `setTodayCallLogs([])` makes them.
- ContactsScreen.SortContacts: a missing display name sorts as the empty string. In JavaScript, comparing with undefined is false both ways, which makes the comparator inconsistent and the order engine-dependent. Sort stability is not stated either.
- ContactsScreen.ToLower: only A–Z are lowered. JavaScript `toLowerCase` also maps non-ASCII letters.
- ContactsScreen.StrLess: compares Dafny characters, that is Unicode scalar values. JavaScript compares UTF-16 code units, which differ for characters outside the Basic Multilingual Plane.
- The `calldataoutgoing` React state set after saving a call holds a copy of the table and is not read by any modelled logic.
- The AsyncStorage writes and removals of App.js `login`/`logout` and the Authorization header set on axios.
- `getUser`/`getUserInfo`, which read the user record; the user is a constructor parameter.
- DialScreen.Dialer.HandleNumberPress requires a pad key: its only caller is a pad button.
