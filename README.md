# ITOT-Board platform — a Dafny model of its logic

The ITOT-Board platform is a Next.js web application. Ideas for digitalisation
projects are recorded in a Microsoft Dataverse table and assessed by a board
in sessions ("Sitzungen"). Most of its code is React rendering and thin HTTP
proxies. This project models the sequential logic inside that code:

- the OAuth device-code token cache (`tokenService.ts`), as pure transitions
  over the cache and its file, and as the class `TokenService.TokenStore`
  whose methods follow them;
- the Dataverse Web API client and the typed service (`dataverseClient.ts`,
  `digitalisierungsvorhabenService.ts`). Each call is modelled by the request
  it builds: verb, URL with OData query, headers and body. The client also
  models how a response becomes a result or an error;
- the lookup tables and zod validators (`stageConfig.ts`, `validators.ts`);
- the mock data layer (`lib/dataverse.ts`) and the mock cookie login
  (`lib/auth.ts`);
- the small UI state machines and list computations of the components and
  pages:
  - sort toggle and sorting;
  - multi-select;
  - two-click delete;
  - login countdown and polling;
  - form state;
  - filters and grouping;
  - calendar grid and month navigation;
  - idea assignment;
- the API routes for sessions, idea assignment and the table check, each as
  its guard order, the payload it builds and the reply it gives for each
  upstream answer.

Environment and time come in as parameters:
- the clock is an integer `now` in milliseconds;
- the environment's `DATAVERSE_BASE_URL` is a string, where "" means unset;
- the token is a string, where "" means none;
- an upstream answer is a datatype value (`Http.Upstream`,
  `TokenService.PollReply`, `LoginPrompt.PollAnswer`, …);
- file-system success is a boolean (`writeOk`, `deleteOk`).

JavaScript values are `Json.Value`. It separates `undefined`, `null`, `NaN`,
strings, integers and booleans, and `Json.Truthy` is JavaScript's truthiness.
Timers are explicit events: `VorhabenTable.Timeout` and `LoginPrompt.Tick`.

Module layout: one module per source file, plus these shared helpers:
- `Wrappers` (Option/Result);
- `Text` (substring test, ASCII lower-casing, decimal rendering and parsing,
  join);
- `Seqs` (filter, remove, toggle, group-by);
- `Json`;
- `Records` (the record shape of `lib/services/dataverse/types.ts` and the
  shared search predicate);
- `Http` (route replies).

## Model

| member | source | states |
|---|---|---|
| `TokenService.Load` | lib/services/dataverse/tokenService.ts:46-56 | a reload never changes the file; what it does to the cache is stated by `LoadCases` |
| `TokenService.Persist` | lib/services/dataverse/tokenService.ts:61-72 | saving the cache never changes the in-memory cache |
| `TokenService.Record` | lib/services/dataverse/tokenService.ts:210-216 | the new record takes both tokens from the reply and expires at `now + expires_in*1000`, for a numeric `expires_in` |
| `TokenService.Save` | lib/services/dataverse/tokenService.ts:210-217 | the whole record is replaced with the new tokens, then persisted |
| `TokenService.Clear` | lib/services/dataverse/tokenService.ts:222-231 | the cache becomes null; the file is removed when it exists and the delete succeeds; a missing file is not an error |
| `TokenService.TokenExpired` | lib/services/dataverse/tokenService.ts:81-84 | expired without a cache, or once at most five minutes remain before `expiresAt` |
| `TokenService.Authenticated` | lib/services/dataverse/tokenService.ts:90-93 | after the reload, authenticated iff a cache is held with more than five minutes left |
| `TokenService.ValidToken` | lib/services/dataverse/tokenService.ts:274-294 | null without a cache; a refresh is requested only for a stale cache that has a refresh token; without a request the store is just the reloaded one |
| `TokenService.ExpiresIn` | lib/services/dataverse/tokenService.ts:98-103 | 0 without a cache, otherwise the whole seconds left, never negative |
| `TokenService.Classify` | lib/services/dataverse/tokenService.ts:175-200 | success iff there is no error and an access token is present; pending iff the error is `authorization_pending`; expired iff it is `expired_token`; a thrown request fails with its reason, and a body with neither error nor token fails with "Unbekannte Antwort vom Token-Endpoint" |
| `TokenService.Poll` | lib/services/dataverse/tokenService.ts:151-201 | without a base URL the poll fails with the configuration message and changes nothing; only a success writes the cache, with the reply's tokens |
| `TokenService.Refresh` | lib/services/dataverse/tokenService.ts:236-268 | reloads first; without a cache or refresh token it reports failure and sends nothing; otherwise it sends one request and saves only a successful reply |
| `TokenService.InitiateDeviceCodeFlow` | lib/services/dataverse/tokenService.ts:113-145 | throws without a base URL or on a failed reply; otherwise it passes on the codes, and the interval defaults to 5 |
| `TokenService.LoadIdempotent` | lib/services/dataverse/tokenService.ts:46-56 | a second reload changes nothing |
| `TokenService.LoadCases` | lib/services/dataverse/tokenService.ts:46-56 | the three load rules: missing keeps the cache, readable replaces it, corrupt clears it |
| `TokenService.ExpiredMonotone` | lib/services/dataverse/tokenService.ts:81-84 | once expired, a token stays expired at every later time |
| `TokenService.AuthenticatedAgreesWithExpiresIn` | lib/services/dataverse/tokenService.ts:81-103 | `isAuthenticated` and `getTokenExpiresIn` agree: an authenticated store has at least 300 seconds left, an unauthenticated one at most 300 |
| `TokenService.SaveThenLoad` | lib/services/dataverse/tokenService.ts:210-217 | after a successful save, a reload yields exactly the saved record |
| `TokenService.SaveThenAuthenticated` | lib/services/dataverse/tokenService.ts:210-217 | a token valid for more than five minutes authenticates right after a successful save |
| `TokenService.FailedSaveIsLostOnReload` | lib/services/dataverse/tokenService.ts:61-72 | after a failed write over an older file, the next reload brings the older record back |
| `TokenService.ClearThenLoggedOut` | lib/services/dataverse/tokenService.ts:222-231 | after a successful delete, or when there was no file, nobody is authenticated |
| `TokenService.PollWithoutUrlSendsNothing` | lib/services/dataverse/tokenService.ts:154-156 | without a base URL the outcome does not depend on the reply |
| `TokenService.PollErrorMessage` | lib/services/dataverse/tokenService.ts:187-190 | `error_description` is preferred over `error` |
| `TokenService.PendingThenSuccess` | lib/services/dataverse/tokenService.ts:175-197 | any number of pending replies followed by a success saves exactly the final tokens |
| `TokenService.PendingRunKeepsStore` | lib/services/dataverse/tokenService.ts:175-181 | pending replies never touch the store |
| `TokenService.NoRefreshTokenNoRequest` | lib/services/dataverse/tokenService.ts:236-240 | without a refresh token the refresh fails and sends nothing |
| `TokenService.ValidTokenNoCache` | lib/services/dataverse/tokenService.ts:274-279 | without a cache the result is null and nothing is sent |
| `TokenService.ValidTokenFresh` | lib/services/dataverse/tokenService.ts:281-284 | a token that is not stale is returned as stored, without a refresh |
| `TokenService.ValidTokenStale` | lib/services/dataverse/tokenService.ts:286-294 | for a stale token a refresh is sent iff a refresh token is stored; a failed refresh gives null and the reloaded record; a successful one gives the new access token |
| `TokenService.ValidTokenIsCached` | lib/services/dataverse/tokenService.ts:274-294 | the result is null or the access token in the cache afterwards |
| `TokenService.TokenStore.constructor` | lib/services/dataverse/tokenService.ts:36-37 | the module starts with a null cache whatever is on disk |
| `TokenService.TokenStore.LoadTokenCache` | lib/services/dataverse/tokenService.ts:46-56 | the new state is `Load` of the old |
| `TokenService.TokenStore.SaveTokenCache` | lib/services/dataverse/tokenService.ts:61-72 | the new state is `Persist` of the old |
| `TokenService.TokenStore.IsTokenExpired` | lib/services/dataverse/tokenService.ts:81-84 | expired without a cache, otherwise iff `now >= expiresAt - 300000` |
| `TokenService.TokenStore.IsAuthenticated` | lib/services/dataverse/tokenService.ts:90-93 | reloads, then answers whether a cache is present and not expired |
| `TokenService.TokenStore.GetTokenExpiresIn` | lib/services/dataverse/tokenService.ts:98-103 | reloads, then returns `ExpiresIn` |
| `TokenService.TokenStore.SaveTokens` | lib/services/dataverse/tokenService.ts:210-217 | the new state is `Save` of the old |
| `TokenService.TokenStore.ClearTokens` | lib/services/dataverse/tokenService.ts:222-231 | the new state is `Clear` of the old |
| `TokenService.TokenStore.PollForToken` | lib/services/dataverse/tokenService.ts:151-201 | status and new state are `Poll` of the old state |
| `TokenService.TokenStore.RefreshAccessToken` | lib/services/dataverse/tokenService.ts:236-268 | outcome and new state are `Refresh` of the old state |
| `TokenService.TokenStore.GetValidToken` | lib/services/dataverse/tokenService.ts:274-294 | token and new state are `ValidToken` of the old state |
| `DataverseClient.NewClient` | lib/services/dataverse/dataverseClient.ts:30-33 | the client addresses the entity set under `<base>/api/data/v9.2` |
| `DataverseClient.GetHeaders` | lib/services/dataverse/dataverseClient.ts:38-65 | throws "Nicht authentifiziert" without a token; otherwise it sends a bearer token, and `Prefer` starts with the formatted-value annotation and gets `return=representation` after a comma iff asked |
| `DataverseClient.SearchParams.constructor` | lib/services/dataverse/dataverseClient.ts:135 | a new `URLSearchParams` has no entries |
| `DataverseClient.SetEntry` | lib/services/dataverse/dataverseClient.ts:138-147 | after `set`, reading the name gives the new value; every other name keeps its value, and the entries of other names keep their order |
| `DataverseClient.SetEntryFresh` | lib/services/dataverse/dataverseClient.ts:138-147 | setting a name that is not yet present appends it, so the four options appear in the order they are set |
| `DataverseClient.SearchParams.Set` | lib/services/dataverse/dataverseClient.ts:139-147 | `params.set` replaces an existing entry in place or appends a new one |
| `DataverseClient.ListParams` | lib/services/dataverse/dataverseClient.ts:135-148 | at most four parameters, and none exactly when no option is truthy |
| `DataverseClient.Serialize` | lib/services/dataverse/dataverseClient.ts:150-151 | the query string is empty iff there are no parameters |
| `DataverseClient.ListParamsPresence` | lib/services/dataverse/dataverseClient.ts:135-148 | `$select` is present iff the list is non-empty and is comma-joined; `$filter` and `$orderby` iff non-empty; `$top` iff not 0 |
| `DataverseClient.FilterAndOrderQuery` | lib/services/dataverse/dataverseClient.ts:135-151 | a list with only a filter and an ordering has the query `?$filter=…&$orderby=…` |
| `DataverseClient.List` | lib/services/dataverse/dataverseClient.ts:129-155 | a GET of the collection URL with the parameters set in order, and `?query` only when the query is non-empty |
| `DataverseClient.ListUrlHasQueryIff` | lib/services/dataverse/dataverseClient.ts:150-151 | the list URL is the bare collection URL exactly when no option is set |
| `DataverseClient.Get` | lib/services/dataverse/dataverseClient.ts:160-170 | a GET of `<collection>(<id>)` with an optional `$select` |
| `DataverseClient.Create` | lib/services/dataverse/dataverseClient.ts:175-182 | a POST of the data to the collection, with the `Prefer` return header |
| `DataverseClient.Update` | lib/services/dataverse/dataverseClient.ts:187-194 | a PATCH of the data to `<collection>(<id>)`, with the `Prefer` return header |
| `DataverseClient.Delete` | lib/services/dataverse/dataverseClient.ts:199-205 | a DELETE of `<collection>(<id>)` without a body |
| `DataverseClient.RecordUrlsAgree` | lib/services/dataverse/dataverseClient.ts:160-205 | get, update and delete address the same record URL |
| `DataverseClient.ErrorMessage` | lib/services/dataverse/dataverseClient.ts:96-104 | the error prefers `error.message`, then `message`, then `HTTP <status>`; a body that is not JSON gives its text |
| `DataverseClient.ErrorMessageAsWritten` | lib/services/dataverse/dataverseClient.ts:98-103 | as written, a body that is not JSON leaves no message, because the fallback read of the consumed body rejects |
| `DataverseClient.AsWrittenLosesErrorText` | lib/services/dataverse/dataverseClient.ts:98-103 | a plain-text 502 page loses its text as written but keeps it in the corrected selection |
| `DataverseClient.Fetch` | lib/services/dataverse/dataverseClient.ts:70-109 | without a token it throws "Nicht authentifiziert"; a DELETE returns success or throws with the response text, without reading JSON; other methods return the payload or throw `ErrorMessage`, the corrected selection of "## Findings" (the as-written text is `ErrorMessageAsWritten`) |
| `DataverseClient.FetchIgnoresDeleteBody` | lib/services/dataverse/dataverseClient.ts:87-93 | an ok DELETE succeeds whatever the response body holds |
| `DigitalisierungsvorhabenService.CleanInput` | lib/services/dataverse/digitalisierungsvorhabenService.ts:105-136 | the output keeps exactly the allow-listed keys whose value is neither `undefined` nor "", each with its input value |
| `DigitalisierungsvorhabenService.CleanInputIsCleaned` | lib/services/dataverse/digitalisierungsvorhabenService.ts:128-135 | the loop's result equals the comprehension `Cleaned` |
| `DigitalisierungsvorhabenService.CleanedKeepsOtherFalsy` | lib/services/dataverse/digitalisierungsvorhabenService.ts:131 | `0`, `false` and `null` are kept, while `undefined` and "" are dropped |
| `DigitalisierungsvorhabenService.CleanedIsSubmap` | lib/services/dataverse/digitalisierungsvorhabenService.ts:129-134 | every kept key maps to its input value |
| `DigitalisierungsvorhabenService.CleanedIdempotent` | lib/services/dataverse/digitalisierungsvorhabenService.ts:128-135 | cleaning twice is cleaning once |
| `DigitalisierungsvorhabenService.ServiceClient` | lib/services/dataverse/digitalisierungsvorhabenService.ts:21-23 | the service's client uses the table's entity set |
| `DigitalisierungsvorhabenService.CreateRecord` | lib/services/dataverse/digitalisierungsvorhabenService.ts:78-83 | creating posts the cleaned input |
| `DigitalisierungsvorhabenService.UpdateRecord` | lib/services/dataverse/digitalisierungsvorhabenService.ts:90-96 | updating patches the cleaned input to the record |
| `DigitalisierungsvorhabenService.SentBodiesAreClean` | lib/services/dataverse/digitalisierungsvorhabenService.ts:78-96 | no body sent by create or update holds a column outside the allow-list, or an empty or undefined value |
| `DigitalisierungsvorhabenService.UpdateBewertung` | lib/services/dataverse/digitalisierungsvorhabenService.ts:170-191 | each of the three assessment columns is present iff its argument is defined, with that value, and is not cleaned |
| `DigitalisierungsvorhabenService.UpdateStatus` | lib/services/dataverse/digitalisierungsvorhabenService.ts:196-203 | the PATCH body is exactly the new lifecycle status |
| `DigitalisierungsvorhabenService.StatusFilter` | lib/services/dataverse/digitalisierungsvorhabenService.ts:151 | the filter starts with `cr6df_lifecyclestatus eq ` |
| `DigitalisierungsvorhabenService.StatusFilterInjective` | lib/services/dataverse/digitalisierungsvorhabenService.ts:151 | different codes give different filters |
| `DigitalisierungsvorhabenService.NameFilter` | lib/services/dataverse/digitalisierungsvorhabenService.ts:162 | the name stands verbatim inside `contains(cr6df_name, '…')` |
| `DigitalisierungsvorhabenService.NameFilterUnescaped` | lib/services/dataverse/digitalisierungsvorhabenService.ts:162 | a quote in the name ends the string literal early |
| `DigitalisierungsvorhabenService.ListByStatus` | lib/services/dataverse/digitalisierungsvorhabenService.ts:148-155 | a GET with the status filter, ordered by `createdon desc` |
| `DigitalisierungsvorhabenService.SearchByName` | lib/services/dataverse/digitalisierungsvorhabenService.ts:160-165 | a GET with the name filter, ordered by `cr6df_name asc` |
| `StageConfig.StatusLabel` | lib/stageConfig.ts:157-160 | a mapped code gives its table entry's label; "Unbekannt" exactly for `undefined` and unmapped codes |
| `StageConfig.PhaseForStatus` | lib/stageConfig.ts:165-168 | null exactly for `undefined` and unmapped codes, otherwise the entry's phase |
| `StageConfig.StatusClasses` | lib/stageConfig.ts:173-181 | a mapped code gives its table entry's colour and background classes; the gray defaults exactly for `undefined` and unmapped codes |
| `StageConfig.StatusCodes` | lib/stageConfig.ts:67-152 | the table defines exactly the codes 562520000 to 562520011 |
| `StageConfig.PhaseOfEachCode` | lib/stageConfig.ts:73-151 | 000–002 are Initialisierung; 003, 004, 005 and 009 are Analyse & Bewertung; 006–008 are Planung; 010–011 are Umsetzung |
| `StageConfig.SamePhaseSameClasses` | lib/stageConfig.ts:73-151 | statuses of the same phase share colour and background classes, which are the phase's |
| `StageConfig.LabelsDistinct` | lib/stageConfig.ts:73-151 | different codes have different labels |
| `StageConfig.EveryPhaseUsed` | lib/stageConfig.ts:15-20 | each of the four phases has at least one status |
| `StageConfig.LabelsInCodeOrder` | lib/stageConfig.ts:73-151 | the twelve labels listed in code order |
| `Validators.KomplexitaetSchema` | lib/validators.ts:15-17 | only strings of four to six characters pass (the exact values are `LevelValues`) |
| `Validators.KritikalitaetSchema` | lib/validators.ts:23-25 | accepts exactly what `komplexitaetSchema` accepts |
| `Validators.LifecycleStatusSchema` | lib/validators.ts:45-58 | only non-empty strings pass (the exact labels are `LabelsMatchStatusTable`) |
| `Validators.BegruendungSchema` | lib/validators.ts:67-70 | a passing reason is a string of 5 to 2000 characters |
| `Validators.ItotBewertungSchema` | lib/validators.ts:64-71 | a passing assessment has all three keys |
| `Validators.IdeeSchema` | lib/validators.ts:82-98 | a passing idea has the six required string keys and a status |
| `Validators.IdeenListeItemSchema` | lib/validators.ts:103-110 | a passing list item has its five string keys and a status |
| `Validators.IdeenListeSchema` | lib/validators.ts:115 | every element of a passing list passes the item schema |
| `Validators.LevelValues` | lib/validators.ts:15-25 | both level schemas accept exactly "gering", "mittel" and "hoch" |
| `Validators.BegruendungBounds` | lib/validators.ts:67-70 | the reason passes iff its length in UTF-16 code units, as JavaScript counts it, is between 10 and 2000; for a text without characters beyond U+FFFF that is its character count; a missing reason fails |
| `Validators.AstralReasonCountsTwice` | lib/validators.ts:67-69 | five emoji, five characters but ten code units, meet the minimum length |
| `Validators.BewertungNeedsAllFields` | lib/validators.ts:64-71 | a missing field fails the assessment schema |
| `Validators.UnknownLabelRejected` | lib/validators.ts:45-58 | a label outside the twelve, such as the mock data's assessed label, is rejected |
| `Validators.LabelsMatchStatusTable` | lib/validators.ts:45-58 | the schema's twelve labels are exactly the status table's labels |
| `Validators.IdeeRequiredFields` | lib/validators.ts:82-98 | an idea with only the seven required fields passes, and dropping any one of them fails |
| `Validators.IdeenListeSchemaIff` | lib/validators.ts:103-115 | the list passes iff every element passes the item schema, and so does the empty list |
| `MockDataverse.ConfigFromEnv` | lib/dataverse.ts:22-28 | the table name is the environment value, and `cr_ideen` when that is unset |
| `MockDataverse.IsConfigured` | lib/dataverse.ts:33-35 | configured iff none of url, client id, secret and tenant is empty |
| `MockDataverse.ConfiguredIgnoresTableName` | lib/dataverse.ts:33-35 | configured iff url, client id, secret and tenant are non-empty; the table name plays no part |
| `MockDataverse.Project` | lib/dataverse.ts:108-115 | the list item carries the idea's id, titel, typ, verantwortlicher, ideengeber and lifecyclestatus |
| `MockDataverse.ProjectAll` | lib/dataverse.ts:108-115 | one list item per idea, in order, each its projection |
| `MockDataverse.IdeenZurBewertung` | lib/dataverse.ts:104-128 | empty when configured; every item returned has the status "Idee wird ITOT-Board vorgestellt" |
| `MockDataverse.AlleIdeen` | lib/dataverse.ts:133-146 | in mock mode, the projection of every mock idea, in order; otherwise empty |
| `MockDataverse.Find` | lib/dataverse.ts:153 | the first idea with a matching id, or none |
| `MockDataverse.IdeeById` | lib/dataverse.ts:151-157 | in mock mode the matching idea or null; configured, null |
| `MockDataverse.ZurBewertungIsPresentedIdeas` | lib/dataverse.ts:104-118 | in mock mode the ideas up for assessment are 1, 2 and 4, in order |
| `MockDataverse.FilterPresented` | lib/dataverse.ts:45-118 | among the mock ideas exactly 1, 2 and 4 have the presented status |
| `MockDataverse.ZurBewertungWithinAlle` | lib/dataverse.ts:104-146 | every idea up for assessment is also in the full list, in the same order |
| `MockDataverse.IdeeByIdMock` | lib/dataverse.ts:151-157 | the lookup finds the mock ideas 1 to 4 and nothing else |
| `MockDataverse.MockUpdate` | lib/dataverse.ts:170-181 | unknown ids get "Idee nicht gefunden", known ids succeed, and configured mode reports that it is not configured |
| `MockDataverse.UpdateITOTBewertung` | lib/dataverse.ts:162-183 | the assessment's outcome depends on the id only; the data is not changed |
| `MockDataverse.UpdateLifecycleStatus` | lib/dataverse.ts:188-203 | the status change's outcome depends on the id only; the data is not changed |
| `MockDataverse.UpdateSucceedsForMockIds` | lib/dataverse.ts:170-202 | in mock mode the status update and the assessment update each succeed, whatever their other arguments, exactly for the four mock ids |
| `MockDataverse.MockListFailsListSchema` | lib/dataverse.ts:45-100 | the mock list fails the list schema because idea 3's status label is not one of the schema's twelve |
| `Auth.UserById` | lib/auth.ts:34-53 | a user exactly for the ids of the mock table, carrying that id |
| `Auth.IsAuthenticated` | lib/auth.ts:82-85 | authenticated iff the session cookie names one of the mock users |
| `Auth.IsITOTBoardMember` | lib/auth.ts:90-93 | a board member iff the session cookie is itot1 or itot2 |
| `Auth.CurrentUser` | lib/auth.ts:66-77 | null without a session cookie or with an empty one; otherwise `UserById` of that id, the corrected own-entry lookup of "## Findings" (the as-written lookup is `LookupAsWritten`) |
| `Auth.GetMockUsers` | lib/auth.ts:129-131 | the three mock users in table order |
| `Auth.CookieStore.constructor` | lib/auth.ts:67 | the store holds the request's cookies |
| `Auth.CookieStore.MockLogin` | lib/auth.ts:99-116 | an id that `UserById`, the corrected own-entry lookup of "## Findings", does not know gives "Benutzer nicht gefunden" and sets no cookie; a known id sets the session cookie to the id |
| `Auth.CookieStore.Logout` | lib/auth.ts:121-124 | removes exactly the session cookie |
| `Auth.LoginThenCurrentUser` | lib/auth.ts:106-115 | after logging in with a known id the current user is that user |
| `Auth.LogoutThenNoUser` | lib/auth.ts:121-124 | after logout there is no current user |
| `Auth.BoardMembers` | lib/auth.ts:90-93 | a board member iff the current user's role is "itot_board": itot1 and itot2, not viewer1 |
| `Auth.BoardMemberIsAuthenticated` | lib/auth.ts:82-93 | a board member is authenticated |
| `Auth.LookupAsWritten` | lib/auth.ts:74-76 | as written, `mockUsers[id]` finds the mock users and also the twelve names inherited from `Object.prototype`, and nothing else |
| `Auth.LoginAcceptsAsWritten` | lib/auth.ts:100-104 | as written, `mockLogin` accepts exactly the mock user ids and the inherited names |
| `Auth.IsAuthenticatedAsWritten` | lib/auth.ts:74-85 | as written, the session counts as authenticated iff its cookie holds a mock user id or an inherited name |
| `Auth.InheritedNameLogsIn` | lib/auth.ts:99-104 | as written "constructor" and "__lookupGetter__" log in and a "constructor" session counts as authenticated, although neither names a user; the own-entry lookup refuses "constructor" |
| `Auth.LookupAgreesOffPrototype` | lib/auth.ts:100 | off the inherited names the own-entry lookup agrees with the code as written |
| `SortableTable.Toggle` | components/SortableTable.tsx:81-94 | a new key sorts ascending, the same key flips asc to desc, and desc to unsorted |
| `SortableTable.ThreeTogglesUnsort` | components/SortableTable.tsx:81-94 | three toggles of one column from unsorted give unsorted |
| `SortableTable.ToggleConsistent` | components/SortableTable.tsx:49-50 | the key is null iff the direction is null, and toggling keeps that |
| `SortableTable.SwitchColumnStartsAscending` | components/SortableTable.tsx:82-85 | choosing another column always starts ascending |
| `SortableTable.Sorter.constructor` | components/SortableTable.tsx:49-50 | the table starts unsorted |
| `SortableTable.Sorter.ToggleSort` | components/SortableTable.tsx:81-94 | the new state is `Toggle` of the old; consistency is preserved |
| `SortableTable.Compare` | components/SortableTable.tsx:60-77 | two numbers compare by subtraction, anything else by `localeCompare` of the strings, and desc negates |
| `SortableTable.FindColumn` | components/SortableTable.tsx:56 | the first column whose key matches, or none |
| `SortableTable.SortedData` | components/SortableTable.tsx:53-79 | without a sort (a missing or empty key, or no direction) or a matching column the data is returned unchanged; otherwise it is the sorted copy on that column and direction |
| `SortableTable.SortedDataPermutes` | components/SortableTable.tsx:59 | the result is a permutation of the data |
| `SortableTable.Insert` | components/SortableTable.tsx:59-78 | one step of the stable sort: the result holds the rows and the new row, one more than before |
| `SortableTable.Sort` | components/SortableTable.tsx:59-78 | the sorted copy is a permutation of the data |
| `SortableTable.SortOrdered` | components/SortableTable.tsx:59-78 | for a `localeCompare` parameter that flips sign with its arguments, neighbours in the result are in order |
| `SortableTable.SortOrderedOn` | components/SortableTable.tsx:59-78 | whenever the row comparison flips sign on the rows at hand, neighbours in the result are in order |
| `SortableTable.NumericOrder` | components/SortableTable.tsx:69-76 | with only numeric sort values, for any `localeCompare`, the result is non-decreasing for asc and non-increasing for desc |
| `SearchableSelect.FilteredOptions` | components/ui/SearchableSelect.tsx:52-54 | an option is shown iff its lower-cased label contains the lower-cased query |
| `SearchableSelect.FilteredInOrder` | components/ui/SearchableSelect.tsx:52-54 | the shown options keep the options' order |
| `SearchableSelect.EmptyQueryShowsAll` | components/ui/SearchableSelect.tsx:52-54 | an empty query shows every option |
| `SearchableSelect.SelectedOptions` | components/ui/SearchableSelect.tsx:57 | an option is selected iff its value is in the selection |
| `SearchableSelect.SelectedFollowOptionsOrder` | components/ui/SearchableSelect.tsx:57 | the selected options follow the options list |
| `SearchableSelect.SelectedOrderExample` | components/ui/SearchableSelect.tsx:57 | a selection made as [b, a] is shown as [a, b] |
| `SearchableSelect.OnChange` | components/ui/SearchableSelect.tsx:60-79 | toggle removes a present value and appends an absent one; remove drops every occurrence, keeping order; clear and deselect-all give [] |
| `SearchableSelect.OnChangeNoDup` | components/ui/SearchableSelect.tsx:60-79 | no change introduces a duplicate |
| `SearchableSelect.ToggleTwice` | components/ui/SearchableSelect.tsx:60-66 | toggling a value twice restores the set of selected values |
| `SearchableSelect.RemoveUnselected` | components/ui/SearchableSelect.tsx:76-79 | removing a value that is not selected changes nothing |
| `SearchableSelect.DisplayText` | components/ui/SearchableSelect.tsx:82-86 | null for no selection, the label for one, "N ausgewählt" with a decimal N for several |
| `SearchableSelect.DisplayTextCount` | components/ui/SearchableSelect.tsx:85 | the number in "N ausgewählt" reads back as the count |
| `VorhabenTable.Step` | components/dataverse/DigitalisierungsvorhabenTable.tsx:32-43 | a click on the armed id deletes it and disarms; another click arms that id; the timeout disarms |
| `VorhabenTable.FirstClickArms` | components/dataverse/DigitalisierungsvorhabenTable.tsx:38-41 | a first click arms without deleting |
| `VorhabenTable.SecondClickDeletes` | components/dataverse/DigitalisierungsvorhabenTable.tsx:33-36 | a second click deletes that id exactly once and disarms |
| `VorhabenTable.OtherClickRearms` | components/dataverse/DigitalisierungsvorhabenTable.tsx:33-41 | a click on another id re-arms on it without deleting |
| `VorhabenTable.DeletesOnlyArmed` | components/dataverse/DigitalisierungsvorhabenTable.tsx:33-41 | a deletion is always of the armed id |
| `VorhabenTable.Run` | components/dataverse/DigitalisierungsvorhabenTable.tsx:32-43 | the deleted list only grows over a run of events |
| `VorhabenTable.DeleteConfirm.constructor` | components/dataverse/DigitalisierungsvorhabenTable.tsx:30 | nothing is armed and nothing is deleted at first |
| `VorhabenTable.TwoClicksPerDeletion` | components/dataverse/DigitalisierungsvorhabenTable.tsx:32-43 | over any run, twice the deletions plus the armed count grow by at most the number of clicks: each deletion needs an arming click and a confirming click |
| `VorhabenTable.DeleteConfirm.HandleDeleteClick` | components/dataverse/DigitalisierungsvorhabenTable.tsx:32-43 | the new state is `Step` of the old; a timer starts exactly on arming |
| `VorhabenTable.DeleteConfirm.TimeoutFires` | components/dataverse/DigitalisierungsvorhabenTable.tsx:41 | the timer disarms whatever is armed |
| `VorhabenTable.StatusText` | components/dataverse/DigitalisierungsvorhabenTable.tsx:46-56 | codes 1–6 have their texts and anything else is "Unbekannt" |
| `VorhabenTable.StatusBadgeClass` | components/dataverse/DigitalisierungsvorhabenTable.tsx:59-69 | codes 1–6 have their classes and anything else is "badge-ghost" |
| `VorhabenTable.TypText` | components/dataverse/DigitalisierungsvorhabenTable.tsx:72-79 | codes 1–3 are Idee, Vorhaben and Projekt, and anything else is "-" |
| `VorhabenTable.StatusColumnsDistinguishCodes` | components/dataverse/DigitalisierungsvorhabenTable.tsx:46-69 | two different known codes differ both in text and in badge class |
| `VorhabenTable.Render` | components/dataverse/DigitalisierungsvorhabenTable.tsx:81-105 | loading first, then a non-empty error, then the empty notice, then the table of all records |
| `LoginPrompt.ClassifyPoll` | components/dataverse/LoginPrompt.tsx:44-65 | "success", "expired" and "error" stop polling; other statuses and a thrown fetch continue |
| `LoginPrompt.AfterPoll` | components/dataverse/LoginPrompt.tsx:46-61 | success calls the login callback once and keeps the error and the code; expired sets the expiry message and clears the code; error sets its message or "Unbekannter Fehler" |
| `LoginPrompt.AtMostOneSuccess` | components/dataverse/LoginPrompt.tsx:71-76 | over any run of polls the login callback fires at most once, since polling stops after it |
| `LoginPrompt.PendingKeepsPolling` | components/dataverse/LoginPrompt.tsx:63-66 | pending answers leave the prompt unchanged and still polling |
| `LoginPrompt.Tick` | components/dataverse/LoginPrompt.tsx:86-94 | a tick decrements; at 1 or below it sets 0, clears the code and sets the expiry message; the countdown never goes negative |
| `LoginPrompt.CountdownExpires` | components/dataverse/LoginPrompt.tsx:83-98 | from a countdown of n, n ticks stop the timer with the code cleared |
| `LoginPrompt.JsRem60` | components/dataverse/LoginPrompt.tsx:140 | JavaScript's truncating `% 60`: between 0 and 59 for non-negative seconds |
| `LoginPrompt.FormatCountdown` | components/dataverse/LoginPrompt.tsx:138-142 | for a non-negative countdown, the colon is followed by exactly two characters |
| `LoginPrompt.FormatCountdownReadsBack` | components/dataverse/LoginPrompt.tsx:138-142 | the text is minutes, ":", and two seconds digits that read back as the input |
| `LoginPrompt.FormatCountdownExamples` | components/dataverse/LoginPrompt.tsx:138-142 | 65 is "1:05" and 900 is "15:00" |
| `LoginPrompt.AfterLogin` | components/dataverse/LoginPrompt.tsx:101-127 | an `error` reply sets it and starts nothing; a thrown fetch sets its text; a code sets the countdown to `expires_in` and starts polling; loading ends in every case |
| `LoginPrompt.IssuedCodeStartsCountdown` | components/dataverse/LoginPrompt.tsx:114-121 | after an issued code the countdown timer is running |
| `LoginPrompt.LoginPanel.constructor` | components/dataverse/LoginPrompt.tsx:28-32 | not loading, no code, no error, countdown 0, no polling |
| `LoginPrompt.LoginPanel.Poll` | components/dataverse/LoginPrompt.tsx:36-81 | the new state is `AfterPoll`, and done is the classification's stop flag |
| `LoginPrompt.LoginPanel.CountdownTick` | components/dataverse/LoginPrompt.tsx:83-98 | the new state is `Tick` of the old |
| `LoginPrompt.LoginPanel.HandleLogin` | components/dataverse/LoginPrompt.tsx:101-127 | the new state is `AfterLogin` of the old |
| `VorhabenForm.EditForm` | components/dataverse/DigitalisierungsvorhabenForm.tsx:35-48 | the ten fields are copied from the record; the four text fields default to "" |
| `VorhabenForm.InitialForm` | components/dataverse/DigitalisierungsvorhabenForm.tsx:34-55 | without an edit record only name and beschreibung, both ""; otherwise `EditForm` |
| `VorhabenForm.EditCopiesSetFields` | components/dataverse/DigitalisierungsvorhabenForm.tsx:35-48 | set text fields and every numeric field keep their record values |
| `VorhabenForm.ParseInt` | components/dataverse/DigitalisierungsvorhabenForm.tsx:62 | the result is an integer or NaN; which one is pinned down by `ParseIntRendered` and `ParseIntExamples` |
| `VorhabenForm.ParseIntRendered` | components/dataverse/DigitalisierungsvorhabenForm.tsx:62 | parsing a rendered integer gives it back |
| `VorhabenForm.ParseIntExamples` | components/dataverse/DigitalisierungsvorhabenForm.tsx:62 | "12abc" is 12 and "abc" is NaN |
| `VorhabenForm.NumberChange` | components/dataverse/DigitalisierungsvorhabenForm.tsx:78-84 | only the named field changes: undefined for "", else the parsed integer |
| `VorhabenForm.TextChange` | components/dataverse/DigitalisierungsvorhabenForm.tsx:67-75 | only the named field changes, to the raw string |
| `VorhabenForm.SelectStoresCode` | components/dataverse/DigitalisierungsvorhabenForm.tsx:58-65 | choosing a picklist option stores its numeric code |
| `VorhabenForm.ClearedFieldIsNotSent` | components/dataverse/DigitalisierungsvorhabenForm.tsx:58-84 | a cleared select or number field is dropped by the service's cleaning |
| `VorhabenForm.Form.constructor` | components/dataverse/DigitalisierungsvorhabenForm.tsx:34-55 | the form starts as `InitialForm`, not submitting |
| `VorhabenForm.Form.HandleSelectChange` | components/dataverse/DigitalisierungsvorhabenForm.tsx:58-65 | the new form data is `NumberChange` of the old |
| `VorhabenForm.Form.HandleNumberChange` | components/dataverse/DigitalisierungsvorhabenForm.tsx:78-84 | the new form data is `NumberChange` of the old |
| `VorhabenForm.Form.HandleTextChange` | components/dataverse/DigitalisierungsvorhabenForm.tsx:67-75 | the new form data is `TextChange` of the old |
| `VorhabenForm.Form.HandleSubmit` | components/dataverse/DigitalisierungsvorhabenForm.tsx:86-103 | submits the current data; resets the form only after a successful create; always ends with submitting off; reports a throw exactly when the save rejects |
| `VorhabenForm.StatusBadge` | components/dataverse/DigitalisierungsvorhabenForm.tsx:106-118 | codes 562520000–562520007 have eight labels and anything else is "Keine Phase" |
| `VorhabenForm.StatusBadgeDistinct` | components/dataverse/DigitalisierungsvorhabenForm.tsx:106-118 | the eight codes have eight different labels |
| `Records.SearchIgnoresQueryCase` | app/ideen/page.tsx:134-140 | the search does not depend on the query's letter case |
| `Records.SearchReadsThreeFields` | app/ideen/page.tsx:136-139 | only name, beschreibung and verantwortlichername decide a match |
| `IdeenPage.FilteredRecords` | app/ideen/page.tsx:132-150 | a record is shown iff it passes search, type filter and status filter |
| `IdeenPage.FilteredInOrder` | app/ideen/page.tsx:132 | the shown records keep their order |
| `IdeenPage.NoFiltersShowAll` | app/ideen/page.tsx:132-150 | an empty search and no filters show every record |
| `IdeenPage.FiltersCombine` | app/ideen/page.tsx:132-150 | filtering by all three is filtering by each in turn |
| `IdeenPage.TypText` | app/ideen/page.tsx:153-160 | 562520000/1/2 are Idee, Vorhaben and Projekt, and anything else is "Sonstige" |
| `IdeenPage.TypKey` | app/ideen/page.tsx:164 | the grouping key is one of the four group names |
| `IdeenPage.GroupedRecords` | app/ideen/page.tsx:163-168 | every shown record has a group, only the four names occur, and each group is the records of that type in order |
| `IdeenPage.GroupsPartition` | app/ideen/page.tsx:163-168 | each group is a subsequence, and the four group sizes add up to the shown count |
| `IdeenPage.StatusBadge` | app/ideen/page.tsx:171-183 | "Keine Phase" exactly for `undefined` and codes outside 562520000–562520007 |
| `IdeenPage.LaterCodesShowNoPhase` | app/ideen/page.tsx:171-183 | of the twelve lifecycle codes the badge names the first eight; the last four show "Keine Phase" |
| `DataversePage.FilteredRecords` | app/dataverse/page.tsx:189-197 | a record is shown iff the query is empty or the record matches it |
| `DataversePage.SearchResult` | app/dataverse/page.tsx:189-197 | an empty query shows every record, and the result keeps the records' order |
| `DataversePage.TypText` | app/dataverse/page.tsx:200-207 | 1/2/3 are Idee, Vorhaben and Projekt, and anything else is "Sonstige" |
| `DataversePage.TypKey` | app/dataverse/page.tsx:211 | the grouping key is one of the four group names |
| `DataversePage.IdeaPageCodeIsOther` | app/dataverse/page.tsx:200-207 | the ideas page's code 562520000 shows "Sonstige" here |
| `DataversePage.GroupedRecords` | app/dataverse/page.tsx:210-215 | every record has a group, only the four names occur, and each group is the records of that type in order |
| `DataversePage.GroupsPartition` | app/dataverse/page.tsx:210-215 | the groups are subsequences whose sizes add up to the record count |
| `DataversePage.StatusBadge` | app/dataverse/page.tsx:218-228 | codes 1–6 have six labels and anything else is "Keine Phase" |
| `DataversePage.BadgeShiftedCodes` | app/dataverse/page.tsx:218-228 | codes 1–6 show the form's labels for 562520000–562520005, and those codes show "Keine Phase" here |
| `DashboardPage.BoardRecords` | app/dashboard/page.tsx:70-73 | keeps the records with status 562520001, in order |
| `DashboardPage.BoardRecordsExact` | app/dashboard/page.tsx:70-73 | the result is a subsequence of the records, and filtering it again changes nothing |
| `DashboardPage.LevelText` | app/dashboard/page.tsx:283-299 | 562520000/1/2 are Gering, Mittel and Hoch, and anything else is "Unbekannt" |
| `DashboardPage.RatingText` | app/dashboard/page.tsx:248-256 | a falsy level is "Nicht bewertet", otherwise its level text |
| `DashboardPage.RatingTextCases` | app/dashboard/page.tsx:248-256 | "Nicht bewertet" exactly for a missing level or 0, and "Unbekannt" exactly for any other code outside the three |
| `DashboardPage.CountLabel` | app/dashboard/page.tsx:163 | "Idee" iff exactly one record, otherwise "Ideen" |
| `SitzungenPage.LeadingDays` | app/sitzungen/page.tsx:430-433 | Monday-first leading cells: `(weekday + 6) mod 7`, between 0 and 6 |
| `SitzungenPage.CalendarDays` | app/sitzungen/page.tsx:419-452 | the three loops build exactly the grid: previous month's last days, the month, then the next month's first days |
| `SitzungenPage.GridShape` | app/sitzungen/page.tsx:419-452 | 42 cells; the leading cells are the previous month's last days in increasing order; exactly `lastDay` current cells numbered 1..lastDay; trailing cells numbered from 1, at least five of them |
| `SitzungenPage.GridCorners` | app/sitzungen/page.tsx:430-450 | a month starting on Monday has no leading cells; one starting on Sunday has six |
| `SitzungenPage.Normalize` | app/sitzungen/page.tsx:479-485 | `new Date(y, m, 1)` with an out-of-range month rolls into the neighbouring year |
| `SitzungenPage.PreviousMonth` | app/sitzungen/page.tsx:479-481 | the month before, a valid month |
| `SitzungenPage.NextMonth` | app/sitzungen/page.tsx:483-485 | the month after, a valid month |
| `SitzungenPage.NavigationRoundTrip` | app/sitzungen/page.tsx:479-485 | forward then back, and back then forward, return to the same month |
| `SitzungenPage.YearBoundary` | app/sitzungen/page.tsx:479-485 | January goes back to the previous December, and December forward to the next January |
| `SitzungenPage.FilteredSitzungen` | app/sitzungen/page.tsx:386-412 | a session is shown iff it has a date within both bounds, inclusive by day; an empty bound imposes nothing |
| `SitzungenPage.FilteredSitzungenInOrder` | app/sitzungen/page.tsx:390 | the shown sessions keep their order |
| `SitzungenPage.BoundsInclusive` | app/sitzungen/page.tsx:396-409 | a session on the start day or on the end day is shown |
| `SitzungenPage.NoBoundsKeepsDated` | app/sitzungen/page.tsx:390-391 | without bounds exactly the dated sessions are shown |
| `SitzungenPage.ToggleSitzung` | app/sitzungen/page.tsx:68-70 | only the given session's collapse flag flips; a missing flag counts as false |
| `SitzungenPage.ToggleSitzungTwice` | app/sitzungen/page.tsx:68-70 | toggling twice gives the original flag back |
| `Seqs.Toggle` | app/sitzungen/page.tsx:224-230 | an absent id is appended; a present one is removed with every other id kept, in order |
| `Seqs.ToggleNoDup` | app/sitzungen/page.tsx:224-230 | toggling an idea's selection keeps the selection duplicate-free |
| `Seqs.ToggleTwiceSameElements` | app/sitzungen/page.tsx:224-230 | toggling an id twice keeps the same set of selected ids |
| `SitzungenPage.UnassignedIdeen` | app/sitzungen/page.tsx:374 | the ideas without a session, in order |
| `SitzungenPage.AssignedIdeen` | app/sitzungen/page.tsx:377-380 | empty for a missing session id; otherwise the ideas of that session, in order |
| `SitzungenPage.AssignmentPartition` | app/sitzungen/page.tsx:374-380 | an idea is unassigned iff it has no session, and it is in a session's list iff that non-empty id is its own session |
| `SitzungenPage.FirstFailure` | app/sitzungen/page.tsx:192-205 | the index of the first selected idea whose request is rejected or answered not ok, or the selection's length |
| `SitzungenPage.FailureMessage` | app/sitzungen/page.tsx:202-217 | a rejected fetch reports its own message; a response that is not ok names the idea's id |
| `SitzungenPage.HandleAssignIdeas` | app/sitzungen/page.tsx:184-221 | nothing without a session or selection; otherwise one request per idea in selection order up to and including the first failure, which is either a response that is not ok, reported with the idea's id, or a rejected fetch, reported with its message |
| `Seqs.GroupBy` | app/ideen/page.tsx:163-168 | the reduce: the keys are those that occur, and each group is the elements with that key, in order |
| `Seqs.GroupSizesSum` | app/ideen/page.tsx:163-168 | when the keys cover every element, the group sizes add up to the element count |
| `Http.ErrorReply` | app/api/dataverse/sitzungen/route.ts:20-31 | an error reply carries the status and message, and `details` exactly when given |
| `SitzungenRoute.Headers` | app/api/dataverse/sitzungen/route.ts:39-45 | the bearer token first, among at least five OData headers; `Prefer: return=representation` exactly on POST |
| `SitzungenRoute.Get` | app/api/dataverse/sitzungen/route.ts:16-67 | 401 without a token, before 500 without a base URL, neither calling upstream; otherwise a GET ordered by date descending; an upstream failure passes its status on; a throw is 500 |
| `SitzungenRoute.TokenCheckedFirst` | app/api/dataverse/sitzungen/route.ts:18-32 | without a token the answer is 401 and nothing is called, whatever the configuration |
| `SitzungenRoute.CreatePayload` | app/api/dataverse/sitzungen/route.ts:104-116 | exactly the keys: always the date; the protocol only when truthy; the participant bind path only when truthy, each with its value |
| `SitzungenRoute.MinimalPayload` | app/api/dataverse/sitzungen/route.ts:104-116 | with an empty protocol and no participant the payload is the date alone |
| `SitzungenRoute.Post` | app/api/dataverse/sitzungen/route.ts:73-153 | checks run in order: 401, then 500, then an unreadable body as 500, then 400 for a missing date; only then a POST to the entity set whose body is exactly `CreatePayload` of the request, with the return header; a failure passes its status on and a success is 201 |
| `AssignRoute.UpdatePayload` | app/api/dataverse/sitzungen/assign/route.ts:46-54 | exactly one key: the session bind path when the session id is truthy, otherwise null |
| `AssignRoute.Headers` | app/api/dataverse/sitzungen/assign/route.ts:57-69 | the PATCH carries the bearer token and `If-Match: *` |
| `AssignRoute.Patch` | app/api/dataverse/sitzungen/assign/route.ts:16-90 | 401, then 500, then 400 without `ideaId`; then a PATCH of the idea's record with the one-key payload; a failure passes its status on; a success is `{success: true}` |
| `AssignRoute.BodyOf` | app/sitzungen/page.tsx:193-200 | the page's request body: the idea id, and the session id or undefined |
| `AssignRoute.PageRequestBindsSession` | app/sitzungen/page.tsx:193-200 | a page request for a session with an id binds to it; one for a session without an id clears the idea's assignment |
| `SetupRoute.CheckUrl` | app/api/dataverse/digitalisierungsvorhaben/setup/route.ts:34 | the metadata URL names the table's logical name |
| `SetupRoute.Get` | app/api/dataverse/digitalisierungsvorhaben/setup/route.ts:15-83 | 401 without authentication or token; ok means the table exists, with the two fallbacks; 404 or a known message means missing at status 200; any other failure passes its status on with the message or "Tabelle nicht gefunden"; a throw is 500 |
| `SetupRoute.TableExistsFlag` | app/api/dataverse/digitalisierungsvorhaben/setup/route.ts:46-79 | only the 401 replies lack `tableExists` |
| `SetupRoute.ExistsOnlyWhenFound` | app/api/dataverse/digitalisierungsvorhaben/setup/route.ts:44-69 | the table is reported as existing iff the metadata answer was ok; a 404 always means missing |
| `SetupRoute.ErrorCodeMeansMissing` | app/api/dataverse/digitalisierungsvorhaben/setup/route.ts:59-63 | the unknown-entity code counts as missing at any status |
| `SetupRoute.UnexplainedFailureKeepsStatus` | app/api/dataverse/digitalisierungsvorhaben/setup/route.ts:55-75 | a non-404 failure without a message passes its status on with "Tabelle nicht gefunden" |
| `Text.ParseNatToString` | components/ui/SearchableSelect.tsx:85 | decimal rendering reads back: parsing `String(n)` gives n |
| `Text.LowerIdempotent` | components/ui/SearchableSelect.tsx:53 | lower-casing twice is lower-casing once |
| `Text.Utf16Length` | lib/validators.ts:67-69 | JavaScript's `length`: between the character count and twice it |
| `Text.Utf16LengthBmp` | lib/validators.ts:67-69 | without characters beyond U+FFFF the code-unit count is the character count |
| `Json.ToJsString` | app/api/dataverse/sitzungen/assign/route.ts:49-52 | a template literal renders a string as itself and an integer in decimal |

## Left out

- HTTP, `fetch` and the OAuth and OData endpoints are not modelled. Their
  answers are input values, and each call is the request value it builds.
- File-system calls are not modelled. The cache file is `CacheFile`
  (missing, holding a record, corrupt), and write or delete success is a
  boolean input.
- Races between several server workers on the token file are left out,
  because that is concurrency.
- React and Next.js machinery is not modelled: hooks, rendering, styling and
  icons, `router`, `window.open`, the clipboard and the `cookies()` store.
  The cookie store is a map.
- Timers are not modelled as time. `setTimeout` and `setInterval` are
  explicit events, including the 1.5-second close after a successful
  assignment and the 2-second "copied" flag.
- `VorhabenTable.Step`: the 3-second reset disarms whatever is armed at that
  moment. A timer from an earlier arming can therefore disarm a later one.
  This is modelled as written.
- Locale-dependent operations are not modelled exactly:
  - `toLowerCase` is ASCII plus the German umlauts;
  - `localeCompare("de")` is a comparator parameter, and only its sign
    symmetry is assumed;
  - `toLocaleDateString` and `toISOString` are left out;
  - dates are whole-day integers. The weekday of the first of the month and
    the month lengths are inputs.
- Percent-encoding by `URLSearchParams.toString` is not modelled. A query is
  the plain `name=value` pairs joined by `&`.
- zod's `z.coerce.date()` fields of `ideeSchema` are not modelled;
  `Validators.IdeeSchema` checks the other fields.
- `VorhabenForm.ParseInt`: leading whitespace and a `0x` prefix are not
  accepted. For the values a select or number input produces it agrees with
  `parseInt`.
- JavaScript numbers are unbounded integers. Millisecond arithmetic does not
  round.
- `TokenService.Record`: `expires_in` is an integer. A reply without a
  numeric `expires_in`, or a token file holding `{}`, gives an `expiresAt`
  of NaN or `undefined` in the source. Every comparison with one is false,
  so such a cache never expires. The model does not capture this.
- `LoginPrompt.AfterLogin` and `LoginPrompt.AfterPoll`: a repeated login
  starts a further `setInterval` without clearing the earlier one. The
  model keeps a single polling flag, so intervals running side by side are
  not captured. `LoginPrompt.AtMostOneSuccess` holds for each interval, not
  across several.
- `SitzungenPage.HandleAssignIdeas`: a rejected fetch whose reason is not an
  `Error` gets the fallback "Fehler beim Zuweisen" in the source. The model
  gives every rejection a message.
- The display order of groups comes from `Object.entries` over the
  accumulator. The model has the groups as a map and proves only their
  contents and their order within each group.
- `getSitzungenForDate`, `isToday`, `goToToday`, `formatDate` and
  `formatMonth` on the session page are not modelled. They compare or format
  dates with the clock and the locale.
- The session page's other handlers are not modelled, because each is one
  `fetch` plus state setters: create, save, update, open and close of the
  modals.
- `getWhoAmI` and `makeDataverseRequest` in dataverseClient.ts are not
  modelled, because each is a single GET. `listAll`, `getById` and
  `deleteRecord` of the service are the client's `List`, `Get` and `Delete`.
- The `Navbar` poll handling is not part of this model.
- `SortableTable.SortOrdered`: sortedness for string values is proved for a
  `localeCompare` parameter that flips sign with its arguments, because the
  collation itself is not modelled. `SortableTable.NumericOrder` needs no
  assumption about the comparator.
  Stability with respect to `Array.prototype.sort` is not claimed beyond
  using a stable insertion sort.

## Findings

| source | as written | input that shows it | evidently intended | confidence | as-written member | corrected member |
|---|---|---|---|---|---|---|
| lib/services/dataverse/dataverseClient.ts:96-103 | after `response.json()` fails, the catch reads `response.text()` from a body that has already been consumed, so that read rejects and the server's error text is lost | a 502 answer with the plain-text body "Bad Gateway" | throw with the raw text of a body that is not JSON | not executed | `DataverseClient.ErrorMessageAsWritten` | `DataverseClient.ErrorMessage` |
| lib/auth.ts:99-103 | `mockUsers[userId]` also finds the members that every object inherits from `Object.prototype` | `mockLogin("constructor")` succeeds, and the session then counts as authenticated | only the three own entries of the mock table are users | not executed | `Auth.LookupAsWritten` | `Auth.UserById` |

Two further observations are stated as lemmas rather than findings:
- `MockDataverse.MockListFailsListSchema`: the third mock idea's status
  label is not one of the labels `lifecycleStatusSchema` accepts.
- `AssignRoute.PageRequestBindsSession`: the page sends `undefined` for a
  session without an id, and the route then clears the assignment.
