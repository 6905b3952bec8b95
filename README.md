# Water-delivery manager core, in Dafny

This project models the decision logic of a Next.js/Supabase app for water-bottle delivery plants. A plant's managers sign in with a username and a six-digit PIN. They then record, for each of the plant's drivers, how many bottles the driver took that day. The app's behaviour outside the browser and the database is a handful of route handlers and one page. Each becomes a Dafny module:

- `Middleware` (`src/middleware.ts`): the session gate in front of `/m/...`, which redirects to the login page or the dashboard and clears a rejected cookie. It also models the `config.matcher` exclusions, and follows redirect chains to prove that there is no loop.
- `Entries` (`src/app/api/entries/route.ts`) covers the daily bottle entries:
  - `POST` validates and inserts;
  - `GET` returns the newest of today's entries;
  - `PUT` validates, checks ownership and updates one count.

  The `bottle_entries` table is the class `EntryTable`. Its handlers are methods whose contracts state the new rows in terms of the old. The checks each handler makes before it reaches the store are pure functions (`CreateStep`, `LookupStep`, `UpdateStep`, `OwnershipStep`).
- `Dashboard` (`src/app/m/dashboard/page.tsx`): the page `ManagerDashboard` as a class whose fields are its `useState` variables. Each handler is a method. The number-pad arithmetic is a set of pure functions with lemmas about any sequence of key presses. The requests the page sends are tied to what the entries route accepts.
- `Managers` (`src/app/api/managers/route.ts`): the guards of manager `POST`/`PUT`/`DELETE` and the mapping of the stored procedure's answer to a status.
- `Login` (`src/app/api/auth/manager/login/route.ts`): the credential check, the claims of the issued token and the cookie attributes. It proves that a token the verifier accepts opens the manager area and the session endpoint for its lifetime.
- `Drivers` (`src/app/api/drivers/route.ts`): the plant-scoped filter of active drivers and their order by name, as an insertion sort proved sorted and a permutation.
- `Session` (`src/app/api/auth/manager/session/route.ts`): the claims of the current token.

Three modules are shared:

- `Js` models the JavaScript semantics the handlers depend on:
  - JSON values and truthiness;
  - destructuring of a parsed body;
  - `String(n)` and ToString, which throws a TypeError on an object with its own `toString` key (a parsed value is never callable), so such a `bottle_count` ends in the entries routes' catch as a 401;
  - `parseInt(s, 10)` as section 19.2.5 of ECMA-262 defines it: StrWhiteSpace is trimmed, then an optional sign, then the longest run of decimal digits.
- `Http` holds responses and status codes.
- `Tokens` defines session claims. JWT verification is represented by a function-typed parameter.

The database, the stored procedures, the JWT signer and verifier, the clock and `NODE_ENV` are parameters. Each handler's store call is an oracle argument: a row sequence, a flag for a store error, or a procedure result.

Some of the source's behaviour is easy to miss:

- Login never checks the PIN's format; only truthiness is checked.
- A credential-check error object is a 401, like no match. Only an exception gives 500.
- Manager update does not require a username or a PIN.
- A missing `JWT_SECRET` is not fatal. It becomes a 401, a redirect to login or a 500, depending on the handler.
- Only the drivers route checks the `plant_id` claim, and it answers with its own message. The entries routes do not check it at all.

The model also exposes a behaviour of the page. The last entry is replaced only when its fetch completes; selecting a driver does not clear it. So "edit" pressed right after switching drivers, before the new driver's fetch completes, edits the previous driver's entry (`Dashboard.EditAfterSwitch`).

## Model

| member | source | states |
|---|---|---|
| Js.Field | src/app/api/entries/route.ts:24 | destructuring a parsed object reads the key's value, or `undefined` when the key is absent or the value is not an object; it requires a value other than `null`/`undefined`, which throw |
| Js.NatToStringIsNumeral | src/app/m/dashboard/page.tsx:108 | `String(n)` of a non-negative integer is a numeral (no leading zero) whose decimal value is `n` |
| Js.TrimStartDropsLeadingSpace | src/app/api/entries/route.ts:30 | parseInt's trimming removes exactly the leading StrWhiteSpace: what it drops is white space, and the suffix it keeps does not start with any |
| Js.DigitPrefixIsLongest | src/app/api/entries/route.ts:30 | the digits parseInt reads are a prefix of the input and end at the input's end or at a non-digit |
| Js.DigitPrefixStopsAtNonDigit | src/app/api/entries/route.ts:30 | on digits followed by a non-digit, the digit run read is exactly those digits |
| Js.TrimStartSkips | src/app/api/entries/route.ts:30 | trimming skips any run of white space up to the first other character |
| Js.ParseIntReadsDigitPrefix | src/app/api/entries/route.ts:30 | on white space, an optional `-`, digits `z`, then anything not starting with a digit, parseInt yields `z`'s value, negated after `-` |
| Js.ParseIntOfIntToString | src/app/api/entries/route.ts:30 | round trip: `parseInt(String(n), 10) == n` for every integer |
| Js.ParseIntOfDigits | src/app/api/entries/route.ts:30 | a non-empty digit string parses to its decimal value |
| Js.NumeralValuePositive | src/app/api/entries/route.ts:31 | a numeral other than "0" has a positive value, so it passes the `count <= 0` check |
| Js.ParseIntTrailingExample | src/app/api/entries/route.ts:30 | `"12abc"` parses to 12 |
| Js.ParseIntHexExample | src/app/api/entries/route.ts:30 | radix 10 does not read `0x`: `"0x10"` parses to 0 |
| Js.ParseIntExponentExample | src/app/api/entries/route.ts:30 | no exponent is read: `"1e3"` parses to 1 |
| Js.ParseIntSignExample | src/app/api/entries/route.ts:30-31 | `"-5"` parses to -5; `"abc"` and `""` are NaN |
| Js.ParseIntWhiteSpaceExample | src/app/api/entries/route.ts:30 | leading space, line feed and `+` are skipped: `" \n+7"` parses to 7 |
| Js.ParseIntLeadingZeroExample | src/app/api/entries/route.ts:30 | leading zeros are digits: `"05"` parses to 5 |
| Js.ParseIntSpaceOrPlusExample | src/app/api/entries/route.ts:30 | `" 5"` and `"+5"` parse to 5 |
| Js.ToStringExamples | src/app/api/entries/route.ts:30 | ToString of a string is itself, a one-element array its element, `[1, null, "x"]` is `"1,,x"`, an object is "[object Object]", and an object with its own `toString` key, alone or inside an array, throws |
| Http.UncaughtException | src/app/api/managers/route.ts:15 | an exception that escapes a handler is the framework's 500 |
| Tokens.Verify | src/app/api/auth/manager/session/route.ts:12-16 | with `JWT_SECRET` set and non-empty the claims are exactly the verifier's answer for that secret, token and time; without it verification fails |
| Middleware.Gate | src/middleware.ts:4-51 | the cookie is only ever written as the clearing write (value '' expiring at epoch 0) on a redirect to login; every redirect goes to login or the dashboard |
| Middleware.Route | src/middleware.ts:53-64 | a path the matcher does not select proceeds untouched |
| Middleware.ProtectedPaths | src/middleware.ts:9 | `/m`, `/mx` and `/m/login` are unprotected, the dashboard is protected, and `/m/<rest>` is protected exactly when it is not the login page |
| Middleware.NoCookieRedirectsToLogin | src/middleware.ts:10-12 | a protected path without the cookie redirects to login and leaves the cookie alone |
| Middleware.RejectedCookieIsCleared | src/middleware.ts:14-31 | a protected path whose cookie fails verification, or with no secret set, redirects to login and clears the cookie |
| Middleware.ValidCookieProceeds | src/middleware.ts:19-22 | a protected path with a valid cookie proceeds unchanged |
| Middleware.LoginPage | src/middleware.ts:35-47 | at the login page a valid cookie redirects to the dashboard; an invalid or absent one proceeds, with the cookie not cleared |
| Middleware.RedirectCases | src/middleware.ts:9-50 | the dashboard redirect happens iff the path is the login page with a valid cookie; the cookie is written iff a protected path has a rejected cookie; other paths proceed |
| Middleware.MatcherCoversManagerArea | src/middleware.ts:62 | every path under `/m/` is gated, and `/api/...` never is |
| Middleware.ClearedCookieReachesLogin | src/middleware.ts:28-35 | after the clearing redirect the browser holds no cookie, and the login page proceeds |
| Middleware.NoRedirectLoop | src/middleware.ts:9-50 | from any path and cookie, at most two redirects lead to a served page, which is the requested one, login or the dashboard |
| Entries.CheckInput | src/app/api/entries/route.ts:27-33 | a falsy field is the "required" error; for truthy fields, ToString throwing gives `Threw`, and otherwise the count is accepted exactly when parseInt reads an integer of at least 1, as that integer, and rejected with the positive-number error when not |
| Entries.AcceptsPositiveNumber | src/app/api/entries/route.ts:30-33 | every positive JSON number is accepted as itself |
| Entries.AcceptsPositiveString | src/app/api/entries/route.ts:30-33 | every positive integer written as a string is accepted as its value |
| Entries.RejectsNonPositive | src/app/api/entries/route.ts:31-33 | zero and negative integers are rejected, as numbers or as strings |
| Entries.TrailingTextIgnored | src/app/api/entries/route.ts:30 | `"12abc"` is accepted as 12 |
| Entries.ZeroStringRejected | src/app/api/entries/route.ts:27-33 | `"0"` is truthy but rejected as not positive |
| Entries.NegativeAndTextRejected | src/app/api/entries/route.ts:30-33 | `"-5"` and `"abc"` are rejected as not positive |
| Entries.AcceptsWhatParseIntReads | src/app/api/entries/route.ts:30-33 | `" 5"`, `"+5"`, `"05"` and `["7"]` are accepted as 5, 5, 5 and 7 |
| Entries.NonCallableToStringThrows | src/app/api/entries/route.ts:30 | a count `{"toString": 0}`, or an array holding one, makes parseInt throw |
| Entries.FalsyCountRejected | src/app/api/entries/route.ts:27-29 | a count of 0 or a missing count fails the required-field check |
| Entries.UtcDate | src/app/api/entries/route.ts:75 | today is the prefix of the ISO timestamp up to its first 'T' |
| Entries.UtcDateOfTimestamp | src/app/api/entries/route.ts:75 | the date of `day + "T" + time` is `day` |
| Entries.CreateStep | src/app/api/entries/route.ts:10-33 | no cookie gives 401 "Not authenticated"; a rejected token, a body that is not JSON or not destructurable, or a throwing parseInt give 401 "Invalid or expired session"; a rejected field gives 400 with its message; an accepted count goes on as the body's `driver_id`, the token's manager id and the parsed count |
| Entries.ManagerIdNotFromBody | src/app/api/entries/route.ts:21-43 | a `manager_id` in the body changes nothing |
| Entries.CreateChecksSessionFirst | src/app/api/entries/route.ts:16-24 | with no cookie or a rejected token the answer does not depend on the body |
| Entries.LookupStep | src/app/api/entries/route.ts:60-71 | no cookie gives 401 "Not authenticated"; with a cookie, a missing or empty `driver_id` is 400 before the token is checked; with a driver id, a rejected token gives 401 "Invalid or expired session" and a verified one runs the query for the token's manager and that driver |
| Entries.Latest | src/app/api/entries/route.ts:77-85 | the row found is one of the table's rows for this manager, driver and day, with the greatest `created_at`; none is found iff no row matches |
| Entries.NewestEntryIsReturned | src/app/api/entries/route.ts:77-85 | a row newer than the day's others is what the query returns |
| Entries.LatestAnswer | src/app/api/entries/route.ts:60-101 | GET answers LookupStep's refusal, 500 on a store error, 404 "No entry found for today." exactly when no row of today matches, and otherwise 200 with a matching row of greatest `created_at` |
| Entries.UpdateStep | src/app/api/entries/route.ts:103-121 | the same order as POST with `entry_id`: 401 for the cookie, the token, an unreadable body or a throwing parseInt; 400 with the field's message; an accepted count goes on as the body's `entry_id`, the token's manager id and the parsed count |
| Entries.IndexOfId | src/app/api/entries/route.ts:126-130 | the position found holds the id; none is found iff no row has it |
| Entries.OwnershipStep | src/app/api/entries/route.ts:103-138 | PUT's refusals after validation are only 404 and 403; 404 "Entry not found." exactly when the lookup fails, the id selects nothing or no row has it; 403 only for an existing row of another manager; what goes on is a row of this manager with that id and the parsed count |
| Entries.OtherManagersRowForbidden | src/app/api/entries/route.ts:126-138 | an existing row of another manager gives 403, not 404 |
| Entries.OwnerCanEdit | src/app/api/entries/route.ts:126-146 | with distinct ids, an accepted PUT by the row's own manager goes on to update exactly that row with the parsed count |
| Entries.SetCountKeepsIdsDistinct | src/app/api/entries/route.ts:141-146 | changing one row's count keeps the table's ids distinct |
| Entries.AppendKeepsIdsDistinct | src/app/api/entries/route.ts:37-45 | inserting a row with the next id keeps ids distinct |
| Entries.EntryTable.Post | src/app/api/entries/route.ts:35-52 | a refused request leaves the table unchanged; a store error is 500 "Failed to save entry."; otherwise exactly one row is appended, holding the token's manager, the driver and the parsed count, and returned with 201 |
| Entries.EntryTable.GetLatest | src/app/api/entries/route.ts:60-101 | the answer is `LatestAnswer` of the current rows, and the table is not changed |
| Entries.EntryTable.Put | src/app/api/entries/route.ts:140-153 | after the checks pass, only `bottle_count` of the one row changes, every other row is unchanged, and the updated row is returned with 200; a refusal or store error changes nothing |
| Entries.SaveThenQuery | src/app/api/entries/route.ts:37-96 | an entry saved and then queried the same day is what GET returns when it is the day's newest |
| Drivers.NameLeTotal | src/app/api/drivers/route.ts:36 | the name order is total |
| Drivers.NameLeTransitive | src/app/api/drivers/route.ts:36 | the name order is transitive |
| Drivers.NameLeAntisymmetric | src/app/api/drivers/route.ts:36 | names that precede each other are equal |
| Drivers.ActiveOf | src/app/api/drivers/route.ts:31-35 | a driver is selected iff some row has the plant, is active and projects to it |
| Drivers.ActiveOfKeepsOrder | src/app/api/drivers/route.ts:31-35 | the filter keeps table order and multiplicity: it maps a concatenation to the concatenation of the parts, and one row to itself when it is selected, otherwise to nothing |
| Drivers.InsertByName | src/app/api/drivers/route.ts:36 | insertion adds exactly the one element |
| Drivers.SortByName | src/app/api/drivers/route.ts:36 | sorting is a permutation |
| Drivers.InsertKeepsSorted | src/app/api/drivers/route.ts:36 | inserting into a sorted list keeps it sorted |
| Drivers.SortByNameSorted | src/app/api/drivers/route.ts:36 | the result is in ascending name order |
| Drivers.ListDrivers | src/app/api/drivers/route.ts:13-48 | every answer is 200 or an error body; no cookie gives 401 "Not authenticated", a rejected token 401 "Invalid or expired session", an empty `plant_id` 401 "Invalid session: plant_id missing.", a store error 500 "Failed to fetch drivers.", and otherwise 200 with a name-sorted permutation of the plant's active drivers |
| Drivers.ListingIsPlantsActiveDrivers | src/app/api/drivers/route.ts:31-43 | a listing is sorted by name and a permutation of the plant's active drivers; a driver is listed iff such a row projects to it |
| Drivers.OtherPlantsNeverListed | src/app/api/drivers/route.ts:34-35 | a driver of another plant, or an inactive one, is not listed |
| Drivers.SessionCheckedBeforeQuery | src/app/api/drivers/route.ts:19-41 | a rejected token is 401 "Invalid or expired session", an empty `plant_id` 401 "Invalid session: plant_id missing.", and a store error 500 "Failed to fetch drivers.", in that order |
| Dashboard.PressKeepsNumeral | src/app/m/dashboard/page.tsx:61-71 | one pad press keeps the count a numeral, no longer than four digits or than it was |
| Dashboard.PressesKeepNumeral | src/app/m/dashboard/page.tsx:61-71 | any sequence of pad presses does the same |
| Dashboard.TypedFromZero | src/app/m/dashboard/page.tsx:18-71 | from the initial "0", the count stays a numeral of at most four digits |
| Dashboard.DigitEdgeCases | src/app/m/dashboard/page.tsx:62-66 | a digit replaces "0" ('0' on "0" stays "0"); at four digits a digit changes nothing |
| Dashboard.DeleteUndoesDigit | src/app/m/dashboard/page.tsx:64-71 | delete right after a digit on a non-"0" count under four digits restores it |
| Dashboard.DigitAppendsPlace | src/app/m/dashboard/page.tsx:61-67 | an appended digit becomes the new last decimal place: value `10 * old + digit` |
| Dashboard.DeleteDropsPlace | src/app/m/dashboard/page.tsx:69-71 | delete keeps a numeral, and its value is the old value divided by ten |
| Dashboard.LastEntryFrom | src/app/m/dashboard/page.tsx:33-46 | the last entry is the payload of a 2xx answer; any other answer, or a failed request, clears it |
| Dashboard.LastEntryIsTodaysNewest | src/app/m/dashboard/page.tsx:33-46 | the last entry kept after GET answers is exactly today's newest row of that manager and driver when the session and query succeed, and none otherwise, including a 404 |
| Dashboard.SubmittedCountAccepted | src/app/m/dashboard/page.tsx:79-86 | any count the page can submit passes the route's validation as the number shown |
| Dashboard.PostReachesStore | src/app/m/dashboard/page.tsx:84-89 | a POST the page sends passes every check of the route and asks for a row of that driver with the count shown |
| Dashboard.EditWithoutEntryRefused | src/app/m/dashboard/page.tsx:85 | a PUT in edit mode without a last entry carries no `entry_id` and is refused with 400 |
| Dashboard.StoredCountShown | src/app/m/dashboard/page.tsx:108 | a stored count, written by `String`, is a numeral other than "0" that parseInt reads back |
| Dashboard.PutReachesStore | src/app/m/dashboard/page.tsx:83-89 | a PUT with a last entry passes the route's checks and asks to set that entry to the count shown |
| Dashboard.EditRoundTrip | src/app/m/dashboard/page.tsx:105-110 | submitting the edited count unchanged asks to set the entry to the count it already has |
| Dashboard.ManagerDashboard.constructor | src/app/m/dashboard/page.tsx:17-24 | the initial state: no driver, count "0", pad hidden, nothing in flight, no last entry, not editing |
| Dashboard.ManagerDashboard.DigitClick | src/app/m/dashboard/page.tsx:61-67 | the count becomes the digit press's result and stays a numeral, never longer than four digits or than it was; nothing else changes |
| Dashboard.ManagerDashboard.DeleteClick | src/app/m/dashboard/page.tsx:69-71 | the count becomes the delete's result, a numeral with a tenth of the value; nothing else changes |
| Dashboard.ManagerDashboard.SelectDriver | src/app/m/dashboard/page.tsx:114 | the driver is selected, the count is "0", the pad is hidden and edit mode is off |
| Dashboard.ManagerDashboard.TogglePad | src/app/m/dashboard/page.tsx:117 | only the pad's visibility flips |
| Dashboard.ManagerDashboard.ReceiveLastEntry | src/app/m/dashboard/page.tsx:33-46 | only the last entry changes, to the fetch's outcome |
| Dashboard.ManagerDashboard.EditClick | src/app/m/dashboard/page.tsx:105-110 | without a last entry nothing changes; otherwise edit mode is on, the pad is shown, and the count is the stored count's numeral, never "0" |
| Dashboard.ManagerDashboard.BeginSubmit | src/app/m/dashboard/page.tsx:78-89 | nothing is sent with no driver, count "0" or a submit in flight; otherwise the PUT or POST request for the current state is sent and the submit is in flight |
| Dashboard.ManagerDashboard.FinishSubmit | src/app/m/dashboard/page.tsx:88-102 | after a 2xx answer the count, pad and edit mode are reset; after any other answer, or a request that throws, they are kept; in both cases the submit is no longer in flight |
| Dashboard.RefusedEditNotSucceeded | src/app/m/dashboard/page.tsx:85-91 | the PUT the page sends without a last entry gets an answer that is not a success, so the typed count and edit mode are kept |
| Dashboard.DoubleSubmitSendsOnce | src/app/m/dashboard/page.tsx:78-80 | after typing a count, the first submit sends it and a second one while in flight sends nothing |
| Dashboard.EditAfterSwitch | src/app/m/dashboard/page.tsx:48-54 | edit pressed after switching drivers, before the new fetch completes, sends a PUT of the previous driver's entry |
| Dashboard.DriverChanged | src/app/m/dashboard/page.tsx:48-54 | with a driver selected, the page holds the store's newest row of today for it and the signed-in manager, or none; without a driver it holds none |
| Managers.CreateStage | src/app/api/managers/route.ts:4-23 | no user gives 401; a signed-in user with a body that is not JSON or is `null` gets the framework's 500; the procedure is called iff the body can be destructured, `username` is truthy and `pin` is six ASCII digits, with those two fields; otherwise 400 "required" for a falsy field or 400 PIN format |
| Managers.MapRpc | src/app/api/managers/route.ts:32-46 | data is the success status; error code '23505' is 409 "This username is already taken."; any other error object is 400 with its message; an exception is 500 |
| Managers.Create | src/app/api/managers/route.ts:4-47 | POST answers before the call, or maps the procedure's answer with 201 for success |
| Managers.OrNull | src/app/api/managers/route.ts:100-101 | a falsy value is passed on as `null`, a truthy one as itself |
| Managers.UpdateStage | src/app/api/managers/route.ts:79-101 | no user gives 401; an unreadable or `null` body is the framework's 500; the procedure is called iff the body can be destructured, `id` is truthy and a truthy `pin` is six digits, and then with the id, the username and the PIN, each falsy one replaced by `null`; otherwise 400 for the id or the PIN format |
| Managers.Update | src/app/api/managers/route.ts:79-116 | PUT answers before the call, or maps the procedure's answer with 200 for success |
| Managers.DeleteStage | src/app/api/managers/route.ts:49-61 | no user gives 401; a missing or empty `id` gives 400; otherwise the procedure is called with the id |
| Managers.DeleteReply | src/app/api/managers/route.ts:63-76 | success is 200 with the message and the returned id; every error object is 400 with its message; an exception is 500 |
| Managers.Delete | src/app/api/managers/route.ts:49-77 | DELETE answers before the call, or with the mapping of the procedure's answer |
| Managers.SignInCheckedFirst | src/app/api/managers/route.ts:9-85 | without a user all three handlers answer 401, whatever the body or query |
| Managers.PinExamples | src/app/api/managers/route.ts:21 | six ASCII digits pass; five, seven, a trailing line feed, a letter, a number and non-ASCII digits do not |
| Managers.NumericPinRefused | src/app/api/managers/route.ts:21-23 | a PIN sent as the number 123456 is refused with 400 before the procedure |
| Managers.EmptyFieldsBecomeNull | src/app/api/managers/route.ts:87-102 | every falsy PIN (absent, `""`, `0`, `false`, `null`) is sent as `null` and a falsy username likewise, while a given username is sent as it is: updating only the username never sends a PIN |
| Managers.UnreadableBodyUncaught | src/app/api/managers/route.ts:15 | for a signed-in user, a `POST` or `PUT` body that is not JSON or is `null` is the framework's 500 and the procedure is not called |
| Managers.UniqueViolationMapping | src/app/api/managers/route.ts:34-38 | '23505' is 409 on create and update but 400 on delete; other codes pass their message as 400 |
| Managers.CalledStatuses | src/app/api/managers/route.ts:25-46 | once the procedure is called, the status is 201, 409, 400 or 500 |
| Login.TokenFor | src/app/api/auth/manager/login/route.ts:26-42 | the token is HS256, its claims are the row's id, plant, role and username, issued now and expiring 86400 s later |
| Login.CookieFor | src/app/api/auth/manager/login/route.ts:45-50 | the cookie is `manager_session`, http-only, path `/`, max-age 86400, and secure iff `NODE_ENV` is not "development" |
| Login.SignIn | src/app/api/auth/manager/login/route.ts:4-58 | a cookie is set iff the answer is 200; a 200 needs a readable body, a secret and a matched row, and its cookie holds the signed token of that row's claims |
| Login.RequiredBeforeCheck | src/app/api/auth/manager/login/route.ts:10-12 | a missing username or PIN is 400, whatever the procedure would answer |
| Login.FailedChecksLookAlike | src/app/api/auth/manager/login/route.ts:16-23 | an error object and no match both give 401 "Invalid username or PIN." |
| Login.MatchedRowLogsIn | src/app/api/auth/manager/login/route.ts:16-52 | a matched row with a secret set gives 200 "Login successful" with the session cookie; an exception gives 500 without one |
| Login.UnreadableBodyUncaught | src/app/api/auth/manager/login/route.ts:8 | a body that is not JSON, or is `null`, is the framework's 500, with no cookie |
| Login.NoSecretNoCookie | src/app/api/auth/manager/login/route.ts:34-36 | without a secret a matched row gives 500 "An internal error occurred." and no cookie |
| Login.CookieLifetimeMatchesToken | src/app/api/auth/manager/login/route.ts:41-48 | the cookie's max-age equals the token's `exp - iat`, 86400 s |
| Login.LoginOpensSession | src/app/api/auth/manager/login/route.ts:38-52 | with a signer and verifier that agree, the cookie set at login passes the gate on every protected path, and the session endpoint reports the row's claims until the token expires |
| Session.CurrentSession | src/app/api/auth/manager/session/route.ts:4-24 | the answer is 200 or 401, and 200 exactly when a cookie is present and verifies |
| Session.SessionAnswers | src/app/api/auth/manager/session/route.ts:7-23 | no cookie is "Not authenticated", a rejected token "Invalid or expired session", and a verified one returns the verifier's payload unchanged |
| Session.NoSecretNoSession | src/app/api/auth/manager/session/route.ts:12-15 | without a secret the answer is always 401 |

## Left out

- JWT signing and verification, which belong to the `jose` library, are parameters: HS256 per section 3.2 of RFC 7518, and the `exp`/`iat` checks of RFC 7519. `Login.LoginOpensSession` assumes a signer and verifier that agree, as a precondition.
- Supabase queries are oracle arguments. This covers row-level security, the four stored procedures and `auth.getUser`. A store error is a flag, and a procedure result is a value.
- The database stamps `entry_date` and `created_at`; `EntryTable.Post` takes them as parameters.
- How the store coerces values is modelled on values, not with Postgres rules:
  - a `driver_id` number is kept as its decimal text;
  - an `entry_id` that is neither a non-negative number nor a digit string selects no row. The store's own filter is the text `eq.<value>`, and Postgres integer input accepts surrounding white space and a leading `+`. So `" 5"`, `"+5"` or `[5]` would select row 5 in the store, where the model answers 404. The page only ever sends a number.
- Entries.EntryTable.GetLatest: when several rows of the day share the greatest `created_at`, the model returns one of them; the store's tie order is not modelled.
- Drivers.SortByName: name order is code-point order. Postgres collation is not modelled, and the order among equal names is the sort's own.
- JSON numbers are unbounded integers. Fractions, exponents and double-precision rounding are not modelled, so `parseInt` of a fractional number's text is not covered.
- A claim missing from the token is the empty string, which is falsy, like the missing or `undefined` claim it stands for.
- The race between concurrent first POSTs of the same day is not modelled, because each handler is modelled one request at a time.
- The page's asynchrony is split into steps: `BeginSubmit`, then `FinishSubmit`, and a fetch completing is `ReceiveLastEntry`. Interleavings are the caller's choice of call order.
- The session fetch and `router.push` on the page are not modelled. Notifications and their `setTimeout` are not modelled. Rendering is not modelled, including the disabled states of its buttons; the handlers' own guards are modelled.
- Dashboard.ManagerDashboard.DigitClick requires a digit character, which is all the number pad offers.
- Dashboard.EditRoundTrip and Dashboard.PutReachesStore require an entry id of at least 1. The store's ids start at 1, and an `entry_id` of 0 is falsy.
- The driver id is put into the query string without encoding; the model passes it to GET unchanged, as if it held no `&`, `#`, `+` or `%`.
- The logout route, the Supabase client setup and the signup, sidebar, number-pad layout and owner dashboard pages are not part of this model. They hold no decision logic beyond a cookie write, configuration checks and rendering.
