# Resident portal: authentication, access control and form handling

This project is a Dafny model of the core of a SvelteKit front end for a residential
building portal, backed by Supabase for identity and data. It covers:

- **The server request hook** (`src/hooks.server.ts`), in module `Hooks`:
  - the cookie writer that forces every provider cookie to path `/`;
  - `safeGetSession`, which trusts a locally decoded session only after the provider has
    verified it, and otherwise resolves to "nobody";
  - `authGuard`, which stores the resolved identity in the request's locals and sends
    every `/admin…` request either to the login page or to `/unauthorized`, unless the
    user's `app_metadata.role` is `admin`.
- **The client stores**:
  - `UserStore`: the user record and `signOut`;
  - `ThemeStore`: the theme store and its effects on local storage and on the document's
    `dark` class.
- **The root layout load** (`Layout`): the cookie reader given to the browser client, and
  the session handed on to the pages.
- **The page handlers**:
  - `Preregister`: a resident pre-registers a visitor;
  - `Visitors`: a resident lists and cancels their own pre-registrations;
  - `DailyVisitors`: administrators see the visitors expected on a day;
  - `NewBuilding`: administrators create a building;
  - `Buildings`: administrators list the buildings.

  Each handler's own guard, validation schema, database request, and success and error
  results are modelled.
- **`AccessMatrix`**: relates the hook's gate to the handlers' guards. On `/admin` paths the
  gate and the handlers agree. The building list's own check is weaker than the gate. The
  visitor pages admit exactly the verified sessions.

The code talks to the outside world through Supabase. Every such call is a parameter of the
model:

- the locally decoded session and the verification result;
- the provider's sign-out error;
- a query's answer (`QueryResult`: the rows, or an error message);
- an insert or update error (`Option<string>`).

Dates that JavaScript parses, the clock, local storage, the `prefers-color-scheme` query and
`Number(text)` are parameters too.

A query's filter and ordering are not re-implemented. The module `Listing` states what a
correct answer is: the table's rows that pass the filter, each as often as in the table, in
an order consistent with the `order` clauses. It proves such an answer always exists. The
listing lemmas then prove what a page shows when the database answers correctly.

Signing out clears the user and session only when the provider accepts it
(`src/lib/stores/userStore.ts:37`). When the provider reports an error, only `error` and
`loading` change (`src/lib/stores/userStore.ts:27-29`), and the store keeps the identity it
held. The comments at `src/lib/stores/userStore.ts:31-35` leave the signed-out state to an
auth listener that is not part of this model. `UserStore.SignOutErrorKeepsIdentity` states
the error branch for every starting state.

## Model

| member | source | states |
|---|---|---|
| Types.IsAdmin | src/hooks.server.ts:77-78 | `user.app_metadata?.role === 'admin'` on a user that may be missing; the same test appears at admin/visitors/daily/+page.server.ts:7 and admin/buildings/new/+page.server.ts:18 and 26 |
| Types.Authenticated | src/hooks.server.ts:72 | `session && user`: both halves of the identity are present; the same test appears at visitors/+page.server.ts:6 and 33, visitors/preregister/+page.server.ts:18 and 31, and admin/visitors/daily/+page.server.ts:7 |
| Types.LoginRedirect | src/hooks.server.ts:73 | The login location is the login path followed by the return page, unencoded and recoverable from the suffix; it is never the unauthorized page |
| Strings.IndexOfFromIsFirst | src/routes/+layout.ts:39 | The separator search returns the first occurrence at or after the start, and finds one whenever one exists |
| Strings.Split | src/routes/+layout.ts:38-39 | `split` always gives at least one piece; its meaning is carried by the two lemmas below |
| Strings.SplitPiecesAvoidSep | src/routes/+layout.ts:38 | No piece of a `split` contains the separator |
| Strings.Join | src/routes/+layout.ts:40 | `join`: the pieces with the separator between each two; its meaning is stated by the next row |
| Strings.JoinSplit | src/routes/+layout.ts:38-40 | Joining the pieces of a `split` with the same separator gives back the original string |
| Strings.ParseNatToString | src/routes/admin/visitors/daily/+page.server.ts:28-30 | The decimal text of a natural number reads back as that number |
| Strings.IntToString | src/routes/admin/visitors/daily/+page.server.ts:29-31 | `String(n)`: a minus sign exactly for a negative number, followed by the digits of its magnitude; digits only otherwise |
| Strings.PadStart | src/routes/admin/visitors/daily/+page.server.ts:29-30 | `padStart`: a text already as long as the width is unchanged; a shorter one gets the fill characters in front, up to exactly the width |
| Strings.ParseIntToString | src/routes/admin/visitors/daily/+page.server.ts:28 | `String(n)` of any integer, sign included, reads back as `n` |
| Strings.TrimStart | src/routes/admin/buildings/new/+page.server.ts:35 | Leaves a suffix of the text that does not start with white space, and everything removed is white space |
| Strings.TrimEnd | src/routes/admin/buildings/new/+page.server.ts:35 | Leaves a prefix of the text that does not end with white space, and everything removed is white space |
| Strings.Trim | src/routes/admin/buildings/new/+page.server.ts:35 | The result is a contiguous piece of the text with only white space before and after it, and it is empty or neither starts nor ends with white space |
| Strings.TrimEmptyIffBlank | src/routes/admin/buildings/new/+page.server.ts:35 | `trim() === ''` exactly when every character is ECMAScript white space or a line terminator |
| Strings.IsBlank | src/routes/admin/buildings/new/+page.server.ts:35 | Every character is one that `trim()` removes |
| Strings.PadTwoDigits | src/routes/admin/visitors/daily/+page.server.ts:29-30 | `padStart(2, '0')` of a number from 1 to 99 is its two-digit form |
| Layout.ParseEntry | src/routes/+layout.ts:39-40 | The map callback: the first piece of the split on `=` is the name and the rest, joined with `=`, the value; its meaning is stated by the next row |
| Layout.ParseEntryCutsAtFirstEquals | src/routes/+layout.ts:39-40 | A cookie's name is the text before its first `=` and contains no `=`; name, `=` and value rebuild the entry; an entry without `=` is all name with an empty value |
| Layout.ParseCookieString | src/routes/+layout.ts:38-41 | One pair per `; `-separated entry, in order, each cut by the entry rule |
| Layout.ParseCookieStringSegments | src/routes/+layout.ts:38 | The entries rebuild the cookie string when joined with `; ` and none contains `; ` |
| Layout.ParsedNamesAvoidEquals | src/routes/+layout.ts:38-41 | No parsed cookie name contains `=` |
| Layout.EmptyCookieString | src/routes/+layout.ts:38-41 | An empty `document.cookie` still yields one pair with empty name and value |
| Layout.GetAll | src/routes/+layout.ts:30-42 | Off the browser: the access-token pair when the server passed a session, else nothing; in the browser: the parse of `document.cookie`, hence at least one pair and no name containing `=` |
| Layout.Load | src/routes/+layout.ts:64-68 | The layout hands on the server's session unchanged, whatever the client-side lookup found |
| Hooks.SafeGetSession | src/hooks.server.ts:33-51 | Session and user are present together, exactly when a session was decoded and the provider verified it; they are then the decoded session and the verified user |
| Hooks.NoDecodedSessionIgnoresVerify | src/hooks.server.ts:34-39 | Without a decoded session the result is "nobody", whatever verification would say |
| Hooks.FailClosed | src/hooks.server.ts:41-48 | A failed verification drops both session and user |
| Hooks.StartsWith | src/hooks.server.ts:71 | `startsWith`: the text begins with the prefix, compared character by character |
| Hooks.GateDecision | src/hooks.server.ts:70-90 | Passes exactly the requests the policy allows; every redirect is 303; login redirect exactly for an `/admin` path without identity; `/unauthorized` exactly for an authenticated non-admin on such a path |
| Hooks.AdministratorIsGated | src/hooks.server.ts:71 | The raw prefix test also gates `/administrator` for non-admins |
| Hooks.ResolvedIdentityGate | src/hooks.server.ts:64-91 | With the hook's own resolution, a request passes exactly when the path is outside `/admin` or the verified user's role is `admin` |
| Hooks.AuthGuard | src/hooks.server.ts:64-91 | Stores the resolved session and user in the locals, then decides as the gate does on what it stored |
| Hooks.WithRootPath | src/hooks.server.ts:22 | Name and value kept; options gain `path` set to `/`; every other option kept |
| Hooks.CookieJar.SetAll | src/hooks.server.ts:20-24 | Appends one cookie per request, in order, each with path `/`; earlier cookies untouched |
| UserStore.AfterSignOut | src/lib/stores/userStore.ts:27-38 | Never loading afterwards; on error, records the message and keeps user and session; on success, clears both and keeps the previous error |
| UserStore.SignOutErrorKeepsIdentity | src/lib/stores/userStore.ts:23-29 | For any starting state, a refused sign-out changes only the message and the end of loading: user and session survive |
| UserStore.SignOutSettles | src/lib/stores/userStore.ts:22-39 | A second successful sign-out changes nothing, and a refused one before a successful one leaves only its message behind |
| UserStore.UserStoreCell.constructor | src/lib/stores/userStore.ts:12-19 | The store starts with no user, no session, loading, no error |
| UserStore.UserStoreCell.BeginSignOut | src/lib/stores/userStore.ts:23 | Only `loading` changes, to true |
| UserStore.UserStoreCell.FinishSignOut | src/lib/stores/userStore.ts:27-38 | The store becomes the sign-out result for the provider's answer |
| UserStore.UserStoreCell.SignOut | src/lib/stores/userStore.ts:22-39 | The two updates compose to the sign-out result, and loading ends false |
| ThemeStore.Toggled | src/lib/stores/themeStore.ts:28 | Toggling always changes the theme |
| ThemeStore.ToggleTwiceRestores | src/lib/stores/themeStore.ts:28 | Toggling twice gives back the original theme |
| ThemeStore.StoredTheme | src/lib/stores/themeStore.ts:9-13 | A stored theme exactly when in the browser with `theme` stored as `dark` or `light`, and then its name is the stored text |
| ThemeStore.SystemPreference | src/lib/stores/themeStore.ts:16-19 | Dark exactly in a browser that prefers dark |
| ThemeStore.InitialTheme | src/lib/stores/themeStore.ts:22 | The stored theme when there is one, else the system preference; always light off the browser |
| ThemeStore.ClassesFor | src/lib/stores/themeStore.ts:45-49 | `dark` present exactly for the dark theme; no other class changes |
| ThemeStore.ThemeState.constructor | src/lib/stores/themeStore.ts:43-59 | Starts on the initial theme; in the browser, storage holds its name and the class matches it; off the browser, nothing is touched |
| ThemeStore.ThemeState.Subscriber | src/lib/stores/themeStore.ts:44-51 | Afterwards storage and the document reflect the theme; only the `theme` key and the `dark` class change |
| ThemeStore.ThemeState.Toggle | src/lib/stores/themeStore.ts:26-39 | The theme flips; in the browser storage and class follow it and keep reflecting it; off the browser neither changes |
| ThemeStore.ThemeState.SetTheme | src/lib/stores/themeStore.ts:62-65 | The theme becomes the argument; storage and class change only in the browser and only when the value changed; they keep reflecting the theme |
| Listing.Filter | src/routes/visitors/+page.server.ts:13 | The kept rows are a sub-multiset of the table, all pass the filter, and each passing row keeps its multiplicity |
| Listing.ListingMembers | src/routes/visitors/+page.server.ts:10-15 | A correct answer holds exactly the table's rows that pass the filter |
| Listing.Insert | src/routes/visitors/+page.server.ts:14-15 | Reference construction, not in the source (the database carries out the `order` clauses): insertion adds exactly one element |
| Listing.InsertSorted | src/routes/visitors/+page.server.ts:14-15 | Reference construction, not in the source: insertion into a sorted sequence keeps it sorted under a total preorder |
| Listing.Sort | src/routes/visitors/+page.server.ts:14-15 | Reference construction, not in the source: the sort is a permutation, used only to show that an ordered answer exists |
| Listing.SortSorted | src/routes/visitors/+page.server.ts:14-15 | Reference construction, not in the source: the sort's result is sorted |
| Listing.ListingExists | src/routes/visitors/+page.server.ts:10-15 | Every table has a correct answer to a filtered, ordered query |
| Visitors.ByDateThenTime | src/routes/visitors/+page.server.ts:14-15 | The two `order` clauses: date ascending, then time ascending with unset times last; its properties are stated by the next row |
| Visitors.ByTime | src/routes/admin/visitors/daily/+page.server.ts:43 | Time ascending with unset times last |
| Visitors.ByDateThenTimeIsTotalPreorder | src/routes/visitors/+page.server.ts:14-15 | Date ascending, then time ascending with nulls last, is total and transitive |
| Visitors.ByTimeIsTotalPreorder | src/routes/admin/visitors/daily/+page.server.ts:43 | Time ascending with nulls last is total and transitive |
| Visitors.OwnedBy | src/routes/visitors/+page.server.ts:13 | The `eq('resident_user_id', user.id)` filter: the row belongs to the user |
| Visitors.Load | src/routes/visitors/+page.server.ts:5-29 | Login redirect back to `/visitors` exactly without identity; on a query error an empty list and the fixed message; otherwise the rows, no error |
| Visitors.LoadShowsOwnRowsInOrder | src/routes/visitors/+page.server.ts:10-28 | With a correct answer, the page shows exactly the resident's own rows, by date then time with unset times last |
| Visitors.FindOwned | src/routes/visitors/+page.server.ts:46-55 | A found position holds a row with that id owned by the user; when nothing is found, no such row exists |
| Visitors.CancelMatching | src/routes/visitors/+page.server.ts:65-69 | Matching rows become `cancelled` with the new `updated_at`; all other rows unchanged |
| Visitors.RegistrationTable.CancelRegistration | src/routes/visitors/+page.server.ts:32-83 | Each outcome (401, 400 missing id, 404, 400 not pending, 500 with the prefixed message, success) exactly under its condition, in the source's order; the table changes only on success, to the update's result; ids stay unique |
| Visitors.CancelChangesOneRow | src/routes/visitors/+page.server.ts:65-69 | With unique ids, a successful cancel changes only the found row's status and `updated_at` |
| DailyVisitors.TargetDate | src/routes/admin/visitors/daily/+page.server.ts:14-25 | The query date when it is present, non-empty and valid; otherwise today |
| DailyVisitors.FormatDate | src/routes/admin/visitors/daily/+page.server.ts:28-31 | The text is the year, `-`, the two-digit 1-based month, `-`, the two-digit day |
| DailyVisitors.FourDigitYearGivesTenCharacters | src/routes/admin/visitors/daily/+page.server.ts:28-31 | For years 1000 to 9999 the text is ten characters long |
| DailyVisitors.ParseTwoDigits | src/routes/admin/visitors/daily/+page.server.ts:29-30 | A two-digit field reads back as its number |
| DailyVisitors.ShortYearIsNotIsoForm | src/routes/admin/visitors/daily/+page.server.ts:28-31 | A year below 1000 is not padded, so the text is shorter than `YYYY-MM-DD` |
| DailyVisitors.FormatDateRoundTrip | src/routes/admin/visitors/daily/+page.server.ts:28-31 | Reading the text back gives the year, the 1-based month and the day |
| DailyVisitors.FormatDateInjective | src/routes/admin/visitors/daily/+page.server.ts:28-31 | Different dates never give the same text |
| DailyVisitors.OnDateAndOpen | src/routes/admin/visitors/daily/+page.server.ts:41-42 | The query's filter: expected on the date, and pending or active |
| DailyVisitors.Load | src/routes/admin/visitors/daily/+page.server.ts:5-62 | The page exactly for an authenticated admin, otherwise a 303 to `/unauthorized`; the page always carries the formatted target date; on a query error an empty list and the fixed message; otherwise the rows |
| DailyVisitors.LoadShowsOpenRowsOfTheDay | src/routes/admin/visitors/daily/+page.server.ts:35-43 | For a four-digit target year the selected text has ten characters and reads back as the target date; with a correct answer for that date, the page shows exactly the table's pending and active rows expected on the target date, by time with unset times last |
| Preregister.IsClockTime | src/routes/visitors/preregister/+page.server.ts:12 | The time pattern: five characters, an hour 00-23, a colon, a minute 00-59; its meaning is stated by the next row |
| Preregister.ClockTimeIffTimeOfDay | src/routes/visitors/preregister/+page.server.ts:12 | The time pattern accepts exactly the `HH:MM` texts of hours 0-23 and minutes 0-59 |
| Preregister.DateAccepted | src/routes/visitors/preregister/+page.server.ts:8-11 | The date rule: a non-empty text that parses to today or a later day |
| Preregister.SchemaErrors | src/routes/visitors/preregister/+page.server.ts:6-14 | Each field is rejected exactly when its rule fails: name 1-255 characters, date non-empty, valid and not before today, time absent, empty or `HH:MM`, plate absent or at most 50 characters |
| Preregister.Load | src/routes/visitors/preregister/+page.server.ts:16-27 | The form exactly for an authenticated request; otherwise a login redirect back to the form |
| Preregister.EmptyToNull | src/routes/visitors/preregister/+page.server.ts:64-65 | A value survives exactly when present and non-empty |
| Preregister.SubmitPreregistration | src/routes/visitors/preregister/+page.server.ts:30-84 | 401 without identity; 400 exactly on schema errors, echoing the normalised form; otherwise inserts a pending row for the user with validated fields and nulls for empty options; then 500 with the form and the prefixed message, or a redirect to the list |
| NewBuilding.PreprocessFloors | src/routes/admin/buildings/new/+page.server.ts:9-41 | The conversion at lines 35-41 followed by the `z.preprocess` callback at lines 9-11: floors are undefined exactly when missing, made only of white space, or not a number; otherwise the converted number |
| NewBuilding.FloorsAccepted | src/routes/admin/buildings/new/+page.server.ts:12 | The floors rule: undefined, or a positive integer |
| NewBuilding.SchemaErrors | src/routes/admin/buildings/new/+page.server.ts:6-14 | Each field is rejected exactly when its rule fails: name 1-255 characters, address absent or at most 500, floors undefined or a positive integer |
| NewBuilding.UnreadableFloorsAreNotAnError | src/routes/admin/buildings/new/+page.server.ts:11 | A missing, blank or non-numeric floors entry is never a validation error |
| NewBuilding.FloorsRejectedIffNotPositiveInteger | src/routes/admin/buildings/new/+page.server.ts:12 | A numeric floors entry is rejected exactly when it is not an integer or not positive |
| NewBuilding.Validated | src/routes/admin/buildings/new/+page.server.ts:53 | The validated name is the submitted one; the address is always defined; floors are defined exactly when preprocessing kept them, and are then positive |
| NewBuilding.BuildInsert | src/routes/admin/buildings/new/+page.server.ts:55-59 | The record always has the name, the address and floors exactly when defined, and no other key |
| NewBuilding.Load | src/routes/admin/buildings/new/+page.server.ts:17-22 | The form exactly for an admin user, without looking at the session; otherwise `/unauthorized` |
| NewBuilding.CreateBuilding | src/routes/admin/buildings/new/+page.server.ts:25-76 | 403 for a non-admin; 400 exactly on schema errors, echoing the raw fields; otherwise inserts a record with only the submitted name, the submitted address or null, and the positive floors number exactly when one was given; then 500 with the validated data and the prefixed message, or a redirect to the list |
| Buildings.TextLe | src/routes/admin/buildings/+page.server.ts:20 | Names compared character by character, a proper prefix first; its properties are stated by the next two rows |
| Buildings.ByName | src/routes/admin/buildings/+page.server.ts:20 | `order('name', { ascending: true })` |
| Buildings.TextLeTotal | src/routes/admin/buildings/+page.server.ts:20 | Any two names are comparable |
| Buildings.TextLeTransitive | src/routes/admin/buildings/+page.server.ts:20 | The name order is transitive |
| Buildings.ByNameIsTotalPreorder | src/routes/admin/buildings/+page.server.ts:17-20 | Ordering buildings by name is a total preorder |
| Buildings.Load | src/routes/admin/buildings/+page.server.ts:5-30 | Login redirect back to the list exactly without a user; on a query error an empty list and the provider's message; otherwise the rows |
| Buildings.LoadIgnoresRole | src/routes/admin/buildings/+page.server.ts:9-16 | Any signed-in user gets the page, and the role does not change it |
| Buildings.LoadShowsAllByName | src/routes/admin/buildings/+page.server.ts:17-29 | With a correct answer, the page shows every building exactly once, by name |
| AccessMatrix.AdminHandlersAgreeWithGate | src/hooks.server.ts:70-82 | On `/admin` paths with the hook's resolution, the gate passes exactly when the daily page and the new-building page do, and then the building list passes too |
| AccessMatrix.BuildingListAloneAdmitsNonAdmin | src/routes/admin/buildings/+page.server.ts:9-16 | The list's own check shows the list to a non-admin the gate would send to `/unauthorized` |
| AccessMatrix.VisitorPagesNeedVerifiedSession | src/routes/visitors/+page.server.ts:6-8 | The gate passes the visitor pages; the list and the form are shown exactly for a decoded, verified session |

## Left out

- Supabase itself is not modelled: token decoding, JWT verification, cookie storage inside the
  client library, and row-level security. Each call's result is a parameter, and a query's answer
  is only specified through `Listing.IsListing`.
- Data returned as null without an error is not modelled. The list pages' `|| []` fallback
  therefore has no separate case.
- The resident-email join on the daily page is not modelled. Rows are plain registrations.
- Zod's error messages and the `flatten().fieldErrors` shape are not modelled. A validation failure
  carries the set of rejected fields.
- Preregister.SchemaErrors: the date rule compares calendar days. The source compares a parsed
  instant with local midnight, and a date-only string parses as UTC midnight. Time zones and the
  parsing of date text are left out: the parsed date and today are parameters.
- DailyVisitors.TargetDate: `new Date(text)` and the clock are parameters. The date's local fields
  and the time zone are not modelled.
- NewBuilding.PreprocessFloors: `Number(text)` is an abstract input (not a number, an integer, or
  another value). Its parsing rules, floating point and infinities are not modelled.
- String lengths are counted in characters, not UTF-16 code units.
- DailyVisitors.LoadShowsOpenRowsOfTheDay: only four-digit target years are covered. The
  source does not pad the year, so for a year below 1000 the text is not in `YYYY-MM-DD` form
  (`DailyVisitors.ShortYearIsNotIsoForm`). Postgres reads such a text by its own field-order
  rules, for example `5-01-02` as May 1st, 2002, and those rules are not modelled.
- Visitors.RegistrationTable.CancelRegistration: the status check and the update run against one
  snapshot of the table. In the source they are two separate requests, and the update filters
  only on id and owner. A row whose status changes between them would still be cancelled; the
  model does not capture this interleaving.
- Buildings.TextLeTotal: names are ordered by character code. Postgres collation is not modelled.
- Hooks.CookieJar.SetAll: the jar records every `cookies.set` call in order. The last-write-wins
  behaviour per cookie name is left to SvelteKit and not modelled.
- `filterSerializedResponseHeaders` in `src/hooks.server.ts` is not modelled. It only passes two
  response headers through and has no bearing on access.
- The auth-state listener in `+layout.svelte` is not part of this model, nor are its possible races
  with `signOut`.
- `src/routes/+layout.server.ts`, `src/lib/supabaseClient.ts` and the building edit and unit pages
  are not part of this model.
- Console logging is not modelled.
- Layout.Load: the client-side `getSession` call is a parameter whose value is unused, as in the
  source. The Supabase client returned alongside the session is not modelled.
