# A verified model of the React user-management client

This project models the logic inside the hooks and components of a React single-page
application for managing users and their roles. It covers:

- the REST client for users: the DTO conversion, the URL of each endpoint, the
  authorization header, the cache tags, and the optimistic patch-and-undo of cached user
  lists;
- the users page: reading paging and sorting from the URL's search parameters, writing
  them back, and building the list query;
- the add/update user dialog: form validation, the mapping between role ids and roles,
  and open/prefill/reset;
- the users table's columns: the row-to-form copy, the role cell text and the action
  arguments;
- the role list hook fed by a GraphQL query;
- the application shell: the menu visibility rule, guarded routes and the user dropdown
  actions;
- the cookie-consent banner;
- the live-update client (`useSimpleSSE`). It computes a capped exponential delay, but it
  reads the delay from the counter its closure captured, so it waits 1000 ms each time
  (see below).

The model is written as follows:

- Pure logic is written as functions on datatypes, with lemmas that state round trips,
  frames and invariants.
- Anything the source changes in place is a class: the query cache, the headers, the
  page's state, the dialog, the role hook, the banner and the live-update client. Each
  method states its new state in terms of the old one, and the pure transition functions
  beside it carry the lemmas.
- JavaScript semantics the code relies on are written out explicitly:
  - template-literal rendering of numbers;
  - `parseInt` in base ten, with NaN;
  - `Object.fromEntries` (the last value wins) and object spread (an existing key keeps
    its place);
  - `URLSearchParams.get` (the first value wins);
  - truthiness;
  - non-null assertions, which are erased at run time. An id asserted with `!` therefore
    stays optional (`Option`) wherever `undefined` can reach it.

Modules, one per source file, plus shared helpers:

- `Wrappers`, `Text`, `Assoc` and `JsNumber` (wrappers.dfy, text.dfy, assoc.dfy,
  js_number.dfy) model the JavaScript built-ins the code relies on.
- `UsersTypes` (users_types.dfy) models src/pages/users/api/usersApi.types.ts.
- `UsersApi` (users_api.dfy) models src/pages/users/api/usersApi.ts.
- `UsersPage` (users_page.dfy) models src/pages/users/Users.tsx.
- `UserDialog` (user_dialog.dfy) models src/pages/users/components/user-dialog.tsx.
- `Columns` (columns.dfy) models src/pages/users/hooks/useColumns.tsx.
- `RolesGraphql` (roles_graphql.dfy) models src/pages/users/hooks/useRolesGraphql.tsx.
- `App` (app.dfy) models src/App.tsx.
- `CookieConsent` (cookie_consent.dfy) models src/components/custom/coockie-consent.tsx.
- `Sse` (sse.dfy) models src/pages/users/hooks/useSseUsers.tsx.

## The live-update client

The client keeps separate every value that the hook keeps separate:

- the `retryCount` state;
- the `retryCountRef` copy, which the effect at useSseUsers.tsx:34-36 syncs after a
  commit;
- the `retryCount` that each `connect` closure captured from the render that created it.

The last one matters because every handler and timer a `connect` creates calls that same
closure. Three consequences follow, and each is proved:

- **The delay never backs off.** The delay at useSseUsers.tsx:80 reads the captured
  count. The gate at line 50 reads the ref. So from the mount on, every timer waits
  `BackoffDelay(0)` = 1000 ms, as long as the URL stays the same and `reconnect` is not
  called (`Sse.DelayNeverBacksOff`). After two errors, the counter is at 2 and the second
  timer still waits one second (`Sse.TwoErrorsSameDelay`).
- **A second timer can leak.** Two errors on one source schedule two timers, since an
  event source reports an error on each of its own failed reconnects. Teardown clears
  only the tracked timer. The other one can still fire and open a source after the
  teardown (`Sse.LeakedTimerReopensAfterTeardown`). When only the tracked timer is
  pending, teardown stops every retry (`Sse.TeardownStopsTrackedRetry`).
- **At most one source is open.** Over any sequence of events after the mount, at most
  one event source is open (`Sse.AtMostOneSourceEver`).

In three places the code does less than the intended behaviour of such a client. The model
follows the code:

- A timer-driven reconnect does not set the status to `connecting`.
- A URL change does not reset the retry counter.
- `onerror` always schedules a timer when reconnection is on. The counter is checked only
  when `connect` runs.

The counter is not bounded by `maxAttempts`. Repeated errors on one source push it past
the maximum, because only `connect` reads the maximum (`Sse.CounterPassesMax`). What the
maximum does bound is reconnection: once the counter and its ref have both reached it
and no source is open, no sequence of events opens a source again. A URL change is
included, since it does not reset the counter (`Sse.ExhaustedStaysClosed`).

## Model

| member | source | states |
|---|---|---|
| `UsersTypes.RoleIds` | src/pages/users/api/usersApi.ts:12 | the ids of the roles, same length, same order, undefined ids kept |
| `UsersTypes.NewPage` | src/pages/users/api/usersApi.types.ts:42-47 | each absent argument defaults to 0, 10, 'id', 'ASC'; a given one is stored as it is |
| `JsNumber.Render` | src/pages/users/Users.tsx:24-31 | a number's text is non-empty: the digits of a non-negative integer, '-' then digits for a negative one |
| `JsNumber.ParseInt` | src/pages/users/Users.tsx:46-47 | a string without any decimal digit parses to NaN |
| `JsNumber.ParseRender` | src/pages/users/Users.tsx:46-47 | `parseInt` of the decimal text of a number gives the number back (NaN included) |
| `Assoc.FromEntriesLookup` | src/pages/users/Users.tsx:92 | `Object.fromEntries` keeps, for each key, the value of its last entry |
| `Text.Utf16Len` | src/pages/users/components/user-dialog.tsx:34-37 | the JavaScript `length`: between the number of characters and twice it, and equal to it exactly when no character is astral |
| `Text.Utf16LenAppend` | src/pages/users/components/user-dialog.tsx:34-37 | the `length` of a concatenation is the sum of the lengths |
| `Assoc.AssignLookup` | src/pages/users/Users.tsx:91-94 | after a property is assigned, it reads as the new value and every other property as before |
| `UsersApi.ToDto` | src/pages/users/api/usersApi.ts:6-16 | id, name, email and version copied; the roles replaced by their ids, same length and order |
| `UsersApi.QueryRequest` | src/pages/users/api/usersApi.ts:41-53 | every query is a GET without body: the list path, `/usersCount`, or `/users/<id>` |
| `UsersApi.IdText` | src/pages/users/api/usersApi.ts:66 | `${id}`: a defined id as it is, an undefined one as 'undefined' (also line 97) |
| `UsersApi.AllUsersPath` | src/pages/users/api/usersApi.ts:41-42 | the list path starts with `/users?page=` and ends with the direction verbatim |
| `UsersApi.UserPath` | src/pages/users/api/usersApi.ts:51 | `/users/` followed by the id, which reads back from the path after its first seven characters (also lines 66 and 97) |
| `UsersApi.AllUsersPathIsJoin` | src/pages/users/api/usersApi.ts:41-42 | the list path is `/users?` followed by the four `key=value` fields joined by `&` |
| `UsersApi.AllUsersPathFields` | src/pages/users/api/usersApi.ts:41-42 | splitting the query string at `&` gives back page, size, sort and direction verbatim, in that order, when sort and direction hold no `&` |
| `UsersApi.Headers.Set` | src/pages/users/api/usersApi.ts:26 | the named header takes the value; the other headers stay |
| `UsersApi.Truthy` | src/pages/users/api/usersApi.ts:25 | a token is truthy exactly when it is defined and non-empty |
| `UsersApi.PrepareHeaders` | src/pages/users/api/usersApi.ts:23-29 | `authorization: Bearer <token>` is set exactly when the token is truthy; otherwise the headers are unchanged; the same object is returned |
| `UsersApi.Provides` | src/pages/users/api/usersApi.ts:43-54 | each query provides at most one tag: the list alone provides 'users', the count alone 'usersCount' |
| `UsersApi.Invalidates` | src/pages/users/api/usersApi.ts:62 | every mutation invalidates 'users' and 'usersCount' (also lines 93 and 115) |
| `UsersApi.InvalidatedBy` | src/pages/users/api/usersApi.ts:71-73 | exactly the cached queries that provide the tag; for 'users', only cached `getAllUsers` pages |
| `UsersApi.MutationsInvalidateListsAndCount` | src/pages/users/api/usersApi.ts:43-115 | the tags of all three mutations cover what `getAllUsers` and `getUsersSize` provide, and nothing that `getUser` provides |
| `UsersApi.UpdateRecord` | src/pages/users/api/usersApi.ts:77-83 | a record with the argument's id takes its name, email and role, and keeps every other field; any other record is unchanged |
| `UsersApi.UpdateRecords` | src/pages/users/api/usersApi.ts:76-84 | the list keeps its length and order, each record transformed as above |
| `UsersApi.UpdateRecordsIdempotent` | src/pages/users/api/usersApi.ts:76-84 | applying the update patch twice equals applying it once |
| `UsersApi.DeleteRecords` | src/pages/users/api/usersApi.ts:106 | a record remains exactly when its id differs from the argument; the list never grows |
| `UsersApi.DeleteRecordsAppend` | src/pages/users/api/usersApi.ts:106 | deletion distributes over concatenation, so the remaining records keep their order |
| `UsersApi.DeleteRecordsAbsent` | src/pages/users/api/usersApi.ts:106 | an id no record has leaves the list unchanged |
| `UsersApi.ApplyToList` | src/pages/users/api/usersApi.ts:76-84 | the update patch transforms each record in place, same length; the delete patch keeps exactly the records with another id (line 106) |
| `UsersApi.PatchEntry` | src/pages/users/api/usersApi.ts:75-85 | the one entry takes the patched value, every other cached query keeps its value, and the undo records the entry's old value |
| `UsersApi.RunUndo` | src/pages/users/api/usersApi.ts:89 | the entry takes back the recorded value, and every other cached query keeps its value |
| `UsersApi.UndoRestores` | src/pages/users/api/usersApi.ts:86-90 | undoing a patch restores the cache exactly |
| `UsersApi.PatchAll` | src/pages/users/api/usersApi.ts:71-85 | the same queries stay cached, and every cached `getAllUsers` page is patched |
| `UsersApi.PatchAllFrame` | src/pages/users/api/usersApi.ts:71-74 | a patch keeps the set of cached queries; only `getAllUsers` entries change, each by the patch |
| `UsersApi.DeleteSkipsPagesWithoutUser` | src/pages/users/api/usersApi.ts:101-107 | a cached page without the deleted user is left as it was |
| `UsersApi.QueryCache.Optimistic` | src/pages/users/api/usersApi.ts:70-91 | after the loop, every cached user list is patched if the request succeeds, and the cache is unchanged if it fails |
| `UsersApi.QueryCache.PatchOne` | src/pages/users/api/usersApi.ts:75-90 | one entry patched, and restored when the request fails |
| `UsersApi.QueryCache.CreateUserRequest` | src/pages/users/api/usersApi.ts:55-63 | POST `/users` with the DTO as body, and the cache is not modified |
| `UsersApi.QueryCache.UpdateUserMutation` | src/pages/users/api/usersApi.ts:64-94 | PUT `/users/<id>` (`undefined` for an undefined id) with the DTO, and the optimistic update |
| `UsersApi.QueryCache.DeleteUserMutation` | src/pages/users/api/usersApi.ts:95-116 | DELETE `/users/<id>` without body, and the optimistic removal |
| `UsersPage.ToStrings` | src/pages/users/Users.tsx:24-31 | page and size parse back to themselves, sort is kept, and desc is 'true' exactly when set |
| `UsersPage.GetSearchParams` | src/pages/users/Users.tsx:44-51 | each absent key takes its default (0, 5, '_id', false); page and size are parsed; desc holds exactly for the value 'true' |
| `UsersPage.CreateSearchParams` | src/pages/users/Users.tsx:53-60 | the table state's page index, page size and first sort column; none when the sorting state is empty |
| `UsersPage.WriteParams` | src/pages/users/Users.tsx:89-96 | after the merge, page, size, sort and desc read as their text in the new parameters, whatever the URL held |
| `UsersPage.ReadAfterWrite` | src/pages/users/Users.tsx:24-51 | writing search parameters and reading them back gives the same page, size, sort and desc, whatever the URL held |
| `UsersPage.WriteKeepsOtherKeys` | src/pages/users/Users.tsx:89-96 | every other key survives the write, with the last value it had |
| `UsersPage.WriteHasDistinctKeys` | src/pages/users/Users.tsx:91-94 | after the write each key appears once |
| `UsersPage.BuildPage` | src/pages/users/Users.tsx:33-35 | page index and size copied, sort from the first column, 'DESC' exactly when it is descending and 'ASC' otherwise; none when the sorting state is empty |
| `UsersPage.ToPayload` | src/pages/users/Users.tsx:37-39 | the page's four fields unchanged, action type '' |
| `UsersPage.ListQueryOfTableState` | src/pages/users/Users.tsx:75 | the list request for a table state carries its page index, page size, sort column and direction |
| `UsersPage.EffectsAgree` | src/pages/users/Users.tsx:81-98 | the URL write followed by the URL read gives back the pagination and the first sort column |
| `UsersPage.UsersView.constructor` | src/pages/users/Users.tsx:61-72 | the first render reads pagination and sorting from the URL |
| `UsersPage.UsersView.QueryArg` | src/pages/users/Users.tsx:75 | the list query's argument for the current state: none on an empty sorting state, otherwise the page index, page size, first sort column, and 'DESC' exactly when it is descending |
| `UsersPage.UsersView.SyncFromUrl` | src/pages/users/Users.tsx:81-85 | pagination and sorting are set from the URL, which does not change |
| `UsersPage.UsersView.SyncToUrl` | src/pages/users/Users.tsx:87-98 | the URL becomes the merged write of the table state; throws, changing nothing, on an empty sorting state |
| `UserDialog.Validate` | src/pages/users/components/user-dialog.tsx:32-44 | name and email fail exactly when their JavaScript `length` (UTF-16 code units) is below two; the roles fail exactly when empty or holding an undefined id |
| `UserDialog.OneCharacterNames` | src/pages/users/components/user-dialog.tsx:34-36 | a name of one astral character (such as an emoji) passes the length check; a name of one other character fails |
| `UserDialog.DefaultFormFails` | src/pages/users/components/user-dialog.tsx:46-55 | the reset form fails on all three checked fields |
| `UserDialog.FindRole` | src/pages/users/components/user-dialog.tsx:63 | finds a role exactly when one has the id; the role found has that id and is one of the roles |
| `UserDialog.FindRoleFirst` | src/pages/users/components/user-dialog.tsx:63 | the role found is the first with the id: with no earlier match, the role at position k |
| `UserDialog.RolesForIds` | src/pages/users/components/user-dialog.tsx:63 | the submitted list has the ids' length and order; element i is the first role with id i |
| `UserDialog.IdsToRolesToIds` | src/pages/users/components/user-dialog.tsx:63-86 | when every selected id names a role, ids to roles to ids is the identity |
| `UserDialog.RolesToIdsToRoles` | src/pages/users/components/user-dialog.tsx:63-86 | roles taken from a list with distinct ids, each with an id, go to ids and back to the same roles |
| `UserDialog.Prefill` | src/pages/users/components/user-dialog.tsx:80-88 | id, name, email and version copied from the row; the role ids in the roles' order, an undefined id kept |
| `UserDialog.PrefillValid` | src/pages/users/components/user-dialog.tsx:32-44 | a prefilled form is valid exactly when name and email have a UTF-16 length of two or more and there is at least one role, each with an id |
| `UserDialog.TitleOf` | src/pages/users/components/user-dialog.tsx:97-99 | "add" exactly when `_id` is undefined |
| `UserDialog.Submission` | src/pages/users/components/user-dialog.tsx:57-66 | id, name, email and version copied; role i is the first role with selected id i |
| `UserDialog.Dialog.constructor` | src/pages/users/components/user-dialog.tsx:29-55 | closed, with the default values |
| `UserDialog.Dialog.Title` | src/pages/users/components/user-dialog.tsx:97-99 | the current form's title is "add" exactly when its `_id` is undefined |
| `UserDialog.Dialog.OpenChange` | src/pages/users/components/user-dialog.tsx:75-90 | open follows the argument; closing resets the form; opening with data prefills the five fields; opening without data keeps the form |
| `UserDialog.Dialog.Submit` | src/pages/users/components/user-dialog.tsx:57-69 | an invalid form changes nothing; a valid one is submitted if `submit` is given, then reset and closed |
| `Columns.Parse` | src/pages/users/hooks/useColumns.tsx:18-26 | the five input fields copied unchanged; the audit fields have no place in the result |
| `Columns.RoleNames` | src/pages/users/hooks/useColumns.tsx:58 | the names of the roles in order |
| `Columns.RoleCell` | src/pages/users/hooks/useColumns.tsx:58 | no role gives ''; otherwise the cell starts with the first role's name |
| `Columns.RoleCellShort` | src/pages/users/hooks/useColumns.tsx:58 | no role gives '', one role gives its name |
| `Columns.RoleCellSnoc` | src/pages/users/hooks/useColumns.tsx:58 | one more role appends ', ' and its name |
| `Columns.RoleCellShowsEveryName` | src/pages/users/hooks/useColumns.tsx:58 | every role's name appears in the cell |
| `Columns.DeleteArg` | src/pages/users/hooks/useColumns.tsx:93 | the delete argument is the row's own `_id`; the `!` is erased, so an undefined id stays undefined |
| `Columns.DeleteActionRemovesRow` | src/pages/users/hooks/useColumns.tsx:93 | deleting with the row's id removes the row and every record with its id, and keeps the rest |
| `Columns.DialogRoles` | src/pages/users/hooks/useColumns.tsx:82 | the loaded roles, or none while they are not loaded |
| `Columns.Settled` | src/pages/users/hooks/useColumns.tsx:83-85 | the dialog's submission, with every role found, as the update mutation receives it |
| `Columns.UpdateWithOwnRow` | src/pages/users/hooks/useColumns.tsx:81-84 | the update patch with a row's own data leaves a list consistent with that row unchanged |
| `Columns.UnchangedUpdateIsNoOp` | src/pages/users/hooks/useColumns.tsx:80-86 | opening the update dialog on a row and submitting without edits sends the row's own data, and the optimistic patch changes nothing |
| `RolesGraphql.VariablesAreDefaultPage` | src/pages/users/hooks/useRolesGraphql.tsx:20-27 | the fixed variables (0, 10, 'id', 'ASC') are those of a default page |
| `RolesGraphql.RolesOf` | src/pages/users/hooks/useRolesGraphql.tsx:30-35 | each permission becomes a role with its id and name, same length and order, other fields undefined |
| `RolesGraphql.RolesOfDistinct` | src/pages/users/hooks/useRolesGraphql.tsx:30-35 | distinct permission ids give roles with distinct, defined ids |
| `RolesGraphql.GetRoles` | src/pages/users/hooks/useRolesGraphql.tsx:29-37 | the mapped list when the permission list is present; a thrown error when it is null |
| `RolesGraphql.EffectRun` | src/pages/users/hooks/useRolesGraphql.tsx:39-47 | the cleanup clears the roles; the effect populates them only when the guard holds; it throws exactly when the guard holds and the list is null |
| `RolesGraphql.RolesHook.constructor` | src/pages/users/hooks/useRolesGraphql.tsx:7 | roles start undefined |
| `RolesGraphql.RolesHook.Render` | src/pages/users/hooks/useRolesGraphql.tsx:39-47 | unchanged dependencies change nothing; changed ones run cleanup and effect |
| `RolesGraphql.RolesHook.Unmount` | src/pages/users/hooks/useRolesGraphql.tsx:44-46 | the last cleanup resets the roles |
| `RolesGraphql.LoadThenData` | src/pages/users/hooks/useRolesGraphql.tsx:39-43 | mounting while loading and then receiving data stores the mapped roles |
| `RolesGraphql.StoredRolesLostOnChange` | src/pages/users/hooks/useRolesGraphql.tsx:39-47 | once stored, the roles are lost at the next change of the query result |
| `RolesGraphql.PopulatesExactly` | src/pages/users/hooks/useRolesGraphql.tsx:40-42 | roles are populated exactly when unset, not loading, without error, and with a permission list |
| `App.MenuItems` | src/App.tsx:57-73 | '/' is unrestricted; '/counter' and '/users' are restricted |
| `App.VisibleItems` | src/App.tsx:113-114 | an item is shown exactly when unrestricted or the user is authenticated |
| `App.VisibleItemsAppend` | src/App.tsx:113-114 | the filter distributes over concatenation, so the original order is kept |
| `App.MenuByAuthentication` | src/App.tsx:57-114 | signed in, the whole menu shows in order; signed out, only home |
| `App.ProtectedRoute` | src/App.tsx:24-29 | the children exactly when the predicate is truthy; otherwise a redirect to `redirectPath`, '/' by default |
| `App.Resolve` | src/App.tsx:95-166 | only the loading screen before initialisation; '/counter' and '/users' redirect a signed-out user to '/unauthorized'; unknown paths show the error page |
| `App.GuardedReachable` | src/App.tsx:146-166 | the guarded pages are reachable exactly when signed in |
| `App.HandleUserDropdownSelect` | src/App.tsx:75-93 | the selection is logged first; 'profile' and 'settings' only log; the two language actions set 'en' and 'pl'; anything else throws, after the first log only (what is thrown is not modelled) |
| `App.DropdownNeverThrows` | src/components/app/user-dropdown-menu.tsx:39-88 | each of the four values the user dropdown emits is handled, so selecting from the menu never throws |
| `App.LanguageOnlyFromLangActions` | src/App.tsx:84-89 | a language is set exactly by its own action |
| `CookieConsent.CookieText` | src/components/custom/coockie-consent.tsx:42 | an empty store reads as ''; otherwise the string starts with the first cookie's `name=value` |
| `CookieConsent.ConsentGiven` | src/components/custom/coockie-consent.tsx:42 | an empty cookie store never shows consent |
| `CookieConsent.WriteConsent` | src/components/custom/coockie-consent.tsx:20 | after the write the store holds `cookieConsent` with the value 'true' |
| `CookieConsent.WrittenCookieSeen` | src/components/custom/coockie-consent.tsx:20 | a cookie just written shows in the cookie string as `name=value`, whatever the store held |
| `CookieConsent.AcceptedConsentIsSeen` | src/components/custom/coockie-consent.tsx:20-42 | after the consent cookie is written, the cookie string contains `cookieConsent=true` whatever it held |
| `CookieConsent.Banner.constructor` | src/components/custom/coockie-consent.tsx:14-15 | closed and not hidden |
| `CookieConsent.Banner.Mount` | src/components/custom/coockie-consent.tsx:39-53 | opens, unless consent is present outside demo mode, in which case it closes and schedules a hide |
| `CookieConsent.Banner.Accept` | src/components/custom/coockie-consent.tsx:18-27 | closes, writes the consent cookie, schedules a hide, calls the accept callback if given; `hide` unchanged |
| `CookieConsent.Banner.Decline` | src/components/custom/coockie-consent.tsx:29-37 | closes, schedules a hide, calls the decline callback if given; the cookie and `hide` unchanged |
| `CookieConsent.Banner.HideTimerFires` | src/components/custom/coockie-consent.tsx:21-23 | a scheduled hide sets `hide`; nothing else sets it |
| `CookieConsent.AcceptThenRevisit` | src/components/custom/coockie-consent.tsx:18-48 | after an accept, the next mount closes the banner outside demo mode and leaves it open in demo mode |
| `Sse.MaxAttempts` | src/pages/users/hooks/useSseUsers.tsx:26 | `maxRetries`, or 5 when absent |
| `Sse.UsersPageDefaults` | src/pages/users/Users.tsx:100-112 | the users page's options reconnect, with a maximum of 5 |
| `Sse.BackoffDelay` | src/pages/users/hooks/useSseUsers.tsx:80 | the delay is either 1000 * 2^n or the 30000 ms cap, and never more than either |
| `Sse.BackoffBounds` | src/pages/users/hooks/useSseUsers.tsx:80 | every delay is between 1000 and 30000 ms |
| `Sse.BackoffDoubles` | src/pages/users/hooks/useSseUsers.tsx:80 | below the cap the delay doubles per attempt |
| `Sse.BackoffCapped` | src/pages/users/hooks/useSseUsers.tsx:80 | from attempt 5 on the delay is 30000 ms |
| `Sse.Init` | src/pages/users/hooks/useSseUsers.tsx:18-25 | status connecting, no message, counters 0, no source, no timer |
| `Sse.Mount` | src/pages/users/hooks/useSseUsers.tsx:92-94 | status connecting, counters kept, a source exactly when the ref is below the maximum, with a closure capturing the current counter; keeps the state valid |
| `Sse.AtMostOneSource` | src/pages/users/hooks/useSseUsers.tsx:44-51 | in a valid state at most one source is open |
| `Sse.Connect` | src/pages/users/hooks/useSseUsers.tsx:38-51 | the tracked timer is cancelled and the old source closed; a new source opens exactly when the ref counter is below the maximum; nothing else changes |
| `Sse.ConnectValid` | src/pages/users/hooks/useSseUsers.tsx:38-51 | `connect` keeps the state valid |
| `Sse.Opened` | src/pages/users/hooks/useSseUsers.tsx:53-57 | connected, counter 0, `onConnect` once if given, nothing else changes |
| `Sse.ConnectedEvent` | src/pages/users/hooks/useSseUsers.tsx:59-62 | the message is stored and no callback runs |
| `Sse.UpdateEvent` | src/pages/users/hooks/useSseUsers.tsx:64-68 | the message is stored and handed to `onUpdate` if given |
| `Sse.Errored` | src/pages/users/hooks/useSseUsers.tsx:72-88 | disconnected and `onError`; with reconnection on, counter +1 and exactly one new timer with the capped delay of the captured count; otherwise no timer and the counter unchanged |
| `Sse.TimerFired` | src/pages/users/hooks/useSseUsers.tsx:84-86 | a pending timer is consumed and reconnects with its closure, gated by the ref counter; status and counter unchanged |
| `Sse.Teardown` | src/pages/users/hooks/useSseUsers.tsx:96-105 | the tracked timer is cancelled, the source closed and nulled, the status disconnected |
| `Sse.TeardownIdempotent` | src/pages/users/hooks/useSseUsers.tsx:96-105 | tearing down twice equals tearing down once |
| `Sse.Commit` | src/pages/users/hooks/useSseUsers.tsx:34-36 | only the ref changes, to the state's counter, and a valid state stays valid |
| `Sse.Reconnect` | src/pages/users/hooks/useSseUsers.tsx:113 | `reconnect` keeps both counters, opens a source exactly when the ref is below the maximum, with a closure capturing the current counter, and keeps the state valid |
| `Sse.UrlChanged` | src/pages/users/hooks/useSseUsers.tsx:92-106 | teardown, then connecting and a fresh `connect` with the new URL; the counter is kept |
| `Sse.StepValid` | src/pages/users/hooks/useSseUsers.tsx:38-106 | every event keeps the state valid |
| `Sse.AtMostOneSourceEver` | src/pages/users/hooks/useSseUsers.tsx:38-51 | after the mount and any events, at most one source is open |
| `Sse.StepKeepsCapturedCount` | src/pages/users/hooks/useSseUsers.tsx:80-86 | events that create no closure keep the captured count, and a timer they schedule has its delay |
| `Sse.DelayNeverBacksOff` | src/pages/users/hooks/useSseUsers.tsx:80 | from the mount, every scheduled delay is 1000 ms while the URL stays and `reconnect` is not called |
| `Sse.MountCapturesZero` | src/pages/users/hooks/useSseUsers.tsx:92-94 | the mount's closures captured count 0 and no timer is pending |
| `Sse.TwoErrorsSameDelay` | src/pages/users/hooks/useSseUsers.tsx:72-86 | after two errors the counter is 2 but the second delay is 1000 ms, not 2000 |
| `Sse.TeardownStopsTrackedRetry` | src/pages/users/hooks/useSseUsers.tsx:96-99 | with only the tracked timer pending, teardown leaves no timer that could reconnect |
| `Sse.LeakedTimerReopensAfterTeardown` | src/pages/users/hooks/useSseUsers.tsx:84-99 | two errors on one source leave an untracked timer that opens a source after teardown |
| `Sse.ExhaustedStaysClosed` | src/pages/users/hooks/useSseUsers.tsx:38-106 | with the counter and its ref at the maximum and no source open, every sequence of events, URL changes included, keeps no source open and both counts at the maximum |
| `Sse.CounterPassesMax` | src/pages/users/hooks/useSseUsers.tsx:72-88 | with a maximum of 1, two errors after the mount leave the counter at 2, above the maximum |
| `Sse.ExhaustedRetriesOpenNothing` | src/pages/users/hooks/useSseUsers.tsx:50-51 | once the committed counter reaches the maximum, a firing timer opens no source |
| `Sse.SseClient.constructor` | src/pages/users/hooks/useSseUsers.tsx:92-94 | the client starts in the mounted state, well-formed; every method keeps it well-formed |
| `Sse.SseClient.ConnectTo` | src/pages/users/hooks/useSseUsers.tsx:38-90 | the fields step through `connect` |
| `Sse.SseClient.Open` | src/pages/users/hooks/useSseUsers.tsx:53-57 | the fields follow `Opened` |
| `Sse.SseClient.ReceiveConnected` | src/pages/users/hooks/useSseUsers.tsx:59-62 | the fields follow `ConnectedEvent` |
| `Sse.SseClient.ReceiveUpdate` | src/pages/users/hooks/useSseUsers.tsx:64-68 | the fields follow `UpdateEvent` |
| `Sse.SseClient.ReceiveHeartbeat` | src/pages/users/hooks/useSseUsers.tsx:70 | a heartbeat changes nothing |
| `Sse.SseClient.Fail` | src/pages/users/hooks/useSseUsers.tsx:72-88 | the fields follow `Errored` |
| `Sse.SseClient.ScheduleRetry` | src/pages/users/hooks/useSseUsers.tsx:80-86 | the counter goes up by one and one new timer, now tracked, waits the capped delay of the captured count |
| `Sse.SseClient.FireTimer` | src/pages/users/hooks/useSseUsers.tsx:84-86 | the fields follow `TimerFired` |
| `Sse.SseClient.CommitRender` | src/pages/users/hooks/useSseUsers.tsx:34-36 | the ref takes the state's counter |
| `Sse.SseClient.TearDown` | src/pages/users/hooks/useSseUsers.tsx:96-105 | the fields follow `Teardown` |
| `Sse.SseClient.ChangeUrl` | src/pages/users/hooks/useSseUsers.tsx:92-106 | the fields follow `UrlChanged` |
| `Sse.SseClient.CallReconnect` | src/pages/users/hooks/useSseUsers.tsx:113 | `connect` of the latest render, capturing the current counter |

## Left out

- The event source transport, `setTimeout`/`clearTimeout` and `JSON.parse` are not
  modelled as such. They are environment events on the client: open, error, named
  messages, timer firing. Messages arrive already parsed. Malformed JSON, which throws
  inside the listener, is not modelled.
- Logging is dropped except in the dropdown handler (App.tsx:76-82), where each log is an
  effect. This covers the console calls at useSseUsers.tsx:78 and 81, Users.tsx:102-110,
  App.tsx:37-46 and main.tsx.
- `App.HandleUserDropdownSelect`: only that the default branch throws is modelled, not
  what it throws. `throw Errors('Unsupported action')` calls a component whose hook call
  fails outside a render, so what reaches the caller is React's own error.
- The live-update options are fixed for the life of the hook. The ref at
  useSseUsers.tsx:29-31 would carry callbacks that change between renders.
- Time is not modelled: a timer's delay is recorded, and timers fire in whatever order
  the events give.
- Redux Toolkit Query internals are not modelled: `selectInvalidatedBy`,
  `updateQueryData` with its drafts, undo by inverse patches, and the refetch after
  invalidation. The cache is an explicit map, and the patch and undo are written out.
- The `await queryFulfilled` inside the patch loop is abstracted. Each mutation gets one
  success or failure outcome. The final cache is modelled, not the order in which entries
  are patched and restored while the request is in flight.
- The base URL (usersApi.ts:22) is build configuration. Requests are modelled by their path
  relative to it.
- Tag invalidation is stated as the tag sets; the refetches it triggers are not
  modelled.
- `parseInt` is modelled in base ten only. It skips the white space JavaScript defines
  (the ASCII blanks, the byte-order mark, the line terminators and the Unicode space
  separators). A `0x` prefix (which `parseInt` reads as hex),
  and `Number` floats, `-0` and digit strings beyond the safe-integer precision, are not
  modelled.
- Object keys that look like array indices are enumerated first in JavaScript. The
  merge of search parameters keeps insertion order for all keys.
- URL encoding of search parameters is not modelled: the model works on decoded entries.
- `Headers` names are case-insensitive; the model stores the lower-case name the code
  uses.
- Permission lists with null elements are not modelled. The generated schema allows
  them, and they would give a role whose name is undefined. Only a null list is modelled.
- React's dependency comparison (`Object.is`) is modelled as structural equality of the
  query result.
- React's double-invoked effects in strict mode are not modelled.
- Route matching is exact. React Router's case-insensitive and trailing-slash matching is
  not modelled.
- The side menu at src/components/app/side-menu.tsx repeats the visibility rule; the rule
  is modelled once.
- The following are provider, store and library configuration, or rendering only, and are
  not part of this model:
  - rendering, translation and Keycloak login/logout;
  - the data table's paging (src/components/custom/data-table.tsx);
  - the counter page and its reducers;
  - the generated GraphQL types;
  - main.tsx, store.ts, i18n.ts, keycloak.ts;
  - vite and codegen configuration, and the node version check.
- Reading `document.cookie` is modelled as the `name=value` pairs joined by `"; "`. The
  cookie's expiry date, other cookie attributes, and an access that throws are not
  modelled.
