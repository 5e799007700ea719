# Warehouse client: session, login and page controllers

This project models the browser client of a small warehouse management
system. The client has three parts, and the model covers each:

- **The `Auth` session object** (`js/auth.js`). It keeps:
  - the session token and the user profile;
  - two session timers: a logout warning and an expiry;
  - a copy of the session in `localStorage` (durable, "remember me") or in
    `sessionStorage` (this tab only).

  It also:
  - restores the session on page load and probes it against the server;
  - logs in and out;
  - builds the form body of every API call;
  - gates pages on login and on a role/permission table.
- **The login page controller** (`js/login.js`):
  - input validation;
  - the in-flight flag;
  - the failed-attempt counter with its lockout;
  - the remembered user name.
- **The dashboard page controller** (`js/app.js`):
  - `asList`;
  - product-ID normalisation and the add-product body;
  - the low-stock flag;
  - the monthly transaction sum and the recent-activity merge;
  - the list loaders with their caches;
  - the delete handlers;
  - the add-product form;
  - the change-password guards.

Stateful code is modelled as classes:
- `Session.Auth`, `Login.LoginPage` and `AppPages.PageController`;
- the two Web Storage areas are instances of `WebStorage.Storage`, a map field.

Method contracts state the new session, stores, requests, navigation and
page state in terms of specification functions. Among them:
- `DurableAfterSave`, `TabAfterSave`, `DurableAfterClear`, `TabAfterClear` and `DurableAfterLogin` give the stored entries;
- `RestoreFrom` gives the session `loadSession` restores from localStorage;
- `RequestBody` gives the form body of an API call;
- `TablesAfterLoad` and `CachesAfterLoad` give the rendered tables.

The classes behave as the code is written, including the three defects listed
under "## Findings". The corrections are separate members:
- `RestoreFromEither`, `Auth.LoadSessionWithFallback` and the `Auth.WithFallback` constructor restore from either store;
- `ControlsAfterLogin` gives the login controls with the button kept disabled during a lockout.
- `RememberedUsername` reads the prefill from the saved username alone.

The lemmas then prove what the client promises about those functions. For example:
- a saved session is restored after a reload, and nothing is restored after a clear;
- the stored user profile round-trips through its JSON text;
- `parseInt` reads back a printed integer;
- product-ID normalisation is idempotent;
- the request body carries the method, the token and every data entry.

Inputs from the outside world become parameters:
- server replies;
- the `confirm()` answer;
- form fields;
- the initial storage contents.

Two sequences record the effects:
- every API request sent is appended to `Auth.requests`;
- a redirect is the `navigation` field.

JavaScript semantics that matter here are written out:
- `trim` and its whitespace set;
- `length` in UTF-16 code units;
- `toUpperCase` for the characters whose upper case is ASCII;
- `parseInt` with its prefix parse and `0x` prefix;
- truthiness, `||`, `??` and template-literal string conversion.

Modules: `Base` (Option, Result), `JsText`, `Json`, `Config`, `WebStorage`,
`UserCodec` (`JSON.stringify`/`JSON.parse` of the user profile), `Api`,
`Permissions`, `Session`, `Login`, `App`, `AppPages`.

## Model

| member | source | states |
|---|---|---|
| Session.WarningPrecedesExpiry | js/auth.js:120-131 | the warning timer's delay (timeout minus warning lead) is positive and strictly shorter than the expiry timer's delay |
| Session.Auth.constructor | js/auth.js:6-39 | construction restores the session held in the durable store only, and sends exactly one `dashboard` probe when it restores one. The probe's outcome: confirmed keeps the session, stores and window, with one timer pair armed; a failed or inconclusive probe keeps them with no timer pending; rejected signs out, clears the session keys from both stores and sends the window to the login page. An unreadable stored profile signs out, clears both stores' session keys and sends nothing. Without a stored session the object is signed out, nothing is sent and neither store changes |
| Session.Auth.LoadSession | js/auth.js:26-39 | a token with a profile that parses, both read from the durable store, is adopted with the stores untouched; an unparsable profile signs out and removes the session keys from both stores; otherwise nothing changes, whatever the tab store holds |
| Session.Auth.Restore | js/auth.js:31-38 | adopting sets the token and profile; an unreadable entry clears the session from memory and both stores; no entry changes nothing |
| Session.Auth.LoadSessionWithFallback | js/auth.js:26-39 | the corrected restore: as `LoadSession`, but when the durable store holds no session the tab store is read instead |
| Session.Auth.WithFallback | js/auth.js:6-39 | the corrected start-up: the same outcomes as the constructor, with the restore read from either store |
| Session.Auth.SaveSession | js/auth.js:42-61 | the token and user are set; remember-me writes token, user and the remember flag to the durable store only, otherwise token and user to the tab store only; one timer pair is armed |
| Session.Auth.ClearSession | js/auth.js:64-82 | token and user are cleared, no timer is pending, the token, profile and remember flag are gone from the durable store and the token and profile from the tab store, so the user is not logged in |
| Session.Auth.CancelTimers | js/auth.js:74-81 | clearing both timeouts leaves no pending timer and changes nothing else |
| Session.Auth.SetupSessionTimeout | js/auth.js:120-131 | the earlier timers are cancelled and exactly one fresh warning/expiry pair is pending, with the session itself unchanged |
| Session.Auth.WarningElapsed | js/auth.js:134-141 | when the warning fires, extending the session re-arms one timer pair; declining leaves only the expiry timer pending |
| Session.Auth.SessionExpired | js/auth.js:144-147 | when the expiry timer fires the server is told (a `logout` post, only when a token is held), the session is cleared, both stores lose the session keys and the page goes to the login page |
| Session.Auth.ApiCall | js/auth.js:236-255 | exactly one request is appended, to the given endpoint, whose body is the form body built from the method, the current token and the data; the session is unchanged |
| Session.Auth.ValidateSession | js/auth.js:181-198 | without a token: false and no call; a `success` reply re-arms the timers and returns true; an `AUTH_REQUIRED` reply clears the session and redirects to the login page; any other reply or a failed call leaves the session and stores unchanged and returns false |
| Session.Auth.Login | js/auth.js:201-218 | true exactly when the server grants the login; then the token and user from the reply are saved with the remember choice and the page goes to the dashboard; a refused or failed login changes neither the session nor the stores |
| Session.Auth.Logout | js/auth.js:221-233 | whatever the server does, the session ends cleared, both stores lose the session keys and the page goes to the login page |
| Session.Auth.RedirectToLogin | js/auth.js:258-262 | navigates to `index.html` unless the current page already is the login page; nothing else changes |
| Session.Auth.RedirectToDashboard | js/auth.js:265-267 | navigates to `dashboard.html`; nothing else changes |
| Session.Auth.RequireAuth | js/auth.js:270-276 | true exactly when logged in; otherwise a redirect to the login page |
| Session.Auth.RequirePermission | js/auth.js:279-286 | true exactly when logged in and the user holds the permission; a logged-out user is redirected, a logged-in one without the permission is not |
| Session.ReadStoredSession | js/auth.js:26-39 | reads one store the way `loadSession` does: the result is the restore decision for that store's entries |
| Session.SaveKeepsOtherEntries | js/auth.js:42-61 | saving a session leaves every entry outside the three session keys untouched in both stores |
| Session.RestoreAfterSave | js/auth.js:26-61 | a store holding a saved token and the profile's JSON text restores exactly that token and profile |
| Session.NonRememberedSessionNotRestored | js/auth.js:26-61 | as written, a session saved without remember-me leaves nothing for `loadSession` to read in the durable store, though the tab store holds it |
| Session.SavedSessionSurvivesReload | js/auth.js:26-61 | with the corrected restore, a session saved with or without remember-me is restored after a reload |
| Session.NothingRestoredAfterClear | js/auth.js:64-82 | after a clear neither store yields a session, to the restore as written or to the corrected one |
| Session.NonRememberedLoginLostOnReload | js/auth.js:26-61 | as written, after a login without remember-me the next page's `Auth` is signed out and `requireAuth` refuses it and sends the window to `index.html` |
| Session.NonRememberedLoginKeptWithFallback | js/auth.js:26-61 | with the corrected start-up, the same login is still in force on the next page unless the server rejects the token |
| Permissions.HasPermission | js/auth.js:100-117 | no user: false; an admin: true for every key; a key missing from the table: true only for an admin |
| Permissions.HasPermissionByRole | js/auth.js:100-117 | for a non-admin, the answer is true exactly when the permission is one of the role's entries in the table |
| Permissions.RolesAreNested | js/auth.js:104-113 | every permission of an operator is also a manager's, and no manager may manage users |
| Permissions.InventoryManagers | js/auth.js:104-113 | `inventory.manage` is granted exactly to admins, managers and operators, and never without a user |
| Api.RequestBody | js/auth.js:241-250 | the body starts with `_method`, then one token entry iff a non-empty token is held, then one entry per data field |
| Api.ReadRequestBody | js/auth.js:241-250 | reading the body back by name gives the method, the token exactly when one is held, and each data field's value |
| Api.LookupAppend | js/auth.js:241-250 | a first-match lookup in a concatenated body finds the first part's entry before the second's |
| Api.LookupDataEntries | js/auth.js:247-249 | each data field is found in the body under its own name with its value as form text |
| Api.BuildRequestBody | js/auth.js:241-250 | the `FormData` filled field by field in a loop is the specified request body |
| UserCodec.DecodeEncodeUser | js/auth.js:33-53 | `JSON.parse` of the `JSON.stringify` text of a profile gives the profile back |
| UserCodec.EncodeUserInjective | js/auth.js:49-53 | distinct profiles are stored as distinct texts |
| UserCodec.ParseEscaped | js/auth.js:33 | the JSON string reader reads back any escaped string and stops at its closing quote |
| WebStorage.Storage.SetItem | js/auth.js:48-53 | `setItem` stores the value under the key and changes no other key |
| WebStorage.Storage.RemoveItem | js/auth.js:68-72 | `removeItem` deletes exactly that key |
| Login.ValidateLoginInput | js/login.js:144-165 | valid exactly when the user name is non-empty with at least 3 UTF-16 units and the password non-empty with at least the configured minimum; valid exactly when no error is reported; one error per failing field and never two for the same field |
| Login.LoginPage.LoadRememberedLogin | js/login.js:29-44 | the user name is prefilled exactly when the remember flag is `true` and a non-empty remembered name is stored, and it is that name |
| Login.LoginPage.Open | js/login.js:14-26 | a logged-in user is sent to the dashboard without prefill and nothing is sent. Otherwise the remembered name is offered, exactly one `init` request is sent (`checkSystemInit`, js/login.js:94-103), and the window stays. The session is untouched either way |
| Login.LoginPage.Submit | js/login.js:50-56 | a submit during a login in flight is ignored; otherwise the trimmed user name and the untrimmed password are validated; an invalid input changes nothing, a valid one starts the login with the button disabled and the inputs as they were |
| Login.LoginPage.CompleteLogin | js/login.js:119-141 | one `login` post with the attempt's credentials; success resets the counter, saves the session and remembers or forgets the user name; failure increments the counter, leaves session and stores alone, and from the maximum on locks the inputs and arms one more unlock timer; on every path the button ends enabled, so the form can be submitted again |
| Login.LoginPage.LoginAndRemember | js/login.js:119-124 | the login call and, after a success, the username kept or removed: the durable store becomes `DurableAfterLogin`, the tab store `TabAfterSave` |
| Login.LoginPage.RememberUsername | js/login.js:122-124 | after a successful login the username is stored for the next visit when remember-me is ticked and deleted otherwise; no other entry changes |
| Login.LoginPage.DisableLoginForm | js/login.js:224-235 | both inputs and the button are disabled and one more unlock timer is pending |
| Login.LoginPage.Unlock | js/login.js:231-234 | when an unlock timer fires the form is re-enabled, the counter is reset to zero and one timer fewer is pending |
| Login.LoginPage.RememberMeChanged | js/login.js:70-75 | unticking remember-me deletes the remembered user name and nothing else; ticking it changes nothing |
| Login.NoPrefillAfterClear | js/login.js:29-44 | after a session clear removed the remember flag, nothing is prefilled |
| Login.PrefillAfterLogin | js/login.js:121-124 | the durable store right after a login, read as `loadRememberedLogin` reads it: the name used after a remembered login, nothing after a non-remembered one (whether a later visit reaches that read is `RememberedNameNotPrefilled`) |
| Login.RememberedNameNotPrefilled | js/login.js:14-44 | as written, the visit after a remembered login prefills nothing, whatever the server answers the session probe: the session is restored and the page redirects before the prefill, or the token is rejected and the clear has removed the remember flag |
| Login.RememberedNameNotPrefilledAfterLogout | js/login.js:14-44 | as written, after a remembered login and a logout, the login page then loaded prefills nothing, because the logout's clear removed the remember flag (js/auth.js:68-70) |
| Login.RememberedNameSurvivesSignOut | js/login.js:121-124 | the corrected prefill, read from the saved username alone: after a remembered login and any later session clear it is the name used, and after a non-remembered login it is nothing |
| Login.LockoutBypassed | js/login.js:126-140 | as written, after six refused logins in a row the counter stands at six, the inputs are locked, the form can still be submitted and two unlock timers are pending |
| Login.ControlsAfterLogin | js/login.js:129-140 | the corrected end of a login attempt: the form can be submitted exactly when it is not locked out |
| App.AsListCases | js/app.js:51-58 | a falsy response gives no rows, an array is returned as it is, otherwise the first array among `data`, `result`, `items`, else no rows |
| App.NormalizeIdempotent | js/app.js:424-425 | trimming and upper-casing an ID twice gives the same as once |
| App.ValidIdIsNormal | js/app.js:424-429 | an ID that matches the format is left as it is by normalisation |
| App.ToUpperIdempotent | js/app.js:425 | upper-casing is idempotent |
| App.ToUpperAppend | js/app.js:425 | upper-casing distributes over concatenation |
| App.TrimOfUpper | js/app.js:424-425 | upper-casing a trimmed string leaves it trimmed |
| App.ProductBodyRejects | js/app.js:424-432 | the add-product body is refused exactly when a non-empty normalised ID fails the 3-20 character `A-Z0-9-` format |
| App.ProductBodyAccepted | js/app.js:424-445 | an accepted body carries the ID first only when one was entered, then the five text fields in order, each the trimmed input of that field, so its length is five or six |
| App.ProductBodyTrimmed | js/app.js:424-445 | every value of an accepted body is trimmed text |
| App.TextFieldValue | js/app.js:436 | a text field is the trimmed input, or the empty string when the form sent no such field |
| App.TextEntriesShape | js/app.js:436-444 | every text entry is a trimmed string under a key other than the ID |
| App.StockLevelOfNumber | js/app.js:273-274 | an integer stock field is read as itself |
| App.StockLevelOfText | js/app.js:273-274 | a text field starting with a printed integer is read as that integer |
| App.StockLevelOfNothing | js/app.js:273-274 | a missing or null stock field is read as 0 |
| App.LowStockOfNumbers | js/app.js:273-275 | an item is low on stock exactly when its current stock is below its minimum |
| App.LowStockWithoutCurrent | js/app.js:273-275 | an item without a current stock is low exactly when its minimum is positive |
| App.MonthlyTransactionsSum | js/app.js:176 | the monthly count is inbound plus outbound, a missing count read as 0 |
| App.Activities | js/app.js:182-191 | the activity list exists exactly when no record is null, and then holds one entry per record, in order |
| App.RecentActivityLayout | js/app.js:180-195 | recent activity is all inbound entries in order followed by all outbound entries, its length the sum of both |
| App.LowStockLineLevels | js/app.js:216-217 | a low-stock line shows each stock level the record holds, and 0 for a missing or null one |
| App.LowStockLines | js/app.js:211-221 | the low-stock panel exists exactly when no record is null, and then holds one line per record, in order |
| App.DashboardShown | js/app.js:172-226 | after a load the monthly figure is the reply's; the activity panel lists every inbound then every outbound record, in order, when none is null, and otherwise keeps what it showed; the low-stock panel lists every record when neither panel holds a null one, and otherwise keeps what it showed |
| App.DashboardPanels | js/app.js:180-226 | rendering the dashboard throws exactly when a recent-activity or low-stock record is null; otherwise both panels list every record |
| App.ChangePasswordGuards | js/app.js:803-826 | a non-admin naming a target user is refused; a trimmed new password shorter than 8 units is refused; otherwise the trimmed new password is sent, and a non-admin never sends target fields |
| JsText.Trim | js/app.js:424 | the trimmed text starts and ends with no whitespace and is no longer than the input |
| JsText.TrimStartDropsSpace | js/app.js:424 | the leading trim keeps a suffix of the text and drops only whitespace |
| JsText.TrimEndDropsSpace | js/app.js:424 | the trailing trim keeps a prefix of the text and drops only whitespace |
| JsText.TrimOfTrimmed | js/login.js:111 | trimming text that neither starts nor ends with whitespace changes nothing |
| JsText.JsLength | js/login.js:151-160 | a string's length in UTF-16 units is between its character count and twice that, and zero only for the empty string |
| JsText.ParseIntOfDecimal | js/app.js:273-274 | `parseInt` reads back a printed integer whatever non-digit follows |
| JsText.DigitsValueOfDecimal | js/app.js:273-274 | the digits printed for a natural number denote that number |
| AppPages.ListRowsCases | js/app.js:233-261 | a thrown call renders nothing; a falsy reply renders an empty table; an array reply renders its own elements exactly when none is null; no rendered row is null |
| AppPages.TablesAfterLoad | js/app.js:233-413 | after a load only the loaded table changes, and to the rendered rows; a failed load changes no table |
| AppPages.CachesAfterLoad | js/app.js:256-408 | only the products, suppliers and customers loaders update their cache, and only with the rows rendered |
| AppPages.PageController.ShowLoading | js/app.js:27-32 | shows or hides the loading overlay and records the call |
| AppPages.PageController.RenderList | js/app.js:237-261 | after a list call the loaded table and, for a cached list, its cache hold the rendered rows, or a failure is reported; the overlay is left as it is |
| AppPages.PageController.LoadList | js/app.js:233-413 | one `GET` to the list's endpoint; the tables and caches become the loaded state, a failure is reported; the overlay is shown and then hidden |
| AppPages.PageController.LoadDashboard | js/app.js:163-230 | one `GET dashboard`; a failed call or `success: false` is reported and changes nothing shown; otherwise the page shows `Displayed` of the previous view and the rendered reply, and a null record in the activity or the low-stock panel is reported; the overlay ends hidden |
| AppPages.PageController.Delete | js/app.js:516-565 | an empty id or a declined confirmation: no call and no overlay; otherwise one `DELETE` naming the record by its key; a refusal is reported without reloading; an acceptance is reported and the list reloaded; the overlay ends hidden on every path |
| AppPages.PageController.ShowAddProductModal | js/app.js:418-419 | the add-product form is shown and nothing else changes |
| AppPages.PageController.SubmitProduct | js/app.js:422-450 | a malformed manual ID throws before any call; otherwise the body is posted; the callback completes, with the products reloaded, exactly when the post is not refused |
| AppPages.PageController.AddProduct | js/app.js:600-620 | the callback completing closes the form and reports success; a throw reports an error and leaves the form open; the overlay ends hidden |
| AppPages.PageController.SubmitPasswordChange | js/app.js:799-840 | the previous message is cleared; the guards report and stop before the overlay is shown; otherwise the checked fields are sent and the reply's message (or a success or failure text) is shown, or a failed call is reported; the overlay ends hidden |

## Left out

- Network I/O: `fetch`, URL building and `res.json()` are not modelled. Each server reply is a parameter. A request is recorded as its endpoint and its form body.
- The passage of time:
  - timers are pending entries with their delays, fired by calling `WarningElapsed` or `SessionExpired`;
  - the 1-second delay before the dashboard redirect after login is collapsed;
  - the 5-minute unlock timer is the `Unlock` method.
- Activity and visibility listeners (`setupSessionMonitoring`, js/auth.js:156-178) are not modelled. They are event wiring that re-arms the same timers.
- Promises and interleaving: each handler runs to completion. Overlapping page loads and the `Promise.all` preload (js/app.js:854-861) are not modelled.
- DOM and presentation: markup, field error texts, notification texts, the password toggle and autocomplete. The dashboard page records its notifications by kind. The notifications of `Auth` and of the login page are not modelled. A modal is modelled only as whether the add-product form is open.
- The dashboard's summary figures (`summary.totalProducts`, `totalInventory`, `lowStockItems`, js/app.js:173-175) are displayed as they arrive and are not modelled.
- Session.Auth.Login: a reply whose `success` is truthy but which carries no `user` cannot be represented. On such a reply `login` saves a half-formed session (the token, and the text "undefined" as the profile) and arms the timers. It then throws on `response.user.username` and returns false. The model's claim that a failed login leaves the session and the stores unchanged covers only the replies it can represent.
- Session.Auth.constructor: `validateSession` is not awaited (js/auth.js:20-21), so in the program its reply can arrive after the page's own `DOMContentLoaded` handler has run (js/login.js:16) and seen the restored session. The model takes the `dashboard` probe to resolve inside the constructor, before any page handler runs.
- Login.LoginPage.Open: the `init` request of `checkSystemInit` is recorded, but its reply is not modelled, because the page only logs it.
- `auth.changePassword` is called by the change-password form but is not defined in js/auth.js. Its outcome is a parameter of `SubmitPasswordChange`. As written, the call throws, and that is the `CallFailed` reply.
- The add-supplier, add-customer, add-inbound and add-outbound forms are not modelled. They post the raw form fields and reload a list, through the same `setupFormHandler` shown for products.
- `Number(...)` of prices and quantities, and date formatting: floating point and locale. The four numeric product fields are not in `ProductBody`.
- JSON numbers are unbounded integers in `Json`. JavaScript numbers are doubles: integers beyond 2^53 are not exact, and from 1e21 on `String(n)` uses exponent form, which `parseInt` reads only up to the exponent. For those magnitudes `IntToDecimal` and `StockLevelOfNumber` do not describe the program.
- UserCodec.DecodeUser: parses only the canonical text `JSON.stringify` writes for a three-field profile (`id`, `username`, `role`). Any other stored text is treated as unparsable, which `loadSession` answers by clearing the session.
- JsText.UpperChar: upper-cases only the characters whose upper case is ASCII. Every other character is kept, where `toUpperCase` would map it.
- App.MonthlyTransactions: when a count is present but not a number, the result is `None`. JavaScript `+` would concatenate strings there.
- Permissions.HasPermission: for a non-admin, a key inherited from `Object.prototype` (such as `constructor`, `toString` or `__proto__`) is treated as absent from the table, and the answer is false. In the source, `permissions[permission]` is then a function or `Object.prototype`, and calling `.includes` on it throws a TypeError (js/auth.js:115-116).
- Web Storage exceptions (quota, disabled storage) are not modelled.

## Findings

| source | as written | input that shows it | evidently intended | confidence | as-written member | corrected member |
|---|---|---|---|---|---|---|
| js/auth.js:26-39 | `loadSession` reads only `localStorage`, while `saveSession(..., false)` writes only to `sessionStorage` | log in without "remember me", then open `dashboard.html`: the new `Auth` restores nothing, and `requireAuth` sends the user back to the login page | restore from the tab store when the durable store holds no session | not executed | Session.NonRememberedLoginLostOnReload | Session.NonRememberedLoginKeptWithFallback |
| js/login.js:14-44 | the remembered username is prefilled only when the remember flag is `true`, but that flag is written only with a remembered session (js/auth.js:48-50) and removed with every session clear (js/auth.js:68-70), while a restored session is redirected before the prefill | log in with "remember me", then open the login page again: the session is restored and the page goes to the dashboard; log out (or have the token rejected) and open it again: the flag is gone and nothing is prefilled | the saved username is filled in on a later visit, persisting across sessions | not executed | Login.RememberedNameNotPrefilled | Login.RememberedNameSurvivesSignOut |
| js/login.js:129-140 | after the fifth failure `disableLoginForm` disables the form, but the `finally` block's `setLoginButtonState(false)` re-enables the login button | five failed logins, then a click on the login button: the submit handler runs again while the inputs are locked | the button stays disabled until the lockout ends | not executed | Login.LockoutBypassed | Login.ControlsAfterLogin |
