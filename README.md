# Restaurant dashboard app: a Dafny model of its core

The application is a small restaurant-management app built on a Manifest backend. This project
models three parts of it and proves properties about them.

- **The backend's health endpoint.** It computes the app id from the `X-App-ID` header and
  decides the CORS `Access-Control-Allow-Origin` value. The value comes from the
  `ALLOWED_ORIGINS` environment variable, which is either a wildcard or a comma-separated
  allow-list whose entries are trimmed. The handler then sets the three CORS headers and
  answers 200 with a health payload, or 500 with an error payload.
- **The owner's dashboard page.** It holds the restaurant list, the restaurant-id-keyed map
  of menu items, a loading flag and two forms. Its handlers load restaurants (with a fan-out
  of per-restaurant menu-item loads), create and delete restaurants (deletes need a
  confirmation), and create and delete menu items. It renders the restaurant cards.
- **The top-level app component.** It probes the backend at start-up and restores a session.
  It handles login, signup and logout, and chooses between the landing page and the dashboard.

Modules:

| module | what it holds |
|---|---|
| `Strings` | JavaScript's `String.prototype.trim` (ECMAScript's whitespace and line-terminator sets) and `split` with a one-character separator |
| `Sdk` | the records the client sees, the outcome of one awaited SDK call, and the calls it sends |
| `HealthCheck` | the health handler, with an Express-like `Response` class that records every change |
| `DashboardPage` | the dashboard: pure step functions, and a `Dashboard` class whose methods update its fields and are proved equal to those steps |
| `Application` | the app component, in the same shape: step functions plus an `App` class |

Every awaited SDK call is an `Outcome` parameter: resolved with data, or rejected with a message.
Each `window.confirm` is a boolean parameter. Requests sent and alerts raised are recorded in
order in sequence fields. The clock, the process environment and the request headers of the
health handler are parameters as well.

Logout might be expected to clear the session unconditionally. The code
(`frontend/src/App.jsx:64-68`) has no `catch`, so a rejected remote logout leaves the session as
it was. The model follows the code.

## Model

| member | source | states |
|---|---|---|
| `Strings.Trim` | backend/handlers/healthCheck.js:14 | `trim`'s result starts and ends with a non-whitespace character (or is empty), and is no longer than its input |
| `Strings.TrimSlice` | backend/handlers/healthCheck.js:14 | the trimmed string is the part of the input right after its leading whitespace, and is followed only by whitespace |
| `Strings.TrimPadded` | backend/handlers/healthCheck.js:14 | whitespace of any kind on both sides of a trimmed string is removed by `trim` |
| `Strings.TrimFixedPoint` | backend/handlers/healthCheck.js:14 | `trim` leaves a string unchanged exactly when it is already trimmed, and is idempotent |
| `Strings.TrimEmptyIff` | frontend/src/screens/DashboardPage.jsx:47 | `s.trim()` is empty exactly when every character of `s` is whitespace |
| `Strings.BlankIff` | frontend/src/screens/DashboardPage.jsx:47 | the blank predicate used by the form guards holds exactly for all-whitespace strings |
| `Strings.BlankIffTrimEmpty` | frontend/src/screens/DashboardPage.jsx:71 | the blank predicate is exactly the guard `!s.trim()` |
| `Strings.Split` | backend/handlers/healthCheck.js:14 | `split(',')` yields at least one piece, and no piece contains the separator |
| `Strings.JoinSplit` | backend/handlers/healthCheck.js:14 | joining the pieces of a split with the separator gives back the original list text |
| `Strings.SplitJoin` | backend/handlers/healthCheck.js:14 | splitting a join of separator-free entries gives back exactly those entries |
| `HealthCheck.HeaderNamesDistinct` | backend/handlers/healthCheck.js:11-19 | the three CORS header names differ, so no header call overwrites another |
| `HealthCheck.OrDefault` | backend/handlers/healthCheck.js:28-29 | `v \|\| fallback` is the value when present and non-empty, and the fallback otherwise |
| `HealthCheck.AppId` | backend/handlers/healthCheck.js:4 | the app id is the `X-App-ID` header when present and non-empty, and exactly "Unknown" otherwise; it is never empty |
| `HealthCheck.AllowList` | backend/handlers/healthCheck.js:9 | `ALLOWED_ORIGINS`, or "*" when it is unset or empty; its meaning is stated by `AllowOrigin` and `WildcardIff` |
| `HealthCheck.Listed` | backend/handlers/healthCheck.js:14 | some comma-separated entry equals the origin once trimmed; stated as an iff over the entries by `SomeTrimmedEquals` and `AllowOriginListedIff` |
| `HealthCheck.SomeTrimmedEquals` | backend/handlers/healthCheck.js:14 | `some(o => o.trim() === origin)` holds exactly when some entry trims to the origin |
| `HealthCheck.AllowOrigin` | backend/handlers/healthCheck.js:9-17 | a wildcard list answers "*"; otherwise the header is set exactly for a present, non-empty, listed origin, and its value is that origin |
| `HealthCheck.AllowOriginListedIff` | backend/handlers/healthCheck.js:12-16 | outside the wildcard case, the header is set exactly when the origin is present, non-empty and equal to a trimmed comma-split entry; the value is the origin verbatim |
| `HealthCheck.WildcardIff` | backend/handlers/healthCheck.js:9-11 | every request gets "*" exactly when `ALLOWED_ORIGINS` is unset, empty or exactly "*" |
| `HealthCheck.EmptyOriginRejected` | backend/handlers/healthCheck.js:14 | outside the wildcard case, a missing or empty `Origin` is never allowed |
| `HealthCheck.UntrimmedOriginRejected` | backend/handlers/healthCheck.js:14 | the request origin is not trimmed: one with surrounding whitespace is never allowed |
| `HealthCheck.OriginWithCommaRejected` | backend/handlers/healthCheck.js:14 | an origin containing a comma matches no entry |
| `HealthCheck.PaddedEntryAllowed` | backend/handlers/healthCheck.js:14-15 | an entry written with whitespace around an origin allows that origin and echoes it |
| `HealthCheck.SplitTwoEntries` | backend/handlers/healthCheck.js:14 | "a,*" splits into the two entries "a" and "*" |
| `HealthCheck.ListWithStarIsNotWildcard` | backend/handlers/healthCheck.js:10-15 | the list "a,*" is not a wildcard: it allows "a", and rejects other origins and " a" |
| `HealthCheck.SuccessPayload` | backend/handlers/healthCheck.js:22-30 | the health body: "ok", "running", "1.0.0", `NODE_ENV` or "production", `PORT` or "1111", with the entry timestamp and app id |
| `HealthCheck.ErrorPayload` | backend/handlers/healthCheck.js:37-42 | the error body: "error", with the entry timestamp and app id and the error message |
| `HealthCheck.CorsEvents` | backend/handlers/healthCheck.js:8-19 | the three header calls in order (allow-origin only when decided); its order is stated by `TraceOrder`, the resulting map by `HandlerHeaders` |
| `HealthCheck.StatusAndBody` | backend/handlers/healthCheck.js:21-44 | the status and body calls on the success path and on the two throw points; stated by `TraceOrder` and `HandlerBody` |
| `HealthCheck.Trace` | backend/handlers/healthCheck.js:8-44 | every call the handler makes, in order; stated by `TraceOrder` and `HandlerBody`, and made by `Handle` |
| `HealthCheck.TraceOrder` | backend/handlers/healthCheck.js:8-44 | on every path the CORS headers come first and no header follows them; the final status (200, or 500 after a throw) comes just before the JSON body; an extra 200 status precedes the 500 exactly when `json` threw |
| `HealthCheck.HandlerHeaders` | backend/handlers/healthCheck.js:11-19 | methods and headers are always set to their fixed lists; allow-origin is set exactly when decided; no other header changes |
| `HealthCheck.HandlerBody` | backend/handlers/healthCheck.js:21-45 | the body sent is the health payload on success and the error payload on failure, with the inputs' timestamp and app id |
| `HealthCheck.Response.SetHeader` | backend/handlers/healthCheck.js:11 | `setHeader` replaces that header's value and records the call |
| `HealthCheck.Response.Status` | backend/handlers/healthCheck.js:33 | `status` sets the code and records the call |
| `HealthCheck.Response.Json` | backend/handlers/healthCheck.js:44 | `json` sets the body and records the call |
| `HealthCheck.SetAllowOrigin` | backend/handlers/healthCheck.js:9-17 | the branch on the allow-list makes exactly the allow-origin call that `AllowOrigin` decides, or none |
| `HealthCheck.AddCorsHeaders` | backend/handlers/healthCheck.js:8-19 | the CORS calls are made in order and leave the headers described by `HandlerHeaders`; status and body are untouched |
| `HealthCheck.Handle` | backend/handlers/healthCheck.js:2-46 | the handler's calls are the CORS headers, then `status(200)` unless the throw came before it, then the success body or `status(500)` and the error body; the final status is 200 on success and 500 on failure |
| `DashboardPage.SetItems` | frontend/src/screens/DashboardPage.jsx:35-37 | a successful item load sets the restaurant's key to exactly the response data; a failed one changes nothing; other keys are kept |
| `DashboardPage.SetItemsCommute` | frontend/src/screens/DashboardPage.jsx:21-35 | item loads for different restaurants commute |
| `DashboardPage.ApplyLoads` | frontend/src/screens/DashboardPage.jsx:21-35 | completed loads never remove a key, and keep every key that no successful load touched |
| `DashboardPage.ApplyLoadsAt` | frontend/src/screens/DashboardPage.jsx:21-35 | for distinct restaurants, each key ends with the data of its own successful load; a key with none keeps its presence |
| `DashboardPage.PermutationKeepsDistinct` | frontend/src/screens/DashboardPage.jsx:21-35 | a reordering of loads for distinct restaurants is again a list of distinct restaurants |
| `DashboardPage.FanOutOrderIrrelevant` | frontend/src/screens/DashboardPage.jsx:21-35 | any completion order (any reordering) of the fan-out's loads, for distinct restaurants, gives the same map |
| `DashboardPage.FanOut` | frontend/src/screens/DashboardPage.jsx:21 | the fan-out issues one load per returned restaurant, in list order |
| `DashboardPage.IssuedFinds` | frontend/src/screens/DashboardPage.jsx:31-34 | each load sends one menu-item find for its restaurant, in order |
| `DashboardPage.LoadMenuItemsStep` | frontend/src/screens/DashboardPage.jsx:29-39 | one item load: the find is sent, then the key is replaced on success; stated by `LoadMenuItemsTouchesOneKey` |
| `DashboardPage.LoadRestaurantsStep` | frontend/src/screens/DashboardPage.jsx:12-27 | one restaurant reload with its fan-out; stated by `LoadRestaurantsEffect` and `LoadRestaurantsItems` |
| `DashboardPage.CreateRestaurantStep` | frontend/src/screens/DashboardPage.jsx:45-55 | the create-restaurant handler; stated by `BlankRestaurantNameIsNoOp` and `CreateRestaurantSends` |
| `DashboardPage.DeleteRestaurantStep` | frontend/src/screens/DashboardPage.jsx:57-66 | the delete-restaurant handler; stated by `DeletesNeedConfirmation` and `ConfirmedDeleteEffect` |
| `DashboardPage.MenuItemFormFilled` | frontend/src/screens/DashboardPage.jsx:71 | the guard `!name.trim() \|\| !price` negated; tied to `trim` by `BlankIffTrimEmpty` and used by `UnfilledMenuItemIsNoOp` and `CreateMenuItemEffect` |
| `DashboardPage.CreateMenuItemStep` | frontend/src/screens/DashboardPage.jsx:68-85 | the create-menu-item handler; stated by `UnfilledMenuItemIsNoOp` and `CreateMenuItemEffect` |
| `DashboardPage.DeleteMenuItemStep` | frontend/src/screens/DashboardPage.jsx:87-96 | the delete-menu-item handler; stated by `DeletesNeedConfirmation` and `ConfirmedDeleteEffect` |
| `DashboardPage.LoadMenuItemsTouchesOneKey` | frontend/src/screens/DashboardPage.jsx:29-39 | `loadMenuItems(id)` replaces exactly the key `id` on success, and leaves the map unchanged on failure |
| `DashboardPage.LoadRestaurantsEffect` | frontend/src/screens/DashboardPage.jsx:12-27 | the list becomes the response or stays; loading ends false; no key is removed; one item find goes out per returned restaurant, in order |
| `DashboardPage.LoadRestaurantsItems` | frontend/src/screens/DashboardPage.jsx:20-35 | after a reload, each listed restaurant with a successful item load holds exactly that load's data |
| `DashboardPage.BlankRestaurantNameIsNoOp` | frontend/src/screens/DashboardPage.jsx:47 | a blank restaurant name makes the create handler a no-op: no request and no state change |
| `DashboardPage.CreateRestaurantSends` | frontend/src/screens/DashboardPage.jsx:48-54 | a non-blank name is sent untrimmed with the owner's id; on success the field clears and the list reloads; on failure only the request log changes |
| `DashboardPage.UnfilledMenuItemIsNoOp` | frontend/src/screens/DashboardPage.jsx:71 | a blank item name or an empty price makes the create handler a no-op |
| `DashboardPage.CreateMenuItemEffect` | frontend/src/screens/DashboardPage.jsx:70-84 | a filled form is sent as typed; on success the form resets and only that restaurant's key reloads |
| `DashboardPage.DeletesNeedConfirmation` | frontend/src/screens/DashboardPage.jsx:57-96 | a declined confirmation changes nothing; a delete is sent exactly when confirmed |
| `DashboardPage.ConfirmedDeleteEffect` | frontend/src/screens/DashboardPage.jsx:59-94 | after a confirmed delete, a failure changes only the request log; success reloads the list, or only that restaurant's items |
| `DashboardPage.ItemsFor` | frontend/src/screens/DashboardPage.jsx:154-156 | the items shown are the map's entry for the restaurant, or none when there is no entry |
| `DashboardPage.DescriptionText` | frontend/src/screens/DashboardPage.jsx:145 | the description line is the restaurant's description, or "No description" when it is empty |
| `DashboardPage.Render` | frontend/src/screens/DashboardPage.jsx:134-182 | the restaurant section: loading, the empty message, or the cards; stated by `RenderCards`, `OrphanEntriesNeverShown` and `StaleLoadInvisible` |
| `DashboardPage.RenderCards` | frontend/src/screens/DashboardPage.jsx:134-182 | once loaded, there is one card per listed restaurant, in order, with its description line and its own items |
| `DashboardPage.OrphanEntriesNeverShown` | frontend/src/screens/DashboardPage.jsx:140-156 | map entries for restaurants that are not listed never affect what is shown |
| `DashboardPage.StaleLoadInvisible` | frontend/src/screens/DashboardPage.jsx:140-156 | a load that completes for an unlisted restaurant does not change the view |
| `DashboardPage.Dashboard.constructor` | frontend/src/screens/DashboardPage.jsx:6-10 | the initial state: no restaurants, an empty map, loading, empty forms |
| `DashboardPage.Dashboard.EditRestaurantName` | frontend/src/screens/DashboardPage.jsx:121 | typing sets only the restaurant-name field |
| `DashboardPage.Dashboard.EditMenuItem` | frontend/src/screens/DashboardPage.jsx:174-177 | typing sets only the menu-item form |
| `DashboardPage.Dashboard.LoadMenuItems` | frontend/src/screens/DashboardPage.jsx:29-39 | the new state is the item-load step of the old one |
| `DashboardPage.Dashboard.LoadEachRestaurantsItems` | frontend/src/screens/DashboardPage.jsx:21 | the `forEach` loop applies every load of the fan-out in order, and logs each find |
| `DashboardPage.Dashboard.LoadRestaurants` | frontend/src/screens/DashboardPage.jsx:12-27 | the new state is the restaurant-reload step of the old one |
| `DashboardPage.Dashboard.HandleCreateRestaurant` | frontend/src/screens/DashboardPage.jsx:45-55 | the new state is the create-restaurant step of the old one |
| `DashboardPage.Dashboard.HandleDeleteRestaurant` | frontend/src/screens/DashboardPage.jsx:57-66 | the new state is the delete-restaurant step of the old one |
| `DashboardPage.Dashboard.HandleCreateMenuItem` | frontend/src/screens/DashboardPage.jsx:68-85 | the new state is the create-menu-item step of the old one |
| `DashboardPage.Dashboard.HandleDeleteMenuItem` | frontend/src/screens/DashboardPage.jsx:87-96 | the new state is the delete-menu-item step of the old one |
| `Application.DashboardOnlyWhenSignedIn` | frontend/src/App.jsx:70-91 | the dashboard is rendered exactly when start-up is over, the dashboard screen is current and a user is signed in, and then for that user |
| `Application.IndicatorReflectsConnection` | frontend/src/App.jsx:80-85 | the connection badge depends only on `backendConnected`, and tells its two values apart |
| `Application.InitializeEffect` | frontend/src/App.jsx:16-40 | a failed probe leaves user and screen; otherwise `me()` decides dashboard-with-user or landing-with-nobody; loading always ends |
| `Application.LoginEffect` | frontend/src/App.jsx:42-52 | both calls succeed and the user is on the dashboard, or user and screen stay and exactly one login alert is raised |
| `Application.SignupEffect` | frontend/src/App.jsx:54-62 | a failed signup sends no login and raises only the signup alert; a successful one is exactly `login`, whose failure raises only the login alert |
| `Application.LogoutEffect` | frontend/src/App.jsx:64-68 | a resolved logout signs out to the landing page; a rejected one leaves user and screen |
| `Application.InitializeStep` | frontend/src/App.jsx:16-40 | the start-up transition; stated by `InitializeEffect` and `TransitionsKeepConsistent` |
| `Application.LoginStep` | frontend/src/App.jsx:42-52 | the login transition; stated by `LoginEffect` and `TransitionsKeepConsistent` |
| `Application.SignupStep` | frontend/src/App.jsx:54-62 | the signup transition; stated by `SignupEffect` and `TransitionsKeepConsistent` |
| `Application.LogoutStep` | frontend/src/App.jsx:64-68 | the logout transition; stated by `LogoutEffect` and `TransitionsKeepConsistent` |
| `Application.ConnectionIndicator` | frontend/src/App.jsx:80-85 | the badge's colours and caption for each connection state; stated by `IndicatorReflectsConnection` |
| `Application.Render` | frontend/src/App.jsx:70-91 | the loading screen, or the badge with the landing page or the dashboard; stated by `DashboardOnlyWhenSignedIn` |
| `Application.TransitionsKeepConsistent` | frontend/src/App.jsx:10-68 | every transition keeps "dashboard screen implies a signed-in user" |
| `Application.App.constructor` | frontend/src/App.jsx:10-13 | the initial state: nobody signed in, landing screen, not connected, loading |
| `Application.App.InitializeApp` | frontend/src/App.jsx:17-37 | the new state is the start-up step of the old one |
| `Application.App.Login` | frontend/src/App.jsx:42-52 | the new state is the login step of the old one |
| `Application.App.Signup` | frontend/src/App.jsx:54-62 | the new state is the signup step of the old one |
| `Application.App.Logout` | frontend/src/App.jsx:64-68 | the new state is the logout step of the old one |
| `Application.LoginFromLanding` | frontend/src/App.jsx:16-52 | with no session, a working login moves the view from the landing page to that user's dashboard |

## Left out

- Logging (`console.log`, `console.error`) is not modelled: it does not change any state.
- `alert` is recorded as an entry in the alert log. `window.confirm` is a boolean input.
- `new Date().toISOString()`, `process.env` and `req.get` are parameters of the health handler.
- The health handler's `try` block would only throw from code outside this model. Its failure is a parameter: where the error is thrown (before `res.status(200)`, or inside `json` after it) and the error's message.
- `HealthCheck.Handle`: a `json` call that throws is modelled as recording nothing, although Express may have set some headers or written part of the response by then; a second throw from the `catch` block's own `json` is not modelled, nor is `error.message` of a thrown value that is not an `Error` (it would be `undefined`).
- Express treats header names case-insensitively. The model's header map compares names exactly.
- Headers that Express sets itself inside `res.json` and `res.send` (`Content-Type`, `Content-Length`, `ETag`) are not modelled: `Response.Json` leaves the header map as it was, so `Handle`'s header equation and `HandlerHeaders` cover only the handler's own `setHeader` calls.
- `testBackendConnection` is not part of this model. Only its `success` flag is an input: the connection test is assumed to resolve with that flag. Were it to reject, `initializeApp` would stop before `setIsLoading(false)` (`frontend/src/App.jsx:19`, `:36`), and `InitializeEffect`'s "loading always ends" would not hold.
- The per-render construction of the `Manifest` SDK client (`frontend/src/App.jsx:14`) is not modelled.
- What the backend does is not modelled: filtering by owner or restaurant, sorting by `createdAt`, `include` and cascading deletes. Each SDK call is an outcome input.
- `me()` resolving to `null` is not modelled. A resolved `me()` always carries a user.
- `parseFloat(price)` is floating-point parsing. The price is kept as the text typed, and that text is what the create request carries.
- Async interleaving is not modelled. A reload a handler starts without awaiting it is modelled as running to completion. The fan-out's loads are applied in issue order; for loads of restaurants with distinct ids, `FanOutOrderIrrelevant` shows that any other order gives the same map. When two loads share an id, the last one to complete wins.
- JSX markup, styling, icons and the admin-panel link are not modelled. Rendering is reduced to what is shown: loading, the empty message, the cards with their items, the connection badge, and the landing page or the dashboard.
- `frontend/src/screens/LandingPage.jsx` is not part of this model. Its forms call `login` and `signup`, which are modelled.
- `e.preventDefault()` and the inputs' `required` attributes are browser behaviour and are not modelled.
- A restaurant without a `description` field (`undefined`) is modelled as one whose description is `""`: `Sdk.Restaurant.description` is a plain string, and `DescriptionText` shows "No description" for both.
