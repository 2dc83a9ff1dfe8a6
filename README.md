# Names-Dashboard client logic, in Dafny

A model of the client-side logic of the watchers dashboard, a browser admin panel for viewer
interactions ("watchers") on streaming platforms. The model covers:

- **Admin page** (`admin.dfy`). The table state is read from the URL query parameters: page 1, perPage 10,
  search `""` and sortBy `""` are the defaults. The table's column filters are collapsed to a search
  text and a single sort key. The URL-sync effect rewrites the URL only when the URL and the table
  disagree: it sets page and perPage, sets or deletes search and sortBy, and keeps every other
  parameter. The single-delete and delete-all flows raise their toasts, with no toast for a 401.
- **Home page filter** (`home.dfy`). A row is kept when its name contains the title text, ignoring case,
  and its platform is one of the selected platforms.
- **Breadcrumb trail** (`breadcrumb.dfy`). A fixed Home link comes first, then one entry per path segment.
  Each entry's path is `"/"` followed by the segments so far joined with `"/"`. Only the last entry
  is the current page.
- **Query layer** (`http.dfy`, `watcher_query.dfy`, `login_query.dfy`). Covers the watchers query key and
  its request. Every failure is normalised to `{ message, status }`, with a fallback message per
  call site, status 500 when there is none, and a generic message for anything that is not an HTTP error.
- **Credential store** (`auth.dfy`). One bearer token lives in `localStorage` under `auth_token`.
- **HTTP client interceptors** (`api.dfy`). The request step attaches `Bearer <token>` when a non-empty
  token is stored. The response step turns a 401 into "remove the token and go to `/login`" and
  passes every outcome on unchanged.
- **Login form** (`login_form.dfy`). On success it stores the token, raises a toast and navigates,
  replacing history, to the page the user came from or `/`. On failure it raises one error toast.

`js.dfy` states the JavaScript built-ins this logic relies on: truthiness and `||`, `Number()` on
parameter text, `String()` of an integer, `join`, ASCII `toLowerCase`, and `includes`. `env.dfy` is
the browser, reduced to three things: the storage map, `href`, and an ordered log of effects (storage
writes, toasts, router navigations, location assignments, refetches). `href` is the target of the last
direct `window.location.href = …` assignment, which is a full page load. Router navigations change
the address through the History API and are only logged.

Pure expressions in the source are functions. Code with state is imperative:
- the credential store and the interceptors are methods acting on a `Browser`;
- the interceptor that edits the request configuration in place works on a `RequestConfig` object;
- the URL-sync effect builds a `SearchParams` object and updates it with `Set`/`Delete`.

Each such method is proved against a pure function of its inputs and old state, and the lemmas
are stated about those functions.

Behaviour the proofs bring out, modelled as written:
- `login-form.tsx:34` stores `response.token`, but the declared login response has `accessToken`
  and `refreshToken`. For a response of that declared shape, `localStorage.setItem` stores the
  text `"undefined"`. The user then counts as authenticated and later requests carry
  `Authorization: Bearer undefined` (`LoginForm.DeclaredShapeStoresUndefined`).
- The login request throws plain objects, never `Error` instances. So every failed login shows
  "An unexpected error occurred", whatever the server said (`LoginForm.FailureToastIsGeneric`).
- A 401 from `POST /login` also goes through the response interceptor: it removes the token and
  assigns `/login` to the location (`LoginForm.HandleLogin`).
- The delete normalisers always produce a non-empty message. So the admin page's own fallback texts
  ("Failed to delete watcher", "Failed to delete all watchers") are never the ones chosen
  (`Admin.DeleteToastFromFailure`).
- After the sync effect has navigated, a second run settles exactly when four things hold: the page
  number is non-zero, the page size is non-zero, the search value is a string and the sort value is
  a string (`Admin.SecondPassSettles`). An interaction filter holding an empty list gives the sort
  value `undefined`, and then every run navigates (`Admin.EmptyInteractionListAlwaysNavigates`).
- The table's initial state carries only the username filter. So, provided the table hook starts
  from the `initialState` it is given, on first render the effect leaves the URL alone exactly when
  the URL has no sort key (`Admin.InitialSyncIff`).

Notes on the code:
- `isAuthenticated` (`src/lib/auth.ts:17`) is `!!getItem(...)`, so an empty stored token counts as
  signed out (`Auth.AuthenticatedIff`).
- The response interceptor (`src/lib/axios.ts:30-35`) removes the token and assigns `/login` on every
  401 it sees. Handling the same 401 twice leaves the same state as handling it once
  (`Api.RejectionIdempotent`).
- A row's platform (`Home.Project.platform`) is a plain string, and the status filter compares it
  by equality (`src/pages/home/Home.tsx:77`).

## Model

| member | source | states |
|---|---|---|
| `Js.Number` | src/pages/admin/Admin.tsx:38-39 | `Number(text)` is defined exactly for the empty text, a digit run, or `-` and a digit run: the empty text is 0, a digit run is its decimal value (leading zeros allowed), and `-` and a digit run is minus that value |
| `Js.NumberOr` | src/pages/admin/Admin.tsx:38-39 | `Number(get(k))`, falling back to `d`, is `d` when the parameter is absent, not a number, or 0, and the number otherwise |
| `Js.NumberOfString` | src/pages/admin/Admin.tsx:237-238 | `Number(String(n))` is `n` for every integer, so page numbers written to the URL read back unchanged |
| `Js.Or` | src/pages/admin/Admin.tsx:221 | JavaScript's or-operator gives `a` when `a` is truthy and `b` otherwise |
| `Js.Truthy` | src/pages/admin/Admin.tsx:239-244 | JavaScript truthiness: `undefined` and `""` are falsy, a non-empty string and every array are truthy |
| `Js.ToString` | src/pages/admin/Admin.tsx:240 | the text a filter value becomes when written into a parameter: a string itself, an array joined with commas, `undefined` as "undefined" |
| `Js.Join` | src/components/breadcrumb-modal/breadcrumbModal.tsx:27 | `join(sep)`: the elements in order with `sep` between neighbours, `""` for no elements |
| `Js.IntToString` | src/pages/admin/Admin.tsx:237-238 | `String(n)`: decimal digits, with a leading `-` for a negative number |
| `Js.Lower` | src/pages/home/Home.tsx:75 | lower-casing keeps the length and maps each character through ASCII lower-casing |
| `Js.LowerIdempotent` | src/pages/home/Home.tsx:75 | lower-casing twice is lower-casing once |
| `Js.Includes` | src/pages/home/Home.tsx:75 | `s.includes(t)` holds exactly when `t` occurs in `s` at some index |
| `Env.Browser.ShowToast` | src/components/login-form.tsx:35 | a toast is appended to the effect log; storage and the assigned `href` are unchanged |
| `Env.Browser.NavigateTo` | src/components/login-form.tsx:39 | a router navigation with its replace flag is appended to the log; storage and the assigned `href` are unchanged |
| `Env.Browser.NavigateToSearch` | src/pages/admin/Admin.tsx:249 | a navigation to new query parameters with its replace flag is appended to the log; storage and the assigned `href` are unchanged |
| `Env.Browser.RequestRefetch` | src/pages/admin/Admin.tsx:48 | a refetch of the list query is appended to the log; storage and the assigned `href` are unchanged |
| `Http.Normalise` | src/queries/watchers/WatcherQuery.ts:34-44 | an HTTP error gets the server's non-empty message or the fallback, and its status unless absent or 0 (then 500); any other error gets the generic message and 500; the status is never 0 and is 401 exactly for a 401 response |
| `Http.IsUnauthorized` | src/lib/axios.ts:30 | `error.response?.status === 401`: an HTTP error with a response whose status is 401 |
| `Http.ServerMessage` | src/queries/watchers/WatcherQuery.ts:36 | `error.response?.data?.message` when it is present and non-empty; a result is always that non-empty message |
| `Http.Settle` | src/queries/watchers/WatcherQuery.ts:30-45 | the data on success; the error normalised with the call site's fallback on failure |
| `Auth.StoredToken` | src/lib/auth.ts:8-10 | `getToken()` is present exactly when the `auth_token` entry exists, and is its value |
| `Auth.WithToken` | src/lib/auth.ts:4-6 | after `setToken(t)` the stored token is `t`, the key set gains `auth_token`, other entries are unchanged |
| `Auth.WithoutToken` | src/lib/auth.ts:12-14 | after `removeToken()` no token is stored and only the `auth_token` entry is gone |
| `Auth.SetThenGet` | src/lib/auth.ts:4-9 | `getToken()` after `setToken(t)` is `t`, and a second `setToken` overrides the first |
| `Auth.RemoveThenSignedOut` | src/lib/auth.ts:12-17 | after `removeToken()` `getToken()` is absent and `isAuthenticated()` is false |
| `Auth.RemoveIdempotent` | src/lib/auth.ts:12-14 | removing the token twice gives the storage that removing it once does |
| `Auth.AuthenticatedIff` | src/lib/auth.ts:16-18 | `isAuthenticated()` holds exactly when a non-empty token is stored |
| `Auth.SetToken` | src/lib/auth.ts:4-6 | writes the token entry only, records the write, leaves the assigned `href` alone |
| `Auth.GetToken` | src/lib/auth.ts:8-10 | returns the stored token, if any |
| `Auth.RemoveToken` | src/lib/auth.ts:12-14 | removes the token entry only and records the removal |
| `Auth.Authenticated` | src/lib/auth.ts:17 | signed in means an `auth_token` entry that is not empty |
| `Auth.IsAuthenticated` | src/lib/auth.ts:16-18 | returns whether a non-empty token is stored |
| `Api.RequestConfig.constructor` | src/lib/axios.ts:5-10 | a request starts with the client's default `Content-Type: application/json` header |
| `Api.WithAuthorization` | src/lib/axios.ts:15-19 | with a non-empty token, `Authorization` is `Bearer <token>`; every other header is unchanged; without one the headers are unchanged |
| `Api.OnRequest` | src/lib/axios.ts:14-20 | the interceptor updates the configuration it is given, in place, from the token stored at that moment, and returns it |
| `Api.AfterRejection` | src/lib/axios.ts:29-37 | a 401 leaves no token (so not authenticated) and the location at `/login`; any other error changes nothing |
| `Api.RejectionEffects` | src/lib/axios.ts:30-35 | the interceptor issues effects exactly for a 401 |
| `Api.RejectionIdempotent` | src/lib/axios.ts:30-35 | handling the same 401 twice leaves the state that handling it once does |
| `Api.AfterCall` | src/lib/axios.ts:28 | a successful response changes nothing |
| `Api.OnResponseError` | src/lib/axios.ts:29-37 | rejects with the same error; removes the token then assigns `/login` on a 401, and touches nothing otherwise |
| `Api.Call` | src/lib/axios.ts:13-39 | one request: headers from the token stored when it is sent, the outcome passed back unchanged, and the error step's state change and effects |
| `Api.CallEffects` | src/lib/axios.ts:27-37 | a delivered response issues no effect; a failed one issues the interceptor's rejection effects |
| `Api.TokenReadPerRequest` | src/lib/axios.ts:15 | a token stored between two requests is the one the second request sends: the token is read per request, not captured |
| `WatcherQuery.QueryKey` | src/queries/watchers/WatcherQuery.ts:28 | the key `['watchers', page, pageSize, prefix, sortBy]`, from which the parameters read back exactly |
| `WatcherQuery.DeleteRequest` | src/queries/watchers/WatcherQuery.ts:54 | a `DELETE` whose path is `/dashboard/watchers`, then `/`, then exactly the id |
| `WatcherQuery.GetWatchersQuery` | src/queries/watchers/WatcherQuery.ts:26-31 | the key `['watchers', page, pageSize, prefix, sortBy]` decodes back to exactly the parameters, and the request passes them to `GET /dashboard/watchers` unchanged |
| `WatcherQuery.KeyInjective` | src/queries/watchers/WatcherQuery.ts:28 | two parameter sets share a query key exactly when they are equal |
| `WatcherQuery.RunWatchersQuery` | src/queries/watchers/WatcherQuery.ts:29-45 | a page comes back unchanged; a failure becomes a non-empty message and non-zero status, with the server's message or "Watcher failed" |
| `WatcherQuery.RunDelete` | src/queries/watchers/WatcherQuery.ts:52-68 | success exactly when the request succeeded; failures normalised with "Delete failed" |
| `WatcherQuery.RunDeleteAll` | src/queries/watchers/WatcherQuery.ts:74-91 | success exactly when the request succeeded; failures normalised with "No watchers found to delete." |
| `WatcherQuery.UnauthorizedPreserved` | src/queries/watchers/WatcherQuery.ts:56-60 | a delete reports status 401 exactly for a 401 response |
| `LoginQuery.RunLogin` | src/queries/login/LoginQuery.ts:19-35 | the login body comes back unchanged; an HTTP failure gets the server's message or "Login failed"; any other failure gets the generic message and 500 |
| `Admin.ParseUrl` | src/pages/admin/Admin.tsx:38-41 | page and perPage are the parameter's number unless it is absent, not a number or 0 (then 1 and 10); search and sortBy are the parameter or `""`; page and perPage are never 0 |
| `Admin.PageQuery` | src/pages/admin/Admin.tsx:43 | the list query asks for exactly the page, page size, search prefix and sort key read from the URL |
| `Admin.FindFilter` | src/pages/admin/Admin.tsx:219-220 | `find` returns the first filter with the id, and nothing exactly when no filter has it |
| `Admin.SearchValue` | src/pages/admin/Admin.tsx:221 | the username filter's value when truthy, else `""` |
| `Admin.SortValue` | src/pages/admin/Admin.tsx:222-224 | the first element of a list value, a string value itself, `""` without a filter; `undefined` exactly for an empty list |
| `Admin.InitialState` | src/pages/admin/Admin.tsx:193-200 | the initial page index is page − 1, the page size is perPage, the search value is the URL's search, and there is no sort value |
| `Admin.Rewritten` | src/pages/admin/Admin.tsx:236-248 | page and perPage are written from the table; search/sortBy are present exactly when their values are truthy, holding their text; every other parameter is kept |
| `Admin.InSync` | src/pages/admin/Admin.tsx:227-235 | the URL and the table agree: page, perPage, search and sortBy as read from the URL equal the table's |
| `Admin.SyncTarget` | src/pages/admin/Admin.tsx:226-250 | no navigation exactly when the URL's page, perPage, search and sortBy equal the table's, otherwise navigation to the rewritten parameters |
| `Admin.SearchParams.constructor` | src/pages/admin/Admin.tsx:236 | the new parameters start as a copy of the current ones |
| `Admin.SearchParams.Set` | src/pages/admin/Admin.tsx:237 | `set` replaces one entry |
| `Admin.SearchParams.Delete` | src/pages/admin/Admin.tsx:242 | `delete` removes one entry |
| `Admin.SyncUrl` | src/pages/admin/Admin.tsx:216-251 | the effect, updating `URLSearchParams` in place, logs `navigate({ search }, { replace: true })` to the rewritten parameters exactly when `SyncTarget` navigates, and nothing otherwise; storage and the assigned `href` are unchanged |
| `Admin.ReadBackNumber` | src/pages/admin/Admin.tsx:227-228 | a written number reads back as itself, except 0, which reads back as the default |
| `Admin.SecondPassSettles` | src/pages/admin/Admin.tsx:226-249 | after a navigation, the next run issues none exactly when page number and page size are non-zero and the search and sort values are strings |
| `Admin.SettledQuery` | src/pages/admin/Admin.tsx:38-43 | for page index ≥ 0, page size ≥ 1 and string values, the rewritten URL is stable and the list query then asks for the table's page, size, search and sort |
| `Admin.InitialSyncIff` | src/pages/admin/Admin.tsx:193-235 | on first render no navigation happens exactly when the URL carries no sort key |
| `Admin.EmptyInteractionListAlwaysNavigates` | src/pages/admin/Admin.tsx:222-247 | an empty interaction list makes the effect navigate, and the new URL has no sortBy |
| `Admin.ErrorToastText` | src/pages/admin/Admin.tsx:51-57 | no toast exactly for status 401; otherwise the message, or the fallback when the message is empty |
| `Admin.DeleteToastFromFailure` | src/pages/admin/Admin.tsx:51-72 | a failed delete or delete-all toasts nothing exactly on a 401 response, and otherwise the normalised message |
| `Admin.MutationFeedback` | src/pages/admin/Admin.tsx:47-72 | once a mutation settles: refetch and the success toast, or the error toast unless it is a 401 |
| `Admin.DeleteWatcher` | src/pages/admin/Admin.tsx:45-78 | sends `DELETE /dashboard/watchers/{id}`; then the client's state change, and refetch plus success toast or the error toast |
| `Admin.DeleteAllWatchers` | src/pages/admin/Admin.tsx:60-84 | nothing unless confirmed; otherwise sends `DELETE /dashboard/watchers` and behaves like a delete, with the delete-all texts |
| `Admin.DeleteUnauthorized` | src/pages/admin/Admin.tsx:51-55 | a 401 on delete clears the token, assigns `/login`, and raises no toast |
| `Home.MatchesTitle` | src/pages/home/Home.tsx:73-75 | an empty title, or the lower-cased name contains the lower-cased title |
| `Home.MatchesStatus` | src/pages/home/Home.tsx:76-77 | an empty selection, or the platform is one of the selected |
| `Home.Keep` | src/pages/home/Home.tsx:79 | a row is kept when it passes both tests |
| `Home.FilteredData` | src/pages/home/Home.tsx:71-81 | the result is a subsequence of the data with order kept and only kept rows; every kept row occurs in it exactly as often as in the data, and no other row occurs |
| `Home.FilterAppend` | src/pages/home/Home.tsx:72-80 | filtering a concatenation is concatenating the filtered parts, so each row is judged by the predicate alone |
| `Home.FilterIdempotent` | src/pages/home/Home.tsx:72 | filtering twice is filtering once |
| `Home.NoFilterKeepsAll` | src/pages/home/Home.tsx:73-77 | an empty title and an empty status list keep every row |
| `Home.TitleCaseInsensitive` | src/pages/home/Home.tsx:75 | lower-casing the title does not change which rows pass the title test |
| `Home.TitleIff` | src/pages/home/Home.tsx:73-75 | a non-empty title keeps a row exactly when the lower-cased title occurs in the lower-cased name |
| `Home.DemoFacebook` | src/pages/home/Home.tsx:36-81 | on the built-in rows, selecting facebook keeps the second and fourth row |
| `Breadcrumb.PathTo` | src/components/breadcrumb-modal/breadcrumbModal.tsx:27 | `"/"` followed by segments 0..i joined with `"/"` |
| `Breadcrumb.Segments` | src/components/breadcrumb-modal/breadcrumbModal.tsx:25-27 | one entry per segment, labelled with the segment, at `"/"` + segments 0..i joined by `"/"` |
| `Breadcrumb.Trail` | src/components/breadcrumb-modal/breadcrumbModal.tsx:20-43 | the Home link to `"/"` first, then the segment entries |
| `Breadcrumb.PathToNext` | src/components/breadcrumb-modal/breadcrumbModal.tsx:27 | each entry's path is the previous one's plus `"/"` and its segment |
| `Breadcrumb.PathsGrow` | src/components/breadcrumb-modal/breadcrumbModal.tsx:27 | every entry's path is a proper prefix of every later entry's path |
| `Breadcrumb.KeysDistinct` | src/components/breadcrumb-modal/breadcrumbModal.tsx:27-30 | the React keys of different entries differ, even with repeated segments |
| `Breadcrumb.OnlyLastIsCurrent` | src/components/breadcrumb-modal/breadcrumbModal.tsx:26-38 | the entry at index length − 1 is the only current page; Home and all earlier entries are links |
| `Breadcrumb.AdminTrail` | src/pages/admin/Admin.tsx:257 | the admin page's trail is Home, then "Admin" at `/Admin` as the current page |
| `LoginForm.FailureText` | src/components/login-form.tsx:42 | an `Error` shows its message; anything else shows the generic text |
| `LoginForm.RedirectTarget` | src/components/login-form.tsx:38 | the `from` pathname when present and non-empty, else `/`; never empty |
| `LoginForm.StoredTokenText` | src/components/login-form.tsx:34 | the body's `token` field, or the text "undefined" when it has none |
| `LoginForm.HandlerEffects` | src/components/login-form.tsx:33-43 | on success the token write, the success toast, then the replace-navigation; on failure one error toast |
| `LoginForm.HandleLogin` | src/components/login-form.tsx:30-45 | posts the credentials to `/login`; on success stores the token, toasts, then navigates with replace; on failure one error toast after the client's 401 handling |
| `LoginForm.SuccessOrder` | src/components/login-form.tsx:33-39 | the token write comes first and the navigation (replace) last |
| `LoginForm.FailureToastIsGeneric` | src/components/login-form.tsx:40-44 | every failed login toasts "An unexpected error occurred" once, writes no token and does not navigate |
| `LoginForm.DeclaredShapeStoresUndefined` | src/components/login-form.tsx:34 | a `{ accessToken, refreshToken }` body stores "undefined", which counts as signed in and is sent as `Bearer undefined` |

## Left out

- Real-time push channel, reconnect handling, roster reconciliation and stale-result discarding: no file of the repository implements them.
- Network I/O: `api.get`/`post`/`delete` are modelled only as a given success or failure outcome. Also left out: the request interceptor's error branch (a rejection before sending is the same as a failed outcome) and the base URL.
- The export button (`fetch` of the plain-text export and `navigator.clipboard`): browser I/O.
- Rendering: React rendering, column definitions, icons, badges, the DataTable/Dropdown/Dialog components, the "Total Users" and page-count displays, and `isPending` button states.
- React-query caching and refetch scheduling: a refetch is only a recorded effect. Toasts, router navigation and location assignment are recorded effects too; the page reload that a location assignment causes is not modelled.
- `window.confirm`: a boolean parameter.
- The data-table hook (`useDataTable`): how it changes pagination and filters is not part of this model. The table state is a parameter.
- `console.log` and `console.error` calls: logging only.
- `src/App.tsx`, `src/components/set-settings-modal/settingsModal.tsx` and `src/pages/login/Login.tsx`: they hold no logic.
- Env.Browser.NavigateTo: the History-API change of the address (`replaceState` or `pushState`) is only logged; the path part of the location is not updated.
- Env.Browser.NavigateToSearch: the History-API change of the query string is only logged; the location's search part is not updated.
- Js.IntToString: integers of 1e21 and above print in exponent form in JavaScript (`"1e+21"`); the model always prints plain digits.
- Js.Number: treats text with surrounding whitespace, a leading `+`, `0x`/`0b`/`0o` prefixes, fractions, exponents or `Infinity` as `NaN`, where JavaScript would read a number. The result is an exact integer, whereas JavaScript's double loses precision beyond 2^53 and reads a very long digit run as `Infinity` (truthy, so not replaced by the default).
- Js.Lower: lower-cases ASCII letters only; Unicode case mapping is not modelled.
- Admin.InitialState: the state the table starts from; that the table hook actually starts from its `initialState` is assumed, not modelled, so `Admin.InitialSyncIff` speaks about the first render only under that assumption.
- Admin.SyncUrl: the replace-navigation to the rewritten parameters is logged, but the browser's address is not updated in the model; `href` tracks only direct assignments. `URLSearchParams` is a map with one value per name. Repeated names, parameter order and percent-encoding are not modelled, and the new location's parameters are the map itself.
- Admin.SearchValue: filter values other than `undefined`, a string or a list of strings (numbers, objects) are not modelled.
- Http.Normalise: a `data.message` that is present but not a string is not modelled.
- LoginForm.HandleLogin: the success path cannot throw in the model, so the `Error` branch of `src/components/login-form.tsx:42` is never taken. In the browser, reading `response.token` of a `null` body or a `localStorage.setItem` that throws would raise an `Error` whose message is then shown.
