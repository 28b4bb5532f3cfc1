# a2urbex front: request gateway, session, filter selection and pagination

This project models the stateful core of the a2urbex progressive web client in Dafny:

- **The HTTP gateway** (`request` in `src/services/api.js`). It decides which headers go out and when a bearer
  `Authorization` header is attached. It sends a JSON body only for `POST` and forms the URL as base URL plus
  route. It turns the transport's answer into a value or an error message, and it emits one error notification
  per failure before re-raising the error. `fetch` is not modelled: every action takes the transport's answer
  as an `Outcome` parameter. That answer is a network failure, or a response with its `ok` flag, its text and
  its parsed JSON.
- **The session store** (`src/stores/auth.js`). It is a class holding the token and the profile. The browser's
  `localStorage` is a separate `LocalStorage` object over a `map<string, string>`. Login and register write the
  token into both. Logout clears both. `validateToken` logs out when its probe fails. The invariant `Synced()`
  says that the store's token and the stored `authToken` agree, up to JavaScript truthiness.
- **The filter-selection store** (`src/stores/filter.js`). It is a class over the map from filter key to checked
  values, plus the query. It keeps const references to the catalogue store and the filter-panel store, which it
  drives. Checking appends a value once. Unchecking removes every occurrence of it. The payload is the
  selections, with the trimmed query under `'string'`. `init` checks every "france" value. Its nested loops are
  proved against a recursive specification, `Preselect`, and that specification is characterised without loops
  by `PreselectEffect`.
- **The catalogue store** (`src/stores/location.js`). `fetchLocations` writes the filters before its request. A
  failed request therefore leaves the filters changed but the list and page counters untouched. The page count
  is the integer ceiling of `count / perPage`.
- **The filter-panel store** (`src/stores/filterUI.js`). It has one boolean with a setter and a toggle.

Each store action is one atomic step. Environment values (`import.meta.env`) are an `Env` record, with the
page size a positive natural number.

The code has no 401 handling, no
multipart bodies, no prefetch slot and no map memoisation, so none of them is modelled. Quirks of the code are
kept as written:
- `forgotPassword` passes `{ email }` where the store belongs. Its request therefore carries no token and no
  body (`Auth.AuthStore.ForgotPassword`).
- `PUT` sends no body.
- `init` pushes default values without checking for duplicates.
- The catalogue store reads its token from storage once, when it is created. A later login does not change it.

## Model

| member | source | states |
|---|---|---|
| `Api.SentBody` | src/services/api.js:16 | a body is sent if and only if the verb is POST and there is a body; when sent it is exactly the given one |
| `Api.Classify` | src/services/api.js:20-27 | resolves if and only if the response is ok and its JSON parsed, to that JSON; a non-ok response fails with its text, or "Server error" when the text is empty (never an empty message); a network failure keeps its message |
| `Api.Request` | src/services/api.js:3-31 | the call has the given verb and URL `baseUrl + route`, both JSON headers, and `Authorization: Bearer <token>` if and only if the store token is truthy (the header reads back as that token); a body only for POST; the result is the classified outcome; a notification is emitted exactly on failure and carries the re-raised message |
| `Storage.StoredToken` | src/stores/auth.js:7 | the stored `authToken` string when present and non-empty, otherwise null |
| `FilterUI.FilterUIStore.constructor` | src/stores/filterUI.js:4-6 | `showContent` starts false |
| `FilterUI.FilterUIStore.SetShowContent` | src/stores/filterUI.js:8-10 | afterwards `showContent` equals the given value |
| `FilterUI.FilterUIStore.ToggleShowContent` | src/stores/filterUI.js:11-13 | afterwards `showContent` is the negation of its old value |
| `FilterUI.SetTwice` | src/stores/filterUI.js:8-10 | setting a value twice leaves that value (idempotence) |
| `FilterUI.ToggleTwice` | src/stores/filterUI.js:11-13 | toggling twice restores the original value |
| `FilterUI.SetThenToggle` | src/stores/filterUI.js:8-13 | set(v) then toggle leaves `!v` whatever the state was |
| `Location.Decimal` | src/stores/location.js:16 | the rendered page number is a non-empty string of decimal digits with no leading zero |
| `Location.DecimalRoundTrip` | src/stores/location.js:16 | reading the rendered page number back gives the page number |
| `Location.PagePath` | src/stores/location.js:16 | the route is the endpoint, then `/p/`, then digits that denote the page |
| `Location.PageCount` | src/stores/location.js:19 | `pages * perPage >= count`; `(pages - 1) * perPage < count` when `count > 0`; 0 pages when `count` is 0 |
| `Location.PageCountIsLeast` | src/stores/location.js:19 | any number of pages that holds `count` items is at least the page count, so it is the exact ceiling |
| `Location.LocationStore.constructor` | src/stores/location.js:5-11 | token read from storage (null when missing or empty), empty list, page 1 of 1, no filters |
| `Location.LocationStore.FetchLocations` | src/stores/location.js:13-23 | POST to base + endpoint + `/p/` + page with the filters as body and the store's token; filters recorded on both paths; on success the list is `data.list` or `[]`, the page is `page` and the page count the ceiling; on failure list and counters are unchanged and the error message is re-raised |
| `Location.LocationStore.GetFilters` | src/stores/location.js:24-31 | GET of the filters endpoint without body; returns the classified server data unchanged and changes no field |
| `Filter.Trim` | src/stores/filter.js:65 | the result neither starts nor ends with ECMAScript white space, and it is empty exactly when the query is all white space |
| `Filter.SpaceRunFrom` | src/stores/filter.js:65 | the leading white-space run that `trim` cuts: every character in it is white space, and the character after it is not |
| `Filter.SpaceRunDownTo` | src/stores/filter.js:65 | the trailing white-space run that `trim` cuts: every character in it is white space, and the character before it, if still inside the bound, is not |
| `Filter.TrimIsInfix` | src/stores/filter.js:65 | the trimmed query is an infix of the query with only white space cut off on either side |
| `Filter.ToLower` | src/stores/filter.js:24 | the lowercased caption has the same length and no capital letter left; a character changes only when it is a capital, and then into its lower-case letter |
| `Filter.DefaultLabelSpelling` | src/stores/filter.js:24 | a caption selects its value exactly when it has six characters spelling "france" in any mix of upper and lower case |
| `Filter.Checked` | src/stores/filter.js:48-51 | a checked value is in the list afterwards; an existing value leaves the list unchanged, otherwise it is appended at the end |
| `Filter.Without` | src/stores/filter.js:53 | the unchecked value no longer occurs; the list does not grow; a list without the value is unchanged |
| `Filter.WithoutConcat` | src/stores/filter.js:53 | removal distributes over concatenation, so the remaining values keep their order |
| `Filter.WithoutCounts` | src/stores/filter.js:53 | every occurrence of the value goes, and every other value keeps its number of occurrences |
| `Filter.WithoutKeepsNoDuplicates` | src/stores/filter.js:53 | a duplicate-free list stays duplicate-free after an uncheck |
| `Filter.UpdatesKeepNoDuplicates` | src/stores/filter.js:48-54 | a duplicate-free list stays duplicate-free after a check or an uncheck |
| `Filter.Payload` | src/stores/filter.js:59-65 | the payload holds the selected keys and, if and only if the trimmed query is non-empty, `'string'`; every other key keeps its list; `'string'` is overridden by `[trim(query)]`; with an empty trimmed query the payload is the selections |
| `Filter.PayloadCarriesQueryIff` | src/stores/filter.js:65 | with no selected `'string'` key, the payload has `'string'` exactly when the query has a character that is not white space |
| `Filter.PreselectItemsEffect` | src/stores/filter.js:23-28 | one key's items append that key's "france" values in order, and the key is created only when at least one is appended |
| `Filter.PreselectEffect` | src/stores/filter.js:22-29 | after the whole taxonomy, each key's list is its old list followed by every "france" value listed under it; a key exists afterwards exactly when it existed or gains a value |
| `Filter.FilterStore.constructor` | src/stores/filter.js:6-12 | not fetching, no taxonomy, no selections, not cleared, empty query |
| `Filter.FilterStore.SelectedCount` | src/stores/filter.js:82-84 | the length of the key's list, or 0 when the key is absent |
| `Filter.FilterStore.SendPage1` | src/stores/filter.js:67-68 | a POST of the given payload to the page-1 route with the catalogue's token; the catalogue records the payload; on success it holds the answer's list (or `[]`), page 1 and the ceiling page count; on failure its list and counters are kept |
| `Filter.FilterStore.ApplyFilters` | src/stores/filter.js:59-69 | the filter store is unchanged; the payload built from the selections and the query is POSTed for page 1 and recorded by the catalogue, whose list, page and page count follow the answer on success and are kept on failure |
| `Filter.FilterStore.UpdateSelection` | src/stores/filter.js:44-54 | only the changed key's list changes: created empty when absent, then checked (appended once) or unchecked (removed everywhere) |
| `Filter.FilterStore.HandleFilterChange` | src/stores/filter.js:39-57 | only the changed key's list changes, created empty when absent, then checked or unchecked; `isCleared` becomes false; the payload of the new selections is POSTed for page 1 and the catalogue follows that fetch's answer |
| `Filter.FilterStore.ClearFilters` | src/stores/filter.js:71-80 | no selections, empty query, `isCleared` true, panel hidden; an empty payload is POSTed for page 1 and the catalogue follows that fetch's answer |
| `Filter.FilterStore.CheckDefaults` | src/stores/filter.js:22-29 | the nested loop leaves exactly `Preselect` of the old selections and the taxonomy |
| `Filter.FilterStore.Init` | src/stores/filter.js:14-37 | does nothing while fetching or once a taxonomy is loaded; otherwise ends with `fetching` false; on failure nothing else changes; on success it stores the taxonomy, adds the defaults (`Preselect`), and the catalogue records the resulting payload and follows the page-1 answer |
| `Auth.AuthStore.constructor` | src/stores/auth.js:6-9 | the token is the stored `authToken` or null when missing or empty, the profile is empty, and the session is synced |
| `Auth.AuthStore.FetchUserProfile` | src/stores/auth.js:61-69 | GET of the account with the current token; on success the profile is the response; on failure it is unchanged and the error is re-raised |
| `Auth.AuthStore.Login` | src/stores/auth.js:11-21 | a failed login changes nothing and re-raises; on success token and stored `authToken` are the returned token, the profile is fetched with that token and becomes the account response (or stays, with the error re-raised); the session stays synced |
| `Auth.AuthStore.Register` | src/stores/auth.js:23-32 | on success token and storage hold the returned token; the profile never changes; a failure changes nothing |
| `Auth.AuthStore.ForgotPassword` | src/stores/auth.js:34-42 | a POST with no Authorization header and no body; changes no token, profile or storage; fails exactly when the request fails |
| `Auth.AuthStore.Logout` | src/stores/auth.js:44-49 | token null, profile empty, `authToken` removed and nothing else in storage touched |
| `Auth.AuthStore.ValidateToken` | src/stores/auth.js:51-59 | true exactly when the probe succeeds, with nothing changed; otherwise false and the post-logout state |
| `Auth.AuthStore.GetSelf` | src/stores/auth.js:71-73 | returns the current profile and changes nothing |
| `Auth.LogoutTwice` | src/stores/auth.js:44-49 | logging out twice leaves the same state as logging out once |
| `Auth.Reload` | src/stores/auth.js:6-9 | a store rebuilt from a synced storage holds the same token (a falsy one as null) and an empty profile |

## Left out

- `fetch`, JSON parsing and `JSON.stringify`: the transport's answer, and the parse result of the body, are parameters. A sent body is the value it serialises.
- Notifications: the gateway's error notification is a returned message. The stores' success and warning toasts (`Login successful!` and others), console logging and their display options are not modelled.
- Navigation, the service worker, the texture generator and the other stores (`profile`, `editProfile`, `favorites`, `users`, `version`, `ui`, `map`) are not part of this model.
- Asynchronous interleaving: each action is one atomic step. As a result `fetching` is never observed true between steps, and stale responses overwriting newer state are not modelled. The page-1 fetch started by `applyFilters` is not awaited; its failure never reaches the filter store, and the model drops it.
- Aliasing: `applyFilters` copies the selection map shallowly, so the catalogue store's recorded lists are the same arrays that later `push`es grow. The model works on values and does not capture this sharing. The order of keys inside a payload object is not modelled either (maps are unordered).
- Filter.ToLower: folds ASCII letters only. JavaScript's `toLowerCase` also folds non-ASCII letters.
- Location.PageCount: assumes a natural `count` and a positive page size. Coercion of a missing count or of a non-numeric environment value (which yields `NaN`) is not modelled.
- Unreadable error bodies: a non-ok response always carries its text, so the case where reading that text itself fails (the gateway would then notify and re-raise that failure's message) is not modelled.
- Response shapes: a response missing the fields a store reads is not modelled. For example, a login answer without `token` would store the string "undefined". The token reply is a record with a string `token`, a page has an optional `list` and a natural `count`, and the filter taxonomy is an ordered list of keys, each with its (value, caption) pairs. JSON numbers are integers.
