# Action creators of cape-react, modelled in Dafny

This project models the action-creator layer of the cape-react browser client
(`src/redux/actions/index.js`). Each `loadX` creator is a thunk. It reads a
snapshot of the central store and makes one decision:
- do nothing (`null`), or
- dispatch one API descriptor.

A descriptor is the object under the `CALL_API` key. It holds:
- the three lifecycle labels;
- the API target (`'api'` or `'github'`);
- the endpoint;
- the normalization schema;
- optionally an HTTP method, a body and the `entityInfo` record.

Some descriptors also carry top-level correlation fields (`login`, `fullName`).

How the source maps onto the model:
- JavaScript values are the `JsValues.JsValue` datatype. Truthiness is `JsValues.Truthy`, which drives `if (x)`, `!x` and `x || {}`.
- The store snapshot is `Actions.State`. Its `entity.{users,repos,url,forms}` tables are maps, and `entity.schema` and `entity.session` are plain values.
- `pagination.{starredByUser,stargazersByRepo}` map a parent key to a `Cursor`. A cursor field is optional, and a missing field reads as `undefined`.
- Each pure guard is a function from the snapshot to `Option<Action>`. "Dispatch" is modelled as returning the action.
- `loadUrl` keeps module-level state, the `urlLoading` dictionary. It is modelled by the class `UrlLoading.UrlLoader`, whose method `LoadUrl` updates the `urlLoading` field.
  - `LoadUrl` is proved against the step function `UrlLoading.LoadUrlStep`.
  - `UrlLoading.Run` folds that step over any sequence of calls.
  - `isURL` (validator library) and `encodeURIComponent` are function values that the loader is built with. The model says nothing else about them.
- The normalization schemas are opaque tags (`Actions.SchemaTag`).

Behaviour kept as the code has it:
- A `urlLoading` flag is set and never cleared. So a URL is dispatched at most once for the lifetime of the module, even when the first call was a cache hit.
- `SCHEMA_SUCCESS` and `SCHEMA_FAILURE` are the strings `'SESS_SUCCESS'` and `'SESS_FAILURE'`.
- The third test in `loadSchema` (`!id && schema.Thing`) can never decide the result. The contract of `Actions.LoadSchema` shows this: its if-and-only-if does not mention `Thing`.
- `loadStarred` and `loadStargazers` fill in each missing cursor field separately. So a cursor that counts pages but has no `nextPageUrl` sends an explicit next-page request back to the first page.

## Model

| member | source | states |
|---|---|---|
| `Actions.LoadUser` | src/redux/actions/index.js:10-31 | null exactly when `entity.users[login]` is truthy; otherwise a plain read with the USER labels on api `'api'` at `user/email/{login}` with schema USER and no correlation fields |
| `Actions.EveryOwn` | src/redux/actions/index.js:55 | `requiredFields.every(key => repo.hasOwnProperty(key))` holds exactly when every listed key is an own field of the row (true for no keys) |
| `Actions.LoadRepo` | src/redux/actions/index.js:39-61 | null exactly when the repo row is truthy and has every required field as an own field; otherwise a read with the REPO labels on api `'github'` at `repos/{fullName}` |
| `Actions.LoadStarred` | src/redux/actions/index.js:69-97 | null exactly when the cursor's page count (default 0) is positive and no next page was asked for; otherwise a read on `'github'` of the cursor's `nextPageUrl` (default `users/{login}/starred`) that echoes `login` |
| `Actions.LoadStargazers` | src/redux/actions/index.js:105-133 | the same rule for stargazers: default endpoint `repos/{fullName}/stargazers`, schema USER_ARRAY, echoes `fullName` |
| `Actions.LoadForm` | src/redux/actions/index.js:177-198 | null exactly when `entity.forms[formId]` is truthy; otherwise a read with the FORM labels at `content/type/{formId}` |
| `Actions.LoadSession` | src/redux/actions/index.js:206-225 | always dispatches: a read with the SESS labels at `user/me` with schema SESSION |
| `Actions.FetchSchema` | src/redux/actions/index.js:226-245 | the endpoint is `schema` exactly when the id is falsy and `schema/{id}` otherwise; the success and failure labels are the session strings |
| `Actions.LoadSchema` | src/redux/actions/index.js:247-261 | null exactly when the id is falsy or `.property` of the `id` entry of `entity.schema` (or of `{}`) is truthy (the `schema.Thing` test never decides); otherwise a read at `schema/{id}` |
| `ActionProperties.CacheHitsPersist` | src/redux/actions/index.js:23-198 | while the entity tables only grow (a truthy row stays truthy and keeps its fields), a user, repo or form load that was a no-op stays a no-op |
| `ActionProperties.RepoExistenceSufficesByDefault` | src/redux/actions/index.js:52-57 | with the default empty `requiredFields`, a truthy row alone makes `loadRepo` a no-op |
| `ActionProperties.RepoStoredWithFieldsIsCached` | src/redux/actions/index.js:52-57 | once a record holding the required fields is stored under the full name, `loadRepo` with those fields is a no-op |
| `ActionProperties.RequestsIdentifyTheirKey` | src/redux/actions/index.js:15-236 | the user, repo, form and schema endpoints and the first-page endpoints of both pagination guards determine their key: different keys never give the same request |
| `ActionProperties.ContentEndpointIdentifiesEntity` | src/redux/actions/index.js:290-293 | `content/{id}/{entityId}` determines both ids when the content type id holds no `/` |
| `ActionProperties.ContentEndpointAmbiguousWithSlash` | src/redux/actions/index.js:271 | without that condition two different entities, `("a/b","c")` and `("a","b/c")`, share one endpoint |
| `ActionProperties.MissingCursorIsEmptyCursor` | src/redux/actions/index.js:86-89 | a missing cursor behaves exactly like a cursor with no fields, for both pagination guards |
| `ActionProperties.FirstPageWithoutCursor` | src/redux/actions/index.js:120-133 | without a cursor, both pagination guards always fetch the canonical first page, whatever `nextPage` is |
| `ActionProperties.ExhaustedCursorRestartsAtFirstPage` | src/redux/actions/index.js:122-131 | each field gets its own default: a cursor with pages but no `nextPageUrl` bails out without `nextPage`, and with it fetches the first page again |
| `ActionProperties.NextPageFollowsCursor` | src/redux/actions/index.js:84-95 | once pages are fetched, a load without `nextPage` is a no-op and a load with it fetches the stored continuation URL |
| `ActionProperties.LoadSessionIgnoresState` | src/redux/actions/index.js:217-224 | `loadSession` dispatches the same `fetchSession()` descriptor in every state |
| `ActionProperties.SchemaSharesSessionLabels` | src/redux/actions/index.js:200-228 | every dispatched schema load has the session's success and failure labels and a request label of its own |
| `ActionProperties.ContentSaveAndLoadAgree` | src/redux/actions/index.js:269-302 | neither builder consults state; both target api `'api'` at `content/{id}/{entityId}` with no schema and carry `entityInfo`; the save has labels CONTENT_SAVE/CONTENT_SAVED/CONTENT_SAVE_ERR, method `put` and the body, the load has labels CONTENT_REQUEST/CONTENT_SUCCESS/CONTENT_FAILURE and neither method nor body; the two label sets are disjoint |
| `ActionProperties.AddContentActsAsLoadSuccess` | src/redux/actions/index.js:304-309 | `addContent(e)` is exactly the plain action `{type: CONTENT_SUCCESS, response: {entity: e}}`, whose type is the content-load success label |
| `UrlLoading.LoadUrlStep` | src/redux/actions/index.js:140-169 | a non-URL or an already flagged URL gives null and leaves the dictionary unchanged; otherwise the URL is flagged `true` even on a cache hit, and a descriptor for `content/url?subject=thing&url={encodeURIComponent(url)}` is returned exactly when `entity.url[url]` is falsy |
| `UrlLoading.SecondLoadIsNoop` | src/redux/actions/index.js:159-162 | a second `loadUrl` of the same URL returns null and changes nothing, whatever the state then holds |
| `UrlLoading.RunDispatchesEachUrlOnce` | src/redux/actions/index.js:153-169 | over any sequence of calls: flags are never removed, every dispatched URL is valid, was unflagged at the start and is flagged at the end, and none is dispatched twice |
| `UrlLoading.UrlLoader.constructor` | src/redux/actions/index.js:153 | the dictionary starts empty and nothing has been dispatched |
| `UrlLoading.UrlLoader.LoadUrl` | src/redux/actions/index.js:154-169 | updates `urlLoading` and returns its result exactly as `LoadUrlStep` says; it keeps the invariant that only valid URLs are flagged, only `true` is stored, and each dispatched URL is flagged and dispatched once |
| `UrlLoading.LoadTwice` | src/redux/actions/index.js:153-169 | from a fresh module, two `loadUrl` calls for a valid, uncached URL dispatch the URL descriptor and then return null |

## Left out

- The `CALL_API` middleware and `Schemas` (`../middleware/api`) are not part of this model. The network call, normalization and the REQUEST/SUCCESS/FAILURE re-dispatch are external. Schemas are opaque tags.
- What `dispatch` returns (the middleware's promise) is not modelled. A guard returns the action it would dispatch.
- `isURL` and `encodeURIComponent` are external string functions. They are total function parameters with no further properties.
- UrlLoading.LoadUrlStep: strings are sequences of Unicode scalar values, not UTF-16 code units, so a URL holding a lone surrogate cannot be represented. The path where `isURL` accepts such a URL, the flag is set and `encodeURIComponent` then throws `URIError` (nothing dispatched, the URL suppressed for good) is not modelled.
- UrlLoading.UrlLoader.LoadUrl: the same `URIError` path is not modelled, because the method follows `LoadUrlStep`.
- Reducers, the store (`src/redux/configureStore.js`), the socket and history middleware and the React components are not part of this model. They are library wiring, browser I/O or rendering.
- JavaScript numbers are modelled as integers: NaN, fractions and non-number `pageCount` values are not covered.
- Property lookups see only own fields of objects. Prototype-chain properties are left out, and so are the own properties of primitive strings (indices, `length`).
- Keys (`login`, `fullName`, `formId`, `url`, the content ids) are strings. Interpolating other values into a template (`${undefined}`) is not modelled.
- The schema id is a string or `undefined`.
- A cursor's `nextPageUrl` is a string or missing. A stored `null` is not modelled.
- `entityInfo` is a record of `id`, `entityId` and `body`. Its other fields pass through untouched in the source and are not represented.
