# Navigation guard, request hook, cookie wrapper and counter store of a Vue SPA scaffold

This project models the statable logic of the `vite-vue-ts-base` scaffold and proves properties of that model:

- **Navigation trail** (`BackNavigation`): the route watcher of `useCustomBackNavigation`. It keeps two session-storage slots, `currentURI` and `prevURI`. Session storage is a class over a `map<string, string>` (`WebStorage.SessionStorage`), so "no other key changes" can be stated.
- **Router** (`Router`): the global `beforeEach` guard and `scrollBehavior`.
  - `Decide` is the guard's pure decision over `(prevURI, currentURI, to.path, from.path)`. Its outcome is `Allow` (one `next()` call) or `CancelAndRedirect(200, "/", reason)` (no `next()`, one delayed `router.replace('/')`). The `reason` tag records which of the two branches returned, so the precedence of the denylist rule can be stated.
  - `BeforeEach` runs the guard against a storage object. It has no `modifies` clause, so it cannot write the storage.
- **Request hook** (`UseApi`): `useApi` is the class `ApiHook`, whose fields are the hook's refs and closure variable. A call is split at its `await`:
  - `CallApi` covers the argument fallback, the de-duplication by fingerprint and issuing the request;
  - `Complete` takes the settled outcome and applies normalisation, sticky paging, the network-error redirect, the rethrow and the `finally` reset of `isLoading`.

  Each method is tied to a pure step function (`BeginCall`, `CompleteCall`), and the lemmas are about those functions. `JSON.stringify` is the abstract function value `stringify` given at construction. `FormData` is a variant of the JavaScript value model `JsValues.JsValue`.
- **Cookie wrapper** (`Cookies`): each operation returns the call record it makes on the cookie library, with the arguments it forwards.
- **Counter store** (`CounterStore`): the class `Counter` with the four actions. The pure reducer `Apply` describes the same actions, and lemmas about runs of actions are proved over it.

Effects are recorded rather than performed:
- router calls appear as the guard's `Outcome` and as `ApiHook.pushes`;
- requests appear in `ApiHook.requests`;
- cookie-library calls appear as `CookieCall` values;
- timer delays appear as numbers inside outcomes.

The model follows the code in two places where the design description is looser:
- The denylist rule also requires `prevURI` to be truthy (src/router/index.ts:53). No denylisted path is empty, so the outcome is the same.
- `apiData` is updated only when `res?.data` is truthy, and then to `list ?? data ?? res.data` (src/compositions/useApi.ts:43-46), not on every success.

## Model

| member | source | states |
|---|---|---|
| `BackNavigation.TrailStep` | src/compositions/useCustomBackNavigation.ts:13-18 | after observing `p`, `currentURI == p`; `prevURI` is the old `currentURI` when that was non-null and non-empty, else `p`; the key set grows by at most the two slots and no other key's value changes |
| `BackNavigation.Observe` | src/compositions/useCustomBackNavigation.ts:13-18 | the watcher callback leaves the storage equal to `TrailStep` of the old storage (only the two slots are written) |
| `BackNavigation.UseCustomBackNavigation` | src/compositions/useCustomBackNavigation.ts:9-19 | installing the watcher with `immediate: true` observes the current route path at once |
| `BackNavigation.FirstObservationSeedsBoth` | src/compositions/useCustomBackNavigation.ts:14-17 | the first observation on empty storage sets `prevURI == currentURI == p` |
| `BackNavigation.TrailHoldsLastTwo` | src/compositions/useCustomBackNavigation.ts:13-17 | after any run of non-empty paths, `currentURI` is the last path and `prevURI` the one before it |
| `BackNavigation.TrailWritesOnlyTwoSlots` | src/compositions/useCustomBackNavigation.ts:16-17 | over any run of observations, only `prevURI` and `currentURI` are written: every other key keeps its value and no other key appears |
| `BackNavigation.ThreeStepTrail` | src/compositions/useCustomBackNavigation.ts:13-17 | observing A, B, C on empty storage yields `(A,A)`, `(A,B)`, `(B,C)` and writes no other key |
| `Router.Decide` | src/router/index.ts:43-86 | a different-path navigation is always allowed; a non-null denylisted `prevURI` with a same-path navigation cancels and redirects to `/` after 200 ms; otherwise `currentURI == '/'` with a same-path navigation does the same; every other case is allowed; the denylist rule wins when both hold |
| `Router.BeforeEach` | src/router/index.ts:43-86 | the guard reads the two slots, never writes the storage, and returns `Decide`'s outcome |
| `Router.NullPrevNeverDenylisted` | src/router/index.ts:53 | a missing `prevURI` never triggers the denylist redirect |
| `Router.BackFromDenylistedPage` | src/router/index.ts:50-66 | once the trail has recorded a denylisted page followed by any page, a same-path navigation is cancelled by the denylist rule |
| `Router.SamePathOnRootCancelled` | src/router/index.ts:69-82 | once the trail has recorded `/` as the current page, a same-path navigation is cancelled |
| `Router.ScrollBehavior` | src/router/index.ts:15-26 | with a saved position, that same position is resolved after 2000 ms when `to.path == '/'` and after 1000 ms otherwise; without one, `{top: 0, left: 0}` is returned at once |
| `UseApi.EffectiveParams` | src/compositions/useApi.ts:30 | a call's own arguments when it has any, otherwise `initialParams` |
| `UseApi.BeginCall` | src/compositions/useApi.ts:29-38 | the call returns at once, with the state unchanged, exactly when the first effective argument is not a `FormData` and the fingerprint equals `prevParamsJson`; otherwise the effective arguments are issued and `isLoading` is set; the fingerprint is recorded only for non-`FormData` calls; `apiData` and `apiPaging` are untouched |
| `UseApi.Normalize` | src/compositions/useApi.ts:44-46 | `list` when it is not nullish, else `data` when that is not nullish, else the whole response body |
| `UseApi.CompleteCall` | src/compositions/useApi.ts:40-62 | `isLoading` is false after every completion; with a truthy `res.data`, `apiData` is its normalisation, otherwise unchanged; `apiPaging` is overwritten only by a truthy `paging`; the caller receives `res?.data`; a rejection is rethrown and leaves data and paging unchanged; a `status === 999` error pushes `/error-network` once, and nothing else pushes |
| `UseApi.ApiHook.constructor` | src/compositions/useApi.ts:16-67 | the hook starts from `apiData = apiPaging = null`, `isLoading = false`, `prevParamsJson = ''`; with `callOnInit` the first call is begun with the initial arguments and not awaited |
| `UseApi.ApiHook.CallApi` | src/compositions/useApi.ts:29-38 | the new state is `BeginCall` of the old one; the result says whether a request was issued; the issued argument tuple is appended to the request log |
| `UseApi.ApiHook.Complete` | src/compositions/useApi.ts:40-62 | the new state and the caller's result are `CompleteCall` of the old state; pushed routes are appended to the log |
| `UseApi.RepeatedCallSuppressed` | src/compositions/useApi.ts:32-41 | after a non-`FormData` call has been issued, an identical call is suppressed whether the first is still in flight or has settled in any way, including with an error |
| `UseApi.FormDataAlwaysProceeds` | src/compositions/useApi.ts:32-38 | a call whose first argument is a `FormData` always proceeds, sets `isLoading` and leaves `prevParamsJson` unchanged |
| `UseApi.ListAndPagingExample` | src/compositions/useApi.ts:43-47 | `{data: {list: [1,2,3], paging: {page: 1}}}` gives `apiData == [1,2,3]` and `apiPaging == {page: 1}` |
| `UseApi.DataWithoutPagingExample` | src/compositions/useApi.ts:43-47 | `{data: {data: {id: 5}}}` gives `apiData == {id: 5}` and keeps the old `apiPaging` |
| `UseApi.NetworkErrorExample` | src/compositions/useApi.ts:51-61 | a `status: 999` rejection pushes `/error-network` exactly once, is rethrown and clears `isLoading` |
| `Cookies.SetCookieSecure` | src/compositions/useCookies.ts:31-35 | `secure` is forced to true outside local development and is `options.secure` unchanged locally |
| `Cookies.RemoveCookieSecure` | src/compositions/useCookies.ts:65-69 | the conditional spread gives `secure = true` outside local development and `options.secure` locally |
| `Cookies.SetCookie` | src/compositions/useCookies.ts:30-47 | one `set` call with the name, the value, `expires`, `path`, `domain` and `sameSite` unchanged, and the computed `secure` flag |
| `Cookies.SetCookieIgnoresMaxAgeAndHttpOnly` | src/compositions/useCookies.ts:38-46 | `maxAge` and `httpOnly` never reach the library |
| `Cookies.GetCookie` | src/compositions/useCookies.ts:53-55 | one `get` call with the name |
| `Cookies.RemoveCookie` | src/compositions/useCookies.ts:64-78 | one `remove` call with the name, `path`, `domain` and `sameSite` unchanged, and the computed `secure` flag |
| `Cookies.SetAndRemoveAgreeOnSecure` | src/compositions/useCookies.ts:31-35 | for equal `isLocal` and options, setting and removing forward the same `secure` flag |
| `Cookies.SetArrayInCookie` | src/compositions/useCookies.ts:87-92 | exactly one `setCookie` call when the value is a non-empty array, no call otherwise |
| `Cookies.SetObjectInCookie` | src/compositions/useCookies.ts:101-106 | exactly one `setCookie` call for a truthy non-array value with at least one own key (for an object: at least one property), no call otherwise |
| `CounterStore.Counter.constructor` | src/store/counterStore.ts:3-10 | the store starts at 0 |
| `CounterStore.Counter.GetValue` | src/store/counterStore.ts:13 | the getter returns the current value |
| `CounterStore.Counter.Increment` | src/store/counterStore.ts:17-19 | adds exactly 1 |
| `CounterStore.Counter.Decrement` | src/store/counterStore.ts:20-22 | subtracts exactly 1 |
| `CounterStore.Counter.Reset` | src/store/counterStore.ts:23-25 | sets the value back to the initial 0 |
| `CounterStore.Counter.IncrementByAmount` | src/store/counterStore.ts:26-28 | adds exactly the payload |
| `CounterStore.Apply` | src/store/counterStore.ts:16-28 | a reset yields 0; every other action changes the value by its amount (+1, -1 or the payload) |
| `CounterStore.IncrementThenDecrement` | src/store/counterStore.ts:17-22 | increment followed by decrement restores the value |
| `CounterStore.ResetIdempotent` | src/store/counterStore.ts:23-25 | resetting twice is the same as resetting once, and both give 0 |
| `CounterStore.ApplyAllWithoutReset` | src/store/counterStore.ts:16-28 | a run of actions without a reset adds exactly the sum of their amounts |
| `CounterStore.ResetForgetsHistory` | src/store/counterStore.ts:23-25 | after a reset, the value depends only on the actions that follow it |

## Left out

- Vue reactivity and the scheduling of `watch` relative to `beforeEach`: the watcher is the explicit method `BackNavigation.Observe`. The model does not say when Vue runs it for a navigation, or whether a repeated identical path runs it again.
- Real timing: the `setTimeout` delays of the guard (200 ms) and of `scrollBehavior` (1000 / 2000 ms) are recorded as numbers in the outcome. Nothing is scheduled.
- The effects of the router's redirect, `next()`, `router.replace` and `router.push` are left out. They are recorded as outcomes or logs.
- `console.log` of the caught error is left out, as output.
- Overlapping `callApi` invocations are modelled one at a time. Their last-writer-wins race is concurrency behaviour.
- `JSON.stringify` is an abstract function on argument tuples. One consequence: the real serialisation of an array always starts with `[`, so it never equals the initial empty fingerprint, and the model does not build that in. A `stringify` that produced `""` would suppress the first call.
- `JSON.stringify` throwing on cyclic values is not modelled.
- `instanceof FormData` is the `FormData` variant of `JsValue`. Prototype chains and subclasses are not modelled.
- JavaScript numbers are unbounded integers. Floating point, `NaN` and non-integer counter payloads are not modelled.
- The `vue-cookies` library itself (its serialisation of arrays and objects, and cookie storage) is not part of this model. Its calls are opaque `CookieCall` records, and the library's return value is not modelled.
- The Pinia persistence configuration (src/store/counterStore.ts:31-35) is storage plumbing and is left out. So is the persistence of session storage across reloads.
- src/main.ts and vite.config.ts are bootstrap and build configuration, with no behaviour to state.
- The guard's order of storage reads is kept in the shape of `Router.BeforeEach`: `currentURI` is read only when the denylist rule does not fire. Reads have no effect, so the outcome does not record this order.
