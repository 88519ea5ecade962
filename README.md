# Session state machine of the auth provider

This project models the client-side authentication provider of a browser
single-page application (`AuthProvider` in `src/auth/AuthProvider.jsx`). The
provider tracks `user`, `isAuthenticated` and `loading`. It mirrors
authentication into browser storage under the key `"isAuthenticated"`. On
mount it runs a one-time bootstrap against the identity service: POST
`/api/users/refresh`, then `/api/users/me`. While authenticated, a renewal
interval re-sends the refresh. It also publishes `login` and `logout`.

- `SessionModel.dfy` is the value model. It holds the `Session` record and the
  outcomes of the two service calls. It has one function per transition:
  `Initial`, `Bootstrap`, `Login` and `Logout`. It also counts the bootstrap's
  requests (`BootstrapRequests`). The `Valid` invariant says:
  - an unauthenticated session has no user;
  - the stored flag is `"true"` exactly when the session is authenticated;
  - renewal runs exactly while the session is authenticated;
  - `loading` holds exactly until the run-once latch is set, and no user is known while loading. This clause holds of the model, where the bootstrap is one atomic step that sets the latch and settles `loading` together. In the program the latch is set first and `loading` turns off only when the bootstrap settles (see "## Left out").
- `Traces.dfy` models the single-threaded event loop. `Run` applies any sequence
  of events one at a time: mount effects (a development-mode double mount fires
  two), `login`/`logout` calls and renewal ticks. The lemmas there are
  about whole runs: the bootstrap runs at most once, renewal stays cancelled
  after logout until the next login, and a tick changes nothing. They are stated
  over two request counts along a run. `BootstrapRequestsOf` adds up
  `BootstrapRequests` over the mount events. `RenewalRequestsOf` counts one request
  per tick that arrives while the interval is installed.
- `AuthProvider.dfy` is the component as a class. Its mutable fields are
  updated in the order the component calls its setters, writes storage and
  installs or clears the interval. Each method is proved to produce the
  `SessionModel` transition of its old state. A ghost counter records the
  requests sent.

The network calls become input parameters. `RefreshOutcome` is a transport
error or a response: a status, plus a body that is either unparsable or
`{success}`. `ProfileOutcome` is either "threw" or `{success, data}`. Browser
storage is one optional string field. The renewal interval is one boolean
that is re-derived from `isAuthenticated` after every transition.

Points where the model follows the code:
- When the stored flag is present but not `"true"`, the bootstrap leaves the flag as it is; it does not remove it.
- The renewal interval is installed at mount whenever the stored flag is `"true"`, before the bootstrap has settled.
- On a successful profile reply the user becomes whatever `data` holds. When `data` is absent, the session is authenticated with no user.

## Model

| member | source | states |
|---|---|---|
| `SessionModel.Initial` | src/auth/AuthProvider.jsx:13-19 | at mount `isAuthenticated` is exactly (stored flag == "true"); there is no user, `loading` is on, the latch is clear, and the invariant holds |
| `SessionModel.Bootstrap` | src/auth/AuthProvider.jsx:22-95 | a set latch leaves the state unchanged; otherwise the latch is set and `loading` turns off; a flag other than "true" signs out and keeps the flag; every failed refresh (transport error, non-ok status, unparsable body, `success:false`) signs out and removes the flag; a successful refresh authenticates and stores "true", and the user is the profile's `data` only when the profile call succeeded, otherwise none; the invariant is preserved |
| `SessionModel.BootstrapRequests` | src/auth/AuthProvider.jsx:24-60 | the bootstrap sends at most two requests; it sends none exactly when the latch is set or the flag is not "true"; it sends two exactly when the refresh succeeded, so the profile call happens only then |
| `SessionModel.Login` | src/auth/AuthProvider.jsx:121-125 | the user is the given value (none for a `null`/`undefined` argument), the session is authenticated, the flag is "true", and renewal is on; the loading phase and latch are untouched; the invariant is preserved |
| `SessionModel.Logout` | src/auth/AuthProvider.jsx:127-131 | there is no user, the session is not authenticated, the flag is absent, and renewal is off; the loading phase and latch are untouched; the invariant is preserved |
| `SessionModel.LogoutUndoesLogin` | src/auth/AuthProvider.jsx:121-131 | `logout` after `login(u)` gives the same state as `logout` alone; from a signed-out state without a flag, it gives back the state itself |
| `SessionTraces.Step` | src/auth/AuthProvider.jsx:133-139 | every event preserves the invariant; a set latch stays set; while loading, only the mount effect changes anything, because `login` and `logout` are published only after loading |
| `SessionTraces.Run` | src/auth/AuthProvider.jsx:12-131 | any sequence of events preserves the invariant; once the bootstrap has run, `loading` never turns on again |
| `SessionTraces.CheckedSendsNoBootstrapRequests` | src/auth/AuthProvider.jsx:22-25 | once the latch is set, no sequence of mount effects sends a bootstrap request |
| `SessionTraces.BootstrapRunsAtMostOnce` | src/auth/AuthProvider.jsx:19-37 | across any sequence of events, including repeated mounts, the bootstrap sends at most two requests, and none when the flag at mount is not "true" |
| `SessionTraces.NoRenewalUntilLogin` | src/auth/AuthProvider.jsx:98-119 | from a signed-out state, no sequence of events without a login sends a renewal request or authenticates the session |
| `SessionTraces.LogoutCancelsRenewal` | src/auth/AuthProvider.jsx:98-131 | after `logout()`, renewal sends nothing until the next login |
| `SessionTraces.TicksWhileAuthenticated` | src/auth/AuthProvider.jsx:102-116 | while authenticated, `n` ticks send exactly `n` refresh requests and leave the session unchanged |
| `AuthProviderComponent.AuthProvider.constructor` | src/auth/AuthProvider.jsx:13-19 | the fields equal `Initial(stored)`, no request has been sent, and the invariant holds |
| `AuthProviderComponent.AuthProvider.SyncRenewal` | src/auth/AuthProvider.jsx:98-119 | afterwards, renewal is active exactly when the session is authenticated |
| `AuthProviderComponent.AuthProvider.SignOut` | src/auth/AuthProvider.jsx:33-88 | the sign-out the bootstrap performs at lines 33-34, 72-74, 79-81 and 86-88: afterwards, the session is not authenticated and has no user; the flag is removed when asked, and otherwise kept |
| `AuthProviderComponent.AuthProvider.Bootstrap` | src/auth/AuthProvider.jsx:22-95 | the new fields are `Bootstrap` of the old ones; the request counter grows by `BootstrapRequests`; the invariant is kept |
| `AuthProviderComponent.AuthProvider.Login` | src/auth/AuthProvider.jsx:121-125 | the new fields are `Login` of the old ones; no request is sent; the invariant is kept |
| `AuthProviderComponent.AuthProvider.Logout` | src/auth/AuthProvider.jsx:127-131 | the new fields are `Logout` of the old ones; no request is sent; the invariant is kept |
| `AuthProviderComponent.AuthProvider.RenewalTick` | src/auth/AuthProvider.jsx:102-116 | a tick sends one request and changes no field |

## Left out

- HTTP: the two `fetch`/`apiFetch` calls, their headers, credentials and the API base URL are reduced to outcome parameters. `src/api/api` (the `apiFetch` helper and any retry it does) is not part of this model, and a profile call counts as one request.
- Asynchrony inside the bootstrap: the bootstrap is one atomic step. In the program the mount effect sets the latch at once (line 25), When the stored flag is "true", `checkAuth` then suspends at the `await fetch` (line 40), and `loading` turns off in the `finally` (line 90). Otherwise it calls `setLoading(false)` at line 35 and returns without suspending. Two kinds of event do run inside that window: the second mount effect of a development-mode double mount, and renewal ticks when the stored flag was "true". The model handles the two differently. Ticks in that window are `RenewalTick` events that come before the mount event. They are counted, because the interval installed at mount (`Initial` sets `renewalActive` when the flag is "true") is still active then; a tick after a failed bootstrap is no longer counted, because the interval has been cleared. Only the second mount effect is placed after the first bootstrap has settled. That is harmless: its guard (line 24) reads only the latch, which is already set, and it returns without touching any state or sending anything. Consumers cannot interleave at all: the provider renders only "Loading..." and publishes no context until `loading` is off (lines 133-139). The state "latch set, `loading` on" is therefore not represented, and `Valid` rules it out.
- Browser storage is one optional string field for the `"isAuthenticated"` key. Its sharing with other code is not modelled. Storage writes are assumed to succeed. A `localStorage.setItem` that throws, for instance at line 124 after the two setters have run, would leave the session authenticated without the flag; that case is not modelled.
- Console logging has no effect on the state and is left out.
- The real `setInterval`/`clearInterval` and the 50000 ms period are left out. Only whether the interval is installed is kept. On the class, `RenewalTick` requires the interval to be installed. In the traces, `SessionTraces.Step` accepts a tick in any state and leaves the state alone, and `RenewalRequestsOf` counts a tick as a request only when the interval is installed.
- React mechanics are left out: `createContext`, `useAuth`, hooks, re-rendering and the "Loading..." render. So is the scheduling of the development-mode double mount; only its effect, two mount events, is modelled.
- Unmounting the provider is not modelled. The effect cleanup at line 118 would then clear the interval, but the model has no unmount event.
- `src/App.jsx` only composes providers and routes, and `src/auth/ProtectedRoute.jsx` only redirects when unauthenticated; neither is modelled.
- JavaScript truthiness of the `success` fields is modelled as a boolean. A parsed refresh body of `null`, where reading `success` throws (lines 83-88), falls under `Unparsable`. Any other body whose `success` is falsy, primitives included, takes the `else` at lines 71-75 and falls under `Json(false)`. Both paths sign out and remove the flag.
