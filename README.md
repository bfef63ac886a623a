# coviu-sdk-oauth2 token lifecycle, modelled in Dafny

This project models the token-lifecycle core of the coviu OAuth2 client library (`index.js`):

- **Grant preparation** (`prepairGrant`): a raw token-endpoint response is stamped in place with its refresh deadline at half its lifetime (`now + expires_in * 500` milliseconds), a fresh grant id and the `userId` claim of its decoded access token. If the token cannot be decoded, the whole preparation rejects.
- **The per-principal token context** (`userContext` and its `auth` closure): `auth()` returns a bearer header while the grant is fresh (`next_refresh > now`). Otherwise it starts one refresh, or attaches to the stored refresh promise. A successful refresh installs the new grant, clears the marker, emits one `"refresh"` event, and only then resolves every waiter with the new header.
- **Client-grant memoisation** (`getClientAuth`): the first call assigns `clientGrant` before the fetch resolves. Every later call reuses it, so `getClientAccessToken` runs at most once per client.

Promises are replaced by explicit steps. Refresh #k is the k-th call of `refreshAccessToken`. A caller who must wait receives the ticket `Attached(k)`, and `Settlement(s, k)` is what refresh #k settled to. Every state change is a pure step function on a `State` value (`AuthStep`, `CompleteStep`, `FailStep`, `Step`, `Run`). The class `TokenContext` holds the closure's fields (`grant`, the `refreshing` marker, `userId`, and an event count for `events`) plus the logs `calls` and `settled`, and each of its methods is proved equal to its step function. The client follows the same pattern (`ClientState`, `OAuth2Client`).

Failures stay stored. The code clears `refreshing` only in the success continuation (index.js:103-105). A rejected refresh promise therefore stays stored: every later expired `auth()` call rejects with that same failure, and no new refresh call is ever made (`RejectedIsFinal`). A rejected client grant is kept the same way (`ClientFailureIsFinal`). The library never checks for missing credentials, so the model has no configuration error. Times are milliseconds, because that is what `Date.now()` returns.

A response may lack `refresh_token`; the client-credentials flow usually sends none. The model keeps the refresh token optional. Once such a grant passes its half-life, the context calls `refreshAccessToken(undefined)`, and the model records that call with an absent token.

Files: `wrappers.dfy` (Option, Result), `grants.dfy` (module `Grants`), `contexts.dfy` (module `TokenContexts`), `clients.dfy` (module `Clients`).

Parameters stand in for the collaborators. `now` is `Date.now()`. `decode: string -> Option<Claims>` is `jwt.decode`. `gid`/`id` is the value `cuid()` supplies. The settled transport result arrives as a `Result<Grant, AuthError>` event.

## Model

| member | source | states |
|---|---|---|
| Grants.BuildAuth | index.js:88-92 | the header's bearer is the given token |
| Grants.RefreshDeadline | index.js:65 | the deadline lies exactly half of `expires_in` seconds, in milliseconds, after `now` |
| Grants.DecodeAccessToken | index.js:142-150 | succeeds exactly when the decoder yields claims, returns those claims, and otherwise fails with a decode error |
| Grants.PrepareGrant | index.js:64-71 | a grant results exactly when the access token decodes; it keeps the response's tokens and lifetime, refreshes at the half-life, carries the supplied id and the token's `userId` claim; otherwise the whole preparation fails with the decode error |
| Grants.TokenResponse.Prepare | index.js:64-71 | stamps deadline and id in place even when decoding then fails, sets `userId` only on success, and resolves with the grant `PrepareGrant` describes |
| Grants.FormFields | index.js:124-140 | every form starts with `grant_type`, whose value is `password`, `refresh_token` or `client_credentials` exactly for the matching flow |
| Grants.FormsDetermineRequest | index.js:124-140 | two flows that post the same form are the same flow with the same parameters |
| TokenContexts.Initial | index.js:114-119 | a new context holds the grant, takes its principal from the grant, has no refresh marker, no calls and no events, and satisfies the context invariant |
| TokenContexts.AuthStep | index.js:97-113 | answers at once with the grant's access token exactly when `now < next_refresh` (so `now == next_refresh` is expired) and then changes nothing; otherwise adds a refresh call with the current refresh token only from the idle state, attaches the caller to the stored refresh, and the caller's result is the stored rejection if there is one and pending otherwise; the grant, principal and events never change here |
| TokenContexts.CompleteStep | index.js:103-108 | a resolved refresh installs the new grant, clears the marker, emits exactly one event, keeps the principal, and settles the running ticket with the new grant's header |
| TokenContexts.FailStep | index.js:103-110 | a rejected refresh keeps the old grant, emits no event, stores the rejection in the marker and settles the running ticket with it |
| TokenContexts.Step | index.js:97-113 | every event keeps the invariant and the principal; a refresh call is added only by an expired `auth()` from the idle state, and the grant changes only when a running refresh resolves |
| TokenContexts.Run | index.js:94-122 | after any sequence of calls and settlements the invariant holds: at most one refresh is outstanding, the principal is the one fixed at creation, and no call or settled result is ever taken back |
| TokenContexts.LateCallersAttach | index.js:102-110 | expired callers arriving while a refresh runs change nothing and all attach to the running refresh |
| TokenContexts.ExpiredCallersShareOneRefresh | index.js:102-110 | any number of expired callers with no stored rejection cause exactly one refresh call from the idle state (none if one is running), with the current refresh token, and all attach to that one refresh |
| TokenContexts.WaitersShareRefreshedHeader | index.js:103-110 | when the shared refresh resolves, every one of those callers receives the new grant's header, the context holds the new grant, and one event is emitted |
| TokenContexts.WaitersShareFailure | index.js:103-110 | when the shared refresh rejects, every one of those callers receives the same failure and the old grant stays |
| TokenContexts.RejectedIsFinal | index.js:102-110 | once a rejection is stored, no later event changes the context: no new refresh call, no new grant, and every expired caller gets the stored failure |
| TokenContexts.UndecodableRefreshKeepsGrant | index.js:103-110 | a refresh whose new access token cannot be decoded rejects the refresh with the decode error and leaves the old grant in place |
| TokenContexts.HalfLifeBoundary | index.js:65-100 | a one-hour grant issued at 0 is served unchanged at 1799999 ms and triggers exactly one refresh call at 1800000 ms |
| TokenContexts.TokenContext.constructor | index.js:114-119 | the context object starts in the state `Initial` describes |
| TokenContexts.TokenContext.Auth | index.js:97-113 | the object's new fields and the returned outcome are those of `AuthStep` on its old fields |
| TokenContexts.TokenContext.CompleteRefresh | index.js:103-108 | the object's new fields are those of `CompleteStep`, and the header handed to the waiters is the new grant's |
| TokenContexts.TokenContext.FailRefresh | index.js:103-110 | the object's new fields are those of `FailStep` |
| TokenContexts.TokenContext.Waiter | index.js:110 | a waiter on ticket k has a result exactly when refresh #k has settled; it is a failure exactly for the stored rejected refresh, and then the stored failure; after a success the last waiter gets the current grant's header |
| Clients.ClientInitial | index.js:17-19 | a new client has no client grant and has made no client fetch |
| Clients.ClientAuthStep | index.js:76-79 | the first call assigns the slot and makes the single fetch; calls while fetching wait on it without a new fetch; once the context exists the call is `auth()` on that same context; a stored rejection is returned without a new fetch |
| Clients.ClientFetchStep | index.js:77 | a resolved client fetch wraps the grant in a fresh context, and a rejected one is stored; the fetch count stays |
| Clients.ClientStep | index.js:76-79 | every client event keeps the invariant; an assigned slot is never unassigned, and the shared context, once made, stays with its principal |
| Clients.ClientRun | index.js:76-79 | after any sequence of events at most one `getClientAccessToken` call was made, and once the slot is assigned the count does not move again |
| Clients.FirstCallersFetchOnce | index.js:76-78 | any number of overlapping first calls make exactly one fetch and all wait on it |
| Clients.FreshClientGrantServesAll | index.js:76-78 | while the shared grant is fresh every call gets its bearer header and nothing changes |
| Clients.OverlappingFirstCallersShareHeader | index.js:76-78 | overlapping first calls make one fetch and all wait; once it resolves with a fresh grant, each of their continuations gets that grant's bearer header from the one shared context |
| Clients.ClientFailureIsFinal | index.js:77-78 | a rejected client fetch stays stored: no second fetch and no later change |
| Clients.OAuth2Client.constructor | index.js:17-19 | a new client keeps its key and secret and starts with no client grant |
| Clients.OAuth2Client.GetClientCredentials | index.js:60-62 | the credentials are the client's own key and secret |
| Clients.OAuth2Client.Request | index.js:81-84 | every token request goes to `/auth/token` and posts the flow's form; the credentials the transport authenticates with are exactly those `getClientCredentials` reports |
| Clients.OAuth2Client.RequestDeterminesFlow | index.js:81-84 | two token requests are equal only for the same flow with the same parameters |
| Clients.OAuth2Client.GetAccessToken | index.js:24-27 | the password flow posts `grant_type=password` with the given user name and password |
| Clients.OAuth2Client.RefreshAccessToken | index.js:39-42 | the refresh flow posts `grant_type=refresh_token` with the given refresh token (no `refresh_token` field when it is absent) |
| Clients.OAuth2Client.GetClientAccessToken | index.js:32-34 | the client-credentials flow posts `grant_type=client_credentials` and nothing else |
| Clients.OAuth2Client.UserContext | index.js:53-55 | returns a fresh context in the state `Initial` gives for the grant |
| Clients.OAuth2Client.GetClientAuth | index.js:76-79 | the client's new state and the returned outcome are those of `ClientAuthStep`, and an existing shared context is kept |
| Clients.OAuth2Client.SettleClientFetch | index.js:77 | the client's new state is that of `ClientFetchStep`; on success the slot holds a freshly made context |

## Left out

- HTTP transport: `coviu-sdk-http` is not part of this model. A flow is modelled by the request it builds (`Request`) and by the settled result the transport and `prepairGrant` deliver as an event.
- `jwt.decode` is a foreign library and becomes the parameter `decode`. `None` stands both for a decoder that throws and for one that returns no claims object.
- Grants.DecodeAccessToken: when `jwt.decode` returns `null` instead of throwing, the source's `decodeAccessToken` resolves with `null`, and the failure surfaces only when `prepairGrant` reads `userId`. The model reports both cases as a decode failure.
- Grants.FormFields: how `coviu-sdk-http` encodes a form value of `undefined` is not part of this model; an absent refresh token is modelled as an omitted `refresh_token` field.
- `cuid()` becomes a supplied id; `Date.now()` becomes the parameter `now`.
- Grants.RefreshDeadline: `expires_in` is an integer number of seconds. A missing or non-numeric `expires_in` (which makes `next_refresh` NaN in JavaScript and the grant permanently expired) and fractional lifetimes are not modelled.
- Promise machinery (`es6-promises`, `libs/util.js`) is replaced by tickets and explicit settle steps.
- Clients.ClientAuthStep: a caller that got `AwaitingClient` finishes later by calling `auth()` on the installed context. These pending continuations are not recorded in the client state. `OverlappingFirstCallersShareHeader` states their results as later calls on the shared context.
- The `EventEmitter` is only a count of emitted `"refresh"` events. Subscription, and the case where a listener throws inside `emit` (which would reject the waiters after the new grant is installed), are not modelled.
- The context stores the grant as a value, while the source stores the prepared response object. Nothing writes that object after preparation, so no aliasing is lost.
- `liftClientGrant` is not modelled. It makes the same first-call assignment as `getClientAuth` (index.js:73 and index.js:77). A client whose first call is `liftClientGrant` therefore makes the single `getClientAccessToken` fetch there, and fills the slot that `getClientAuth` later reuses. Its own result always rejects, because the context object has no `lift` (index.js:114-119). The at-most-one-fetch bound still holds in the source, because both sites test `clientGrant === null`.
- The unused imports `fs`, `path` and `shapeful` have no behaviour.
