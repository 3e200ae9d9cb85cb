# KZGlobalService, modelled in Dafny

`KZGlobalService` keeps a CS2KZ game server connected to the cs2kz API. Two
self-rescheduling tasks run in the background. Heartbeat probes the API root
and records whether the API is healthy. Auth trades the configured API key
for an access token. Four resource operations use that state: fetch a player,
register a player, update a player and fetch a map. Each first runs a gate on
health (and, for registration, on holding a token). It then sends one request
and classifies the response into at most one callback.

The model is purely functional:

- `wrappers.dfy` (`Wrappers`): the `Option` type standing for `std::optional`.
- `api.dfy` (`Api`): responses, the normalised `Error`, requests (method, API
  URL, endpoint, `Authorization` header, body), the write-side player records
  and the scheduler vocabulary (`Timer`, `Schedule`).
- `service.dfy` (`GlobalService`): the service's state record and the events that
  change it: `Init`, a Heartbeat run, its response, an Auth run and its
  response. Each event returns the next state, the timers it starts and the
  requests it sends. A task run also returns `Reschedule(interval)` or
  `Cancel`; the source returns the interval or `-1.0`.
- `operations.dfy` (`Operations`): the gate and the four operations. Each
  operation is one function of the state, its arguments and the response the
  transport will deliver. It returns how the C++ function ended, the request
  it sent and the callback it fired.
- `trace.dfy` (`Trace`): histories, meaning sequences of task runs and
  response arrivals in any order. It holds the inductive lemmas over every
  history and over the whole process (`Init` followed by a history).
- `scenarios.dfy` (`Scenarios`): how a history decides what the operations do
  afterwards.

Collaborators whose code is not part of this model are parameters:
- the plugin version string;
- the reader of `access_key` out of an auth response body (`AccessKeyReader`);
- the `Player`/`Map` decoders (`Decoder<T>`, standing for `Deserialize`
  applied to a body that `json::parse` accepted; a body that is not JSON is
  outside the model, see "Left out").

`IsHealthy()` and `IsAuthenticated()` are declared in `kz_global.h`, which is
not part of this model. They are taken to read `isHealthy` and
`apiToken.has_value()`.

Two behaviours of the code are easy to misread, and the model
follows the code in both:
- A healthy heartbeat response starts the Auth task without checking whether
  an API key is configured (kz_global.cpp:76-81). So the Auth task does start
  once even when no key is configured. Its first run sends nothing and cancels
  itself (kz_global.cpp:100-104). `AuthTimerStartsWithoutKey` and
  `ProcessWithoutKeyNeverAuthenticates` state both halves.
- `UpdatePlayer` has a health gate only. With a healthy API and no token it
  calls `apiToken.value()` on an empty optional (kz_global.cpp:338), which
  throws before anything is sent. This is modelled as the `BadOptionalAccess`
  completion, not as a 401.

## Model

| member | source | states |
|---|---|---|
| GlobalService.Init | src/kz/global/kz_global.cpp:26-46 | The API URL becomes the configured one. The key is stored only when the configured key is non-empty; an empty one leaves the key as it was. Nothing else changes, and exactly the Heartbeat timer is started. |
| GlobalService.Heartbeat | src/kz/global/kz_global.cpp:48-96 | A Heartbeat run sends one GET to the API root. It changes no state and always asks to run again after the heartbeat interval. |
| GlobalService.OnHeartbeatResponse | src/kz/global/kz_global.cpp:52-92 | After a heartbeat response the API is healthy exactly when the status was 200 and a body was present. The Auth timer is started exactly when that holds and it had not been started, and the started flag is then set. No other field changes. |
| GlobalService.Auth | src/kz/global/kz_global.cpp:98-171 | With no key: no request, no state change, and Auth cancels itself. With a key: one POST to /servers/key carrying the cached payload, and a reschedule after the auth interval. The payload is built from the key and version only when absent; a cached payload is reused unchanged. |
| GlobalService.OnAuthResponse | src/kz/global/kz_global.cpp:121-168 | The token changes only on a 201 with a body carrying access_key, and then equals that value. Status 0, a missing body, a wrong shape and every other status leave the state unchanged. |
| Operations.ClassifyFetch | src/kz/global/kz_global.cpp:185-232 | 404 gives onSuccess(none). 200 with a decodable body gives onSuccess(decoded value). 0, a body-less 200 and a decode failure fire nothing. Every other status gives onError carrying that status. Each of these is stated in both directions. |
| Operations.Fetch | src/kz/global/kz_global.cpp:173-235 | Returns whether the API is healthy. While unhealthy: onError {503, "unreachable"} and no request. While healthy: exactly one GET of the endpoint with no token, and the response is classified as above. |
| Operations.FetchPlayer | src/kz/global/kz_global.cpp:173-249 | Returns whether the API is healthy. While unhealthy: onError {503, "unreachable"} and no request. While healthy: exactly one GET of the API URL's /players/<name> or /players/<steamID>, with no Authorization header and no body, and the response is classified as every fetch is. |
| Operations.FetchMap | src/kz/global/kz_global.cpp:369-445 | Returns whether the API is healthy. While unhealthy: onError {503, "unreachable"} and no request. While healthy: exactly one GET of the API URL's /maps/<name> or /maps/<id>, with no Authorization header and no body, and the response is classified as every fetch is. |
| Operations.ClassifyRegister | src/kz/global/kz_global.cpp:278-316 | A follow-up fetch happens exactly on 201, and it is by the SteamID the handler reads when the response arrives. Nothing happens exactly on status 0. Every other status gives onError carrying that status. |
| Operations.RegisterPlayer | src/kz/global/kz_global.cpp:251-319 | While unhealthy: onError 503. While healthy without a token: onError 401 "server is not global". Both send nothing and return false. A request is sent exactly when healthy with a token: POST /players with "Bearer <token>" and the player's name, SteamID and address, read when the call is made. It then returns true. The response is classified with the SteamID of the player object as it reads when the response arrives, which the handler reaches through the captured pointer and which may differ from the one sent. |
| Operations.ClassifyUpdate | src/kz/global/kz_global.cpp:342-364 | 204, and only 204, gives onError(none). Status 0, and only 0, fires nothing. Every other status gives onError with an error carrying that status. |
| Operations.UpdatePlayer | src/kz/global/kz_global.cpp:321-367 | While unhealthy: onError(503), no request, return false. Healthy without a token: throws before sending. A request is sent exactly when healthy with a token: PATCH /players/<steamID> with the bearer token and {name, address, empty object, session}. It then returns true. |
| Trace.RunKeepsConfiguration | src/kz/global/kz_global.cpp:26-46 | No sequence of heartbeat or auth events changes the API URL or the API key; only Init writes them. |
| Trace.RunTracksHealth | src/kz/global/kz_global.cpp:52-92 | After any history, health equals the verdict of the most recent heartbeat response (200 with a body). It is unchanged while no heartbeat response has arrived. |
| Trace.RunStartsAuthTimerOnce | src/kz/global/kz_global.cpp:76-81 | Over any history the Auth timer is started at most once. It is started exactly when the flag was clear and some heartbeat response was healthy. The flag ends set exactly when it was set before or such a response arrived, so it is never reset. |
| Trace.RunTokenFromLastGrant | src/kz/global/kz_global.cpp:121-168 | After any history the token is the one granted by the last successful auth response. Without any grant it is the token held before. |
| Trace.RunBuildsPayloadOnce | src/kz/global/kz_global.cpp:106-113 | Once cached, the auth payload never changes. If any cached payload was built from the API key and plugin version, that still holds after the history. A payload exists exactly when it existed before, or an Auth run happened while a key was held. |
| Trace.RunSendsOnlyProbesAndKeyRequests | src/kz/global/kz_global.cpp:48-119 | Start from a state whose cached payload, if any, was built from the key. Then every request sent by the periodic tasks is the health probe of the API URL or the access-key POST carrying the payload built from the key. The latter is sent only when a key is held. |
| Trace.ProcessStartsEachTimerOnce | src/kz/global/kz_global.cpp:45-81 | Over the life of the process the Heartbeat timer is started once, by Init. The Auth timer is started once exactly when some heartbeat response was healthy, whether or not a key is configured. |
| Trace.ProcessKeepsConfiguration | src/kz/global/kz_global.cpp:30-43 | For the whole process the API URL is the configured one. A key is held exactly when a non-empty key was configured. |
| Trace.ProcessWithoutKeyNeverAuthenticates | src/kz/global/kz_global.cpp:33-104 | With an empty configured key the process only ever sends health probes. It never requests an access token. |
| Trace.ProcessReusesOnePayload | src/kz/global/kz_global.cpp:106-119 | With a configured key, every access-key request of the process carries the same payload, {key, plugin version}. |
| Scenarios.FailedProbeGatesEveryOperation | src/kz/global/kz_global.cpp:176-377 | After a heartbeat response that was not 200-with-body, and before the next one, fetch, register and update report 503 "unreachable", send nothing and return false. Status 0 is included. |
| Scenarios.GrantedTokenAuthorizesWrites | src/kz/global/kz_global.cpp:260-339 | Once healthy, registration and update send their request with "Bearer <t>", where t is the token of the last granting auth response. |
| Scenarios.NoGrantSplitsRegisterAndUpdate | src/kz/global/kz_global.cpp:253-338 | A healthy process that was never granted a token rejects registration with 401, while update throws on the absent token. |
| Scenarios.AuthTimerStartsWithoutKey | src/kz/global/kz_global.cpp:76-104 | With no configured key, a healthy heartbeat response still starts the Auth timer. Its first run sends nothing and returns the cancel signal. |

## Left out

- The HTTP transport (`HTTP::Request`, `Send`, `SetHeader`, `ISteamHTTP`) is foreign I/O. The response a request will receive is an input, and asynchronous delivery is not modelled.
- JSON parsing and dumping, `Player::Deserialize`, `Map::Deserialize` and the `Serialize` methods of `NewPlayer` and `PlayerUpdate` are defined elsewhere. Decoders and the access-key reader are parameters, and request bodies are the value objects themselves. An exception thrown by `json::parse` on a malformed body, or by reading a non-string `access_key`, is not modelled.
- `KZ::API::Error`'s extraction of a message and details from a body lives in `error.h`, which is not part of this model. An error built from a response keeps its status and the raw body.
- Logging (`META_CONPRINTF`) is output only.
- The follow-up after a registration (kz_global.cpp:304) is a full `FetchPlayer` by SteamID. It runs the health gate again with the state current when the 201 arrives. If the API is still healthy it sends a second GET of /players/<steamID> to the API URL current then; otherwise its onError receives {503, "unreachable"} and hands it to `PrintError` (kz_global.cpp:176-180, 300-302). Its response is classified like any fetch, so it can fire onSuccess, onError or nothing. The model records only that this fetch is called, as `FollowUpFetch(steamId64)`. It does not chain the fetch's effects into the registration's outcome. Its callbacks (kz_global.cpp:289-302) update the caller's player record or print chat and error messages, and are not modelled.
- The registration's response handler captures the `KZPlayer*` itself (kz_global.cpp:278). `RegisterPlayer` takes the player as it reads at call time and as it reads when the response arrives as two separate records. Which `KZPlayer` object the pointer designates by then, and the write of `player->info` through it (kz_global.cpp:297), are not modelled.
- URL formatting with `CUtlString::Format` is modelled as the API URL plus an `Endpoint` value. The decimal rendering of `%llu`/`%d` and the unescaped insertion of names are left out.
- `KZOptionService::GetOptionStr` is configuration loading. The configured URL and key are parameters of `Init`.
- `StartTimer` scheduling and the `f64` interval values are timer plumbing. A timer start is a recorded `Timer`, and a return value is `Reschedule(interval)` or `Cancel`.
- `std::atomic` on the flags is left out, because every mutation happens sequentially inside callbacks.
- `currentMap` is declared alongside the other fields but never read or written in this file, so it is not part of the state.
- Which event orders can happen is left open. A history may contain any sequence of task runs and responses, including responses to requests that were never sent. So the history lemmas hold for every interleaving the scheduler and transport could produce, and for some they could not.
