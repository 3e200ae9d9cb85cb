/**
 * The resource operations of `KZGlobalService`: fetching a player or a map,
 * registering a player and updating a player. Each operation first runs a
 * gate on the current state; if the gate passes it sends one request, and the
 * response the transport later delivers is classified into at most one
 * callback. Each operation is modelled as one function of the state, its
 * arguments and that response (consulted only when a request was sent).
 */
module Operations {
  import opened Wrappers
  import opened Api
  import opened GlobalService

  /** How the C++ function itself ended: with a return value, or by
      `std::optional::value()` throwing on an absent access token. */
  datatype Completion = Returned(value: bool) | BadOptionalAccess

  /** Everything one call does: how it ended, the request it sent (if any)
      and which callback it fired with which argument (including a callback
      fired synchronously by the gate). */
  datatype Call<C> = Call(completion: Completion, request: Option<Request>, callback: C)

  /** The callbacks of a fetch: `onSuccess(optional resource)`, `onError(error)`, or neither. */
  datatype FetchCallback<T> = FetchSucceeded(found: Option<T>) | FetchFailed(error: Error) | FetchSilent

  /** The outcome of a registration: the follow-up fetch of the registered
      player, `onError(error)`, or nothing. */
  datatype RegisterCallback = FollowUpFetch(steamId64: SteamId64) | RegisterFailed(error: Error) | RegisterSilent

  /** The single callback of an update, `onError(optional error)`, or nothing. */
  datatype UpdateCallback = UpdateDone(error: Option<Error>) | UpdateSilent

  /** How a player is looked up. */
  datatype PlayerKey = PlayerName(name: string) | PlayerSteamId(steamId64: SteamId64)

  /** How a map is looked up. */
  datatype MapKey = MapName(name: string) | MapNumber(id: MapId)

  /** Reads a resource out of a response body that `json::parse` accepted:
      the type's `Deserialize`, failing with None. A body that is not JSON
      makes `json::parse` throw; that case is outside this model. */
  type Decoder<T> = string -> Option<T>

  /** The check every operation runs before sending: the error it reports, or
      None when the request may go out. Fetches and updates ask only for
      health; registration also asks for an access token. */
  function Gate(s: State, needsToken: bool): Option<Error>
  {
    if !s.isHealthy then Some(Unreachable)
    else if needsToken && s.apiToken.None? then Some(NotGlobal)
    else None
  }

  /** How a fetch response is turned into a callback: 404 is a successful
      "not found", 200 with a body that decodes is a successful lookup, a
      transport failure, a body-less 200 and an undecodable body fire nothing,
      and every other status is reported as an error carrying that status. */
  function ClassifyFetch<T>(response: Response, decode: Decoder<T>): (r: FetchCallback<T>)
    ensures r.FetchSucceeded? && r.found.None? <==> response.status == 404
    ensures r.FetchSucceeded? && r.found.Some? <==>
      response.status == 200 && response.body.Some? && decode(response.body.value).Some?
    ensures r.FetchSucceeded? && r.found.Some? ==> r.found == decode(response.body.value)
    ensures r.FetchFailed? <==> response.status !in {0, 200, 404}
    ensures r.FetchFailed? ==> r.error == ErrorOf(response) && r.error.status == response.status
    ensures r.FetchSilent? <==>
      response.status == 0 || (response.status == 200 && (response.body.None? || decode(response.body.value).None?))
  {
    match response.status
    case 0 => FetchSilent
    case 200 =>
      if response.body.None? then FetchSilent
      else
        (match decode(response.body.value)
         case None => FetchSilent
         case Some(resource) => FetchSucceeded(Some(resource)))
    case 404 => FetchSucceeded(None)
    case _ => FetchFailed(ErrorOf(response))
  }

  /** `FetchPlayerImpl` and `FetchMapImpl`, which differ only in their log
      text: while unhealthy, report `{503, "unreachable"}`, send nothing and
      return false; otherwise GET the endpoint, return true and classify the
      response. */
  function Fetch<T>(s: State, endpoint: Endpoint, decode: Decoder<T>, response: Response): (r: Call<FetchCallback<T>>)
    ensures r.completion == Returned(s.isHealthy)
    ensures !s.isHealthy ==> r.request == None && r.callback == FetchFailed(Unreachable)
    ensures s.isHealthy ==> r.request == Some(Request(Get, s.apiURL, endpoint, None, NoBody))
    ensures s.isHealthy ==> r.callback == ClassifyFetch(response, decode)
  {
    match Gate(s, false)
    case Some(error) => Call(Returned(false), None, FetchFailed(error))
    case None => Call(Returned(true), Some(Request(Get, s.apiURL, endpoint, None, NoBody)), ClassifyFetch(response, decode))
  }

  function PlayerEndpoint(key: PlayerKey): Endpoint
  {
    match key
    case PlayerName(name) => PlayerByName(name)
    case PlayerSteamId(id) => PlayerBySteamId(id)
  }

  function MapEndpoint(key: MapKey): Endpoint
  {
    match key
    case MapName(name) => MapByName(name)
    case MapNumber(id) => MapById(id)
  }

  /** `FetchPlayer` by name or by SteamID: a fetch of `/players/<key>`, gated
      and classified as every fetch is. */
  function FetchPlayer<Player>(s: State, key: PlayerKey, decode: Decoder<Player>, response: Response): (r: Call<FetchCallback<Player>>)
    ensures r.completion == Returned(s.isHealthy)
    ensures s.isHealthy && key.PlayerName? ==>
      r.request == Some(Request(Get, s.apiURL, PlayerByName(key.name), None, NoBody))
    ensures s.isHealthy && key.PlayerSteamId? ==>
      r.request == Some(Request(Get, s.apiURL, PlayerBySteamId(key.steamId64), None, NoBody))
    ensures !s.isHealthy ==> r == Call(Returned(false), None, FetchFailed(Unreachable))
    ensures s.isHealthy ==> r.callback == ClassifyFetch(response, decode)
  {
    Fetch(s, PlayerEndpoint(key), decode, response)
  }

  /** `FetchMap` by name or by numeric id (`FetchMapImpl` behind it): a fetch
      of `/maps/<key>`, gated and classified as every fetch is. */
  function FetchMap<Map>(s: State, key: MapKey, decode: Decoder<Map>, response: Response): (r: Call<FetchCallback<Map>>)
    ensures r.completion == Returned(s.isHealthy)
    ensures s.isHealthy && key.MapName? ==>
      r.request == Some(Request(Get, s.apiURL, MapByName(key.name), None, NoBody))
    ensures s.isHealthy && key.MapNumber? ==>
      r.request == Some(Request(Get, s.apiURL, MapById(key.id), None, NoBody))
    ensures !s.isHealthy ==> r == Call(Returned(false), None, FetchFailed(Unreachable))
    ensures s.isHealthy ==> r.callback == ClassifyFetch(response, decode)
  {
    Fetch(s, MapEndpoint(key), decode, response)
  }

  /** How a registration response is handled: 201 issues exactly one follow-up
      fetch of the registered player by SteamID, a transport failure does
      nothing, and every other status is reported as an error carrying it. */
  function ClassifyRegister(response: Response, steamId64: SteamId64): (r: RegisterCallback)
    ensures r.FollowUpFetch? <==> response.status == 201
    ensures r.FollowUpFetch? ==> r.steamId64 == steamId64
    ensures r.RegisterSilent? <==> response.status == 0
    ensures r.RegisterFailed? ==> r.error == ErrorOf(response) && r.error.status == response.status
  {
    match response.status
    case 0 => RegisterSilent
    case 201 => FollowUpFetch(steamId64)
    case _ => RegisterFailed(ErrorOf(response))
  }

  /** `RegisterPlayer`: while unhealthy report 503, while healthy without an
      access token report 401, in both cases sending nothing and returning
      false; otherwise POST the player's name, SteamID and address to
      `/players` with the bearer token, return true and classify the response.
      The response handler holds the `KZPlayer` pointer, not a copy, and reads
      the SteamID for the follow-up fetch through it when the response
      arrives: `atReply` is that object as it reads then, which need not be
      the `player` the request was built from. */
  function RegisterPlayer(s: State, player: LocalPlayer, atReply: LocalPlayer, response: Response): (r: Call<RegisterCallback>)
    ensures r.completion == Returned(s.isHealthy && s.apiToken.Some?)
    ensures !s.isHealthy ==> r.request == None && r.callback == RegisterFailed(Unreachable)
    ensures s.isHealthy && s.apiToken.None? ==> r.request == None && r.callback == RegisterFailed(NotGlobal)
    ensures r.request.Some? <==> s.isHealthy && s.apiToken.Some?
    ensures r.request.Some? ==>
      r.request.value == Request(Post, s.apiURL, Players, Some(Bearer(s.apiToken.value)),
                                 NewPlayerBody(NewPlayer(player.name, player.steamId64, player.ipAddress)))
    ensures r.request.Some? ==> r.callback == ClassifyRegister(response, atReply.steamId64)
  {
    match Gate(s, true)
    case Some(error) => Call(Returned(false), None, RegisterFailed(error))
    case None =>
      var body := NewPlayerBody(NewPlayer(player.name, player.steamId64, player.ipAddress));
      Call(Returned(true), Some(Request(Post, s.apiURL, Players, Some(Bearer(s.apiToken.value)), body)),
           ClassifyRegister(response, atReply.steamId64))
  }

  /** How an update response is handled: 204 fires the callback with no
      error, a transport failure fires nothing, and every other status fires
      it with an error carrying that status. */
  function ClassifyUpdate(response: Response): (r: UpdateCallback)
    ensures r == UpdateDone(None) <==> response.status == 204
    ensures r.UpdateSilent? <==> response.status == 0
    ensures r.UpdateDone? && r.error.Some? ==> r.error == Some(ErrorOf(response))
    ensures response.status !in {0, 204} ==> r.UpdateDone? && r.error.Some? && r.error.value.status == response.status
  {
    match response.status
    case 0 => UpdateSilent
    case 204 => UpdateDone(None)
    case _ => UpdateDone(Some(ErrorOf(response)))
  }

  /** `UpdatePlayer`: gated on health only. While unhealthy it reports 503,
      sends nothing and returns false. While healthy it reads the access token
      unconditionally, so without one it throws before sending; with one it
      PATCHes `/players/<steamID>` with the bearer token, returns true and
      classifies the response. */
  function UpdatePlayer(s: State, player: LocalPlayer, response: Response): (r: Call<UpdateCallback>)
    ensures !s.isHealthy ==> r == Call(Returned(false), None, UpdateDone(Some(Unreachable)))
    ensures s.isHealthy && s.apiToken.None? ==> r.completion == BadOptionalAccess && r.request == None && r.callback.UpdateSilent?
    ensures r.request.Some? <==> s.isHealthy && s.apiToken.Some?
    ensures r.request.Some? ==> r.completion == Returned(true)
    ensures r.request.Some? ==>
      r.request.value == Request(Patch, s.apiURL, PlayerBySteamId(player.steamId64), Some(Bearer(s.apiToken.value)),
                                 PlayerUpdateBody(PlayerUpdate(player.name, player.ipAddress, map[], player.session)))
    ensures r.request.Some? ==> r.callback == ClassifyUpdate(response)
  {
    match Gate(s, false)
    case Some(error) => Call(Returned(false), None, UpdateDone(Some(error)))
    case None =>
      if s.apiToken.None? then
        Call(BadOptionalAccess, None, UpdateSilent)
      else
        var body := PlayerUpdateBody(PlayerUpdate(player.name, player.ipAddress, map[], player.session));
        Call(Returned(true), Some(Request(Patch, s.apiURL, PlayerBySteamId(player.steamId64), Some(Bearer(s.apiToken.value)), body)),
             ClassifyUpdate(response))
  }
}
