/**
 * Value objects exchanged between the global service and the cs2kz API:
 * HTTP requests and responses, the normalised error, the write-side player
 * records, and the scheduler vocabulary (timers and reschedule signals).
 * JSON encoding and decoding of these records are outside the model.
 */
module Api {
  import opened Wrappers

  /** A 64-bit SteamID (`u64` in the source). */
  type SteamId64 = x: int | 0 <= x < 0x1_0000_0000_0000_0000

  /** A numeric map identifier (`u16` in the source). */
  type MapId = x: int | 0 <= x < 0x1_0000

  /** A completed HTTP exchange as the transport delivers it; status 0 means
      no response was obtained at all. */
  datatype Response = Response(status: int, body: Option<string>)

  /** `KZ::API::Error`: either synthesised locally by a gate, or built from a
      response whose status the operation does not accept. How the message and
      details are extracted from the raw body is not part of this model. */
  datatype Error =
    | Synthesized(status: int, message: string)
    | FromResponse(status: int, body: string)

  /** The error a handler builds from a response it rejects:
      `KZ::API::Error(response.status, response.Body().value_or(""))`. */
  function ErrorOf(response: Response): Error
  {
    FromResponse(response.status, response.body.GetOr(""))
  }

  /** Reported, without any request, while the API is not healthy. */
  const Unreachable: Error := Synthesized(503, "unreachable")

  /** Reported by RegisterPlayer, without any request, while no access token is held. */
  const NotGlobal: Error := Synthesized(401, "server is not global")

  /** The body of the access-key request: `{refresh_key, plugin_version}`. */
  datatype AuthPayload = AuthPayload(refreshKey: string, pluginVersion: string)

  /** The parts of the local `KZPlayer` the operations read. The session record
      is kept as opaque text: its structure and serialiser are defined elsewhere. */
  datatype LocalPlayer = LocalPlayer(name: string, steamId64: SteamId64, ipAddress: string, session: string)

  /** `KZ::API::NewPlayer`, the body of a registration request. */
  datatype NewPlayer = NewPlayer(name: string, steamId64: SteamId64, ipAddress: string)

  /** `KZ::API::PlayerUpdate`, the body of an update request; its third field is
      an arbitrary JSON object, which UpdatePlayer always sends empty. */
  datatype PlayerUpdate = PlayerUpdate(name: string, ipAddress: string, extra: map<string, string>, session: string)

  datatype Method = Get | Post | Patch

  /** The path appended to the configured API URL. */
  datatype Endpoint =
    | Root                                // the health check
    | ServersKey                          // /servers/key
    | Players                             // /players
    | PlayerByName(name: string)          // /players/<name>
    | PlayerBySteamId(steamId64: SteamId64) // /players/<steamID>
    | MapByName(mapName: string)          // /maps/<name>
    | MapById(id: MapId)                  // /maps/<id>

  datatype Body =
    | NoBody
    | AuthBody(payload: AuthPayload)
    | NewPlayerBody(newPlayer: NewPlayer)
    | PlayerUpdateBody(update: PlayerUpdate)

  /** One request handed to the HTTP transport. */
  datatype Request = Request(verb: Method, apiURL: string, endpoint: Endpoint, authorization: Option<string>, body: Body)

  /** The value of the `Authorization` header built from an access token. */
  function Bearer(token: string): string
  {
    "Bearer " + token
  }

  /** The two periodic tasks of the service. */
  datatype Timer = HeartbeatTimer | AuthTimer

  /** The fixed delays a periodic task asks for; their numeric values are
      constants of the service's header and are not modelled. */
  datatype Interval = HeartbeatInterval | AuthInterval

  /** What a periodic task returns to the scheduler: run again after an
      interval, or (a negative return value in the source) stop for good. */
  datatype Schedule = Reschedule(interval: Interval) | Cancel
}
