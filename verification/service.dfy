/**
 * The state of `KZGlobalService` and the four events that change it:
 * `Init`, a run of the Heartbeat task and the arrival of its response, and a
 * run of the Auth task and the arrival of its response. Every event is a pure
 * function from the current state to the next one, together with the timers
 * it starts and the requests it hands to the transport.
 */
module GlobalService {
  import opened Wrappers
  import opened Api

  /** The API URL used until `Init` reads the configuration. */
  const DefaultApiURL: string := "https://api.cs2kz.org"

  /** The static fields of the service. */
  datatype State = State(
    apiURL: string,
    isHealthy: bool,
    authTimerInitialized: bool,
    apiKey: Option<string>,
    authPayload: Option<AuthPayload>,
    apiToken: Option<string>)

  /** The state at process start, before `Init` runs. */
  const Startup: State := State(DefaultApiURL, false, false, None, None, None)

  /** The observable effect of one event. */
  datatype Effects = Effects(next: State, timers: seq<Timer>, requests: seq<Request>)

  /** The effect of one run of a periodic task, and what it returns to the scheduler. */
  datatype Tick = Tick(effects: Effects, schedule: Schedule)

  /** A heartbeat response that reports the API healthy: status 200 with a body. */
  predicate HealthyReply(response: Response)
  {
    response.status == 200 && response.body.Some?
  }

  /** Reads the `access_key` field of a response body that `json::parse`
      accepted: the key, if the body is an object that has one, and None
      otherwise. A body that is not JSON makes `json::parse` throw; that case
      is outside this model. */
  type AccessKeyReader = string -> Option<string>

  /** The access token an auth response grants, if any: a 201 whose body
      carries an `access_key`. */
  function Grant(response: Response, accessKeyOf: AccessKeyReader): Option<string>
  {
    if response.status == 201 && response.body.Some? then accessKeyOf(response.body.value) else None
  }

  /** The health probe the Heartbeat task sends: a GET of the API root. */
  function Probe(apiURL: string): Request
  {
    Request(Get, apiURL, Root, None, NoBody)
  }

  /** The access-key request the Auth task sends: the auth payload POSTed to
      `/servers/key`, without an `Authorization` header. */
  function KeyRequest(apiURL: string, payload: AuthPayload): Request
  {
    Request(Post, apiURL, ServersKey, None, AuthBody(payload))
  }

  /** `Init`: adopt the configured API URL, keep the configured API key only if
      it is non-empty, and start the Heartbeat task. */
  function Init(s: State, configuredURL: string, configuredKey: string): (r: Effects)
    ensures r.next.apiURL == configuredURL
    ensures configuredKey != "" ==> r.next.apiKey == Some(configuredKey)
    ensures configuredKey == "" ==> r.next.apiKey == s.apiKey
    ensures r.next.(apiURL := s.apiURL, apiKey := s.apiKey) == s
    ensures r.timers == [HeartbeatTimer] && r.requests == []
  {
    var keyed := if configuredKey == "" then s else s.(apiKey := Some(configuredKey));
    Effects(keyed.(apiURL := configuredURL), [HeartbeatTimer], [])
  }

  /** One run of the Heartbeat task: probe the API root, ask to run again
      after the heartbeat interval. The state changes only when the response
      arrives. */
  function Heartbeat(s: State): (r: Tick)
    ensures r.schedule == Reschedule(HeartbeatInterval)
    ensures r.effects.next == s && r.effects.timers == []
    ensures r.effects.requests == [Probe(s.apiURL)]
  {
    Tick(Effects(s, [], [Probe(s.apiURL)]), Reschedule(HeartbeatInterval))
  }

  /** The Heartbeat response handler: the API is healthy exactly when the
      probe returned 200 with a body, and the first healthy response starts
      the Auth task (without looking at the API key). */
  function OnHeartbeatResponse(s: State, response: Response): (r: Effects)
    ensures r.next.isHealthy <==> HealthyReply(response)
    ensures r.next.authTimerInitialized <==> s.authTimerInitialized || HealthyReply(response)
    ensures r.timers == (if HealthyReply(response) && !s.authTimerInitialized then [AuthTimer] else [])
    ensures r.next.(isHealthy := s.isHealthy, authTimerInitialized := s.authTimerInitialized) == s
    ensures r.requests == []
  {
    match response.status
    case 0 => Effects(s.(isHealthy := false), [], [])
    case 200 =>
      if response.body.None? then
        Effects(s.(isHealthy := false), [], [])
      else if !s.authTimerInitialized then
        Effects(s.(isHealthy := true, authTimerInitialized := true), [AuthTimer], [])
      else
        Effects(s.(isHealthy := true), [], [])
    case _ => Effects(s.(isHealthy := false), [], [])
  }

  /** One run of the Auth task. Without an API key it sends nothing and
      cancels itself. Otherwise it builds the request payload the first time
      only, posts it to `/servers/key`, and asks to run again after the auth
      interval. */
  function Auth(s: State, pluginVersion: string): (r: Tick)
    ensures s.apiKey.None? ==> r.schedule == Cancel && r.effects == Effects(s, [], [])
    ensures s.apiKey.Some? ==> r.schedule == Reschedule(AuthInterval)
    ensures s.apiKey.Some? ==> r.effects.next.authPayload.Some?
    ensures s.apiKey.Some? ==>
      r.effects.requests == [KeyRequest(s.apiURL, r.effects.next.authPayload.value)]
    ensures s.authPayload.Some? ==> r.effects.next.authPayload == s.authPayload
    ensures s.apiKey.Some? && s.authPayload.None? ==>
      r.effects.next.authPayload == Some(AuthPayload(s.apiKey.value, pluginVersion))
    ensures r.effects.next.(authPayload := s.authPayload) == s
    ensures r.effects.timers == []
  {
    if s.apiKey.None? then
      Tick(Effects(s, [], []), Cancel)
    else
      var payload := if s.authPayload.Some? then s.authPayload.value else AuthPayload(s.apiKey.value, pluginVersion);
      Tick(Effects(s.(authPayload := Some(payload)), [], [KeyRequest(s.apiURL, payload)]),
           Reschedule(AuthInterval))
  }

  /** The Auth response handler: the token is replaced exactly when the
      response grants one; a transport failure, a missing body, a body without
      `access_key` and every other status leave the state as it was. */
  function OnAuthResponse(s: State, response: Response, accessKeyOf: AccessKeyReader): (r: Effects)
    ensures r.next.apiToken != s.apiToken ==>
      response.status == 201 && response.body.Some? && r.next.apiToken == accessKeyOf(response.body.value)
    ensures Grant(response, accessKeyOf).Some? ==> r.next.apiToken == Grant(response, accessKeyOf)
    ensures Grant(response, accessKeyOf).None? ==> r.next == s
    ensures r.next.(apiToken := s.apiToken) == s
    ensures r.timers == [] && r.requests == []
  {
    match response.status
    case 0 => Effects(s, [], [])
    case 201 =>
      if response.body.None? then
        Effects(s, [], [])
      else
        (match accessKeyOf(response.body.value)
         case None => Effects(s, [], [])
         case Some(key) => Effects(s.(apiToken := Some(key)), [], []))
    case _ => Effects(s, [], [])
  }
}
