/**
 * How histories of the periodic tasks decide what the resource operations do
 * afterwards: the health gate follows the latest heartbeat response, and the
 * bearer token of registrations and updates is the one granted last.
 */
module Scenarios {
  import opened Wrappers
  import opened Api
  import opened GlobalService
  import opened Operations
  import opened Trace

  /** After a heartbeat response that was not 200-with-body (a transport
      failure included), and before the next one, every operation reports
      `{503, "unreachable"}` and sends nothing; fetches, registrations and
      updates then return false. */
  lemma {:induction false} FailedProbeGatesEveryOperation<T>(s: State, es: seq<Event>, env: Environment, i: int,
                                          endpoint: Endpoint, decode: Decoder<T>, player: LocalPlayer, atReply: LocalPlayer, response: Response)
    requires LastHeartbeatReplyAt(es, i) && !HealthyReply(es[i].response)
    ensures Fetch(Run(s, es, env).next, endpoint, decode, response) == Call(Returned(false), None, FetchFailed(Unreachable))
    ensures RegisterPlayer(Run(s, es, env).next, player, atReply, response) == Call(Returned(false), None, RegisterFailed(Unreachable))
    ensures UpdatePlayer(Run(s, es, env).next, player, response) == Call(Returned(false), None, UpdateDone(Some(Unreachable)))
  {
    RunTracksHealth(s, es, env);
  }

  /** Once the API is healthy, a registration and an update carry the bearer
      token of the last auth response that granted one. */
  lemma {:induction false} GrantedTokenAuthorizesWrites(s: State, es: seq<Event>, env: Environment, i: int,
                                     player: LocalPlayer, atReply: LocalPlayer, response: Response)
    requires LastGrantAt(es, env, i) && Run(s, es, env).next.isHealthy
    ensures RegisterPlayer(Run(s, es, env).next, player, atReply, response).request.Some?
    ensures RegisterPlayer(Run(s, es, env).next, player, atReply, response).request.value.authorization ==
      Some(Bearer(Grant(es[i].response, env.accessKeyOf).value))
    ensures UpdatePlayer(Run(s, es, env).next, player, response).request.Some?
    ensures UpdatePlayer(Run(s, es, env).next, player, response).request.value.authorization ==
      Some(Bearer(Grant(es[i].response, env.accessKeyOf).value))
  {
    RunTokenFromLastGrant(s, es, env);
  }

  /** Without any granted token, a healthy service rejects a registration with
      `{401, "server is not global"}` while an update throws before sending. */
  lemma {:induction false} NoGrantSplitsRegisterAndUpdate(es: seq<Event>, env: Environment, configuredURL: string, configuredKey: string,
                                       player: LocalPlayer, atReply: LocalPlayer, response: Response)
    requires forall i | 0 <= i < |es| :: !GrantAt(es, env, i)
    requires Process(configuredURL, configuredKey, es, env).next.isHealthy
    ensures RegisterPlayer(Process(configuredURL, configuredKey, es, env).next, player, atReply, response) ==
      Call(Returned(false), None, RegisterFailed(NotGlobal))
    ensures UpdatePlayer(Process(configuredURL, configuredKey, es, env).next, player, response).completion == BadOptionalAccess
  {
    RunTokenFromLastGrant(Init(Startup, configuredURL, configuredKey).next, es, env);
  }

  /** Without a configured key the first healthy heartbeat response still
      starts the Auth task; its first run then sends nothing and cancels it. */
  lemma AuthTimerStartsWithoutKey(configuredURL: string, response: Response, env: Environment)
    requires HealthyReply(response)
    ensures Process(configuredURL, "", [HeartbeatReply(response)], env).timers == [HeartbeatTimer, AuthTimer]
    ensures Process(configuredURL, "", [HeartbeatReply(response), AuthRuns], env).requests == []
    ensures Auth(Process(configuredURL, "", [HeartbeatReply(response)], env).next, env.pluginVersion).schedule == Cancel
  {
    var es := [HeartbeatReply(response)];
    assert HealthyReplyAt(es, 0);
    ProcessStartsEachTimerOnce(configuredURL, "", es, env);
    RunKeepsConfiguration(Init(Startup, configuredURL, "").next, es, env);
    var boot := Init(Startup, configuredURL, "").next;
    assert boot.apiKey == None;
    assert [HeartbeatReply(response), AuthRuns][..1] == es;
    assert Run(boot, es, env).requests == [];
  }
}
