/**
 * Histories of the service: a sequence of events (a periodic task running, or
 * the response to one of its requests arriving) applied one after another to
 * the service state, and the properties that hold of every such history.
 * The scheduler and the transport are free to deliver events in any order.
 */
module Trace {
  import opened Wrappers
  import opened Api
  import opened GlobalService

  datatype Event =
    | HeartbeatRuns
    | HeartbeatReply(response: Response)
    | AuthRuns
    | AuthReply(response: Response)

  /** What the service's collaborators contribute: the plugin version string
      and the reader of `access_key` out of an auth response body. */
  datatype Environment = Environment(pluginVersion: string, accessKeyOf: AccessKeyReader)

  function Step(s: State, e: Event, env: Environment): Effects
  {
    match e
    case HeartbeatRuns => Heartbeat(s).effects
    case HeartbeatReply(response) => OnHeartbeatResponse(s, response)
    case AuthRuns => Auth(s, env.pluginVersion).effects
    case AuthReply(response) => OnAuthResponse(s, response, env.accessKeyOf)
  }

  /** The state after a history, with every timer started and request sent
      along the way, in order. */
  function Run(s: State, es: seq<Event>, env: Environment): Effects
    decreases |es|
  {
    if es == [] then Effects(s, [], [])
    else
      var before := Run(s, es[..|es| - 1], env);
      var last := Step(before.next, es[|es| - 1], env);
      Effects(last.next, before.timers + last.timers, before.requests + last.requests)
  }

  /** The whole life of the process: `Init` with the configured URL and key,
      then a history of events. */
  function Process(configuredURL: string, configuredKey: string, es: seq<Event>, env: Environment): Effects
  {
    var boot := Init(Startup, configuredURL, configuredKey);
    var run := Run(boot.next, es, env);
    Effects(run.next, boot.timers + run.timers, boot.requests + run.requests)
  }

  // ---------------------------------------------------------------------------
  // Reference vocabulary for the properties below

  ghost predicate LastHeartbeatReplyAt(es: seq<Event>, i: int)
  {
    0 <= i < |es| && es[i].HeartbeatReply? && forall j | i < j < |es| :: !es[j].HeartbeatReply?
  }

  ghost predicate HealthyReplyAt(es: seq<Event>, i: int)
  {
    0 <= i < |es| && es[i].HeartbeatReply? && HealthyReply(es[i].response)
  }

  ghost predicate GrantAt(es: seq<Event>, env: Environment, i: int)
  {
    0 <= i < |es| && es[i].AuthReply? && Grant(es[i].response, env.accessKeyOf).Some?
  }

  ghost predicate LastGrantAt(es: seq<Event>, env: Environment, i: int)
  {
    GrantAt(es, env, i) && forall j | i < j < |es| :: !GrantAt(es, env, j)
  }

  /** A cached auth payload, if any, is the one built from the API key. */
  ghost predicate PayloadFromKey(s: State, pluginVersion: string)
  {
    s.authPayload.Some? ==> s.apiKey.Some? && s.authPayload.value == AuthPayload(s.apiKey.value, pluginVersion)
  }

  // ---------------------------------------------------------------------------
  // Properties of every history

  /** The API URL and API key read by `Init` never change afterwards. */
  lemma {:induction false} RunKeepsConfiguration(s: State, es: seq<Event>, env: Environment)
    ensures Run(s, es, env).next.apiURL == s.apiURL
    ensures Run(s, es, env).next.apiKey == s.apiKey
    decreases |es|
  {
    if es != [] {
      RunKeepsConfiguration(s, es[..|es| - 1], env);
    }
  }

  /** One event changes health exactly when it is a heartbeat response. */
  lemma StepHealth(s: State, e: Event, env: Environment)
    ensures e.HeartbeatReply? ==> Step(s, e, env).next.isHealthy == HealthyReply(e.response)
    ensures !e.HeartbeatReply? ==> Step(s, e, env).next.isHealthy == s.isHealthy
  {
  }

  lemma LastHeartbeatReplyIsFinal(es: seq<Event>, i: int)
    requires LastHeartbeatReplyAt(es, i) && es[|es| - 1].HeartbeatReply?
    ensures i == |es| - 1
  {
  }

  lemma LastHeartbeatReplyInPrefix(es: seq<Event>, i: int)
    requires LastHeartbeatReplyAt(es, i) && !es[|es| - 1].HeartbeatReply?
    ensures LastHeartbeatReplyAt(es[..|es| - 1], i)
  {
    var prefix := es[..|es| - 1];
    forall j | i < j < |prefix|
      ensures !prefix[j].HeartbeatReply?
    {
      assert prefix[j] == es[j];
    }
  }

  /** Health reflects exactly the most recent heartbeat response: true only if
      it was 200 with a body, and unchanged while no response has arrived. */
  lemma {:induction false} RunTracksHealth(s: State, es: seq<Event>, env: Environment)
    ensures (forall i | 0 <= i < |es| :: !es[i].HeartbeatReply?) ==> Run(s, es, env).next.isHealthy == s.isHealthy
    ensures forall i | LastHeartbeatReplyAt(es, i) :: Run(s, es, env).next.isHealthy == HealthyReply(es[i].response)
    decreases |es|
  {
    if es != [] {
      var n := |es| - 1;
      var prefix := es[..n];
      RunTracksHealth(s, prefix, env);
      StepHealth(Run(s, prefix, env).next, es[n], env);
      assert Run(s, es, env).next == Step(Run(s, prefix, env).next, es[n], env).next;
      if es[n].HeartbeatReply? {
        forall i | LastHeartbeatReplyAt(es, i)
          ensures i == n
        {
          LastHeartbeatReplyIsFinal(es, i);
        }
      } else {
        forall i | LastHeartbeatReplyAt(es, i)
          ensures LastHeartbeatReplyAt(prefix, i)
        {
          LastHeartbeatReplyInPrefix(es, i);
        }
        if forall i | 0 <= i < |es| :: !es[i].HeartbeatReply? {
          forall i | 0 <= i < |prefix|
            ensures !prefix[i].HeartbeatReply?
          {
            assert prefix[i] == es[i];
          }
        }
      }
    }
  }

  /** The Auth task is started at most once in the life of the service: by
      the first healthy heartbeat response, and only if no earlier one started
      it. The flag that records it is never reset. */
  lemma {:induction false} RunStartsAuthTimerOnce(s: State, es: seq<Event>, env: Environment)
    ensures Run(s, es, env).timers ==
      (if !s.authTimerInitialized && exists i :: HealthyReplyAt(es, i) then [AuthTimer] else [])
    ensures Run(s, es, env).next.authTimerInitialized <==>
      s.authTimerInitialized || exists i :: HealthyReplyAt(es, i)
    decreases |es|
  {
    if es != [] {
      var n := |es| - 1;
      var prefix := es[..n];
      RunStartsAuthTimerOnce(s, prefix, env);
      assert (exists i :: HealthyReplyAt(es, i)) <==> (exists i :: HealthyReplyAt(prefix, i)) || HealthyReplyAt(es, n) by {
        if exists i :: HealthyReplyAt(es, i) {
          var i :| HealthyReplyAt(es, i);
          if i < n {
            assert prefix[i] == es[i];
            assert HealthyReplyAt(prefix, i);
          }
        }
        if exists i :: HealthyReplyAt(prefix, i) {
          var i :| HealthyReplyAt(prefix, i);
          assert prefix[i] == es[i];
          assert HealthyReplyAt(es, i);
        }
      }
    }
  }

  /** One event replaces the token exactly when it is an auth response that grants one. */
  lemma StepToken(s: State, e: Event, env: Environment)
    ensures e.AuthReply? && Grant(e.response, env.accessKeyOf).Some? ==>
      Step(s, e, env).next.apiToken == Grant(e.response, env.accessKeyOf)
    ensures !(e.AuthReply? && Grant(e.response, env.accessKeyOf).Some?) ==>
      Step(s, e, env).next.apiToken == s.apiToken
  {
  }

  lemma LastGrantIsFinal(es: seq<Event>, env: Environment, i: int)
    requires LastGrantAt(es, env, i) && GrantAt(es, env, |es| - 1)
    ensures i == |es| - 1
  {
  }

  lemma LastGrantInPrefix(es: seq<Event>, env: Environment, i: int)
    requires LastGrantAt(es, env, i) && !GrantAt(es, env, |es| - 1)
    ensures LastGrantAt(es[..|es| - 1], env, i)
  {
    var prefix := es[..|es| - 1];
    assert prefix[i] == es[i];
    forall j | i < j < |prefix|
      ensures !GrantAt(prefix, env, j)
    {
      assert prefix[j] == es[j];
      assert !GrantAt(es, env, j);
    }
  }

  /** The access token after a history is the one granted by the last
      successful auth response; without one it is the token held before. */
  lemma {:induction false} RunTokenFromLastGrant(s: State, es: seq<Event>, env: Environment)
    ensures (forall i | 0 <= i < |es| :: !GrantAt(es, env, i)) ==> Run(s, es, env).next.apiToken == s.apiToken
    ensures forall i | LastGrantAt(es, env, i) :: Run(s, es, env).next.apiToken == Grant(es[i].response, env.accessKeyOf)
    decreases |es|
  {
    if es != [] {
      var n := |es| - 1;
      var prefix := es[..n];
      RunTokenFromLastGrant(s, prefix, env);
      StepToken(Run(s, prefix, env).next, es[n], env);
      assert Run(s, es, env).next == Step(Run(s, prefix, env).next, es[n], env).next;
      if GrantAt(es, env, n) {
        forall i | LastGrantAt(es, env, i)
          ensures i == n
        {
          LastGrantIsFinal(es, env, i);
        }
      } else {
        forall i | LastGrantAt(es, env, i)
          ensures LastGrantAt(prefix, env, i)
        {
          LastGrantInPrefix(es, env, i);
        }
        if forall i | 0 <= i < |es| :: !GrantAt(es, env, i) {
          forall i | 0 <= i < |prefix|
            ensures !GrantAt(prefix, env, i)
          {
            assert prefix[i] == es[i];
            assert !GrantAt(es, env, i);
          }
        }
      }
    }
  }

  /** The auth payload is built at most once: once cached it never changes,
      it is built from the API key, and it exists exactly when it existed
      before or the Auth task has run with a key. */
  lemma {:induction false} RunBuildsPayloadOnce(s: State, es: seq<Event>, env: Environment)
    ensures s.authPayload.Some? ==> Run(s, es, env).next.authPayload == s.authPayload
    ensures PayloadFromKey(s, env.pluginVersion) ==> PayloadFromKey(Run(s, es, env).next, env.pluginVersion)
    ensures Run(s, es, env).next.authPayload.Some? <==>
      s.authPayload.Some? || (s.apiKey.Some? && exists i | 0 <= i < |es| :: es[i].AuthRuns?)
    decreases |es|
  {
    if es != [] {
      var n := |es| - 1;
      var prefix := es[..n];
      RunBuildsPayloadOnce(s, prefix, env);
      RunKeepsConfiguration(s, prefix, env);
      assert (exists i | 0 <= i < |es| :: es[i].AuthRuns?) <==>
        (exists i | 0 <= i < |prefix| :: prefix[i].AuthRuns?) || es[n].AuthRuns? by {
        if exists i | 0 <= i < |es| :: es[i].AuthRuns? {
          var i :| 0 <= i < |es| && es[i].AuthRuns?;
          if i < n {
            assert prefix[i] == es[i];
          }
        }
        if exists i | 0 <= i < |prefix| :: prefix[i].AuthRuns? {
          var i :| 0 <= i < |prefix| && prefix[i].AuthRuns?;
          assert prefix[i] == es[i];
        }
      }
    }
  }

  /** The only requests the periodic tasks send are the health probe and the
      access-key request, and every access-key request carries the payload
      built from the API key; without a key no access-key request is sent. */
  lemma {:induction false} RunSendsOnlyProbesAndKeyRequests(s: State, es: seq<Event>, env: Environment)
    requires PayloadFromKey(s, env.pluginVersion)
    ensures forall k | 0 <= k < |Run(s, es, env).requests| ::
      Run(s, es, env).requests[k] == Probe(s.apiURL) ||
      (s.apiKey.Some? && Run(s, es, env).requests[k] == KeyRequest(s.apiURL, AuthPayload(s.apiKey.value, env.pluginVersion)))
    decreases |es|
  {
    if es != [] {
      var n := |es| - 1;
      var prefix := es[..n];
      RunSendsOnlyProbesAndKeyRequests(s, prefix, env);
      RunKeepsConfiguration(s, prefix, env);
      RunBuildsPayloadOnce(s, prefix, env);
      var before := Run(s, prefix, env);
      var last := Step(before.next, es[n], env);
      assert Run(s, es, env).requests == before.requests + last.requests;
      forall k | 0 <= k < |last.requests|
        ensures last.requests[k] == Probe(s.apiURL) || (s.apiKey.Some? && last.requests[k] == KeyRequest(s.apiURL, AuthPayload(s.apiKey.value, env.pluginVersion)))
      {
        if es[n].AuthRuns? {
          assert before.next.apiKey.Some?;
        }
      }
    }
  }

  // ---------------------------------------------------------------------------
  // Properties of the whole life of the process

  /** Over the life of the process the Heartbeat task is started once, by
      `Init`, and the Auth task at most once, by the first healthy heartbeat
      response. Whether an API key was configured plays no part. */
  lemma ProcessStartsEachTimerOnce(configuredURL: string, configuredKey: string, es: seq<Event>, env: Environment)
    ensures Process(configuredURL, configuredKey, es, env).timers ==
      [HeartbeatTimer] + (if exists i :: HealthyReplyAt(es, i) then [AuthTimer] else [])
  {
    RunStartsAuthTimerOnce(Init(Startup, configuredURL, configuredKey).next, es, env);
  }

  /** After `Init` the API URL is the configured one for the rest of the
      process, and an API key is held exactly when a non-empty one was
      configured. */
  lemma ProcessKeepsConfiguration(configuredURL: string, configuredKey: string, es: seq<Event>, env: Environment)
    ensures Process(configuredURL, configuredKey, es, env).next.apiURL == configuredURL
    ensures Process(configuredURL, configuredKey, es, env).next.apiKey ==
      (if configuredKey == "" then None else Some(configuredKey))
  {
    RunKeepsConfiguration(Init(Startup, configuredURL, configuredKey).next, es, env);
  }

  /** Without a configured API key the process only ever sends health probes,
      so it never asks for an access token. */
  lemma ProcessWithoutKeyNeverAuthenticates(configuredURL: string, es: seq<Event>, env: Environment)
    ensures forall k | 0 <= k < |Process(configuredURL, "", es, env).requests| ::
      Process(configuredURL, "", es, env).requests[k] == Probe(configuredURL)
  {
    RunSendsOnlyProbesAndKeyRequests(Init(Startup, configuredURL, "").next, es, env);
  }

  /** With a configured API key, every access-key request of the process
      carries the payload built once from that key. */
  lemma ProcessReusesOnePayload(configuredURL: string, configuredKey: string, es: seq<Event>, env: Environment)
    requires configuredKey != ""
    ensures forall k | 0 <= k < |Process(configuredURL, configuredKey, es, env).requests| ::
      Process(configuredURL, configuredKey, es, env).requests[k].endpoint == ServersKey ==>
      Process(configuredURL, configuredKey, es, env).requests[k].body ==
        AuthBody(AuthPayload(configuredKey, env.pluginVersion))
  {
    RunSendsOnlyProbesAndKeyRequests(Init(Startup, configuredURL, configuredKey).next, es, env);
  }
}
