/**
 * The OpenCode manager (src/services/opencode.ts): `start` reuses a server
 * that already answers its health endpoint, or spawns `opencode serve` on
 * the loopback interface and polls its health until it answers.
 *
 * The health responses, the `which` lookup, the spawn and the streamed
 * output are oracle parameters; the password arrives already unwrapped.
 */
module OpenCode {
  import opened Wrappers
  import opened JsString
  import opened Qr
  import opened Process
  import opened Errors

  /** Health poll: one attempt plus at most 40 retries. */
  const HealthAttempts: nat := 41
  /** The rolling buffer kept of the server's output. */
  const OutputMax: nat := 8000
  const PasswordKey := "OPENCODE_SERVER_PASSWORD"
  const NotHealthyPrefix := "OpenCode server did not become healthy\n"

  /** One request to `/global/health`: a response with its `ok` flag, a fetch error, or the 2 s timeout. */
  datatype HealthResponse = Response(ok: bool) | FetchError | HealthTimedOut

  /** A health attempt succeeds only on an ok response in time. */
  function Healthy(health: nat -> HealthResponse): nat -> bool
  {
    (k: nat) => health(k) == Response(true)
  }

  /** The process effects of `start`, in order. */
  datatype Action =
    | LookUp(binary: string)
    | Spawn(bin: string, args: seq<string>, env: map<string, string>)
      /** `handle.kill()`, its failure ignored. */
    | Kill

  function ServeArgs(port: int): (args: seq<string>)
    ensures |args| == 5 && args[4] == IntToString(port)
  {
    ["serve", "--hostname", "127.0.0.1", "--port", IntToString(port)]
  }

  /**
   * The child's environment, built entry by entry: every variable of the
   * parent whose value is defined, then the password when it is not empty.
   */
  method BuildChildEnv(parent: map<string, Option<string>>, password: string) returns (env: map<string, string>)
    ensures forall k :: k in env <==> (k in parent && parent[k].Some?) || (k == PasswordKey && password != "")
    ensures forall k :: k in env && k != PasswordKey ==> env[k] == parent[k].value
    ensures password != "" ==> PasswordKey in env && env[PasswordKey] == password
    ensures password == "" && PasswordKey in env ==> env[PasswordKey] == parent[PasswordKey].value
  {
    env := map[];
    var remaining := parent.Keys;
    while remaining != {}
      decreases |remaining|
      invariant remaining <= parent.Keys
      invariant forall k :: k in env <==> k in parent && k !in remaining && parent[k].Some?
      invariant forall k :: k in env ==> env[k] == parent[k].value
    {
      var k :| k in remaining;
      if parent[k].Some? {
        env := env[k := parent[k].value];
      }
      remaining := remaining - {k};
    }
    if password != "" {
      env := env[PasswordKey := password];
    }
  }

  function AlreadyRunningLine(port: int): string
  {
    "OpenCode server already running on 127.0.0.1:" + IntToString(port) + "\n"
  }

  function StartingLine(port: int): string
  {
    "Starting OpenCode server on 127.0.0.1:" + IntToString(port) + "...\n"
  }

  /**
   * `start`: returns no handle when a server already answers, fails when the
   * binary is missing, otherwise spawns the server and waits for health; on
   * exhaustion kills it and fails with the output buffer.
   */
  method Start(port: int, password: string, parentEnv: map<string, Option<string>>,
               initial: HealthResponse, which: Option<string>, spawn: SpawnOutcome,
               out: nat -> seq<string>, health: nat -> HealthResponse)
    returns (result: Result<Option<Action>, Error>, log: seq<string>, actions: seq<Action>, buffer: string)
    // An answering server is reused: no lookup, no spawn.
    ensures initial == Response(true) ==>
              result == Ok(None) && actions == [] && log == [AlreadyRunningLine(port)]
    ensures initial != Response(true) ==> |actions| >= 1 && actions[0] == LookUp("opencode")
    ensures initial != Response(true) && which.None? ==>
              result == Err(BinaryNotFound("opencode")) && log == [] && actions == [LookUp("opencode")]
    // Otherwise the lookup is followed by exactly what `Launch` does with the binary found.
    ensures initial != Response(true) && which.Some? ==>
              |actions| >= 2 && actions[1].Spawn? && actions[1].bin == which.value
              && actions[1].args == ServeArgs(port)
              && LaunchOutcome(port, password, parentEnv, spawn, out, health, result, log, actions[1..], buffer)
    ensures |buffer| <= OutputMax
  {
    if initial == Response(true) {
      result, log, actions, buffer := Ok(None), [AlreadyRunningLine(port)], [], "";
    } else if which.None? {
      result, log, actions, buffer := Err(BinaryNotFound("opencode")), [], [LookUp("opencode")], "";
    } else {
      var launched;
      result, log, launched, buffer := Launch(port, password, parentEnv, which.value, spawn, out, health);
      actions := [LookUp("opencode")] + launched;
      assert actions[1..] == launched;
    }
  }

  /**
   * What spawning the server and waiting for it leaves behind, given the
   * effects after the lookup: the spawn with the child environment, the
   * starting notice followed by every echoed chunk, the last 8000
   * characters of output, and the handle on health or a kill and a failure
   * carrying the buffer on exhaustion.
   */
  ghost predicate LaunchOutcome(port: int, password: string, parentEnv: map<string, Option<string>>,
                                spawn: SpawnOutcome, out: nat -> seq<string>, health: nat -> HealthResponse,
                                result: Result<Option<Action>, Error>, log: seq<string>, actions: seq<Action>, buffer: string)
  {
    && |actions| >= 1 && actions[0].Spawn? && actions[0].args == ServeArgs(port)
    // The spawned child gets exactly the defined parent variables, with their values, plus a non-empty password.
    && (forall k :: k in actions[0].env <==> (k in parentEnv && parentEnv[k].Some?) || (k == PasswordKey && password != ""))
    && (password != "" ==> PasswordKey in actions[0].env && actions[0].env[PasswordKey] == password)
    && (forall k :: k in actions[0].env && k != PasswordKey ==> k in parentEnv && parentEnv[k].Some? && actions[0].env[k] == parentEnv[k].value)
    && (password == "" && PasswordKey in actions[0].env ==>
          PasswordKey in parentEnv && parentEnv[PasswordKey].Some? && actions[0].env[PasswordKey] == parentEnv[PasswordKey].value)
    && (spawn.SpawnRejected? ==>
          result == Err(PlatformError(spawn.message)) && |actions| == 1 && log == [StartingLine(port)])
    && (spawn.Spawned? ==>
          var polls := AttemptsMade(Healthy(health), HealthAttempts);
          log == [StartingLine(port)] + Forwarded(Streamed(out, polls))
          && buffer == Trim(Concat(Streamed(out, polls)), OutputMax)
          && (FirstSuccess(Healthy(health), HealthAttempts).Some? ==>
                result == Ok(Some(actions[0])) && |actions| == 1)
          && (FirstSuccess(Healthy(health), HealthAttempts).None? ==>
                result == Err(HealthCheckFailed(NotHealthyPrefix + buffer)) && |actions| == 2 && actions[1] == Kill))
  }

  /** Spawns `opencode serve` with the child environment and waits for its health. */
  method Launch(port: int, password: string, parentEnv: map<string, Option<string>>, bin: string,
                spawn: SpawnOutcome, out: nat -> seq<string>, health: nat -> HealthResponse)
    returns (result: Result<Option<Action>, Error>, log: seq<string>, actions: seq<Action>, buffer: string)
    ensures |actions| >= 1 && actions[0].Spawn? && actions[0].bin == bin
    ensures LaunchOutcome(port, password, parentEnv, spawn, out, health, result, log, actions, buffer)
    ensures |buffer| <= OutputMax
  {
    var env := BuildChildEnv(parentEnv, password);
    var handle := Spawn(bin, ServeArgs(port), env);
    if spawn.SpawnRejected? {
      result, log, actions, buffer := Err(PlatformError(spawn.message)), [StartingLine(port)], [handle], "";
    } else {
      var healthy, forwarded;
      healthy, buffer, forwarded := AwaitHealth(out, health);
      log := [StartingLine(port)] + forwarded;
      if healthy {
        result, actions := Ok(Some(handle)), [handle];
      } else {
        result, actions := Err(HealthCheckFailed(NotHealthyPrefix + buffer)), [handle, Kill];
      }
    }
  }

  /** The health poll after the spawn, with the server's output streamed meanwhile. */
  method AwaitHealth(out: nat -> seq<string>, health: nat -> HealthResponse)
    returns (healthy: bool, buffer: string, forwarded: seq<string>)
    ensures healthy <==> FirstSuccess(Healthy(health), HealthAttempts).Some?
    ensures buffer == Trim(Concat(Streamed(out, AttemptsMade(Healthy(health), HealthAttempts))), OutputMax)
    ensures |buffer| <= OutputMax
    ensures forwarded == Forwarded(Streamed(out, AttemptsMade(Healthy(health), HealthAttempts)))
  {
    var first := Retry(Healthy(health), HealthAttempts);
    var polls := if first.Some? then first.value + 1 else HealthAttempts;
    buffer, forwarded := PumpStream(out, polls, OutputMax);
    healthy := first.Some?;
  }
}
