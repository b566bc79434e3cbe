/**
 * The Tailscale manager (src/services/tailscale.ts): `ensure` connects the
 * machine to the tailnet, `publish` exposes the local server port through
 * `tailscale serve` and returns the remote URL.
 *
 * Every external effect is an oracle parameter: the `which` lookup, the exit
 * outcome of each short command, the collected text of `up --qr` and of
 * each `serve status --json`, the chunks a spawned child streams before each
 * poll, JSON decoding and QR encoding. Each method returns the lines it hands
 * to the append callback, in order.
 */
module Tailscale {
  import opened Wrappers
  import opened JsString
  import opened Qr
  import opened Process
  import opened ServeStatus
  import opened Errors

  /** Connection poll: one attempt plus at most 80 retries. */
  const ConnectionAttempts: nat := 81
  /** Proxy poll: one attempt plus at most 28 retries. */
  const PublishAttempts: nat := 29
  /** The rolling buffer kept of `tailscale serve` output. */
  const ServeOutputMax: nat := 8000
  /** How much of the login output is echoed when it carries no URL. */
  const LoginEchoMax: nat := 4000

  /** Collecting the whole output of a short command. */
  datatype TextOutcome = Collected(text: string) | TextTimedOut | TextRejected(message: string)

  /** A timed-out or failed collection reads as the empty text. */
  function TextOrEmpty(o: TextOutcome): (r: string)
    ensures o.Collected? ==> r == o.text
    ensures !o.Collected? ==> r == ""
  {
    if o.Collected? then o.text else ""
  }

  // ---------------------------------------------------------------------------
  // ensure
  // ---------------------------------------------------------------------------

  const CheckingLine := "Checking Tailscale connection...\n"
  const NotConnectedLine := "Tailscale is not connected. Starting login flow...\n"
  const FollowPromptsLine := "Follow the Tailscale login prompts in your terminal.\n"
  const ConnectTimeoutMessage := "Timed out waiting for Tailscale to connect"

  /** A connection attempt succeeds only when `tailscale ip` exits 0 in time. */
  function Connected(polls: nat -> RunOutcome): nat -> bool
  {
    (k: nat) => polls(k) == Exited(0)
  }

  /** The exit code of the first probe: a timeout counts as exit code 1. */
  function ProbeCode(probe: RunOutcome): (code: Option<int>)
    requires !probe.RunRejected?
    ensures probe.TimedOut? ==> code == Some(1)
    ensures probe.Exited? ==> code == Some(probe.code)
  {
    if probe.TimedOut? then Some(1) else Some(probe.code)
  }

  /**
   * The lines echoed after a login run: the URL and its QR code when the
   * output names one, else the capped output itself when it is not empty,
   * else nothing.
   */
  function LoginLines(login: string, qrFor: string -> QrCode): (lines: seq<string>)
  {
    match ParseURL(login)
    case Some(url) => ["Open this URL (or scan QR): " + url + "\n", Join(QrRows(qrFor(url)), '\n') + "\n"]
    case None => if login == "" then [] else [FollowPromptsLine, Trim(login, LoginEchoMax) + "\n"]
  }

  /** What the login echo shows: never more than two lines, a bounded echo of text without a URL. */
  lemma LoginLinesShape(login: string, qrFor: string -> QrCode)
    ensures |LoginLines(login, qrFor)| <= 2
    ensures login == "" ==> LoginLines(login, qrFor) == []
    ensures ParseURL(login).None? && login != "" ==>
              |LoginLines(login, qrFor)| == 2 && |LoginLines(login, qrFor)[1]| <= LoginEchoMax + 1
    ensures ParseURL(login).Some? ==>
              |LoginLines(login, qrFor)| == 2
              && Split(LoginLines(login, qrFor)[1][..|LoginLines(login, qrFor)[1]| - 1], '\n') == QrRows(qrFor(ParseURL(login).value))
  {
    if login == "" {
      assert StripTerminalControl(login) == login;
    }
    match ParseURL(login)
    case Some(url) =>
      var text := Join(QrRows(qrFor(url)), '\n');
      assert (text + "\n")[..|text + "\n"| - 1] == text;
      RowsSplitBack(qrFor(url));
    case None =>
  }

  /** The lines echoed after the login run, with the QR code rendered row by row. */
  method EchoLogin(loginText: string, qrFor: string -> QrCode) returns (lines: seq<string>)
    ensures lines == LoginLines(loginText, qrFor)
  {
    lines := [];
    var loginUrl := ParseURL(loginText);
    if loginUrl.Some? {
      lines := lines + ["Open this URL (or scan QR): " + loginUrl.value + "\n"];
      var qr := RenderQR(qrFor(loginUrl.value));
      lines := lines + [qr + "\n"];
    } else if loginText != "" {
      lines := lines + [FollowPromptsLine];
      lines := lines + [Trim(loginText, LoginEchoMax) + "\n"];
    }
  }

  /** The connection poll: attempts until one succeeds or the budget is spent. */
  method AwaitConnection(polls: nat -> RunOutcome) returns (connected: bool, attempts: nat)
    ensures connected <==> FirstSuccess(Connected(polls), ConnectionAttempts).Some?
    ensures attempts == AttemptsMade(Connected(polls), ConnectionAttempts)
    ensures 1 <= attempts <= ConnectionAttempts
  {
    var first := Retry(Connected(polls), ConnectionAttempts);
    connected := first.Some?;
    attempts := if first.Some? then first.value + 1 else ConnectionAttempts;
  }

  /**
   * `ensure`: locate the binary, probe once, run the login flow when the
   * probe fails, then poll until connected. Returns the binary path.
   */
  method Ensure(which: Option<string>, probe: RunOutcome, login: TextOutcome, qrFor: string -> QrCode,
                polls: nat -> RunOutcome)
    returns (result: Result<string, Error>, log: seq<string>, attempts: nat)
    ensures which.None? ==> result == Err(BinaryNotFound("tailscale")) && log == [] && attempts == 0
    ensures which.Some? ==> |log| >= 1 && log[0] == CheckingLine
    ensures which.Some? && probe.RunRejected? ==>
              result == Err(PlatformError(probe.message)) && log == [CheckingLine] && attempts == 0
    ensures which.Some? && probe == Exited(0) ==>
              result == Ok(which.value) && log == [CheckingLine] && attempts == 0
    ensures which.Some? && (probe.TimedOut? || (probe.Exited? && probe.code != 0)) ==>
              log == [CheckingLine, NotConnectedLine] + LoginLines(TextOrEmpty(login), qrFor)
              && attempts == AttemptsMade(Connected(polls), ConnectionAttempts)
              && (FirstSuccess(Connected(polls), ConnectionAttempts).Some? ==> result == Ok(which.value))
              && (FirstSuccess(Connected(polls), ConnectionAttempts).None? ==>
                    result == Err(CommandFailed("tailscale ip", ConnectTimeoutMessage)))
    ensures attempts <= ConnectionAttempts
    ensures result.Ok? ==> which == Some(result.value)
  {
    if which.None? {
      result, log, attempts := Err(BinaryNotFound("tailscale")), [], 0;
    } else if probe.RunRejected? {
      result, log, attempts := Err(PlatformError(probe.message)), [CheckingLine], 0;
    } else if ProbeCode(probe).value == 0 {
      result, log, attempts := Ok(which.value), [CheckingLine], 0;
    } else {
      var rest;
      result, rest, attempts := LoginAndConnect(which.value, login, qrFor, polls);
      log := [CheckingLine, NotConnectedLine] + rest;
    }
  }

  /**
   * The part of `ensure` after a failed probe and its not-connected notice:
   * the login flow, then the connection poll.
   */
  method LoginAndConnect(bin: string, login: TextOutcome, qrFor: string -> QrCode, polls: nat -> RunOutcome)
    returns (result: Result<string, Error>, log: seq<string>, attempts: nat)
    ensures log == LoginLines(TextOrEmpty(login), qrFor)
    ensures attempts == AttemptsMade(Connected(polls), ConnectionAttempts)
    ensures FirstSuccess(Connected(polls), ConnectionAttempts).Some? ==> result == Ok(bin)
    ensures FirstSuccess(Connected(polls), ConnectionAttempts).None? ==>
              result == Err(CommandFailed("tailscale ip", ConnectTimeoutMessage))
  {
    log := EchoLogin(TextOrEmpty(login), qrFor);
    var connected;
    connected, attempts := AwaitConnection(polls);
    if !connected {
      return Err(CommandFailed("tailscale ip", ConnectTimeoutMessage)), log, attempts;
    }
    result := Ok(bin);
  }

  // ---------------------------------------------------------------------------
  // publish
  // ---------------------------------------------------------------------------

  const ReuseLine := "Reusing existing tailscale serve listener.\n"
  const PublishingLine := "Publishing with tailscale serve...\n"
  const ProxyTimeoutMessage := "Timed out waiting for tailscale serve to register proxy"

  /** The local address the serve listener proxies to. */
  function Target(port: int): (t: string)
  {
    "http://127.0.0.1:" + IntToString(port)
  }

  function ServeArgs(port: int): seq<string>
  {
    ["serve", "--bg", "--yes", "--https", IntToString(port), Target(port)]
  }

  function OffArgs(port: int): seq<string>
  {
    ["serve", "--https", IntToString(port), "off"]
  }

  /** The process effects `publish` performs, in order. */
  datatype Effect =
    | SpawnServe(args: seq<string>)
      /** The scope finalizer that runs the `off` command when the app exits. */
    | RegisterCleanup(args: seq<string>)
      /** An `off` command run now, its failure ignored. */
    | RunOff(args: seq<string>)

  function ConflictLine(conflict: nat): string
  {
    "Port " + NatToString(conflict) + " is already in use. Turning off existing HTTPS listener on that port and retrying once...\n"
  }

  function ClaimFailedMessage(conflict: nat, port: int): string
  {
    "Listener already exists for port " + NatToString(conflict) + " and could not be claimed automatically. "
      + "Please run 'tailscale serve --https " + IntToString(port) + " off' manually and retry."
  }

  /**
   * A proxy poll succeeds when the status read at that attempt yields any
   * remote URL: since `pickRemoteUrl` falls back to the first mapping, any
   * listed mapping will do, whether or not it proxies to `target`.
   */
  function AnyUrlListed(status: nat -> TextOutcome, target: string, decode: string -> Option<Status>): nat -> bool
  {
    (k: nat) => PickRemoteUrl(TextOrEmpty(status(k)), target, decode).Some?
  }

  /** The oracles of one serve attempt: the spawn, the streamed chunks, the status read at each poll. */
  datatype ServeAttempt = ServeAttempt(
    spawn: SpawnOutcome,
    out: nat -> seq<string>,
    status: nat -> TextOutcome)

  /** The existing status already proxies to this port's target. */
  predicate Reusable(existing: TextOutcome, port: int, decode: string -> Option<Status>)
  {
    FindProxy(ServeMappings(TextOrEmpty(existing), decode), Target(port)).Some?
  }

  /** How many status polls one wait makes. */
  function WaitPolls(attempt: ServeAttempt, target: string, decode: string -> Option<Status>): (n: nat)
    ensures 1 <= n <= PublishAttempts
  {
    AttemptsMade(AnyUrlListed(attempt.status, target, decode), PublishAttempts)
  }

  /** The URL a wait returns: the one read at its first successful poll, if any. */
  function WaitResult(attempt: ServeAttempt, target: string, decode: string -> Option<Status>): (r: Option<string>)
    ensures r.Some? ==> IsHttpsUrl(r.value)
  {
    match FirstSuccess(AnyUrlListed(attempt.status, target, decode), PublishAttempts)
    case Some(k) => PickRemoteUrl(TextOrEmpty(attempt.status(k)), target, decode)
    case None => None
  }

  /** A wait comes back empty exactly when no status read within the budget yields a URL. */
  lemma WaitResultNone(attempt: ServeAttempt, target: string, decode: string -> Option<Status>)
    ensures WaitResult(attempt, target, decode).None? <==>
              forall j: nat :: j < PublishAttempts ==> !AnyUrlListed(attempt.status, target, decode)(j)
  {
  }

  /** A poll succeeds exactly when its status lists some mapping, wherever it proxies. */
  lemma AnyUrlListedIff(status: nat -> TextOutcome, target: string, decode: string -> Option<Status>, k: nat)
    ensures AnyUrlListed(status, target, decode)(k) <==> ServeMappings(TextOrEmpty(status(k)), decode) != []
  {
    PickRemoteUrlChoice(TextOrEmpty(status(k)), target, decode);
  }

  /**
   * A first status that lists only mappings proxying elsewhere ends the wait
   * at once, with the URL of the first of them.
   */
  lemma WaitTakesForeignUrl(attempt: ServeAttempt, target: string, decode: string -> Option<Status>)
    requires ServeMappings(TextOrEmpty(attempt.status(0)), decode) != []
    requires FindProxy(ServeMappings(TextOrEmpty(attempt.status(0)), decode), target).None?
    ensures WaitResult(attempt, target, decode) == Some(ServeMappings(TextOrEmpty(attempt.status(0)), decode)[0].url)
    ensures WaitPolls(attempt, target, decode) == 1
  {
    AnyUrlListedIff(attempt.status, target, decode, 0);
    FirstSuccessIs(AnyUrlListed(attempt.status, target, decode), PublishAttempts, 0);
    PickRemoteUrlChoice(TextOrEmpty(attempt.status(0)), target, decode);
  }

  /** The output buffer a wait leaves: the last 8000 characters streamed while it polled. */
  function WaitBuffer(attempt: ServeAttempt, target: string, decode: string -> Option<Status>): (b: string)
    ensures |b| <= ServeOutputMax
  {
    Trim(Concat(Streamed(attempt.out, WaitPolls(attempt, target, decode))), ServeOutputMax)
  }

  /** The chunks a wait forwards to the append callback. */
  function WaitEcho(attempt: ServeAttempt, target: string, decode: string -> Option<Status>): seq<string>
  {
    Forwarded(Streamed(attempt.out, WaitPolls(attempt, target, decode)))
  }

  /** The chunks a wait forwards are the non-empty ones, and together they spell everything streamed. */
  lemma WaitEchoForwardsAll(attempt: ServeAttempt, target: string, decode: string -> Option<Status>)
    ensures var e := WaitEcho(attempt, target, decode);
            (forall i :: 0 <= i < |e| ==> e[i] != "")
            && Concat(e) == Concat(Streamed(attempt.out, WaitPolls(attempt, target, decode)))
  {
    ForwardedChunks(Streamed(attempt.out, WaitPolls(attempt, target, decode)));
  }

  /**
   * One wait for the proxy. Before the verdict of poll `k` the child's chunks
   * `out(k)` arrive: each non-empty one is forwarded and added to the rolling
   * output buffer, which starts empty.
   */
  method AwaitProxy(attempt: ServeAttempt, target: string, decode: string -> Option<Status>)
    returns (found: Option<string>, buffer: string, forwarded: seq<string>)
    ensures found == WaitResult(attempt, target, decode)
    ensures buffer == WaitBuffer(attempt, target, decode)
    ensures forwarded == WaitEcho(attempt, target, decode)
  {
    var first := Retry(AnyUrlListed(attempt.status, target, decode), PublishAttempts);
    var polls := if first.Some? then first.value + 1 else PublishAttempts;
    buffer, forwarded := PumpStream(attempt.out, polls, ServeOutputMax);
    found := if first.Some? then PickRemoteUrl(TextOrEmpty(attempt.status(first.value)), target, decode) else None;
  }

  /** The process effects of a publish that spawned once and whose spawn was rejected. */
  function SpawnOnly(port: int): seq<Effect>
  {
    [SpawnServe(ServeArgs(port))]
  }

  /** The process effects of a publish that spawned once: the spawn, then its cleanup. */
  function SpawnWithCleanup(port: int): seq<Effect>
  {
    [SpawnServe(ServeArgs(port)), RegisterCleanup(OffArgs(port))]
  }

  /** The process effects of a publish that retried: this port's listener off, then a second spawn. */
  function SpawnWithRetry(port: int): seq<Effect>
  {
    SpawnWithCleanup(port) + [RunOff(OffArgs(port)), SpawnServe(ServeArgs(port))]
  }

  /** The three effect sequences have different lengths, so they are told apart by length. */
  lemma EffectsLengths(port: int)
    ensures |SpawnOnly(port)| == 1 && |SpawnWithCleanup(port)| == 2 && |SpawnWithRetry(port)| == 4
  {
  }

  /** The retry after a conflict: spawn again with an empty buffer and wait once more. */
  method RetryServe(port: int, second: ServeAttempt, decode: string -> Option<Status>)
    returns (result: Result<string, Error>, log: seq<string>, serveOutput: string)
    ensures second.spawn.SpawnRejected? ==>
              result == Err(PlatformError(second.spawn.message)) && log == [] && serveOutput == ""
    ensures second.spawn.Spawned? ==>
              log == WaitEcho(second, Target(port), decode) && serveOutput == WaitBuffer(second, Target(port), decode)
    ensures second.spawn.Spawned? ==> result == ServeVerdict(second, port, decode, true)
    ensures |serveOutput| <= ServeOutputMax
    ensures result.Ok? ==> IsHttpsUrl(result.value)
  {
    log := [];
    serveOutput := "";
    if second.spawn.SpawnRejected? {
      return Err(PlatformError(second.spawn.message)), log, serveOutput;
    }
    var found, buffer, forwarded := AwaitProxy(second, Target(port), decode);
    log := forwarded;
    serveOutput := buffer;
    if found.Some? {
      return Ok(found.value), log, serveOutput;
    }
    var retryConflictPort := ParseConflictPort(serveOutput);
    if retryConflictPort.Some? {
      return Err(CommandFailed("tailscale serve", ClaimFailedMessage(retryConflictPort.value, port))), log, serveOutput;
    }
    result := Err(CommandFailed("tailscale serve", ProxyTimeoutMessage));
  }

  /**
   * The verdict of one wait: the URL found, else on the retry a claim-failed
   * message when the output still names a conflict, else the timeout.
   */
  function ServeVerdict(attempt: ServeAttempt, port: int, decode: string -> Option<Status>, retry: bool): Result<string, Error>
  {
    match WaitResult(attempt, Target(port), decode)
    case Some(url) => Ok(url)
    case None =>
      var conflict := ParseConflictPort(WaitBuffer(attempt, Target(port), decode));
      if retry && conflict.Some? then Err(CommandFailed("tailscale serve", ClaimFailedMessage(conflict.value, port)))
      else Err(CommandFailed("tailscale serve", ProxyTimeoutMessage))
  }

  /** The first attempt's wait failed and its output names a conflicting port. */
  predicate Conflicted(first: ServeAttempt, port: int, decode: string -> Option<Status>)
  {
    WaitResult(first, Target(port), decode).None?
    && ParseConflictPort(WaitBuffer(first, Target(port), decode)).Some?
  }

  /**
   * What `publish` does once no existing listener can be reused: a rejected
   * first spawn fails with nothing registered; a first wait that finds a URL,
   * or fails without naming a conflict, settles the result after the cleanup
   * is registered; a conflict turns this port's listener off and spawns once
   * more, whose rejection or wait settles the result.
   */
  ghost predicate FreshOutcome(port: int, first: ServeAttempt, second: ServeAttempt, decode: string -> Option<Status>,
                               result: Result<string, Error>, log: seq<string>, effects: seq<Effect>, serveOutput: string)
  {
    && (first.spawn.SpawnRejected? ==>
          result == Err(PlatformError(first.spawn.message)) && effects == SpawnOnly(port)
          && log == [PublishingLine] && serveOutput == "")
    && (first.spawn.Spawned? && !Conflicted(first, port, decode) ==>
          result == ServeVerdict(first, port, decode, false) && effects == SpawnWithCleanup(port)
          && log == [PublishingLine] + WaitEcho(first, Target(port), decode)
          && serveOutput == WaitBuffer(first, Target(port), decode))
    && (first.spawn.Spawned? && Conflicted(first, port, decode) ==>
          effects == SpawnWithRetry(port)
          && var conflict := ParseConflictPort(WaitBuffer(first, Target(port), decode)).value;
             (second.spawn.SpawnRejected? ==>
                result == Err(PlatformError(second.spawn.message)) && serveOutput == ""
                && log == [PublishingLine] + WaitEcho(first, Target(port), decode) + [ConflictLine(conflict)])
             && (second.spawn.Spawned? ==>
                result == ServeVerdict(second, port, decode, true)
                && serveOutput == WaitBuffer(second, Target(port), decode)
                && log == [PublishingLine] + WaitEcho(first, Target(port), decode) + [ConflictLine(conflict)]
                          + WaitEcho(second, Target(port), decode)))
  }

  /** `publish` once no existing listener can be reused. */
  method PublishFresh(port: int, first: ServeAttempt, second: ServeAttempt, decode: string -> Option<Status>)
    returns (result: Result<string, Error>, log: seq<string>, effects: seq<Effect>, serveOutput: string)
    ensures FreshOutcome(port, first, second, decode, result, log, effects, serveOutput)
    ensures |log| >= 1 && log[0] == PublishingLine
    ensures effects in [SpawnOnly(port), SpawnWithCleanup(port), SpawnWithRetry(port)]
    ensures effects == SpawnWithRetry(port) <==> first.spawn.Spawned? && Conflicted(first, port, decode)
    ensures |serveOutput| <= ServeOutputMax
    ensures result.Ok? ==> IsHttpsUrl(result.value)
  {
    EffectsLengths(port);
    if first.spawn.SpawnRejected? {
      result, log, effects, serveOutput := Err(PlatformError(first.spawn.message)), [PublishingLine], SpawnOnly(port), "";
    } else {
      var firstFound, firstBuffer, firstForwarded := AwaitProxy(first, Target(port), decode);
      var conflictPort := ParseConflictPort(firstBuffer);
      if firstFound.Some? || conflictPort.None? {
        result := if firstFound.Some? then Ok(firstFound.value) else Err(CommandFailed("tailscale serve", ProxyTimeoutMessage));
        log, effects, serveOutput := [PublishingLine] + firstForwarded, SpawnWithCleanup(port), firstBuffer;
      } else {
        var retryLog;
        result, retryLog, serveOutput := RetryServe(port, second, decode);
        log := [PublishingLine] + firstForwarded + [ConflictLine(conflictPort.value)] + retryLog;
        effects := SpawnWithRetry(port);
      }
    }
  }

  /**
   * `publish`: reuse a listener that already proxies to the port; otherwise
   * spawn `serve`, register its `off` cleanup, and wait for the proxy. If the
   * wait fails and the output names a conflicting port, turn this port's
   * listener off and try exactly once more.
   */
  method Publish(port: int, existing: TextOutcome, first: ServeAttempt, second: ServeAttempt,
                 decode: string -> Option<Status>)
    returns (result: Result<string, Error>, log: seq<string>, effects: seq<Effect>, serveOutput: string)
    ensures Reusable(existing, port, decode) ==>
              var ms := ServeMappings(TextOrEmpty(existing), decode);
              result == Ok(ms[FindProxy(ms, Target(port)).value].url) && log == [ReuseLine] && effects == []
              && serveOutput == ""
    ensures !Reusable(existing, port, decode) ==>
              FreshOutcome(port, first, second, decode, result, log, effects, serveOutput)
    ensures !Reusable(existing, port, decode) ==> |log| >= 1 && log[0] == PublishingLine
    ensures effects in [[], SpawnOnly(port), SpawnWithCleanup(port), SpawnWithRetry(port)]
    ensures effects == SpawnWithRetry(port) <==>
              !Reusable(existing, port, decode) && first.spawn.Spawned? && Conflicted(first, port, decode)
    ensures |serveOutput| <= ServeOutputMax
    ensures result.Ok? ==> IsHttpsUrl(result.value)
  {
    var target := Target(port);
    var existingStatus := TextOrEmpty(existing);
    var existingMappings := ParseServeMappings(existingStatus, decode);
    if FindProxy(existingMappings, target).Some? {
      var existingUrl := PickRemoteUrl(existingStatus, target, decode);
      PickRemoteUrlChoice(existingStatus, target, decode);
      if existingUrl.Some? {
        return Ok(existingUrl.value), [ReuseLine], [], "";
      }
    }
    result, log, effects, serveOutput := PublishFresh(port, first, second, decode);
  }
}
