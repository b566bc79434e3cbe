/**
 * The setup flow (src/flow.ts): it runs the three managers in order, maps
 * their outcome onto the UI atoms, keeps the capped log, and coordinates
 * shutdown through an idempotent exit signal and a set of waiters that are
 * resolved when the flow stops.
 *
 * A manager run is given as a `Stage`: the lines it hands to `append`, in
 * order, and its outcome.
 */
module Flow {
  import opened Wrappers
  import opened JsString
  import opened Qr
  import opened Errors
  import opened State

  /** The log keeps its last 16000 characters. */
  const LogMax: nat := 16000

  /** The log after one `append`: unchanged when the cleaned line is empty. */
  function AppendedLog(prev: string, line: string): string
  {
    var clean := StripTerminalControl(line);
    if clean == "" then prev else Trim(prev + clean, LogMax)
  }

  /** The log after appending `lines` one by one. */
  function AppendedLogAll(prev: string, lines: seq<string>): string
  {
    if |lines| == 0 then prev else AppendedLog(AppendedLogAll(prev, lines[..|lines| - 1]), lines[|lines| - 1])
  }

  /**
   * One append keeps the log within 16000 characters and free of carriage
   * returns, and the new log ends the old one followed by the cleaned line.
   */
  lemma AppendedLogKeepsBounds(prev: string, line: string)
    ensures |prev| <= LogMax ==> |AppendedLog(prev, line)| <= LogMax
    ensures '\r' !in prev ==> '\r' !in AppendedLog(prev, line)
    ensures StripTerminalControl(line) == "" ==> AppendedLog(prev, line) == prev
    ensures StripTerminalControl(line) != "" ==>
              var r := AppendedLog(prev, line);
              var whole := prev + StripTerminalControl(line);
              |r| == (if |whole| <= LogMax then |whole| else LogMax) && r == whole[|whole| - |r|..]
  {
    var clean := StripTerminalControl(line);
    if clean != "" {
      var whole := prev + clean;
      var r := Trim(whole, LogMax);
      if '\r' in prev {
      } else {
        forall k | 0 <= k < |r| ensures r[k] != '\r' {
          assert r[k] == whole[|whole| - |r| + k];
          if |whole| - |r| + k < |prev| {
            assert whole[|whole| - |r| + k] == prev[|whole| - |r| + k];
          } else {
            assert whole[|whole| - |r| + k] == clean[|whole| - |r| + k - |prev|];
          }
        }
      }
    }
  }

  /** Any run of appends keeps the log within 16000 characters and free of carriage returns. */
  lemma {:induction false} AppendedLogAllKeepsBounds(prev: string, lines: seq<string>)
    requires |prev| <= LogMax && '\r' !in prev
    ensures |AppendedLogAll(prev, lines)| <= LogMax && '\r' !in AppendedLogAll(prev, lines)
    decreases |lines|
  {
    if |lines| > 0 {
      AppendedLogAllKeepsBounds(prev, lines[..|lines| - 1]);
      AppendedLogKeepsBounds(AppendedLogAll(prev, lines[..|lines| - 1]), lines[|lines| - 1]);
    }
  }

  /** Appending two runs of lines one after the other is appending their concatenation. */
  lemma {:induction false} AppendedLogAllConcat(prev: string, first: seq<string>, second: seq<string>)
    ensures AppendedLogAll(AppendedLogAll(prev, first), second) == AppendedLogAll(prev, first + second)
    decreases |second|
  {
    if |second| > 0 {
      var n := |second| - 1;
      AppendedLogAllConcat(prev, first, second[..n]);
      assert (first + second)[..|first + second| - 1] == first + second[..n];
    } else {
      assert first + second == first;
    }
  }

  /** The `missingBinary` atom a missing binary leads to. */
  function MissingFor(binary: string): (m: MissingBinary)
    ensures m == MissingTailscale <==> binary == "tailscale"
    ensures m == MissingOpenCode <==> binary == "opencode"
  {
    if binary == "tailscale" then MissingTailscale
    else if binary == "opencode" then MissingOpenCode
    else NoBinary
  }

  /** The result of a manager run, as the flow sees it. */
  datatype StageOutcome = Succeeded(value: string) | Failed(error: Error)

  datatype Stage = Stage(lines: seq<string>, outcome: StageOutcome)

  /** The steps that run: each manager only after the previous one succeeded. */
  function StepsRun(tailscale: Stage, openCode: Stage, publish: Stage): (steps: seq<Step>)
    ensures 1 <= |steps| <= 3 && steps[0] == Tailscale
    ensures |steps| >= 2 <==> tailscale.outcome.Succeeded?
    ensures |steps| == 3 <==> tailscale.outcome.Succeeded? && openCode.outcome.Succeeded?
    ensures steps == [Tailscale, OpenCode, Publish][..|steps|]
  {
    if tailscale.outcome.Failed? then [Tailscale]
    else if openCode.outcome.Failed? then [Tailscale, OpenCode]
    else [Tailscale, OpenCode, Publish]
  }

  /** The failure that ends the flow, if any: the first failing stage's. */
  function FirstFailure(tailscale: Stage, openCode: Stage, publish: Stage): (e: Option<Error>)
    ensures e.None? <==> tailscale.outcome.Succeeded? && openCode.outcome.Succeeded? && publish.outcome.Succeeded?
    ensures e.Some? ==> e.value == [tailscale, openCode, publish][|StepsRun(tailscale, openCode, publish)| - 1].outcome.error
  {
    if tailscale.outcome.Failed? then Some(tailscale.outcome.error)
    else if openCode.outcome.Failed? then Some(openCode.outcome.error)
    else if publish.outcome.Failed? then Some(publish.outcome.error)
    else None
  }

  /** The lines appended by the stages that ran, in order. */
  function LinesRun(tailscale: Stage, openCode: Stage, publish: Stage): seq<string>
  {
    var n := |StepsRun(tailscale, openCode, publish)|;
    if n == 1 then tailscale.lines
    else if n == 2 then tailscale.lines + openCode.lines
    else tailscale.lines + openCode.lines + publish.lines
  }

  /** The module-level flow state beside the atom registry. */
  class FlowControl {
    const registry: Registry
    var exitSignaled: bool
    /** How often the exit signal has been completed. */
    var exitCompletions: nat
    var flowRunning: bool
    /** A successful flow blocked on the exit signal. */
    var holding: bool
    /** The registered shutdown waiters, in insertion order. */
    var waiters: seq<nat>
    /** Every waiter resolution performed so far, in order. */
    var resolved: seq<nat>
    var nextWaiter: nat

    predicate Valid()
      reads this
    {
      exitCompletions == (if exitSignaled then 1 else 0)
      && (!flowRunning ==> waiters == [] && !holding)
      && (forall i :: 0 <= i < |waiters| ==> waiters[i] < nextWaiter)
      && (forall j :: 0 <= j < |resolved| ==> resolved[j] < nextWaiter)
      && (forall i, j :: 0 <= i < j < |waiters| ==> waiters[i] != waiters[j])
      && (forall i, j :: 0 <= i < j < |resolved| ==> resolved[i] != resolved[j])
      && (forall i, j :: 0 <= i < |waiters| && 0 <= j < |resolved| ==> waiters[i] != resolved[j])
    }

    constructor (registry: Registry)
      ensures Valid()
      ensures this.registry == registry
      ensures !exitSignaled && !flowRunning && !holding && waiters == [] && resolved == []
    {
      this.registry := registry;
      exitSignaled := false;
      exitCompletions := 0;
      flowRunning := false;
      holding := false;
      waiters := [];
      resolved := [];
      nextWaiter := 0;
    }

    /** `append`: the log gains the cleaned line, capped; no other atom changes. */
    method Append(line: string)
      modifies registry
      ensures registry.log == AppendedLog(old(registry.log), line)
      ensures registry.phase == old(registry.phase) && registry.step == old(registry.step)
      ensures registry.url == old(registry.url) && registry.error == old(registry.error)
      ensures registry.missingBinary == old(registry.missingBinary)
    {
      var clean := StripTerminalControl(line);
      if clean == "" {
        return;
      }
      registry.log := Trim(registry.log + clean, LogMax);
    }

    /** The append callback invoked once per line a manager emits. */
    method AppendAll(lines: seq<string>)
      modifies registry
      ensures registry.log == AppendedLogAll(old(registry.log), lines)
      ensures registry.phase == old(registry.phase) && registry.step == old(registry.step)
      ensures registry.url == old(registry.url) && registry.error == old(registry.error)
      ensures registry.missingBinary == old(registry.missingBinary)
    {
      var i := 0;
      while i < |lines|
        invariant i <= |lines|
        invariant registry.log == AppendedLogAll(old(registry.log), lines[..i])
        invariant registry.phase == old(registry.phase) && registry.step == old(registry.step)
        invariant registry.url == old(registry.url) && registry.error == old(registry.error)
        invariant registry.missingBinary == old(registry.missingBinary)
      {
        assert lines[..i + 1][..i] == lines[..i];
        Append(lines[i]);
        i := i + 1;
      }
      assert lines[..i] == lines;
    }

    /** `signalExit`: completes the exit signal the first time; later calls change nothing. */
    method SignalExit()
      requires Valid()
      modifies this
      ensures Valid()
      ensures exitSignaled && exitCompletions == 1
      ensures old(exitSignaled) ==> unchanged(this)
      ensures flowRunning == old(flowRunning) && holding == old(holding)
      ensures waiters == old(waiters) && resolved == old(resolved)
    {
      if exitSignaled {
        return;
      }
      exitSignaled := true;
      exitCompletions := exitCompletions + 1;
    }

    /** `waitForFlowStop`: resolved at once when no flow runs, else a new waiter joins the set. */
    method WaitForFlowStop() returns (immediate: bool, waiter: nat)
      requires Valid()
      modifies this
      ensures Valid()
      ensures immediate <==> !old(flowRunning)
      ensures immediate ==> unchanged(this)
      ensures !immediate ==> waiters == old(waiters) + [waiter] && waiter !in old(waiters)
      ensures resolved == old(resolved) && flowRunning == old(flowRunning) && holding == old(holding)
      ensures exitSignaled == old(exitSignaled) && exitCompletions == old(exitCompletions)
    {
      if !flowRunning {
        return true, 0;
      }
      waiter := nextWaiter;
      immediate := false;
      waiters := waiters + [waiter];
      nextWaiter := nextWaiter + 1;
    }

    /** `resolveShutdownWaiters`: each registered waiter is resolved once, in order, and the set is emptied. */
    method ResolveShutdownWaiters()
      modifies this
      ensures resolved == old(resolved) + old(waiters)
      ensures waiters == []
      ensures flowRunning == old(flowRunning) && holding == old(holding)
      ensures exitSignaled == old(exitSignaled) && exitCompletions == old(exitCompletions)
      ensures nextWaiter == old(nextWaiter)
    {
      var i := 0;
      while i < |waiters|
        invariant i <= |waiters|
        invariant waiters == old(waiters)
        invariant resolved == old(resolved) + waiters[..i]
        invariant flowRunning == old(flowRunning) && holding == old(holding)
        invariant exitSignaled == old(exitSignaled) && exitCompletions == old(exitCompletions)
        invariant nextWaiter == old(nextWaiter)
      {
        assert waiters[..i + 1] == waiters[..i] + [waiters[i]];
        resolved := resolved + [waiters[i]];
        i := i + 1;
      }
      assert waiters[..i] == waiters;
      waiters := [];
    }

    /** The `ensuring` finalizer: the flow stops and its waiters are released. */
    method Finish()
      requires Valid()
      modifies this
      ensures Valid()
      ensures !flowRunning && !holding && waiters == []
      ensures resolved == old(resolved) + old(waiters)
      ensures exitSignaled == old(exitSignaled) && exitCompletions == old(exitCompletions)
    {
      ghost var before := resolved;
      flowRunning := false;
      holding := false;
      ResolveShutdownWaiters();
      forall i, j | 0 <= i < j < |resolved| ensures resolved[i] != resolved[j] {
        if j >= |before| && i < |before| {
          assert resolved[j] == old(waiters)[j - |before|];
        } else if i >= |before| {
          assert resolved[i] == old(waiters)[i - |before|] && resolved[j] == old(waiters)[j - |before|];
        }
      }
      forall j | 0 <= j < |resolved| ensures resolved[j] < nextWaiter {
        if j >= |before| {
          assert resolved[j] == old(waiters)[j - |before|];
        }
      }
    }

    /** The `catch` handler: the failure's atoms. */
    method Fail(e: Error)
      modifies registry
      ensures e.BinaryNotFound? ==>
                registry.error == e.binary + " is not installed" && registry.missingBinary == MissingFor(e.binary)
                && registry.phase == Install
      ensures !e.BinaryNotFound? ==>
                registry.error == e.Message() && registry.missingBinary == NoBinary && registry.phase == Error
      ensures registry.step == old(registry.step) && registry.url == old(registry.url)
      ensures registry.log == old(registry.log)
    {
      if e.BinaryNotFound? {
        registry.error := e.binary + " is not installed";
        if e.binary == "tailscale" || e.binary == "opencode" {
          registry.missingBinary := MissingFor(e.binary);
        } else {
          registry.missingBinary := NoBinary;
        }
        registry.phase := Install;
        return;
      }
      registry.missingBinary := NoBinary;
      registry.error := e.Message();
      registry.phase := Error;
    }

    /** The atoms the `catch` handler shows for a failure. */
    predicate ShowsFailure(e: Error)
      reads this, registry
    {
      (e.BinaryNotFound? ==>
         registry.error == e.binary + " is not installed" && registry.missingBinary == MissingFor(e.binary)
         && registry.phase == Install)
      && (!e.BinaryNotFound? ==>
            registry.error == e.Message() && registry.missingBinary == NoBinary && registry.phase == Error)
    }

    /**
     * One manager run inside `flowFn`: the step is set first, the manager's
     * lines are appended, and a failure is shown and ends the flow.
     */
    method RunStage(step: Step, stage: Stage)
      requires Valid() && flowRunning && !holding
      modifies this, registry
      ensures Valid()
      ensures registry.step == step && registry.url == old(registry.url)
      ensures registry.log == AppendedLogAll(old(registry.log), stage.lines)
      ensures exitSignaled == old(exitSignaled) && exitCompletions == old(exitCompletions)
      ensures stage.outcome.Succeeded? ==>
                flowRunning && !holding && waiters == old(waiters) && resolved == old(resolved)
                && registry.missingBinary == old(registry.missingBinary)
                && registry.phase == old(registry.phase) && registry.error == old(registry.error)
      ensures stage.outcome.Failed? ==>
                ShowsFailure(stage.outcome.error) && !flowRunning && !holding
                && resolved == old(resolved) + old(waiters)
    {
      registry.step := step;
      AppendAll(stage.lines);
      if stage.outcome.Failed? {
        Fail(stage.outcome.error);
        Finish();
      }
    }

    /**
     * `flowFn`: set each step just before its manager runs, stop at the first
     * failure and show it, or publish the URL and wait for the exit signal.
     */
    method Run(tailscale: Stage, openCode: Stage, publish: Stage) returns (steps: seq<Step>)
      requires Valid() && !flowRunning
      modifies this, registry
      ensures Valid()
      ensures steps == StepsRun(tailscale, openCode, publish)
      ensures exitSignaled == old(exitSignaled) && exitCompletions == old(exitCompletions)
      ensures FirstFailure(tailscale, openCode, publish).Some? ==>
                registry.step == steps[|steps| - 1]
                && registry.log == AppendedLogAll(old(registry.log), LinesRun(tailscale, openCode, publish))
                && registry.url == old(registry.url)
                && ShowsFailure(FirstFailure(tailscale, openCode, publish).value)
                && !flowRunning && resolved == old(resolved) + old(waiters)
      ensures FirstFailure(tailscale, openCode, publish).None? ==>
                registry.url == publish.outcome.value && registry.log == "" && registry.step == Idle
                && registry.missingBinary == NoBinary && registry.phase == Done
                && registry.error == old(registry.error)
                && (holding <==> !exitSignaled) && (flowRunning <==> !exitSignaled)
                && (exitSignaled ==> resolved == old(resolved) + old(waiters))
    {
      flowRunning := true;
      registry.missingBinary := NoBinary;

      steps := [Tailscale];
      RunStage(Tailscale, tailscale);
      if tailscale.outcome.Failed? {
        return;
      }

      steps := steps + [OpenCode];
      RunStage(OpenCode, openCode);
      AppendedLogAllConcat(old(registry.log), tailscale.lines, openCode.lines);
      if openCode.outcome.Failed? {
        return;
      }

      steps := steps + [Publish];
      RunStage(Publish, publish);
      AppendedLogAllConcat(old(registry.log), tailscale.lines + openCode.lines, publish.lines);
      if publish.outcome.Failed? {
        return;
      }

      Succeed(publish.outcome.value);
    }

    /** The success branch of `flowFn`: show the URL, then hold until the exit signal. */
    method Succeed(url: string)
      requires Valid() && flowRunning && !holding
      modifies this, registry
      ensures Valid()
      ensures registry.url == url && registry.log == "" && registry.step == Idle
      ensures registry.missingBinary == NoBinary && registry.phase == Done
      ensures registry.error == old(registry.error)
      ensures exitSignaled == old(exitSignaled) && exitCompletions == old(exitCompletions)
      ensures holding <==> !exitSignaled
      ensures flowRunning <==> !exitSignaled
      ensures !exitSignaled ==> waiters == old(waiters) && resolved == old(resolved)
      ensures exitSignaled ==> resolved == old(resolved) + old(waiters)
    {
      registry.url := url;
      registry.log := "";
      registry.step := Idle;
      registry.missingBinary := NoBinary;
      registry.phase := Done;
      if exitSignaled {
        Finish();
      } else {
        holding := true;
      }
    }

    /** The held flow wakes once the exit signal is complete and runs its finalizer. */
    method ExitAwaited()
      requires Valid() && holding && exitSignaled
      modifies this
      ensures Valid()
      ensures !flowRunning && !holding && waiters == []
      ensures resolved == old(resolved) + old(waiters)
    {
      Finish();
    }
  }
}
