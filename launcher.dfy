/**
 * The `tailcode` launcher (bin/tailcode.ts): the port from `TAILCODE_PORT`,
 * the `--help` / `--wizard` / `--attach` dispatch, attaching to a healthy
 * server, and the one-time re-exec of the wizard with Bun's flags.
 *
 * The health probe, the `opencode` lookup and the exit codes of spawned
 * children are parameters; `process.exit` is the `Exit` outcome.
 */
module Launcher {
  import opened Wrappers
  import opened JsString
  import opened OpenCode

  const DefaultPort: int := 4096
  const PortVariable := "TAILCODE_PORT"
  /** The variable that marks a re-executed launcher. */
  const Marker := "__TAILCODE_REEXEC"

  const HelpText :=
    "tailcode\n\nUsage:\n  tailcode [--wizard] [--attach] [--help]\n\nOptions:\n"
    + "  --wizard  Always open the TailCode setup wizard\n"
    + "  --attach  Attach to an already-running local OpenCode server\n"
    + "  --help    Show this help\n"
  const BothFlagsMessage := "tailcode: use either --wizard or --attach, not both\n"
  const NoOpenCodeMessage := "tailcode: 'opencode' is not installed (launching wizard instead)\n"
  const AttachHint := "tailcode: run without --attach to start the setup wizard\n"

  /**
   * `Number.parseInt(raw, 10)`: leading whitespace skipped, an optional sign,
   * then the longest run of decimal digits; `None` stands for NaN.
   */
  function ParseInt(raw: string): Option<int>
  {
    var s := TrimStart(raw);
    var negative := |s| > 0 && s[0] == '-';
    var unsigned := if |s| > 0 && (s[0] == '-' || s[0] == '+') then s[1..] else s;
    var n := DigitRun(unsigned, 0);
    if n == 0 then None
    else
      var magnitude: int := DecimalValue(unsigned[..n]);
      Some(if negative then -magnitude else magnitude)
  }

  /** `parseInt` reads back what `String(n)` writes. */
  lemma ParseIntReadsBack(n: int)
    ensures ParseInt(IntToString(n)) == Some(n)
  {
    if n < 0 {
      var digits := NatToString(-n);
      ParseIntOfSignedDigits(digits);
      DecimalValueOfNatToString(-n);
      assert IntToString(n) == "-" + digits;
    } else {
      var digits := NatToString(n);
      ParseIntOfDigits(digits);
      DecimalValueOfNatToString(n);
      assert IntToString(n) == digits;
    }
  }

  lemma ParseIntOfDigits(digits: string)
    requires digits != [] && AllDigits(digits)
    ensures ParseInt(digits) == Some(DecimalValue(digits) as int)
  {
    TrimStartKeeps(digits);
    DigitRunWhole(digits);
    assert digits[..|digits|] == digits;
  }

  lemma ParseIntOfSignedDigits(digits: string)
    requires digits != [] && AllDigits(digits)
    ensures ParseInt("-" + digits) == Some(-(DecimalValue(digits) as int))
  {
    var s := "-" + digits;
    assert s[0] == '-' && s[1..] == digits;
    TrimStartKeeps(s);
    DigitRunWhole(digits);
    assert digits[..|digits|] == digits;
  }

  /** Text that starts with a non-space character has nothing to trim at its start. */
  lemma TrimStartKeeps(s: string)
    requires s != [] && (s[0] == '-' || IsDigit(s[0]))
    ensures TrimStart(s) == s
  {
    assert !IsWhiteSpace(s[0]);
  }

  lemma DigitRunWhole(s: string)
    requires AllDigits(s)
    ensures DigitRun(s, 0) == |s|
  {
  }

  /** `parseInt` gives NaN exactly when no digit follows the whitespace and the optional sign. */
  lemma ParseIntNaN(raw: string)
    ensures ParseInt(raw).None? <==>
              var s := TrimStart(raw);
              var unsigned := if |s| > 0 && (s[0] == '-' || s[0] == '+') then s[1..] else s;
              unsigned == [] || !IsDigit(unsigned[0])
  {
  }

  /** The environment's value for a variable, when it is set. */
  function Lookup(env: map<string, string>, name: string): Option<string>
  {
    if name in env then Some(env[name]) else None
  }

  /** `resolvePort`: the parsed `TAILCODE_PORT` when it is a valid port, else 4096. */
  function ResolvePort(raw: Option<string>): (port: int)
    ensures 1 <= port <= 65535
    ensures raw.None? || raw == Some("") ==> port == DefaultPort
    ensures port != DefaultPort ==> raw.Some? && ParseInt(raw.value) == Some(port)
  {
    if raw.None? || raw.value == "" then DefaultPort
    else
      match ParseInt(raw.value)
      case Some(parsed) => if 0 < parsed <= 65535 then parsed else DefaultPort
      case None => DefaultPort
  }

  /** Every valid port written in decimal is used as is. */
  lemma ResolvePortReadsBack(n: int)
    requires 1 <= n <= 65535
    ensures ResolvePort(Some(IntToString(n))) == n
  {
    var text := IntToString(n);
    ParseIntReadsBack(n);
    assert text != "";
  }

  /** A value that parses to a valid port is that port; anything else falls back to 4096. */
  lemma ResolvePortCases(raw: string)
    ensures raw != "" && ParseInt(raw).Some? && 1 <= ParseInt(raw).value <= 65535 ==>
              ResolvePort(Some(raw)) == ParseInt(raw).value
    ensures ParseInt(raw).None? || !(1 <= ParseInt(raw).value <= 65535) ==> ResolvePort(Some(raw)) == DefaultPort
  {
  }

  function Target(port: int): string
  {
    "http://127.0.0.1:" + IntToString(port)
  }

  /** A line written to standard output or standard error. */
  datatype Output = Stdout(text: string) | Stderr(text: string)

  /** A child started with inherited standard streams. */
  datatype Child = Child(argv: seq<string>, env: map<string, string>)

  /** How the launcher ends: it exits with a code, or it loads the wizard in this process. */
  datatype Outcome = Exit(code: int) | Wizard

  /**
   * `runAttach`: without an `opencode` binary it reports and returns false
   * without spawning; otherwise it attaches and exits with the child's code.
   */
  method RunAttach(port: int, which: Option<string>, env: map<string, string>, attachExit: int)
    returns (exited: Option<int>, out: seq<Output>, spawned: seq<Child>)
    ensures which.None? ==> exited.None? && spawned == [] && out == [Stderr(NoOpenCodeMessage)]
    ensures which.Some? ==>
              exited == Some(attachExit) && spawned == [Child([which.value, "attach", Target(port)], env)]
              && out == [Stdout("tailcode: attaching to " + Target(port) + "\n")]
  {
    if which.None? {
      return None, [Stderr(NoOpenCodeMessage)], [];
    }
    var target := Target(port);
    out := [Stdout("tailcode: attaching to " + target + "\n")];
    spawned := [Child([which.value, "attach", target], env)];
    exited := Some(attachExit);
  }

  /** The command that re-runs the launcher under Bun with the flags the wizard needs. */
  function ReExecArgv(execPath: string, fileName: string, args: seq<string>): seq<string>
  {
    [execPath, "run", "--conditions=browser", "--preserve-symlinks", fileName] + args
  }

  /** The marker is set to a non-empty value (the source tests it for truthiness). */
  predicate MarkerSet(env: map<string, string>)
  {
    Marker in env && env[Marker] != ""
  }

  /** The top-level dispatch of the launcher. */
  method Launch(args: seq<string>, env: map<string, string>, health: HealthResponse, which: Option<string>,
                execPath: string, fileName: string, attachExit: int, reExecExit: int)
    returns (outcome: Outcome, out: seq<Output>, spawned: seq<Child>)
    ensures |spawned| <= 1
    // Help comes before every other check.
    ensures "--help" in args || "-h" in args ==> outcome == Exit(0) && out == [Stdout(HelpText)] && spawned == []
    ensures !("--help" in args || "-h" in args) && "--wizard" in args && "--attach" in args ==>
              outcome == Exit(1) && out == [Stderr(BothFlagsMessage)] && spawned == []
    // A healthy server is attached to unless the wizard is forced.
    ensures !("--help" in args || "-h" in args) && "--wizard" !in args
            && health == Response(true) && which.Some? ==>
              outcome == Exit(attachExit)
              && spawned == [Child([which.value, "attach", Target(ResolvePort(Lookup(env, PortVariable)))], env)]
              && out == [Stdout("tailcode: attaching to " + Target(ResolvePort(Lookup(env, PortVariable))) + "\n")]
    // `--attach` without a successful attach fails.
    ensures !("--help" in args || "-h" in args) && "--wizard" !in args && "--attach" in args
            && !(health == Response(true) && which.Some?) ==>
              outcome == Exit(1) && spawned == []
              && out == (if health == Response(true) then [Stderr(NoOpenCodeMessage)] else [])
                        + [Stderr("tailcode: OpenCode is not running on "
                                  + Target(ResolvePort(Lookup(env, PortVariable))) + "\n"),
                           Stderr(AttachHint)]
    // Otherwise the wizard runs, in a re-executed child unless this is that child; a healthy
    // server without an `opencode` binary is reported first.
    ensures !("--help" in args || "-h" in args) && "--attach" !in args
            && ("--wizard" in args || !(health == Response(true) && which.Some?)) ==>
              out == (if "--wizard" !in args && health == Response(true) then [Stderr(NoOpenCodeMessage)] else [])
    ensures outcome == Wizard ==> MarkerSet(env) && spawned == []
    // With the marker set, the only child ever spawned is `opencode attach`.
    ensures MarkerSet(env) && |spawned| == 1 ==> |spawned[0].argv| == 3 && spawned[0].argv[1] == "attach"
    ensures !("--help" in args || "-h" in args) && "--attach" !in args
            && ("--wizard" in args || !(health == Response(true) && which.Some?)) ==>
              if MarkerSet(env) then outcome == Wizard
              else outcome == Exit(reExecExit) && spawned == [Child(ReExecArgv(execPath, fileName, args), env[Marker := "1"])]
  {
    out := [];
    spawned := [];
    var forceWizard := "--wizard" in args;
    var forceAttach := "--attach" in args;

    if "--help" in args || "-h" in args {
      return Exit(0), [Stdout(HelpText)], [];
    }
    if forceWizard && forceAttach {
      return Exit(1), [Stderr(BothFlagsMessage)], [];
    }

    var port := ResolvePort(Lookup(env, PortVariable));

    if !forceWizard {
      var healthy := health == Response(true);
      if healthy {
        var exited, attachOut, attachSpawned := RunAttach(port, which, env, attachExit);
        out := out + attachOut;
        spawned := spawned + attachSpawned;
        if exited.Some? {
          return Exit(exited.value), out, spawned;
        }
      }
      if forceAttach {
        out := out + [Stderr("tailcode: OpenCode is not running on " + Target(port) + "\n"), Stderr(AttachHint)];
        return Exit(1), out, spawned;
      }
    }

    if !MarkerSet(env) {
      spawned := spawned + [Child(ReExecArgv(execPath, fileName, args), env[Marker := "1"])];
      return Exit(reExecExit), out, spawned;
    }
    outcome := Wizard;
  }

  /**
   * The re-executed child sees the marker and the same port: it never
   * re-executes again.
   */
  lemma ChildNeverReExecs(env: map<string, string>)
    ensures MarkerSet(env[Marker := "1"])
    ensures ResolvePort(Lookup(env[Marker := "1"], PortVariable)) == ResolvePort(Lookup(env, PortVariable))
  {
  }
}
