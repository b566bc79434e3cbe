/**
 * The screenbook (src/showcase.tsx): a fixed list of scenes, each a preset
 * of the six atoms, chosen from a command-line alias and cycled with the
 * arrow keys.
 */
module Showcase {
  import opened Wrappers
  import opened JsString
  import opened State
  import App
  import ServeStatus

  datatype Scene =
    | WelcomeScene
    | RunningTailscale
    | RunningOpenCode
    | RunningPublish
    | InstallTailscale
    | InstallOpenCode
    | ErrorScene
    | DoneScene

  const SceneOrder: seq<Scene> :=
    [WelcomeScene, RunningTailscale, RunningOpenCode, RunningPublish,
     InstallTailscale, InstallOpenCode, ErrorScene, DoneScene]

  /** The scene's name as the source spells it. */
  function SceneName(scene: Scene): string
  {
    match scene
    case WelcomeScene => "welcome"
    case RunningTailscale => "running-tailscale"
    case RunningOpenCode => "running-opencode"
    case RunningPublish => "running-publish"
    case InstallTailscale => "install-tailscale"
    case InstallOpenCode => "install-opencode"
    case ErrorScene => "error"
    case DoneScene => "done"
  }

  /** `sceneHelp`: the one-line description printed at start-up. */
  function SceneHelp(scene: Scene): string
  {
    match scene
    case WelcomeScene => "Welcome screen"
    case RunningTailscale => "Running screen - tailscale step"
    case RunningOpenCode => "Running screen - opencode step"
    case RunningPublish => "Running screen - publish step"
    case InstallTailscale => "Install guidance screen (tailscale)"
    case InstallOpenCode => "Install guidance screen (opencode)"
    case ErrorScene => "Error screen"
    case DoneScene => "Done screen"
  }

  // -- Scene presets --

  /** The six atoms of the registry, as a value. */
  datatype Atoms = Atoms(phase: Phase, step: Step, log: string, url: string, error: string, missingBinary: MissingBinary)

  /** The tail of the flow's message for a missing binary. */
  const NotInstalled := " is not installed"
  const DemoUrl := "https://kit-demo.tail1234.ts.net"
  const CheckingLog := "Checking Tailscale connection...\n"
  const ConnectedLog := CheckingLog + "Tailscale connected.\n"
  const StartingLog := ConnectedLog + "Starting OpenCode on 127.0.0.1:4096...\n"
  const PublishingLog := StartingLog + "OpenCode healthy.\nPublishing with tailscale serve...\n"

  /** The atoms a scene shows once `applyScene` is done. */
  function SceneAtoms(scene: Scene): Atoms
  {
    match scene
    case WelcomeScene => Atoms(Welcome, Idle, "", "", "", NoBinary)
    case RunningTailscale => Atoms(Running, Tailscale, CheckingLog, "", "", NoBinary)
    case RunningOpenCode => Atoms(Running, OpenCode, StartingLog, "", "", NoBinary)
    case RunningPublish => Atoms(Running, Publish, PublishingLog, "", "", NoBinary)
    case InstallTailscale => Atoms(Install, Tailscale, "", "", "tailscale" + NotInstalled, MissingTailscale)
    case InstallOpenCode => Atoms(Install, OpenCode, ConnectedLog, "", "opencode" + NotInstalled, MissingOpenCode)
    case ErrorScene =>
      Atoms(Error, Publish, "Publishing with tailscale serve...\n", "",
            "Timed out waiting for tailscale serve to register proxy", NoBinary)
    case DoneScene => Atoms(Done, Idle, "", DemoUrl, "", NoBinary)
  }

  /**
   * The preset clears url, error and missingBinary first, so each keeps its
   * cleared value unless the scene writes it: only the done scene has a URL,
   * only the install scenes a missing binary, only install and error an error.
   */
  lemma SceneClearsFirst(scene: Scene)
    ensures SceneAtoms(scene).url != "" <==> scene == DoneScene
    ensures SceneAtoms(scene).missingBinary != NoBinary <==> scene in {InstallTailscale, InstallOpenCode}
    ensures SceneAtoms(scene).error != "" <==> scene in {InstallTailscale, InstallOpenCode, ErrorScene}
  {
  }

  /** The install scenes name the step's binary as missing, with the flow's error text. */
  lemma InstallScenes(scene: Scene)
    requires scene in {InstallTailscale, InstallOpenCode}
    ensures var a := SceneAtoms(scene);
            var binary := if scene == InstallTailscale then "tailscale" else "opencode";
            a.phase == Install && a.error == binary + NotInstalled
            && a.missingBinary == (if scene == InstallTailscale then MissingTailscale else MissingOpenCode)
            && a.step == (if scene == InstallTailscale then Tailscale else OpenCode)
  {
  }

  /** The done scene shows a non-empty https URL, the idle step and an empty log. */
  lemma DoneScenePreset()
    ensures var a := SceneAtoms(DoneScene);
            a.phase == Done && a.step == Idle && a.log == "" && a.url != ""
            && ServeStatus.IsHttpsUrl(a.url)
  {
  }

  /** The running scenes show the stage badges of a flow at that step. */
  lemma RunningSceneBadges()
    ensures var a := SceneAtoms(RunningTailscale);
            App.StageStates(a.phase, a.step, a.missingBinary) == [App.Active, App.Pending, App.Pending]
    ensures var a := SceneAtoms(RunningOpenCode);
            App.StageStates(a.phase, a.step, a.missingBinary) == [App.Completed, App.Active, App.Pending]
    ensures var a := SceneAtoms(RunningPublish);
            App.StageStates(a.phase, a.step, a.missingBinary) == [App.Completed, App.Completed, App.Active]
    ensures var a := SceneAtoms(ErrorScene);
            App.StageStates(a.phase, a.step, a.missingBinary) == [App.Completed, App.Completed, App.Errored]
  {
  }

  // -- Arguments and tabs --

  /**
   * `parseSceneArg`: no argument or an empty one is the welcome scene; else
   * the trimmed, lower-cased value is matched against the aliases, and an
   * unknown one is the welcome scene.
   */
  function ParseSceneArg(raw: Option<string>): Scene
  {
    if raw.None? || raw.value == "" then WelcomeScene
    else SceneForAlias(ToLowerAscii(TrimSpace(raw.value)))
  }

  /** The scene a normalised argument names; unknown values name the welcome scene. */
  function SceneForAlias(value: string): Scene
  {
    if value == "welcome" then WelcomeScene
    else if value == "tailscale" then RunningTailscale
    else if value == "opencode" then RunningOpenCode
    else if value == "publish" || value == "running" then RunningPublish
    else if value == "install" || value == "install-tailscale" then InstallTailscale
    else if value == "install-opencode" then InstallOpenCode
    else if value == "error" then ErrorScene
    else if value == "done" then DoneScene
    else WelcomeScene
  }

  /** `tabLabel`: the running scenes by their step, the install scenes abbreviated, the rest by name. */
  function TabLabel(scene: Scene): string
  {
    match scene
    case RunningTailscale => "tailscale"
    case RunningOpenCode => "opencode"
    case RunningPublish => "publish"
    case InstallTailscale => "install-ts"
    case InstallOpenCode => "install-oc"
    case _ => SceneName(scene)
  }

  /** A tab label drops the `running-` prefix of the scene name. */
  lemma TabLabelDropsRunning(scene: Scene)
    ensures scene in {RunningTailscale, RunningOpenCode, RunningPublish} ==>
              SceneName(scene) == "running-" + TabLabel(scene)
    ensures scene in {WelcomeScene, ErrorScene, DoneScene} ==> TabLabel(scene) == SceneName(scene)
  {
  }

  /** Passing a running scene's tab label as the argument opens that scene. */
  lemma RunningLabelsAsArguments(scene: Scene)
    ensures scene in {RunningTailscale, RunningOpenCode, RunningPublish} ==> ParseSceneArg(Some(TabLabel(scene))) == scene
  {
    match scene {
      case RunningTailscale => LowerTrimmedLabel("tailscale");
      case RunningOpenCode => LowerTrimmedLabel("opencode");
      case RunningPublish => LowerTrimmedLabel("publish");
      case _ =>
    }
  }

  /** Passing the welcome, error or done tab label as the argument opens that scene. */
  lemma NamedLabelsAsArguments(scene: Scene)
    ensures scene in {WelcomeScene, ErrorScene, DoneScene} ==> ParseSceneArg(Some(TabLabel(scene))) == scene
  {
    match scene {
      case WelcomeScene => LowerTrimmedLabel("welcome");
      case ErrorScene => LowerTrimmedLabel("error");
      case DoneScene => LowerTrimmedLabel("done");
      case _ =>
    }
  }

  /** The abbreviated install labels are no alias: as arguments they open the welcome scene. */
  lemma InstallLabelsAsArguments(scene: Scene)
    ensures scene in {InstallTailscale, InstallOpenCode} ==> ParseSceneArg(Some(TabLabel(scene))) == WelcomeScene
  {
    if scene == InstallTailscale {
      LowerTrimmedLabel("install-ts");
    } else if scene == InstallOpenCode {
      LowerTrimmedLabel("install-oc");
    }
    AbbreviationsAreNoAliases();
  }

  lemma AbbreviationsAreNoAliases()
    ensures SceneForAlias("install-ts") == WelcomeScene
    ensures SceneForAlias("install-oc") == WelcomeScene
  {
  }

  /** A lower-case label without spaces is its own trimmed, lower-cased form. */
  lemma LowerTrimmedLabel(text: string)
    requires text != [] && forall k :: 0 <= k < |text| ==> ('a' <= text[k] <= 'z' || text[k] == '-')
    ensures ToLowerAscii(TrimSpace(text)) == text
  {
    assert TrimStart(text) == text;
    assert TrimEnd(text) == text;
  }

  /** Arguments differing only in surrounding whitespace and letter case open the same scene. */
  lemma ParseSceneArgNormalises(raw: string)
    ensures ParseSceneArg(Some(raw)) == ParseSceneArg(Some(ToLowerAscii(TrimSpace(raw))))
  {
    var u := ToLowerAscii(TrimSpace(raw));
    NormalFormStable(TrimSpace(raw));
    if u == "" {
      assert SceneForAlias("") == WelcomeScene;
    }
  }

  /** Lower-casing a trimmed string leaves it trimmed, and normalising again changes nothing. */
  lemma NormalFormStable(t: string)
    requires t == [] || (!IsWhiteSpace(t[0]) && !IsWhiteSpace(t[|t| - 1]))
    ensures ToLowerAscii(TrimSpace(ToLowerAscii(t))) == ToLowerAscii(t)
  {
    var u := ToLowerAscii(t);
    if u != [] {
      assert !IsWhiteSpace(u[0]) && !IsWhiteSpace(u[|u| - 1]);
      assert TrimStart(u) == u;
      assert TrimEnd(u) == u;
    }
    assert ToLowerAscii(u) == u;
  }

  // -- Cycling --

  /** JavaScript's `%`: the remainder takes the sign of the dividend. */
  function JsRemainder(a: int, b: int): (r: int)
    requires b > 0
    ensures a >= 0 ==> 0 <= r < b
    ensures a < 0 ==> -b < r <= 0
  {
    if a >= 0 then a % b else -((-a) % b)
  }

  /** The scene's position in `SceneOrder`. */
  function SceneIndex(scene: Scene): (i: nat)
    ensures i < 8
  {
    match scene
    case WelcomeScene => 0
    case RunningTailscale => 1
    case RunningOpenCode => 2
    case RunningPublish => 3
    case InstallTailscale => 4
    case InstallOpenCode => 5
    case ErrorScene => 6
    case DoneScene => 7
  }

  /** `sceneOrder.indexOf` finds every scene at its own position. */
  lemma IndexOfSceneAt(i: nat)
    requires i < |SceneOrder|
    ensures SceneIndex(SceneOrder[i]) == i
  {
    assert i in {0, 1, 2, 3, 4, 5, 6, 7};
  }

  /** Every scene is listed in `SceneOrder`, at its index. */
  lemma SceneAtIndex(scene: Scene)
    ensures |SceneOrder| == 8 && SceneOrder[SceneIndex(scene)] == scene
  {
  }

  /** No two scenes share a position. */
  lemma SceneIndexInjective(a: Scene, b: Scene)
    ensures SceneIndex(a) == SceneIndex(b) ==> a == b
  {
  }

  /** The scene `cycle(delta)` moves to; an index outside the list falls back to welcome. */
  function CycleTarget(current: Scene, delta: int): Scene
  {
    var next := JsRemainder(SceneIndex(current) + delta + |SceneOrder|, |SceneOrder|);
    if 0 <= next < |SceneOrder| then SceneOrder[next] else WelcomeScene
  }

  /** A step right moves to the next scene, wrapping around after the last. */
  lemma CycleRight(current: Scene)
    ensures SceneIndex(CycleTarget(current, 1)) == (SceneIndex(current) + 1) % 8
  {
    var i := SceneIndex(current);
    assert JsRemainder(i + 1 + 8, 8) == (i + 1) % 8;
    IndexOfSceneAt((i + 1) % 8);
  }

  /** A step left moves to the previous scene, wrapping around before the first. */
  lemma CycleLeft(current: Scene)
    ensures SceneIndex(CycleTarget(current, -1)) == (SceneIndex(current) + 7) % 8
  {
    var i := SceneIndex(current);
    assert JsRemainder(i + 7, 8) == (i + 7) % 8;
    IndexOfSceneAt((i + 7) % 8);
  }

  /** A step right undoes a step left and the other way round. */
  lemma CycleUndo(current: Scene)
    ensures CycleTarget(CycleTarget(current, 1), -1) == current
    ensures CycleTarget(CycleTarget(current, -1), 1) == current
  {
    var i := SceneIndex(current);
    CycleRight(current);
    CycleLeft(CycleTarget(current, 1));
    CycleLeft(current);
    CycleRight(CycleTarget(current, -1));
    ModPred(i);
    SceneIndexInjective(CycleTarget(CycleTarget(current, 1), -1), current);
    SceneIndexInjective(CycleTarget(CycleTarget(current, -1), 1), current);
  }

  lemma ModSucc(a: nat)
    ensures (a % 8 + 1) % 8 == (a + 1) % 8
  {
    var q := a / 8;
    var r := a % 8;
    assert a == 8 * q + r;
    if r < 7 {
      assert a + 1 == 8 * q + (r + 1);
    } else {
      assert a + 1 == 8 * (q + 1);
    }
  }

  lemma ModPred(i: nat)
    requires i < 8
    ensures ((i + 1) % 8 + 7) % 8 == i && ((i + 7) % 8 + 1) % 8 == i
  {
    assert i in {0, 1, 2, 3, 4, 5, 6, 7};
  }

  /** A step right from the scene at position `k` modulo 8 reaches position `k + 1` modulo 8. */
  lemma RightStep(prev: Scene, k: nat)
    requires SceneIndex(prev) == k % 8
    ensures SceneIndex(CycleTarget(prev, 1)) == (k + 1) % 8
  {
    CycleRight(prev);
    ModSucc(k);
  }

  /** The scene `count` places to the right of `current` in the scene order, wrapping around. */
  function RightSteps(current: Scene, count: nat): Scene
  {
    SceneOrder[(SceneIndex(current) + count) % 8]
  }

  /**
   * `RightSteps` is the scene reached by pressing right `count` times: no
   * press stays put, and one press more is one `cycle(1)` more.
   */
  lemma RightStepsIterate(current: Scene, count: nat)
    ensures RightSteps(current, 0) == current
    ensures RightSteps(current, count + 1) == CycleTarget(RightSteps(current, count), 1)
  {
    var i := SceneIndex(current);
    SceneAtIndex(current);
    assert (i + 0) % 8 == i;
    var here := RightSteps(current, count);
    IndexOfSceneAt((i + count) % 8);
    RightStep(here, i + count);
    IndexOfSceneAt((i + count + 1) % 8);
    SceneIndexInjective(CycleTarget(here, 1), RightSteps(current, count + 1));
  }

  lemma {:induction false} ModMultiple(i: nat, rounds: nat)
    requires i < 8
    ensures (i + 8 * rounds) % 8 == i
  {
    if rounds > 0 {
      ModMultiple(i, rounds - 1);
      assert i + 8 * rounds == (i + 8 * (rounds - 1)) + 8;
    }
  }

  /** Any multiple of eight steps to the right returns to the starting scene. */
  lemma RightStepsReturn(current: Scene, rounds: nat)
    ensures RightSteps(current, 8 * rounds) == current
  {
    ModMultiple(SceneIndex(current), rounds);
    SceneAtIndex(current);
  }

  /** The screenbook: the current scene signal over the shared registry. */
  class Screenbook {
    const registry: Registry
    var current: Scene

    /** The book opens on the scene the argument names and applies it. */
    constructor (registry: Registry, arg: Option<string>)
      modifies registry
      ensures this.registry == registry && current == ParseSceneArg(arg)
      ensures Shows(SceneAtoms(current))
    {
      this.registry := registry;
      current := ParseSceneArg(arg);
      new;
      ApplyScene(current);
    }

    /** The registry holds exactly these atoms. */
    predicate Shows(a: Atoms)
      reads this, registry
    {
      registry.phase == a.phase && registry.step == a.step && registry.log == a.log
      && registry.url == a.url && registry.error == a.error && registry.missingBinary == a.missingBinary
    }

    /** `applyScene`: clear url, error and missingBinary, then write the scene's atoms. */
    method ApplyScene(scene: Scene)
      modifies registry
      ensures Shows(SceneAtoms(scene))
    {
      registry.url := "";
      registry.error := "";
      registry.missingBinary := NoBinary;
      match scene {
        case WelcomeScene =>
          registry.phase := Welcome;
          registry.step := Idle;
          registry.log := "";
        case RunningTailscale =>
          registry.phase := Running;
          registry.step := Tailscale;
          registry.log := CheckingLog;
        case RunningOpenCode =>
          registry.phase := Running;
          registry.step := OpenCode;
          registry.log := StartingLog;
        case RunningPublish =>
          registry.phase := Running;
          registry.step := Publish;
          registry.log := PublishingLog;
        case InstallTailscale =>
          registry.phase := Install;
          registry.step := Tailscale;
          registry.missingBinary := MissingTailscale;
          registry.error := "tailscale" + NotInstalled;
          registry.log := "";
        case InstallOpenCode =>
          registry.phase := Install;
          registry.step := OpenCode;
          registry.missingBinary := MissingOpenCode;
          registry.error := "opencode" + NotInstalled;
          registry.log := ConnectedLog;
        case ErrorScene =>
          registry.phase := Error;
          registry.step := Publish;
          registry.error := "Timed out waiting for tailscale serve to register proxy";
          registry.log := "Publishing with tailscale serve...\n";
        case DoneScene =>
          registry.phase := Done;
          registry.step := Idle;
          registry.url := DemoUrl;
          registry.log := "";
      }
    }

    /** `setScene`: remember the scene and apply it. */
    method SetScene(scene: Scene)
      modifies this, registry
      ensures current == scene && Shows(SceneAtoms(scene))
    {
      current := scene;
      ApplyScene(scene);
    }

    /** `cycle`: move by `delta` places in the scene order. */
    method Cycle(delta: int)
      modifies this, registry
      ensures current == CycleTarget(old(current), delta)
      ensures Shows(SceneAtoms(current))
    {
      var index := SceneIndex(current);
      var nextIndex := JsRemainder(index + delta + |SceneOrder|, |SceneOrder|);
      var next := if 0 <= nextIndex < |SceneOrder| then SceneOrder[nextIndex] else WelcomeScene;
      SetScene(next);
    }

    /** The left and right arrows cycle; other keys do nothing here. */
    method HandleKey(name: string)
      modifies this, registry
      ensures name == "left" ==> current == CycleTarget(old(current), -1)
      ensures name == "right" ==> current == CycleTarget(old(current), 1)
      ensures name != "left" && name != "right" ==> current == old(current)
      ensures name == "left" || name == "right" ==> Shows(SceneAtoms(current))
      ensures name != "left" && name != "right" ==> unchanged(registry)
    {
      if name == "left" {
        Cycle(-1);
      } else if name == "right" {
        Cycle(1);
      }
    }

    /** The screen's start action shows the first running scene instead of starting a flow. */
    method Start()
      modifies this, registry
      ensures current == RunningTailscale && Shows(SceneAtoms(RunningTailscale))
    {
      SetScene(RunningTailscale);
    }
  }
}
