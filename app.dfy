/**
 * The view logic of the wizard screen (src/app.tsx): the install guide per
 * missing binary and platform, the wordmark segmentation, the stage badges,
 * the recent-log excerpt, the width clamps, the spinner, and the keyboard
 * dispatch with `start` and `quit`.
 */
module App {
  import opened Wrappers
  import opened JsString
  import opened State
  import Flow

  // -- Install guide --

  datatype InstallGuide = InstallGuide(title: string, docsUrl: string, installCommand: string, installHint: string)

  const OpenCodeMac := InstallGuide("Install OpenCode for macOS", "https://opencode.ai/docs/#install",
    "brew install anomalyco/tap/opencode", "Alternative: bun install -g opencode-ai")
  const OpenCodeWindows := InstallGuide("Install OpenCode for Windows", "https://opencode.ai/docs/windows-wsl",
    "choco install opencode", "Recommended path is WSL2. Open the docs for setup details.")
  const OpenCodeLinux := InstallGuide("Install OpenCode for Linux", "https://opencode.ai/docs/#install",
    "curl -fsSL https://opencode.ai/install | bash", "Alternative: bun install -g opencode-ai")
  const TailscaleMac := InstallGuide("Install Tailscale for macOS", "https://tailscale.com/docs/install/mac",
    "brew install --cask tailscale-app", "If Homebrew is unavailable, open the docs link for installer options.")
  const TailscaleWindows := InstallGuide("Install Tailscale for Windows", "https://tailscale.com/docs/install/windows",
    "winget install --id tailscale.tailscale --exact", "If winget is unavailable, use the installer from the docs link.")
  const TailscaleLinux := InstallGuide("Install Tailscale for Linux", "https://tailscale.com/docs/install/linux",
    "curl -fsSL https://tailscale.com/install.sh | sh", "Install may require sudo depending on your distro.")

  const OpenCodeGuides := {OpenCodeMac, OpenCodeWindows, OpenCodeLinux}
  const TailscaleGuides := {TailscaleMac, TailscaleWindows, TailscaleLinux}

  /** `getInstallGuide`. */
  function GetInstallGuide(binary: MissingBinary, platform: string): (g: InstallGuide)
    ensures binary == MissingOpenCode ==> g in OpenCodeGuides
    ensures binary != MissingOpenCode ==> g in TailscaleGuides
    ensures platform == "darwin" ==> g in {OpenCodeMac, TailscaleMac}
    ensures platform == "win32" ==> g in {OpenCodeWindows, TailscaleWindows}
    ensures platform != "darwin" && platform != "win32" ==> g in {OpenCodeLinux, TailscaleLinux}
  {
    if binary == MissingOpenCode then
      if platform == "darwin" then OpenCodeMac
      else if platform == "win32" then OpenCodeWindows
      else OpenCodeLinux
    else if platform == "darwin" then TailscaleMac
    else if platform == "win32" then TailscaleWindows
    else TailscaleLinux
  }

  /** No guide is both an OpenCode and a Tailscale guide. */
  lemma GuidesDistinct(g: InstallGuide)
    ensures !(g in OpenCodeGuides && g in TailscaleGuides)
  {
  }

  /**
   * The guide the screen shows (no missing binary falls back to Tailscale)
   * is an OpenCode guide exactly when OpenCode is the missing binary.
   */
  function ScreenGuide(missing: MissingBinary, platform: string): (g: InstallGuide)
    ensures g in OpenCodeGuides <==> missing == MissingOpenCode
    ensures g in TailscaleGuides <==> missing != MissingOpenCode
    ensures missing == NoBinary ==> g == GetInstallGuide(MissingTailscale, platform)
  {
    var g := GetInstallGuide(if missing == NoBinary then MissingTailscale else missing, platform);
    GuidesDistinct(g);
    g
  }

  // -- Wordmark segmentation --

  /** How a segment is drawn: plain, on the shadow background, or in the shadow colour. */
  datatype Style = Plain | ShadowBackground | ShadowForeground

  datatype Segment = Segment(text: string, style: Style)

  /** The marker characters of the wordmark. */
  predicate IsMark(c: char)
  {
    c == '_' || c == '^' || c == '~'
  }

  /** What a character of the wordmark shows as. */
  function MarkGlyph(c: char): char
  {
    if c == '_' then ' ' else if c == '^' || c == '~' then '▀' else c
  }

  /** The line as it appears on screen. */
  function Shown(line: string): (r: string)
    ensures |r| == |line|
  {
    seq(|line|, k requires 0 <= k < |line| => MarkGlyph(line[k]))
  }

  /** The concatenated texts of the segments. */
  function Texts(segs: seq<Segment>): string
  {
    if |segs| == 0 then "" else Texts(segs[..|segs| - 1]) + segs[|segs| - 1].text
  }

  /** `rest.search(/[_^~]/)`: the first marker, if any. */
  function FirstMark(s: string): (m: Option<nat>)
    ensures m.None? ==> forall k :: 0 <= k < |s| ==> !IsMark(s[k])
    ensures m.Some? ==> m.value < |s| && IsMark(s[m.value]) && forall k :: 0 <= k < m.value ==> !IsMark(s[k])
  {
    if |s| == 0 then None
    else if IsMark(s[0]) then Some(0)
    else match FirstMark(s[1..])
         case None => None
         case Some(m) => Some(m + 1)
  }

  lemma TextsSnoc(segs: seq<Segment>, seg: Segment)
    ensures Texts(segs + [seg]) == Texts(segs) + seg.text
  {
    assert (segs + [seg])[..|segs|] == segs;
  }

  /** Extending the shown prefix over marker-free text shows that text as is. */
  lemma ShownPlainStep(line: string, i: nat, j: nat)
    requires i <= j <= |line|
    requires forall k :: i <= k < j ==> !IsMark(line[k])
    ensures Shown(line[..j]) == Shown(line[..i]) + line[i..j]
  {
    assert forall k :: 0 <= k < j ==> Shown(line[..j])[k] == (Shown(line[..i]) + line[i..j])[k];
  }

  lemma ShownMarkStep(line: string, j: nat)
    requires j < |line|
    ensures Shown(line[..j + 1]) == Shown(line[..j]) + [MarkGlyph(line[j])]
  {
    assert forall k :: 0 <= k <= j ==> Shown(line[..j + 1])[k] == (Shown(line[..j]) + [MarkGlyph(line[j])])[k];
  }

  /** The text before the first marker of `line[i..]` is marker-free, and the marker found is one. */
  lemma MarkFreeRun(line: string, i: nat, m: Option<nat>)
    requires i <= |line| && m == FirstMark(line[i..])
    ensures var at := if m.None? then |line| else i + m.value;
            at <= |line| && (forall k :: i <= k < at ==> !IsMark(line[k]))
            && (at < |line| ==> IsMark(line[at]))
  {
    var at := if m.None? then |line| else i + m.value;
    forall k | i <= k < at
      ensures !IsMark(line[k])
    {
      assert line[k] == line[i..][k - i];
    }
    if m.Some? {
      assert line[at] == line[i..][m.value];
    }
  }

  /** Appending a well-formed segment keeps every segment well formed and extends the texts by its text. */
  lemma SegmentsStep(segs: seq<Segment>, seg: Segment)
    requires forall k :: 0 <= k < |segs| ==> WellFormed(segs[k])
    requires WellFormed(seg)
    ensures Texts(segs + [seg]) == Texts(segs) + seg.text
    ensures forall k :: 0 <= k < |segs + [seg]| ==> WellFormed((segs + [seg])[k])
  {
    TextsSnoc(segs, seg);
  }

  /** The segment drawn for a marker. */
  function MarkSegment(c: char): (seg: Segment)
    requires IsMark(c)
    ensures seg.text == [MarkGlyph(c)] && seg.style != Plain
  {
    if c == '_' then Segment(" ", ShadowBackground)
    else if c == '^' then Segment("▀", ShadowBackground)
    else Segment("▀", ShadowForeground)
  }

  /** A segment is well formed: never empty, plain text without markers, glyphs one character long. */
  predicate WellFormed(seg: Segment)
  {
    seg.text != []
    && (seg.style == Plain ==> forall k :: 0 <= k < |seg.text| ==> !IsMark(seg.text[k]))
    && (seg.style != Plain ==> |seg.text| == 1)
  }

  /** The style a character of the wordmark is drawn in. */
  function CharStyle(c: char): Style
  {
    if IsMark(c) then MarkSegment(c).style else Plain
  }

  /** The line as it appears on screen, each glyph with its style. */
  function StyledLine(line: string): (r: seq<(char, Style)>)
    ensures |r| == |line|
  {
    seq(|line|, k requires 0 <= k < |line| => (MarkGlyph(line[k]), CharStyle(line[k])))
  }

  /** The glyphs of one segment, each with the segment's style. */
  function SegmentCells(seg: Segment): (r: seq<(char, Style)>)
    ensures |r| == |seg.text|
  {
    seq(|seg.text|, k requires 0 <= k < |seg.text| => (seg.text[k], seg.style))
  }

  /** The glyphs of the segments, in order, each with its segment's style. */
  function Cells(segs: seq<Segment>): seq<(char, Style)>
  {
    if |segs| == 0 then [] else Cells(segs[..|segs| - 1]) + SegmentCells(segs[|segs| - 1])
  }

  lemma CellsSnoc(segs: seq<Segment>, seg: Segment)
    ensures Cells(segs + [seg]) == Cells(segs) + SegmentCells(seg)
  {
    assert (segs + [seg])[..|segs|] == segs;
  }

  lemma StyledPlainStep(line: string, i: nat, j: nat)
    requires i <= j <= |line|
    requires forall k :: i <= k < j ==> !IsMark(line[k])
    ensures StyledLine(line[..j]) == StyledLine(line[..i]) + SegmentCells(Segment(line[i..j], Plain))
  {
    assert forall k :: 0 <= k < j ==>
      StyledLine(line[..j])[k] == (StyledLine(line[..i]) + SegmentCells(Segment(line[i..j], Plain)))[k];
  }

  lemma StyledMarkStep(line: string, j: nat)
    requires j < |line| && IsMark(line[j])
    ensures StyledLine(line[..j + 1]) == StyledLine(line[..j]) + SegmentCells(MarkSegment(line[j]))
  {
    assert forall k :: 0 <= k <= j ==>
      StyledLine(line[..j + 1])[k] == (StyledLine(line[..j]) + SegmentCells(MarkSegment(line[j])))[k];
  }

  /**
   * The segments draw the first `i` characters of the line: their texts and
   * styled glyphs match, each is well formed, and no two plain ones touch.
   */
  predicate Drawn(line: string, i: nat, segs: seq<Segment>)
    requires i <= |line|
  {
    Texts(segs) == Shown(line[..i]) && Cells(segs) == StyledLine(line[..i])
    && (forall k :: 0 <= k < |segs| ==> WellFormed(segs[k]))
    && (forall k :: 0 <= k < |segs| - 1 ==> segs[k].style != Plain || segs[k + 1].style != Plain)
  }

  /** A marker-free run after a non-plain segment is drawn by one plain segment. */
  lemma DrawPlain(line: string, i: nat, j: nat, segs: seq<Segment>)
    requires i < j <= |line| && Drawn(line, i, segs)
    requires forall k :: i <= k < j ==> !IsMark(line[k])
    requires segs == [] || segs[|segs| - 1].style != Plain
    ensures Drawn(line, j, segs + [Segment(line[i..j], Plain)])
  {
    var plain := Segment(line[i..j], Plain);
    ShownPlainStep(line, i, j);
    StyledPlainStep(line, i, j);
    CellsSnoc(segs, plain);
    SegmentsStep(segs, plain);
    var next := segs + [plain];
    forall k | 0 <= k < |next| - 1
      ensures next[k].style != Plain || next[k + 1].style != Plain
    {
      if k < |segs| - 1 {
        assert next[k] == segs[k] && next[k + 1] == segs[k + 1];
      } else {
        assert next[k] == segs[|segs| - 1];
      }
    }
  }

  /** A marker is drawn by its own segment. */
  lemma DrawMark(line: string, j: nat, segs: seq<Segment>)
    requires j < |line| && IsMark(line[j]) && Drawn(line, j, segs)
    ensures Drawn(line, j + 1, segs + [MarkSegment(line[j])])
  {
    var mark := MarkSegment(line[j]);
    ShownMarkStep(line, j);
    StyledMarkStep(line, j);
    CellsSnoc(segs, mark);
    SegmentsStep(segs, mark);
    var next := segs + [mark];
    forall k | 0 <= k < |next| - 1
      ensures next[k].style != Plain || next[k + 1].style != Plain
    {
      if k < |segs| - 1 {
        assert next[k] == segs[k] && next[k + 1] == segs[k + 1];
      } else {
        assert next[k + 1] == mark;
      }
    }
  }

  /**
   * `logoLine`: the segments, read in order, show the line with `_` as a
   * blank on the shadow and `^`, `~` as upper half blocks; an empty line
   * yields no segment. Each glyph is drawn in its character's style, and
   * plain text is never split across two segments.
   */
  method LogoLine(line: string) returns (segs: seq<Segment>)
    ensures Texts(segs) == Shown(line)
    ensures Cells(segs) == StyledLine(line)
    ensures forall k :: 0 <= k < |segs| - 1 ==> segs[k].style != Plain || segs[k + 1].style != Plain
    ensures segs == [] <==> line == []
    ensures forall k :: 0 <= k < |segs| ==> WellFormed(segs[k])
    ensures |segs| <= 2 * |line|
  {
    segs := [];
    var i := 0;
    while i < |line|
      invariant i <= |line|
      invariant Drawn(line, i, segs)
      invariant |segs| > 0 && segs[|segs| - 1].style == Plain ==> i == |line|
      invariant segs == [] <==> i == 0
      invariant |segs| <= 2 * i
      decreases |line| - i
    {
      var m := FirstMark(line[i..]);
      var at := if m.None? then |line| else i + m.value;
      MarkFreeRun(line, i, m);
      if at > i {
        DrawPlain(line, i, at, segs);
        segs := segs + [Segment(line[i..at], Plain)];
      }
      assert Drawn(line, at, segs);
      if at < |line| {
        DrawMark(line, at, segs);
        segs := segs + [MarkSegment(line[at])];
        i := at + 1;
      } else {
        i := at;
      }
    }
    assert line[..i] == line;
  }

  // -- Stage badges --

  datatype StageState = Pending | Active | Completed | Errored

  /** The position in `STAGE_ORDER`; idle is not there. */
  function StageIndex(s: Step): int
  {
    match s
    case Tailscale => 0
    case OpenCode => 1
    case Publish => 2
    case Idle => -1
  }

  /** `stageState` for one stage, given the current atoms. */
  function StageStateOf(id: Step, phase: Phase, active: Step, missing: MissingBinary): StageState
  {
    if phase == Done then Completed
    else if phase == Install then
      var failedStep := if missing == MissingOpenCode then OpenCode else Tailscale;
      if id == failedStep then Errored else Pending
    else if phase == Error then
      if active == id then Errored
      else if StageIndex(active) > StageIndex(id) then Completed
      else Pending
    else if active == id && phase == Running then Active
    else if StageIndex(active) > StageIndex(id) then Completed
    else Pending
  }

  /** The badges of the three stages, in `STAGE_ORDER`. */
  function StageStates(phase: Phase, active: Step, missing: MissingBinary): (r: seq<StageState>)
    ensures |r| == 3
  {
    [StageStateOf(Tailscale, phase, active, missing), StageStateOf(OpenCode, phase, active, missing),
     StageStateOf(Publish, phase, active, missing)]
  }

  function StageAt(k: nat): Step
    requires k < 3
  {
    [Tailscale, OpenCode, Publish][k]
  }

  /** Done: every stage is done. Install: the stage of the missing binary failed, the rest wait. */
  lemma FinishedStages(active: Step, missing: MissingBinary)
    ensures StageStates(Done, active, missing) == [Completed, Completed, Completed]
    ensures StageStates(Install, active, missing)
            == if missing == MissingOpenCode then [Pending, Errored, Pending] else [Errored, Pending, Pending]
  {
  }

  /**
   * While running (or after a failure), the stages before the active one are
   * done, the active one is active (failed), the later ones wait.
   */
  lemma {:induction false} ProgressStages(phase: Phase, active: Step, missing: MissingBinary, k: nat)
    requires phase == Running || phase == Error
    requires active != Idle && k < 3
    ensures StageStates(phase, active, missing)[k] == Completed <==> k < StageIndex(active)
    ensures StageStates(phase, active, missing)[k] == Pending <==> k > StageIndex(active)
    ensures k == StageIndex(active) ==>
              StageStates(phase, active, missing)[k] == (if phase == Running then Active else Errored)
  {
    assert StageStates(phase, active, missing)[k] == StageStateOf(StageAt(k), phase, active, missing);
    assert StageIndex(StageAt(k)) == k;
  }

  /** With no active step, every stage waits. */
  lemma IdleStages(phase: Phase, missing: MissingBinary)
    requires phase != Done && phase != Install
    ensures StageStates(phase, Idle, missing) == [Pending, Pending, Pending]
  {
  }

  // -- Recent log --

  /** The log's lines, trimmed, with the empty ones dropped, in order. */
  function KeptLines(lines: seq<string>): seq<string>
  {
    if |lines| == 0 then []
    else
      var t := TrimSpace(lines[0]);
      (if t == "" then [] else [t]) + KeptLines(lines[1..])
  }

  /** `slice(-n)`: the last at most n elements. */
  function LastAtMost<T>(xs: seq<T>, n: nat): (r: seq<T>)
    ensures |r| == if |xs| <= n then |xs| else n
    ensures r == xs[|xs| - |r|..]
  {
    if |xs| <= n then xs else xs[|xs| - n..]
  }

  function RecentLines(log: string): seq<string>
  {
    LastAtMost(KeptLines(Split(log, '\n')), 4)
  }

  /** `recentLog`: the kept lines joined by newlines. */
  function RecentLog(log: string): string
  {
    Join(RecentLines(log), '\n')
  }

  /** A kept line is non-empty, trimmed, and free of newlines when its source lines are. */
  predicate CleanLine(t: string)
  {
    t != "" && '\n' !in t && !IsWhiteSpace(t[0]) && !IsWhiteSpace(t[|t| - 1])
  }

  lemma {:induction false} KeptLinesClean(lines: seq<string>)
    requires forall i :: 0 <= i < |lines| ==> '\n' !in lines[i]
    ensures |KeptLines(lines)| <= |lines|
    ensures forall t :: t in KeptLines(lines) ==> CleanLine(t)
  {
    if |lines| > 0 {
      KeptLinesClean(lines[1..]);
    }
  }

  /** A line is kept exactly when it is the non-empty trimmed form of some line of the input. */
  lemma {:induction false} KeptLinesMembers(lines: seq<string>, t: string)
    ensures t in KeptLines(lines) <==> t != "" && exists j :: 0 <= j < |lines| && TrimSpace(lines[j]) == t
  {
    if |lines| > 0 {
      KeptLinesMembers(lines[1..], t);
      if t != "" && (exists j :: 0 <= j < |lines| && TrimSpace(lines[j]) == t) {
        var j :| 0 <= j < |lines| && TrimSpace(lines[j]) == t;
        if j > 0 {
          assert TrimSpace(lines[1..][j - 1]) == t;
        }
      }
      if t in KeptLines(lines[1..]) {
        var j :| 0 <= j < |lines[1..]| && TrimSpace(lines[1..][j]) == t;
        assert TrimSpace(lines[j + 1]) == t;
      }
    }
  }

  /** Joining clean lines gives "" only for no lines, and splitting gives them back. */
  lemma JoinCleanLines(parts: seq<string>)
    requires forall i :: 0 <= i < |parts| ==> CleanLine(parts[i])
    ensures Join(parts, '\n') == "" <==> parts == []
    ensures parts != [] ==> Split(Join(parts, '\n'), '\n') == parts
  {
    if parts != [] {
      SplitJoin(parts, '\n');
      if |parts| > 1 {
        assert Join(parts, '\n') == parts[0] + ['\n'] + Join(parts[1..], '\n');
      }
    }
  }

  /**
   * `recentLog` shows the last at most four non-empty trimmed lines of the
   * log, and splitting it again gives exactly those lines.
   */
  lemma RecentLogLines(log: string)
    ensures |RecentLines(log)| <= 4
    ensures var kept := KeptLines(Split(log, '\n')); RecentLines(log) == kept[|kept| - |RecentLines(log)|..]
    ensures forall i :: 0 <= i < |RecentLines(log)| ==> CleanLine(RecentLines(log)[i])
    ensures RecentLog(log) == "" <==> RecentLines(log) == []
    ensures RecentLines(log) != [] ==> Split(RecentLog(log), '\n') == RecentLines(log)
  {
    var kept := KeptLines(Split(log, '\n'));
    KeptLinesClean(Split(log, '\n'));
    var recent := RecentLines(log);
    forall i | 0 <= i < |recent| ensures CleanLine(recent[i]) {
      assert recent[i] == kept[|kept| - |recent| + i];
      assert recent[i] in kept;
    }
    JoinCleanLines(recent);
  }

  // -- Widths and spinner --

  /** The width the terminal reports: absent, a finite number, or not finite. */
  datatype ReportedWidth = Unreported | Finite(value: int) | NotFinite

  /** `terminalWidth`: the reported width when finite and positive, else 80. */
  function TerminalWidth(w: ReportedWidth): (r: int)
    ensures r > 0
    ensures w.Finite? && w.value > 0 ==> r == w.value
    ensures !(w.Finite? && w.value > 0) ==> r == 80
  {
    match w
    case Finite(v) => if v > 0 then v else 80
    case _ => 80
  }

  /** `panelWidth`: four columns narrower than the terminal, clamped to [26, 104]. */
  function PanelWidth(width: int): (r: int)
    ensures 26 <= r <= 104
    ensures 30 <= width <= 108 ==> r == width - 4
    ensures width < 30 ==> r == 26
    ensures width > 108 ==> r == 104
  {
    var available := if 26 > width - 4 then 26 else width - 4;
    if 104 < available then 104 else available
  }

  predicate Compact(width: int)
  {
    PanelWidth(width) < 74
  }

  /** The compact layout is used exactly for reported widths from 1 to 77. */
  lemma CompactWidths(w: ReportedWidth)
    ensures Compact(TerminalWidth(w)) <==> w.Finite? && 0 < w.value < 78
  {
  }

  /** `spinnerGlyph`: the frame's glyph among `| / - \`. */
  function SpinnerGlyph(frame: nat): (g: string)
    ensures g in ["|", "/", "-", "\\"]
  {
    ["|", "/", "-", "\\"][frame % 4]
  }

  /** The spinner repeats every four frames and changes at every frame. */
  lemma SpinnerCycle(frame: nat)
    ensures SpinnerGlyph(frame + 4) == SpinnerGlyph(frame)
    ensures SpinnerGlyph(frame + 1) != SpinnerGlyph(frame)
  {
    assert (frame + 4) % 4 == frame % 4;
  }

  // -- Keyboard --

  const LocalCommand := "opencode attach http://127.0.0.1:4096"

  /** A key press: its name and whether ctrl was held. */
  datatype Key = Key(name: string, ctrl: bool)

  /** What a key press does. */
  datatype KeyAction =
    | Quit
    | StartFlow
    | CopyInstallCommand
    | OpenInstallDocs
    | CopyUrl
    | OpenUrl
    | CopyLocalCommand
    | ToggleQr
    | Ignore

  predicate IsQuitKey(key: Key)
  {
    key.name == "q" || key.name == "escape" || (key.ctrl && key.name == "c")
  }

  /** The `useKeyboard` handler's decision, checked in the source's order. */
  function KeyActionFor(phase: Phase, key: Key): KeyAction
  {
    if IsQuitKey(key) then Quit
    else if phase == Welcome && key.name == "return" then StartFlow
    else if phase == Install && key.name == "return" then StartFlow
    else if phase == Error && key.name == "return" then StartFlow
    else if phase == Install && (key.name == "1" || key.name == "2") then
      if key.name == "1" then CopyInstallCommand else OpenInstallDocs
    else if phase == Done && (key.name == "1" || key.name == "2" || key.name == "3" || key.name == "4") then
      if key.name == "1" then CopyUrl else if key.name == "2" then OpenUrl
      else if key.name == "3" then CopyLocalCommand else ToggleQr
    else Ignore
  }

  /**
   * Quitting works in every phase; Enter starts the flow only from the
   * welcome, install and error screens; the numbered actions belong to the
   * install and done screens.
   */
  lemma KeyDispatch(phase: Phase, key: Key)
    ensures IsQuitKey(key) ==> KeyActionFor(phase, key) == Quit
    ensures KeyActionFor(phase, key) == StartFlow <==>
              key.name == "return" && (phase == Welcome || phase == Install || phase == Error)
    ensures KeyActionFor(phase, key) in {CopyInstallCommand, OpenInstallDocs} ==> phase == Install
    ensures KeyActionFor(phase, key) in {CopyUrl, OpenUrl, CopyLocalCommand, ToggleQr} ==> phase == Done
    ensures phase == Running ==> KeyActionFor(phase, key) in {Quit, Ignore}
  {
  }

  /** The screen's own state beside the atoms and the flow. */
  class Screen {
    const registry: Registry
    const flow: Flow.FlowControl
    const platform: string
    var showTailscaleQr: bool
    /** How often the flow has been triggered. */
    var flowTriggers: nat

    constructor (registry: Registry, flow: Flow.FlowControl, platform: string)
      ensures this.registry == registry && this.flow == flow && this.platform == platform
      ensures !showTailscaleQr && flowTriggers == 0
    {
      this.registry := registry;
      this.flow := flow;
      this.platform := platform;
      showTailscaleQr := false;
      flowTriggers := 0;
    }

    /** `start`: clear the previous outcome, show the running screen, then trigger the flow. */
    method Start()
      modifies this, registry
      ensures registry.error == "" && registry.missingBinary == NoBinary
      ensures registry.url == "" && registry.log == "" && registry.phase == Running
      ensures registry.step == old(registry.step)
      ensures flowTriggers == old(flowTriggers) + 1 && showTailscaleQr == old(showTailscaleQr)
    {
      registry.error := "";
      registry.missingBinary := NoBinary;
      registry.url := "";
      registry.log := "";
      registry.phase := Running;
      flowTriggers := flowTriggers + 1;
    }

    /** `quit`: signal exit, then exit at once when no flow runs, else wait for it to stop. */
    method QuitScreen() returns (exitNow: bool)
      requires flow.Valid()
      modifies flow
      ensures flow.Valid() && flow.exitSignaled
      ensures exitNow <==> !old(flow.flowRunning)
      ensures flow.flowRunning == old(flow.flowRunning)
      ensures flow.holding == old(flow.holding) && flow.resolved == old(flow.resolved)
      // Without a running flow nothing waits; otherwise one new waiter joins the set.
      ensures !old(flow.flowRunning) ==> flow.waiters == old(flow.waiters)
      ensures old(flow.flowRunning) ==>
                |flow.waiters| == |old(flow.waiters)| + 1 && flow.waiters[..|old(flow.waiters)|] == old(flow.waiters)
                && flow.waiters[|old(flow.waiters)|] !in old(flow.waiters)
    {
      flow.SignalExit();
      var waiter;
      exitNow, waiter := flow.WaitForFlowStop();
    }

    /**
     * The keyboard handler: performs the key's action and returns the text
     * it copies or opens, if any.
     */
    method HandleKey(key: Key) returns (action: KeyAction, target: Option<string>)
      requires flow.Valid()
      modifies this, registry, flow
      ensures flow.Valid()
      ensures action == KeyActionFor(old(registry.phase), key)
      ensures action == Quit ==> flow.exitSignaled
      ensures action == Quit ==>
                flow.flowRunning == old(flow.flowRunning)
                && flow.holding == old(flow.holding) && flow.resolved == old(flow.resolved)
                && (!old(flow.flowRunning) ==> flow.waiters == old(flow.waiters))
                && (old(flow.flowRunning) ==>
                      |flow.waiters| == |old(flow.waiters)| + 1 && flow.waiters[..|old(flow.waiters)|] == old(flow.waiters)
                      && flow.waiters[|old(flow.waiters)|] !in old(flow.waiters))
      ensures action != Quit ==> unchanged(flow)
      ensures registry.step == old(registry.step)
      ensures action == StartFlow ==>
                registry.phase == Running && registry.error == "" && registry.url == "" && registry.log == ""
                && registry.missingBinary == NoBinary && flowTriggers == old(flowTriggers) + 1
      ensures action == ToggleQr ==> showTailscaleQr == !old(showTailscaleQr)
      ensures target.Some? <==> action in {CopyInstallCommand, OpenInstallDocs, CopyUrl, OpenUrl, CopyLocalCommand}
      ensures action == CopyInstallCommand ==>
                target == Some(ScreenGuide(old(registry.missingBinary), platform).installCommand)
      ensures action == OpenInstallDocs ==> target == Some(ScreenGuide(old(registry.missingBinary), platform).docsUrl)
      ensures action in {CopyUrl, OpenUrl} ==> target == Some(old(registry.url))
      ensures action == CopyLocalCommand ==> target == Some(LocalCommand)
      ensures action != StartFlow ==>
                registry.phase == old(registry.phase) && registry.url == old(registry.url)
                && registry.log == old(registry.log) && registry.error == old(registry.error)
                && registry.missingBinary == old(registry.missingBinary) && flowTriggers == old(flowTriggers)
      ensures action != ToggleQr ==> showTailscaleQr == old(showTailscaleQr)
    {
      action := KeyActionFor(registry.phase, key);
      target := None;
      match action {
        case Quit =>
          var exitNow := QuitScreen();
        case StartFlow =>
          Start();
        case CopyInstallCommand =>
          target := Some(ScreenGuide(registry.missingBinary, platform).installCommand);
        case OpenInstallDocs =>
          target := Some(ScreenGuide(registry.missingBinary, platform).docsUrl);
        case CopyUrl =>
          target := Some(registry.url);
        case OpenUrl =>
          target := Some(registry.url);
        case CopyLocalCommand =>
          target := Some(LocalCommand);
        case ToggleQr =>
          showTailscaleQr := !showTailscaleQr;
        case Ignore =>
      }
    }
  }
}
