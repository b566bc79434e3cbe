# tailcode decision logic in Dafny

This project models the decision logic of the tailcode setup wizard. The wizard:

- connects the machine to a tailnet with `tailscale`;
- starts a local `opencode serve`;
- publishes it with `tailscale serve`;
- shows the progress in a terminal UI.

Everything the program learns from the outside world is an oracle parameter of the model:

- exit codes of `tailscale ip`;
- the text of `tailscale up --qr` and of `tailscale serve status --json`;
- HTTP health responses;
- `Bun.which` lookups;
- whether a spawn succeeds;
- the output chunks a child streams.

Per-attempt oracles are functions `nat -> X` (the answer to attempt k), so no length precondition is needed.

The modules follow the source files:

| module | models |
|---|---|
| `Qr` (qr.dfy) | `src/qr.ts`. `trim`; `stripTerminalControl`, with the ANSI pattern as a backtracking matcher; `parseURL`; `qrCell`; the half-block loop of `renderQR` |
| `ServeStatus` (serve_status.dfy) | The parsing helpers of `src/services/tailscale.ts`: `parseConflictPort`, the mapping flattening, `pickRemoteUrl` |
| `Tailscale` (tailscale.dfy) | `ensure` and `publish` of `src/services/tailscale.ts` |
| `OpenCode` (opencode.dfy) | `start` of `src/services/opencode.ts` |
| `Process` (process.dfy) | What the managers use of `src/services/process.ts`: the chunk forwarding of `streamToAppender`, the rolling buffer fed by it, and `Effect.retryOrElse` under a bounded schedule |
| `Flow` (flow.dfy) | `src/flow.ts` as a class `FlowControl`. It holds `exitSignaled`, `flowRunning`, the waiter set and the flow's holding state, and writes a `State.Registry` |
| `State` (state.dfy), `Errors` (errors.dfy) | The atoms of `src/state.ts` and the error sum of `src/services/errors.ts` |
| `App` (app.dfy) | The view logic of `src/app.tsx`, with the keyboard handler in a class `Screen` |
| `Launcher` (launcher.dfy) | `bin/tailcode.ts` |
| `Showcase` (showcase.dfy) | `src/showcase.tsx`, with the screenbook state in a class `Screenbook` |
| `JsString` (js_string.dfy) | The JavaScript string built-ins these files rely on: `String(n)`, `indexOf`, `trim`, `toLowerCase`, `split` and `join` |
| `Wrappers` (wrappers.dfy) | Option and Result |

The imperative parts of the source are methods with loops and frames, proved against specification functions:

- the env loop in `start`;
- the streaming buffer;
- the retry loops;
- the mapping pushes in `appendMappingsFromWeb`;
- the `renderQR` loops;
- the `logoLine` loop;
- the flow's atom writes;
- the screenbook.

## Model

| member | source | states |
|---|---|---|
| Qr.Trim | src/qr.ts:8-11 | The result has length min(\|v\|, max) and is v itself when v is short enough |
| Qr.TrimIsSuffix | src/qr.ts:8-11 | The result is the suffix of v of that length |
| Qr.TrimIdempotent | src/qr.ts:8-11 | trim(trim(v, m), m) == trim(v, m) |
| Qr.TrimAppend | src/services/tailscale.ts:250-255 | Trimming after every append equals trimming once after appending everything, so a rolling buffer holds the last max characters of all output |
| Qr.EscapeAt | src/qr.ts:3-6 | A match of the ANSI pattern starts at an ESC or CSI introducer and spans at least two characters |
| Qr.StripEscapes | src/qr.ts:3-6 | Removing every global match never lengthens the text or adds characters, and leaves introducer-free text unchanged |
| Qr.StripCarriageReturns | src/qr.ts:19 | No `\r` remains; text without `\r` is unchanged |
| Qr.StripTerminalControl | src/qr.ts:18-20 | The result contains no `\r`, is no longer than the input, draws its characters from it, and equals the input when there is nothing to strip |
| Qr.FirstUrlAt | src/qr.ts:15 | The leftmost position where an http(s) URL match starts, or none |
| Qr.ParseURL | src/qr.ts:13-16 | None exactly when the stripped text has no match anywhere; otherwise the match at the first position that has one |
| Qr.UrlShape | src/qr.ts:15 | A match is `http://` or `https://` followed by at least one character that is neither whitespace nor `)` |
| Qr.QrCell | src/qr.ts:22-25 | False outside [0, size) on either axis; otherwise the truthiness of data[y*size+x], and false past the end of the data |
| Qr.Glyph | src/qr.ts:40-43 | The glyph is never a newline, and it is a space exactly when neither cell is set |
| Qr.QrRow | src/qr.ts:36-45 | A row has size+4 characters; character k is the glyph of cells (k-2, y) and (k-2, y+1) |
| Qr.QrRows | src/qr.ts:32-46 | There are ceil((size+4)/2) rows; row r is drawn from y = 2r-2; the two-cell border columns and the first row are blank |
| Qr.RenderRows | src/qr.ts:33-46 | The nested loops build exactly QrRows |
| Qr.RenderQR | src/qr.ts:27-49 | The text is the rows joined by `\n`, and splitting it on `\n` gives the rows back |
| Qr.RowsSplitBack | src/qr.ts:48 | split(join(rows)) == rows for the rendered rows |
| ServeStatus.FirstConflictAt | src/services/tailscale.ts:12 | The leftmost position where the case-insensitive phrase, whitespace and a digit run match, or none |
| ServeStatus.ParseConflictPort | src/services/tailscale.ts:11-14 | None exactly when the phrase matches nowhere; otherwise the decimal number captured at the first match |
| ServeStatus.ConflictPortReadBack | src/services/tailscale.ts:11-14 | A message holding the phrase in any case, a space and the decimal digits of n, followed by a non-digit, parses to n |
| ServeStatus.HandlerMappings | src/services/tailscale.ts:60-66 | One mapping per handler |
| ServeStatus.HandlerMappingsAt | src/services/tailscale.ts:60-66 | The i-th handler gives `https://host` + path, with `/` mapped to the empty path, and the handler's Proxy |
| ServeStatus.HostMappings | src/services/tailscale.ts:53-59 | A host contributes at least one mapping. Missing or empty Handlers give exactly `https://host` with no proxy; otherwise one mapping per handler |
| ServeStatus.WebMappings | src/services/tailscale.ts:50-68 | A Web map contributes at least one mapping per host |
| ServeStatus.WebMappingsAppend | src/services/tailscale.ts:53 | The mappings of two host lists in sequence are the mappings of the first, then those of the second |
| ServeStatus.OptionalWebMappings | src/services/tailscale.ts:50-51 | An absent Web contributes nothing |
| ServeStatus.NodeMappings | src/services/tailscale.ts:86-91 | Nodes without a Web contribute nothing |
| ServeStatus.HandlerMappingsHttps | src/services/tailscale.ts:62-65 | Every handler mapping is an https URL |
| ServeStatus.HostMappingsHttps | src/services/tailscale.ts:53-67 | Every mapping of a host is an https URL |
| ServeStatus.WebMappingsHttps | src/services/tailscale.ts:50-68 | Every mapping of a Web map is an https URL |
| ServeStatus.OptionalWebMappingsHttps | src/services/tailscale.ts:50-51 | Every mapping of an optional Web map is an https URL |
| ServeStatus.NodeMappingsHttps | src/services/tailscale.ts:86-91 | Every mapping of the node maps is an https URL |
| ServeStatus.StatusMappingsHttps | src/services/tailscale.ts:83-93 | Every mapping of a decoded status is an https URL |
| ServeStatus.AppendHostMappings | src/services/tailscale.ts:54-66 | The pushes for one host append exactly HostMappings to the caller's array |
| ServeStatus.AppendMappingsFromWeb | src/services/tailscale.ts:50-68 | The nested loops append exactly the Web map's mappings, and nothing for an absent Web |
| ServeStatus.ServeMappings | src/services/tailscale.ts:70-94 | No `{` or a failed decode gives []; otherwise the top-level Web, then each Foreground node's Web, then each Background node's Web |
| ServeStatus.ServeMappingsHttps | src/services/tailscale.ts:70-94 | Every parsed mapping is an https URL |
| ServeStatus.ParseServeMappings | src/services/tailscale.ts:70-94 | The three loops build exactly ServeMappings |
| ServeStatus.FindProxy | src/services/tailscale.ts:98 | The index of the first mapping whose proxy is the target, or none when no mapping has it |
| ServeStatus.PickRemoteUrl | src/services/tailscale.ts:96-102 | Any URL picked is an https URL |
| ServeStatus.PickRemoteUrlChoice | src/services/tailscale.ts:96-102 | None exactly when there are no mappings; otherwise the URL of the first exact proxy match, or else that of the first mapping |
| ServeStatus.SingleRootHandler | src/services/tailscale.ts:61-64 | A single `/` handler yields `https://host` with its proxy |
| Tailscale.TextOrEmpty | src/services/tailscale.ts:167-173 | A login command that times out or fails reads as the empty text |
| Tailscale.ProbeCode | src/services/tailscale.ts:158-163 | A probe timeout counts as exit code 1 |
| Tailscale.LoginLinesShape | src/services/tailscale.ts:175-182 | An empty login echoes nothing. Text without a URL echoes the prompt and at most 4000 characters plus a newline. A URL echoes the URL line and a QR code whose lines are the QR rows |
| Tailscale.EchoLogin | src/services/tailscale.ts:175-182 | The echo is LoginLines |
| Tailscale.AwaitConnection | src/services/tailscale.ts:184-191 | Connected exactly when some attempt among 1 + 80 exits 0; it stops at the first one, making between 1 and 81 attempts |
| Tailscale.Ensure | src/services/tailscale.ts:153-194 | Fails BinaryNotFound("tailscale") without a binary. A rejected probe spawn fails as a platform error. Exit 0 returns the binary at once. Otherwise it prints the notice and login echo, polls, and returns the binary or fails with the connection timeout message |
| Tailscale.LoginAndConnect | src/services/tailscale.ts:166-193 | The login echo, then the bounded poll's verdict |
| Tailscale.WaitPolls | src/services/tailscale.ts:207-229 | A proxy wait makes between 1 and 1 + 28 polls |
| Tailscale.WaitResult | src/services/tailscale.ts:207-229 | A found URL is an https URL |
| Tailscale.WaitResultNone | src/services/tailscale.ts:207-228 | The wait finds nothing exactly when no status read within the budget yields a URL |
| Tailscale.AnyUrlListedIff | src/services/tailscale.ts:96-101 | A poll succeeds exactly when its status lists some mapping, whatever that mapping proxies to |
| Tailscale.WaitTakesForeignUrl | src/services/tailscale.ts:207-211 | A first status whose mappings all proxy elsewhere ends the wait after one poll, with the first mapping's URL |
| Tailscale.WaitBuffer | src/services/tailscale.ts:250-256 | The retained serve output is at most 8000 characters |
| Tailscale.WaitEchoForwardsAll | src/services/tailscale.ts:251-256 | The echoed chunks are non-empty and spell out all the output streamed during the wait |
| Tailscale.AwaitProxy | src/services/tailscale.ts:258 | The poll loop with streaming yields WaitResult, WaitBuffer and WaitEcho |
| Tailscale.RetryServe | src/services/tailscale.ts:272-299 | A rejected retry spawn fails with an empty buffer. Otherwise it echoes the retry's output and gives the retry verdict (URL, conflict message naming both ports, or timeout) with the buffer at most 8000 characters |
| Tailscale.PublishFresh | src/services/tailscale.ts:240-299 | FreshOutcome: the publishing line comes first. A rejected spawn fails with nothing registered. A successful spawn is followed by its cleanup. On timeout with a conflict port in the buffer: the conflict line, off, one more spawn and the retry verdict; without one, the first verdict. The retry happens exactly when the first wait conflicted |
| Tailscale.Publish | src/services/tailscale.ts:197-300 | A status that already proxies the target is reused: its URL, the reuse line, no spawn, no cleanup and an empty buffer. Otherwise exactly FreshOutcome: result, log, effects and buffer. Every URL returned is https and the buffer stays at most 8000 characters |
| OpenCode.BuildChildEnv | src/services/opencode.ts:49-54 | The env holds exactly the defined parent variables plus the password key iff the password is non-empty, with their values |
| OpenCode.Start | src/services/opencode.ts:29-101 | A healthy server is reused with no lookup and no spawn. No binary fails BinaryNotFound("opencode"). Otherwise the lookup is followed by the spawn with `serve --hostname 127.0.0.1 --port <port>` and what Launch does |
| OpenCode.Launch | src/services/opencode.ts:47-100 | The env as above: the defined parent variables with their values, and the password when it is non-empty. A rejected spawn fails as a platform error. Otherwise every non-empty chunk is echoed and the buffer is the last 8000 characters. Health returns the handle; exhaustion kills, then fails with the buffer |
| OpenCode.AwaitHealth | src/services/opencode.ts:67-98 | Healthy iff one of the 1 + 40 attempts gets an ok response; the buffer and echo cover the output before the last attempt made |
| Process.ForwardedChunks | src/services/process.ts:38-45 | Forwarded chunks are non-empty, no more than the chunks, and spell the same text |
| Process.ForwardedAppend | src/services/process.ts:38-45 | Forwarding distributes over concatenation of the chunk stream |
| Process.Pump | src/services/opencode.ts:69-72 | The callback loop ends with the buffer equal to the last max characters of everything, and forwards exactly the non-empty chunks |
| Process.FirstSuccess | src/services/opencode.ts:89-98 | The first successful attempt within the budget, and no earlier success; none when every attempt fails |
| Process.AttemptsMade | src/services/tailscale.ts:148-150 | The number of attempts is between 1 and the budget |
| Process.Retry | src/services/tailscale.ts:184-191 | The retry loop stops at exactly FirstSuccess |
| Process.PumpStream | src/services/tailscale.ts:250-256 | The streaming fiber, observed after n attempts, has forwarded every non-empty chunk and holds the last max characters |
| Flow.AppendedLogKeepsBounds | src/flow.ts:19-23 | An empty stripped line leaves the log unchanged. Otherwise the log becomes the suffix of prev+clean of length min(\|prev+clean\|, 16000). The cap and the absence of `\r` are kept |
| Flow.AppendedLogAllKeepsBounds | src/flow.ts:19-23 | Any number of appends keep the log within 16000 characters and free of `\r` |
| Flow.AppendedLogAllConcat | src/flow.ts:19-23 | Appending two batches in turn equals appending them at once |
| Flow.MissingFor | src/flow.ts:85-89 | The missing binary is tailscale or opencode exactly for those names, else none |
| Flow.StepsRun | src/flow.ts:58-68 | Steps run in the order tailscale, opencode, publish; each runs only if the previous one succeeded |
| Flow.FirstFailure | src/flow.ts:58-68 | None iff all three managers succeed; otherwise the error of the last step run |
| Flow.FlowControl.constructor | src/flow.ts:26-29 | No exit signalled, no flow running, no waiters |
| Flow.FlowControl.Append | src/flow.ts:19-23 | The log becomes AppendedLog; no other atom changes |
| Flow.FlowControl.AppendAll | src/flow.ts:19-23 | The log becomes AppendedLogAll; no other atom changes |
| Flow.FlowControl.SignalExit | src/flow.ts:36-40 | The signal is completed once; a repeated call changes nothing |
| Flow.FlowControl.WaitForFlowStop | src/flow.ts:42-47 | Immediate iff no flow runs; otherwise a fresh waiter is added |
| Flow.FlowControl.ResolveShutdownWaiters | src/flow.ts:31-34 | Every registered waiter is resolved once, in order, and the set is emptied |
| Flow.FlowControl.Finish | src/flow.ts:103-108 | The flow stops running and every waiter is resolved |
| Flow.FlowControl.Fail | src/flow.ts:80-100 | BinaryNotFound sets error "<binary> is not installed", the missing binary and phase install. Any other error sets its message, no missing binary and phase error. Step, url and log are kept |
| Flow.FlowControl.RunStage | src/flow.ts:58-68 | Sets the step, echoes the stage's lines, and on failure shows it and ends the flow. On success phase, error, url and missing binary are kept and the flow keeps running |
| Flow.FlowControl.Run | src/flow.ts:49-110 | Runs StepsRun. On failure: step left at the failing stage, lines appended, failure shown, waiters resolved. On success: url, empty log, idle step, no missing binary, phase done, the error untouched; the flow holds until exit is signalled |
| Flow.FlowControl.Succeed | src/flow.ts:70-78 | The success writes, leaving the error untouched, then holding iff exit was not yet signalled |
| Flow.FlowControl.ExitAwaited | src/flow.ts:76-78 | Once exit is signalled the held flow ends and resolves its waiters |
| State.Registry.constructor | src/state.ts:8-13 | The atoms start at welcome, idle, empty strings and no missing binary |
| App.GetInstallGuide | src/app.tsx:45-97 | An OpenCode guide only for opencode; darwin and win32 get their variants, every other platform Linux |
| App.GuidesDistinct | src/app.tsx:45-97 | No guide is both an OpenCode and a Tailscale guide |
| App.ScreenGuide | src/app.tsx:206 | An OpenCode guide exactly when opencode is missing; no missing binary falls back to tailscale |
| App.FirstMark | src/app.tsx:105 | The first marker position, with no marker before it; none when the text has no marker |
| App.MarkSegment | src/app.tsx:120-138 | A marker draws as its one glyph in a shadow style |
| App.LogoLine | src/app.tsx:99-142 | The segment texts spell the line with `_` as space and `^`, `~` as `▀`; an empty line gives no segment; segments are non-empty, plain ones marker-free, at most 2\|line\| of them. Each glyph carries its character's style (markers their shadow style, everything else plain), and no two plain segments are adjacent |
| App.StageStates | src/app.tsx:360-381 | There is one badge per stage |
| App.FinishedStages | src/app.tsx:363-367 | Done: all done. Install: the missing binary's stage errored (opencode, else tailscale), the rest pending |
| App.ProgressStages | src/app.tsx:369-380 | Running and error phases: earlier stages done, later ones pending, the active one active or errored |
| App.IdleStages | src/app.tsx:369-380 | With step idle every stage is pending outside done and install |
| App.LastAtMost | src/app.tsx:253 | `slice(-n)`: the last min(\|xs\|, n) items |
| App.KeptLinesClean | src/app.tsx:249-252 | The kept lines are non-empty, trimmed and newline-free |
| App.KeptLinesMembers | src/app.tsx:249-252 | A line is kept iff it is the non-empty trim of some log line |
| App.JoinCleanLines | src/app.tsx:253 | Joining clean lines is empty iff there are none, and splits back into them |
| App.RecentLogLines | src/app.tsx:248-254 | The excerpt is the last at most 4 kept lines, joined by `\n` |
| App.TerminalWidth | src/app.tsx:233-236 | A finite positive width is kept; anything else is 80 |
| App.PanelWidth | src/app.tsx:238-241 | min(104, max(26, width-4)), always within [26, 104] |
| App.CompactWidths | src/app.tsx:243 | Compact iff the reported width is finite and between 1 and 77 |
| App.SpinnerGlyph | src/app.tsx:244-247 | The glyph is one of the four frames |
| App.SpinnerCycle | src/app.tsx:244-247 | The spinner repeats every four frames and changes every frame |
| App.KeyDispatch | src/app.tsx:292-345 | q, escape and ctrl+c quit in any phase. Enter starts only in welcome, install and error. The install keys act only in install, the done keys only in done, and nothing but quitting happens while running |
| App.Screen.constructor | src/app.tsx:198-217 | No QR toggle and no flow triggered yet |
| App.Screen.Start | src/app.tsx:278-290 | In the App rendered without props: clears error, missing binary, url and log, sets phase running, then triggers the flow |
| App.Screen.QuitScreen | src/app.tsx:261-273 | In the App rendered without props: signals exit; exits at once iff no flow runs, with no waiter added, otherwise one new waiter joins the set; whether a flow runs or holds, and the resolutions so far, are unchanged |
| App.Screen.HandleKey | src/app.tsx:292-345 | The action is KeyDispatch's. Start and toggle perform their writes. The copy and open targets are the guide's command and docs, the url or the local command. The step never changes; the flow changes only on quit, as QuitScreen says; the other atoms, the trigger count and the QR toggle change only through start and toggle |
| Launcher.ParseIntReadsBack | bin/tailcode.ts:16 | parseInt reads back String(n) for every integer n |
| Launcher.ParseIntOfDigits | bin/tailcode.ts:16 | parseInt of a digit string is its decimal value |
| Launcher.ParseIntOfSignedDigits | bin/tailcode.ts:16 | parseInt of `-` and digits is the negated value |
| Launcher.ParseIntNaN | bin/tailcode.ts:16-17 | parseInt is NaN iff, after leading whitespace and one sign, no digit follows |
| Launcher.ResolvePort | bin/tailcode.ts:13-18 | Always within 1..65535; 4096 when unset or empty; any other value is what parseInt read |
| Launcher.ResolvePortReadsBack | bin/tailcode.ts:13-18 | Every port 1..65535 written in decimal resolves to itself |
| Launcher.ResolvePortCases | bin/tailcode.ts:15-17 | An in-range parse is taken; NaN or out of range gives 4096 |
| Launcher.RunAttach | bin/tailcode.ts:35-52 | No binary: the message and no spawn. Otherwise the attach line, `opencode attach <target>` with the parent env, and its exit code |
| Launcher.Launch | bin/tailcode.ts:54-101 | Help first (exit 0). Both flags exit 1. Without --wizard a healthy server with a binary attaches. It prints the attaching line. With --attach and no attach: "not running" and the hint, exit 1. Otherwise re-exec with the marker set when it is unset, or the wizard when it is set. A healthy server without a binary is reported first. The output is stated exactly on every path. At most one child |
| Launcher.ChildNeverReExecs | bin/tailcode.ts:85-98 | The child's env has the marker set, so the child never re-execs again; its port resolves as the parent's |
| Showcase.SceneClearsFirst | src/showcase.tsx:39-108 | After applying a scene, url, error and missing binary are non-empty only where that scene writes them |
| Showcase.InstallScenes | src/showcase.tsx:78-94 | The install scenes set the missing binary equal to the step and error to "<binary> is not installed" |
| Showcase.DoneScenePreset | src/showcase.tsx:104-107 | Done, idle, empty log and a non-empty https url |
| Showcase.RunningSceneBadges | src/showcase.tsx:51-102 | The running and error scenes show the badges of their step |
| Showcase.TabLabelDropsRunning | src/showcase.tsx:127-134 | Running labels drop `running-`; welcome, error and done keep their name |
| Showcase.RunningLabelsAsArguments | src/showcase.tsx:110-134 | A running scene's tab label parses back to it |
| Showcase.NamedLabelsAsArguments | src/showcase.tsx:110-134 | Welcome, error and done labels parse back to themselves |
| Showcase.InstallLabelsAsArguments | src/showcase.tsx:110-134 | The install labels are not aliases and parse to welcome |
| Showcase.AbbreviationsAreNoAliases | src/showcase.tsx:119-132 | install-ts and install-oc fall through to welcome |
| Showcase.ParseSceneArgNormalises | src/showcase.tsx:110-125 | Parsing ignores surrounding whitespace and case |
| Showcase.NormalFormStable | src/showcase.tsx:113 | Trimming and lower-casing a lower-cased trimmed text changes nothing |
| Showcase.JsRemainder | src/showcase.tsx:147 | JavaScript `%` takes the sign of the dividend |
| Showcase.SceneIndex | src/showcase.tsx:145 | The index of a scene in the order is below 8 |
| Showcase.IndexOfSceneAt | src/showcase.tsx:17-26 | indexOf of the scene at position i is i |
| Showcase.SceneAtIndex | src/showcase.tsx:17-26 | The scene order has 8 entries and the scene is at its index |
| Showcase.SceneIndexInjective | src/showcase.tsx:17-26 | Distinct scenes have distinct indices |
| Showcase.CycleRight | src/showcase.tsx:144-150 | A right step moves to index (i+1) mod 8 |
| Showcase.CycleLeft | src/showcase.tsx:144-150 | A left step moves to index (i+7) mod 8 |
| Showcase.CycleUndo | src/showcase.tsx:144-150 | Left undoes right and right undoes left |
| Showcase.RightStepsIterate | src/showcase.tsx:144-150 | The closed form of k right steps agrees with stepping right k times |
| Showcase.RightStepsReturn | src/showcase.tsx:144-150 | Any multiple of 8 right steps returns to the start |
| Showcase.Screenbook.constructor | src/showcase.tsx:137 | The initial scene is the parsed argument, and the registry shows it |
| Showcase.Screenbook.ApplyScene | src/showcase.tsx:39-108 | The registry shows exactly the scene's atoms |
| Showcase.Screenbook.SetScene | src/showcase.tsx:139-142 | The current scene is set and applied |
| Showcase.Screenbook.Cycle | src/showcase.tsx:144-150 | The current scene moves by delta around the order and is applied |
| Showcase.Screenbook.HandleKey | src/showcase.tsx:152-164 | left cycles -1, right cycles +1, and the registry then shows the new scene's atoms. Other keys change neither the scene nor the registry |
| Showcase.Screenbook.Start | src/showcase.tsx:185 | Starting shows the running-tailscale scene |
| JsString.IntToString | src/services/opencode.ts:60 | `String(n)`: the decimal digits, with a minus sign for negatives |
| JsString.IndexOf | src/services/tailscale.ts:71 | The first position of the character; none iff it is absent |
| JsString.ToLowerAscii | src/showcase.tsx:113 | Lower-casing keeps the length and works character by character |
| JsString.TrimStartShape | bin/tailcode.ts:16 | parseInt's leading-whitespace skip removes exactly a whitespace prefix |
| JsString.TrimEndShape | src/app.tsx:251 | Trimming the end removes exactly a whitespace suffix |
| JsString.TrimSpace | src/app.tsx:251 | The trimmed text starts and ends with non-whitespace and draws its characters from the input |
| JsString.TrimSpaceShape | src/app.tsx:251 | The trimmed text is the infix of the input between a whitespace-only head and a whitespace-only tail |
| JsString.Split | src/app.tsx:250 | Split gives at least one part, none holding the separator, and joining them restores the text |
| JsString.SplitJoin | src/app.tsx:253 | Splitting a join of separator-free parts gives them back |

## Left out

- Concurrency and timing are not modelled: Effect scopes, fibers, `forkScoped`/`forkIn`, `Deferred`, `Schedule.spaced`, timeouts and the 5 s fallback timer.
  - Streamed output is a given sequence of chunks, `out(k)`, that arrive before poll k's verdict.
  - A timeout is a failed attempt; only the attempt counts are kept.
  - The forked streaming fiber is observed at the moment a wait ends.
- Re-triggering `flowFn` interrupts a held flow. That is not modelled: the flow holds until `ExitAwaited`.
- The effects `fetch`, `Bun.which`, `Bun.spawn`, `process.exit` and the SIGINT/SIGTERM handlers are oracle parameters or terminal outcomes.
- The re-exec child's working directory (`cwd`, the package root) is not part of the modelled child record; it only affects how Bun loads its configuration.
- `isHealthy` in bin/tailcode.ts is a given `HealthResponse`; the 600 ms abort is part of that oracle.
- `QRCode.create` and `JSON.parse` with the `Schema` decoding are foreign libraries and are not modelled.
  - The QR module matrix is an input.
  - Decoding is a parameter `decode` applied to the text from the first `{`. Its result is a datatype tree with `None` for a parse or decode failure.
- Object key order: a decoded JSON record is a sequence of entries in `Object.entries` order. The model does not re-derive JavaScript's integer-key-first ordering.
- The password arrives already unwrapped; `Redacted` is not modelled.
- Strings are sequences of Unicode scalar values, while JavaScript's `length` and `slice` count UTF-16 code units. The output caps of `trim` (8000, 4000, 16000 characters) and their cut points therefore differ from the source on text with characters above U+FFFF. Such a character counts once here but twice there, and the source can cut it in half.
- `toLowerCase` is ASCII-only. The only non-ASCII character that lowers into ASCII is the Kelvin sign, and no scene alias contains `k`, so the scene parser is unaffected.
- `Number.parseInt` is modelled on unbounded integers. A digit string too long for a double is rounded in JavaScript, but it stays above 65535 either way, so `resolvePort` gives the same port.
- The `-1` branch of `cycle` (an unknown current scene) is unreachable because the current scene is always a `Scene`. The model has no such value.
- Clipboard and browser helpers in src/qr.ts (`copyToClipboard`, `openInBrowser`) spawn processes.
  - The key handler returns the text it would copy or the URL it would open.
  - Their flash feedback is not modelled.
- Layout, colours and the JSX tree of src/app.tsx and src/showcase.tsx are not modelled, nor is the console banner of the showcase.
  - `logoLine` is modelled by the text and style of its segments.
  - The bold attribute is not modelled.
- src/services/config.ts, src/renderer.ts, src/main.tsx, src/runtime.ts and build.ts are not part of this model. The port the flow uses is a parameter.
- src/services/process.ts contributes only what the managers observe: spawn success or rejection, exit codes and decoded chunks. The scope-closure process-group kill is library and OS behaviour.
- Flow.FlowControl.Run: the three manager calls are stage outcomes (their lines and a success or error). Those outcomes are not tied to the Tailscale and OpenCode methods inside one method, so the flow is proved for any outcome the managers can produce.
- ServeStatus.ParseConflictPort: the captured digits are read as an exact natural number, while `Number(match[1])` rounds to a double. Beyond 2^53 the source's value differs, and from 10^21 up `ConflictLine` and `ClaimFailedMessage` would print it in exponent form. `ConflictPortReadBack` holds only for the exact reading. Tailscale names only TCP ports, at most 65535, where both readings agree.
- App.Screen.Start, App.Screen.QuitScreen, App.Screen.HandleKey: the class is the App rendered without props, as src/main.tsx does. With an `onStart` prop, `start` calls it and does nothing else; the screenbook's `onStart` is `Showcase.Screenbook.Start`. The `onQuit` prop (the screenbook's exits with code 0) and the on-mount reset of the phase to welcome, skipped when `resetToWelcomeOnMount` is false, are not modelled.
- App.TerminalWidth: the reported width is an integer or absent/non-finite. A fractional width, which `Number(...)` would keep and the layout would then use, is not modelled.
- Tailscale.Ensure: a probe spawn rejected by the platform is kept as a `PlatformError`, which the source lets propagate. A rejected spawn inside the later polls is an ordinary failed attempt.
