# OpenShift host diagnostics: a verified model of its rule engines

This project models the decision logic of the OpenShift "diagnostics" tool, a
health checker for a host of the platform. It covers these parts:

- the registry and runner that pick diagnostics by "area.name" tokens and run each one
  (`Cmd`);
- the diagnostic that scans a systemd unit's journal back to the unit's most recent
  start against an ordered list of one-shot log matchers (`Systemd`);
- the client-configuration checks: context lookup, context reporting and the
  classifier that explains a failed contact with the master (`Client`);
- the leveled log with its threshold (`Log`) and the JSON array logger (`JsonLog`);
- discovery, which fills in the Environment the diagnostics read. It covers the
  `systemctl show` Key=Value parser and unit map (`DiscoverySystemd`), the kubeconfig
  search and load (`DiscoveryConfig`), and the executable, version and older kubeconfig
  logic (`Discovery`).

The repository's files come from different revisions, so each source file has its own
module. Two modules are shared: `Types` holds the records, and `Report` holds the
leveled `Emission(level, text)` that the callers of the log package produce. `Text`
writes out the Go string functions the code relies on: `strings.SplitN(s, sep, 2)`,
`strings.Split`, `strings.Contains` and the `%d` verb of `fmt.Sscanf`. `Host` gathers
the operating-system oracles.

What a diagnostic or a discovery step logs is a sequence of emissions. A method that
loops in the source is a Dafny method with loop invariants, and its `ensures` ties
its result to a specification function. The properties are proved about those
functions as lemmas. The matcher scan works on an `array` copy of the unit's matchers
and splices it in place (`Systemd.RemoveAt`). The log threshold, the JSON logger and
the Environment that discovery fills in are classes whose methods update their fields.

Oracles (parameters) stand in for everything outside the code:

- regular expressions: `RegexOracle`, which gives a pattern and a text their leftmost
  match with its submatches, or None;
- the JSON decoding of a journal line: `Decoder`;
- the journal stream of a unit: `Journal`, the lines newest first, or None when
  `journalctl` cannot start;
- the output of `systemctl show <unit>`;
- `exec.LookPath`, `os.Stat`, running `<path> version`, `os.Getenv`, `os.Getwd`,
  `os.Open`, `ioutil.ReadAll` and `clientcmd.Load` (the `Host` record);
- `runtime.GOOS`;
- the outcome of a diagnostic's Condition or Run, which returns or panics (`Types.Outcome`);
- the order in which Go ranges over a map.

## Model

| member | source | states |
|---|---|---|
| `Text.SplitFirst` | diagnostics/cmd/cmd.go:76-81 | SplitN(s, sep, 2) gives two parts exactly when sep occurs; the first part holds no sep, and first + sep + second is the input |
| `Text.SplitFirstJoin` | diagnostics/discovery/systemd.go:42-44 | a line "key=value" whose key has no "=" splits back into that key and the whole value, further "=" included |
| `Text.JoinSplit` | diagnostics/discovery/systemd.go:41 | joining the lines strings.Split produced gives back the output |
| `Text.SplitJoin` | diagnostics/discovery/systemd.go:41 | splitting joined lines that hold no newline gives back the lines |
| `Text.ScanIntOfIntToString` | diagnostics/discovery/systemd.go:66 | the %d verb reads back any 64-bit integer printed in decimal and leaves the rest of the input |
| `Log.Logger.constructor` | diagnostics/log/log.go:13 | the threshold starts at Info and nothing is printed |
| `Log.Logger.SetLevel` | diagnostics/log/log.go:15-17 | the threshold is replaced and nothing else changes |
| `Log.Logger.Log` | diagnostics/log/log.go:19-23 | the message is printed exactly when its level is at most the threshold; the threshold is unchanged |
| `Log.Logger.Error` | diagnostics/log/log.go:25-27 | logs at ErrorLevel (0) |
| `Log.Logger.Warn` | diagnostics/log/log.go:29-31 | logs at WarnLevel (1) |
| `Log.Logger.Info` | diagnostics/log/log.go:33-35 | logs at InfoLevel (2) |
| `Log.Logger.Debug` | diagnostics/log/log.go:37-39 | logs at DebugLevel (3) |
| `Log.TranscriptIsFiltered` | diagnostics/log/log.go:19-23 | a run of calls at a fixed threshold prints the messages of exactly the calls whose level is at most the threshold, in call order |
| `Log.TranscriptPicks` | diagnostics/log/log.go:19-23 | the printed lines are a subsequence of the messages, taken at exactly the positions of the calls at or below the threshold, in increasing order |
| `Log.Session` | diagnostics/log/log.go:15-39 | after SetLevel(t), a sequence of log calls prints their transcript at t |
| `JsonLog.JsonLogger.constructor` | diagnostics/log/json.go:12-16 | a new logger has neither started nor finished and has printed nothing |
| `JsonLog.JsonLogger.Write` | diagnostics/log/json.go:18-29 | prints "[" before the first object and "," before every later one, then the object of exactly the message and the level name; logStarted becomes true and logFinished is kept |
| `JsonLog.JsonLogger.Finish` | diagnostics/log/json.go:30-37 | after writes it closes the array, so the output is "[" obj ("," obj)* "]"; with no writes it prints "[]" once and a repeated Finish prints nothing more; logFinished is set |
| `JsonLog.OpeningFrames` | diagnostics/log/json.go:18-28 | N >= 1 writes print "[" and then the N objects separated by "," |
| `JsonLog.TwoWrites` | diagnostics/log/json.go:18-37 | two writes and a Finish print a two-element array |
| `JsonLog.NothingWritten` | diagnostics/log/json.go:30-37 | Finish twice with no write prints exactly "[]" once |
| `Systemd.FirstMatch` | diagnostics/systemd/systemd.go:121-123 | the position found is a matcher whose regexp matches the message, and no earlier working matcher matches; None when none matches |
| `Systemd.Remove` | diagnostics/systemd/systemd.go:130 | removing the fired matcher keeps the others in their relative order |
| `Systemd.Advance` | diagnostics/systemd/systemd.go:114-133 | one journal entry yields at most one step and leaves a valid working list |
| `Systemd.RenderAll` | diagnostics/systemd/systemd.go:116-129 | each step becomes one emission: a fired matcher at its own level, with the prelude naming the unit and the message followed by Interpret(raw line, submatches) when set and the Interpretation otherwise; an undecodable line at Debug |
| `Systemd.RemoveAt` | diagnostics/systemd/systemd.go:130 | the in-place splice append(a[:i], a[i+1:]...) leaves the live prefix without element i, the rest in order |
| `Systemd.FirstHit` | diagnostics/systemd/systemd.go:121-122 | the inner loop stops at the first matcher whose regexp matches, or at the end |
| `Systemd.ScanEntry` | diagnostics/systemd/systemd.go:114-133 | the loop body for one line stops exactly at the start message, and otherwise emits and splices the array as Advance says |
| `Systemd.MatchLogsSinceLastStart` | diagnostics/systemd/systemd.go:88-136 | logs one Error and scans nothing when journalctl cannot start; otherwise logs exactly the scan of the journal with a private copy of the matchers |
| `Systemd.FiredFromWorkingList` | diagnostics/systemd/systemd.go:121-132 | only working matchers fire, each at most as often as it is in the working list |
| `Systemd.EachMatcherFiresAtMostOnce` | diagnostics/systemd/systemd.go:112-133 | in one scan each matcher fires at most once, so there are at most len(unit.LogMatchers) matches |
| `Systemd.ScanStopsAtStart` | diagnostics/systemd/systemd.go:118-120 | the first decoded entry matching StartMatch ends the scan: it and every older entry are never tested against matchers |
| `Systemd.UndecodableEntriesSkipped` | diagnostics/systemd/systemd.go:115-116 | an undecodable entry changes nothing but a Debug note: the matches are those of the decodable entries alone |
| `Systemd.ScanLength` | diagnostics/systemd/systemd.go:113-135 | at most one emission per journal entry |
| `Systemd.AdvanceFires` | diagnostics/systemd/systemd.go:121-131 | on an entry the earliest working matcher that matches fires with its submatches and leaves the working list |
| `Systemd.Condition` | diagnostics/systemd/systemd.go:68-76 | skips without systemd, else skips without an openshift binary, else runs; there is a reason exactly when it skips |
| `Systemd.UnitOutput` | diagnostics/systemd/systemd.go:79-82 | a unit is announced and scanned exactly when its record is enabled or active |
| `Systemd.UnrecordedUnitSkipped` | diagnostics/systemd/systemd.go:79 | a unit missing from SystemdUnits has the zero record and is not scanned |
| `Systemd.Gated` | diagnostics/systemd/systemd.go:78-83 | every unit kept is enabled or active |
| `Systemd.GatedKeepsOrder` | diagnostics/systemd/systemd.go:78-83 | a unit is kept exactly when it is enabled or active, and the kept units keep their unitLogSpecs order |
| `Systemd.RunOutputIsGatedScans` | diagnostics/systemd/systemd.go:78-84 | Run's output is the scans of exactly the gated units, in order |
| `Systemd.RunUnits` | diagnostics/systemd/systemd.go:78-83 | the loop over units logs what RunOutput describes |
| `Systemd.Run` | diagnostics/systemd/systemd.go:77-84 | Run checks the units of unitLogSpecs in order |
| `Systemd.Diagnostics` | diagnostics/systemd/systemd.go:65-86 | the area registers AnalyzeSystemdLogs, with a Condition |
| `Cmd.AllDiags` | diagnostics/cmd/cmd.go:72 | the registry has exactly the areas "client" and "systemd" |
| `Cmd.RunDiagnostic` | diagnostics/cmd/cmd.go:100-122 | logs what Course describes: the skip Notice, or the running Notice then Run, and one Error for a panic of either |
| `Cmd.Announce` | diagnostics/cmd/cmd.go:119-121 | the running Notice precedes the single Run, and a panic adds one Error |
| `Cmd.SkipNeverRuns` | diagnostics/cmd/cmd.go:107-117 | a skipped diagnostic's output does not depend on Run and ends with exactly one more Notice, the skip message |
| `Cmd.RunAnnouncedOnce` | diagnostics/cmd/cmd.go:119-121 | a diagnostic that is not skipped is announced by one running Notice right after its Condition's output; a panic of Run adds exactly one Error |
| `Cmd.ConditionPanicReported` | diagnostics/cmd/cmd.go:101-106 | a panic in Condition ends in one Error naming the diagnostic, and nothing is announced |
| `Cmd.SkipTextInjective` | diagnostics/cmd/cmd.go:109-115 | the skip message tells its reason: different reasons, an empty one included, give different messages |
| `Cmd.Resolve` | diagnostics/cmd/cmd.go:76-86 | a token resolves only if it has a ".", split at the first one, and the area holds the name |
| `Cmd.ResolveToken` | diagnostics/cmd/cmd.go:76-86 | "area.name" with a dot-free area resolves exactly when the area holds the name, which may contain dots |
| `Cmd.UnknownTokenNotice` | diagnostics/cmd/cmd.go:77-85 | a token that names nothing yields one "no such diagnostic" Notice and the list goes on |
| `Cmd.TokensIsolated` | diagnostics/cmd/cmd.go:75-89 | whatever one token leads to, the later tokens are processed as they would be on their own |
| `Cmd.PanicThenNextRuns` | diagnostics/cmd/cmd.go:100-106 | a diagnostic whose Run panics ends in one Error, and the next listed diagnostic still runs |
| `Cmd.Diagnose` | diagnostics/cmd/cmd.go:71-98 | with a list, the tokens are processed in list order; with none, every diagnostic of every area runs once, in the map order taken |
| `Cmd.RunSelected` | diagnostics/cmd/cmd.go:75-89 | the loop over the token list logs what SelectedOutput describes |
| `Cmd.RunAll` | diagnostics/cmd/cmd.go:92-96 | the loop over the areas logs what AllOutput describes |
| `Cmd.RunArea` | diagnostics/cmd/cmd.go:93-95 | the loop over one area's diagnostics logs each once in the order visited |
| `DiscoverySystemd.AttributesKeys` | diagnostics/discovery/systemd.go:41-46 | a key is in the attribute map exactly when some line sets it; lines without "=" set nothing |
| `DiscoverySystemd.AttributesLastWins` | diagnostics/discovery/systemd.go:41-46 | a key's value comes from the last line setting it and keeps any further "=" |
| `DiscoverySystemd.UnitFromShow` | diagnostics/discovery/systemd.go:35-68 | Exists iff the command succeeded and LoadState is "loaded"; otherwise every other field is blank; Enabled iff UnitFileState is "enabled"; Active iff ActiveState is "active"; ExitStatus is StatusErrno read as an integer, or 0 |
| `DiscoverySystemd.NotesLevels` | diagnostics/discovery/systemd.go:37-65 | a failed systemctl gives exactly one Error; otherwise every note is at Debug |
| `DiscoverySystemd.InactiveNoteReportsStatus` | diagnostics/discovery/systemd.go:59-66 | a stopped unit is reported with the exit status its record holds |
| `DiscoverySystemd.ExitStatusReportedAsZero` | diagnostics/discovery/systemd.go:63-66 | as written, a stopped unit with StatusErrno 3 is reported with exit code 0 |
| `DiscoverySystemd.AsWrittenDiffersOnlyWhenStopped` | diagnostics/discovery/systemd.go:59-66 | the notes as written equal the corrected notes exactly unless the unit exists, is not running and has a non-zero exit status |
| `DiscoverySystemd.NotActiveTextInjective` | diagnostics/discovery/systemd.go:63-64 | the "not running" note determines the exit status it reports |
| `DiscoverySystemd.ParseAttributes` | diagnostics/discovery/systemd.go:40-46 | the loop fills the attribute map that Attributes describes |
| `DiscoverySystemd.DiscoverSystemdUnit` | diagnostics/discovery/systemd.go:35-69 | the record is UnitFromShow, and the notes are the ones that say so |
| `DiscoverySystemd.ShowRoundTrip` | diagnostics/discovery/systemd.go:40-66 | parsing the listing of an existing unit's record gives back that record |
| `DiscoverySystemd.DiscoveredExactly` | diagnostics/discovery/systemd.go:24-31 | exactly the existing units among the names are added, each under its own name; other entries are unchanged |
| `DiscoverySystemd.RecordUnits` | diagnostics/discovery/systemd.go:25-30 | the loop adds the existing units to SystemdUnits and changes nothing else in the Environment |
| `DiscoverySystemd.DiscoverSystemd` | diagnostics/discovery/systemd.go:14-33 | without an openshift binary or without systemd nothing changes and nothing is logged; otherwise the ten fixed units are probed |
| `Client.Project` | diagnostics/client/client.go:216-219 | the project is the namespace, or "default" when it is empty |
| `Client.TestContext` | diagnostics/client/client.go:206-225 | success iff the context and its cluster are defined; "not defined" for a missing context; both names for a missing cluster; server, user and project otherwise |
| `Client.TestContextIsLocal` | diagnostics/client/client.go:206-225 | the verdict reads only that context and the cluster it names |
| `Client.ContextsCondition` | diagnostics/client/client.go:16-21 | KubeconfigContexts is skipped iff there is no Kubeconfig |
| `Client.ContextReport` | diagnostics/client/client.go:28-36 | a non-current context is reported at Info when usable and at Warn otherwise |
| `Client.CurrentNote` | diagnostics/client/client.go:39-57 | the closing report is Info iff the current context exists and is usable, and Error otherwise |
| `Client.ContextsRun` | diagnostics/client/client.go:22-58 | the Run logs the heading, one note per non-current context and the current-context report |
| `Client.ContextsLoop` | diagnostics/client/client.go:27-38 | the loop reports the non-current contexts and keeps the current one's result |
| `Client.LoopReportsNonCurrent` | diagnostics/client/client.go:27-38 | the loop's notes are one report per non-current context, in the order visited |
| `Client.NonCurrentEnumerates` | diagnostics/client/client.go:27-38 | visiting each context once visits each non-current context exactly once |
| `Client.ContextsReport` | diagnostics/client/client.go:22-58 | each non-current context is reported exactly once, then the current context closes the report |
| `Client.ContextsErrors` | diagnostics/client/client.go:39-57 | the Run logs exactly one Error unless the current context exists and is usable, and then none |
| `Client.Classify` | diagnostics/client/client.go:81-197 | the reason is the first case of the fixed order whose test holds, else the default; an invalid cert name reports the last submatch |
| `Client.FirstMatchingCase` | diagnostics/client/client.go:81-197 | the first case to hold is unique, so any reason described that way is Classify's |
| `Client.UnknownAuthorityBeatsCertName` | diagnostics/client/client.go:82-120 | a message naming the unknown authority is never explained by a later case |
| `Client.ContactOutput` | diagnostics/client/client.go:68-201 | any error yields exactly one Error with its classified reason; no error yields exactly one Info |
| `Client.Diagnostics` | diagnostics/client/client.go:13-204 | the area registers KubeconfigContexts with a Condition and ContactMaster without one; the contexts are visited in an order that lists each one exactly once, as ranging over the map does |
| `DiscoveryConfig.OpenKubeconfig` | diagnostics/discovery/config.go:105-121 | an empty path returns nil silently; a file that opens is returned with one Info; a failure logs only a Debug note carrying the open error without errmsg, and otherwise one Error chosen by failure kind |
| `DiscoveryConfig.OpenErrorsDiffer` | diagnostics/discovery/config.go:112-118 | does-not-exist, permission and other failures give different Errors |
| `DiscoveryConfig.TryInOrder` | diagnostics/discovery/config.go:79-87 | the result is the first place that opens, and nothing when none does |
| `DiscoveryConfig.Places` | diagnostics/discovery/config.go:72-87 | only the config flag path when set (with its error message), else only $KUBECONFIG when set (with its message), else pwd/.kubeconfig then the home configuration directory, both silent; the older search in discovery.go uses the same order with $HOME itself |
| `DiscoveryConfig.AdminProbe` | diagnostics/discovery/config.go:89-98 | a generated configuration that opens gives exactly one Warn |
| `DiscoveryConfig.SearchStandardPlaces` | diagnostics/discovery/config.go:79-87 | the working directory is tried, then $HOME/.kube |
| `DiscoveryConfig.ProbeAdmin` | diagnostics/discovery/config.go:89-98 | the generated configuration is opened, closed and warned about |
| `DiscoveryConfig.FindKubeconfig` | diagnostics/discovery/config.go:56-100 | the search as Find describes it |
| `DiscoveryConfig.FindPrecedence` | diagnostics/discovery/config.go:72-99 | a flag or $KUBECONFIG path is the only place tried, with no fallback; otherwise pwd/.kubeconfig wins over $HOME/.kube/.kubeconfig, and either wins over the generated paths; a generated path is never returned, and each one that opens adds one Warn |
| `DiscoveryConfig.Load` | diagnostics/discovery/config.go:24-51 | no file gives a Warn; a read failure gives an Error carrying the read error, a parse failure one carrying the parse error; success gives the parsed configuration and an Info |
| `DiscoveryConfig.ReadKubeconfig` | diagnostics/discovery/config.go:23-52 | env.Kubeconfig is set only on a successful load, and nothing else in the Environment changes |
| `Discovery.OsDiscovery` | diagnostics/discovery/discovery.go:29-39 | the OS is recorded; HasSystemd and HasBash can be set only on linux, when the tool is found |
| `Discovery.Base` | diagnostics/discovery/discovery.go:63 | filepath.Base is never empty and holds no slash except for "/" |
| `Discovery.BaseOfJoin` | diagnostics/discovery/discovery.go:63 | the base name of dir/name is name |
| `Discovery.FindExecFor` | diagnostics/discovery/discovery.go:90-102 | the PATH lookup of cmd; cmd+".exe" only on windows and only after cmd fails; "" otherwise |
| `Discovery.ExeOnlyOnWindows` | diagnostics/discovery/discovery.go:95-101 | off windows the ".exe" name is never consulted |
| `Discovery.FindExecAndLog` | diagnostics/discovery/discovery.go:61-86 | a flag path with the wrong base name gives one Error and ""; a correctly named one is returned iff executable, else one Error saying whether the file does not exist or is not executable; without a flag the PATH result with an Info, or "" with a Warn |
| `Discovery.ScanVersion` | diagnostics/discovery/discovery.go:113 | a successful "%s v%d.%d.%d" read has a non-empty name |
| `Discovery.VersionRoundTrip` | diagnostics/discovery/discovery.go:113 | the line "name vX.Y.Z" reads back as the name and Version{X,Y,Z} |
| `Discovery.GetExecVersion` | diagnostics/discovery/discovery.go:106-139 | a successful parse returns the version with one Info; a parse or exec failure gives one Error and the zero version |
| `Discovery.GetExecVersionReads` | diagnostics/discovery/discovery.go:107-115 | an executable that prints a well-formed version line is credited with exactly that version |
| `Discovery.LocateReadsOnlyFound` | diagnostics/discovery/discovery.go:45-52 | the path is what findExecAndLog gives; a version is read only from a path found, otherwise the old version stays; the output is the finder's note then, when a path was found, the version note |
| `Discovery.LocateExec` | diagnostics/discovery/discovery.go:45-52 | the statements of one execDiscovery step give exactly the path, version and notes of `Locate`, whose meaning `LocateReadsOnlyFound` states |
| `Discovery.ExecDiscovery` | diagnostics/discovery/discovery.go:43-57 | osc, then openshift, are located; a mismatch Warn comes iff both versions are non-zero and unequal |
| `Discovery.NoMismatchWithoutBoth` | diagnostics/discovery/discovery.go:53-55 | a zero version never causes the mismatch warning |
| `Discovery.OlderLoad` | diagnostics/discovery/discovery.go:168-183 | no file gives a Warn; a read failure gives one Error carrying the read error, a YAML failure one carrying the YAML error; success sets the configuration silently |
| `Discovery.LoadFound` | diagnostics/discovery/discovery.go:168-183 | Kubeconfig is set only on success |
| `Discovery.ReadKubeconfig` | diagnostics/discovery/discovery.go:148-184 | the older search and load; env.Kubeconfig is set only on success |
| `Discovery.OlderPrecedence` | diagnostics/discovery/discovery.go:150-167 | the flag path, else $KUBECONFIG, is the only place tried; otherwise pwd wins over $HOME |
| `Discovery.Run` | diagnostics/discovery/discovery.go:19-25 | discovery starts from the flags and fills in the OS, each executable's path and version as Locate finds them, and the configuration the older search loads; the output is the executable notes, the mismatch Warn, then the search and load notes; SystemdUnits stays empty |

## Left out

- Process, file and environment access are parameters or oracles: `journalctl`, `systemctl show`, `<path> version`, `exec.LookPath`, `os.Stat`, `os.Open`, `ioutil.ReadAll`, `os.Getenv`, `os.Getwd` and `runtime.GOOS`. Closing files and pipes (`defer file.Close()`, `cmd.Wait()`) has no observable effect in the model and is not modelled.
- Go RE2 semantics are not modelled: a regexp is an opaque `RegexOracle`. The `encoding/json` decoding of a journal line is an opaque `Decoder`. `clientcmd.Load`, `yaml.Unmarshal` and `json.MarshalIndent` are opaque functions.
- A `bufio.Scanner` error (a line over 64 KiB ends the stream early) is not modelled: the journal is the sequence of lines the scanner yields. The source ignores the error too.
- The multi-paragraph explanatory texts (ContactMaster's reasons, the admin-path warning, the undefined-current-context error, the kubeconfig YAML error) keep only their opening sentence and the values they interpolate. The level, the number of emissions and the distinguishing tokens are kept.
- Error payloads printed with `%T`/`%v`/`%#v` are abstract strings: the `detail` of a failed `version` run, and `Host.readError` and `Host.loadError` for a kubeconfig that cannot be read or parsed, and the `detail` of an `OpenError` for one that cannot be opened. `%v` and `%#v` renderings of the same error are not told apart. The message about a journal that cannot be queried omits the error.
- Systemd.UndecodableText: the Debug note for a journal line that does not decode shows the line as text and omits the decoding error. The source prints the line's bytes with `%v`, which Go renders as a list of decimal byte values, and appends "Got error (%T) %v" with the error. `Decoder` yields no error value, so the model has none to print.
- Discovery.Base and Discovery.PathListText follow Unix path syntax whatever `goos` is: "/" separates path elements and ":" separates PATH entries. On windows Go's `filepath.Base` also splits on `\` and drops the volume name, and the PATH list is separated by ";". So with `goos == "windows"` a flag such as `C:\bin\osc` is rejected for its name where the source would go on to look it up. The source's own comment at diagnostics/discovery/discovery.go:44 marks non-Linux systems as unfinished.
- Discovery.GetExecVersion: the ExitError message carries the whole output instead of `log.LimitLines(out, 5)`.
- Client.ContextsRun: `log.Infof(ccResult)` uses the result as a format string, so a `%` in a context name would be rewritten. The model logs the text verbatim.
- ContactMaster's project-list request through `resource.NewBuilder` is network I/O. Its result is a parameter (`request`), and only the error classifier is modelled.
- Go map iteration order is nondeterministic. Where the source ranges over a map (Diagnose's areas and names, KubeconfigContexts' contexts), the order is a parameter required to list every key exactly once.
- The message ids and the `Notice` level belong to a newer log API than diagnostics/log/log.go. The callers' output is therefore the sequence of `Report.Emission`s logged, separately from log.go's threshold filter. Threshold filtering of those emissions and their text/JSON/YAML rendering are not modelled. diagnostics/log/text.go and diagnostics/log/yaml.go are not part of this model.
- JsonLog: the level is passed as its name, since `l.Name` does not exist on log.go's integer Level. `fmt.Println` output is modelled as the text followed by "\n".
- Versions: types/version.go is not part of this model. `Version` is the x, y, z record with `NonZero` and `Eq` as the discovery code uses them. `Discovery.VersionText` prints a Version as "x.y.z" where the source formats it with `%#v`; how `%#v` renders a Version depends on types/version.go, so that rendering is an assumption of the model. The `err` that `execDiscovery` returns is not modelled, because `Run` ignores it.
- Integers parsed by `%d` are Go 64-bit ints: an out-of-range value fails to read, and `fmt`'s other integer syntaxes (base prefixes, underscores) are not modelled.
- CLI wiring (`NewCommand`, diagnostics/main.go, diagnostics/diagnostics.go, diagnostics/pkg/diagnostics/diagnostics.go, diagnostics/cmd/flags/flags.go) is not modelled. The flags are a record.
- DiscoverySystemd.DiscoverSystemdUnit: logs the corrected "not running" note (see Findings), which reports the exit status read from StatusErrno. As written, the source reports exit code 0 there. `DiscoverySystemd.AsWrittenDiffersOnlyWhenStopped` proves that a loaded, stopped unit with a non-zero status is the only case where the two differ.
- RecordUnits: its notes are the corrected ones that DiscoverSystemdUnit logs. The Environment update is the source's.
- DiscoverSystemd: its notes are the corrected ones that DiscoverSystemdUnit logs. The gate and the set of units recorded are the source's.
- RecordUnits: `env.SystemdUnits[name] = unit` panics on a nil map in Go, and `Run` creates the Environment with only its flags. The model assumes the map is initialised and inserts into an empty map.
- `Host.load` stands for both `clientcmd.Load` (diagnostics/discovery/config.go) and `yaml.Unmarshal` into a generic map (the older readKubeconfig in diagnostics/discovery/discovery.go). The two accept different inputs; the model does not tell them apart.
- `Text.IsSpace` knows only the ASCII blank, tab and carriage return, and `Discovery.Blank` adds the newline. Go's `fmt` scanner also treats `\v`, `\f`, U+0085, U+00A0 and the other Unicode spaces as space.
- `SystemdUnits` is absent from diagnostics/types/environment.go, although diagnostics/systemd/systemd.go:79 and diagnostics/discovery/systemd.go:27 use it. It is added as `map<string, SystemdUnit>`, and a missing key reads as the zero record.

Where the design description and the code disagree, the model follows the code:

- A log matcher has no keep-after-match flag, and `Interpret` returns only a text. Every matcher that fires is removed.
- The scan does not stop when no matchers remain. It goes on to the start message or the end of the journal.
- There is no service-dependency checker, and no warning/error counters or summary.
- Diagnose runs all diagnostics in Go's map order, not in a sorted order.
- A second `Finish` after at least one `Write` prints "\n]" again, because `logStarted` stays true. Only with no writes is a repeated `Finish` silent.

## Findings

| source | as written | input that shows it | evidently intended | confidence | as-written member | corrected member |
|---|---|---|---|---|---|---|
| diagnostics/discovery/systemd.go:63-66 | the "not currently running" note prints `unit.ExitStatus` on line 63, before `StatusErrno` is scanned into it on line 66, so it always says "exit code was 0" | a loaded unit with `ActiveState=inactive` and `StatusErrno=3` | the note reports the exit status the returned record holds | high; not executed | `DiscoverySystemd.UnitNotesAsWritten`, exhibited by `DiscoverySystemd.ExitStatusReportedAsZero` | `DiscoverySystemd.UnitNotes`, proved by `DiscoverySystemd.InactiveNoteReportsStatus` and used by `DiscoverySystemd.DiscoverSystemdUnit` |
