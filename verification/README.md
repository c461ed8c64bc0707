# catwalk driver, modelled in Dafny

catwalk is a test driver for bubbletea terminal-UI models. A data-driven
test file holds `run`, `set` and `reset` directives. The driver feeds each
input line of a `run` to the model as key or window-size messages, or as a
custom command handled by an updater. It then runs the commands the model
hands back, turns their answers into messages, and prints what the
requested observers report.

This project models the driver's sequential core as pure functions over
immutable data, and proves what each step does:

- **Commands** (`tea.dfy`, `engine.dfy`). A command is a finite tree: it
  answers with nothing, with one message, or with a batch of child
  commands. Each command has a latency, and the driver drops any answer
  that comes later than `cmd_timeout`. The command drain is proved equal to
  a breadth-first (level-order) reference definition. Batch children queue
  behind every command already pending.
- **Messages** (`engine.dfy`). Ten built-in message kinds become fixed
  `TEA …` lines and never reach `Update`. Every other message is replayed
  through `Update` in order, and each non-nil command it returns is queued.
- **Text commands** (`commands.dfy`). The verbs `type`, `enter`, `key` and
  `resize` become messages. Any other verb goes to the updater. The earlier
  single-file revision (`catwalk.go`) is the `Early` variant of `Revision`:
  it has no `enter` verb, and its `key` falls through into `type`.
- **Directives** (`directives.dfy`). This covers `RunOneTest`, `handleSet`
  and `handleRun`:
  - the start phase, which calls `Init` at most once;
  - skipping of blank and comment lines;
  - the fixed drain schedule around each line;
  - the final round of messages, then commands, then messages.
- **Observers** (`observe.dfy`). `observeView` marks line breaks and a
  missing final newline. `Observe` writes a `-- name:` header. The
  per-directive observation loop newline-terminates each observation.
- **Options and updaters** (`options.dfy`, `updaters.dfy`). `NewDriver`
  applies its options in order. `ChainUpdaters` drops nil updaters and
  returns the first answer that is supported or carries an error.
- **Keymap and style updaters** (`bindings.dfy`, `styles.dfy`,
  `reflect.dfy`, `lookup.dfy`). Go reflection is modelled as a tree of
  struct values. `FieldByName` follows Go's rule: a direct field wins,
  otherwise the shallowest promoted field is used, and an ambiguous name
  finds nothing. The module models the three lookup failures and the
  rebind keywords.

Go's fatal test errors (`t.Fatalf`) become the `Err` side of a `Result`,
carrying the position and a `Fatal` reason. The formatting verbs `%T`, `%#v`
and `%v` of messages, `%q`, `time.ParseDuration` and `Duration.String` are
abstract functions in the `Lib` record. The key table `allKeys` is a map in
that record too. The model's `View`, `Init`, `Update` and `Debug` are
abstract functions in the `Component` record.

## Model

| member | source | states |
|---|---|---|
| Tea.TeaLine | driver.go:163-182 | every built-in message kind prints one line that starts with `TEA ` and ends in a newline |
| Tea.Received | driver.go:125-139 | a command yields its outcome only if it answers within the timeout; otherwise its result is nil |
| Tea.BatchSize | driver.go:109-117 | a batch's non-nil children are strictly smaller than the batch, so expansion terminates |
| Engine.RunCmd | driver.go:105-121 | running one command yields at most one message; a command that does not answer in time yields no message and no children; its children are smaller than it; without tracing it prints nothing |
| Engine.DrainCmds | driver.go:90-123 | the drain yields no more messages than the command tree has nodes, and prints nothing without tracing |
| Engine.DrainStep | driver.go:97-106 | one step pops the head command and appends its batch children behind every pending command |
| Engine.RunCmdIsLevel | driver.go:105-117 | one command's message and children are exactly its level-order contribution |
| Engine.DrainLevel | driver.go:97-101 | draining a whole level produces that level's messages, then drains what is left followed by the level's children |
| Engine.DrainIsLevelOrder | driver.go:90-123 | the FIFO drain produces exactly the breadth-first order of the command trees' messages |
| Engine.SilentQueue | driver.go:133-137 | commands that all time out add no messages |
| Engine.NextLevelSize | driver.go:111-116 | one expansion step shrinks the total tree size by at least the number of expanded commands |
| Engine.DrainLoop | driver.go:90-123 | the imperative loop over a mutable queue computes the same messages and output as the recursive drain |
| Engine.ProcessCmds | driver.go:90-123 | the command queue ends empty, the model is unchanged, and the message queue only grows at its end, by the level-order answers; without tracing the output is unchanged |
| Engine.ProcessTeaCmds | driver.go:90-123 | the method with a loop agrees with `ProcessCmds` |
| Engine.UserMsgs | driver.go:162-186 | the messages passed to `Update` are never built-in kinds, and there are no more of them than queued messages |
| Engine.UserMsgsMembers | driver.go:162-186 | a message reaches `Update` exactly when it was queued and is not a built-in kind; a queue with no built-in message reaches `Update` whole |
| Engine.UserMsgsAppend | driver.go:162-186 | the messages of two queues reach `Update` in queue order: the first queue's, then the second's |
| Engine.ReplayHead | driver.go:159-187 | handling a queue means handling its first message, then the rest |
| Engine.DrainMsgs | driver.go:159-188 | the resulting model is `Update` replayed over the non-built-in messages in order; the queued commands are their non-nil results in order; without tracing the output is exactly the built-in messages' lines |
| Engine.ProcessMsgs | driver.go:155-190 | the message queue ends empty; the model is the replay; the new commands go behind the old ones; nothing else changes |
| Engine.BuiltinsSkipUpdate | driver.go:163-182 | a queue of built-in messages leaves the model unchanged and queues no command |
| Commands.TypeText | driver.go:480-491 | the text is typed as one rune key per character, in order, each carrying that character and the requested Alt flag |
| Commands.TypedTypeText | driver.go:480-491 | the typed keys spell the text back, and every key carries the requested Alt flag |
| Commands.TypedAppend | driver.go:488-490 | the text spelled by two key sequences is the concatenation of their texts |
| Commands.TypeLineRoundTrip | driver.go:480-487 | splitting `type <text>` on single spaces and re-joining the arguments gives back the text, repeated spaces included |
| Commands.ApplyResize | driver.go:424-429 | exactly two integer arguments queue one window-size message; a wrong count or a bad integer is fatal with that reason |
| Commands.ApplyKey | driver.go:431-451 | one argument is required; `alt+` sets Alt; a known name queues that key; an unknown one-byte name queues one rune key; anything else is fatal as an unknown key |
| Commands.ApplyUpdater | driver.go:460-474 | with no updater the verb is fatal; an updater error is fatal; an unsupported verb is fatal; otherwise the model is replaced and the updater's command is returned |
| Commands.ApplyTextCommand | driver.go:422-478 | driver verbs return no command and only append messages; `type` appends one Alt-free rune key per character of the space-joined arguments; `enter` appends the same keys and then one Enter key; `key` and `resize` succeed, answer and fail exactly as the key and resize helpers do; any other verb is exactly the updater path |
| Commands.EarlyEnterGoesToUpdater | catwalk.go:591-647 | in the earlier revision `enter` is not a driver verb: it reaches the updater, and is fatal with no updater |
| Commands.NonAsciiKeyIsFatal | driver.go:439-442 | a one-character key name whose UTF-8 length is above one byte is fatal unless it is in the key table |
| GoStrings.TrimSpace | driver.go:315 | the trimmed line neither starts nor ends with white space |
| GoStrings.TrimSpaceInfix | driver.go:315 | the trimmed line is the infix of the line left after removing white space at both ends |
| GoStrings.JoinSplit | driver.go:480-487 | joining the split parts with the separator restores the string |
| GoStrings.SplitJoin | driver.go:480-487 | splitting the joined separator-free parts restores the parts |
| GoStrings.SplitPrefix | driver.go:328-330 | splitting at the first separator gives the part before it, then the split of the rest |
| GoStrings.TrimPrefix | bindings.go:80 | a present prefix is removed exactly; an absent one leaves the string unchanged |
| GoStrings.ReplaceChar | driver.go:384 | replacing each occurrence of a character changes the length by the count of occurrences times the growth |
| GoStrings.ByteLenOne | driver.go:440 | a name has byte length one exactly when it is one ASCII character |
| GoConv.AtoiItoa | driver.go:414-420 | every 64-bit integer's decimal text parses back to it |
| GoConv.Atoi | driver.go:414-420 | a parsed value lies in the 64-bit range and comes from non-empty text |
| GoConv.AtoiRejects | driver.go:414-420 | empty text, a lone sign and trailing garbage are rejected; a leading `+` is accepted |
| Observe.MarkNewlines | driver.go:384 | each newline gains one marker before it; the text's last character is kept |
| Observe.ObserveView | driver.go:381-391 | the observation is non-empty and ends in a newline or the no-newline marker, the marker exactly when the view is empty or lacks a final newline |
| Observe.ViewRoundTrip | driver.go:381-391 | removing the markers recovers the view |
| Observe.UnmarkMark | driver.go:384 | removing the line-break markers undoes adding them |
| Observe.RunObserver | driver.go:393-406 | `view` renders the marked view; `debug` fails exactly when the model has no Debug method; `gostruct` dumps the model |
| Observe.MsgLines | driver.go:361-364 | a non-empty message list prints text ending in a newline |
| Observe.ObserveOne | driver.go:355-379 | the observation starts with `-- name:` and a newline; `msgs` and `cmds` report the queue sizes; an unregistered name is fatal; a failing observer is fatal with its reason |
| Observe.Block | driver.go:286-292 | an observation's block starts with the observation, ends in a newline, and adds at most one character |
| Observe.TerminateBlock | driver.go:286-292 | appending a non-empty observation to the output and newline-terminating it appends exactly that observation's block |
| Observe.Terminate | driver.go:286-292 | the observation is appended and a newline is added only if the output does not end in one |
| Observe.FirstFailing | driver.go:284-285 | the position of the first name that cannot be observed, or the list's length |
| Observe.ObserveInto | driver.go:283-294 | the loop succeeds exactly when no observation fails, and otherwise fails with the first failure; the earlier output is kept as a prefix and the result ends in a newline; the output is the earlier output followed by the block of every observation, in order |
| Observe.DoObserve | driver.go:283-294 | observation succeeds exactly when every name is observable, and otherwise fails with the first unobservable name's failure; only the output changes; it grows and ends in a newline; the new output is the old one followed by the blocks of the named observations, in order |
| Observe.ObserveList | driver.go:265-276 | the first `observe` argument's values are the list, or `["view"]` when there is none |
| Observe.ObserveListDefault | driver.go:267-276 | with no `observe` argument the list is `["view"]`, and arguments after the first `observe` never change it |
| Options.ApplyOption | options.go:5-42 | an option changes only the driver's settings, never its model, queues, output, timeout, position or start flag |
| Options.ApplyOptionsFrame | driver.go:77-79 | applying any options in order leaves the model, queues, output, timeout, position and start flag alone |
| Options.ApplyOptionsObservers | options.go:29-33 | after the options, each name's observer is the last one registered under it, or the one already present |
| Options.ApplyOptionsAutoInit | options.go:7-11 | auto-init is disabled exactly when it already was or some option disables it |
| Options.ApplyOptionsSize | options.go:15-21 | the last window-size option sets the flag and the size; with none the three fields are unchanged |
| Options.ApplyOptionsUpdater | options.go:38-42 | the installed updater is the fold of `ChainUpdaters` over the registered updaters |
| Options.NewDriver | driver.go:62-82 | a new driver has the given model, empty output and queues, the 20ms timeout, and has not started |
| Options.NewDriverOptions | driver.go:62-82 | the observers are the built-in three plus those registered; auto-init and window size follow their options; an updater is installed exactly when one was registered, and acts like the flat chain of all registered updaters |
| Options.UpdatersOfCount | options.go:38-42 | some updater is registered exactly when some `WithUpdater` option is given |
| Options.NewDriverLoop | driver.go:77-79 | the options loop agrees with the functional definition |
| Options.ChainUpdatersExample | options_test.go:19-50 | the `hello`/`world` chain of the package's test: a single updater passes through, both verbs are supported, and an unknown verb and the empty chain are not |
| Updaters.ChainUpdaters | options.go:53-62 | nil updaters are dropped; a single remaining updater is returned itself; otherwise the result is the chain of the rest |
| Updaters.ChainFirstClaim | options.go:63-69 | the chain answers with the first member whose answer is supported or an error; later members are not consulted |
| Updaters.ChainNoClaim | options.go:70-71 | when no member claims the verb the chain answers unsupported, with no model, command or error |
| Updaters.ChainClaims | options.go:63-71 | the chain claims a verb exactly when some member claims it |
| Updaters.ChainSupports | options.go:44-52 | for error-free members the chain supports a verb exactly when some member supports it |
| Updaters.ChainAppend | options.go:63-71 | a chain of two parts answers as the first part when it claims the verb, else as the second part |
| Updaters.ChainUpdatersAgree | options.go:53-72 | the result of `ChainUpdaters` answers every command exactly like the flat chain of the non-nil updaters |
| Updaters.FirstClaimer | options.go:64-69 | the position of the first member whose answer is supported or an error |
| Updaters.Registered | options.go:38-42 | an updater is installed exactly when at least one was registered |
| Updaters.RegisteredIsFlatChain | options.go:35-42 | repeated `WithUpdater` calls act like one flat chain in registration order |
| Updaters.RegisteredNils | options.go:53-71 | registering only nil updaters installs one that supports nothing |
| Bindings.Rebind | bindings.go:111-125 | a single `enable`, `disable` or `unbind` word toggles or clears the binding; any other words become exactly the new key list |
| Bindings.EditBinding | bindings.go:106-135 | a lookup failure changes nothing and returns the lookup error; otherwise only the found binding changes, by the edit, and every path off it is unchanged |
| Bindings.HandleKeyMapUpdate | bindings.go:68-104 | the verb is claimed exactly when it is `keybind` with two arguments or `keyhelp` with three, and the first argument has the prefix; short argument lists are errors that do not claim; everything unclaimed keeps the model; no tea command is returned |
| Bindings.KeybindThroughLens | bindings.go:80-84 | a claimed `keybind` errors exactly when lookup fails and keeps the model then; otherwise the named binding is rebound to the remaining arguments |
| Bindings.KeyhelpThroughLens | bindings.go:94-98 | a claimed `keyhelp` sets the help key and the help text, which is the remaining arguments joined by single spaces |
| Lookup.FindField | bindings.go:137-155 | lookup succeeds exactly for a pointer to a struct with an exported field of that name and the wanted type; a missing pointer, a missing or mistyped field, and an unexported field of the right type each have their own error |
| Lookup.FoundValue | bindings.go:151-154 | the found field has the wanted type |
| Lookup.Store | bindings.go:154 | writing through the found field keeps the lookup, stores the value, and changes no field off its path |
| Reflect.FieldByName | bindings.go:147 | a found path names a field of the wanted name |
| Reflect.FieldByNameResolves | bindings.go:147 | with distinct names per struct, lookup finds exactly the shallowest unique match: a direct field first, then promoted fields by depth, and an ambiguous name finds nothing |
| Reflect.SearchFromResolves | bindings.go:147 | the depth-by-depth search finds a path exactly when it is the unique shallowest match |
| Reflect.PathsAtExact | bindings.go:147 | the candidate list at a depth holds exactly the field paths of that length |
| Reflect.GetSetSame | bindings.go:154 | reading a path after writing it yields the written value |
| Reflect.GetSetOther | bindings.go:154 | writing one path leaves every diverging path unchanged |
| Reflect.SetLeafKeepsLookup | bindings.go:147-154 | storing a non-struct value into a non-struct field keeps every later lookup's answer |
| Reflect.DirectField | bindings.go:147 | the first direct field with the name, or none |
| Styles.ApplyStyleUpdate | styles.go:92-103 | a lookup or import failure changes nothing and returns that error; otherwise only the found style changes, to the imported one |
| Styles.HandleStyleUpdate | styles.go:68-90 | `restyle` is claimed exactly with two arguments and the prefix; fewer arguments are an error that does not claim; everything unclaimed keeps the model; no tea command is returned |
| Styles.RestyleThroughLens | styles.go:80-103 | a claimed `restyle` succeeds exactly when lookup and import succeed, and then stores the import of the remaining arguments joined by single spaces |
| Directives.HandleSet | driver.go:227-258 | syntax, key and duration failures are fatal with their reasons; otherwise only the timeout changes and the answer is `ok` for reset or the canonical duration for set |
| Directives.SetThenReset | driver.go:241-256 | a reset after any set restores the 20ms default and answers `ok` |
| Directives.SetCanonical | driver.go:245-257 | setting the timeout to the value a `set` printed is a no-op with the same answer |
| Directives.StartPhase | driver.go:296-309 | an unstarted driver runs Init's commands to completion before the auto-size message is queued; a started driver is unchanged; with auto-init disabled only the size message is queued |
| Directives.BeforeLine | driver.go:321-325 | pending messages are drained before each line |
| Directives.AfterLine | driver.go:331-333 | the line's command is drained after it, its answers going behind the queued messages |
| Directives.ApplyLine | driver.go:328-333 | a line fails exactly when its text command does; its answers end the message queue; the command queue ends empty |
| Directives.RunLine | driver.go:314-339 | blank and `#` lines change nothing; otherwise the line is applied to the drained driver, and the queued answers follow its own messages |
| Directives.RunLines | driver.go:314-339 | the lines keep the settings; all-skipped input changes nothing |
| Directives.RunLinesAppend | driver.go:314-339 | the line loop over two blocks is the loop over the first, then over the second |
| Directives.SkippedLineIsInert | driver.go:316-319 | inserting a blank or comment line anywhere changes nothing |
| Directives.FinalRound | driver.go:345-348 | the final round delivers the pending messages, drains the commands, and delivers those answers once; the message queue ends empty; without tracing, the output gains the built-in lines of the pending messages and then those of the drained answers |
| Directives.FinalRoundLeavesCommand | driver.go:345-348 | a command produced by the last message pass stays queued after the final round |
| Directives.Finish | driver.go:341-351 | finishing keeps the settings, empties the message queue, and newline-terminates the output when something is observed; the model and command queue are those the final round leaves; without tracing it succeeds exactly when every name is observable after the final round, and the output is the final round's output followed by the blocks of those observations |
| Directives.RunStarted | driver.go:312-352 | a started run answers its output, empties the message queue, and ends in a newline when something is observed; it succeeds exactly when every input line runs and finishing succeeds, and its driver is the finished driver |
| Directives.RunDirective | driver.go:260-353 | a run answers its output, leaves the driver started with an empty message queue, and ends in a newline when something is observed; after the start phase with the directive's `trace` and `observe` arguments, it succeeds exactly when the input's lines run and finishing succeeds, and its driver is the finished driver |
| Directives.RunIgnoresEarlierOutput | driver.go:261 | a run's answer does not depend on output left by earlier directives |
| Directives.RunOneTest | driver.go:212-225 | `set` and `reset` go to the set handler, `run` to the run handler, with the position saved; any other directive is fatal |
| Directives.InitAtMostOnce | driver.go:297-309 | after a successful run the driver is started, and a later start phase changes nothing |
| Messages.UpdaterErrorText | driver.go:465 | the updater-error message starts with the position |
| Messages.EarlyUpdaterErrorText | catwalk.go:637 | the earlier revision's message puts the error where the position belongs and ends in `%!v(MISSING)` |
| Messages.EarlyTextLosesPosition | catwalk.go:637 | the earlier message does not start with the position, while the corrected one does and ends in the error |

## Left out

- Concurrency and timeouts: `runTeaCmd` runs each command in a goroutine and waits for it with a context timeout. The model gives each command a latency instead, and a command answers when its latency is below the timeout. A latency equal to the timeout counts as a timeout, because Go's `select` decides that race arbitrarily.
- `context` and `Close`: cancelling the driver's context has no observable effect in the sequential model.
- Reflection on message types: the type switch in `processTeaMsgs` and the conversion of a result to `[]tea.Cmd` become constructors of `Msg` and `Outcome`.
- Formatting: `%T`, `%#v`, `%v` of messages, `%q`, `pretty.Sprint`, `time.ParseDuration` and `Duration.String` are abstract functions. Only the `TEA PRINT` and `TEA WINDOW SIZE` payloads and integers are rendered concretely.
- `allKeys`: the key table is a map supplied with the environment. The loop that builds it from `tea.KeyType.String` depends on the bubbletea library.
- The bubbles `key.Binding` and lipgloss style types, and `lipgloss-convert`'s `Import`, are only modelled as far as the updaters use them. The importer is a parameter.
- The `datadriven` library and the `TB` interface: a directive is a `TestData` record, and `t.Fatalf` is an `Err` result. The fatal reason is a `Fatal` value rather than the formatted text. Only the updater-error text is modelled concretely, for the finding below.
- `t.Logf` in the updater path is a log side effect with no effect on the result.
- UTF-8: strings are sequences of code points. `len(keyName) != 1` is modelled through each code point's UTF-8 length.
- Commands.ApplyUpdater: when an updater reports success with a nil model, Go installs the nil model and keeps the updater's command (driver.go:469-470). The test then panics at the next `Update`, `View` or observer call on that model. The model instead makes the reply fatal at once, with the `NilModel` reason, so it does not model the command that Go would still run before that panic.
- Nil observers: `WithObserver` with a nil function makes Go panic once that name is observed. Here observers are values and cannot be nil.
- Directives.Finish: with tracing on, the output's content is not stated. The trace lines sit between the final round's output and the observations, and their text comes from abstract formatting functions.
- Lookup.FindField: only ASCII `A` to `Z` count as upper-case initials of an exported name; Go's rule accepts every Unicode upper-case letter. The panic that taking the address of an unexported field raises is modelled as an error reply, which ends the test as a fatal error does.
- `RunModel`, `RunModelFromString` and the `example/` directory are test harness glue around `RunOneTest`.
- The driver's configuration fields (timeout, observers, updater, auto-init, size, position) are grouped in a `Settings` record. This is a modelling choice, and the Go struct keeps them flat.

## Findings

| source | as written | input that shows it | evidently intended | confidence | as-written member | corrected member |
|---|---|---|---|---|---|---|
| catwalk.go:637 | `t.Fatalf("%s: updater error: %v", err)` passes the error as the first argument, so the error fills the position slot and the second verb prints `%!v(MISSING)` | position `t.txt:3`, updater error `boom`: the message reads `boom: updater error: %!v(MISSING)` | `t.txt:3: updater error: boom`, as driver.go:465 writes it | not executed | Messages.EarlyUpdaterErrorText, Messages.EarlyTextLosesPosition | Messages.UpdaterErrorText |
