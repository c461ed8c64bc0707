/** The directive interpreter: `RunOneTest` dispatches a test directive to
    `handleSet` (`set`/`reset` of the command timeout) or `handleRun`, which
    starts the model once, applies the input lines one by one with a fixed
    schedule of drains around each, runs a final msgs-cmds-msgs round and
    observes the model.
 */
module Directives {
  import opened Base
  import opened GoStrings
  import opened Tea
  import opened Interface
  import opened Engine
  import opened Observe
  import opened Commands
  import opened Updaters

  /** What a directive returns: the driver after it and the directive's
      output text. */
  datatype Answer<!M> = Answer(driver: Driver<M>, text: string)

  /** The driver with a trace line written to its output. */
  function Traced<M>(d: Driver<M>, on: bool, text: string): (r: Driver<M>)
    ensures r == d.(result := r.result)
    ensures !on ==> r == d
  {
    if on then d.(result := d.result + Trace(on, text)) else d
  }

  /** The fields no directive line changes: the options given to `NewDriver`,
      the command timeout and the position in the test file. */
  ghost predicate SameSettings<M>(a: Driver<M>, b: Driver<M>) {
    a.settings == b.settings
  }

  // ---------------------------------------------------------------- set/reset

  /** The argument shape `handleSet` accepts: exactly one argument, with one
      value for `set` and none for `reset`. */
  predicate SetSyntax(td: TestData) {
    |td.cmdArgs| == 1 && |td.cmdArgs[0].vals| == (if td.cmd == "reset" then 0 else 1)
  }

  /** The duration text `handleSet` parses: the given value, or the default
      timeout printed by `Duration.String` for `reset`. */
  function SetValue(lib: Lib, td: TestData): string
    requires SetSyntax(td)
  {
    if td.cmd == "reset" then lib.durationString(DefaultCmdTimeout) else td.cmdArgs[0].vals[0]
  }

  /** `handleSet`: only `cmd_timeout` can be set.  `set` answers the option
      with the canonical rendering of the parsed duration, `reset` parses the
      rendering of the 20ms default and answers `ok`.  Nothing but the
      timeout changes. */
  function HandleSet<M>(lib: Lib, d: Driver<M>, td: TestData): (r: Result<Answer<M>, Failure>)
    ensures !SetSyntax(td) ==> r == Err(Failure(d.settings.pos, InvalidSyntax))
    ensures SetSyntax(td) && td.cmdArgs[0].key != "cmd_timeout" ==>
      r == Err(Failure(d.settings.pos, UnknownOption(td.cmdArgs[0].key)))
    ensures SetSyntax(td) && td.cmdArgs[0].key == "cmd_timeout" && lib.parseDuration(SetValue(lib, td)).None? ==>
      r == Err(Failure(d.settings.pos, InvalidTimeout(SetValue(lib, td))))
    ensures r.Ok? <==>
      SetSyntax(td) && td.cmdArgs[0].key == "cmd_timeout" && lib.parseDuration(SetValue(lib, td)).Some?
    ensures r.Ok? ==>
      && r.value.driver == d.(settings := d.settings.(cmdTimeout := lib.parseDuration(SetValue(lib, td)).value))
      && r.value.text == (if td.cmd == "reset" then "ok" else "cmd_timeout: " + lib.durationString(r.value.driver.settings.cmdTimeout))
  {
    var reset := td.cmd == "reset";
    if !SetSyntax(td) then Err(Failure(d.settings.pos, InvalidSyntax))
    else
      var key := td.cmdArgs[0].key;
      if key != "cmd_timeout" then Err(Failure(d.settings.pos, UnknownOption(key)))
      else
        var val := if reset then lib.durationString(DefaultCmdTimeout) else td.cmdArgs[0].vals[0];
        match lib.parseDuration(val)
        case None => Err(Failure(d.settings.pos, InvalidTimeout(val)))
        case Some(tm) =>
          var d2 := d.(settings := d.settings.(cmdTimeout := tm));
          Ok(Answer(d2, if reset then "ok" else key + ": " + lib.durationString(tm)))
  }

  /** With a duration library whose printing of 20ms parses back to 20ms,
      `reset` after any successful `set` gives the driver back as it was
      before the `set`, but for the default timeout. */
  lemma SetThenReset<M>(lib: Lib, d: Driver<M>, setTd: TestData, resetTd: TestData)
    requires lib.parseDuration(lib.durationString(DefaultCmdTimeout)) == Some(DefaultCmdTimeout)
    requires setTd.cmd == "set" && HandleSet(lib, d, setTd).Ok?
    requires resetTd == TestData(setTd.pos, "reset", [CmdArg("cmd_timeout", [])], setTd.input)
    ensures HandleSet(lib, HandleSet(lib, d, setTd).value.driver, resetTd)
         == Ok(Answer(d.(settings := d.settings.(cmdTimeout := DefaultCmdTimeout)), "ok"))
  {
  }

  /** When the duration library parses its own renderings back, setting the
      value a `set` answered with changes nothing and answers the same. */
  lemma SetCanonical<M>(lib: Lib, d: Driver<M>, td: TestData)
    requires forall t :: lib.parseDuration(lib.durationString(t)) == Some(t)
    requires td.cmd == "set" && HandleSet(lib, d, td).Ok?
    ensures var a := HandleSet(lib, d, td).value;
      var again := TestData(td.pos, "set", [CmdArg("cmd_timeout", [lib.durationString(a.driver.settings.cmdTimeout)])], td.input);
      HandleSet(lib, a.driver, again) == Ok(a)
  {
    var a := HandleSet(lib, d, td).value;
    assert lib.parseDuration(lib.durationString(a.driver.settings.cmdTimeout)) == Some(a.driver.settings.cmdTimeout);
  }

  // ---------------------------------------------------------------- run

  /** The start of the first `run`: `Init`'s command is drained (unless
      auto-init is disabled), then the auto-size message is queued. */
  function AutoSizeMsgs<M>(d: Driver<M>): seq<Msg> {
    if d.settings.autoSize then [WindowSize(d.settings.width, d.settings.height)] else []
  }

  /** The start phase of `handleRun`.  It runs once per driver: afterwards
      the start is done, and a started driver is left alone.  `Init`'s
      messages are queued before the auto-size message, and a driver with
      auto-init disabled never calls `Init`. */
  function StartPhase<M>(env: Env<M>, d: Driver<M>, on: bool): (r: Driver<M>)
    ensures r.startDone
    ensures d.startDone ==> r == d
    ensures SameSettings(d, r) && r.model == d.model
    ensures !d.startDone && !d.settings.disableAutoInit ==>
      && r.cmds == []
      && r.msgs == d.msgs + LevelOrder(d.settings.cmdTimeout, d.cmds + Present([env.comp.init(d.model)])) + AutoSizeMsgs(d)
    ensures !d.startDone && d.settings.disableAutoInit ==>
      r == d.(msgs := d.msgs + AutoSizeMsgs(d), startDone := true)
    ensures !on ==> r.result == d.result
  {
    if d.startDone then d
    else
      var d1 :=
        if d.settings.disableAutoInit then d
        else
          var t := Traced(d, on, "calling Init");
          ProcessCmds(env.lib, t.(cmds := t.cmds + Present([env.comp.init(d.model)])), on);
      d1.(msgs := d1.msgs + AutoSizeMsgs(d), startDone := true)
  }

  /** A line `handleRun` skips: blank, or a comment, once trimmed. */
  predicate Skipped(line: string) {
    var text := TrimSpace(line);
    text == "" || HasPrefix(text, "#")
  }

  /** The words of a trimmed input line: the verb, then its arguments. */
  function Words(line: string): (w: seq<string>)
    ensures |w| >= 1
  {
    Split(TrimSpace(line), ' ')
  }

  /** The model after `Update` has seen the pending messages, and the
      commands pending after that. */
  function Delivered<M>(env: Env<M>, d: Driver<M>): (M, seq<Cmd>) {
    var (m, cs) := Replay(env.comp, d.model, UserMsgs(d.msgs));
    (m, d.cmds + Present(cs))
  }

  /** Before a line is applied: the trace line, then the pending messages
      are delivered to the model. */
  function BeforeLine<M>(env: Env<M>, d: Driver<M>, on: bool, text: string): (p: Driver<M>)
    ensures SameSettings(d, p) && p.startDone == d.startDone
    ensures p.msgs == [] && (p.model, p.cmds) == Delivered(env, d)
    ensures !on ==> p == ProcessMsgs(env, d, on)
  {
    ProcessMsgs(env, Traced(d, on, "before " + env.lib.quote(text)), on)
  }

  /** After a line is applied: its command joins the pending ones and all
      of them are drained; their answers follow the line's own messages. */
  function AfterLine<M>(env: Env<M>, a: Applied<M>, on: bool): (q: Driver<M>)
    ensures SameSettings(a.driver, q) && q.startDone == a.driver.startDone
    ensures q.model == a.driver.model && q.cmds == []
    ensures q.msgs == a.driver.msgs + LevelOrder(a.driver.settings.cmdTimeout, a.driver.cmds + Present([a.cmd]))
  {
    ProcessCmds(env.lib, a.driver.(cmds := a.driver.cmds + Present([a.cmd])), on)
  }

  /** A command applied after the pending messages were delivered: the
      driver's own commands add their messages in front of the answers of
      the pending commands; any other command is the updater's, whose model
      is kept and whose command is drained after the pending ones. */
  function ApplyLine<M>(env: Env<M>, p: Driver<M>, verb: string, args: seq<string>, on: bool): (r: Result<Driver<M>, Failure>)
    requires p.msgs == []
    ensures r.Ok? <==> ApplyTextCommand(env, p, verb, args).Ok?
    ensures r.Ok? ==> SameSettings(p, r.value) && r.value.startDone == p.startDone && r.value.cmds == []
    ensures r.Ok? && IsDriverVerb(env.rev, verb) ==>
      var answers := LevelOrder(p.settings.cmdTimeout, p.cmds);
      && r.value.model == p.model
      && |r.value.msgs| >= |answers|
      && r.value.msgs[|r.value.msgs| - |answers|..] == answers
    ensures r.Ok? && verb == "type" ==> r.value.msgs == TypeIn(args, false) + LevelOrder(p.settings.cmdTimeout, p.cmds)
    ensures r.Ok? && !IsDriverVerb(env.rev, verb) ==>
      && p.settings.upd.Some?
      && var reply := Apply(p.settings.upd.value, p.model, verb, args);
      && reply.model.Some? && r.value.model == reply.model.value
      && r.value.msgs == LevelOrder(p.settings.cmdTimeout, p.cmds + Present([reply.cmd]))
  {
    var a :- ApplyTextCommand(env, p, verb, args);
    var q := AfterLine(env, a, on);
    assert IsDriverVerb(env.rev, verb) ==> a.cmd.None? && Present([a.cmd]) == [];
    assert IsDriverVerb(env.rev, verb) ==> a.driver.cmds + [] == p.cmds;
    assert verb == "type" ==> a.driver.msgs == TypeIn(args, false);
    assert !IsDriverVerb(env.rev, verb) ==> a.driver.msgs == [];
    Ok(q)
  }

  /** One input line of a `run` block.  The pending messages are delivered
      first, then the line's command is applied, then every pending command
      is drained; with tracing on, the model is observed after the line.  A
      skipped line changes nothing. */
  function RunLine<M>(env: Env<M>, d: Driver<M>, names: seq<string>, on: bool, line: string): (r: Result<Driver<M>, Failure>)
    ensures Skipped(line) ==> r == Ok(d)
    ensures r.Ok? ==> SameSettings(d, r.value) && r.value.startDone == d.startDone
    ensures !Skipped(line) && r.Ok? ==> r.value.cmds == []
    ensures !Skipped(line) && !on ==>
      (r.Ok? <==> ApplyTextCommand(env, ProcessMsgs(env, d, on), Words(line)[0], Words(line)[1..]).Ok?)
    ensures !Skipped(line) && r.Ok? && IsDriverVerb(env.rev, Words(line)[0]) ==>
      var answers := LevelOrder(d.settings.cmdTimeout, Delivered(env, d).1);
      && r.value.model == Delivered(env, d).0
      && |r.value.msgs| >= |answers|
      && r.value.msgs[|r.value.msgs| - |answers|..] == answers
    ensures !Skipped(line) && r.Ok? && Words(line)[0] == "type" ==>
      r.value.msgs == TypeIn(Words(line)[1..], false) + LevelOrder(d.settings.cmdTimeout, Delivered(env, d).1)
    ensures !Skipped(line) && r.Ok? && !IsDriverVerb(env.rev, Words(line)[0]) ==>
      && d.settings.upd.Some?
      && var reply := Apply(d.settings.upd.value, Delivered(env, d).0, Words(line)[0], Words(line)[1..]);
      && reply.model.Some? && r.value.model == reply.model.value
      && r.value.msgs == LevelOrder(d.settings.cmdTimeout, Delivered(env, d).1 + Present([reply.cmd]))
  {
    if Skipped(line) then Ok(d)
    else
      var words := Words(line);
      var p := BeforeLine(env, d, on, TrimSpace(line));
      var q :- ApplyLine(env, p, words[0], words[1..], on);
      ObserveIfTracing(env, q, names, on, "after " + env.lib.quote(words[0]))
  }

  /** Whether every line of a block is skipped. */
  predicate AllSkipped(lines: seq<string>) {
    forall i :: 0 <= i < |lines| ==> Skipped(lines[i])
  }

  /** The input lines of a `run` block, in order; the first fatal error
      stops the test.  A block of blank and comment lines does nothing, and
      any other block leaves no command queued. */
  function RunLines<M>(env: Env<M>, d: Driver<M>, names: seq<string>, on: bool, lines: seq<string>): (r: Result<Driver<M>, Failure>)
    ensures r.Ok? ==> SameSettings(d, r.value) && r.value.startDone == d.startDone
    ensures AllSkipped(lines) ==> r == Ok(d)
    ensures r.Ok? && !AllSkipped(lines) ==> r.value.cmds == []
    decreases |lines|
  {
    if |lines| == 0 then Ok(d)
    else
      var d1 :- RunLine(env, d, names, on, lines[0]);
      var r := RunLines(env, d1, names, on, lines[1..]);
      AllSkippedCons(lines);
      r
  }

  lemma AllSkippedCons(lines: seq<string>)
    requires |lines| > 0
    ensures AllSkipped(lines) <==> Skipped(lines[0]) && AllSkipped(lines[1..])
  {
    assert forall i :: 1 <= i < |lines| ==> lines[i] == lines[1..][i - 1];
  }

  /** Running `a + b` is running `a`, then `b` on the driver `a` left. */
  lemma {:induction false} RunLinesAppend<M>(env: Env<M>, d: Driver<M>, names: seq<string>, on: bool, a: seq<string>, b: seq<string>)
    ensures RunLines(env, d, names, on, a + b) ==
      match RunLines(env, d, names, on, a)
      case Err(e) => Err(e)
      case Ok(d1) => RunLines(env, d1, names, on, b)
    decreases |a|
  {
    if |a| == 0 {
      assert a + b == b;
    } else {
      assert (a + b)[0] == a[0];
      assert (a + b)[1..] == a[1..] + b;
      match RunLine(env, d, names, on, a[0])
      case Err(_) =>
      case Ok(d1) =>
        RunLinesAppend(env, d1, names, on, a[1..], b);
    }
  }

  /** Blank and comment lines can be added anywhere in a `run` block without
      changing what it does. */
  lemma SkippedLineIsInert<M>(env: Env<M>, d: Driver<M>, names: seq<string>, on: bool, a: seq<string>, line: string, b: seq<string>)
    requires Skipped(line)
    ensures RunLines(env, d, names, on, a + [line] + b) == RunLines(env, d, names, on, a + b)
  {
    RunLinesAppend(env, d, names, on, a + [line], b);
    RunLinesAppend(env, d, names, on, a, [line]);
    RunLinesAppend(env, d, names, on, a, b);
    match RunLines(env, d, names, on, a)
    case Err(_) =>
    case Ok(d1) =>
      assert [line][1..] == [];
  }

  /** The final round of `handleRun`: messages, commands, messages, once.
      The queued messages reach the model, the commands are drained and
      their answers reach the model too; the commands those last messages
      return stay queued. */
  function FinalRound<M>(env: Env<M>, d: Driver<M>, on: bool): (r: Driver<M>)
    ensures SameSettings(d, r) && r.startDone == d.startDone
    ensures r.msgs == []
    ensures var answers := LevelOrder(d.settings.cmdTimeout, Delivered(env, d).1);
      && r.model == Replay(env.comp, Delivered(env, d).0, UserMsgs(answers)).0
      && r.cmds == Present(Replay(env.comp, Delivered(env, d).0, UserMsgs(answers)).1)
    ensures !on ==>
      r.result == d.result + BuiltinLines(d.msgs) + BuiltinLines(LevelOrder(d.settings.cmdTimeout, Delivered(env, d).1))
  {
    var d1 := ProcessMsgs(env, d, on);
    assert d1.settings == d.settings && d1.startDone == d.startDone;
    assert d1.model == Delivered(env, d).0 && d1.cmds == Delivered(env, d).1;
    var d2 := ProcessCmds(env.lib, d1, on);
    assert d2.settings == d.settings && d2.startDone == d.startDone;
    assert d2.model == d1.model && d2.cmds == [];
    assert d2.msgs == LevelOrder(d.settings.cmdTimeout, d1.cmds);
    var r := ProcessMsgs(env, d2, on);
    assert r.cmds == [] + Present(Replay(env.comp, d2.model, UserMsgs(d2.msgs)).1);
    r
  }

  /** The final round is not run to a fixpoint: when the only pending
      command answers with a message whose `Update` returns a command, that
      command is left in the queue. */
  lemma FinalRoundLeavesCommand<M>(env: Env<M>, d: Driver<M>, on: bool, c: Cmd, text: string, m2: M, c2: Cmd)
    requires d.msgs == [] && d.cmds == [c]
    requires Answers(c, d.settings.cmdTimeout) && c.outcome == ReturnsMsg(Other(text))
    requires env.comp.update(d.model, Other(text)) == (m2, Some(c2))
    ensures FinalRound(env, d, on).cmds == [c2]
    ensures FinalRound(env, d, on).model == m2
  {
    assert UserMsgs(d.msgs) == [];
    assert Replay(env.comp, d.model, []) == (d.model, []);
    assert d.cmds + Present<Cmd>([]) == [c];
    assert Delivered(env, d) == (d.model, [c]);
    assert LevelMsgs(d.settings.cmdTimeout, [c]) == [Other(text)];
    assert NextLevel(d.settings.cmdTimeout, [c]) == [];
    assert LevelOrder(d.settings.cmdTimeout, [c]) == [Other(text)];
    assert UserMsgs([Other(text)]) == [Other(text)];
  }

  /** `handleRun` once the output is reset: the model is started if needed,
      the input lines are run, and after the final round the model is
      observed.  The answer is the whole output of the directive. */
  function RunDirective<M>(env: Env<M>, d: Driver<M>, td: TestData): (r: Result<Answer<M>, Failure>)
    ensures r.Ok? ==> r.value.text == r.value.driver.result
    ensures r.Ok? ==> SameSettings(d, r.value.driver) && r.value.driver.startDone
    ensures r.Ok? ==> r.value.driver.msgs == []
    ensures r.Ok? && |ObserveList(td.cmdArgs)| > 0 ==>
      EndsInNewline(r.value.text)
    ensures var on, names := HasArg(td.cmdArgs, "trace"), ObserveList(td.cmdArgs);
      var lr := RunLines(env, StartPhase(env, d, on), names, on, Split(td.input, '\n'));
      && (r.Ok? <==> lr.Ok? && Finish(env, lr.value, names, on).Ok?)
      && (r.Ok? ==> r.value.driver == Finish(env, lr.value, names, on).value)
  {
    var names := ObserveList(td.cmdArgs);
    var on := HasArg(td.cmdArgs, "trace");
    var d0 := StartPhase(env, d, on);
    RunStarted(env, d0, names, on, Split(td.input, '\n'))
  }

  /** `handleRun` after the start phase: the lines, then the finish. */
  function RunStarted<M>(env: Env<M>, d: Driver<M>, names: seq<string>, on: bool, lines: seq<string>): (r: Result<Answer<M>, Failure>)
    ensures r.Ok? ==> r.value.text == r.value.driver.result
    ensures r.Ok? ==> SameSettings(d, r.value.driver) && r.value.driver.startDone == d.startDone
    ensures r.Ok? ==> r.value.driver.msgs == []
    ensures r.Ok? && |names| > 0 ==> EndsInNewline(r.value.text)
    ensures var lr := RunLines(env, d, names, on, lines);
      && (r.Ok? <==> lr.Ok? && Finish(env, lr.value, names, on).Ok?)
      && (r.Ok? ==> r.value.driver == Finish(env, lr.value, names, on).value)
  {
    var d1 :- RunLines(env, d, names, on, lines);
    var d4 :- Finish(env, d1, names, on);
    Ok(Answer(d4, d4.result))
  }

  /** The end of `handleRun`: with tracing the model is observed before the
      final round, and always after it. */
  function Finish<M>(env: Env<M>, d: Driver<M>, names: seq<string>, on: bool): (r: Result<Driver<M>, Failure>)
    ensures r.Ok? ==> SameSettings(d, r.value) && r.value.startDone == d.startDone
    ensures r.Ok? ==> r.value.msgs == []
    ensures r.Ok? && |names| > 0 ==>
      EndsInNewline(r.value.result)
    ensures r.Ok? ==> r.value.model == FinalRound(env, d, on).model && r.value.cmds == FinalRound(env, d, on).cmds
    ensures !on ==>
      var f := FinalRound(env, d, on);
      && (r.Ok? <==> forall i :: 0 <= i < |names| ==> Observable(env, f, names[i]))
      && (r.Ok? ==> r.value.result == f.result + Blocks(Observations(env, f, names)))
  {
    match ObserveIfTracing(env, d, names, on, "before finish")
    case Err(e) => Err(e)
    case Ok(d2) =>
      var d3 := FinalRound(env, d2, on);
      FinalRoundIgnoresOutput(env, d, d2, on);
      var d4 := Traced(d3, on, "at end");
      DoObserve(env, d4, names)
  }

  /** The final round's effect on the model and the queues does not depend
      on what the output held before it. */
  lemma FinalRoundIgnoresOutput<M>(env: Env<M>, d: Driver<M>, d2: Driver<M>, on: bool)
    requires d2 == d.(result := d2.result)
    ensures FinalRound(env, d2, on).model == FinalRound(env, d, on).model
    ensures FinalRound(env, d2, on).cmds == FinalRound(env, d, on).cmds
  {
    assert Delivered(env, d2) == Delivered(env, d);
  }

  /** With tracing, a trace line and an observation of the model; without,
      nothing.  Only the output changes. */
  function ObserveIfTracing<M>(env: Env<M>, d: Driver<M>, names: seq<string>, on: bool, text: string): (r: Result<Driver<M>, Failure>)
    ensures !on ==> r == Ok(d)
    ensures r.Ok? ==> r.value == d.(result := r.value.result)
  {
    if on then DoObserve(env, Traced(d, on, text), names) else Ok(d)
  }

  /** `handleRun`: the output of earlier directives is dropped first. */
  function HandleRun<M>(env: Env<M>, d: Driver<M>, td: TestData): Result<Answer<M>, Failure> {
    RunDirective(env, d.(result := ""), td)
  }

  /** The output of `handleRun` does not depend on what earlier directives
      wrote: the buffer is reset first. */
  lemma RunIgnoresEarlierOutput<M>(env: Env<M>, d: Driver<M>, td: TestData, earlier: string)
    ensures HandleRun(env, d, td) == HandleRun(env, d.(result := earlier), td)
  {
    assert d.(result := "") == d.(result := earlier).(result := "");
  }

  /** `RunOneTest`: remembers the directive's position, then `set` and
      `reset` go to `handleSet`, `run` to `handleRun`, and any other
      directive is fatal. */
  function RunOneTest<M>(env: Env<M>, d: Driver<M>, td: TestData): (r: Result<Answer<M>, Failure>)
    ensures td.cmd == "set" || td.cmd == "reset" ==> r == HandleSet(env.lib, d.(settings := d.settings.(pos := td.pos)), td)
    ensures td.cmd == "run" ==> r == HandleRun(env, d.(settings := d.settings.(pos := td.pos)), td)
    ensures td.cmd != "set" && td.cmd != "reset" && td.cmd != "run" ==>
      r == Err(Failure(td.pos, UnrecognizedDirective(td.cmd)))
    ensures r.Ok? ==> r.value.driver.settings.pos == td.pos
  {
    var d1 := d.(settings := d.settings.(pos := td.pos));
    if td.cmd == "set" || td.cmd == "reset" then HandleSet(env.lib, d1, td)
    else if td.cmd == "run" then HandleRun(env, d1, td)
    else Err(Failure(td.pos, UnrecognizedDirective(td.cmd)))
  }

  /** `Init` runs at most once per driver: after any successful directive
      the start is done, so a later `run` skips the start phase. */
  lemma InitAtMostOnce<M>(env: Env<M>, d: Driver<M>, td: TestData, on: bool)
    requires td.cmd == "run"
    ensures var r := RunOneTest(env, d, td);
      r.Ok? ==> r.value.driver.startDone && StartPhase(env, r.value.driver, on) == r.value.driver
  {
  }
}
