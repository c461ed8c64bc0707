/** The test driver's state and its two queues: `processTeaCmds` runs queued
    commands until none is left, and `processTeaMsgs` prints the built-in
    messages and passes every other message to the model's `Update`.

    The `fmt` renderings the trace uses (`%T`, `%#v`, `%v`, `%q`), the key
    table `allKeys` and the `time` package's duration parsing and printing are
    given as a `Lib` of functions.
 */
module Engine {
  import opened Base
  import opened GoConv
  import opened Tea
  import opened Interface
  import opened Updaters

  /** Which revision of `ApplyTextCommand` is modelled: `Current`
      (driver.go, with the `enter` command) or `Early` (catwalk.go). */
  datatype Revision = Current | Early

  /** The parts of Go's library the driver calls whose output is not modelled
      character by character. */
  datatype Lib = Lib(
    typeOf: Msg -> string,
    goSyntax: Msg -> string,
    value: Msg -> string,
    quote: string -> string,
    keys: map<string, Key>,
    parseDuration: string -> Option<int>,
    durationString: int -> string)

  /** Everything a driver runs against: the model's methods, the library and
      the revision. */
  datatype Env<!M> = Env(comp: Component<M>, lib: Lib, rev: Revision)

  /** `defaultCmdTimeout`, 20 milliseconds, in nanoseconds. */
  const DefaultCmdTimeout: int := 20_000_000

  /** The fields of the `driver` struct that only options, `set`/`reset`
      and the directive position change: the command timeout, the
      observers, the updater, the start-up flags and window size, and the
      position in the test file. */
  datatype Settings<!M> = Settings(
    cmdTimeout: int,
    observers: map<string, Observer<M>>,
    upd: Option<Updater<M>>,
    disableAutoInit: bool,
    autoSize: bool,
    width: int,
    height: int,
    pos: string)

  /** The `driver` struct; the cancellable context is not modelled. */
  datatype Driver<!M> = Driver(
    model: M,
    result: string,
    cmds: seq<Cmd>,
    msgs: seq<Msg>,
    startDone: bool,
    settings: Settings<M>)

  /** One trace line, written only when tracing is on. */
  function Trace(on: bool, text: string): string {
    if on then "-- trace: " + text + "\n" else ""
  }

  /** What draining the command queue produced: the messages, in order, and
      the trace text. */
  datatype Drained = Drained(msgs: seq<Msg>, out: string)

  /** What running one command produced: its message, if any, the commands
      it expanded to, and the trace text. */
  datatype Stepped = Stepped(msgs: seq<Msg>, kids: seq<Cmd>, out: string)

  /** `runTeaCmd` and one turn of the loop of `processTeaCmds`: a batch
      expands to its non-nil commands, a message is collected, and nil (also
      what a timed-out command gives) is dropped. */
  function RunCmd(lib: Lib, timeout: int, on: bool, c: Cmd): (s: Stepped)
    ensures QueueSize(s.kids) < CmdSize(c)
    ensures |s.msgs| <= 1
    ensures !Answers(c, timeout) ==> s.msgs == [] && s.kids == []
    ensures !on ==> s.out == ""
  {
    var wait := if Answers(c, timeout) then "" else Trace(on, "timeout waiting for command");
    match Received(c, timeout)
    case ReturnsBatch(cs) =>
      BatchSize(c);
      Stepped([], Present(cs), wait + Trace(on, "expanded " + Itoa(|cs|) + " commands"))
    case ReturnsMsg(m) =>
      Stepped([m], [], wait + Trace(on, "translated cmd: " + lib.typeOf(m)))
    case ReturnsNil =>
      Stepped([], [], wait + Trace(on, "translated cmd: <nil>"))
  }

  /** The loop of `processTeaCmds`, run on the queue `q`: the first command is
      run and what it expanded to goes to the end of the queue.  Each command
      yields at most one message. */
  function DrainCmds(lib: Lib, timeout: int, on: bool, q: seq<Cmd>): (r: Drained)
    ensures !on ==> r.out == ""
    ensures |r.msgs| <= QueueSize(q)
    decreases QueueSize(q)
  {
    if |q| == 0 then Drained([], "")
    else
      var s := RunCmd(lib, timeout, on, q[0]);
      QueueSizeAppend(q[1..], s.kids);
      var rest := DrainCmds(lib, timeout, on, q[1..] + s.kids);
      Drained(s.msgs + rest.msgs, s.out + rest.out)
  }

  /** The commands a command contributes to the next level: the non-nil
      members of the batch it answers with. */
  function Kids(c: Cmd, timeout: int): seq<Cmd> {
    match Received(c, timeout)
    case ReturnsBatch(cs) => Present(cs)
    case _ => []
  }

  /** The messages the commands of one level answer with, in order. */
  function LevelMsgs(timeout: int, a: seq<Cmd>): seq<Msg> {
    if |a| == 0 then []
    else
      var here := match Received(a[0], timeout) case ReturnsMsg(m) => [m] case _ => [];
      here + LevelMsgs(timeout, a[1..])
  }

  /** The commands one level of batches expands to, in order. */
  function NextLevel(timeout: int, a: seq<Cmd>): seq<Cmd> {
    if |a| == 0 then [] else Kids(a[0], timeout) + NextLevel(timeout, a[1..])
  }

  lemma {:induction false} NextLevelSize(timeout: int, a: seq<Cmd>)
    ensures QueueSize(NextLevel(timeout, a)) + |a| <= QueueSize(a)
  {
    if |a| > 0 {
      NextLevelSize(timeout, a[1..]);
      QueueSizeAppend(Kids(a[0], timeout), NextLevel(timeout, a[1..]));
      if Received(a[0], timeout).ReturnsBatch? {
        BatchSize(a[0]);
      }
    }
  }

  /** Breadth-first order: every message answered at one depth of the command
      trees, then every message of the next depth. */
  function LevelOrder(timeout: int, q: seq<Cmd>): seq<Msg>
    decreases QueueSize(q)
  {
    if |q| == 0 then []
    else
      NextLevelSize(timeout, q);
      LevelMsgs(timeout, q) + LevelOrder(timeout, NextLevel(timeout, q))
  }

  lemma LevelMsgsCons(timeout: int, a: seq<Cmd>)
    requires |a| > 0
    ensures LevelMsgs(timeout, a) == LevelMsgs(timeout, [a[0]]) + LevelMsgs(timeout, a[1..])
  {
    assert [a[0]][1..] == [];
  }

  lemma NextLevelCons(timeout: int, a: seq<Cmd>)
    requires |a| > 0
    ensures NextLevel(timeout, a) == Kids(a[0], timeout) + NextLevel(timeout, a[1..])
  {
  }

  /** One step of the drain: the first command's message, then the rest of
      the queue followed by what the first command expanded to. */
  lemma DrainStep(lib: Lib, timeout: int, on: bool, q: seq<Cmd>)
    requires |q| > 0
    ensures DrainCmds(lib, timeout, on, q).msgs
         == LevelMsgs(timeout, [q[0]]) + DrainCmds(lib, timeout, on, q[1..] + Kids(q[0], timeout)).msgs
  {
    var s := RunCmd(lib, timeout, on, q[0]);
    RunCmdIsLevel(lib, timeout, on, q[0]);
    assert DrainCmds(lib, timeout, on, q).msgs == s.msgs + DrainCmds(lib, timeout, on, q[1..] + s.kids).msgs;
  }

  /** Running one command yields its level's message and its kids. */
  lemma RunCmdIsLevel(lib: Lib, timeout: int, on: bool, c: Cmd)
    ensures RunCmd(lib, timeout, on, c).kids == Kids(c, timeout)
    ensures RunCmd(lib, timeout, on, c).msgs == LevelMsgs(timeout, [c])
  {
    assert [c][1..] == [];
    assert LevelMsgs(timeout, [c]) == (match Received(c, timeout) case ReturnsMsg(m) => [m] case _ => []) + [];
  }

  /** Draining `a + b` drains the level `a` first, then `b` followed by what
      `a` expanded to. */
  lemma {:induction false} DrainLevel(lib: Lib, timeout: int, on: bool, a: seq<Cmd>, b: seq<Cmd>)
    ensures DrainCmds(lib, timeout, on, a + b).msgs
         == LevelMsgs(timeout, a) + DrainCmds(lib, timeout, on, b + NextLevel(timeout, a)).msgs
    decreases |a|
  {
    if |a| == 0 {
      assert a + b == b;
      assert b + NextLevel(timeout, a) == b;
    } else {
      var c, tail, ab := a[0], a[1..], a + b;
      var kids := Kids(c, timeout);
      assert ab[0] == c;
      assert ab[1..] == tail + b;
      AppendAssoc(tail, b, kids);
      DrainStep(lib, timeout, on, ab);
      DrainLevel(lib, timeout, on, tail, b + kids);
      var later := NextLevel(timeout, tail);
      NextLevelCons(timeout, a);
      AppendAssoc(b, kids, later);
      LevelMsgsCons(timeout, a);
    }
  }

  /** The driver's FIFO queue delivers messages in breadth-first order of the
      command trees. */
  lemma {:induction false} DrainIsLevelOrder(lib: Lib, timeout: int, on: bool, q: seq<Cmd>)
    ensures DrainCmds(lib, timeout, on, q).msgs == LevelOrder(timeout, q)
    decreases QueueSize(q)
  {
    if |q| > 0 {
      var next := NextLevel(timeout, q);
      DrainLevel(lib, timeout, on, q, []);
      assert q + [] == q && [] + next == next;
      NextLevelSize(timeout, q);
      DrainIsLevelOrder(lib, timeout, on, next);
      assert LevelOrder(timeout, q) == LevelMsgs(timeout, q) + LevelOrder(timeout, next);
    }
  }

  /** Commands that all time out (or block forever) produce no message. */
  lemma {:induction false} SilentQueue(lib: Lib, timeout: int, on: bool, q: seq<Cmd>)
    requires forall i :: 0 <= i < |q| ==> !Answers(q[i], timeout)
    ensures DrainCmds(lib, timeout, on, q).msgs == []
    decreases |q|
  {
    if |q| > 0 {
      SilentQueue(lib, timeout, on, q[1..]);
      assert q[1..] + RunCmd(lib, timeout, on, q[0]).kids == q[1..];
    }
  }

  /** The loop of `processTeaCmds` as Go writes it: pending commands are
      moved behind the remaining inputs, the first input is run, and a batch
      becomes the new pending commands. */
  method DrainLoop(lib: Lib, timeout: int, on: bool, start: seq<Cmd>) returns (msgs: seq<Msg>, out: string)
    ensures Drained(msgs, out) == DrainCmds(lib, timeout, on, start)
  {
    var total := DrainCmds(lib, timeout, on, start);
    var inputs: seq<Cmd> := [];
    var pending := start;
    msgs, out := [], "";
    assert inputs + pending == start;
    while true
      invariant msgs + DrainCmds(lib, timeout, on, inputs + pending).msgs == total.msgs
      invariant out + DrainCmds(lib, timeout, on, inputs + pending).out == total.out
      decreases QueueSize(inputs + pending)
    {
      inputs := inputs + pending;
      pending := [];
      assert inputs + pending == inputs;
      if |inputs| == 0 {
        break;
      }
      var queue := inputs;
      var c := inputs[0];
      inputs := inputs[1..];
      var step := RunCmd(lib, timeout, on, c);
      QueueSizeAppend(inputs, step.kids);
      ghost var rest := DrainCmds(lib, timeout, on, inputs + step.kids);
      assert DrainCmds(lib, timeout, on, queue) == Drained(step.msgs + rest.msgs, step.out + rest.out);
      AppendAssoc(msgs, step.msgs, rest.msgs);
      AppendAssoc(out, step.out, rest.out);
      out := out + step.out;
      msgs := msgs + step.msgs;
      pending := step.kids;
    }
  }

  /** `processTeaCmds`: afterwards the command queue is empty and the
      messages the commands answered with follow the queued messages, in
      breadth-first order. */
  function ProcessCmds<M>(lib: Lib, d: Driver<M>, on: bool): (r: Driver<M>)
    ensures r == d.(cmds := [], msgs := d.msgs + LevelOrder(d.settings.cmdTimeout, d.cmds), result := r.result)
    ensures !on ==> r.result == d.result
  {
    var header := if |d.cmds| > 0 then Trace(on, "processing " + Itoa(|d.cmds|) + " cmds") else "";
    var drained := DrainCmds(lib, d.settings.cmdTimeout, on, d.cmds);
    DrainIsLevelOrder(lib, d.settings.cmdTimeout, on, d.cmds);
    d.(cmds := [], msgs := d.msgs + drained.msgs, result := d.result + header + drained.out)
  }

  /** `processTeaCmds` with its loop. */
  method ProcessTeaCmds<M>(lib: Lib, d: Driver<M>, on: bool) returns (r: Driver<M>)
    ensures r == ProcessCmds(lib, d, on)
  {
    var header := if |d.cmds| > 0 then Trace(on, "processing " + Itoa(|d.cmds|) + " cmds") else "";
    var msgs, out := DrainLoop(lib, d.settings.cmdTimeout, on, d.cmds);
    r := d.(cmds := [], msgs := d.msgs + msgs, result := d.result + header + out);
  }

  /** The messages `processTeaMsgs` passes to the model. */
  function UserMsgs(ms: seq<Msg>): (us: seq<Msg>)
    ensures |us| <= |ms|
    ensures forall i :: 0 <= i < |us| ==> !IsBuiltin(us[i])
  {
    if |ms| == 0 then []
    else if IsBuiltin(ms[0]) then UserMsgs(ms[1..])
    else [ms[0]] + UserMsgs(ms[1..])
  }

  /** Every message that is not built in reaches `Update`, and no other:
      the user messages are exactly the non-built-in members of the queue,
      and a queue without built-in messages is passed on whole. */
  lemma {:induction false} UserMsgsMembers(ms: seq<Msg>)
    ensures forall m :: m in UserMsgs(ms) <==> m in ms && !IsBuiltin(m)
    ensures (forall i :: 0 <= i < |ms| ==> !IsBuiltin(ms[i])) ==> UserMsgs(ms) == ms
  {
    if |ms| > 0 {
      UserMsgsMembers(ms[1..]);
      assert forall m :: m in ms <==> m == ms[0] || m in ms[1..];
      assert ms == [ms[0]] + ms[1..];
    }
  }

  /** Filtering keeps the order of the queue: the user messages of two
      queues in a row are those of the first, then those of the second. */
  lemma {:induction false} UserMsgsAppend(a: seq<Msg>, b: seq<Msg>)
    ensures UserMsgs(a + b) == UserMsgs(a) + UserMsgs(b)
  {
    if |a| == 0 {
      assert a + b == b;
    } else {
      UserMsgsAppend(a[1..], b);
      assert (a + b)[0] == a[0] && (a + b)[1..] == a[1..] + b;
      if !IsBuiltin(a[0]) {
        AppendAssoc([a[0]], UserMsgs(a[1..]), UserMsgs(b));
      }
    }
  }

  /** The lines `processTeaMsgs` prints for the built-in messages. */
  function BuiltinLines(ms: seq<Msg>): string {
    if |ms| == 0 then "" else BuiltinLine(ms[0]) + BuiltinLines(ms[1..])
  }

  /** The line `processTeaMsgs` prints for one message. */
  function BuiltinLine(m: Msg): string {
    if IsBuiltin(m) then TeaLine(m) else ""
  }

  /** Feeding messages to `Update` one after the other: the final model and
      the command of every call. */
  function Replay<M>(comp: Component<M>, m: M, us: seq<Msg>): (M, seq<Option<Cmd>>) {
    if |us| == 0 then (m, [])
    else
      var (m2, c) := comp.update(m, us[0]);
      var (m3, cs) := Replay(comp, m2, us[1..]);
      (m3, [c] + cs)
  }

  /** What draining the message queue produced. */
  datatype MsgsOut<!M> = MsgsOut(model: M, cmds: seq<Cmd>, out: string)

  /** What one message does to the model and the command queue: a
      built-in message nothing, any other the model and the non-nil command
      `Update` returns. */
  function Deliver<M>(comp: Component<M>, m: M, msg: Msg): (M, seq<Cmd>) {
    if IsBuiltin(msg) then (m, [])
    else
      var (m2, c) := comp.update(m, msg);
      (m2, Present([c]))
  }

  /** Replaying a queue: its first message first, then the rest. */
  lemma ReplayHead<M>(comp: Component<M>, m: M, ms: seq<Msg>)
    requires |ms| > 0
    ensures var (m2, cs) := Deliver(comp, m, ms[0]);
      var tail := Replay(comp, m2, UserMsgs(ms[1..]));
      && Replay(comp, m, UserMsgs(ms)).0 == tail.0
      && Present(Replay(comp, m, UserMsgs(ms)).1) == cs + Present(tail.1)
  {
    if !IsBuiltin(ms[0]) {
      var (m2, c) := comp.update(m, ms[0]);
      var tail := Replay(comp, m2, UserMsgs(ms[1..]));
      var us := UserMsgs(ms);
      assert us == [ms[0]] + UserMsgs(ms[1..]);
      assert us[0] == ms[0] && us[1..] == UserMsgs(ms[1..]);
      assert Replay(comp, m, us) == (tail.0, [c] + tail.1);
      PresentAppend([c], tail.1);
    }
  }

  /** The loop of `processTeaMsgs`: built-in messages are printed and leave
      the model alone; every other message goes to `Update`, whose model is
      kept and whose non-nil command is queued. */
  function DrainMsgs<M>(comp: Component<M>, lib: Lib, on: bool, m: M, ms: seq<Msg>): (r: MsgsOut<M>)
    ensures r.model == Replay(comp, m, UserMsgs(ms)).0
    ensures r.cmds == Present(Replay(comp, m, UserMsgs(ms)).1)
    ensures !on ==> r.out == BuiltinLines(ms)
  {
    if |ms| == 0 then MsgsOut(m, [], "")
    else
      var head := Trace(on, "msg " + lib.goSyntax(ms[0]));
      var (m2, cs) := Deliver(comp, m, ms[0]);
      var rest := DrainMsgs(comp, lib, on, m2, ms[1..]);
      ReplayHead(comp, m, ms);
      assert !on ==> head == "";
      MsgsOut(rest.model, cs + rest.cmds, head + (BuiltinLine(ms[0]) + rest.out))
  }

  /** `processTeaMsgs`: the message queue ends empty, the model has seen
      exactly the non-built-in messages in order, and their non-nil commands
      are queued after the pending ones. */
  function ProcessMsgs<M>(env: Env<M>, d: Driver<M>, on: bool): (r: Driver<M>)
    ensures r == d.(model := r.model, cmds := r.cmds, msgs := [], result := r.result)
    ensures r.model == Replay(env.comp, d.model, UserMsgs(d.msgs)).0
    ensures r.cmds == d.cmds + Present(Replay(env.comp, d.model, UserMsgs(d.msgs)).1)
    ensures !on ==> r.result == d.result + BuiltinLines(d.msgs)
  {
    var header := if |d.msgs| > 0 then Trace(on, "processing " + Itoa(|d.msgs|) + " messages") else "";
    var drained := DrainMsgs(env.comp, env.lib, on, d.model, d.msgs);
    assert !on ==> header == "" && d.result + header == d.result;
    d.(model := drained.model, cmds := d.cmds + drained.cmds, msgs := [], result := (d.result + header) + drained.out)
  }

  /** Built-in messages never reach the model. */
  lemma {:induction false} BuiltinsSkipUpdate<M>(comp: Component<M>, lib: Lib, on: bool, m: M, ms: seq<Msg>)
    requires forall i :: 0 <= i < |ms| ==> IsBuiltin(ms[i])
    ensures DrainMsgs(comp, lib, on, m, ms).model == m
    ensures DrainMsgs(comp, lib, on, m, ms).cmds == []
    decreases |ms|
  {
    if |ms| > 0 {
      BuiltinsSkipUpdate(comp, lib, on, m, ms[1..]);
    }
  }
}
