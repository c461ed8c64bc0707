/** Observing the model: `Observe` and the three built-in observers, and the
    `observe=(...)` list a `run` directive ends with.
 */
module Observe {
  import opened Base
  import opened GoStrings
  import opened GoConv
  import opened Tea
  import opened Interface
  import opened Engine

  /** U+2424 SYMBOL FOR NEWLINE, written before every newline of a view. */
  const NewlineMark: char := '\U{2424}'

  /** U+1F6C7 PROHIBITED SIGN, written after a view that does not end in a
      newline. */
  const NoNewlineMark: char := '\U{1F6C7}'

  /** The view with every newline made visible. */
  function MarkNewlines(v: string): (o: string)
    ensures |o| == |v| + Count(v, '\n')
    ensures o == [] || o[0] != '\n'
    ensures (o == []) == (v == [])
    ensures o != [] ==> o[|o| - 1] == v[|v| - 1]
  {
    if |v| == 0 then ""
    else
      var rest := MarkNewlines(v[1..]);
      assert v[1..] != [] ==> v[|v| - 1] == v[1..][|v[1..]| - 1];
      (if v[0] == '\n' then [NewlineMark, '\n'] else [v[0]]) + rest
  }

  /** `observeView`: newlines made visible, and a marker when the view does
      not end in a newline.  The text always ends in a newline or in the
      marker, and in the marker exactly when the view is empty or does not
      end in a newline. */
  function ObserveView(v: string): (o: string)
    ensures |o| > 0
    ensures o[|o| - 1] == '\n' || o[|o| - 1] == NoNewlineMark
    ensures o[|o| - 1] == NoNewlineMark <==> v == [] || v[|v| - 1] != '\n'
  {
    var marked := MarkNewlines(v);
    if |marked| == 0 || marked[|marked| - 1] != '\n' then marked + [NoNewlineMark] else marked
  }

  /** Reading the newlines back: every marker that stands right before a
      newline is dropped. */
  function UnmarkNewlines(o: string): string {
    if |o| == 0 then ""
    else if |o| >= 2 && o[0] == NewlineMark && o[1] == '\n' then "\n" + UnmarkNewlines(o[2..])
    else [o[0]] + UnmarkNewlines(o[1..])
  }

  /** The view an observed text came from. */
  function ViewOf(o: string): string {
    if |o| > 0 && o[|o| - 1] == NoNewlineMark then UnmarkNewlines(o[..|o| - 1]) else UnmarkNewlines(o)
  }

  lemma {:induction false} UnmarkMark(v: string)
    ensures UnmarkNewlines(MarkNewlines(v)) == v
  {
    if |v| > 0 {
      UnmarkMark(v[1..]);
      var rest := MarkNewlines(v[1..]);
      if v[0] == '\n' {
        assert MarkNewlines(v) == [NewlineMark, '\n'] + rest;
        assert MarkNewlines(v)[2..] == rest;
      } else {
        assert MarkNewlines(v) == [v[0]] + rest;
        assert MarkNewlines(v)[1..] == rest;
      }
      assert v == [v[0]] + v[1..];
    }
  }

  /** The view observer loses nothing: the view can be read back from what
      it prints, whatever characters the view contains. */
  lemma ViewRoundTrip(v: string)
    ensures ViewOf(ObserveView(v)) == v
  {
    var marked := MarkNewlines(v);
    UnmarkMark(v);
    if |marked| == 0 || marked[|marked| - 1] != '\n' {
      assert (marked + [NoNewlineMark])[..|marked|] == marked;
    }
  }

  /** The text an observer writes, or the error it returns.  The `debug`
      observer fails for a model without a `Debug() string` method. */
  function RunObserver<M>(comp: Component<M>, o: Observer<M>, m: M): (r: Result<string, string>)
    ensures o.ViewObserver? ==> r == Ok(ObserveView(comp.view(m)))
    ensures o.DebugObserver? ==> (r.Err? <==> comp.debug.None?)
    ensures o.GoStructObserver? ==> r == Ok(comp.dump(m))
  {
    match o
    case ViewObserver => Ok(ObserveView(comp.view(m)))
    case DebugObserver =>
      (match comp.debug
       case None => Err("model does not support a Debug() string method")
       case Some(f) => Ok(f(m)))
    case GoStructObserver => Ok(comp.dump(m))
    case CustomObserver(run) => run(m)
  }

  /** The lines `observe=msgs` prints for the queued messages, numbered from
      `from`. */
  function MsgLines(lib: Lib, ms: seq<Msg>, from: nat): (out: string)
    ensures |ms| > 0 ==> EndsInNewline(out)
  {
    if |ms| == 0 then ""
    else Itoa(from) + ":" + lib.typeOf(ms[0]) + ": " + lib.value(ms[0]) + "\n" + MsgLines(lib, ms[1..], from + 1)
  }

  /** Whether `Observe` succeeds for a name: the two queue views always do,
      and any other name needs a registered observer that succeeds. */
  predicate Observable<M>(env: Env<M>, d: Driver<M>, name: string) {
    || name == "msgs" || name == "cmds"
    || (name in d.settings.observers && RunObserver(env.comp, d.settings.observers[name], d.model).Ok?)
  }

  /** `Observe`: a header naming what is observed, then what it prints.  The
      queue views `msgs` and `cmds` take precedence over observers of the same
      name; an unknown name and a failing observer are fatal. */
  function ObserveOne<M>(env: Env<M>, d: Driver<M>, name: string): (r: Result<string, Failure>)
    ensures r.Ok? <==> Observable(env, d, name)
    ensures r.Ok? ==> HasPrefix(r.value, "-- " + name + ":\n") && |r.value| > 0
    ensures name == "msgs" ==> r.Ok? && HasPrefix(r.value, "-- " + name + ":\n" + "msg queue sz: " + Itoa(|d.msgs|) + "\n")
    ensures name == "cmds" ==> r == Ok("-- " + name + ":\n" + "command queue sz: " + Itoa(|d.cmds|) + "\n")
    ensures name != "msgs" && name != "cmds" && name !in d.settings.observers ==>
      r == Err(Failure(d.settings.pos, UnsupportedObserver(name)))
    ensures name != "msgs" && name != "cmds" && name in d.settings.observers ==>
      match RunObserver(env.comp, d.settings.observers[name], d.model)
      case Ok(text) => r == Ok("-- " + name + ":\n" + text)
      case Err(e) => r == Err(Failure(d.settings.pos, ObserverFailed(name, e)))
  {
    var header := "-- " + name + ":\n";
    if name == "msgs" then
      Ok(header + "msg queue sz: " + Itoa(|d.msgs|) + "\n" + MsgLines(env.lib, d.msgs, 0))
    else if name == "cmds" then
      Ok(header + "command queue sz: " + Itoa(|d.cmds|) + "\n")
    else if name !in d.settings.observers then
      Err(Failure(d.settings.pos, UnsupportedObserver(name)))
    else
      match RunObserver(env.comp, d.settings.observers[name], d.model)
      case Ok(text) => Ok(header + text)
      case Err(e) => Err(Failure(d.settings.pos, ObserverFailed(name, e)))
  }

  /** Appends `o` to the test output, then a newline if the output does not
      end in one. */
  function Terminate(result: string, o: string): (r: string)
    ensures HasPrefix(r, result + o)
    ensures |result + o| > 0 ==> EndsInNewline(r)
    ensures |r| <= |result + o| + 1
  {
    var s := result + o;
    if |s| > 0 && s[|s| - 1] != '\n' then s + "\n" else s
  }

  /** One observation as it stands in the output: newline-terminated. */
  function Block(o: string): (b: string)
    ensures HasPrefix(b, o) && EndsInNewline(b)
    ensures |b| <= |o| + 1
  {
    if EndsInNewline(o) then o else o + "\n"
  }

  /** The successful observations as they stand in the output, in order. */
  function Blocks(outs: seq<Result<string, Failure>>): string {
    if |outs| == 0 then ""
    else (if outs[0].Ok? then Block(outs[0].value) else "") + Blocks(outs[1..])
  }

  /** Terminating after a non-empty observation appends that observation's
      block, whatever the output before it. */
  lemma TerminateBlock(acc: string, o: string)
    requires |o| > 0
    ensures Terminate(acc, o) == acc + Block(o)
  {
    var s := acc + o;
    assert s[|s| - 1] == o[|o| - 1];
    if !EndsInNewline(o) {
      AppendAssoc(acc, o, "\n");
    }
  }

  /** The index of the first name that cannot be observed, or the length of
      the list when every name can. */
  function FirstFailing<M>(env: Env<M>, d: Driver<M>, names: seq<string>): (k: nat)
    ensures k <= |names|
    ensures k < |names| ==> !Observable(env, d, names[k])
    ensures forall i :: 0 <= i < k ==> Observable(env, d, names[i])
    decreases |names|
  {
    if |names| == 0 then 0
    else if !Observable(env, d, names[0]) then 0
    else
      var k := FirstFailing(env, d, names[1..]);
      assert forall i :: 1 <= i < 1 + k ==> names[i] == names[1..][i - 1];
      1 + k
  }

  /** The index of the first failed observation, or the length of the list
      when none failed. */
  function FirstErr(outs: seq<Result<string, Failure>>): (k: nat)
    ensures k <= |outs|
    ensures k < |outs| ==> outs[k].Err?
    ensures forall i :: 0 <= i < k ==> outs[i].Ok?
    decreases |outs|
  {
    if |outs| == 0 then 0
    else if outs[0].Err? then 0
    else
      var k := FirstErr(outs[1..]);
      assert forall i :: 1 <= i < 1 + k ==> outs[i] == outs[1..][i - 1];
      1 + k
  }

  /** The loop of `doObserve` over the observations, writing after the
      output `acc`: the first failed observation ends it with its failure;
      otherwise the output has only grown and ends in a newline. */
  function ObserveInto(acc: string, outs: seq<Result<string, Failure>>): (r: Result<string, Failure>)
    requires forall i :: 0 <= i < |outs| && outs[i].Ok? ==> |outs[i].value| > 0
    ensures var k := FirstErr(outs);
      && (r.Ok? <==> k == |outs|)
      && (r.Err? ==> k < |outs| && r.error == outs[k].error)
    ensures r.Ok? ==> HasPrefix(r.value, acc)
    ensures r.Ok? && |outs| > 0 ==> EndsInNewline(r.value)
    ensures r.Ok? ==> r.value == acc + Blocks(outs)
    decreases |outs|
  {
    if |outs| == 0 then Ok(acc)
    else if outs[0].Err? then Err(outs[0].error)
    else
      var r := ObserveInto(Terminate(acc, outs[0].value), outs[1..]);
      var k := FirstErr(outs[1..]);
      assert FirstErr(outs) == 1 + k;
      if r.Ok? then
        ObserveIntoOkStep(acc, outs[0].value, r.value, |outs| == 1);
        TerminateBlock(acc, outs[0].value);
        AppendAssoc(acc, Block(outs[0].value), Blocks(outs[1..]));
        r
      else
        assert outs[1 + k] == outs[1..][k];
        r
  }

  lemma ObserveIntoOkStep(acc: string, o: string, out: string, last: bool)
    requires |o| > 0 && HasPrefix(out, Terminate(acc, o))
    requires last ==> out == Terminate(acc, o)
    requires !last ==> EndsInNewline(out)
    ensures HasPrefix(out, acc)
    ensures EndsInNewline(out)
  {
    var acc2 := Terminate(acc, o);
    assert EndsInNewline(acc2);
    assert acc2[..|acc|] == (acc + o)[..|acc|];
    assert out[..|acc|] == acc2[..|acc|];
  }

  /** `Observe` applied to each name, in order. */
  function Observations<M>(env: Env<M>, d: Driver<M>, names: seq<string>): (outs: seq<Result<string, Failure>>)
    ensures |outs| == |names|
    ensures forall i :: 0 <= i < |names| ==> outs[i] == ObserveOne(env, d, names[i])
  {
    seq(|names|, i requires 0 <= i < |names| => ObserveOne(env, d, names[i]))
  }

  /** `doObserve`: observing changes nothing but the test output, and fails
      with the failure of the first name that cannot be observed. */
  function DoObserve<M>(env: Env<M>, d: Driver<M>, names: seq<string>): (r: Result<Driver<M>, Failure>)
    ensures r.Ok? <==> forall i :: 0 <= i < |names| ==> Observable(env, d, names[i])
    ensures var k := FirstFailing(env, d, names);
      r.Err? ==> k < |names| && r.error == ObserveOne(env, d, names[k]).error
    ensures r.Ok? ==> r.value == d.(result := r.value.result) && HasPrefix(r.value.result, d.result)
    ensures r.Ok? && |names| > 0 ==> EndsInNewline(r.value.result)
    ensures r.Ok? ==> r.value.result == d.result + Blocks(Observations(env, d, names))
  {
    var outs := Observations(env, d, names);
    assert FirstErr(outs) == FirstFailing(env, d, names) by {
      var a, b := FirstErr(outs), FirstFailing(env, d, names);
      assert forall i :: 0 <= i < |names| ==> (outs[i].Ok? <==> Observable(env, d, names[i]));
      assert !(a < b) && !(b < a);
    }
    var out :- ObserveInto(d.result, outs);
    Ok(d.(result := out))
  }

  /** The index of the first `observe` argument, or the number of
      arguments when there is none. */
  function FirstObserve(args: seq<CmdArg>): (k: nat)
    ensures k <= |args|
    ensures k < |args| ==> args[k].key == "observe"
    ensures forall i :: 0 <= i < k ==> args[i].key != "observe"
  {
    if |args| == 0 then 0
    else if args[0].key == "observe" then 0
    else
      var k := FirstObserve(args[1..]);
      assert forall i :: 1 <= i < 1 + k ==> args[i] == args[1..][i - 1];
      1 + k
  }

  /** The observation list of a `run` directive: the values of its first
      `observe` argument, or just the view. */
  function ObserveList(args: seq<CmdArg>): (r: seq<string>)
    ensures var k := FirstObserve(args);
      && (k < |args| ==> r == args[k].vals)
      && (k == |args| ==> r == ["view"])
  {
    if |args| == 0 then ["view"]
    else if args[0].key == "observe" then args[0].vals
    else
      var r := ObserveList(args[1..]);
      assert FirstObserve(args) == 1 + FirstObserve(args[1..]);
      assert FirstObserve(args) < |args| ==> args[FirstObserve(args)] == args[1..][FirstObserve(args[1..])];
      r
  }

  /** Without an `observe` argument only the view is observed, and a later
      `observe` argument never overrides the first. */
  lemma ObserveListDefault(args: seq<CmdArg>, more: seq<CmdArg>)
    ensures (forall i :: 0 <= i < |args| ==> args[i].key != "observe") ==> ObserveList(args) == ["view"]
    ensures HasArg(args, "observe") ==> ObserveList(args + more) == ObserveList(args)
  {
    var k := FirstObserve(args);
    if HasArg(args, "observe") {
      var j :| 0 <= j < |args| && args[j].key == "observe";
      assert k <= j;
      var both := args + more;
      assert forall i :: 0 <= i < |args| ==> both[i] == args[i];
      var kb := FirstObserve(both);
      assert !(kb < k) && !(k < kb);
    }
  }

  /** `TestData.HasArg`. */
  predicate HasArg(args: seq<CmdArg>, key: string) {
    exists i :: 0 <= i < |args| && args[i].key == key
  }
}
