/** `ApplyTextCommand`: the commands of a `run` block.  `resize`, `key`,
    `type` and (in the current revision) `enter` queue messages; any other
    command goes to the updater, whose new model replaces the driver's.
 */
module Commands {
  import opened Base
  import opened GoStrings
  import opened GoConv
  import opened Tea
  import opened Interface
  import opened Updaters
  import opened Engine

  /** The driver after a command, and the `tea.Cmd` the command returned. */
  datatype Applied<!M> = Applied(driver: Driver<M>, cmd: Option<Cmd>)

  /** `keys` types `text` one character at a time: key `i` is a rune key
      holding exactly character `i`, with the Alt flag `alt`. */
  predicate TypesEach(keys: seq<Msg>, text: string, alt: bool) {
    |keys| == |text| && forall i :: 0 <= i < |text| ==> keys[i] == KeyPress(RuneKey(text[i], alt))
  }

  /** One rune key per character of `text`. */
  function TypeText(text: string, alt: bool): (keys: seq<Msg>)
    ensures TypesEach(keys, text, alt)
  {
    if |text| == 0 then [] else [KeyPress(RuneKey(text[0], alt))] + TypeText(text[1..], alt)
  }

  /** `typeIn`: the words joined by single spaces, typed one rune at a time. */
  function TypeIn(args: seq<string>, alt: bool): seq<Msg> {
    TypeText(Join(args, ' '), alt)
  }

  /** The runes a message types: those of a key press, none otherwise. */
  function Runes(m: Msg): string {
    if m.KeyPress? then m.key.runes else ""
  }

  /** The text a sequence of key messages types: the runes of every key. */
  function Typed(keys: seq<Msg>): string {
    if |keys| == 0 then "" else Runes(keys[0]) + Typed(keys[1..])
  }

  /** Typing a text and reading the runes back gives the text. */
  lemma {:induction false} TypedTypeText(text: string, alt: bool)
    ensures Typed(TypeText(text, alt)) == text
    ensures forall i :: 0 <= i < |text| ==> TypeText(text, alt)[i].KeyPress? && TypeText(text, alt)[i].key.alt == alt
  {
    if |text| > 0 {
      TypedTypeText(text[1..], alt);
      assert [text[0]] + text[1..] == text;
    }
  }

  /** `resize W H`: queues a window-size message; both sizes must be
      integers that `strconv.Atoi` accepts. */
  function ApplyResize<M>(d: Driver<M>, args: seq<string>): (r: Result<Driver<M>, Failure>)
    ensures |args| != 2 ==> r == Err(Failure(d.settings.pos, WrongArgCount(2, |args|)))
    ensures r.Ok? <==> |args| == 2 && Atoi(args[0]).Some? && Atoi(args[1]).Some?
    ensures r.Ok? ==> r.value == d.(msgs := d.msgs + [WindowSize(Atoi(args[0]).value, Atoi(args[1]).value)])
    ensures |args| == 2 && Atoi(args[0]).None? ==> r == Err(Failure(d.settings.pos, BadInteger(args[0])))
    ensures |args| == 2 && Atoi(args[0]).Some? && Atoi(args[1]).None? ==> r == Err(Failure(d.settings.pos, BadInteger(args[1])))
  {
    if |args| != 2 then Err(Failure(d.settings.pos, WrongArgCount(2, |args|)))
    else
      match Atoi(args[0])
      case None => Err(Failure(d.settings.pos, BadInteger(args[0])))
      case Some(w) =>
        match Atoi(args[1])
        case None => Err(Failure(d.settings.pos, BadInteger(args[1])))
        case Some(h) => Ok(d.(msgs := d.msgs + [WindowSize(w, h)]))
  }

  /** The key name of a `key` argument, without its `alt+` prefix. */
  function KeyName(arg: string): string {
    TrimPrefix(arg, "alt+")
  }

  /** `key NAME`: queues one key message.  A name of the key table gives that
      key; any other name must be one byte long, i.e. a single ASCII
      character, and is typed as a rune.  An `alt+` prefix sets the Alt flag. */
  function ApplyKey<M>(lib: Lib, d: Driver<M>, args: seq<string>): (r: Result<Driver<M>, Failure>)
    ensures |args| != 1 ==> r == Err(Failure(d.settings.pos, WrongArgCount(1, |args|)))
    ensures r.Ok? <==>
      |args| == 1 && (KeyName(args[0]) in lib.keys || (|KeyName(args[0])| == 1 && KeyName(args[0])[0] < '\U{0080}'))
    ensures r.Err? && |args| == 1 ==> r == Err(Failure(d.settings.pos, UnknownKey(KeyName(args[0]))))
    ensures r.Ok? ==>
      var name, alt := KeyName(args[0]), HasPrefix(args[0], "alt+");
      && r.value == d.(msgs := r.value.msgs)
      && |r.value.msgs| == |d.msgs| + 1
      && r.value.msgs[..|d.msgs|] == d.msgs
      && r.value.msgs[|d.msgs|].KeyPress?
      && r.value.msgs[|d.msgs|].key.alt == alt
      && (name in lib.keys ==> r.value.msgs[|d.msgs|].key == lib.keys[name].(alt := alt))
      && (name !in lib.keys ==> r.value.msgs[|d.msgs|].key == RuneKey(name[0], alt))
  {
    if |args| != 1 then Err(Failure(d.settings.pos, WrongArgCount(1, |args|)))
    else
      var alt := HasPrefix(args[0], "alt+");
      var name := KeyName(args[0]);
      ByteLenOne(name);
      if name in lib.keys then
        Ok(d.(msgs := d.msgs + [KeyPress(lib.keys[name].(alt := alt))]))
      else if ByteLen(name) != 1 then
        Err(Failure(d.settings.pos, UnknownKey(name)))
      else
        assert Join([name], ' ') == name;
        Ok(d.(msgs := d.msgs + TypeIn([name], alt)))
  }

  /** A command the updater handles: its error and an unsupported command are
      fatal, as is a nil model (the driver could not go on with it);
      otherwise the updater's model replaces the driver's. */
  function ApplyUpdater<M>(d: Driver<M>, verb: string, args: seq<string>): (r: Result<Applied<M>, Failure>)
    ensures d.settings.upd.None? ==> r == Err(Failure(d.settings.pos, NoUpdater(verb)))
    ensures d.settings.upd.Some? ==>
      var reply := Apply(d.settings.upd.value, d.model, verb, args);
      && (r.Ok? <==> reply.err.None? && reply.supported && reply.model.Some?)
      && (reply.err.Some? ==> r == Err(Failure(d.settings.pos, UpdaterFailed(reply.err.value))))
      && (reply.err.None? && !reply.supported ==> r == Err(Failure(d.settings.pos, UnknownCommand(verb))))
      && (r.Ok? ==> r.value == Applied(d.(model := reply.model.value), reply.cmd))
  {
    match d.settings.upd
    case None => Err(Failure(d.settings.pos, NoUpdater(verb)))
    case Some(u) =>
      var reply := Apply(u, d.model, verb, args);
      if reply.err.Some? then Err(Failure(d.settings.pos, UpdaterFailed(reply.err.value)))
      else if !reply.supported then Err(Failure(d.settings.pos, UnknownCommand(verb)))
      else if reply.model.None? then Err(Failure(d.settings.pos, NilModel(verb)))
      else Ok(Applied(d.(model := reply.model.value), reply.cmd))
  }

  /** The commands the driver handles itself in a revision. */
  predicate IsDriverVerb(rev: Revision, verb: string) {
    verb == "resize" || verb == "key" || verb == "type" || (verb == "enter" && rev == Current)
  }

  /** `ApplyTextCommand`.  The driver's own commands only queue messages
      after the pending ones and return no command; every other command is
      the updater's. */
  function ApplyTextCommand<M>(env: Env<M>, d: Driver<M>, verb: string, args: seq<string>): (r: Result<Applied<M>, Failure>)
    ensures IsDriverVerb(env.rev, verb) && r.Ok? ==>
      && r.value.cmd.None?
      && r.value.driver == d.(msgs := r.value.driver.msgs)
      && |r.value.driver.msgs| >= |d.msgs|
      && r.value.driver.msgs[..|d.msgs|] == d.msgs
    ensures verb == "type" ==>
      && r.Ok?
      && Typed(r.value.driver.msgs[|d.msgs|..]) == Join(args, ' ')
      && TypesEach(r.value.driver.msgs[|d.msgs|..], Join(args, ' '), false)
    ensures verb == "enter" && env.rev == Current ==>
      && r.Ok?
      && |r.value.driver.msgs| == |d.msgs| + |Join(args, ' ')| + 1
      && Typed(r.value.driver.msgs[|d.msgs|..]) == Join(args, ' ')
      && TypesEach(r.value.driver.msgs[|d.msgs|..|r.value.driver.msgs| - 1], Join(args, ' '), false)
      && r.value.driver.msgs[|r.value.driver.msgs| - 1] == KeyPress(Key(KeyEnter, "", false))
    ensures verb == "key" ==>
      && (r.Ok? <==> ApplyKey(env.lib, d, args).Ok?)
      && (r.Ok? ==> r.value == Applied(ApplyKey(env.lib, d, args).value, None))
      && (r.Err? ==> r.error == ApplyKey(env.lib, d, args).error)
    ensures verb == "resize" ==>
      && (r.Ok? <==> ApplyResize(d, args).Ok?)
      && (r.Ok? ==> r.value == Applied(ApplyResize(d, args).value, None))
      && (r.Err? ==> r.error == ApplyResize(d, args).error)
    ensures !IsDriverVerb(env.rev, verb) ==> r == ApplyUpdater(d, verb, args)
  {
    if verb == "resize" then
      var d2 :- ApplyResize(d, args);
      Ok(Applied(d2, None))
    else if verb == "key" then
      var d2 :- ApplyKey(env.lib, d, args);
      Ok(Applied(d2, None))
    else if verb == "type" then
      var keys := TypeIn(args, false);
      TypedTypeText(Join(args, ' '), false);
      assert (d.msgs + keys)[|d.msgs|..] == keys;
      Ok(Applied(d.(msgs := d.msgs + keys), None))
    else if verb == "enter" && env.rev == Current then
      var keys := TypeIn(args, false) + [KeyPress(Key(KeyEnter, "", false))];
      TypedTypeText(Join(args, ' '), false);
      TypedAppend(TypeIn(args, false), [KeyPress(Key(KeyEnter, "", false))]);
      assert (d.msgs + keys)[|d.msgs|..] == keys;
      assert (d.msgs + keys)[|d.msgs|..|d.msgs + keys| - 1] == TypeIn(args, false);
      Ok(Applied(d.(msgs := d.msgs + keys), None))
    else
      ApplyUpdater(d, verb, args)
  }

  lemma {:induction false} TypedAppend(a: seq<Msg>, b: seq<Msg>)
    ensures Typed(a + b) == Typed(a) + Typed(b)
  {
    if |a| == 0 {
      assert a + b == b;
    } else {
      TypedAppend(a[1..], b);
      assert (a + b)[0] == a[0] && (a + b)[1..] == a[1..] + b;
      AppendAssoc(Runes(a[0]), Typed(a[1..]), Typed(b));
    }
  }

  /** A `type` line types its text back exactly, spaces included: the line is
      split on single spaces and `typeIn` joins the words with single spaces. */
  lemma TypeLineRoundTrip<M>(env: Env<M>, d: Driver<M>, text: string)
    ensures var words := Split("type " + text, ' ');
      && words[0] == "type"
      && ApplyTextCommand(env, d, words[0], words[1..]).Ok?
      && Typed(ApplyTextCommand(env, d, words[0], words[1..]).value.driver.msgs[|d.msgs|..]) == text
  {
    SplitPrefix("type", text, ' ');
    assert "type " + text == "type" + [' '] + text;
    JoinSplit(text, ' ');
  }

  /** In the early revision `enter` is not a driver command: it goes to the
      updater like any unknown command. */
  lemma EarlyEnterGoesToUpdater<M>(env: Env<M>, d: Driver<M>, args: seq<string>)
    requires env.rev == Early
    ensures ApplyTextCommand(env, d, "enter", args) == ApplyUpdater(d, "enter", args)
    ensures d.settings.upd.None? ==> ApplyTextCommand(env, d, "enter", args) == Err(Failure(d.settings.pos, NoUpdater("enter")))
  {
  }

  /** A key name that is neither in the key table nor a single ASCII
      character, such as a lone non-ASCII letter, stops the test. */
  lemma NonAsciiKeyIsFatal<M>(env: Env<M>, d: Driver<M>, c: char)
    requires c >= '\U{0080}' && [c] !in env.lib.keys
    ensures ApplyTextCommand(env, d, "key", [[c]]) == Err(Failure(d.settings.pos, UnknownKey([c])))
    ensures ApplyTextCommand(env, d, "key", ["alt+" + [c]]) == Err(Failure(d.settings.pos, UnknownKey([c])))
  {
    assert !HasPrefix([c], "alt+");
    assert HasPrefix("alt+" + [c], "alt+");
    assert KeyName("alt+" + [c]) == [c];
  }
}
