/** `NewDriver` and its options: the built-in observers, the default
    command timeout, and the options applied in order on top of them.
 */
module Options {
  import opened Base
  import opened Interface
  import opened Updaters
  import opened Engine

  /** An `Option` of `NewDriver`. */
  datatype DriverOption<!M> =
    | WithUpdater(upd: Option<Updater<M>>)
    | WithObserver(name: string, obs: Observer<M>)
    | WithAutoInitDisabled
    | WithWindowSize(width: int, height: int)

  /** The observers every driver starts with. */
  function BuiltinObservers<M>(): map<string, Observer<M>> {
    map["view" := ViewObserver, "debug" := DebugObserver, "gostruct" := GoStructObserver]
  }

  /** One option applied to the driver.  `WithUpdater` chains the updater
      after the one already installed, through `ChainUpdaters`. */
  function ApplyOption<M>(d: Driver<M>, o: DriverOption<M>): (r: Driver<M>)
    ensures r.model == d.model && r.cmds == d.cmds && r.msgs == d.msgs && r.result == d.result
    ensures r.settings.cmdTimeout == d.settings.cmdTimeout && r.startDone == d.startDone && r.settings.pos == d.settings.pos
  {
    match o
    case WithUpdater(u) => d.(settings := d.settings.(upd := Some(ChainUpdaters([d.settings.upd, u]))))
    case WithObserver(name, obs) => d.(settings := d.settings.(observers := d.settings.observers[name := obs]))
    case WithAutoInitDisabled => d.(settings := d.settings.(disableAutoInit := true))
    case WithWindowSize(w, h) => d.(settings := d.settings.(autoSize := true, width := w, height := h))
  }

  /** The options applied in order. */
  function ApplyOptions<M>(d: Driver<M>, opts: seq<DriverOption<M>>): Driver<M> {
    if |opts| == 0 then d
    else ApplyOption(ApplyOptions(d, opts[..|opts| - 1]), opts[|opts| - 1])
  }

  // Reference definitions: what the options ask for, read off the list.

  /** The updaters of the `WithUpdater` options, in order. */
  function UpdatersOf<M>(opts: seq<DriverOption<M>>): seq<Option<Updater<M>>> {
    if |opts| == 0 then []
    else UpdatersOf(opts[..|opts| - 1]) + (if opts[|opts| - 1].WithUpdater? then [opts[|opts| - 1].upd] else [])
  }

  /** The observer the last `WithObserver` option for `name` gives, if any. */
  function LastObserver<M>(opts: seq<DriverOption<M>>, name: string): Option<Observer<M>> {
    if |opts| == 0 then None
    else
      var o := opts[|opts| - 1];
      if o.WithObserver? && o.name == name then Some(o.obs) else LastObserver(opts[..|opts| - 1], name)
  }

  /** The size the last `WithWindowSize` option gives, if any. */
  function LastSize<M>(opts: seq<DriverOption<M>>): Option<(int, int)> {
    if |opts| == 0 then None
    else
      var o := opts[|opts| - 1];
      if o.WithWindowSize? then Some((o.width, o.height)) else LastSize(opts[..|opts| - 1])
  }

  /** Options touch neither the model, the queues, the output, the timeout
      nor the start flag. */
  lemma {:induction false} ApplyOptionsFrame<M>(d: Driver<M>, opts: seq<DriverOption<M>>)
    ensures var r := ApplyOptions(d, opts);
      && r.model == d.model && r.cmds == d.cmds && r.msgs == d.msgs && r.result == d.result
      && r.settings.cmdTimeout == d.settings.cmdTimeout && r.startDone == d.startDone && r.settings.pos == d.settings.pos
    decreases |opts|
  {
    if |opts| > 0 {
      ApplyOptionsFrame(d, opts[..|opts| - 1]);
    }
  }

  /** Each observer is the one the last `WithObserver` for its name gives;
      the observers no option names are the driver's own. */
  lemma {:induction false} ApplyOptionsObservers<M>(d: Driver<M>, opts: seq<DriverOption<M>>)
    ensures var r := ApplyOptions(d, opts);
      && (forall name :: LastObserver(opts, name).Some? ==>
            name in r.settings.observers && r.settings.observers[name] == LastObserver(opts, name).value)
      && (forall name :: LastObserver(opts, name).None? ==>
            (name in r.settings.observers <==> name in d.settings.observers)
            && (name in d.settings.observers ==> r.settings.observers[name] == d.settings.observers[name]))
    decreases |opts|
  {
    if |opts| > 0 {
      ApplyOptionsObservers(d, opts[..|opts| - 1]);
    }
  }

  /** Auto-init is disabled exactly when an option disables it. */
  lemma {:induction false} ApplyOptionsAutoInit<M>(d: Driver<M>, opts: seq<DriverOption<M>>)
    ensures ApplyOptions(d, opts).settings.disableAutoInit
      <==> d.settings.disableAutoInit || exists i :: 0 <= i < |opts| && opts[i].WithAutoInitDisabled?
    decreases |opts|
  {
    if |opts| > 0 {
      var init, o := opts[..|opts| - 1], opts[|opts| - 1];
      ApplyOptionsAutoInit(d, init);
      if o.WithAutoInitDisabled? {
        assert opts[|opts| - 1].WithAutoInitDisabled?;
      } else {
        assert ApplyOptions(d, opts).settings.disableAutoInit == ApplyOptions(d, init).settings.disableAutoInit;
        if exists i :: 0 <= i < |opts| && opts[i].WithAutoInitDisabled? {
          var i :| 0 <= i < |opts| && opts[i].WithAutoInitDisabled?;
          assert init[i] == opts[i];
        }
        if exists i :: 0 <= i < |init| && init[i].WithAutoInitDisabled? {
          var i :| 0 <= i < |init| && init[i].WithAutoInitDisabled?;
          assert init[i] == opts[i];
        }
      }
    }
  }

  /** The auto-size flag and the size are those of the last
      `WithWindowSize`, or the driver's own when there is none. */
  lemma {:induction false} ApplyOptionsSize<M>(d: Driver<M>, opts: seq<DriverOption<M>>)
    ensures var r := ApplyOptions(d, opts).settings;
      && (LastSize(opts).Some? ==> r.autoSize && (r.width, r.height) == LastSize(opts).value)
      && (LastSize(opts).None? ==> r.autoSize == d.settings.autoSize && r.width == d.settings.width && r.height == d.settings.height)
    decreases |opts|
  {
    if |opts| > 0 {
      ApplyOptionsSize(d, opts[..|opts| - 1]);
    }
  }

  /** Starting from no updater, the updater is the fold of `ChainUpdaters`
      over the registered updaters, in order. */
  lemma {:induction false} ApplyOptionsUpdater<M>(d: Driver<M>, opts: seq<DriverOption<M>>)
    requires d.settings.upd.None?
    ensures ApplyOptions(d, opts).settings.upd == Registered(UpdatersOf(opts))
    decreases |opts|
  {
    if |opts| > 0 {
      var init, o := opts[..|opts| - 1], opts[|opts| - 1];
      ApplyOptionsUpdater(d, init);
      var u := UpdatersOf(init);
      var before := ApplyOptions(d, init);
      assert ApplyOptions(d, opts) == ApplyOption(before, o);
      if o.WithUpdater? {
        assert UpdatersOf(opts) == u + [o.upd];
        assert (u + [o.upd])[..|u|] == u;
        assert Registered(u + [o.upd]) == Some(ChainUpdaters([Registered(u), o.upd]));
      } else {
        assert UpdatersOf(opts) == u + [];
        assert u + [] == u;
      }
    }
  }

  /** `NewDriver`: the model, the 20ms timeout and the three built-in
      observers, then the options in order. */
  function NewDriver<M>(m: M, opts: seq<DriverOption<M>>): (r: Driver<M>)
    ensures r.model == m && r.result == "" && r.cmds == [] && r.msgs == []
    ensures r.settings.cmdTimeout == DefaultCmdTimeout && !r.startDone
  {
    var d := Driver(m, "", [], [], false, Settings(DefaultCmdTimeout, BuiltinObservers(), None, false, false, 0, 0, ""));
    ApplyOptionsFrame(d, opts);
    ApplyOptions(d, opts)
  }

  /** The options of `NewDriver` as seen from the driver: a registered
      observer replaces a built-in one of the same name, the flags are set
      exactly by their options, and the updater, if any option gave one, is
      a flat chain of the registered updaters in registration order. */
  lemma NewDriverOptions<M>(m: M, opts: seq<DriverOption<M>>, verb: string, args: seq<string>)
    ensures var r := NewDriver(m, opts);
      && (forall name :: name in r.settings.observers <==> name in BuiltinObservers<M>() || LastObserver(opts, name).Some?)
      && (forall name :: LastObserver(opts, name).Some? ==> r.settings.observers[name] == LastObserver(opts, name).value)
      && (r.settings.disableAutoInit <==> exists i :: 0 <= i < |opts| && opts[i].WithAutoInitDisabled?)
      && (r.settings.autoSize <==> LastSize(opts).Some?)
      && (r.settings.upd.Some? <==> exists i :: 0 <= i < |opts| && opts[i].WithUpdater?)
      && (r.settings.upd.Some? ==> Agree(r.settings.upd.value, Chain(Present(UpdatersOf(opts))), m, verb, args))
  {
    var d := Driver(m, "", [], [], false, Settings(DefaultCmdTimeout, BuiltinObservers(), None, false, false, 0, 0, ""));
    ApplyOptionsObservers(d, opts);
    ApplyOptionsAutoInit(d, opts);
    ApplyOptionsSize(d, opts);
    ApplyOptionsUpdater(d, opts);
    UpdatersOfCount(opts);
    if |UpdatersOf(opts)| >= 1 {
      RegisteredIsFlatChain(UpdatersOf(opts), m, verb, args);
    }
  }

  /** There is a registered updater exactly when some option is `WithUpdater`. */
  lemma {:induction false} UpdatersOfCount<M>(opts: seq<DriverOption<M>>)
    ensures |UpdatersOf(opts)| >= 1 <==> exists i :: 0 <= i < |opts| && opts[i].WithUpdater?
    decreases |opts|
  {
    if |opts| > 0 {
      var init := opts[..|opts| - 1];
      UpdatersOfCount(init);
      assert forall i :: 0 <= i < |init| ==> init[i] == opts[i];
    }
  }

  /** The loop of `NewDriver`, one option after the other. */
  method NewDriverLoop<M>(m: M, opts: seq<DriverOption<M>>) returns (d: Driver<M>)
    ensures d == NewDriver(m, opts)
  {
    d := Driver(m, "", [], [], false, Settings(DefaultCmdTimeout, BuiltinObservers(), None, false, false, 0, 0, ""));
    ghost var base := d;
    var i := 0;
    while i < |opts|
      invariant 0 <= i <= |opts|
      invariant d == ApplyOptions(base, opts[..i])
    {
      assert opts[..i + 1][..i] == opts[..i];
      d := ApplyOption(d, opts[i]);
      i := i + 1;
    }
    assert opts[..|opts|] == opts;
  }

  /** The chain of `options_test.go`: an updater for `hello` alone is
      returned itself and supports `hello`; chained with one for `world`
      both are supported and `unknown` is not; the empty chain rejects
      `unknown`. */
  lemma ChainUpdatersExample<M>(m: M)
    ensures var hello: Updater<M> := Func((_, verb, _) => Reply(verb == "hello", None, None, None));
      var world: Updater<M> := Func((_, verb, _) => Reply(verb == "world", None, None, None));
      var both := ChainUpdaters([Some(hello), Some(world)]);
      && ChainUpdaters([Some(hello)]) == hello
      && Apply(ChainUpdaters([Some(hello)]), m, "hello", []).supported
      && Apply(both, m, "hello", []).supported
      && Apply(both, m, "world", []).supported
      && !Apply(both, m, "unknown", []).supported
      && !Apply(ChainUpdaters<M>([]), m, "unknown", []).supported
  {
    var hello: Updater<M> := Func((_, verb, _) => Reply(verb == "hello", None, None, None));
    var world: Updater<M> := Func((_, verb, _) => Reply(verb == "world", None, None, None));
    var us := [hello, world];
    assert Present([Some(hello), Some(world)]) == us;
    ChainFirstClaim(us, 0, m, "hello", []);
    ChainFirstClaim(us, 1, m, "world", []);
    ChainNoClaim(us, m, "unknown", []);
    ChainNoClaim([], m, "unknown", []);
  }
}
