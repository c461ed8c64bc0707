/** The keymap updater: the `keybind` and `keyhelp` test commands, which
    change a `key.Binding` field of a keymap struct inside the model.
 */
module Bindings {
  import opened Base
  import opened GoStrings
  import opened Widgets
  import opened Reflect
  import opened Interface
  import opened Lookup

  /** `getBinding`: the path of the binding field named `name`. */
  function GetBinding(t: Target, name: string): Result<Path, Error> {
    FindField(t, name, WantBinding)
  }

  /** The three words a one-word rebind understands. */
  predicate IsWord(newKeys: seq<string>, word: string) {
    |newKeys| == 1 && newKeys[0] == word
  }

  /** What a rebind does to the binding itself: `enable` and `disable`
      toggle it, `unbind` clears its keys and help, and anything else becomes
      exactly the new key list. */
  function Rebind(b: Binding, newKeys: seq<string>): (r: Binding)
    ensures IsWord(newKeys, "enable") ==> !r.disabled && r.keys == b.keys && r.help == b.help
    ensures IsWord(newKeys, "disable") ==> r.disabled && r.keys == b.keys && r.help == b.help
    ensures IsWord(newKeys, "unbind") ==> r.keys == [] && r.help == Help("", "") && r.disabled == b.disabled
    ensures !IsWord(newKeys, "enable") && !IsWord(newKeys, "disable") && !IsWord(newKeys, "unbind") ==>
      r.keys == newKeys && r.help == b.help && r.disabled == b.disabled
  {
    if IsWord(newKeys, "enable") then b.SetEnabled(true)
    else if IsWord(newKeys, "disable") then b.SetEnabled(false)
    else if IsWord(newKeys, "unbind") then b.Unbind()
    else b.SetKeys(newKeys)
  }

  /** Applies a binding change to the field named `name`; a failed lookup
      changes nothing and is the error returned. */
  function EditBinding(t: Target, name: string, change: Binding -> Binding): (r: Edited)
    ensures r.err.Some? <==> GetBinding(t, name).Err?
    ensures r.err.Some? ==> r.err.value == GetBinding(t, name).error && r.target == t
    ensures r.err.None? ==>
      && GetBinding(r.target, name) == GetBinding(t, name)
      && FoundValue(r.target, name, WantBinding)
         == BindingVal(change(FoundValue(t, name, WantBinding).binding))
    ensures r.err.None? ==> forall q :: Diverge(GetBinding(t, name).value, q) ==>
      GetAt(r.target.pointee, q) == GetAt(t.pointee, q)
  {
    match GetBinding(t, name)
    case Err(e) => Edited(t, Some(e))
    case Ok(_) =>
      var b := FoundValue(t, name, WantBinding).binding;
      Edited(Store(t, name, WantBinding, BindingVal(change(b))), None)
  }

  /** `applyKeyRebind`. */
  function ApplyKeyRebind(t: Target, name: string, newKeys: seq<string>): Edited {
    EditBinding(t, name, b => Rebind(b, newKeys))
  }

  /** `applyKeyNewHelp`. */
  function ApplyKeyNewHelp(t: Target, name: string, helpKey: string, helpText: string): Edited {
    EditBinding(t, name, (b: Binding) => b.SetHelp(helpKey, helpText))
  }

  /** `handleKeyMapUpdate`, where `prefix` already ends in a dot. */
  function HandleKeyMapUpdate<M>(prefix: string, a: Applier<M>, m: M, verb: string, args: seq<string>): (r: Reply<M>)
    ensures r.cmd.None?
    ensures r.supported <==>
      && ((verb == "keybind" && |args| >= 2) || (verb == "keyhelp" && |args| >= 3))
      && HasPrefix(args[0], prefix)
    ensures !r.supported ==> r.model == Some(m)
    ensures !r.supported && r.err.Some? <==>
      (verb == "keybind" && |args| < 2) || (verb == "keyhelp" && |args| < 3)
    ensures r.supported ==> r.model.Some?
  {
    if verb == "keybind" then
      if |args| < 2 then Reply(false, Some(m), None, Some(SyntaxError("keybind <bindingname> <newkey...>")))
      else if !HasPrefix(args[0], prefix) then Reply(false, Some(m), None, None)
      else
        var name := TrimPrefix(args[0], prefix);
        var (m2, err) := RunApplier(a, m, t => ApplyKeyRebind(t, name, args[1..]));
        Reply(true, Some(m2), None, err)
    else if verb == "keyhelp" then
      if |args| < 3 then Reply(false, Some(m), None, Some(SyntaxError("keyhelp <bindingname> <helpkey> <helptext...>")))
      else if !HasPrefix(args[0], prefix) then Reply(false, Some(m), None, None)
      else
        var name := TrimPrefix(args[0], prefix);
        var (m2, err) := RunApplier(a, m, t => ApplyKeyNewHelp(t, name, args[1], Join(args[2..], ' ')));
        Reply(true, Some(m2), None, err)
    else Reply(false, Some(m), None, None)
  }

  /** Through a lawful applier, a claimed `keybind` leaves the model as it was
      when the lookup fails, and otherwise leaves the rebound binding in the
      model's keymap. */
  lemma KeybindThroughLens<M>(prefix: string, a: Applier<M>, m: M, args: seq<string>)
    requires LawfulAt(a, m)
    requires |args| >= 2 && HasPrefix(args[0], prefix)
    ensures var r := HandleKeyMapUpdate(prefix, a, m, "keybind", args);
      var name := args[0][|prefix|..];
      var t := a.focus(m);
      && r.supported
      && (r.err.Some? <==> GetBinding(t, name).Err?)
      && (r.err.Some? ==> r.model == Some(m))
      && (r.err.None? ==>
            GetBinding(a.focus(r.model.value), name) == GetBinding(t, name)
            && FoundValue(a.focus(r.model.value), name, WantBinding)
               == BindingVal(Rebind(FoundValue(t, name, WantBinding).binding, args[1..])))
  {
    var name := TrimPrefix(args[0], prefix);
    assert name == args[0][|prefix|..];
    var e := ApplyKeyRebind(a.focus(m), name, args[1..]);
    assert HandleKeyMapUpdate(prefix, a, m, "keybind", args) == Reply(true, Some(a.restore(m, e.target)), None, e.err);
  }

  /** Through a lawful applier, a claimed `keyhelp` sets the help key and the
      help text (the remaining words joined by single spaces) and touches
      nothing else of the binding. */
  lemma KeyhelpThroughLens<M>(prefix: string, a: Applier<M>, m: M, args: seq<string>)
    requires LawfulAt(a, m)
    requires |args| >= 3 && HasPrefix(args[0], prefix)
    ensures var r := HandleKeyMapUpdate(prefix, a, m, "keyhelp", args);
      var name := args[0][|prefix|..];
      var t := a.focus(m);
      && r.supported
      && (r.err.Some? <==> GetBinding(t, name).Err?)
      && (r.err.Some? ==> r.model == Some(m))
      && (r.err.None? ==>
            var was := FoundValue(t, name, WantBinding).binding;
            FoundValue(a.focus(r.model.value), name, WantBinding)
            == BindingVal(Binding(was.keys, Help(args[1], Join(args[2..], ' ')), was.disabled)))
  {
    var name := TrimPrefix(args[0], prefix);
    assert name == args[0][|prefix|..];
    var e := ApplyKeyNewHelp(a.focus(m), name, args[1], Join(args[2..], ' '));
    assert HandleKeyMapUpdate(prefix, a, m, "keyhelp", args) == Reply(true, Some(a.restore(m, e.target)), None, e.err);
  }
}
