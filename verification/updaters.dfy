/** Updaters and their composition: a user function, the keymap and styles
    updaters, and the chain `ChainUpdaters` builds, which asks its members in
    order and returns the first reply that is supported or carries an error.
 */
module Updaters {
  import opened Base
  import opened Interface
  import opened Bindings
  import opened Styles

  /** An `Updater`. */
  datatype Updater<!M> =
    | Func(run: (M, string, seq<string>) -> Reply<M>)
    | KeyMap(prefix: string, applier: Applier<M>)
    | StyleMap(prefix: string, applier: Applier<M>, importer: Importer)
    | Chain(members: seq<Updater<M>>)

  /** The reply of a chain in which no member supports the command. */
  function Unsupported<M>(): Reply<M> {
    Reply(false, None, None, None)
  }

  /** Calls an updater.  `KeyMapUpdater(prefix, apply)` and
      `StylesUpdater(prefix, apply)` claim only arguments that start with
      the prefix and a dot. */
  function Apply<M>(u: Updater<M>, m: M, verb: string, args: seq<string>): Reply<M>
    decreases u, 1, 0
  {
    match u
    case Func(f) => f(m, verb, args)
    case KeyMap(p, a) => HandleKeyMapUpdate(p + ".", a, m, verb, args)
    case StyleMap(p, a, imp) => HandleStyleUpdate(p + ".", a, imp, m, verb, args)
    case Chain(_) => ApplyFrom(u, 0, m, verb, args)
  }

  /** The chain's loop, from member `i` on. */
  function ApplyFrom<M>(u: Updater<M>, i: nat, m: M, verb: string, args: seq<string>): Reply<M>
    requires u.Chain?
    decreases u, 0, if i < |u.members| then |u.members| - i else 0
  {
    if i >= |u.members| then Unsupported()
    else
      var r := Apply(u.members[i], m, verb, args);
      if Claims(r) then r else ApplyFrom(u, i + 1, m, verb, args)
  }

  /** `ChainUpdaters`: nil updaters are dropped; a single remaining updater
      is returned itself, and any other number is chained. */
  function ChainUpdaters<M>(upds: seq<Option<Updater<M>>>): (r: Updater<M>)
    ensures |Present(upds)| == 1 ==> r == Present(upds)[0]
    ensures |Present(upds)| != 1 ==> r == Chain(Present(upds))
  {
    var actual := Present(upds);
    if |actual| == 1 then actual[0] else Chain(actual)
  }

  /** From member `i` on, the chain's reply is that of the first member
      that claims the command, and no later member matters. */
  lemma {:induction false} ApplyFromFirstClaim<M>(u: Updater<M>, i: nat, k: nat, m: M, verb: string, args: seq<string>)
    requires u.Chain? && i <= k < |u.members|
    requires forall j :: i <= j < k ==> !Claims(Apply(u.members[j], m, verb, args))
    requires Claims(Apply(u.members[k], m, verb, args))
    ensures ApplyFrom(u, i, m, verb, args) == Apply(u.members[k], m, verb, args)
    decreases k - i
  {
    if i < k {
      ApplyFromFirstClaim(u, i + 1, k, m, verb, args);
    }
  }

  lemma {:induction false} ApplyFromNoClaim<M>(u: Updater<M>, i: nat, m: M, verb: string, args: seq<string>)
    requires u.Chain?
    requires forall j :: i <= j < |u.members| ==> !Claims(Apply(u.members[j], m, verb, args))
    ensures ApplyFrom(u, i, m, verb, args) == Unsupported()
    decreases if i < |u.members| then |u.members| - i else 0
  {
    if i < |u.members| {
      ApplyFromNoClaim(u, i + 1, m, verb, args);
    }
  }

  /** First match wins: the chain returns the reply of its first member
      that is supported or fails. */
  lemma ChainFirstClaim<M>(us: seq<Updater<M>>, k: nat, m: M, verb: string, args: seq<string>)
    requires k < |us|
    requires forall j :: 0 <= j < k ==> !Claims(Apply(us[j], m, verb, args))
    requires Claims(Apply(us[k], m, verb, args))
    ensures Apply(Chain(us), m, verb, args) == Apply(us[k], m, verb, args)
  {
    ApplyFromFirstClaim(Chain(us), 0, k, m, verb, args);
  }

  /** When no member claims a command, the chain answers unsupported with a
      nil model, no command and no error; the empty chain rejects everything. */
  lemma ChainNoClaim<M>(us: seq<Updater<M>>, m: M, verb: string, args: seq<string>)
    requires forall j :: 0 <= j < |us| ==> !Claims(Apply(us[j], m, verb, args))
    ensures Apply(Chain(us), m, verb, args) == Unsupported()
  {
    ApplyFromNoClaim(Chain(us), 0, m, verb, args);
  }

  /** A chain claims a command exactly when one of its members does. */
  lemma ChainClaims<M>(us: seq<Updater<M>>, m: M, verb: string, args: seq<string>)
    ensures Claims(Apply(Chain(us), m, verb, args)) <==>
      exists j :: 0 <= j < |us| && Claims(Apply(us[j], m, verb, args))
  {
    if exists j :: 0 <= j < |us| && Claims(Apply(us[j], m, verb, args)) {
      var k := FirstClaimer(us, m, verb, args, 0);
      ChainFirstClaim(us, k, m, verb, args);
    } else {
      ChainNoClaim(us, m, verb, args);
    }
  }

  /** The index of the first member from `i` on that claims the command. */
  function FirstClaimer<M>(us: seq<Updater<M>>, m: M, verb: string, args: seq<string>, i: nat): (k: nat)
    requires i <= |us|
    requires exists j :: i <= j < |us| && Claims(Apply(us[j], m, verb, args))
    ensures i <= k < |us| && Claims(Apply(us[k], m, verb, args))
    ensures forall j :: i <= j < k ==> !Claims(Apply(us[j], m, verb, args))
    decreases |us| - i
  {
    if Claims(Apply(us[i], m, verb, args)) then i
    else FirstClaimer(us, m, verb, args, i + 1)
  }

  /** For members that never fail, the chain supports a command exactly when
      some member supports it. */
  lemma ChainSupports<M>(us: seq<Updater<M>>, m: M, verb: string, args: seq<string>)
    requires forall j :: 0 <= j < |us| ==> Apply(us[j], m, verb, args).err.None?
    ensures Apply(Chain(us), m, verb, args).supported <==>
      exists j :: 0 <= j < |us| && Apply(us[j], m, verb, args).supported
  {
    ChainClaims(us, m, verb, args);
    if exists j :: 0 <= j < |us| && Apply(us[j], m, verb, args).supported {
      var k := FirstClaimer(us, m, verb, args, 0);
      ChainFirstClaim(us, k, m, verb, args);
    } else {
      ChainNoClaim(us, m, verb, args);
    }
  }

  /** Chaining two lists is asking the first list, then the second. */
  lemma ChainAppend<M>(us: seq<Updater<M>>, ws: seq<Updater<M>>, m: M, verb: string, args: seq<string>)
    ensures Apply(Chain(us + ws), m, verb, args) ==
      if Claims(Apply(Chain(us), m, verb, args)) then Apply(Chain(us), m, verb, args)
      else Apply(Chain(ws), m, verb, args)
  {
    var all := us + ws;
    ChainClaims(us, m, verb, args);
    ChainClaims(ws, m, verb, args);
    if exists j :: 0 <= j < |us| && Claims(Apply(us[j], m, verb, args)) {
      var k := FirstClaimer(us, m, verb, args, 0);
      ChainFirstClaim(us, k, m, verb, args);
      ChainFirstClaim(all, k, m, verb, args);
    } else if exists j :: 0 <= j < |ws| && Claims(Apply(ws[j], m, verb, args)) {
      var k := FirstClaimer(ws, m, verb, args, 0);
      ChainFirstClaim(ws, k, m, verb, args);
      assert forall j :: 0 <= j < |us| + k ==> !Claims(Apply(all[j], m, verb, args)) by {
        forall j | 0 <= j < |us| + k
          ensures !Claims(Apply(all[j], m, verb, args))
        {
          if j >= |us| {
            assert all[j] == ws[j - |us|];
          }
        }
      }
      ChainFirstClaim(all, |us| + k, m, verb, args);
      ChainNoClaim(us, m, verb, args);
    } else {
      forall j | 0 <= j < |all|
        ensures !Claims(Apply(all[j], m, verb, args))
      {
        if j >= |us| {
          assert all[j] == ws[j - |us|];
        }
      }
      ChainNoClaim(all, m, verb, args);
      ChainNoClaim(us, m, verb, args);
      ChainNoClaim(ws, m, verb, args);
    }
  }

  /** Two updaters that claim the same commands and give the same replies
      when they claim one. */
  ghost predicate Agree<M>(u: Updater<M>, w: Updater<M>, m: M, verb: string, args: seq<string>) {
    && (Claims(Apply(u, m, verb, args)) <==> Claims(Apply(w, m, verb, args)))
    && (Claims(Apply(u, m, verb, args)) ==> Apply(u, m, verb, args) == Apply(w, m, verb, args))
  }

  /** `ChainUpdaters` behaves like the chain of the present updaters, even
      when it returns the single one itself. */
  lemma ChainUpdatersAgree<M>(upds: seq<Option<Updater<M>>>, m: M, verb: string, args: seq<string>)
    ensures Agree(ChainUpdaters(upds), Chain(Present(upds)), m, verb, args)
  {
    var actual := Present(upds);
    if |actual| == 1 {
      if Claims(Apply(actual[0], m, verb, args)) {
        ChainFirstClaim(actual, 0, m, verb, args);
      } else {
        ChainNoClaim(actual, m, verb, args);
      }
    }
  }

  /** The driver's updater after `WithUpdater` options with these updaters,
      in order: each one chains the previous updater with the new one. */
  function Registered<M>(regs: seq<Option<Updater<M>>>): (r: Option<Updater<M>>)
    ensures |regs| >= 1 <==> r.Some?
  {
    if |regs| == 0 then None
    else Some(ChainUpdaters([Registered(regs[..|regs| - 1]), regs[|regs| - 1]]))
  }

  /** Repeated `WithUpdater` options behave like one flat chain of the
      registered updaters, in registration order. */
  lemma {:induction false} RegisteredIsFlatChain<M>(regs: seq<Option<Updater<M>>>, m: M, verb: string, args: seq<string>)
    requires |regs| >= 1
    ensures Agree(Registered(regs).value, Chain(Present(regs)), m, verb, args)
  {
    var init, last := regs[..|regs| - 1], regs[|regs| - 1];
    assert regs == init + [last];
    PresentAppend(init, [last]);
    var pair := [Registered(init), last];
    ChainUpdatersAgree(pair, m, verb, args);
    if |init| == 0 {
      assert Present(pair) == Present(regs);
    } else {
      RegisteredIsFlatChain(init, m, verb, args);
      var x := Registered(init).value;
      assert Present(pair) == [x] + Present([last]);
      ChainAppend([x], Present([last]), m, verb, args);
      ChainAppend(Present(init), Present([last]), m, verb, args);
      if Claims(Apply(x, m, verb, args)) {
        ChainFirstClaim([x], 0, m, verb, args);
      } else {
        ChainNoClaim([x], m, verb, args);
      }
    }
  }

  /** `WithUpdater` with only nil updaters still installs an updater: the
      empty chain, which rejects every command. */
  lemma RegisteredNils<M>(regs: seq<Option<Updater<M>>>, m: M, verb: string, args: seq<string>)
    requires |regs| >= 1 && forall i :: 0 <= i < |regs| ==> regs[i].None?
    ensures Registered(regs).Some?
    ensures Apply(Registered(regs).value, m, verb, args) == Unsupported()
  {
    RegisteredIsFlatChain(regs, m, verb, args);
    ChainNoClaim(Present(regs), m, verb, args);
  }
}
