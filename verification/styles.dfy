/** The styles updater: the `restyle` test command, which rewrites a
    `lipgloss.Style` field of a struct inside the model with the style
    importer (`lipglossc.Import`, a parameter here).
 */
module Styles {
  import opened Base
  import opened GoStrings
  import opened Widgets
  import opened Reflect
  import opened Interface
  import opened Lookup

  /** `lipglossc.Import`: applies a textual style description to a style, or
      fails with a reason. */
  type Importer = (Style, string) -> Result<Style, string>

  /** `getStyle`: the path of the style field named `name`. */
  function GetStyle(t: Target, name: string): Result<Path, Error> {
    FindField(t, name, WantStyle)
  }

  /** `applyStyleUpdate`: the field is overwritten only when the lookup and
      the import both succeed, and then holds exactly the import's result;
      otherwise nothing changes and the first error is returned. */
  function ApplyStyleUpdate(importer: Importer, t: Target, name: string, text: string): (r: Edited)
    ensures GetStyle(t, name).Err? ==> r == Edited(t, Some(GetStyle(t, name).error))
    ensures GetStyle(t, name).Ok? ==>
      var s := FoundValue(t, name, WantStyle).style;
      && (importer(s, text).Err? ==> r == Edited(t, Some(ImportFailed(importer(s, text).error))))
      && (importer(s, text).Ok? ==>
            && r.err.None?
            && GetStyle(r.target, name) == GetStyle(t, name)
            && FoundValue(r.target, name, WantStyle) == StyleVal(importer(s, text).value)
            && forall q :: Diverge(GetStyle(t, name).value, q) ==>
                 GetAt(r.target.pointee, q) == GetAt(t.pointee, q))
  {
    match GetStyle(t, name)
    case Err(e) => Edited(t, Some(e))
    case Ok(_) =>
      var s := FoundValue(t, name, WantStyle).style;
      match importer(s, text)
      case Err(reason) => Edited(t, Some(ImportFailed(reason)))
      case Ok(s2) => Edited(Store(t, name, WantStyle, StyleVal(s2)), None)
  }

  /** `handleStyleUpdate`, where `prefix` already ends in a dot. */
  function HandleStyleUpdate<M>(prefix: string, a: Applier<M>, importer: Importer, m: M, verb: string, args: seq<string>): (r: Reply<M>)
    ensures r.cmd.None?
    ensures r.supported <==> verb == "restyle" && |args| >= 2 && HasPrefix(args[0], prefix)
    ensures !r.supported ==> r.model == Some(m)
    ensures !r.supported && r.err.Some? <==> verb == "restyle" && |args| < 2
    ensures r.supported ==> r.model.Some?
  {
    if verb == "restyle" then
      if |args| < 2 then Reply(false, Some(m), None, Some(SyntaxError("restyle <stylename> <style...>")))
      else if !HasPrefix(args[0], prefix) then Reply(false, Some(m), None, None)
      else
        var name := TrimPrefix(args[0], prefix);
        var (m2, err) := RunApplier(a, m, t => ApplyStyleUpdate(importer, t, name, Join(args[1..], ' ')));
        Reply(true, Some(m2), None, err)
    else Reply(false, Some(m), None, None)
  }

  /** Through a lawful applier, a claimed `restyle` imports the remaining
      words, joined by single spaces, into the named style: on success the
      model's style is the import's result, and on any failure the model is
      unchanged. */
  lemma RestyleThroughLens<M>(prefix: string, a: Applier<M>, importer: Importer, m: M, args: seq<string>)
    requires LawfulAt(a, m)
    requires |args| >= 2 && HasPrefix(args[0], prefix)
    ensures var r := HandleStyleUpdate(prefix, a, importer, m, "restyle", args);
      var name := args[0][|prefix|..];
      var t := a.focus(m);
      && r.supported
      && (r.err.Some? ==> r.model == Some(m))
      && (r.err.None? <==>
            GetStyle(t, name).Ok?
            && importer(FoundValue(t, name, WantStyle).style, Join(args[1..], ' ')).Ok?)
      && (r.err.None? ==>
            FoundValue(a.focus(r.model.value), name, WantStyle)
            == StyleVal(importer(FoundValue(t, name, WantStyle).style, Join(args[1..], ' ')).value))
  {
    var name := TrimPrefix(args[0], prefix);
    assert name == args[0][|prefix|..];
    var e := ApplyStyleUpdate(importer, a.focus(m), name, Join(args[1..], ' '));
    assert HandleStyleUpdate(prefix, a, importer, m, "restyle", args) == Reply(true, Some(a.restore(m, e.target)), None, e.err);
  }
}
