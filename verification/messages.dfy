/** The text of the fatal error an updater error raises, in both revisions.
    Go's `fmt` fills the verbs of a format from the arguments in order and
    prints `%!v(MISSING)` for a verb left without an argument.
 */
module Messages {
  import opened Base
  import opened GoStrings

  /** One argument of `Fatalf`, already rendered as `%s` and `%v` print it
      (for a position and an error they print the same text). */
  datatype Arg = Arg(text: string)

  /** A format piece: literal text or a `%s`/`%v` verb. */
  datatype Piece = Lit(text: string) | Verb

  /** `fmt.Sprintf` for formats made of literals and `%s`/`%v` verbs. */
  function Sprintf(format: seq<Piece>, args: seq<Arg>): (r: string)
    ensures |format| == 0 ==> r == ""
  {
    if |format| == 0 then ""
    else match format[0]
      case Lit(t) => t + Sprintf(format[1..], args)
      case Verb =>
        if |args| == 0 then "%!v(MISSING)" + Sprintf(format[1..], args)
        else args[0].text + Sprintf(format[1..], args[1..])
  }

  /** The format `"%s: updater error: %v"` both revisions use. */
  const UpdaterErrorFormat: seq<Piece> := [Verb, Lit(": updater error: "), Verb]

  /** The tail of the format after its first verb, with one argument left
      and with none. */
  lemma SprintfTail(err: string)
    ensures Sprintf(UpdaterErrorFormat[1..], [Arg(err)]) == ": updater error: " + err
    ensures Sprintf(UpdaterErrorFormat[1..], []) == ": updater error: %!v(MISSING)"
  {
    var f := UpdaterErrorFormat[1..];
    assert f[1..] == [Verb] && [Verb][1..] == [];
    assert [Arg(err)][1..] == [];
    assert Sprintf([Verb], [Arg(err)]) == err;
    assert Sprintf([Verb], []) == "%!v(MISSING)";
  }

  /** The updater-error message as `catwalk.go` writes it: the position is
      not passed, so the error fills the position's place. */
  function EarlyUpdaterErrorText(pos: string, err: string): (r: string)
    ensures r == err + ": updater error: %!v(MISSING)"
  {
    SprintfTail(err);
    assert [Arg(err)][1..] == [];
    Sprintf(UpdaterErrorFormat, [Arg(err)])
  }

  /** The updater-error message as `driver.go` writes it, and as the earlier
      revision evidently meant it: the position, then the error. */
  function UpdaterErrorText(pos: string, err: string): (r: string)
    ensures HasPrefix(r, pos + ": ")
    ensures r == pos + ": updater error: " + err
  {
    SprintfFull(pos, err);
    Sprintf(UpdaterErrorFormat, [Arg(pos), Arg(err)])
  }

  /** The format filled with both arguments. */
  lemma SprintfFull(pos: string, err: string)
    ensures Sprintf(UpdaterErrorFormat, [Arg(pos), Arg(err)]) == pos + ": updater error: " + err
    ensures HasPrefix(pos + ": updater error: " + err, pos + ": ")
  {
    SprintfTail(err);
    var args := [Arg(pos), Arg(err)];
    assert args[0] == Arg(pos) && args[1..] == [Arg(err)];
    var t, t1, t2 := ": updater error: ", ": ", "updater error: ";
    assert Sprintf(UpdaterErrorFormat, args) == pos + (t + err);
    AppendAssoc(pos, t, err);
    assert t == t1 + t2;
    AppendAssoc(pos, t1, t2);
    AppendAssoc(pos + t1, t2, err);
    PrefixOfConcat(pos + t1, t2 + err);
  }

  /** The early text does not start with the position whenever the error
      text starts differently from it: for the position `t.txt:3` and the
      error `boom` it reads `boom: updater error: %!v(MISSING)`, while the
      corrected text starts with the position and ends with the error. */
  lemma EarlyTextLosesPosition(pos: string, err: string)
    requires |pos| > 0 && |err| > 0 && err[0] != pos[0]
    ensures !HasPrefix(EarlyUpdaterErrorText(pos, err), pos + ": ")
    ensures HasPrefix(UpdaterErrorText(pos, err), pos + ": ")
    ensures var fixed := UpdaterErrorText(pos, err); fixed[|fixed| - |err|..] == err
  {
    var early := EarlyUpdaterErrorText(pos, err);
    assert early[0] == err[0];
    assert (pos + ": ")[0] == pos[0];
    var fixed := UpdaterErrorText(pos, err);
    assert fixed == (pos + ": updater error: ") + err;
  }
}
