/** The types through which a test talks to the driver: the model under test,
    updaters and their replies, observers, the change callbacks handed to
    appliers, the test directive being run, and the fatal errors that stop a
    test.
 */
module Interface {
  import opened Base
  import opened Tea
  import opened Reflect

  /** The Go `error` values updaters return. */
  datatype Error =
    | SyntaxError(usage: string)
    | NotPointerToStruct(typeName: string)
    | NoSuchField(typeName: string, field: string)
    | WrongFieldType(typeName: string, field: string, wanted: string)
      /** Not an `error` in Go: `reflect.Value.Interface` panics on a field
          that is not exported, which ends the test as a fatal error does. */
    | UnexportedField(typeName: string, field: string)
    | ImportFailed(reason: string)
    | UserError(text: string)

  /** What an `Updater` returns: whether it supports the command, the new
      model (`None` for a nil `tea.Model`), a `tea.Cmd` and an error. */
  datatype Reply<+M> = Reply(supported: bool, model: Option<M>, cmd: Option<Cmd>, err: Option<Error>)

  /** A reply that ends a chain's search: supported, or carrying an error. */
  predicate Claims<M>(r: Reply<M>) {
    r.supported || r.err.Some?
  }

  /** The effect of a change callback on the value it was given. */
  datatype Edited = Edited(target: Target, err: Option<Error>)

  /** A `KeyMapApplier` or `StylesApplier`: runs a change callback on a value
      inside the model and returns the resulting model.  `Lens` is the shape
      the documentation shows (take the keymap or style struct out of the
      model, change it through its address, put it back); `Custom` is any
      other applier. */
  datatype Applier<!M> =
    | Lens(focus: M -> Target, restore: (M, Target) -> M)
    | Custom(run: (M, Target -> Edited) -> (M, Option<Error>))

  function RunApplier<M>(a: Applier<M>, m: M, change: Target -> Edited): (r: (M, Option<Error>))
    ensures a.Lens? ==> r.1 == change(a.focus(m)).err
  {
    match a
    case Lens(focus, restore) =>
      var e := change(focus(m));
      (restore(m, e.target), e.err)
    case Custom(run) => run(m, change)
  }

  /** The lens laws of an applier at model `m`: putting a value back and
      taking it out again gives that value, and putting back what was taken
      out changes nothing. */
  ghost predicate LawfulAt<M>(a: Applier<M>, m: M) {
    && a.Lens?
    && (forall t :: a.focus(a.restore(m, t)) == t)
    && a.restore(m, a.focus(m)) == m
  }

  /** The `tea.Model` under test, over its state type `M`: `Init`, `Update`,
      `View`, the optional `Debug() string` method, and what
      `pretty.Sprint` prints for it. */
  datatype Component<!M> = Component(
    init: M -> Option<Cmd>,
    update: (M, Msg) -> (M, Option<Cmd>),
    view: M -> string,
    debug: Option<M -> string>,
    dump: M -> string)

  /** An `Observer`: the three built-in ones and user observers, which write
      a text or fail with an error text. */
  datatype Observer<!M> =
    | ViewObserver
    | DebugObserver
    | GoStructObserver
    | CustomObserver(run: M -> Result<string, string>)

  /** One `key=(vals...)` argument of a directive line. */
  datatype CmdArg = CmdArg(key: string, vals: seq<string>)

  /** One test directive: its position in the file, the directive name, its
      arguments, and its input block. */
  datatype TestData = TestData(pos: string, cmd: string, cmdArgs: seq<CmdArg>, input: string)

  /** The reasons a test stops with `TB.Fatalf`. */
  datatype Fatal =
    | UnrecognizedDirective(directive: string)
    | InvalidSyntax
    | InvalidTimeout(value: string)
    | UnknownOption(key: string)
    | UnsupportedObserver(name: string)
    | ObserverFailed(name: string, reason: string)
    | WrongArgCount(expected: nat, got: nat)
    | BadInteger(text: string)
    | UnknownKey(name: string)
    | UpdaterFailed(err: Error)
    | UnknownCommand(verb: string)
    | NoUpdater(verb: string)
    | NilModel(verb: string)

  /** A fatal error at a position of the test file. */
  datatype Failure = Failure(pos: string, fatal: Fatal)
}
