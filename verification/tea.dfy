/** The bubbletea vocabulary the driver handles: keys, messages and commands.

    A Go `tea.Cmd` is a function run on its own goroutine; here it is the data
    of what running it would do: how long it takes and what it returns.  A
    command returns nothing, one message, or a list of further commands
    (`tea.BatchMsg`, a value convertible to `[]tea.Cmd`), so every command is a
    finite tree.
 */
module Tea {
  import opened Base
  import GoConv

  /** `tea.KeyType` values the driver builds keys with directly. */
  const KeyRunes: int := -1
  const KeyEnter: int := 13

  /** `tea.Key`: a key type, the runes typed (for `KeyRunes`) and the Alt flag. */
  datatype Key = Key(ktype: int, runes: string, alt: bool)

  /** The key message `typeIn` sends for one typed character. */
  function RuneKey(c: char, alt: bool): Key {
    Key(KeyRunes, [c], alt)
  }

  /** A `tea.Msg`: the ten kinds the driver renders itself, key messages, and
      every other message of the model under test (`Other`, identified by the
      text `%v` prints for it). */
  datatype Msg =
    | PrintLine(body: string)
    | WindowSize(width: int, height: int)
    | QuitMsg
    | ExecMsg
    | HideCursorMsg
    | EnterAltScreenMsg
    | ExitAltScreenMsg
    | EnableMouseCellMotionMsg
    | EnableMouseAllMotionMsg
    | DisableMouseMsg
    | KeyPress(key: Key)
    | Other(text: string)

  /** The kinds the message drain prints instead of passing them to `Update`. */
  predicate IsBuiltin(m: Msg) {
    !m.KeyPress? && !m.Other?
  }

  /** The line the message drain prints for a built-in message.  `%v` prints
      the print message and the window-size message as their struct fields in
      braces. */
  function TeaLine(m: Msg): (line: string)
    requires IsBuiltin(m)
    ensures |line| > 4 && line[..4] == "TEA " && line[|line| - 1] == '\n'
  {
    match m
    case PrintLine(body) => "TEA PRINT: {" + body + "}\n"
    case WindowSize(w, h) => "TEA WINDOW SIZE: {" + GoConv.Itoa(w) + " " + GoConv.Itoa(h) + "}\n"
    case QuitMsg => "TEA QUIT\n"
    case ExecMsg => "TEA EXEC\n"
    case HideCursorMsg => "TEA HIDE CURSOR\n"
    case EnterAltScreenMsg => "TEA ENTER ALT\n"
    case ExitAltScreenMsg => "TEA EXIT ALT\n"
    case EnableMouseCellMotionMsg => "TEA ENABLE MOUSE CELL MOTION\n"
    case EnableMouseAllMotionMsg => "TEA ENABLE MOUSE MOTION ALL\n"
    case DisableMouseMsg => "TEA DISABLE MOUSE\n"
  }

  /** How long a command takes before it returns, in nanoseconds, or `Never`
      when it blocks forever. */
  datatype Latency = After(ticks: nat) | Never

  /** A `tea.Cmd` as the data of one call. */
  datatype Cmd = Cmd(latency: Latency, outcome: Outcome)

  /** What a command returns: nil, a message, or a batch of further commands
      in which some entries may be nil. */
  datatype Outcome =
    | ReturnsNil
    | ReturnsMsg(msg: Msg)
    | ReturnsBatch(children: seq<Option<Cmd>>)

  /** The driver waits `timeout` for a command; a slower command counts as
      having returned nil. */
  predicate Answers(c: Cmd, timeout: int) {
    c.latency.After? && c.latency.ticks < timeout
  }

  /** What the driver receives from a command: its outcome, or nil on timeout. */
  function Received(c: Cmd, timeout: int): (o: Outcome)
    ensures !o.ReturnsNil? ==> Answers(c, timeout) && o == c.outcome
  {
    if Answers(c, timeout) then c.outcome else ReturnsNil
  }

  /** Number of command nodes in a command tree. */
  function CmdSize(c: Cmd): nat
    decreases c
  {
    1 + match c.outcome
        case ReturnsBatch(cs) => Sum(seq(|cs|, i requires 0 <= i < |cs| => OptSize(cs[i])))
        case _ => 0
  }

  function OptSize(o: Option<Cmd>): nat
    decreases o
  {
    match o
    case None => 0
    case Some(c) => CmdSize(c)
  }

  /** Number of command nodes in a queue of command trees. */
  function QueueSize(q: seq<Cmd>): nat {
    if |q| == 0 then 0 else CmdSize(q[0]) + QueueSize(q[1..])
  }

  lemma {:induction false} QueueSizeAppend(a: seq<Cmd>, b: seq<Cmd>)
    ensures QueueSize(a + b) == QueueSize(a) + QueueSize(b)
  {
    if |a| > 0 {
      assert (a + b)[1..] == a[1..] + b;
      QueueSizeAppend(a[1..], b);
    } else {
      assert a + b == b;
    }
  }

  /** The present children of a batch account for all the nodes below it. */
  lemma {:induction false} ChildrenSize(cs: seq<Option<Cmd>>)
    ensures QueueSize(Present(cs)) == Sum(seq(|cs|, i requires 0 <= i < |cs| => OptSize(cs[i])))
  {
    var s := seq(|cs|, i requires 0 <= i < |cs| => OptSize(cs[i]));
    if |cs| > 0 {
      ChildrenSize(cs[1..]);
      assert s[1..] == seq(|cs[1..]|, i requires 0 <= i < |cs[1..]| => OptSize(cs[1..][i]));
      match cs[0]
      case None =>
      case Some(c) =>
        assert Present(cs) == [c] + Present(cs[1..]);
    }
  }

  /** A batch command is bigger than all its present children together. */
  lemma BatchSize(c: Cmd)
    requires c.outcome.ReturnsBatch?
    ensures QueueSize(Present(c.outcome.children)) == CmdSize(c) - 1
  {
    ChildrenSize(c.outcome.children);
  }
}
