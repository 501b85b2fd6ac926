/** The window lifecycle of the terminal: one state cell that three operations
    overwrite, with no guard on the state they start from. */
module Lifecycle {

  datatype TerminalState = Open | Minimized | Closed

  /** The three operations, as values, so that series of them can be stated. */
  datatype Op = Minimize | Maximize | Close

  /** The state an operation leaves behind, from state `s`. */
  function Apply(s: TerminalState, op: Op): (r: TerminalState)
    ensures op == Op.Minimize <==> r == Minimized
    ensures op == Op.Maximize <==> r == Open
    ensures op == Op.Close <==> r == Closed
  {
    match op
    case Minimize => Minimized
    case Maximize => Open
    case Close => Closed
  }

  /** The state after a series of operations, applied in order from `s`. */
  function Run(s: TerminalState, ops: seq<Op>): TerminalState
    decreases |ops|
  {
    if ops == [] then s else Run(Apply(s, ops[0]), ops[1..])
  }

  class Window {
    var state: TerminalState

    constructor ()
      ensures state == Open
    {
      state := Open;
    }

    method Minimize()
      modifies this
      ensures state == Apply(old(state), Op.Minimize) && state == Minimized
    {
      state := Minimized;
    }

    method Maximize()
      modifies this
      ensures state == Apply(old(state), Op.Maximize) && state == Open
    {
      state := Open;
    }

    method Close()
      modifies this
      ensures state == Apply(old(state), Op.Close) && state == Closed
    {
      state := Closed;
    }
  }

  /** No operation looks at the state it starts from; in particular `Maximize`
      reopens a closed window and `Minimize` minimises it. */
  lemma Unguarded(s: TerminalState, t: TerminalState, op: Op)
    ensures Apply(s, op) == Apply(t, op)
    ensures Apply(Closed, Op.Maximize) == Open && Apply(Closed, Op.Minimize) == Minimized
  {
  }

  /** Applying an operation twice is applying it once. */
  lemma Idempotent(s: TerminalState, op: Op)
    ensures Apply(Apply(s, op), op) == Apply(s, op)
  {
  }

  /** Last writer wins: after a series of operations the state is the one the
      last operation writes, or the starting state if there was none. */
  lemma {:induction false} LastWriterWins(s: TerminalState, ops: seq<Op>)
    ensures Run(s, ops) == if ops == [] then s else Apply(s, ops[|ops| - 1])
    decreases |ops|
  {
    if |ops| > 1 {
      LastWriterWins(Apply(s, ops[0]), ops[1..]);
      assert ops[1..][|ops| - 2] == ops[|ops| - 1];
    }
  }
}
