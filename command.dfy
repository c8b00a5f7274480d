/** The Command example: order commands queued on an invoker, executed last-in first-out, and
    undone from a history stack. The `Order` receiver only prints, so a command is a value. */
module Command {

  const Placed := "Order has been placed."
  const Canceled := "Order has been canceled."

  datatype Command = PlaceOrder | CancelOrder

  /** What `execute` prints: a place command places the order, a cancel command cancels it. */
  function Execute(c: Command): (line: string)
  {
    match c
    case PlaceOrder => Placed
    case CancelOrder => Canceled
  }

  /** What `undo` prints: the opposite action. */
  function Undo(c: Command): (line: string)
  {
    match c
    case PlaceOrder => Canceled
    case CancelOrder => Placed
  }

  /** The command whose execution a command's undo reproduces. */
  function Opposite(c: Command): (o: Command)
    ensures o != c
  {
    match c
    case PlaceOrder => CancelOrder
    case CancelOrder => PlaceOrder
  }

  /** Undoing a command prints exactly what executing its opposite prints, and never what
      executing the command itself prints. */
  lemma UndoIsOppositeExecute(c: Command)
    ensures Undo(c) == Execute(Opposite(c))
    ensures Undo(c) != Execute(c)
    ensures Opposite(Opposite(c)) == c
  {
  }

  /** `OrderInvoker`: pending commands and executed history, both stacks with the top at the end. */
  class OrderInvoker {
    var commands: seq<Command>
    var history: seq<Command>

    constructor ()
      ensures commands == [] && history == []
    {
      commands, history := [], [];
    }

    /** `set_command`: queues a command; the history is untouched. */
    method SetCommand(c: Command)
      modifies this
      ensures commands == old(commands) + [c] && history == old(history)
    {
      commands := commands + [c];
    }

    /** `press_button`: with nothing pending, nothing happens. Otherwise the most recently set
        command is popped, executed and pushed onto the history, so the number of commands held
        is unchanged. */
    method PressButton() returns (out: seq<string>)
      modifies this
      ensures old(commands) == [] ==> out == [] && commands == [] && history == old(history)
      ensures old(commands) != [] ==>
                var top := old(commands)[|old(commands)| - 1];
                && commands == old(commands)[..|old(commands)| - 1]
                && history == old(history) + [top]
                && out == [Execute(top)]
      ensures |commands| + |history| == |old(commands)| + |old(history)|
    {
      out := [];
      if commands != [] {
        var c := commands[|commands| - 1];
        commands := commands[..|commands| - 1];
        out := [Execute(c)];
        history := history + [c];
      }
    }

    /** `press_undo`: with an empty history, nothing happens. Otherwise the last executed
        command is popped and undone; it is not returned to the pending commands. */
    method PressUndo() returns (out: seq<string>)
      modifies this
      ensures old(history) == [] ==> out == [] && history == [] && commands == old(commands)
      ensures old(history) != [] ==>
                var top := old(history)[|old(history)| - 1];
                && history == old(history)[..|old(history)| - 1]
                && commands == old(commands)
                && out == [Undo(top)]
    {
      out := [];
      if history != [] {
        var c := history[|history| - 1];
        history := history[..|history| - 1];
        out := [Undo(c)];
      }
    }
  }

  /** The undo test: place, cancel, then undo twice prints placed, canceled, placed, canceled;
      afterwards both stacks are empty. */
  method UndoScenario() returns (out: seq<string>, pending: nat, executed: nat)
    ensures out == [Placed, Canceled, Placed, Canceled]
    ensures pending == 0 && executed == 0
  {
    var invoker := new OrderInvoker();
    invoker.SetCommand(PlaceOrder);
    var o1 := invoker.PressButton();
    invoker.SetCommand(CancelOrder);
    var o2 := invoker.PressButton();
    var o3 := invoker.PressUndo();
    var o4 := invoker.PressUndo();
    out := o1 + o2 + o3 + o4;
    pending, executed := |invoker.commands|, |invoker.history|;
  }

  /** Commands set together run last-in first-out: set place, set cancel, press twice prints
      canceled before placed. */
  method LifoScenario() returns (out: seq<string>)
    ensures out == [Canceled, Placed]
  {
    var invoker := new OrderInvoker();
    invoker.SetCommand(PlaceOrder);
    invoker.SetCommand(CancelOrder);
    var o1 := invoker.PressButton();
    var o2 := invoker.PressButton();
    out := o1 + o2;
  }
}
