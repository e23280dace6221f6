/** The Command pattern: commands bound to receivers, macro commands, a
    one-button remote and a remote with on/off slots and an undo button.
    The receivers only report what they do; here every report is an event
    appended to a console. */
module RemoteControl {

  import opened Wrappers

  /** A light at a location (the receiver Light). */
  datatype Light = Light(location: string)

  /** A garage door with the light it switches (the receiver GarageDoor). */
  datatype GarageDoor = GarageDoor(light: Light)

  /** What a receiver reports: a light switched on or off, the door opened or closed. */
  datatype Event = LightIsOn(location: string) | LightIsOff(location: string) | DoorIsOpen | DoorIsClosed

  datatype Command =
    | NoCommand
    | LightOnCommand(light: Light)
    | LightOffCommand(light: Light)
    | GarageDoorOpenCommand(door: GarageDoor)
    | GarageDoorCloseCommand(door: GarageDoor)
    | MacroCommand(commands: seq<Command>)

  // ---------------------------------------------------------------------------
  // What executing and undoing a command reports
  // ---------------------------------------------------------------------------

  /** The events `execute` reports. */
  function Executed(c: Command): seq<Event>
    decreases c
  {
    match c
    case NoCommand => []
    case LightOnCommand(l) => [LightIsOn(l.location)]
    case LightOffCommand(l) => [LightIsOff(l.location)]
    case GarageDoorOpenCommand(d) => [DoorIsOpen, LightIsOn(d.light.location)]
    case GarageDoorCloseCommand(d) => [LightIsOff(d.light.location), DoorIsClosed]
    case MacroCommand(cs) => ExecutedAll(cs)
  }

  /** The commands of a macro executed in list order. */
  function ExecutedAll(cs: seq<Command>): seq<Event>
    decreases cs
  {
    if cs == [] then [] else Executed(cs[0]) + ExecutedAll(cs[1..])
  }

  /** The events `undo` reports. */
  function Undone(c: Command): seq<Event>
    decreases c
  {
    match c
    case NoCommand => []
    case LightOnCommand(l) => [LightIsOff(l.location)]
    case LightOffCommand(l) => [LightIsOn(l.location)]
    case GarageDoorOpenCommand(d) => [LightIsOff(d.light.location), DoorIsClosed]
    case GarageDoorCloseCommand(d) => [DoorIsOpen, LightIsOn(d.light.location)]
    case MacroCommand(cs) => UndoneAll(cs)
  }

  /** The commands of a macro undone in reverse list order. */
  function UndoneAll(cs: seq<Command>): seq<Event>
    decreases cs
  {
    if cs == [] then [] else UndoneAll(cs[1..]) + Undone(cs[0])
  }

  // ---------------------------------------------------------------------------
  // The reference for undo: the opposite actions, last first
  // ---------------------------------------------------------------------------

  /** The receiver action that reverses an event. */
  function Opposite(e: Event): Event {
    match e
    case LightIsOn(loc) => LightIsOff(loc)
    case LightIsOff(loc) => LightIsOn(loc)
    case DoorIsOpen => DoorIsClosed
    case DoorIsClosed => DoorIsOpen
  }

  /** The trace that reverses a trace: the opposite of each event, last first. */
  function Inverse(t: seq<Event>): (r: seq<Event>)
    ensures |r| == |t|
    ensures forall i :: 0 <= i < |t| ==> r[i] == Opposite(t[|t| - 1 - i])
  {
    if t == [] then [] else Inverse(t[1..]) + [Opposite(t[0])]
  }

  lemma {:induction false} InverseAppend(a: seq<Event>, b: seq<Event>)
    ensures Inverse(a + b) == Inverse(b) + Inverse(a)
  {
  }

  /** Reversing twice gives the trace back. */
  lemma InverseInvolutive(t: seq<Event>)
    ensures Inverse(Inverse(t)) == t
  {
  }

  /** Every undo reports exactly the opposite actions of its execute, last
      first: for the light commands one opposite switch, for the garage-door
      commands the reverse of the two steps, and for a macro the undos of its
      commands in reverse order. */
  lemma {:induction false} UndoInvertsExecute(c: Command)
    ensures Undone(c) == Inverse(Executed(c))
    decreases c
  {
    match c
    case MacroCommand(cs) => UndoAllInvertsExecuteAll(cs);
    case _ =>
  }

  lemma {:induction false} UndoAllInvertsExecuteAll(cs: seq<Command>)
    ensures UndoneAll(cs) == Inverse(ExecutedAll(cs))
    decreases cs
  {
    if cs != [] {
      UndoInvertsExecute(cs[0]);
      UndoAllInvertsExecuteAll(cs[1..]);
      InverseAppend(Executed(cs[0]), ExecutedAll(cs[1..]));
    }
  }

  /** Execute and undo are inverse either way round. */
  lemma ExecuteInvertsUndo(c: Command)
    ensures Executed(c) == Inverse(Undone(c))
  {
    UndoInvertsExecute(c);
    InverseInvolutive(Executed(c));
  }

  /** Appending a command to a macro appends its execute at the end ... */
  lemma {:induction false} ExecutedAllSnoc(cs: seq<Command>, c: Command)
    ensures ExecutedAll(cs + [c]) == ExecutedAll(cs) + Executed(c)
    decreases |cs|
  {
    if cs != [] {
      assert (cs + [c])[0] == cs[0];
      assert (cs + [c])[1..] == cs[1..] + [c];
      ExecutedAllSnoc(cs[1..], c);
    } else {
      assert [c][1..] == [];
    }
  }

  /** ... and its undo at the front: the last command is undone first. */
  lemma {:induction false} UndoneAllSnoc(cs: seq<Command>, c: Command)
    ensures UndoneAll(cs + [c]) == Undone(c) + UndoneAll(cs)
    decreases |cs|
  {
    if cs != [] {
      assert (cs + [c])[0] == cs[0];
      assert (cs + [c])[1..] == cs[1..] + [c];
      UndoneAllSnoc(cs[1..], c);
    } else {
      assert [c][1..] == [];
    }
  }

  // ---------------------------------------------------------------------------
  // Running commands against the console
  // ---------------------------------------------------------------------------

  /** The console the receivers report to. */
  class Console {
    var events: seq<Event>

    constructor ()
      ensures events == []
    {
      events := [];
    }

    method Report(e: Event)
      modifies this
      ensures events == old(events) + [e]
    {
      events := events + [e];
    }
  }

  /** A command's `execute`. */
  method Execute(c: Command, out: Console)
    modifies out
    ensures out.events == old(out.events) + Executed(c)
    decreases c, 1
  {
    match c
    case NoCommand =>
    case LightOnCommand(l) => out.Report(LightIsOn(l.location));
    case LightOffCommand(l) => out.Report(LightIsOff(l.location));
    case GarageDoorOpenCommand(d) =>
      out.Report(DoorIsOpen);
      out.Report(LightIsOn(d.light.location));
    case GarageDoorCloseCommand(d) =>
      out.Report(LightIsOff(d.light.location));
      out.Report(DoorIsClosed);
    case MacroCommand(cs) => ExecuteMacro(cs, out);
  }

  /** MacroCommand.execute: every command of the list, in list order. */
  method ExecuteMacro(cs: seq<Command>, out: Console)
    modifies out
    ensures out.events == old(out.events) + ExecutedAll(cs)
    decreases cs, 0
  {
    var i := 0;
    while i < |cs|
      invariant 0 <= i <= |cs|
      invariant out.events == old(out.events) + ExecutedAll(cs[..i])
    {
      Execute(cs[i], out);
      assert cs[..i + 1] == cs[..i] + [cs[i]];
      ExecutedAllSnoc(cs[..i], cs[i]);
      i := i + 1;
    }
    assert cs[..|cs|] == cs;
  }

  /** A command's `undo`. */
  method Undo(c: Command, out: Console)
    modifies out
    ensures out.events == old(out.events) + Undone(c)
    decreases c, 1
  {
    match c
    case NoCommand =>
    case LightOnCommand(l) => out.Report(LightIsOff(l.location));
    case LightOffCommand(l) => out.Report(LightIsOn(l.location));
    case GarageDoorOpenCommand(d) =>
      out.Report(LightIsOff(d.light.location));
      out.Report(DoorIsClosed);
    case GarageDoorCloseCommand(d) =>
      out.Report(DoorIsOpen);
      out.Report(LightIsOn(d.light.location));
    case MacroCommand(cs) => UndoMacro(cs, out);
  }

  /** MacroCommand.undo: the undo of every command, from the last to the first. */
  method UndoMacro(cs: seq<Command>, out: Console)
    modifies out
    ensures out.events == old(out.events) + UndoneAll(cs)
    decreases cs, 0
  {
    var i := |cs|;
    while i > 0
      invariant 0 <= i <= |cs|
      invariant out.events == old(out.events) + UndoneAll(cs[i..])
    {
      i := i - 1;
      Undo(cs[i], out);
      assert cs[i..][1..] == cs[i + 1..];
    }
  }

  // ---------------------------------------------------------------------------
  // The invokers
  // ---------------------------------------------------------------------------


  /** SimpleRemoteControl: one button and the command it may hold. */
  class SimpleRemoteControl {
    var command: Option<Command>

    constructor (command: Option<Command>)
      ensures this.command == command
    {
      this.command := command;
    }

    method SetCommand(c: Command)
      modifies this
      ensures command == Some(c)
    {
      command := Some(c);
    }

    /** Without a command the press fails (the source calls a method on None)
        and nothing is reported. */
    method ButtonWasPressed(out: Console) returns (ok: bool)
      modifies out
      ensures ok <==> command.Some?
      ensures out.events == old(out.events) + if ok then Executed(command.value) else []
    {
      match command
      case None => ok := false;
      case Some(c) =>
        Execute(c, out);
        ok := true;
    }
  }

  /** RemoteControlWithUndo: slots of on and off commands and the command to undo. */
  class RemoteControlWithUndo {
    var onCommands: array<Command>
    var offCommands: array<Command>
    var undoCommand: Command
    var numSlots: int

    ghost predicate Valid()
      reads this
    {
      onCommands != offCommands &&
      onCommands.Length == offCommands.Length == (if numSlots > 0 then numSlots else 0)
    }

    /** Every slot starts with NoCommand on both buttons, and so does undo. */
    constructor (numSlots: int)
      ensures Valid() && fresh(onCommands) && fresh(offCommands)
      ensures this.numSlots == numSlots && undoCommand == NoCommand
      ensures forall i :: 0 <= i < onCommands.Length ==> onCommands[i] == NoCommand
      ensures forall i :: 0 <= i < offCommands.Length ==> offCommands[i] == NoCommand
    {
      var n := if numSlots > 0 then numSlots else 0;
      var on := new Command[n];
      var off := new Command[n];
      var i := 0;
      while i < n
        invariant 0 <= i <= n
        invariant forall k :: 0 <= k < i ==> on[k] == NoCommand && off[k] == NoCommand
      {
        on[i] := NoCommand;
        off[i] := NoCommand;
        i := i + 1;
      }
      onCommands, offCommands := on, off;
      undoCommand := NoCommand;
      this.numSlots := numSlots;
    }

    /** Fails for a slot at or beyond the number of slots; otherwise replaces
        that slot's two commands and no other. */
    method SetCommand(slot: nat, onCommand: Command, offCommand: Command) returns (ok: bool)
      requires Valid()
      modifies onCommands, offCommands
      ensures ok <==> slot < numSlots
      ensures ok ==> onCommands[..] == old(onCommands[..])[slot := onCommand]
      ensures ok ==> offCommands[..] == old(offCommands[..])[slot := offCommand]
      ensures !ok ==> onCommands[..] == old(onCommands[..]) && offCommands[..] == old(offCommands[..])
    {
      ok := slot < numSlots;
      if ok {
        onCommands[slot] := onCommand;
        offCommands[slot] := offCommand;
      }
    }

    /** Executes the slot's on command and keeps it for undo. */
    method OnButtonWasPushed(slot: nat, out: Console) returns (ok: bool)
      requires Valid()
      modifies this, out
      ensures Valid() && unchanged(this`onCommands, this`offCommands, this`numSlots)
      ensures ok <==> slot < numSlots
      ensures ok ==> undoCommand == onCommands[slot]
      ensures ok ==> out.events == old(out.events) + Executed(onCommands[slot])
      ensures !ok ==> undoCommand == old(undoCommand) && out.events == old(out.events)
    {
      ok := slot < numSlots;
      if ok {
        Execute(onCommands[slot], out);
        undoCommand := onCommands[slot];
      }
    }

    /** Executes the slot's off command and keeps it for undo. */
    method OffButtonWasPushed(slot: nat, out: Console) returns (ok: bool)
      requires Valid()
      modifies this, out
      ensures Valid() && unchanged(this`onCommands, this`offCommands, this`numSlots)
      ensures ok <==> slot < numSlots
      ensures ok ==> undoCommand == offCommands[slot]
      ensures ok ==> out.events == old(out.events) + Executed(offCommands[slot])
      ensures !ok ==> undoCommand == old(undoCommand) && out.events == old(out.events)
    {
      ok := slot < numSlots;
      if ok {
        Execute(offCommands[slot], out);
        undoCommand := offCommands[slot];
      }
    }

    /** Undoes the last pushed command; the register keeps it, so a second
        undo repeats the same undo. */
    method UndoButtonWasPushed(out: Console)
      modifies out
      ensures out.events == old(out.events) + Undone(undoCommand)
    {
      Undo(undoCommand, out);
    }
  }

  /** Pushing an on button and then undo reports the command's actions
      followed by their reversal, and leaves the command in the register. */
  method PushThenUndo(remote: RemoteControlWithUndo, slot: nat, out: Console)
    requires remote.Valid() && slot < remote.numSlots
    modifies remote, out
    ensures remote.Valid() && unchanged(remote`onCommands, remote`numSlots)
    ensures remote.undoCommand == remote.onCommands[slot]
    ensures out.events == old(out.events) + Executed(remote.onCommands[slot])
                                          + Inverse(Executed(remote.onCommands[slot]))
  {
    var ok := remote.OnButtonWasPushed(slot, out);
    remote.UndoButtonWasPushed(out);
    UndoInvertsExecute(remote.onCommands[slot]);
  }
}
