/** An air conditioner driven through command objects by a remote that keeps them on a stack. */
module Command {

  /** The observable state of an air conditioner. */
  datatype AcState = AcState(isOn: bool, temperature: int)

  /** The receiver, whose two fields the commands update in place. */
  class AirConditioner {
    var isOn: bool
    var temperature: int

    /** A new air conditioner is off and set to 24 degrees. */
    constructor ()
      ensures !isOn && temperature == 24
    {
      isOn := false;
      temperature := 24;
    }

    function State(): AcState
      reads this
    {
      AcState(isOn, temperature)
    }

    method TurnACOn()
      modifies this
      ensures isOn && temperature == old(temperature)
    {
      isOn := true;
    }

    method TurnACOff()
      modifies this
      ensures !isOn && temperature == old(temperature)
    {
      isOn := false;
    }

    method SetTemperature(t: int)
      modifies this
      ensures temperature == t && isOn == old(isOn)
    {
      temperature := t;
    }

    method GetTemperature() returns (t: int)
      ensures t == temperature
    {
      t := temperature;
    }
  }

  /** The three commands, each bound to the air conditioner it controls. A
      set-temperature command carries the temperature it sets and the one it
      restores on undo. */
  datatype Command =
    | TurnACOnCommand(ac: AirConditioner)
    | TurnACOffCommand(ac: AirConditioner)
    | SetTemperatureCommand(ac: AirConditioner, previousTemperature: int, nextTemperature: int)

  /** The state `execute` leaves behind, starting from `s`. An on/off command touches only
      the power flag, a set-temperature command only the temperature. */
  function Executed(c: Command, s: AcState): (r: AcState)
    ensures !c.SetTemperatureCommand? ==> r.isOn == c.TurnACOnCommand? && r.temperature == s.temperature
    ensures c.SetTemperatureCommand? ==> r.temperature == c.nextTemperature && r.isOn == s.isOn
  {
    match c
    case TurnACOnCommand(_) => s.(isOn := true)
    case TurnACOffCommand(_) => s.(isOn := false)
    case SetTemperatureCommand(_, _, next) => s.(temperature := next)
  }

  /** The state `undo` leaves behind, starting from `s`: the opposite power flag for an
      on/off command, the recorded previous temperature for a set-temperature command,
      and the other field untouched. */
  function Undone(c: Command, s: AcState): (r: AcState)
    ensures !c.SetTemperatureCommand? ==> r.isOn == c.TurnACOffCommand? && r.temperature == s.temperature
    ensures c.SetTemperatureCommand? ==> r.temperature == c.previousTemperature && r.isOn == s.isOn
  {
    match c
    case TurnACOnCommand(_) => s.(isOn := false)
    case TurnACOffCommand(_) => s.(isOn := true)
    case SetTemperatureCommand(_, previous, _) => s.(temperature := previous)
  }

  /** The set-temperature constructor: the temperature to restore is read from the
      air conditioner now, when the command is built, not when it is executed. */
  method NewSetTemperatureCommand(ac: AirConditioner, temperature: int) returns (c: Command)
    ensures c.SetTemperatureCommand? && c.ac == ac
    ensures c.previousTemperature == ac.temperature && c.nextTemperature == temperature
  {
    var previous := ac.GetTemperature();
    c := SetTemperatureCommand(ac, previous, temperature);
  }

  /** `execute` of any command. */
  method Execute(c: Command)
    modifies c.ac
    ensures c.ac.State() == Executed(c, old(c.ac.State()))
  {
    match c
    case TurnACOnCommand(ac) => ac.TurnACOn();
    case TurnACOffCommand(ac) => ac.TurnACOff();
    case SetTemperatureCommand(ac, _, next) => ac.SetTemperature(next);
  }

  /** `undo` of any command. */
  method Undo(c: Command)
    modifies c.ac
    ensures c.ac.State() == Undone(c, old(c.ac.State()))
  {
    match c
    case TurnACOnCommand(ac) => ac.TurnACOff();
    case TurnACOffCommand(ac) => ac.TurnACOn();
    case SetTemperatureCommand(ac, previous, _) => ac.SetTemperature(previous);
  }

  /** Undoing turn-on always leaves the air conditioner off, so it does not restore an
      air conditioner that was already on before the command ran. */
  lemma TurnOnUndoAlwaysOff(ac: AirConditioner, s: AcState)
    ensures Undone(TurnACOnCommand(ac), Executed(TurnACOnCommand(ac), s)) == s.(isOn := false)
    ensures s.isOn ==> Undone(TurnACOnCommand(ac), Executed(TurnACOnCommand(ac), s)) != s
  {
  }

  /** Execute then undo of a set-temperature command restores the temperature read
      when the command was built, whatever the temperature was at execute time. */
  lemma SetTemperatureUndoRestoresConstructionTime(c: Command, s: AcState)
    requires c.SetTemperatureCommand?
    ensures Undone(c, Executed(c, s)) == s.(temperature := c.previousTemperature)
    ensures s.temperature == c.previousTemperature ==> Undone(c, Executed(c, s)) == s
  {
  }

  /** The invoker: a stack of commands whose top is the last element of `commands`. */
  class Remote {
    var commands: seq<Command>

    constructor ()
      ensures commands == []
    {
      commands := [];
    }

    /** The air conditioner the top command controls, if there is one. */
    function TopTarget(): set<AirConditioner>
      reads this
    {
      if commands == [] then {} else {commands[|commands| - 1].ac}
    }

    /** `setCommand` pushes the command on top of the stack. */
    method SetCommand(c: Command)
      modifies this
      ensures commands == old(commands) + [c]
    {
      commands := commands + [c];
    }

    /** `pressButton` executes the top command and keeps it on the stack; on an
        empty stack it does nothing. */
    method PressButton()
      modifies TopTarget()
      ensures commands == old(commands)
      ensures commands != [] ==>
        var top := commands[|commands| - 1];
        top.ac.State() == Executed(top, old(top.ac.State()))
    {
      if commands != [] {
        Execute(commands[|commands| - 1]);
      }
    }

    /** `undoButton` undoes the top command and pops exactly that command; on an
        empty stack it does nothing. */
    method UndoButton()
      modifies this, TopTarget()
      ensures old(commands) == [] ==> commands == []
      ensures old(commands) != [] ==>
        var top := old(commands)[|old(commands)| - 1];
        commands == old(commands)[..|old(commands)| - 1] &&
        top.ac.State() == Undone(top, old(top.ac.State()))
    {
      if commands != [] {
        var top := commands[|commands| - 1];
        Undo(top);
        commands := commands[..|commands| - 1];
      }
    }
  }

  /** The demonstration: turn on, set 30, then undo twice. The set-temperature undo
      goes first (last in, first out) and restores 24; the turn-on undo then switches
      the air conditioner off, leaving the stack empty. */
  method Demo() returns (isOn: bool, temperature: int, pending: nat)
    ensures !isOn && temperature == 24 && pending == 0
  {
    var ac := new AirConditioner();
    var remote := new Remote();
    remote.SetCommand(TurnACOnCommand(ac));
    remote.PressButton();
    assert ac.isOn;
    var setTo30 := NewSetTemperatureCommand(ac, 30);
    remote.SetCommand(setTo30);
    remote.PressButton();
    assert ac.isOn && ac.temperature == 30;
    remote.UndoButton();
    assert ac.isOn && ac.temperature == 24;
    remote.UndoButton();
    isOn, temperature, pending := ac.isOn, ac.temperature, |remote.commands|;
  }
}
