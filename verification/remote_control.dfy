/** The command pattern's remote control: buttons bound to device commands,
    and a press that runs the bound command or reports that none is bound. */
module RemoteControl {

  /** The four concrete commands; each calls one method of its device. */
  datatype Command = LightOnCommand | LightOffCommand | FanOnCommand | FanOffCommand

  /** What a device does when a command reaches it. */
  datatype DeviceEffect = LightTurnedOn | LightTurnedOff | FanOn | FanOff

  /** A press's outcome: the effects of the commands run (at most one), or
      the 'no command assigned' notice. */
  datatype PressOutcome = Ran(effects: seq<DeviceEffect>) | NoCommandAssigned

  type Bindings = map<string, Command>

  const NewRemote: Bindings := map[]

  /** `execute` of each command: exactly the one device call it wraps. */
  function Execute(c: Command): (e: DeviceEffect)
    ensures (c == LightOnCommand) <==> (e == LightTurnedOn)
    ensures (c == LightOffCommand) <==> (e == LightTurnedOff)
    ensures (c == FanOnCommand) <==> (e == FanOn)
    ensures (c == FanOffCommand) <==> (e == FanOff)
  {
    match c
    case LightOnCommand => LightTurnedOn
    case LightOffCommand => LightTurnedOff
    case FanOnCommand => FanOn
    case FanOffCommand => FanOff
  }

  /** `setCommand`: binds the button, replacing any earlier binding. */
  function SetCommand(b: Bindings, button: string, c: Command): (r: Bindings)
    ensures r.Keys == b.Keys + {button}
    ensures r[button] == c
    ensures forall k :: k in b && k != button ==> r[k] == b[k]
  {
    b[button := c]
  }

  /** `pressButton`: a bound button runs its command exactly once; an unbound
      one runs nothing. */
  function PressButton(b: Bindings, button: string): (r: PressOutcome)
    ensures r.Ran? <==> button in b
    ensures r.Ran? ==> r.effects == [Execute(b[button])]
  {
    if button in b then Ran([Execute(b[button])]) else NoCommandAssigned
  }

  /** Pressing a button right after binding it runs the new command, whatever
      it was bound to before. */
  lemma PressAfterBind(b: Bindings, button: string, c: Command)
    ensures PressButton(SetCommand(b, button, c), button) == Ran([Execute(c)])
  {
  }

  /** Binding one button does not change what another button does. */
  lemma BindIsLocal(b: Bindings, button: string, c: Command, other: string)
    requires other != button
    ensures PressButton(SetCommand(b, button, c), other) == PressButton(b, other)
  {
  }

  /** The demo's bindings. */
  const DemoRemote: Bindings :=
    SetCommand(SetCommand(SetCommand(SetCommand(NewRemote,
      "1", LightOnCommand), "2", LightOffCommand), "3", FanOnCommand), "4", FanOffCommand)

  /** The demo: '1' turns the light on, '2' off, '3' starts the fan, '4'
      stops it, and any other button has nothing assigned. */
  lemma DemoScenario(other: string)
    ensures PressButton(DemoRemote, "1") == Ran([LightTurnedOn])
    ensures PressButton(DemoRemote, "2") == Ran([LightTurnedOff])
    ensures PressButton(DemoRemote, "3") == Ran([FanOn])
    ensures PressButton(DemoRemote, "4") == Ran([FanOff])
    ensures other !in {"1", "2", "3", "4"} ==> PressButton(DemoRemote, other) == NoCommandAssigned
  {
    assert "1" != "2" && "1" != "3" && "1" != "4" && "2" != "3" && "2" != "4" && "3" != "4";
  }
}
