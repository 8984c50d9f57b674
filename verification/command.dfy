/**
 * The command pattern exercise: a `RemoteControl` holds one command, which may be
 * replaced at any time, and runs it on every button press. The commands turn a `Light`
 * on or off; a light keeps no on/off state and only prints, so the model is the
 * console trace, one string per line.
 */
module RemoteCommand {
  import opened Text
  import opened Http

  /** The receiver: a light known by its location. */
  class Light {
    const location: string

    constructor (location: string)
      ensures this.location == location
    {
      this.location := location;
    }
  }

  /** The two concrete commands, each bound to the light given at construction. */
  datatype Command = LightOnCommand(light: Light) | LightOffCommand(light: Light)

  const ButtonPressed := "Remote Control: Button Pressed!"
  const NoCommand := "Remote Control: No command set for the button."

  /** `GetType().Name` of a command. */
  function TypeName(c: Command): string {
    if c.LightOnCommand? then "LightOnCommand" else "LightOffCommand"
  }

  /** The line `TurnOn` or `TurnOff` prints. */
  function LightLine(location: string, on: bool): string {
    location + (if on then " Light is ON." else " Light is OFF.")
  }

  /** What `Execute` prints: one line, from the command's own light. */
  function ExecuteLines(c: Command): (lines: seq<string>)
    ensures |lines| == 1 && |lines[0]| > |c.light.location| && lines[0][..|c.light.location|] == c.light.location
  {
    [LightLine(c.light.location, c.LightOnCommand?)]
  }

  /** What one `PressButton` prints for the command currently held, if any. */
  function PressLines(held: Option<Command>): seq<string> {
    match held
    case None => [NoCommand]
    case Some(c) => [ButtonPressed] + ExecuteLines(c)
  }

  /** A light line ends in "ON." or "OFF." and so is never one of the remote's own lines. */
  predicate IsLightLine(line: string) {
    (|line| >= 3 && line[|line| - 3..] == "ON.") || (|line| >= 4 && line[|line| - 4..] == "OFF.")
  }

  /** The number of command executions a trace shows. */
  function Executions(lines: seq<string>): (n: nat)
    ensures n <= |lines|
    decreases |lines|
  {
    if lines == [] then 0
    else (if IsLightLine(lines[0]) then 1 else 0) + Executions(lines[1..])
  }

  lemma {:induction false} ExecutionsAppend(a: seq<string>, b: seq<string>)
    ensures Executions(a + b) == Executions(a) + Executions(b)
    decreases |a|
  {
    if a == [] {
      assert a + b == b;
    } else {
      assert (a + b)[1..] == a[1..] + b;
      ExecutionsAppend(a[1..], b);
    }
  }

  lemma LightLineIsLightLine(location: string, on: bool)
    ensures IsLightLine(LightLine(location, on))
  {
    var line := LightLine(location, on);
    if on {
      assert line[|line| - 3..] == " Light is ON."[10..];
    } else {
      assert line[|line| - 4..] == " Light is OFF."[10..];
    }
  }

  /** A press with a command executes it exactly once; a press without one executes nothing. */
  lemma PressExecutesOnce(held: Option<Command>)
    ensures Executions(PressLines(held)) == if held.Some? then 1 else 0
  {
    assert !IsLightLine(NoCommand) by {
      assert NoCommand[|NoCommand| - 3..] == "on.";
    }
    assert !IsLightLine(ButtonPressed) by {
      assert ButtonPressed[|ButtonPressed| - 3..] == "ed!";
    }
    match held
    case None =>
      assert Executions([NoCommand]) == 0 + Executions([]);
    case Some(c) =>
      LightLineIsLightLine(c.light.location, c.LightOnCommand?);
      ExecutionsAppend([ButtonPressed], ExecuteLines(c));
      assert Executions([ButtonPressed]) == 0 + Executions([]);
      assert Executions(ExecuteLines(c)) == 1 + Executions([]);
  }

  /** On and off commands for one light print different lines, both naming that light. */
  lemma OnAndOffDiffer(light: Light)
    ensures ExecuteLines(LightOnCommand(light)) != ExecuteLines(LightOffCommand(light))
  {
    var on, off := LightLine(light.location, true), LightLine(light.location, false);
    assert |on| != |off|;
  }

  class RemoteControl {
    /** `_command`; `None` stands for null. */
    var command: Option<Command>
    var console: seq<string>

    constructor ()
      ensures command.None? && console == []
    {
      command := None;
      console := [];
    }

    /**
     * Stores the command, replacing any earlier one, and announces its type. A null
     * argument is stored too, and then reading its type throws before anything is printed.
     */
    method SetCommand(c: Option<Command>) returns (fault: Option<string>)
      modifies this
      ensures command == c
      ensures c.Some? ==> fault.None? && console == old(console) + ["Remote control command set to: " + TypeName(c.value)]
      ensures c.None? ==> fault == Some(NullReference) && console == old(console)
    {
      command := c;
      if c.None? {
        return Some(NullReference);
      }
      console := console + ["Remote control command set to: " + TypeName(c.value)];
      fault := None;
    }

    /** Runs the held command, or reports that there is none; the command is kept either way. */
    method PressButton()
      modifies this
      ensures command == old(command)
      ensures console == old(console) + PressLines(command)
    {
      if command.Some? {
        console := console + [ButtonPressed];
        console := console + ExecuteLines(command.value);
      } else {
        console := console + [NoCommand];
      }
    }
  }

  /** After `SetCommand(c)`, n presses execute `c` exactly n times. */
  method PressRepeatedly(remote: RemoteControl, c: Command, n: nat)
    modifies remote
    ensures remote.command == Some(c)
    ensures |remote.console| >= |old(remote.console)|
    ensures Executions(remote.console[|old(remote.console)|..]) == n
  {
    var _ := remote.SetCommand(Some(c));
    var start := remote.console;
    assert Executions(start[|old(remote.console)|..]) == 0 by {
      var announced := start[|old(remote.console)|..];
      assert announced == ["Remote control command set to: " + TypeName(c)];
      assert !IsLightLine(announced[0]) by {
        var line, t := announced[0], TypeName(c);
        assert t[|t| - 4..] == "mand";
        assert line[|line| - 4..] == t[|t| - 4..];
        assert line[|line| - 3..] == t[|t| - 3..];
      }
      assert Executions(announced) == 0 + Executions([]);
    }
    var i := 0;
    while i < n
      invariant 0 <= i <= n
      invariant remote.command == Some(c)
      invariant |remote.console| >= |start| && remote.console[..|start|] == start
      invariant Executions(remote.console[|old(remote.console)|..]) == i
    {
      ghost var before := remote.console;
      remote.PressButton();
      assert remote.console[|old(remote.console)|..] == before[|old(remote.console)|..] + PressLines(Some(c));
      ExecutionsAppend(before[|old(remote.console)|..], PressLines(Some(c)));
      PressExecutesOnce(Some(c));
      i := i + 1;
    }
  }
}
