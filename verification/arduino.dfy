/** The serial link to the Arduino that drives the speed and steering servos.
    The ArduinoSerialCommandAdapter checks a pulse width against its PWM limits
    and writes "THR<n>\n" or "STE<n>\n"; the ArduinoSerialPercentageController
    converts percentages to pulse widths for it; the older
    ArduinoSerialServoController writes raw values and maps 0..180 degrees
    onto 1000..2000 microseconds. The serial port is a log of the strings
    written to it. */
module Arduino {
  import opened Base
  import opened JavaText
  import opened Pwm

  /** A serial port: the strings written to it, oldest first. While `failing`
      is set every write raises a SerialPortException and writes nothing. */
  class SerialPort {
    var writes: seq<string>
    var failing: bool

    constructor (failing: bool)
      ensures writes == [] && this.failing == failing
    {
      writes := [];
      this.failing := failing;
    }

    /** `writeString`: true when the string went out, false when it raised. */
    method WriteString(msg: string) returns (ok: bool)
      modifies this`writes
      ensures ok <==> !failing
      ensures writes == old(writes) + (if ok then [msg] else [])
    {
      if failing {
        ok := false;
      } else {
        writes := writes + [msg];
        ok := true;
      }
    }
  }

  // ---------------------------------------------------------------------------
  // Commands and their replies

  /** The adapter's `Command` enum. */
  datatype Command = SpeedCommand | DirectionCommand

  /** The text each command is sent as. */
  function CommandName(c: Command): (name: string)
    ensures |name| == 3 && '\n' !in name
  {
    match c
    case SpeedCommand => "THR"
    case DirectionCommand => "STE"
  }

  const SerialCommandBreak: char := '\n'

  /** The line written for a command and its value: the name, the value in
      decimal, and a line break. */
  function CommandMessage(c: Command, value: int): (msg: string)
    ensures |msg| >= 5
    ensures msg[..3] == CommandName(c)
    ensures msg[|msg| - 1] == SerialCommandBreak
    ensures forall i :: 0 <= i < |msg| - 1 ==> msg[i] != SerialCommandBreak
  {
    CommandName(c) + IntToString(value) + [SerialCommandBreak]
  }

  /** A line can be read back: the three-letter name, then the value of every
      32-bit int exactly, then the break that ends it. */
  lemma CommandMessageDecodes(c: Command, value: int)
    requires IsInt32(value)
    ensures ParseInt(CommandMessage(c, value)[3..|CommandMessage(c, value)| - 1]) == Ok(value)
    ensures CommandMessage(c, value)[..3] == "THR" <==> c == SpeedCommand
  {
    var msg := CommandMessage(c, value);
    assert msg[3..|msg| - 1] == IntToString(value);
    IntToStringRoundTrip(value);
  }

  /** The two lines of the adapter's tests. */
  lemma CommandMessageExamples()
    ensures CommandMessage(SpeedCommand, 1100) == "THR1100\n"
    ensures CommandMessage(DirectionCommand, 80) == "STE80\n"
    ensures CommandMessage(SpeedCommand, 1000) == "THR1000\n"
    ensures CommandMessage(DirectionCommand, 110) == "STE110\n"
    ensures CommandMessage(SpeedCommand, 1500) == "THR1500\n"
  {
    DecimalExamples();
  }

  lemma DecimalExamples()
    ensures IntToString(1100) == "1100" && IntToString(1000) == "1000" && IntToString(1500) == "1500"
    ensures IntToString(80) == "80" && IntToString(110) == "110"
  {
    assert NatToString(1) == "1";
    assert NatToString(8) == "8";
    assert NatToString(5) == "5";
    assert NatToString(11) == "11";
    assert NatToString(10) == "10";
    assert NatToString(15) == "15";
    assert NatToString(80) == "80";
    assert NatToString(110) == "110";
    assert NatToString(100) == "100";
    assert NatToString(150) == "150";
    assert NatToString(1100) == "1100";
    assert NatToString(1000) == "1000";
    assert NatToString(1500) == "1500";
  }

  /** The old speed and direction the Arduino reports. */
  datatype CommandResult = CommandResult(speed: int, direction: int)

  const CommandResultSeparator: char := ';'

  /** The `CommandResult` constructor: a missing reply or one without ';'
      reads as (0, 0); otherwise the first two ';'-separated pieces are
      parsed, raising when a piece is missing or not a number. */
  function ParseCommandResult(reply: Option<string>): (r: Result<CommandResult>)
    ensures reply.None? ==> r == Ok(CommandResult(0, 0))
    ensures reply.Some? && CommandResultSeparator !in reply.value ==> r == Ok(CommandResult(0, 0))
    ensures r.Err? ==> r.failure == IndexOutOfBoundsException || r.failure == NumberFormatException
    ensures r.Ok? ==> IsInt32(r.value.speed) && IsInt32(r.value.direction)
  {
    if reply.None? || CommandResultSeparator !in reply.value then Ok(CommandResult(0, 0))
    else
      var values := JavaSplit(reply.value, CommandResultSeparator);
      if |values| < 1 then Err(IndexOutOfBoundsException)
      else match ParseInt(values[0])
        case Err(f) => Err(f)
        case Ok(speed) =>
          if |values| < 2 then Err(IndexOutOfBoundsException)
          else match ParseInt(values[1])
            case Err(f) => Err(f)
            case Ok(direction) => Ok(CommandResult(speed, direction))
  }

  /** A reply "a;b" made of two 32-bit ints parses back to (a, b). */
  lemma CommandResultRoundTrip(speed: int, direction: int)
    requires IsInt32(speed) && IsInt32(direction)
    ensures ParseCommandResult(Some(IntToString(speed) + [CommandResultSeparator] + IntToString(direction)))
            == Ok(CommandResult(speed, direction))
  {
    var a, b := IntToString(speed), IntToString(direction);
    var reply := a + [CommandResultSeparator] + b;
    assert reply[|a|] == CommandResultSeparator;
    JavaSplitPair(a, CommandResultSeparator, b);
    IntToStringRoundTrip(speed);
    IntToStringRoundTrip(direction);
  }

  /** The reply the adapter substitutes for the Arduino's, which it never reads. */
  const FixedReply: string := "0;0"

  lemma FixedReplyIsZero()
    ensures ParseCommandResult(Some(FixedReply)) == Ok(CommandResult(0, 0))
  {
    CommandResultRoundTrip(0, 0);
    assert IntToString(0) + [CommandResultSeparator] + IntToString(0) == FixedReply;
  }

  // ---------------------------------------------------------------------------
  // ArduinoSerialCommandAdapter

  /** `checkForIncorrectPulseWidth`. */
  function CheckForIncorrectPulseWidth(limits: ValidPWMValues, pulseWidth: int): (o: Outcome)
    ensures o.Fail? <==> IsOutsideLimits(limits, pulseWidth)
    ensures o.Fail? ==> o.failure == PWMPulseOutsideLimitsException
  {
    if IsOutsideLimits(limits, pulseWidth) then Fail(PWMPulseOutsideLimitsException) else Pass
  }

  /** What `setSpeed`/`setDirection` return given the limits and whether the
      port fails: the old value read from the fixed reply, which is 0. */
  function AdapterResult(limits: ValidPWMValues, failing: bool, c: Command, pulseWidth: int): (r: Result<int>)
    ensures IsOutsideLimits(limits, pulseWidth) ==> r == Err(PWMPulseOutsideLimitsException)
    ensures !IsOutsideLimits(limits, pulseWidth) && failing ==> r == Err(HardwareInterfaceException)
    ensures !IsOutsideLimits(limits, pulseWidth) && !failing ==> r == Ok(0)
  {
    match CheckForIncorrectPulseWidth(limits, pulseWidth)
    case Fail(f) => Err(f)
    case Pass =>
      if failing then Err(HardwareInterfaceException)
      else
        FixedReplyIsZero();
        var reply := ParseCommandResult(Some(FixedReply)).value;
        Ok(if c == SpeedCommand then reply.speed else reply.direction)
  }

  /** What `setSpeed`/`setDirection` write: the command line exactly when the
      pulse width is within the limits and the port works. */
  function AdapterWrites(limits: ValidPWMValues, failing: bool, c: Command, pulseWidth: int): (w: seq<string>)
    ensures |w| <= 1
    ensures |w| == 1 <==> !IsOutsideLimits(limits, pulseWidth) && !failing
    ensures |w| == 1 ==> w[0] == CommandMessage(c, pulseWidth)
  {
    if IsOutsideLimits(limits, pulseWidth) || failing then [] else [CommandMessage(c, pulseWidth)]
  }

  /** A call writes something exactly when it succeeds. */
  lemma AdapterWritesIffOk(limits: ValidPWMValues, failing: bool, c: Command, pulseWidth: int)
    ensures AdapterResult(limits, failing, c, pulseWidth).Ok? <==> |AdapterWrites(limits, failing, c, pulseWidth)| == 1
  {
  }

  class ArduinoSerialCommandAdapter {
    const serialPort: SerialPort
    const speedPWMValues: ValidPWMValues
    const directionPWMValues: ValidPWMValues

    constructor (serialPort: SerialPort, speedPWMValues: ValidPWMValues, directionPWMValues: ValidPWMValues)
      ensures this.serialPort == serialPort
      ensures this.speedPWMValues == speedPWMValues && this.directionPWMValues == directionPWMValues
    {
      this.serialPort := serialPort;
      this.speedPWMValues := speedPWMValues;
      this.directionPWMValues := directionPWMValues;
    }

    /** `sendCommand`: write the line; a failing port raises
        HardwareInterfaceException, otherwise the fixed reply is parsed. */
    method SendCommand(c: Command, value: int) returns (r: Result<CommandResult>)
      modifies serialPort`writes
      ensures serialPort.writes == old(serialPort.writes) + (if serialPort.failing then [] else [CommandMessage(c, value)])
      ensures serialPort.failing ==> r == Err(HardwareInterfaceException)
      ensures !serialPort.failing ==> r == Ok(CommandResult(0, 0))
    {
      var ok := serialPort.WriteString(CommandMessage(c, value));
      if !ok {
        return Err(HardwareInterfaceException);
      }
      FixedReplyIsZero();
      r := ParseCommandResult(Some(FixedReply));
    }

    /** `setSpeed`: check the speed limits, then send THR. */
    method SetSpeed(pulseWidth: int) returns (r: Result<int>)
      modifies serialPort`writes
      ensures r == AdapterResult(speedPWMValues, serialPort.failing, SpeedCommand, pulseWidth)
      ensures serialPort.writes == old(serialPort.writes) + AdapterWrites(speedPWMValues, serialPort.failing, SpeedCommand, pulseWidth)
    {
      var check := CheckForIncorrectPulseWidth(speedPWMValues, pulseWidth);
      if check.Fail? {
        return Err(check.failure);
      }
      var result := SendCommand(SpeedCommand, pulseWidth);
      if result.Err? {
        return Err(result.failure);
      }
      r := Ok(result.value.speed);
    }

    /** `getSpeed`: the adapter does not track the speed. */
    function GetSpeed(): (r: int)
      ensures r == 0
    {
      0
    }

    /** `setDirection`: check the direction limits, then send STE. */
    method SetDirection(pulseWidth: int) returns (r: Result<int>)
      modifies serialPort`writes
      ensures r == AdapterResult(directionPWMValues, serialPort.failing, DirectionCommand, pulseWidth)
      ensures serialPort.writes == old(serialPort.writes) + AdapterWrites(directionPWMValues, serialPort.failing, DirectionCommand, pulseWidth)
    {
      var check := CheckForIncorrectPulseWidth(directionPWMValues, pulseWidth);
      if check.Fail? {
        return Err(check.failure);
      }
      var result := SendCommand(DirectionCommand, pulseWidth);
      if result.Err? {
        return Err(result.failure);
      }
      r := Ok(result.value.direction);
    }

    /** `getDirection`: the adapter does not track the direction. */
    function GetDirection(): (r: int)
      ensures r == 0
    {
      0
    }

    /** `stop`: neutral speed, then neutral direction; a failing port raises
        at the first write. */
    method Stop() returns (o: Outcome)
      modifies serialPort`writes
      ensures serialPort.failing ==> o == Fail(HardwareInterfaceException) && serialPort.writes == old(serialPort.writes)
      ensures !serialPort.failing ==> o == Pass
      ensures !serialPort.failing ==>
                serialPort.writes == old(serialPort.writes)
                  + [CommandMessage(SpeedCommand, speedPWMValues.neutralPulseWidth),
                     CommandMessage(DirectionCommand, directionPWMValues.neutralPulseWidth)]
    {
      var s := SetSpeed(speedPWMValues.neutralPulseWidth);
      if s.Err? {
        return Fail(s.failure);
      }
      var d := SetDirection(directionPWMValues.neutralPulseWidth);
      o := match d
        case Ok(_) => Pass
        case Err(f) => Fail(f);
    }
  }

  // ---------------------------------------------------------------------------
  // ArduinoSerialPercentageController

  /** What the controller's `setSpeed`/`setDirection` return: the percentage
      is converted with its own PWM values, handed to the adapter (whose own
      limits and port decide), and the adapter's old pulse width is converted
      back. */
  function ControllerResult(pwm: ValidPWMValues, adapterLimits: ValidPWMValues, failing: bool, c: Command, percentage: int): (r: Result<int>)
    ensures !(-100 <= percentage <= 100) ==> r == Err(IllegalArgumentException)
    ensures -100 <= percentage <= 100 ==>
              var pw := PulseWidthForPercentage(pwm, percentage).value;
              r == match AdapterResult(adapterLimits, failing, c, pw)
                   case Err(f) => Err(f)
                   case Ok(previous) => PercentageForPulseWidth(pwm, previous)
    ensures r.Ok? ==> r == PercentageForPulseWidth(pwm, 0)
  {
    match PulseWidthForPercentage(pwm, percentage)
    case Err(f) => Err(f)
    case Ok(pulseWidth) =>
      match AdapterResult(adapterLimits, failing, c, pulseWidth)
      case Err(f) => Err(f)
      case Ok(previous) => PercentageForPulseWidth(pwm, previous)
  }

  /** What the controller's set calls write: nothing for a percentage out of
      range, otherwise whatever the adapter writes for the converted width. */
  function ControllerWrites(pwm: ValidPWMValues, adapterLimits: ValidPWMValues, failing: bool, c: Command, percentage: int): (w: seq<string>)
    ensures !(-100 <= percentage <= 100) ==> w == []
    ensures -100 <= percentage <= 100 ==> w == AdapterWrites(adapterLimits, failing, c, PulseWidthForPercentage(pwm, percentage).value)
  {
    match PulseWidthForPercentage(pwm, percentage)
    case Err(_) => []
    case Ok(pulseWidth) => AdapterWrites(adapterLimits, failing, c, pulseWidth)
  }

  /** Because the adapter reports 0 as the old pulse width, a calibration
      whose minimum is above 0 makes every set call that reaches the port
      write its command and then raise IllegalArgumentException. */
  lemma ZeroOldPulseWidthRejected(pwm: ValidPWMValues, adapterLimits: ValidPWMValues, failing: bool, c: Command, percentage: int)
    requires pwm.minimumPulseWidth > 0
    requires |ControllerWrites(pwm, adapterLimits, failing, c, percentage)| == 1
    ensures ControllerResult(pwm, adapterLimits, failing, c, percentage) == Err(IllegalArgumentException)
  {
  }

  /** With the calibrations of the tests, 0% becomes a neutral command. */
  lemma ControllerExamples()
    ensures ControllerWrites(PWMValues(500, 1000, 2000), PWMValues(500, 1000, 2000), false, SpeedCommand, 0) == ["THR1000\n"]
    ensures ControllerWrites(PWMValues(10, 110, 210), PWMValues(10, 110, 210), false, DirectionCommand, 0) == ["STE110\n"]
  {
    CommandMessageExamples();
  }

  class ArduinoSerialPercentageController {
    const arduinoSerialCommandAdapter: ArduinoSerialCommandAdapter
    const speedPWMValues: ValidPWMValues
    const directionPWMValues: ValidPWMValues

    constructor (adapter: ArduinoSerialCommandAdapter, speedPWMValues: ValidPWMValues, directionPWMValues: ValidPWMValues)
      ensures arduinoSerialCommandAdapter == adapter
      ensures this.speedPWMValues == speedPWMValues && this.directionPWMValues == directionPWMValues
    {
      arduinoSerialCommandAdapter := adapter;
      this.speedPWMValues := speedPWMValues;
      this.directionPWMValues := directionPWMValues;
    }

    /** `setSpeed`: a percentage, converted to a pulse width for the adapter. */
    method SetSpeed(speed: int) returns (r: Result<int>)
      modifies arduinoSerialCommandAdapter.serialPort`writes
      ensures var port := arduinoSerialCommandAdapter.serialPort;
              r == ControllerResult(speedPWMValues, arduinoSerialCommandAdapter.speedPWMValues, port.failing, SpeedCommand, speed)
              && port.writes == old(port.writes)
                 + ControllerWrites(speedPWMValues, arduinoSerialCommandAdapter.speedPWMValues, port.failing, SpeedCommand, speed)
    {
      var newPulseWidth := PulseWidthForPercentage(speedPWMValues, speed);
      if newPulseWidth.Err? {
        return Err(newPulseWidth.failure);
      }
      var oldPulseWidth := arduinoSerialCommandAdapter.SetSpeed(newPulseWidth.value);
      if oldPulseWidth.Err? {
        return Err(oldPulseWidth.failure);
      }
      r := PercentageForPulseWidth(speedPWMValues, oldPulseWidth.value);
    }

    /** `getSpeed`: the adapter's speed as a percentage. */
    function GetSpeed(): (r: Result<int>)
      ensures r == PercentageForPulseWidth(speedPWMValues, 0)
      ensures r.Ok? <==> !IsOutsideLimits(speedPWMValues, 0) && !(0 == speedPWMValues.neutralPulseWidth == speedPWMValues.maximumPulseWidth)
    {
      PercentageForPulseWidth(speedPWMValues, arduinoSerialCommandAdapter.GetSpeed())
    }

    /** `setDirection`: a percentage, converted to a pulse width for the adapter. */
    method SetDirection(direction: int) returns (r: Result<int>)
      modifies arduinoSerialCommandAdapter.serialPort`writes
      ensures var port := arduinoSerialCommandAdapter.serialPort;
              r == ControllerResult(directionPWMValues, arduinoSerialCommandAdapter.directionPWMValues, port.failing, DirectionCommand, direction)
              && port.writes == old(port.writes)
                 + ControllerWrites(directionPWMValues, arduinoSerialCommandAdapter.directionPWMValues, port.failing, DirectionCommand, direction)
    {
      var newPulseWidth := PulseWidthForPercentage(directionPWMValues, direction);
      if newPulseWidth.Err? {
        return Err(newPulseWidth.failure);
      }
      var oldPulseWidth := arduinoSerialCommandAdapter.SetDirection(newPulseWidth.value);
      if oldPulseWidth.Err? {
        return Err(oldPulseWidth.failure);
      }
      r := PercentageForPulseWidth(directionPWMValues, oldPulseWidth.value);
    }

    /** `getDirection`: the adapter's direction as a percentage. */
    function GetDirection(): (r: Result<int>)
      ensures r == PercentageForPulseWidth(directionPWMValues, 0)
      ensures r.Ok? <==> !IsOutsideLimits(directionPWMValues, 0) && !(0 == directionPWMValues.neutralPulseWidth == directionPWMValues.maximumPulseWidth)
    {
      PercentageForPulseWidth(directionPWMValues, arduinoSerialCommandAdapter.GetDirection())
    }

    /** `stop`: the adapter's stop, once. */
    method Stop() returns (o: Outcome)
      modifies arduinoSerialCommandAdapter.serialPort`writes
      ensures var port := arduinoSerialCommandAdapter.serialPort;
              (port.failing ==> o == Fail(HardwareInterfaceException) && port.writes == old(port.writes))
              && (!port.failing ==>
                    o == Pass && port.writes == old(port.writes)
                      + [CommandMessage(SpeedCommand, arduinoSerialCommandAdapter.speedPWMValues.neutralPulseWidth),
                         CommandMessage(DirectionCommand, arduinoSerialCommandAdapter.directionPWMValues.neutralPulseWidth)])
    {
      o := arduinoSerialCommandAdapter.Stop();
    }
  }

  // ---------------------------------------------------------------------------
  // ArduinoSerialServoController

  const ServoNeutral: int := 1500

  /** `steerDegrees`' pulse width: 0..180 degrees spread over 1000..2000. */
  function SteeringValue(degrees: int): (v: int)
    requires 0 <= degrees <= 180
    ensures 1000 <= v <= 2000
    ensures degrees == 0 ==> v == 1000
    ensures degrees == 90 ==> v == 1500
    ensures degrees == 180 ==> v == 2000
  {
    DivMonotone(degrees * 1000, 180 * 1000, 180);
    MulDivCancel(1000, 180);
    JavaDiv(degrees * 1000, 180) + 1000
  }

  /** More degrees never give a smaller pulse width. */
  lemma SteeringValueMonotone(a: int, b: int)
    requires 0 <= a <= b <= 180
    ensures SteeringValue(a) <= SteeringValue(b)
  {
    ScaleBetween(1000, a, b);
    DivMonotone(a * 1000, b * 1000, 180);
  }

  class ArduinoSerialServoController {
    const serialPort: SerialPort
    const servoMinPulseWidth: int
    const servoMaxPulseWidth: int

    /** The one-argument constructor: limits 1000 and 2000. */
    constructor (serialPort: SerialPort)
      ensures this.serialPort == serialPort
      ensures servoMinPulseWidth == 1000 && servoMaxPulseWidth == 2000
    {
      this.serialPort := serialPort;
      servoMinPulseWidth := 1000;
      servoMaxPulseWidth := 2000;
    }

    constructor WithLimits(serialPort: SerialPort, servoMinPulseWidth: int, servoMaxPulseWidth: int)
      ensures this.serialPort == serialPort
      ensures this.servoMinPulseWidth == servoMinPulseWidth && this.servoMaxPulseWidth == servoMaxPulseWidth
    {
      this.serialPort := serialPort;
      this.servoMinPulseWidth := servoMinPulseWidth;
      this.servoMaxPulseWidth := servoMaxPulseWidth;
    }

    /** `sendCommand`: write the line; a serial error is swallowed. Always 0. */
    method SendCommand(c: Command, value: int) returns (r: int)
      modifies serialPort`writes
      ensures r == 0
      ensures serialPort.writes == old(serialPort.writes) + (if serialPort.failing then [] else [CommandMessage(c, value)])
    {
      var _ := serialPort.WriteString(CommandMessage(c, value));
      r := 0;
    }

    /** `forward`: the amount is sent unchecked. */
    method Forward(amount: int) returns (r: int)
      modifies serialPort`writes
      ensures r == 0
      ensures serialPort.writes == old(serialPort.writes) + (if serialPort.failing then [] else [CommandMessage(SpeedCommand, amount)])
    {
      r := SendCommand(SpeedCommand, amount);
    }

    /** `backward`: identical to `forward`. */
    method Backward(amount: int) returns (r: int)
      modifies serialPort`writes
      ensures r == 0
      ensures serialPort.writes == old(serialPort.writes) + (if serialPort.failing then [] else [CommandMessage(SpeedCommand, amount)])
    {
      r := SendCommand(SpeedCommand, amount);
    }

    /** `brake`: the neutral throttle. */
    method Brake() returns (r: int)
      modifies serialPort`writes
      ensures r == 0
      ensures serialPort.writes == old(serialPort.writes) + (if serialPort.failing then [] else ["THR1500\n"])
    {
      CommandMessageExamples();
      r := SendCommand(SpeedCommand, ServoNeutral);
    }

    /** `steerDegrees`: degrees outside [0, 180] raise before anything is written. */
    method SteerDegrees(degrees: int) returns (r: Result<int>)
      modifies serialPort`writes
      ensures !(0 <= degrees <= 180) ==> r == Err(IllegalArgumentException) && serialPort.writes == old(serialPort.writes)
      ensures 0 <= degrees <= 180 ==>
                r == Ok(0) && serialPort.writes == old(serialPort.writes)
                  + (if serialPort.failing then [] else [CommandMessage(DirectionCommand, SteeringValue(degrees))])
    {
      if degrees < 0 || degrees > 180 {
        return Err(IllegalArgumentException);
      }
      var value := SteeringValue(degrees);
      var sent := SendCommand(DirectionCommand, value);
      r := Ok(sent);
    }

    /** `getSpeed`, `isForward`, `isBackward` and `getSteering` all report 0. */
    function GetSpeed(): (r: int) ensures r == 0 { 0 }

    function IsForward(): (r: int) ensures r == 0 { 0 }

    function IsBackward(): (r: int) ensures r == 0 { 0 }

    function GetSteering(): (r: int) ensures r == 0 { 0 }
  }
}
