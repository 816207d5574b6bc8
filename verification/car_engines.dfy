/** The two CarEngine implementations: the development engine that only
    remembers the last values it was given, and the Raspberry Pi engine that
    turns them into PWM pulse levels on two pins. The pins themselves (GPIO
    provisioning, PWM mode, range and clock) are hardware and are represented
    by the last level written to each. */
module CarEngines {
  import opened Base
  import opened CarValues
  import opened CarActuator

  const NeutralSpeedPwm: int := 130
  const NeutralSteeringPwm: int := 150
  const EffectiveRangeSpeedPwm: int := 65
  const EffectiveRangeSteeringPwm: int := 75

  // ---------------------------------------------------------------------------
  // DevAndTestCarEngine

  /** What the development engine holds: nothing until the first call. */
  datatype Readings = Readings(speed: Option<Speed>, direction: Option<Direction>)

  const NoReadings: Readings := Readings(None, None)

  /** The effect of one engine call on the development engine. */
  function Record(r: Readings, call: EngineCall): Readings
  {
    match call
    case UpdateMotor(s) => r.(speed := Some(s))
    case UpdateDirection(d) => r.(direction := Some(d))
  }

  /** The development engine after it received a call log from the start. */
  function RecordAll(calls: seq<EngineCall>): Readings
  {
    if |calls| == 0 then NoReadings else Record(RecordAll(calls[..|calls| - 1]), calls[|calls| - 1])
  }

  /** Replaying a log leaves the engine holding the last value of each kind. */
  lemma {:induction false} RecordAllIsLast(calls: seq<EngineCall>)
    ensures RecordAll(calls) == Readings(LastMotor(calls), LastDirection(calls))
  {
    if |calls| > 0 {
      RecordAllIsLast(calls[..|calls| - 1]);
    }
  }

  class DevAndTestCarEngine {
    var speed: Option<Speed>
    var direction: Option<Direction>

    function GetReadings(): (r: Readings)
      reads this
      ensures r.speed == speed && r.direction == direction
    {
      Readings(speed, direction)
    }

    constructor ()
      ensures GetReadings() == NoReadings
    {
      speed := None;
      direction := None;
    }

    method UpdateMotor(s: Speed)
      modifies this
      ensures speed == Some(s) && direction == old(direction)
      ensures GetReadings() == Record(old(GetReadings()), EngineCall.UpdateMotor(s))
    {
      speed := Some(s);
    }

    method UpdateDirection(d: Direction)
      modifies this
      ensures direction == Some(d) && speed == old(speed)
      ensures GetReadings() == Record(old(GetReadings()), EngineCall.UpdateDirection(d))
    {
      direction := Some(d);
    }
  }

  // ---------------------------------------------------------------------------
  // PiOnboardPWMCarEngine

  /** The motor pulse level for a speed: neutral plus the speed's share of the
      effective range, truncated toward zero. */
  function MotorPwm(s: Speed): (r: int)
    ensures NeutralSpeedPwm - EffectiveRangeSpeedPwm <= r <= NeutralSpeedPwm + EffectiveRangeSpeedPwm
    ensures Abs(r - NeutralSpeedPwm) == (Abs(s.speedValue) * EffectiveRangeSpeedPwm) / 100
    ensures r > NeutralSpeedPwm ==> s.speedValue > 0
    ensures r < NeutralSpeedPwm ==> s.speedValue < 0
  {
    var pct := SpeedAsPercentage(s);
    NeutralSpeedPwm + JavaDiv(pct * EffectiveRangeSpeedPwm, 100)
  }

  /** The steering pulse level for a direction, from its percentage. */
  function SteeringPwm(d: Direction): (r: int)
    ensures NeutralSteeringPwm - EffectiveRangeSteeringPwm <= r <= NeutralSteeringPwm + EffectiveRangeSteeringPwm
    ensures Abs(r - NeutralSteeringPwm) == (Abs(DegreesAsPercentage(d)) * EffectiveRangeSteeringPwm) / 100
    ensures r > NeutralSteeringPwm ==> d.degrees > 0
    ensures r < NeutralSteeringPwm ==> d.degrees < 0
  {
    var pct := DegreesAsPercentage(d);
    NeutralSteeringPwm + JavaDiv(pct * EffectiveRangeSteeringPwm, 100)
  }

  /** A faster speed never gives a lower motor level. */
  lemma {:induction false} MotorPwmMonotone(a: Speed, b: Speed)
    requires a.speedValue <= b.speedValue
    ensures MotorPwm(a) <= MotorPwm(b)
  {
    var x: int, y: int := a.speedValue, b.speedValue;
    JavaDivMonotone(x * EffectiveRangeSpeedPwm, y * EffectiveRangeSpeedPwm, 100);
  }

  /** Steering further right never gives a lower steering level. */
  lemma {:induction false} SteeringPwmMonotone(a: Direction, b: Direction)
    requires a.degrees <= b.degrees
    ensures SteeringPwm(a) <= SteeringPwm(b)
  {
    DegreesAsPercentageMonotone(a, b);
    var x: int, y: int := DegreesAsPercentage(a), DegreesAsPercentage(b);
    JavaDivMonotone(x * EffectiveRangeSteeringPwm, y * EffectiveRangeSteeringPwm, 100);
  }

  /** The end points and the neutral levels of both pins. */
  lemma PwmExamples()
    ensures MotorPwm(Speed(100)) == 195 && MotorPwm(Speed(-100)) == 65 && MotorPwm(Speed(0)) == 130
    ensures MotorPwm(Speed(16)) == 140 && MotorPwm(Speed(-1)) == 130
    ensures SteeringPwm(Direction(60)) == 225 && SteeringPwm(Direction(-60)) == 75 && SteeringPwm(Direction(0)) == 150
    ensures SteeringPwm(Direction(10)) == 162
  {
    DegreesAsPercentageExamples();
  }

  /** The levels last written to the two pins. */
  datatype PinLevels = PinLevels(motor: int, steering: int)

  /** The constructor drives both pins to neutral. */
  const NeutralPins: PinLevels := PinLevels(NeutralSpeedPwm, NeutralSteeringPwm)

  /** The effect of one engine call on the pins. */
  function SetPin(p: PinLevels, call: EngineCall): PinLevels
  {
    match call
    case UpdateMotor(s) => p.(motor := MotorPwm(s))
    case UpdateDirection(d) => p.(steering := SteeringPwm(d))
  }

  /** The pins after the engine received a call log from construction. */
  function SetPinsAll(calls: seq<EngineCall>): PinLevels
  {
    if |calls| == 0 then NeutralPins else SetPin(SetPinsAll(calls[..|calls| - 1]), calls[|calls| - 1])
  }

  /** Each pin holds the level of the last value of its kind, or neutral. */
  lemma {:induction false} SetPinsAllIsLast(calls: seq<EngineCall>)
    ensures SetPinsAll(calls).motor
            == (match LastMotor(calls) case None => NeutralSpeedPwm case Some(s) => MotorPwm(s))
    ensures SetPinsAll(calls).steering
            == (match LastDirection(calls) case None => NeutralSteeringPwm case Some(d) => SteeringPwm(d))
  {
    if |calls| > 0 {
      SetPinsAllIsLast(calls[..|calls| - 1]);
    }
  }

  /** Whichever engine is installed, it reflects a consistent car: the
      development engine holds the car's speed and direction and the pins
      carry their pulse levels. */
  lemma EnginesMirrorCar(car: Car)
    requires car.Valid()
    ensures RecordAll(car.engineCalls) == Readings(Some(car.speed), Some(car.direction))
    ensures SetPinsAll(car.engineCalls) == PinLevels(MotorPwm(car.speed), SteeringPwm(car.direction))
  {
    RecordAllIsLast(car.engineCalls);
    SetPinsAllIsLast(car.engineCalls);
  }

  class PiOnboardPWMCarEngine {
    var motorPin: int
    var steeringPin: int

    function GetPins(): (p: PinLevels)
      reads this
      ensures p.motor == motorPin && p.steering == steeringPin
    {
      PinLevels(motorPin, steeringPin)
    }

    constructor ()
      ensures GetPins() == NeutralPins
    {
      motorPin := NeutralSpeedPwm;
      steeringPin := NeutralSteeringPwm;
    }

    method UpdateMotor(s: Speed)
      modifies this
      ensures motorPin == MotorPwm(s) && steeringPin == old(steeringPin)
      ensures GetPins() == SetPin(old(GetPins()), EngineCall.UpdateMotor(s))
    {
      var pwmSpeed := NeutralSpeedPwm;
      var speedAdjustment := JavaDiv(SpeedAsPercentage(s) * EffectiveRangeSpeedPwm, 100);
      pwmSpeed := pwmSpeed + speedAdjustment;
      motorPin := pwmSpeed;
    }

    method UpdateDirection(d: Direction)
      modifies this
      ensures steeringPin == SteeringPwm(d) && motorPin == old(motorPin)
      ensures GetPins() == SetPin(old(GetPins()), EngineCall.UpdateDirection(d))
    {
      var pwmDirection := NeutralSteeringPwm;
      var directionAdjustment := JavaDiv(DegreesAsPercentage(d) * EffectiveRangeSteeringPwm, 100);
      pwmDirection := pwmDirection + directionAdjustment;
      steeringPin := pwmDirection;
    }
  }
}
