/** The Car actuator: it owns the current Speed and Direction, applies drive
    requests with the two safety checks (no change of driving direction
    without passing through standstill, no steering jump of more than 60
    degrees), replaces an unsafe request by a stop, and pushes every committed
    value to its CarEngine. The engine is the external collaborator; the car
    keeps the sequence of calls it made to it in `engineCalls`. */
module CarActuator {
  import opened Base
  import opened CarValues

  const SpeedStep: int := 3
  const SteeringStep: int := 10

  /** One call of the car on the CarEngine interface. */
  datatype EngineCall = UpdateMotor(speed: Speed) | UpdateDirection(direction: Direction)

  /** The speed of the most recent `updateMotor` call in a call log. */
  function LastMotor(calls: seq<EngineCall>): Option<Speed>
  {
    if |calls| == 0 then None
    else if calls[|calls| - 1].UpdateMotor? then Some(calls[|calls| - 1].speed)
    else LastMotor(calls[..|calls| - 1])
  }

  /** The direction of the most recent `updateDirection` call in a call log. */
  function LastDirection(calls: seq<EngineCall>): Option<Direction>
  {
    if |calls| == 0 then None
    else if calls[|calls| - 1].UpdateDirection? then Some(calls[|calls| - 1].direction)
    else LastDirection(calls[..|calls| - 1])
  }

  /** The two calls that push a whole car state to the engine, speed first. */
  function PushCalls(s: CarStatus): seq<EngineCall>
  {
    [UpdateMotor(s.speed), UpdateDirection(s.direction)]
  }

  lemma LastAfterPush(calls: seq<EngineCall>, c: EngineCall)
    ensures LastMotor(calls + [c]) == if c.UpdateMotor? then Some(c.speed) else LastMotor(calls)
    ensures LastDirection(calls + [c]) == if c.UpdateDirection? then Some(c.direction) else LastDirection(calls)
  {
    assert (calls + [c])[..|calls|] == calls;
  }

  /** One side moving forward while the other moves backward. */
  predicate OppositeSigns(a: int, b: int)
  {
    (a > 0 && b < 0) || (a < 0 && b > 0)
  }

  /** `allowedChange`: the speed keeps its sign (either side may be zero) and
      the steering angle moves by at most Direction.MAX_DEGREES. */
  function AllowedChange(current: CarStatus, target: CarStatus): (r: bool)
    ensures r <==> !OppositeSigns(current.speed.speedValue, target.speed.speedValue)
                   && -MaxDegrees <= target.direction.degrees - current.direction.degrees <= MaxDegrees
  {
    var n, c := target.speed.speedValue, current.speed.speedValue;
    ((n <= 0 && c <= 0) || (n >= 0 && c >= 0))
    && Abs(target.direction.degrees - current.direction.degrees) <= MaxDegrees
  }

  /** The target `drive` resolves: a missing direction keeps the current one. */
  function DriveTarget(current: CarStatus, newSpeed: Speed, newDirection: Option<Direction>): CarStatus
  {
    CarStatus(newSpeed, if newDirection.None? then current.direction else newDirection.value)
  }

  /** Whether `drive` takes one of its `stop()` branches: a neutral target,
      or a target that fails the safety check. */
  predicate DriveStops(current: CarStatus, newSpeed: Speed, newDirection: Option<Direction>)
  {
    var target := DriveTarget(current, newSpeed, newDirection);
    (target.speed.speedValue == 0 && target.direction.degrees == 0) || !AllowedChange(current, target)
  }

  /** The state `drive` leaves the car in: exactly the target when it is
      accepted, standstill otherwise. */
  function DriveOutcome(current: CarStatus, newSpeed: Speed, newDirection: Option<Direction>): (r: CarStatus)
    ensures r == DriveTarget(current, newSpeed, newDirection) || r == Stopped
    ensures OppositeSigns(current.speed.speedValue, newSpeed.speedValue) ==> r == Stopped
    ensures Abs(DriveTarget(current, newSpeed, newDirection).direction.degrees - current.direction.degrees) > MaxDegrees
            ==> r == Stopped
    ensures !OppositeSigns(current.speed.speedValue, newSpeed.speedValue)
            && Abs(DriveTarget(current, newSpeed, newDirection).direction.degrees - current.direction.degrees) <= MaxDegrees
            ==> r == DriveTarget(current, newSpeed, newDirection)
  {
    if DriveStops(current, newSpeed, newDirection) then Stopped else DriveTarget(current, newSpeed, newDirection)
  }

  /** The engine calls `drive` makes: the stop branches push standstill once
      inside `stop()` and once more at the end of `drive`. */
  function DriveCalls(current: CarStatus, newSpeed: Speed, newDirection: Option<Direction>): seq<EngineCall>
  {
    if DriveStops(current, newSpeed, newDirection) then PushCalls(Stopped) + PushCalls(Stopped)
    else PushCalls(DriveTarget(current, newSpeed, newDirection))
  }

  class Car {
    var speed: Speed
    var direction: Direction
    /** Every call the car made on its CarEngine, oldest first. */
    var engineCalls: seq<EngineCall>

    /** The engine's last received values are the car's state. */
    ghost predicate Valid()
      reads this
    {
      LastMotor(engineCalls) == Some(speed) && LastDirection(engineCalls) == Some(direction)
    }

    /** `getStatus`: the snapshot of the two fields. */
    function GetStatus(): (s: CarStatus)
      reads this
      ensures s.speed == speed && s.direction == direction
    {
      CarStatus(speed, direction)
    }

    /** A new car stands still, wheels straight, and tells the engine so. */
    constructor ()
      ensures Valid()
      ensures GetStatus() == Stopped
      ensures engineCalls == PushCalls(Stopped)
    {
      speed := Standstill;
      direction := StraightAhead;
      engineCalls := [];
      new;
      UpdateEngineSpeed();
      UpdateEngineSteeringDirection();
    }

    method UpdateEngineSpeed()
      modifies this`engineCalls
      ensures engineCalls == old(engineCalls) + [UpdateMotor(speed)]
      ensures LastMotor(engineCalls) == Some(speed)
      ensures LastDirection(engineCalls) == LastDirection(old(engineCalls))
    {
      LastAfterPush(engineCalls, UpdateMotor(speed));
      engineCalls := engineCalls + [UpdateMotor(speed)];
    }

    method UpdateEngineSteeringDirection()
      modifies this`engineCalls
      ensures engineCalls == old(engineCalls) + [UpdateDirection(direction)]
      ensures LastDirection(engineCalls) == Some(direction)
      ensures LastMotor(engineCalls) == LastMotor(old(engineCalls))
    {
      LastAfterPush(engineCalls, UpdateDirection(direction));
      engineCalls := engineCalls + [UpdateDirection(direction)];
    }

    /** `drive(newSpeed, newDirection)`, with `None` for a null direction. */
    method Drive(newSpeed: Speed, newDirection: Option<Direction>)
      requires Valid()
      modifies this
      ensures Valid()
      ensures GetStatus() == DriveOutcome(old(GetStatus()), newSpeed, newDirection)
      ensures engineCalls == old(engineCalls) + DriveCalls(old(GetStatus()), newSpeed, newDirection)
    {
      var calcDirection := if newDirection.None? then direction else newDirection.value;
      if newSpeed.speedValue == 0 && calcDirection.degrees == 0 {
        Stop();
      } else if AllowedChange(GetStatus(), CarStatus(newSpeed, calcDirection)) {
        speed := newSpeed;
        direction := calcDirection;
      } else {
        Stop();
      }
      UpdateEngineSpeed();
      UpdateEngineSteeringDirection();
    }

    /** `increaseSpeed`: three points faster, capped at 100. */
    method IncreaseSpeed()
      requires Valid()
      modifies this
      ensures Valid()
      ensures speed.speedValue == Min(MaxSpeed, old(speed.speedValue) + SpeedStep)
      ensures direction == old(direction)
      ensures engineCalls == old(engineCalls) + [UpdateMotor(speed)]
    {
      speed := Increase(speed, SpeedStep).value;
      UpdateEngineSpeed();
    }

    /** `decreaseSpeed`: three points slower, floored at -100. */
    method DecreaseSpeed()
      requires Valid()
      modifies this
      ensures Valid()
      ensures speed.speedValue == Max(MinSpeed, old(speed.speedValue) - SpeedStep)
      ensures direction == old(direction)
      ensures engineCalls == old(engineCalls) + [UpdateMotor(speed)]
    {
      speed := Decrease(speed, SpeedStep).value;
      UpdateEngineSpeed();
    }

    /** `steerLeft`: ten degrees to the left, floored at -60. */
    method SteerLeft()
      requires Valid()
      modifies this
      ensures Valid()
      ensures direction.degrees == Max(MinDegrees, old(direction.degrees) - SteeringStep)
      ensures speed == old(speed)
      ensures engineCalls == old(engineCalls) + [UpdateDirection(direction)]
    {
      direction := CarValues.SteerLeft(direction, SteeringStep).value;
      UpdateEngineSteeringDirection();
    }

    /** `steerRight`: ten degrees to the right, capped at 60. */
    method SteerRight()
      requires Valid()
      modifies this
      ensures Valid()
      ensures direction.degrees == Min(MaxDegrees, old(direction.degrees) + SteeringStep)
      ensures speed == old(speed)
      ensures engineCalls == old(engineCalls) + [UpdateDirection(direction)]
    {
      direction := CarValues.SteerRight(direction, SteeringStep).value;
      UpdateEngineSteeringDirection();
    }

    /** `stop`: standstill with straight wheels, always pushed to the engine. */
    method Stop()
      modifies this
      ensures Valid()
      ensures GetStatus() == Stopped
      ensures engineCalls == old(engineCalls) + PushCalls(Stopped)
    {
      speed := Standstill;
      direction := StraightAhead;
      UpdateEngineSpeed();
      UpdateEngineSteeringDirection();
    }
  }
}
