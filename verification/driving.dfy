/** Drive commands and the components that produce them: the closed family of
    incremental and absolute commands applied to a Car, the operator's
    CarControlEvent types mapped to commands, the SimpleDriver that turns a
    navigation angle into an absolute command at speed 16, and the
    FixedPathNavigator's repeating table of angles. */
module Driving {
  import opened Base
  import opened CarValues
  import opened CarActuator

  // ---------------------------------------------------------------------------
  // Drive commands

  /** `IncrementalDriveCommand.DriveDirection`. */
  datatype DriveDirection = Forward | Backward | Left | Right | StopDriving

  /** The two kinds of DriveCommand; an absolute command's direction may be
      null, which `drive` reads as "keep the current direction". */
  datatype DriveCommand =
    | Incremental(driveDirection: DriveDirection)
    | Absolute(speed: Speed, direction: Option<Direction>)

  /** The car state a command leaves behind. */
  function CommandOutcome(current: CarStatus, cmd: DriveCommand): (r: CarStatus)
    ensures cmd == Incremental(Forward) ==>
              r.direction == current.direction && r.speed.speedValue == Min(MaxSpeed, current.speed.speedValue + SpeedStep)
    ensures cmd == Incremental(Backward) ==>
              r.direction == current.direction && r.speed.speedValue == Max(MinSpeed, current.speed.speedValue - SpeedStep)
    ensures cmd == Incremental(Left) ==>
              r.speed == current.speed && r.direction.degrees == Max(MinDegrees, current.direction.degrees - SteeringStep)
    ensures cmd == Incremental(Right) ==>
              r.speed == current.speed && r.direction.degrees == Min(MaxDegrees, current.direction.degrees + SteeringStep)
    ensures cmd == Incremental(StopDriving) ==> r == Stopped
    ensures cmd.Absolute? ==> r == DriveOutcome(current, cmd.speed, cmd.direction)
  {
    match cmd
    case Incremental(Forward) => current.(speed := Increase(current.speed, SpeedStep).value)
    case Incremental(Backward) => current.(speed := Decrease(current.speed, SpeedStep).value)
    case Incremental(Left) => current.(direction := CarValues.SteerLeft(current.direction, SteeringStep).value)
    case Incremental(Right) => current.(direction := CarValues.SteerRight(current.direction, SteeringStep).value)
    case Incremental(StopDriving) => Stopped
    case Absolute(s, d) => DriveOutcome(current, s, d)
  }

  /** The engine calls of the one Car method a command invokes. */
  function CommandCalls(current: CarStatus, cmd: DriveCommand): seq<EngineCall>
  {
    match cmd
    case Incremental(Forward) | Incremental(Backward) => [UpdateMotor(CommandOutcome(current, cmd).speed)]
    case Incremental(Left) | Incremental(Right) => [UpdateDirection(CommandOutcome(current, cmd).direction)]
    case Incremental(StopDriving) => PushCalls(Stopped)
    case Absolute(s, d) => DriveCalls(current, s, d)
  }

  /** `applyCommandOnCar`: one Car method per command. */
  method ApplyCommandOnCar(cmd: DriveCommand, car: Car)
    requires car.Valid()
    modifies car
    ensures car.Valid()
    ensures car.GetStatus() == CommandOutcome(old(car.GetStatus()), cmd)
    ensures car.engineCalls == old(car.engineCalls) + CommandCalls(old(car.GetStatus()), cmd)
  {
    match cmd
    case Incremental(Forward) => car.IncreaseSpeed();
    case Incremental(Backward) => car.DecreaseSpeed();
    case Incremental(Left) => car.SteerLeft();
    case Incremental(Right) => car.SteerRight();
    case Incremental(StopDriving) => car.Stop();
    case Absolute(s, d) => car.Drive(s, d);
  }

  /** The car state after a sequence of commands, applied in order. */
  function DriveAll(start: CarStatus, cmds: seq<DriveCommand>): CarStatus
  {
    if |cmds| == 0 then start else CommandOutcome(DriveAll(start, cmds[..|cmds| - 1]), cmds[|cmds| - 1])
  }

  // ---------------------------------------------------------------------------
  // CarControlEvent

  /** `CarControlEvent.Type`: the operator's buttons. */
  datatype ControlType = ForwardPressed | BackwardPressed | LeftPressed | RightPressed | StopPressed

  /** `toDriveCommand`: every button becomes the incremental command of the
      same name. */
  function ToDriveCommand(t: ControlType): (r: DriveCommand)
    ensures r.Incremental?
    ensures r.driveDirection == Forward <==> t == ForwardPressed
    ensures r.driveDirection == Backward <==> t == BackwardPressed
    ensures r.driveDirection == Left <==> t == LeftPressed
    ensures r.driveDirection == Right <==> t == RightPressed
    ensures r.driveDirection == StopDriving <==> t == StopPressed
  {
    match t
    case ForwardPressed => Incremental(Forward)
    case BackwardPressed => Incremental(Backward)
    case LeftPressed => Incremental(Left)
    case RightPressed => Incremental(Right)
    case StopPressed => Incremental(StopDriving)
  }

  /** Different buttons give different commands, and every incremental
      command is some button's. */
  lemma ToDriveCommandBijective(a: ControlType, b: ControlType, dir: DriveDirection)
    ensures ToDriveCommand(a) == ToDriveCommand(b) ==> a == b
    ensures exists t :: ToDriveCommand(t) == Incremental(dir)
  {
    var t := match dir
      case Forward => ForwardPressed
      case Backward => BackwardPressed
      case Left => LeftPressed
      case Right => RightPressed
      case StopDriving => StopPressed;
    assert ToDriveCommand(t) == Incremental(dir);
  }

  // ---------------------------------------------------------------------------
  // SimpleDriver

  /** The fixed speed of every command SimpleDriver emits. */
  const DriverSpeed: int := 16

  /** `mapNavigationDirectionToDriveCommand`: an absolute command at speed 16
      with the navigation angle as steering direction; an angle outside
      [-60, 60] makes the Direction constructor throw. */
  function MapNavigation(degrees: int): (r: Result<DriveCommand>)
    ensures r.Ok? <==> MinDegrees <= degrees <= MaxDegrees
    ensures r.Ok? ==> r.value.Absolute? && r.value.speed.speedValue == DriverSpeed
                      && r.value.direction.Some? && r.value.direction.value.degrees == degrees
    ensures r.Err? ==> r.failure == DrivingCarException
  {
    var speed := NewSpeed(DriverSpeed).value;
    match NewDirection(degrees)
    case Ok(d) => Ok(Absolute(speed, Some(d)))
    case Err(f) => Err(f)
  }

  /** What the driver's mapped stream delivers for a stream of navigation
      angles: the commands, and the error that ended the stream if any. */
  datatype Emission = Emission(commands: seq<DriveCommand>, error: Option<Failure>)

  /** The mapped stream: one command per angle, in order, up to the first
      angle the mapping rejects, whose exception ends the stream. */
  function DriverEmission(angles: seq<int>): (e: Emission)
    ensures |e.commands| <= |angles|
    ensures forall i :: 0 <= i < |e.commands| ==> MapNavigation(angles[i]) == Ok(e.commands[i])
    ensures e.error.None? <==> |e.commands| == |angles|
    ensures e.error.Some? ==> MapNavigation(angles[|e.commands|]) == Err(e.error.value)
  {
    if |angles| == 0 then Emission([], None)
    else
      var prefix := DriverEmission(angles[..|angles| - 1]);
      if prefix.error.Some? then prefix
      else match MapNavigation(angles[|angles| - 1])
        case Ok(cmd) => Emission(prefix.commands + [cmd], None)
        case Err(f) => Emission(prefix.commands, Some(f))
  }

  // ---------------------------------------------------------------------------
  // FixedPathNavigator

  /** The angles of one lap, emitted one per tick and repeated forever. */
  const PathTable: seq<int> := [0, 5, 15, 25, 25, 22, 15, 5, -15, -5, 0]

  /** The angle of the k-th emission, counting from 0. */
  function PathAngle(k: nat): (a: int)
    ensures MinDegrees <= a <= MaxDegrees
  {
    PathTable[k % |PathTable|]
  }

  /** The first k emissions of the navigator. */
  function PathAngles(k: nat): (s: seq<int>)
    ensures |s| == k && forall i :: 0 <= i < k ==> s[i] == PathAngle(i)
  {
    seq(k, i requires 0 <= i => PathAngle(i))
  }

  /** The path starts straight ahead and every lap ends straight ahead. */
  lemma PathStartsAndEndsStraight(lap: nat)
    ensures PathAngle(0) == 0
    ensures PathAngle(lap * |PathTable| + |PathTable| - 1) == 0
  {
    var k := lap * 11 + 10;
    assert k % 11 == 10 by {
      assert k == 11 * lap + 10;
    }
  }

  /** Two consecutive emissions, the wrap from one lap to the next included,
      differ by at most 20 degrees. */
  lemma PathAngleStep(k: nat)
    ensures -20 <= PathAngle(k + 1) - PathAngle(k) <= 20
  {
    var i := k % 11;
    if i < 10 {
      assert (k + 1) % 11 == i + 1;
    } else {
      assert (k + 1) % 11 == 0;
    }
  }

  /** SimpleDriver never throws on the fixed path: every emitted angle becomes
      the absolute command (16, angle). */
  lemma {:induction false} FixedPathEmission(n: nat)
    ensures DriverEmission(PathAngles(n)).error.None?
    ensures DriverEmission(PathAngles(n)).commands
            == seq(n, i requires 0 <= i => Absolute(Speed(DriverSpeed), Some(Direction(PathAngle(i)))))
  {
    var e := DriverEmission(PathAngles(n));
    assert |e.commands| == n;
    forall i | 0 <= i < n
      ensures e.commands[i] == Absolute(Speed(DriverSpeed), Some(Direction(PathAngle(i))))
    {
      assert MapNavigation(PathAngle(i)) == Ok(e.commands[i]);
    }
  }

  /** Driving the fixed path from a stopped car is never vetoed: after the
      k-th command the car runs at speed 16 with the k-th angle. */
  lemma {:induction false} FixedPathDrive(n: nat)
    requires n >= 1
    ensures DriveAll(Stopped, DriverEmission(PathAngles(n)).commands)
            == CarStatus(Speed(DriverSpeed), Direction(PathAngle(n - 1)))
  {
    FixedPathEmission(n);
    var cmds := DriverEmission(PathAngles(n)).commands;
    var last := Absolute(Speed(DriverSpeed), Some(Direction(PathAngle(n - 1))));
    assert cmds[n - 1] == last;
    var before := DriveAll(Stopped, cmds[..n - 1]);
    if n == 1 {
      assert before == Stopped;
    } else {
      FixedPathEmission(n - 1);
      assert cmds[..n - 1] == DriverEmission(PathAngles(n - 1)).commands;
      FixedPathDrive(n - 1);
      PathAngleStep(n - 2);
      assert before == CarStatus(Speed(DriverSpeed), Direction(PathAngle(n - 2)));
    }
    assert !DriveStops(before, last.speed, last.direction);
  }
}
