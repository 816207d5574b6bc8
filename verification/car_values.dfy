/** The bounded value objects of the car: Speed (a percentage in [-100, 100]),
    Direction (steering-wheel degrees in [-60, 60]) and the CarStatus snapshot.
    A value of these types is always in range; the throwing Java constructors
    are the functions NewSpeed and NewDirection. */
module CarValues {
  import opened Base

  const MaxSpeed: int := 100
  const MinSpeed: int := -100
  const MinDegrees: int := -60
  const MaxDegrees: int := 60

  type SpeedValue = v: int | -100 <= v <= 100
  type DegreesValue = d: int | -60 <= d <= 60

  datatype Speed = Speed(speedValue: SpeedValue)
  datatype Direction = Direction(degrees: DegreesValue)
  datatype CarStatus = CarStatus(speed: Speed, direction: Direction)

  const Standstill: Speed := Speed(0)
  const StraightAhead: Direction := Direction(0)
  const Stopped: CarStatus := CarStatus(Standstill, StraightAhead)

  /** `new Speed(v)`: throws DrivingCarException outside [-100, 100]. */
  function NewSpeed(v: int): (r: Result<Speed>)
    ensures r.Ok? <==> MinSpeed <= v <= MaxSpeed
    ensures r.Ok? ==> r.value.speedValue == v
    ensures r.Err? ==> r.failure == DrivingCarException
  {
    if v < MinSpeed || v > MaxSpeed then Err(DrivingCarException) else Ok(Speed(v))
  }

  /** `getSpeedAsPercentage`: the speed is its own percentage. */
  function SpeedAsPercentage(s: Speed): (r: int)
    ensures r == s.speedValue
  {
    var v := s.speedValue;
    if v < 0 then JavaDiv(-100 * v, MinSpeed) else JavaDiv(100 * v, MaxSpeed)
  }

  /** `increase(step)`: below the maximum the result is the sum capped at 100
      (and it throws if the sum is below -100); at the maximum it is unchanged. */
  function Increase(s: Speed, step: int): (r: Result<Speed>)
    ensures s.speedValue == MaxSpeed ==> r == Ok(s)
    ensures s.speedValue < MaxSpeed ==> (r.Ok? <==> s.speedValue + step >= MinSpeed)
    ensures s.speedValue < MaxSpeed && r.Ok? ==> r.value.speedValue == Min(MaxSpeed, s.speedValue + step)
    ensures r.Err? ==> r.failure == DrivingCarException
    ensures step >= 0 ==> r.Ok? && s.speedValue <= r.value.speedValue
  {
    if s.speedValue < MaxSpeed then NewSpeed(Min(MaxSpeed, s.speedValue + step)) else Ok(s)
  }

  /** `decrease(step)`: above the minimum the result is the difference floored
      at -100 (and it throws if it is above 100); at the minimum it is unchanged. */
  function Decrease(s: Speed, step: int): (r: Result<Speed>)
    ensures s.speedValue == MinSpeed ==> r == Ok(s)
    ensures s.speedValue > MinSpeed ==> (r.Ok? <==> s.speedValue - step <= MaxSpeed)
    ensures s.speedValue > MinSpeed && r.Ok? ==> r.value.speedValue == Max(MinSpeed, s.speedValue - step)
    ensures r.Err? ==> r.failure == DrivingCarException
    ensures step >= 0 ==> r.Ok? && r.value.speedValue <= s.speedValue
  {
    if s.speedValue > MinSpeed then NewSpeed(Max(MinSpeed, s.speedValue - step)) else Ok(s)
  }

  /** `new Direction(d)`: throws DrivingCarException outside [-60, 60]. */
  function NewDirection(d: int): (r: Result<Direction>)
    ensures r.Ok? <==> MinDegrees <= d <= MaxDegrees
    ensures r.Ok? ==> r.value.degrees == d
    ensures r.Err? ==> r.failure == DrivingCarException
  {
    if d < MinDegrees || d > MaxDegrees then Err(DrivingCarException) else Ok(Direction(d))
  }

  /** `steerRight(step)`: below 60 degrees the sum capped at 60; at 60 unchanged. */
  function SteerRight(d: Direction, step: int): (r: Result<Direction>)
    ensures d.degrees == MaxDegrees ==> r == Ok(d)
    ensures d.degrees < MaxDegrees ==> (r.Ok? <==> d.degrees + step >= MinDegrees)
    ensures d.degrees < MaxDegrees && r.Ok? ==> r.value.degrees == Min(MaxDegrees, d.degrees + step)
    ensures r.Err? ==> r.failure == DrivingCarException
    ensures step >= 0 ==> r.Ok? && d.degrees <= r.value.degrees
  {
    if d.degrees < MaxDegrees then NewDirection(Min(MaxDegrees, d.degrees + step)) else Ok(d)
  }

  /** `steerLeft(step)`: above -60 degrees the difference floored at -60; at -60 unchanged. */
  function SteerLeft(d: Direction, step: int): (r: Result<Direction>)
    ensures d.degrees == MinDegrees ==> r == Ok(d)
    ensures d.degrees > MinDegrees ==> (r.Ok? <==> d.degrees - step <= MaxDegrees)
    ensures d.degrees > MinDegrees && r.Ok? ==> r.value.degrees == Max(MinDegrees, d.degrees - step)
    ensures r.Err? ==> r.failure == DrivingCarException
    ensures step >= 0 ==> r.Ok? && r.value.degrees <= d.degrees
  {
    if d.degrees > MinDegrees then NewDirection(Max(MinDegrees, d.degrees - step)) else Ok(d)
  }

  /** `getDegreesAsPercentage`: the share of the 60-degree half range, rounded
      toward zero, with the sign of the steering angle. */
  function DegreesAsPercentage(d: Direction): (r: int)
    ensures -100 <= r <= 100
    ensures (r > 0 <==> d.degrees > 0) && (r < 0 <==> d.degrees < 0)
    ensures Abs(r) == (100 * Abs(d.degrees)) / 60
  {
    var g := d.degrees;
    if g < 0 then JavaDiv(-100 * g, MinDegrees) else JavaDiv(100 * g, MaxDegrees)
  }

  /** The percentage of the opposite angle is the opposite percentage. */
  lemma DegreesAsPercentageOdd(g: DegreesValue)
    ensures DegreesAsPercentage(Direction(-g)) == -DegreesAsPercentage(Direction(g))
  {
  }

  /** Steering further never lowers the percentage. */
  lemma {:induction false} DegreesAsPercentageMonotone(a: Direction, b: Direction)
    requires a.degrees <= b.degrees
    ensures DegreesAsPercentage(a) <= DegreesAsPercentage(b)
  {
    var x: int, y: int := a.degrees, b.degrees;
    if 0 <= x {
      DivMonotone(100 * x, 100 * y, 60);
    } else if y < 0 {
      DivMonotone(-100 * y, -100 * x, 60);
    }
  }

  /** The end points and the truncation examples of the percentage. */
  lemma DegreesAsPercentageExamples()
    ensures DegreesAsPercentage(Direction(60)) == 100
    ensures DegreesAsPercentage(Direction(-60)) == -100
    ensures DegreesAsPercentage(Direction(0)) == 0
    ensures DegreesAsPercentage(Direction(10)) == 16
    ensures DegreesAsPercentage(Direction(-10)) == -16
  {
  }
}
