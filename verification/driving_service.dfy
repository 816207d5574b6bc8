/** The CarDrivingService: it puts one driver at a time behind the wheel,
    applies every command the driver sends to the car, and publishes the
    car's status after each command and after each hand-off. Reactive
    subscriptions are handles with a `cancelled` flag; the subscriber hooks
    that the reactive library would call are explicit methods. */
module CarDriving {
  import opened Base
  import opened CarValues
  import opened CarActuator
  import opened Driving

  /** A handle on a running subscription; cancelling it only marks it. */
  class Subscription {
    var cancelled: bool

    constructor ()
      ensures !cancelled
    {
      cancelled := false;
    }

    method Cancel()
      modifies this
      ensures cancelled
    {
      cancelled := true;
    }
  }

  /** The two command streams a driver can be fed from. */
  datatype DriverInput = ManualInput | AutomatedInput

  /** The observable steps of the service, in the order they happen. */
  datatype DrivingStep =
    | CarStopped
    | SubscriptionCancelled
    | DriverSubscribed(input: DriverInput)
    | CommandApplied(command: DriveCommand)
    | StatusPublished(status: CarStatus)

  /** The statuses published while a driver's commands are applied, one
      after each command, starting from `start`. */
  function StatusesAlong(start: CarStatus, cmds: seq<DriveCommand>): (r: seq<CarStatus>)
    ensures |r| == |cmds|
    ensures |cmds| > 0 ==> r[|cmds| - 1] == DriveAll(start, cmds)
  {
    if |cmds| == 0 then [] else StatusesAlong(start, cmds[..|cmds| - 1]) + [DriveAll(start, cmds)]
  }

  /** The i-th published status is the car's state after the first i commands. */
  lemma {:induction false} StatusesAlongPrefixes(start: CarStatus, cmds: seq<DriveCommand>)
    ensures forall i :: 0 < i <= |cmds| ==> StatusesAlong(start, cmds)[i - 1] == DriveAll(start, cmds[..i])
  {
    if |cmds| > 0 {
      var prefix := cmds[..|cmds| - 1];
      StatusesAlongPrefixes(start, prefix);
      assert forall i :: 0 < i <= |prefix| ==> prefix[..i] == cmds[..i];
      assert cmds[..|cmds|] == cmds;
    }
  }

  /** The steps of applying a driver's commands one by one. */
  function StepsAlong(start: CarStatus, cmds: seq<DriveCommand>): seq<DrivingStep>
  {
    if |cmds| == 0 then []
    else StepsAlong(start, cmds[..|cmds| - 1]) + [CommandApplied(cmds[|cmds| - 1]), StatusPublished(DriveAll(start, cmds))]
  }

  /** The steps of a hand-off to `input`, given whether a subscription was
      recorded and what the new driver sent while it was being subscribed. */
  function HandOffSteps(hadSubscription: bool, input: DriverInput, emitted: seq<DriveCommand>): seq<DrivingStep>
  {
    [CarStopped] + (if hadSubscription then [SubscriptionCancelled] else []) + [DriverSubscribed(input)]
    + StepsAlong(Stopped, emitted) + [CarStopped, StatusPublished(Stopped)]
  }

  class CarDrivingService {
    const car: Car
    /** The input the current driver is subscribed to, if any. */
    var behindWheel: Option<DriverInput>
    var activeSubscription: Subscription?
    /** Everything sent to the car-status subscriber, oldest first. */
    var published: seq<CarStatus>
    /** The order in which the service acted. */
    ghost var steps: seq<DrivingStep>

    ghost predicate Valid()
      reads this, car
    {
      car.Valid()
    }

    constructor (car: Car)
      requires car.Valid()
      ensures Valid() && this.car == car
      ensures behindWheel == None && activeSubscription == null
      ensures published == [] && steps == []
    {
      this.car := car;
      behindWheel := None;
      activeSubscription := null;
      published := [];
      steps := [];
    }

    /** `getCarStatus`: the car's status, read without side effects. */
    function GetCarStatus(): (s: CarStatus)
      reads this, car
      ensures s.speed == car.speed && s.direction == car.direction
    {
      car.GetStatus()
    }

    method PublishCarStatus()
      modifies this`published, this`steps
      ensures published == old(published) + [GetCarStatus()]
      ensures steps == old(steps) + [StatusPublished(GetCarStatus())]
    {
      published := published + [GetCarStatus()];
      steps := steps + [StatusPublished(GetCarStatus())];
    }

    method StopCar()
      modifies car, this`steps
      ensures car.Valid() && GetCarStatus() == Stopped
      ensures steps == old(steps) + [CarStopped]
    {
      car.Stop();
      steps := steps + [CarStopped];
    }

    /** `putBehindWheel`: stop, cancel the old subscription, subscribe the new
        driver (which may already send commands), stop again, publish. */
    method PutBehindWheel(input: DriverInput, emitted: seq<DriveCommand>)
      requires Valid()
      modifies this, car, activeSubscription
      ensures Valid()
      ensures GetCarStatus() == Stopped
      ensures old(activeSubscription) != null ==> old(activeSubscription).cancelled
      ensures activeSubscription != null && fresh(activeSubscription) && !activeSubscription.cancelled
      ensures behindWheel == Some(input)
      ensures published == old(published) + StatusesAlong(Stopped, emitted) + [Stopped]
      ensures steps == old(steps) + HandOffSteps(old(activeSubscription) != null, input, emitted)
    {
      DismissDriver();
      SubscribeDriver(input, emitted);
      StopCar();
      PublishCarStatus();
    }

    /** The first half of a hand-off: stop the car, then cancel the
        recorded subscription if there is one. */
    method DismissDriver()
      requires Valid()
      modifies car, this`steps, activeSubscription
      ensures Valid() && GetCarStatus() == Stopped
      ensures activeSubscription != null ==> activeSubscription.cancelled
      ensures steps == old(steps) + [CarStopped] + (if activeSubscription != null then [SubscriptionCancelled] else [])
    {
      StopCar();
      if activeSubscription != null {
        activeSubscription.Cancel();
        steps := steps + [SubscriptionCancelled];
      }
    }

    /** The second half: `newDriverInput.subscribe(driver)` hands the new
        driver a fresh subscription and may deliver commands at once. */
    method SubscribeDriver(input: DriverInput, emitted: seq<DriveCommand>)
      requires Valid() && GetCarStatus() == Stopped
      modifies car, this`steps, this`published, this`behindWheel, this`activeSubscription
      ensures Valid() && GetCarStatus() == DriveAll(Stopped, emitted)
      ensures activeSubscription != null && fresh(activeSubscription) && !activeSubscription.cancelled
      ensures behindWheel == Some(input)
      ensures published == old(published) + StatusesAlong(Stopped, emitted)
      ensures steps == old(steps) + [DriverSubscribed(input)] + StepsAlong(Stopped, emitted)
    {
      behindWheel := Some(input);
      steps := steps + [DriverSubscribed(input)];
      var subscription := new Subscription();
      HookOnSubscribe(subscription);
      ReceiveAll(emitted);
    }

    /** The new driver's commands sent while it is being subscribed, each
        handled by `hookOnNext`. */
    method ReceiveAll(emitted: seq<DriveCommand>)
      requires Valid() && GetCarStatus() == Stopped
      modifies car, this`published, this`steps
      ensures Valid()
      ensures GetCarStatus() == DriveAll(Stopped, emitted)
      ensures published == old(published) + StatusesAlong(Stopped, emitted)
      ensures steps == old(steps) + StepsAlong(Stopped, emitted)
    {
      var i := 0;
      while i < |emitted|
        invariant 0 <= i <= |emitted|
        invariant car.Valid() && GetCarStatus() == DriveAll(Stopped, emitted[..i])
        invariant published == old(published) + StatusesAlong(Stopped, emitted[..i])
        invariant steps == old(steps) + StepsAlong(Stopped, emitted[..i])
      {
        assert emitted[..i + 1][..i] == emitted[..i];
        HookOnNext(emitted[i]);
        i := i + 1;
      }
      assert emitted[..|emitted|] == emitted;
    }

    /** The driver's `hookOnSubscribe`: remember the newest subscription. */
    method HookOnSubscribe(s: Subscription)
      modifies this`activeSubscription
      ensures activeSubscription == s
    {
      activeSubscription := s;
    }

    /** The driver's `hookOnNext`, i.e. `processDriveCommand`: apply the
        command, then publish the resulting status. */
    method HookOnNext(cmd: DriveCommand)
      requires Valid()
      modifies car, this`published, this`steps
      ensures Valid()
      ensures GetCarStatus() == CommandOutcome(old(GetCarStatus()), cmd)
      ensures published == old(published) + [GetCarStatus()]
      ensures steps == old(steps) + [CommandApplied(cmd), StatusPublished(GetCarStatus())]
    {
      ApplyCommandOnCar(cmd, car);
      steps := steps + [CommandApplied(cmd)];
      PublishCarStatus();
    }

    /** The driver's `hookOnCancel`: a cancelled driver leaves the car stopped. */
    method HookOnCancel()
      modifies car, this`steps
      ensures Valid() && GetCarStatus() == Stopped
      ensures published == old(published)
      ensures steps == old(steps) + [CarStopped]
    {
      StopCar();
    }

    /** The driver's `hookFinally`: any termination leaves the car stopped. */
    method HookFinally()
      modifies car, this`steps
      ensures Valid() && GetCarStatus() == Stopped
      ensures published == old(published)
      ensures steps == old(steps) + [CarStopped]
    {
      StopCar();
    }
  }
}
