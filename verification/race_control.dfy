/** Race control: the four-state race machine of RaceControlService, which
    hands the car to the manual or the automated driver, listens to the
    starter and the finisher through subscriptions, and publishes every
    status it enters; and RaceControlMessageSubscriber, which dispatches the
    operator's messages to it. */
module RaceControl {
  import opened Base
  import opened CarValues
  import opened Driving
  import opened CarDriving

  datatype RaceStatus = ManualDriving | AwaitingStartSignal | Racing | RacingPaused

  /** `isRacing`: any status but manual driving. */
  function IsRacing(s: RaceStatus): (r: bool)
    ensures r <==> s != ManualDriving
  {
    s == Racing || s == AwaitingStartSignal || s == RacingPaused
  }

  /** `RaceControlEvent.Type`: the operator's race messages. */
  datatype MessageType = Manual | InitRace | Race | Stop | Pause | Continue

  /** What can drive the race machine: an operator message, or a signal from
      the starter or the finisher subscription. */
  datatype RaceEvent = Message(t: MessageType) | StartSignal | FinishSignal

  /** Whether the service acts on an event at all: the guarded transitions
      (finish, stop, pause, continue) do nothing outside a race. */
  predicate Fires(s: RaceStatus, e: RaceEvent)
    ensures IsRacing(s) ==> Fires(s, e)
    ensures !IsRacing(s) ==> (Fires(s, e) <==> e in {Message(Manual), Message(InitRace), Message(Race), StartSignal})
  {
    match e
    case Message(Manual) | Message(InitRace) | Message(Race) | StartSignal => true
    case _ => IsRacing(s)
  }

  /** The race status after an event (when the transition does not fail). */
  function NextStatus(s: RaceStatus, e: RaceEvent): (n: RaceStatus)
    ensures !Fires(s, e) ==> n == s
    ensures e in {Message(Manual), Message(Stop), FinishSignal} ==> n == ManualDriving
    ensures e == Message(InitRace) ==> n == AwaitingStartSignal
    ensures IsRacing(n) <==> e in {Message(InitRace), Message(Race), StartSignal}
                             || (IsRacing(s) && e in {Message(Pause), Message(Continue)})
    ensures n == RacingPaused ==> e == Message(Pause) || (s == RacingPaused && !Fires(s, e))
  {
    if !Fires(s, e) then s
    else match e
      case Message(Manual) | Message(Stop) | FinishSignal => ManualDriving
      case Message(InitRace) => AwaitingStartSignal
      case Message(Race) | StartSignal | Message(Continue) => Racing
      case Message(Pause) => RacingPaused
  }

  /** The race statuses an event publishes: the new status, once, exactly
      when the transition fires. */
  function PublishedFor(s: RaceStatus, e: RaceEvent): (r: seq<RaceStatus>)
    ensures |r| <= 1
    ensures |r| == 1 <==> Fires(s, e)
    ensures |r| == 1 ==> r[0] == NextStatus(s, e)
  {
    if Fires(s, e) then [NextStatus(s, e)] else []
  }

  /** The race status after a sequence of events, from manual driving. */
  function StatusAfter(events: seq<RaceEvent>): RaceStatus
  {
    if |events| == 0 then ManualDriving else NextStatus(StatusAfter(events[..|events| - 1]), events[|events| - 1])
  }

  /** Without an init or a start the car never leaves manual driving: pause,
      continue, stop and finish are all ignored there. */
  lemma {:induction false} NoRaceWithoutStart(events: seq<RaceEvent>)
    requires forall i :: 0 <= i < |events| ==> events[i] !in {Message(InitRace), Message(Race), StartSignal}
    ensures StatusAfter(events) == ManualDriving
  {
    if |events| > 0 {
      NoRaceWithoutStart(events[..|events| - 1]);
    }
  }

  /** The observable steps of race control, in order. */
  datatype RaceStep =
    | RaceStatusPublished(status: RaceStatus)
    | DriverInstalled(input: DriverInput)
    | StarterSubscribed
    | StarterCancelled
    | FinisherSubscribed
    | FinisherCancelled

  /** The steps an operator message makes the service take, given the race
      status and whether a starter and a finisher subscription are recorded:
      nothing for a guarded message outside a race, nothing for RACE without
      a starter subscription (it throws before its first step), and
      otherwise the steps of the one service method the message calls. */
  function MessageSteps(t: MessageType, s: RaceStatus, hasStarter: bool, hasFinisher: bool): (r: seq<RaceStep>)
    ensures r == [] <==> !Fires(s, Message(t)) || (t == Race && !hasStarter)
    ensures r != [] ==> RaceStatusPublished(NextStatus(s, Message(t))) in r
    ensures r != [] && t != InitRace ==>
              DriverInstalled(if t == Race || t == Continue then AutomatedInput else ManualInput) in r
    ensures StarterSubscribed in r <==> t == InitRace
    ensures FinisherSubscribed in r <==> r != [] && t == Race
    ensures StarterCancelled in r <==> r != [] && hasStarter && (t == Race || t == Stop)
    ensures FinisherCancelled in r <==> r != [] && hasFinisher && t == Stop
  {
    if !Fires(s, Message(t)) then []
    else match t
      case Manual => [RaceStatusPublished(ManualDriving), DriverInstalled(ManualInput)]
      case InitRace => [RaceStatusPublished(AwaitingStartSignal), StarterSubscribed]
      case Race =>
        if hasStarter then [StarterCancelled, DriverInstalled(AutomatedInput), RaceStatusPublished(Racing), FinisherSubscribed]
        else []
      case Stop =>
        (if hasStarter then [StarterCancelled] else []) + (if hasFinisher then [FinisherCancelled] else [])
        + [RaceStatusPublished(ManualDriving), DriverInstalled(ManualInput)]
      case Pause => [DriverInstalled(ManualInput), RaceStatusPublished(RacingPaused)]
      case Continue => [DriverInstalled(AutomatedInput), RaceStatusPublished(Racing)]
  }

  /** Once a starter subscription is recorded, two different messages that
      both fire never take the same steps: the dispatch is observable. */
  lemma MessagesTakeDistinctSteps(t1: MessageType, t2: MessageType, s: RaceStatus, hasFinisher: bool)
    requires t1 != t2 && Fires(s, Message(t1)) && Fires(s, Message(t2))
    ensures MessageSteps(t1, s, true, hasFinisher) != MessageSteps(t2, s, true, hasFinisher)
  {
  }

  class RaceControlService {
    const carDrivingService: CarDrivingService
    var raceStatus: RaceStatus
    var activeStarterSubscription: Subscription?
    var activeFinisherSubscription: Subscription?
    /** Everything sent to the race-status subscriber, oldest first. */
    var published: seq<RaceStatus>
    ghost var steps: seq<RaceStep>

    ghost predicate Valid()
      reads this, carDrivingService, carDrivingService.car
    {
      carDrivingService.Valid()
    }

    /** The constructor ends with `startManualDriving`. */
    constructor (service: CarDrivingService, emitted: seq<DriveCommand>)
      requires service.Valid()
      modifies service, service.car, service.activeSubscription
      ensures Valid() && carDrivingService == service
      ensures raceStatus == ManualDriving && published == [ManualDriving]
      ensures activeStarterSubscription == null && activeFinisherSubscription == null
      ensures service.behindWheel == Some(ManualInput) && service.GetCarStatus() == Stopped
      ensures steps == [RaceStatusPublished(ManualDriving), DriverInstalled(ManualInput)]
    {
      carDrivingService := service;
      raceStatus := ManualDriving;
      activeStarterSubscription := null;
      activeFinisherSubscription := null;
      published := [];
      steps := [];
      new;
      StartManualDriving(emitted);
    }

    method PublishRaceStatus(s: RaceStatus)
      modifies this`raceStatus, this`published, this`steps
      ensures raceStatus == s
      ensures published == old(published) + [s]
      ensures steps == old(steps) + [RaceStatusPublished(s)]
    {
      raceStatus := s;
      published := published + [s];
      steps := steps + [RaceStatusPublished(s)];
    }

    /** `carDrivingService.putBehindWheel(driver)`. */
    method HandTo(input: DriverInput, emitted: seq<DriveCommand>)
      requires Valid()
      modifies carDrivingService, carDrivingService.car, carDrivingService.activeSubscription, this`steps
      ensures Valid()
      ensures carDrivingService.behindWheel == Some(input) && carDrivingService.GetCarStatus() == Stopped
      ensures old(carDrivingService.activeSubscription) != null ==> old(carDrivingService.activeSubscription).cancelled
      ensures fresh(carDrivingService.activeSubscription)
      ensures steps == old(steps) + [DriverInstalled(input)]
    {
      carDrivingService.PutBehindWheel(input, emitted);
      steps := steps + [DriverInstalled(input)];
    }

    /** `startManualDriving`: publish manual driving, then hand the car to
        the manual driver. It cancels neither starter nor finisher. */
    method StartManualDriving(emitted: seq<DriveCommand>)
      requires Valid()
      modifies this, carDrivingService, carDrivingService.car, carDrivingService.activeSubscription
      ensures Valid()
      ensures raceStatus == NextStatus(old(raceStatus), Message(Manual))
      ensures published == old(published) + PublishedFor(old(raceStatus), Message(Manual))
      ensures carDrivingService.behindWheel == Some(ManualInput) && carDrivingService.GetCarStatus() == Stopped
      ensures activeStarterSubscription == old(activeStarterSubscription)
      ensures activeFinisherSubscription == old(activeFinisherSubscription)
      ensures steps == old(steps) + [RaceStatusPublished(ManualDriving), DriverInstalled(ManualInput)]
    {
      PublishRaceStatus(ManualDriving);
      HandTo(ManualInput, emitted);
    }

    /** `initRace`: from any status, await the start signal and subscribe to
        the starter (any earlier starter subscription is overwritten, not
        cancelled). */
    method InitRace()
      modifies this
      ensures raceStatus == NextStatus(old(raceStatus), Message(MessageType.InitRace))
      ensures published == old(published) + PublishedFor(old(raceStatus), Message(MessageType.InitRace))
      ensures activeStarterSubscription != null && fresh(activeStarterSubscription)
      ensures !activeStarterSubscription.cancelled
      ensures activeFinisherSubscription == old(activeFinisherSubscription)
      ensures steps == old(steps) + [RaceStatusPublished(AwaitingStartSignal), StarterSubscribed]
    {
      PublishRaceStatus(AwaitingStartSignal);
      var s := new Subscription();
      StarterHookOnSubscribe(s);
      steps := steps + [StarterSubscribed];
    }

    /** `startRace`, unguarded: cancel the starter subscription, hand the car
        to the automated driver, publish racing and subscribe to the
        finisher. Without a starter subscription the first step throws and
        nothing changes. */
    method StartRace(emitted: seq<DriveCommand>) returns (o: Outcome)
      requires Valid()
      modifies this, carDrivingService, carDrivingService.car, carDrivingService.activeSubscription
      modifies activeStarterSubscription
      ensures Valid()
      ensures o.Fail? <==> old(activeStarterSubscription) == null
      ensures o.Fail? ==> o.failure == NullPointerException
      ensures o.Fail? ==> (raceStatus == old(raceStatus) && published == old(published) && steps == old(steps)
                           && activeFinisherSubscription == old(activeFinisherSubscription)
                           && unchanged(carDrivingService, carDrivingService.car))
      ensures o.Pass? ==> raceStatus == NextStatus(old(raceStatus), StartSignal)
                          && published == old(published) + PublishedFor(old(raceStatus), StartSignal)
      ensures o.Pass? ==> old(activeStarterSubscription).cancelled
                          && carDrivingService.behindWheel == Some(AutomatedInput)
                          && carDrivingService.GetCarStatus() == Stopped
      ensures o.Pass? ==> activeFinisherSubscription != null && fresh(activeFinisherSubscription)
                          && !activeFinisherSubscription.cancelled
      ensures o.Pass? ==> steps == old(steps) + [StarterCancelled, DriverInstalled(AutomatedInput),
                                                 RaceStatusPublished(Racing), FinisherSubscribed]
      ensures activeStarterSubscription == old(activeStarterSubscription)
    {
      if activeStarterSubscription == null {
        return Fail(NullPointerException);
      }
      activeStarterSubscription.Cancel();
      steps := steps + [StarterCancelled];
      HandTo(AutomatedInput, emitted);
      PublishRaceStatus(Racing);
      var s := new Subscription();
      FinisherHookOnSubscribe(s);
      steps := steps + [FinisherSubscribed];
      return Pass;
    }

    /** `finishRace`, guarded by `isRacing`: cancel the finisher subscription,
        hand the car to the manual driver and publish manual driving. */
    method FinishRace(emitted: seq<DriveCommand>) returns (o: Outcome)
      requires Valid()
      modifies this, carDrivingService, carDrivingService.car, carDrivingService.activeSubscription
      modifies activeFinisherSubscription
      ensures Valid()
      ensures o.Fail? <==> IsRacing(old(raceStatus)) && old(activeFinisherSubscription) == null
      ensures o.Fail? ==> o.failure == NullPointerException
      ensures !IsRacing(old(raceStatus)) || o.Fail? ==>
                raceStatus == old(raceStatus) && published == old(published) && steps == old(steps)
                && unchanged(carDrivingService, carDrivingService.car)
      ensures o.Pass? ==> raceStatus == NextStatus(old(raceStatus), FinishSignal)
                          && published == old(published) + PublishedFor(old(raceStatus), FinishSignal)
      ensures o.Pass? && IsRacing(old(raceStatus)) ==>
                old(activeFinisherSubscription).cancelled
                && carDrivingService.behindWheel == Some(ManualInput)
                && carDrivingService.GetCarStatus() == Stopped
                && steps == old(steps) + [FinisherCancelled, DriverInstalled(ManualInput), RaceStatusPublished(ManualDriving)]
      ensures activeStarterSubscription == old(activeStarterSubscription)
      ensures activeFinisherSubscription == old(activeFinisherSubscription)
    {
      if !IsRacing(raceStatus) {
        return Pass;
      }
      if activeFinisherSubscription == null {
        return Fail(NullPointerException);
      }
      activeFinisherSubscription.Cancel();
      steps := steps + [FinisherCancelled];
      HandTo(ManualInput, emitted);
      PublishRaceStatus(ManualDriving);
      return Pass;
    }

    /** `stopRace`, guarded by `isRacing`: cancel whichever of the starter
        and finisher subscriptions is recorded (the fields keep them),
        publish manual driving, then hand the car to the manual driver. */
    method StopRace(emitted: seq<DriveCommand>)
      requires Valid()
      modifies this, carDrivingService, carDrivingService.car, carDrivingService.activeSubscription
      modifies activeStarterSubscription, activeFinisherSubscription
      ensures Valid()
      ensures raceStatus == NextStatus(old(raceStatus), Message(Stop))
      ensures published == old(published) + PublishedFor(old(raceStatus), Message(Stop))
      ensures activeStarterSubscription == old(activeStarterSubscription)
      ensures activeFinisherSubscription == old(activeFinisherSubscription)
      ensures !IsRacing(old(raceStatus)) ==> steps == old(steps) && unchanged(carDrivingService, carDrivingService.car)
      ensures IsRacing(old(raceStatus)) ==>
                (activeStarterSubscription != null ==> activeStarterSubscription.cancelled)
                && (activeFinisherSubscription != null ==> activeFinisherSubscription.cancelled)
                && carDrivingService.behindWheel == Some(ManualInput)
                && carDrivingService.GetCarStatus() == Stopped
                && steps == old(steps) + (if activeStarterSubscription != null then [StarterCancelled] else [])
                                       + (if activeFinisherSubscription != null then [FinisherCancelled] else [])
                                       + [RaceStatusPublished(ManualDriving), DriverInstalled(ManualInput)]
    {
      if !IsRacing(raceStatus) {
        return;
      }
      CancelRaceSubscriptions();
      PublishRaceStatus(ManualDriving);
      HandTo(ManualInput, emitted);
    }

    /** The first part of `stopRace`: cancel the recorded starter and
        finisher subscriptions. */
    method CancelRaceSubscriptions()
      modifies this`steps, activeStarterSubscription, activeFinisherSubscription
      ensures activeStarterSubscription != null ==> activeStarterSubscription.cancelled
      ensures activeFinisherSubscription != null ==> activeFinisherSubscription.cancelled
      ensures steps == old(steps) + (if activeStarterSubscription != null then [StarterCancelled] else [])
                                  + (if activeFinisherSubscription != null then [FinisherCancelled] else [])
    {
      if activeStarterSubscription != null {
        activeStarterSubscription.Cancel();
        steps := steps + [StarterCancelled];
      }
      if activeFinisherSubscription != null {
        activeFinisherSubscription.Cancel();
        steps := steps + [FinisherCancelled];
      }
    }

    /** `pauseRace`, guarded by `isRacing`: hand the car to the manual driver
        and publish the pause; the subscriptions stay as they are. */
    method PauseRace(emitted: seq<DriveCommand>)
      requires Valid()
      modifies this, carDrivingService, carDrivingService.car, carDrivingService.activeSubscription
      ensures Valid()
      ensures raceStatus == NextStatus(old(raceStatus), Message(Pause))
      ensures published == old(published) + PublishedFor(old(raceStatus), Message(Pause))
      ensures activeStarterSubscription == old(activeStarterSubscription)
      ensures activeFinisherSubscription == old(activeFinisherSubscription)
      ensures !IsRacing(old(raceStatus)) ==> steps == old(steps) && unchanged(carDrivingService, carDrivingService.car)
      ensures IsRacing(old(raceStatus)) ==>
                carDrivingService.behindWheel == Some(ManualInput) && carDrivingService.GetCarStatus() == Stopped
                && steps == old(steps) + [DriverInstalled(ManualInput), RaceStatusPublished(RacingPaused)]
    {
      if !IsRacing(raceStatus) {
        return;
      }
      HandTo(ManualInput, emitted);
      PublishRaceStatus(RacingPaused);
    }

    /** `continueRace`, guarded by `isRacing`: hand the car to the automated
        driver and publish racing; the subscriptions stay as they are. */
    method ContinueRace(emitted: seq<DriveCommand>)
      requires Valid()
      modifies this, carDrivingService, carDrivingService.car, carDrivingService.activeSubscription
      ensures Valid()
      ensures raceStatus == NextStatus(old(raceStatus), Message(Continue))
      ensures published == old(published) + PublishedFor(old(raceStatus), Message(Continue))
      ensures activeStarterSubscription == old(activeStarterSubscription)
      ensures activeFinisherSubscription == old(activeFinisherSubscription)
      ensures !IsRacing(old(raceStatus)) ==> steps == old(steps) && unchanged(carDrivingService, carDrivingService.car)
      ensures IsRacing(old(raceStatus)) ==>
                carDrivingService.behindWheel == Some(AutomatedInput) && carDrivingService.GetCarStatus() == Stopped
                && steps == old(steps) + [DriverInstalled(AutomatedInput), RaceStatusPublished(Racing)]
    {
      if !IsRacing(raceStatus) {
        return;
      }
      HandTo(AutomatedInput, emitted);
      PublishRaceStatus(Racing);
    }

    /** The starter subscriber's `hookOnSubscribe`. */
    method StarterHookOnSubscribe(s: Subscription)
      modifies this`activeStarterSubscription
      ensures activeStarterSubscription == s
    {
      activeStarterSubscription := s;
    }

    /** The finisher subscriber's `hookOnSubscribe`. */
    method FinisherHookOnSubscribe(s: Subscription)
      modifies this`activeFinisherSubscription
      ensures activeFinisherSubscription == s
    {
      activeFinisherSubscription := s;
    }
  }

  /** The largest value of a Java long: the demand that means "unbounded". */
  const LongMax: int := 0x7FFF_FFFF_FFFF_FFFF

  class RaceControlMessageSubscriber {
    const raceControlService: RaceControlService
    /** The demand this subscriber signalled upstream. */
    var requested: int

    constructor (service: RaceControlService)
      ensures raceControlService == service && requested == 0
    {
      raceControlService := service;
      requested := 0;
    }

    /** `onSubscribe`: request everything. */
    method OnSubscribe()
      modifies this
      ensures requested == LongMax
    {
      requested := LongMax;
    }

    /** `onNext`: one service transition per message type. The steps taken
        are exactly that method's (MessageSteps); MANUAL, STOP and PAUSE
        install the manual driver when they fire, RACE and CONTINUE the
        automated one; only INIT_RACE replaces the starter subscription,
        only a successful RACE the finisher one; a STOP during a race
        cancels both recorded ones. */
    method OnNext(t: MessageType, emitted: seq<DriveCommand>) returns (o: Outcome)
      requires raceControlService.Valid()
      modifies raceControlService, raceControlService.carDrivingService, raceControlService.carDrivingService.car
      modifies raceControlService.carDrivingService.activeSubscription
      modifies raceControlService.activeStarterSubscription, raceControlService.activeFinisherSubscription
      ensures raceControlService.Valid()
      ensures o.Fail? <==> t == Race && old(raceControlService.activeStarterSubscription) == null
      ensures o.Fail? ==> o.failure == NullPointerException
                          && raceControlService.raceStatus == old(raceControlService.raceStatus)
                          && raceControlService.published == old(raceControlService.published)
      ensures o.Pass? ==> raceControlService.raceStatus == NextStatus(old(raceControlService.raceStatus), Message(t))
                          && raceControlService.published
                             == old(raceControlService.published) + PublishedFor(old(raceControlService.raceStatus), Message(t))
      ensures raceControlService.steps
              == old(raceControlService.steps)
                 + MessageSteps(t, old(raceControlService.raceStatus),
                                old(raceControlService.activeStarterSubscription) != null,
                                old(raceControlService.activeFinisherSubscription) != null)
      ensures Fires(old(raceControlService.raceStatus), Message(t)) && (t == Manual || t == Stop || t == Pause) ==>
                raceControlService.carDrivingService.behindWheel == Some(ManualInput)
                && raceControlService.carDrivingService.GetCarStatus() == Stopped
      ensures Fires(old(raceControlService.raceStatus), Message(t)) && (t == Race || t == Continue) && o.Pass? ==>
                raceControlService.carDrivingService.behindWheel == Some(AutomatedInput)
                && raceControlService.carDrivingService.GetCarStatus() == Stopped
      ensures !Fires(old(raceControlService.raceStatus), Message(t)) || t == InitRace || o.Fail? ==>
                unchanged(raceControlService.carDrivingService, raceControlService.carDrivingService.car)
      ensures t == InitRace ==>
                raceControlService.activeStarterSubscription != null
                && fresh(raceControlService.activeStarterSubscription)
                && !raceControlService.activeStarterSubscription.cancelled
      ensures t != InitRace ==>
                raceControlService.activeStarterSubscription == old(raceControlService.activeStarterSubscription)
      ensures t == Race && o.Pass? ==>
                old(raceControlService.activeStarterSubscription).cancelled
                && raceControlService.activeFinisherSubscription != null
                && fresh(raceControlService.activeFinisherSubscription)
                && !raceControlService.activeFinisherSubscription.cancelled
      ensures t != Race || o.Fail? ==>
                raceControlService.activeFinisherSubscription == old(raceControlService.activeFinisherSubscription)
      ensures t == Stop && IsRacing(old(raceControlService.raceStatus)) ==>
                var starter, finisher := old(raceControlService.activeStarterSubscription),
                                         old(raceControlService.activeFinisherSubscription);
                (starter != null ==> starter.cancelled) && (finisher != null ==> finisher.cancelled)
    {
      var rcs := raceControlService;
      o := Pass;
      match t
      case Manual => rcs.StartManualDriving(emitted);
      case InitRace => rcs.InitRace();
      case Race => o := rcs.StartRace(emitted);
      case Stop => rcs.StopRace(emitted);
      case Pause => rcs.PauseRace(emitted);
      case Continue => rcs.ContinueRace(emitted);
    }

    /** `onError` and `onComplete` only log. */
    method OnError()
      ensures raceControlService.raceStatus == old(raceControlService.raceStatus)
    {
    }

    method OnComplete()
      ensures raceControlService.raceStatus == old(raceControlService.raceStatus)
    {
    }
  }
}
