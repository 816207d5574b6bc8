# TrojkaRacer control core in Dafny

TrojkaRacer is a small self-driving race car. It runs on a Raspberry Pi, with
an Arduino driving the servos. This project models the integer and
state-machine core of its Java code and proves what that code promises.
There are six groups.

- **The car actuator** (`CarValues`, `CarActuator`, `CarEngines`).
  - `Speed` is bounded to [-100, 100] and `Direction` to [-60, 60].
  - A `Car` owns one of each. It applies drive requests under two safety rules: the driving direction cannot flip without passing through standstill, and the steering cannot jump by more than 60 degrees. An unsafe request becomes a stop.
  - The car pushes every committed value to its engine. The engine is either the recording `DevAndTestCarEngine` or the PWM-driving `PiOnboardPWMCarEngine`.
- **Drive commands and drivers** (`Driving`).
  - Incremental and absolute drive commands.
  - The operator's key events mapped to commands.
  - The `SimpleDriver` that turns navigation angles into absolute commands.
  - The repeating angle table of the `FixedPathNavigator`.
- **Driver hand-off and race control** (`CarDriving`, `RaceControl`).
  - The `CarDrivingService` stops the car, cancels the old driver's subscription, subscribes the new driver, stops again and publishes the car's status.
  - The `RaceControlService` is a four-state race machine. The `RaceControlMessageSubscriber` dispatches operator messages to it.
  - Reactive subscriptions are handles with a `cancelled` flag. The library callbacks (`hookOnSubscribe`, `hookOnNext`, `hookOnCancel`, `hookFinally`) are explicit methods.
  - Every service keeps a log of the statuses it published and of the steps it took, in order.
- **The start-light detector** (`Starter`): the two-counter state machine of `RedLightStarter`.
- **The Arduino hardware layer** (`Pwm`, `Arduino`, `JavaText`).
  - `PWMValues` converts between percentages and pulse widths.
  - The serial command adapter, the percentage controller and the legacy servo controller sit on top of it.
  - The serial port is an append-only log of written strings, plus a flag that makes every write fail.
  - `JavaText` holds the parts of Java's `String.format("%s")`, `String.split` and `Integer.parseInt` that the adapter relies on.
- **The older vision and AI pipeline** (`ImageProcessing`, `HardWiredAI`).
  - From the `ImageProcessor`: the tape-border scan per image row, the moving-average outlier filter, and the three phases of `run`.
  - The `HardWiredAIService`: a scripted counter machine.

Java semantics are written out wherever they matter:
- `JavaDiv` truncates toward zero, as Java's `/` does.
- `& 0xFF` reads a byte as unsigned.
- `split` drops trailing empty strings.
- `parseInt` accepts an optional sign and only values that fit in 32 bits.
- A thrown exception becomes the `Err` or `Fail` case of a `Result` or `Outcome`, naming the exception.

## Model

| member | source | states |
|---|---|---|
| CarValues.NewSpeed | src/main/java/nl/jpoint/trojkaracer/car/domain/car/Speed.java:21-26 | a Speed is built exactly when the value lies in [-100, 100] and then holds that value; otherwise DrivingCarException |
| CarValues.SpeedAsPercentage | src/main/java/nl/jpoint/trojkaracer/car/domain/car/Speed.java:32-38 | for every valid speed, the percentage of the maximum (with truncating division and the separate negative branch) equals the speed value itself |
| CarValues.Increase | src/main/java/nl/jpoint/trojkaracer/car/domain/car/Speed.java:46-53 | at 100 the same speed comes back; below 100 the result is exactly min(100, v + step), with DrivingCarException only when that is below -100; a step >= 0 never fails and never lowers the speed |
| CarValues.Decrease | src/main/java/nl/jpoint/trojkaracer/car/domain/car/Speed.java:61-68 | at -100 the same speed comes back; above -100 the result is exactly max(-100, v - step), with DrivingCarException only when that is above 100; a step >= 0 never fails and never raises the speed |
| CarValues.NewDirection | src/main/java/nl/jpoint/trojkaracer/car/domain/car/Direction.java:21-26 | a Direction is built exactly when the degrees lie in [-60, 60]; otherwise DrivingCarException |
| CarValues.SteerRight | src/main/java/nl/jpoint/trojkaracer/car/domain/car/Direction.java:36-43 | identity at 60; below 60 exactly min(60, d + step); failure only when the result would be below -60; a step >= 0 never fails and never turns left |
| CarValues.SteerLeft | src/main/java/nl/jpoint/trojkaracer/car/domain/car/Direction.java:53-60 | identity at -60; above -60 exactly max(-60, d - step); failure only when the result would be above 60; a step >= 0 never fails and never turns right |
| CarValues.DegreesAsPercentage | src/main/java/nl/jpoint/trojkaracer/car/domain/car/Direction.java:66-72 | the percentage lies in [-100, 100], has the sign of the degrees, and its magnitude is the truncated 100·\|d\|/60 |
| CarValues.DegreesAsPercentageOdd | src/main/java/nl/jpoint/trojkaracer/car/domain/car/Direction.java:66-72 | mirrored degrees give the negated percentage (truncation toward zero is symmetric) |
| CarValues.DegreesAsPercentageMonotone | src/main/java/nl/jpoint/trojkaracer/car/domain/car/Direction.java:66-72 | more degrees never give a smaller percentage |
| CarValues.DegreesAsPercentageExamples | src/main/java/nl/jpoint/trojkaracer/car/domain/car/Direction.java:66-72 | 60 gives 100, -60 gives -100, 0 gives 0, 10 gives 16 and -10 gives -16 |
| CarActuator.LastAfterPush | src/main/java/nl/jpoint/trojkaracer/car/domain/car/Car.java:107-117 | after one more engine call, the engine's last speed and last direction are those of that call if it is of that kind, and unchanged otherwise |
| CarActuator.AllowedChange | src/main/java/nl/jpoint/trojkaracer/car/domain/car/Car.java:61-64 | a change is allowed exactly when the speeds do not have strictly opposite signs and the steering moves by at most 60 degrees |
| CarActuator.DriveOutcome | src/main/java/nl/jpoint/trojkaracer/car/domain/car/Car.java:36-59 | drive ends either at its target or stopped; opposite speed signs or a steering jump above 60 degrees always stop; a safe target is taken exactly |
| CarActuator.Car.GetStatus | src/main/java/nl/jpoint/trojkaracer/car/domain/car/Car.java:123-128 | the status is exactly the car's current speed and direction |
| CarActuator.Car.constructor | src/main/java/nl/jpoint/trojkaracer/car/domain/car/Car.java:23-34 | a new car stands still with straight wheels and has pushed speed then direction to the engine |
| CarActuator.Car.UpdateEngineSpeed | src/main/java/nl/jpoint/trojkaracer/car/domain/car/Car.java:107-110 | one updateMotor call with the current speed is appended; the engine's last direction is untouched |
| CarActuator.Car.UpdateEngineSteeringDirection | src/main/java/nl/jpoint/trojkaracer/car/domain/car/Car.java:112-117 | one updateDirection call with the current direction is appended; the engine's last speed is untouched |
| CarActuator.Car.Drive | src/main/java/nl/jpoint/trojkaracer/car/domain/car/Car.java:36-59 | the new state is DriveOutcome of the old state (a missing direction keeps the current one); the engine log gains the calls of the stop branch or of the accepted target; the engine's last values equal the car's state afterwards |
| CarActuator.Car.IncreaseSpeed | src/main/java/nl/jpoint/trojkaracer/car/domain/car/Car.java:71-74 | speed becomes min(100, v + 3), direction is unchanged, one motor update is pushed, engine and car agree |
| CarActuator.Car.DecreaseSpeed | src/main/java/nl/jpoint/trojkaracer/car/domain/car/Car.java:81-84 | speed becomes max(-100, v - 3), direction is unchanged, one motor update is pushed, engine and car agree |
| CarActuator.Car.SteerLeft | src/main/java/nl/jpoint/trojkaracer/car/domain/car/Car.java:86-89 | direction becomes max(-60, d - 10), speed is unchanged, one direction update is pushed, engine and car agree |
| CarActuator.Car.SteerRight | src/main/java/nl/jpoint/trojkaracer/car/domain/car/Car.java:91-94 | direction becomes min(60, d + 10), speed is unchanged, one direction update is pushed, engine and car agree |
| CarActuator.Car.Stop | src/main/java/nl/jpoint/trojkaracer/car/domain/car/Car.java:99-105 | the car is stopped with straight wheels from any state, and both values are pushed |
| CarEngines.RecordAllIsLast | src/main/java/nl/jpoint/trojkaracer/car/infrastructure/DevAndTestCarEngine.java:22-30 | after any sequence of calls the recording engine holds the last speed and the last direction it was given (unset before the first) |
| CarEngines.DevAndTestCarEngine.GetReadings | src/main/java/nl/jpoint/trojkaracer/car/infrastructure/DevAndTestCarEngine.java:16-20 | the getters return the two recorded fields |
| CarEngines.DevAndTestCarEngine.constructor | src/main/java/nl/jpoint/trojkaracer/car/infrastructure/DevAndTestCarEngine.java:19-20 | both readings are unset before the first update |
| CarEngines.DevAndTestCarEngine.UpdateMotor | src/main/java/nl/jpoint/trojkaracer/car/infrastructure/DevAndTestCarEngine.java:22-25 | records the speed and leaves the direction untouched |
| CarEngines.DevAndTestCarEngine.UpdateDirection | src/main/java/nl/jpoint/trojkaracer/car/infrastructure/DevAndTestCarEngine.java:27-30 | records the direction and leaves the speed untouched |
| CarEngines.MotorPwm | src/main/java/nl/jpoint/trojkaracer/car/infrastructure/PiOnboardPWMCarEngine.java:56-63 | the motor value lies in [65, 195], its distance from 130 is the truncated \|v\|·65/100, and it is above or below 130 only for forward or backward speeds |
| CarEngines.SteeringPwm | src/main/java/nl/jpoint/trojkaracer/car/infrastructure/PiOnboardPWMCarEngine.java:66-73 | the steering value lies in [75, 225], its distance from 150 is the truncated \|pct\|·75/100, and it leaves 150 only in the direction of the steering |
| CarEngines.MotorPwmMonotone | src/main/java/nl/jpoint/trojkaracer/car/infrastructure/PiOnboardPWMCarEngine.java:56-63 | a higher speed never gives a lower motor value |
| CarEngines.SteeringPwmMonotone | src/main/java/nl/jpoint/trojkaracer/car/infrastructure/PiOnboardPWMCarEngine.java:66-73 | more degrees never give a lower steering value |
| CarEngines.PwmExamples | src/main/java/nl/jpoint/trojkaracer/car/infrastructure/PiOnboardPWMCarEngine.java:25-30 | speeds 100, -100 and 0 give 195, 65 and 130; speed -1 truncates to 130; degrees 60, -60 and 0 give 225, 75 and 150 |
| CarEngines.SetPinsAllIsLast | src/main/java/nl/jpoint/trojkaracer/car/infrastructure/PiOnboardPWMCarEngine.java:51-73 | after any sequence of calls each pin holds the PWM value of the last call of its kind, or its neutral value before the first |
| CarEngines.EnginesMirrorCar | src/main/java/nl/jpoint/trojkaracer/car/domain/car/Car.java:57-58 | for a car in its invariant, either engine fed the car's call log ends with exactly the car's speed and direction (as readings, or as pin values) |
| CarEngines.PiOnboardPWMCarEngine.GetPins | src/main/java/nl/jpoint/trojkaracer/car/infrastructure/PiOnboardPWMCarEngine.java:34-35 | the two pin values |
| CarEngines.PiOnboardPWMCarEngine.constructor | src/main/java/nl/jpoint/trojkaracer/car/infrastructure/PiOnboardPWMCarEngine.java:51-52 | the pins start at 130 and 150 |
| CarEngines.PiOnboardPWMCarEngine.UpdateMotor | src/main/java/nl/jpoint/trojkaracer/car/infrastructure/PiOnboardPWMCarEngine.java:56-63 | the motor pin is set to the speed's PWM value; the steering pin is not written |
| CarEngines.PiOnboardPWMCarEngine.UpdateDirection | src/main/java/nl/jpoint/trojkaracer/car/infrastructure/PiOnboardPWMCarEngine.java:66-73 | the steering pin is set to the direction's PWM value; the motor pin is not written |
| Driving.CommandOutcome | src/main/java/nl/jpoint/trojkaracer/car/domain/driver/IncrementalDriveCommand.java:16-34 | FORWARD is increaseSpeed, BACKWARD is decreaseSpeed, LEFT is steerLeft, RIGHT is steerRight, STOP is stop; an absolute command is exactly drive(speed, direction) |
| Driving.ApplyCommandOnCar | src/main/java/nl/jpoint/trojkaracer/car/domain/driver/AbsoluteDriveCommand.java:17-20 | applying a command moves the car to CommandOutcome of its old state, through exactly one car method, keeping engine and car in agreement |
| Driving.ToDriveCommand | src/main/java/nl/jpoint/trojkaracer/car/api/CarControlEvent.java:28-52 | every event type gives an incremental command, and each drive direction comes from exactly one event type |
| Driving.ToDriveCommandBijective | src/main/java/nl/jpoint/trojkaracer/car/api/CarControlEvent.java:28-56 | the mapping is injective on the five event types and reaches every incremental command |
| Driving.MapNavigation | src/main/java/nl/jpoint/trojkaracer/car/domain/driver/SimpleDriver.java:35-37 | an angle in [-60, 60] becomes an absolute command with speed 16 and exactly that angle; any other angle raises DrivingCarException |
| Driving.DriverEmission | src/main/java/nl/jpoint/trojkaracer/car/domain/driver/SimpleDriver.java:26-27 | the driver emits one mapped command per angle, in order, and stops at the first angle that fails, reporting that failure |
| Driving.PathAngle | src/main/java/nl/jpoint/trojkaracer/car/domain/navigator/FixedPathNavigator.java:21-23 | every emitted angle lies in [-60, 60] |
| Driving.PathAngles | src/main/java/nl/jpoint/trojkaracer/car/domain/navigator/FixedPathNavigator.java:21-23 | the first k emissions are the angles at indices 0 to k-1 |
| Driving.PathStartsAndEndsStraight | src/main/java/nl/jpoint/trojkaracer/car/domain/navigator/FixedPathNavigator.java:22 | the path starts at 0 and every lap of the table ends at 0 |
| Driving.PathAngleStep | src/main/java/nl/jpoint/trojkaracer/car/domain/navigator/FixedPathNavigator.java:22 | consecutive angles, including across laps, differ by at most 20 degrees |
| Driving.FixedPathEmission | src/main/java/nl/jpoint/trojkaracer/car/domain/navigator/FixedPathNavigator.java:21-23 | the driver never fails on the fixed path, and emits (speed 16, angle k) as its k-th command |
| Driving.FixedPathDrive | src/main/java/nl/jpoint/trojkaracer/car/domain/driver/SimpleDriver.java:35-37 | driving a stopped car with the fixed path's commands is never cut short by the safety check: the car ends at speed 16 and the last angle |
| CarDriving.Subscription.constructor | src/main/java/nl/jpoint/trojkaracer/car/application/CarDrivingService.java:77-81 | a fresh subscription is not cancelled |
| CarDriving.Subscription.Cancel | src/main/java/nl/jpoint/trojkaracer/car/application/CarDrivingService.java:59-61 | cancelling marks the subscription cancelled |
| CarDriving.StatusesAlong | src/main/java/nl/jpoint/trojkaracer/car/application/CarDrivingService.java:70-73 | one status is published per command, and the last is the car's state after all of them |
| CarDriving.StatusesAlongPrefixes | src/main/java/nl/jpoint/trojkaracer/car/application/CarDrivingService.java:70-73 | the i-th published status is the car's state after the first i commands |
| CarDriving.CarDrivingService.constructor | src/main/java/nl/jpoint/trojkaracer/car/application/CarDrivingService.java:36-41 | a new service has no driver and no subscription, and has published nothing |
| CarDriving.CarDrivingService.GetCarStatus | src/main/java/nl/jpoint/trojkaracer/car/application/CarDrivingService.java:43-45 | the car's status, read without side effects |
| CarDriving.CarDrivingService.PublishCarStatus | src/main/java/nl/jpoint/trojkaracer/car/application/CarDrivingService.java:106-108 | exactly one status is published, equal to the car's current status |
| CarDriving.CarDrivingService.StopCar | src/main/java/nl/jpoint/trojkaracer/car/application/CarDrivingService.java:57 | the car is stopped, and only that step is logged |
| CarDriving.CarDrivingService.PutBehindWheel | src/main/java/nl/jpoint/trojkaracer/car/application/CarDrivingService.java:54-68 | whatever the new driver sends during subscribe, the car ends stopped; the old subscription, if any, is cancelled before the new driver is subscribed; the new driver holds a fresh live subscription; the last published status is the stopped one; the steps happen in the source's order |
| CarDriving.CarDrivingService.DismissDriver | src/main/java/nl/jpoint/trojkaracer/car/application/CarDrivingService.java:57-61 | the car is stopped and then the recorded subscription, if any, is cancelled |
| CarDriving.CarDrivingService.SubscribeDriver | src/main/java/nl/jpoint/trojkaracer/car/application/CarDrivingService.java:63-64 | the new driver is recorded with a fresh subscription, and its commands sent during subscribe are applied and published one by one |
| CarDriving.CarDrivingService.ReceiveAll | src/main/java/nl/jpoint/trojkaracer/car/application/CarDrivingService.java:83-87 | applying a driver's commands one by one leaves the car at DriveAll of them and publishes one status after each |
| CarDriving.CarDrivingService.HookOnSubscribe | src/main/java/nl/jpoint/trojkaracer/car/application/CarDrivingService.java:77-81 | the most recently received subscription is recorded |
| CarDriving.CarDrivingService.HookOnNext | src/main/java/nl/jpoint/trojkaracer/car/application/CarDrivingService.java:83-87 | the command is applied to the car, then exactly one status equal to the car's new state is published |
| CarDriving.CarDrivingService.HookOnCancel | src/main/java/nl/jpoint/trojkaracer/car/application/CarDrivingService.java:89-94 | cancellation stops the car and publishes nothing |
| CarDriving.CarDrivingService.HookFinally | src/main/java/nl/jpoint/trojkaracer/car/application/CarDrivingService.java:96-102 | any termination stops the car and publishes nothing |
| RaceControl.IsRacing | src/main/java/nl/jpoint/trojkaracer/car/application/RaceControlService.java:191-193 | racing means any status other than MANUAL_DRIVING |
| RaceControl.Fires | src/main/java/nl/jpoint/trojkaracer/car/application/RaceControlService.java:129-184 | during a race every event is acted on; in MANUAL_DRIVING exactly MANUAL, INIT_RACE, RACE and the start signal are, because finish, stop, pause and continue return early when not racing |
| RaceControl.NextStatus | src/main/java/nl/jpoint/trojkaracer/car/application/RaceControlService.java:102-184 | guarded transitions change nothing outside a race; MANUAL, STOP and the finish always end in MANUAL_DRIVING; INIT_RACE always awaits the start signal; the new status is a racing one exactly after INIT_RACE, RACE or the start signal, or after PAUSE or CONTINUE during a race; RACING_PAUSED is only reached by PAUSE |
| RaceControl.PublishedFor | src/main/java/nl/jpoint/trojkaracer/car/application/RaceControlService.java:186-189 | a transition publishes at most one status, exactly when it fires, and that status is the new race status |
| RaceControl.NoRaceWithoutStart | src/main/java/nl/jpoint/trojkaracer/car/application/RaceControlService.java:102-193 | without INIT_RACE, RACE or a start signal the service never leaves MANUAL_DRIVING, whatever else arrives |
| RaceControl.MessageSteps | src/main/java/nl/jpoint/trojkaracer/car/api/RaceControlMessageSubscriber.java:34-53 | the steps a message makes the service take: none exactly for a guarded message outside a race or RACE without a starter subscription; otherwise the new status is published; every message but INIT_RACE installs a driver (the automated one for RACE and CONTINUE, else the manual one); only INIT_RACE subscribes the starter and only RACE the finisher; the starter is cancelled exactly by RACE and STOP when one is recorded, the finisher exactly by STOP when one is recorded |
| RaceControl.MessagesTakeDistinctSteps | src/main/java/nl/jpoint/trojkaracer/car/api/RaceControlMessageSubscriber.java:34-53 | once a starter subscription is recorded, two different messages that are both acted on take different steps, so each message is told apart by what it does |
| RaceControl.RaceControlService.constructor | src/main/java/nl/jpoint/trojkaracer/car/application/RaceControlService.java:36-53 | a new service is in MANUAL_DRIVING, has published that once, has the manual driver installed on a stopped car, and has no starter or finisher subscription |
| RaceControl.RaceControlService.PublishRaceStatus | src/main/java/nl/jpoint/trojkaracer/car/application/RaceControlService.java:186-189 | the status field is set and exactly that status is published |
| RaceControl.RaceControlService.HandTo | src/main/java/nl/jpoint/trojkaracer/car/application/RaceControlService.java:107 | putBehindWheel for the given driver: it is installed with a fresh subscription, the old one is cancelled, and the car is stopped |
| RaceControl.RaceControlService.StartManualDriving | src/main/java/nl/jpoint/trojkaracer/car/application/RaceControlService.java:102-108 | from any status: publishes MANUAL_DRIVING, then installs the manual driver, and cancels no race subscription |
| RaceControl.RaceControlService.InitRace | src/main/java/nl/jpoint/trojkaracer/car/application/RaceControlService.java:110-116 | from any status: publishes AWAITING_START_SIGNAL, then records a new, live starter subscription |
| RaceControl.RaceControlService.StartRace | src/main/java/nl/jpoint/trojkaracer/car/application/RaceControlService.java:118-127 | unguarded: fails with NullPointerException, changing nothing, exactly when no starter subscription was recorded; otherwise cancels it, installs the automated driver, publishes RACING and records a new finisher subscription |
| RaceControl.RaceControlService.FinishRace | src/main/java/nl/jpoint/trojkaracer/car/application/RaceControlService.java:129-141 | outside a race it changes nothing; during a race it fails only without a finisher subscription, and otherwise cancels it, installs the manual driver and publishes MANUAL_DRIVING |
| RaceControl.RaceControlService.StopRace | src/main/java/nl/jpoint/trojkaracer/car/application/RaceControlService.java:143-160 | outside a race it changes nothing; during a race it cancels every recorded starter and finisher subscription (the fields keep their values), publishes MANUAL_DRIVING and installs the manual driver |
| RaceControl.RaceControlService.CancelRaceSubscriptions | src/main/java/nl/jpoint/trojkaracer/car/application/RaceControlService.java:151-156 | every non-null recorded starter and finisher subscription ends cancelled |
| RaceControl.RaceControlService.PauseRace | src/main/java/nl/jpoint/trojkaracer/car/application/RaceControlService.java:162-172 | outside a race it changes nothing; during a race it installs the manual driver and publishes RACING_PAUSED, leaving the race subscriptions untouched |
| RaceControl.RaceControlService.ContinueRace | src/main/java/nl/jpoint/trojkaracer/car/application/RaceControlService.java:174-184 | outside a race it changes nothing; during a race it installs the automated driver and publishes RACING, leaving the race subscriptions untouched |
| RaceControl.RaceControlService.StarterHookOnSubscribe | src/main/java/nl/jpoint/trojkaracer/car/application/RaceControlService.java:57-61 | the starter subscription received is recorded |
| RaceControl.RaceControlService.FinisherHookOnSubscribe | src/main/java/nl/jpoint/trojkaracer/car/application/RaceControlService.java:81-84 | the finisher subscription received is recorded |
| RaceControl.RaceControlMessageSubscriber.constructor | src/main/java/nl/jpoint/trojkaracer/car/api/RaceControlMessageSubscriber.java:19-23 | the subscriber is bound to its race control service and has requested nothing |
| RaceControl.RaceControlMessageSubscriber.OnSubscribe | src/main/java/nl/jpoint/trojkaracer/car/api/RaceControlMessageSubscriber.java:26-29 | unbounded demand (Long.MAX_VALUE) is requested |
| RaceControl.RaceControlMessageSubscriber.OnNext | src/main/java/nl/jpoint/trojkaracer/car/api/RaceControlMessageSubscriber.java:32-54 | each message calls its own service method once: the steps taken are exactly MessageSteps for the message; it fails, with NullPointerException and no status change, exactly for RACE without a starter subscription; otherwise status and publications follow NextStatus and PublishedFor; MANUAL, STOP and PAUSE install the manual driver and RACE and CONTINUE the automated one when acted on; only INIT_RACE replaces the starter subscription and only a successful RACE the finisher one, which it does after cancelling the old starter; a STOP during a race cancels both recorded subscriptions; a message that is ignored, INIT_RACE and a failed RACE leave the car service untouched |
| RaceControl.RaceControlMessageSubscriber.OnError | src/main/java/nl/jpoint/trojkaracer/car/api/RaceControlMessageSubscriber.java:56-59 | the race status is unchanged |
| RaceControl.RaceControlMessageSubscriber.OnComplete | src/main/java/nl/jpoint/trojkaracer/car/api/RaceControlMessageSubscriber.java:61-64 | the race status is unchanged |
| Starter.Observe | src/main/java/nl/jpoint/trojkaracer/car/domain/starter/RedLightStarter.java:36-42 | current becomes the reading; previous becomes the old current, or the reading itself on the very first call (when both counters are 0) |
| Starter.ObserveFiresOnlyOnDrop | src/main/java/nl/jpoint/trojkaracer/car/domain/starter/RedLightStarter.java:19 | the detector fires exactly when a count was seen before and the new reading is more than 20 below it; never on the first reading, never on a rise or an equal reading |
| Starter.WentOff | src/main/java/nl/jpoint/trojkaracer/car/domain/starter/RedLightStarter.java:47 | the start signal means the red-pixel count fell: the current count is below the previous one |
| Starter.Signals | src/main/java/nl/jpoint/trojkaracer/car/domain/starter/RedLightStarter.java:47 | every reported signal is the index of a reading after which the detector fires |
| Starter.SignalsComplete | src/main/java/nl/jpoint/trojkaracer/car/domain/starter/RedLightStarter.java:36-48 | every reading after which the detector fires is reported, in ascending order |
| Starter.NoSignalWithoutDrop | src/main/java/nl/jpoint/trojkaracer/car/domain/starter/RedLightStarter.java:47 | readings that never drop by more than 20 between neighbours never fire |
| Starter.LastCountIsLastReading | src/main/java/nl/jpoint/trojkaracer/car/domain/starter/RedLightStarter.java:41-42 | after any readings the current count is the last reading; before any it is the initial 0, 0 |
| Starter.RedLightStarter.constructor | src/main/java/nl/jpoint/trojkaracer/car/domain/starter/RedLightStarter.java:23-24 | both counters start at 0 |
| Starter.RedLightStarter.RedLightWentOff | src/main/java/nl/jpoint/trojkaracer/car/domain/starter/RedLightStarter.java:36-48 | the counters become Observe of the old ones, and the answer is true exactly when the detector fires on the new counters |
| Pwm.NewPWMValues | hardware_interface/impl/src/main/java/nl/jpoint/trojkaracer/hardwareinterface/adapter/PWMValues.java:32-42 | built exactly when max > min and min <= neutral <= max, holding those three values; otherwise IllegalArgumentException |
| Pwm.NewPWMValuesAveraged | hardware_interface/impl/src/main/java/nl/jpoint/trojkaracer/hardwareinterface/adapter/PWMValues.java:22-24 | built exactly when min < max, with neutral the truncated (min + max)/2 |
| Pwm.AverageWithin | hardware_interface/impl/src/main/java/nl/jpoint/trojkaracer/hardwareinterface/adapter/PWMValues.java:22-24 | the truncated average of a non-empty range lies inside it, so the two-argument constructor never fails on its own neutral |
| Pwm.IsOutsideLimits | hardware_interface/impl/src/main/java/nl/jpoint/trojkaracer/hardwareinterface/adapter/PWMValues.java:73-75 | a width is outside exactly when it is below min or above max |
| Pwm.ShareOf | hardware_interface/impl/src/main/java/nl/jpoint/trojkaracer/hardwareinterface/adapter/PWMValues.java:97-99 | the share is base × percentage / 100 rounded toward zero: 100 times it lies within 100 of the exact product, on the same side of zero |
| Pwm.ShareBounds | hardware_interface/impl/src/main/java/nl/jpoint/trojkaracer/hardwareinterface/adapter/PWMValues.java:97-99 | a share of at most 100% of a range lies between 0 and the range, on the percentage's side |
| Pwm.PulseWidthForPercentage | hardware_interface/impl/src/main/java/nl/jpoint/trojkaracer/hardwareinterface/adapter/PWMValues.java:83-95 | rejects percentages outside [-100, 100] with IllegalArgumentException; the width stays within the limits and on the percentage's side of neutral; 0, 100 and -100 give neutral, max and min |
| Pwm.PercentageForPulseWidth | hardware_interface/impl/src/main/java/nl/jpoint/trojkaracer/hardwareinterface/adapter/PWMValues.java:106-119 | rejects widths outside the limits; fails with ArithmeticException exactly on max when neutral equals max; otherwise the percentage lies in [-100, 100] with the side of the width; min, neutral and max give -100, 0 and 100 |
| Pwm.PercentagePulseWidthRoundTrip | hardware_interface/impl/src/main/java/nl/jpoint/trojkaracer/hardwareinterface/adapter/PWMValues.java:83-119 | when both half ranges are non-empty multiples of 100, converting a percentage to a width and back gives the same percentage |
| Pwm.CalibrationExamples | hardware_interface/impl/src/main/java/nl/jpoint/trojkaracer/hardwareinterface/adapter/PWMValues.java:22-24 | (0, 500) averages to 250; for (500, 1000, 2000) the pairs -25/875, -80/600, 25/1250, 60/1600 and 90/1900 convert both ways, and 110, -110, 490 and 2010 are rejected |
| JavaText.DigitChar | hardware_interface/impl/src/main/java/nl/jpoint/trojkaracer/hardwareinterface/adapter/ArduinoSerialCommandAdapter.java:115 | the character of a decimal digit is a digit with that value |
| JavaText.NatToString | hardware_interface/impl/src/main/java/nl/jpoint/trojkaracer/hardwareinterface/adapter/ArduinoSerialCommandAdapter.java:115 | decimal formatting of a natural number gives at least one digit, and reading the digits back gives the number |
| JavaText.IntToString | hardware_interface/impl/src/main/java/nl/jpoint/trojkaracer/hardwareinterface/adapter/ArduinoSerialCommandAdapter.java:115 | the text of an integer is non-empty, starts with a digit exactly for non-negative numbers and with '-' exactly for negative ones, and contains no ';' and no line break |
| JavaText.ParseInt | hardware_interface/impl/src/main/java/nl/jpoint/trojkaracer/hardwareinterface/adapter/ArduinoSerialCommandAdapter.java:163-164 | a parsed value always fits in 32 bits; every failure is NumberFormatException |
| JavaText.IntToStringRoundTrip | hardware_interface/impl/src/main/java/nl/jpoint/trojkaracer/hardwareinterface/adapter/ArduinoSerialCommandAdapter.java:115 | parsing the decimal text of any 32-bit integer gives it back |
| JavaText.SplitAll | hardware_interface/impl/src/main/java/nl/jpoint/trojkaracer/hardwareinterface/adapter/ArduinoSerialCommandAdapter.java:162 | the pieces are at least one and contain no separator |
| JavaText.DropTrailingEmpty | hardware_interface/impl/src/main/java/nl/jpoint/trojkaracer/hardwareinterface/adapter/ArduinoSerialCommandAdapter.java:162 | the result is the longest prefix that does not end with an empty piece; only empty pieces are dropped |
| JavaText.JavaSplit | hardware_interface/impl/src/main/java/nl/jpoint/trojkaracer/hardwareinterface/adapter/ArduinoSerialCommandAdapter.java:162 | `String.split` on the reply: no piece contains the separator; when the separator occurs the last piece kept is non-empty; a reply without it is a single piece |
| JavaText.SplitAllNoSeparator | hardware_interface/impl/src/main/java/nl/jpoint/trojkaracer/hardwareinterface/adapter/ArduinoSerialCommandAdapter.java:162 | a string without the separator is one piece |
| JavaText.SplitAllJoin | hardware_interface/impl/src/main/java/nl/jpoint/trojkaracer/hardwareinterface/adapter/ArduinoSerialCommandAdapter.java:162 | splitting x;y gives x followed by the pieces of y when x has no separator |
| JavaText.JavaSplitPair | hardware_interface/impl/src/main/java/nl/jpoint/trojkaracer/hardwareinterface/adapter/ArduinoSerialCommandAdapter.java:162 | two non-empty separator-free parts joined by the separator split back into exactly those two |
| Arduino.SerialPort.constructor | hardware_interface/impl/src/main/java/nl/jpoint/trojkaracer/hardwareinterface/adapter/ArduinoSerialCommandAdapter.java:118 | a new port has written nothing |
| Arduino.SerialPort.WriteString | hardware_interface/impl/src/main/java/nl/jpoint/trojkaracer/hardwareinterface/adapter/ArduinoSerialCommandAdapter.java:118-124 | a healthy port appends the message to its writes; a failing one writes nothing and reports the failure |
| Arduino.CommandName | hardware_interface/impl/src/main/java/nl/jpoint/trojkaracer/hardwareinterface/adapter/ArduinoSerialCommandAdapter.java:131-145 | a command's name is three characters without a line break |
| Arduino.CommandMessage | hardware_interface/impl/src/main/java/nl/jpoint/trojkaracer/hardwareinterface/adapter/ArduinoSerialCommandAdapter.java:115-118 | the message starts with the command's name and ends with the only line break it contains |
| Arduino.CommandMessageDecodes | hardware_interface/impl/src/main/java/nl/jpoint/trojkaracer/hardwareinterface/adapter/ArduinoSerialCommandAdapter.java:115-118 | between the name and the line break lies the decimal value, which parses back to the value; the name tells THR from STE |
| Arduino.CommandMessageExamples | hardware_interface/impl/src/main/java/nl/jpoint/trojkaracer/hardwareinterface/adapter/ArduinoSerialCommandAdapter.java:115-118 | speed 1100 gives "THR1100\n", direction 80 gives "STE80\n", and likewise 1000, 110 and 1500 |
| Arduino.DecimalExamples | hardware_interface/impl/src/main/java/nl/jpoint/trojkaracer/hardwareinterface/adapter/ArduinoSerialCommandAdapter.java:115 | the decimal texts of 1100, 1000, 1500, 80 and 110 |
| Arduino.ParseCommandResult | hardware_interface/impl/src/main/java/nl/jpoint/trojkaracer/hardwareinterface/adapter/ArduinoSerialCommandAdapter.java:157-166 | a missing reply or one without ';' gives (0, 0); the only failures are a missing second value and a malformed number; parsed values fit in 32 bits |
| Arduino.CommandResultRoundTrip | hardware_interface/impl/src/main/java/nl/jpoint/trojkaracer/hardwareinterface/adapter/ArduinoSerialCommandAdapter.java:157-166 | the reply "a;b" for any two 32-bit integers parses to (a, b) |
| Arduino.FixedReplyIsZero | hardware_interface/impl/src/main/java/nl/jpoint/trojkaracer/hardwareinterface/adapter/ArduinoSerialCommandAdapter.java:125 | the fixed reply "0;0" parses to (0, 0) |
| Arduino.CheckForIncorrectPulseWidth | hardware_interface/impl/src/main/java/nl/jpoint/trojkaracer/hardwareinterface/adapter/ArduinoSerialCommandAdapter.java:102-106 | fails with PWMPulseOutsideLimitsException exactly when the width is outside the limits |
| Arduino.AdapterResult | hardware_interface/impl/src/main/java/nl/jpoint/trojkaracer/hardwareinterface/adapter/ArduinoSerialCommandAdapter.java:56-61 | a width outside the limits raises PWMPulseOutsideLimitsException; then a failing port raises HardwareInterfaceException; otherwise the old value reported is 0 |
| Arduino.AdapterWrites | hardware_interface/impl/src/main/java/nl/jpoint/trojkaracer/hardwareinterface/adapter/ArduinoSerialCommandAdapter.java:56-61 | at most one string is written, exactly when the width is within limits and the port works, and it is the command's message for that width |
| Arduino.AdapterWritesIffOk | hardware_interface/impl/src/main/java/nl/jpoint/trojkaracer/hardwareinterface/adapter/ArduinoSerialCommandAdapter.java:56-61 | a set call succeeds exactly when it writes its message |
| Arduino.ArduinoSerialCommandAdapter.constructor | hardware_interface/impl/src/main/java/nl/jpoint/trojkaracer/hardwareinterface/adapter/ArduinoSerialCommandAdapter.java:43-49 | the adapter holds its port and both calibrations |
| Arduino.ArduinoSerialCommandAdapter.SendCommand | hardware_interface/impl/src/main/java/nl/jpoint/trojkaracer/hardwareinterface/adapter/ArduinoSerialCommandAdapter.java:114-126 | writes the formatted message once on a healthy port and returns the parse of "0;0"; a failing port gives HardwareInterfaceException |
| Arduino.ArduinoSerialCommandAdapter.SetSpeed | hardware_interface/impl/src/main/java/nl/jpoint/trojkaracer/hardwareinterface/adapter/ArduinoSerialCommandAdapter.java:56-61 | returns AdapterResult and writes AdapterWrites for the speed limits and "THR" |
| Arduino.ArduinoSerialCommandAdapter.GetSpeed | hardware_interface/impl/src/main/java/nl/jpoint/trojkaracer/hardwareinterface/adapter/ArduinoSerialCommandAdapter.java:67-69 | reports 0 |
| Arduino.ArduinoSerialCommandAdapter.SetDirection | hardware_interface/impl/src/main/java/nl/jpoint/trojkaracer/hardwareinterface/adapter/ArduinoSerialCommandAdapter.java:76-81 | returns AdapterResult and writes AdapterWrites for the direction limits and "STE" |
| Arduino.ArduinoSerialCommandAdapter.GetDirection | hardware_interface/impl/src/main/java/nl/jpoint/trojkaracer/hardwareinterface/adapter/ArduinoSerialCommandAdapter.java:87-89 | reports 0 |
| Arduino.ArduinoSerialCommandAdapter.Stop | hardware_interface/impl/src/main/java/nl/jpoint/trojkaracer/hardwareinterface/adapter/ArduinoSerialCommandAdapter.java:92-95 | on a healthy port, writes the neutral speed command and then the neutral direction command, two writes in all; a failing port raises HardwareInterfaceException and writes nothing |
| Arduino.ControllerResult | hardware_interface/impl/src/main/java/nl/jpoint/trojkaracer/hardwareinterface/ArduinoSerialPercentageController.java:41-46 | a percentage outside [-100, 100] is rejected before the adapter is called; otherwise the adapter's failure or its old width converted back; any success is the percentage of the adapter's constant 0 |
| Arduino.ControllerWrites | hardware_interface/impl/src/main/java/nl/jpoint/trojkaracer/hardwareinterface/ArduinoSerialPercentageController.java:41-43 | nothing is written for a rejected percentage; otherwise exactly what the adapter writes for the converted width |
| Arduino.ZeroOldPulseWidthRejected | hardware_interface/impl/src/main/java/nl/jpoint/trojkaracer/hardwareinterface/ArduinoSerialPercentageController.java:43-45 | with a calibration whose minimum is above 0, every set call that reaches the port writes its command and then fails with IllegalArgumentException |
| Arduino.ControllerExamples | hardware_interface/impl/src/main/java/nl/jpoint/trojkaracer/hardwareinterface/ArduinoSerialPercentageController.java:41-56 | percentage 0 writes "THR1000\n" for (500, 1000, 2000) and "STE110\n" for (10, 110, 210) |
| Arduino.ArduinoSerialPercentageController.constructor | hardware_interface/impl/src/main/java/nl/jpoint/trojkaracer/hardwareinterface/ArduinoSerialPercentageController.java:30-35 | the controller holds its adapter and both calibrations |
| Arduino.ArduinoSerialPercentageController.SetSpeed | hardware_interface/impl/src/main/java/nl/jpoint/trojkaracer/hardwareinterface/ArduinoSerialPercentageController.java:41-46 | returns ControllerResult and writes ControllerWrites with the speed calibration and "THR" |
| Arduino.ArduinoSerialPercentageController.GetSpeed | hardware_interface/impl/src/main/java/nl/jpoint/trojkaracer/hardwareinterface/ArduinoSerialPercentageController.java:49-51 | the percentage of the adapter's 0, which succeeds exactly when 0 lies within the speed limits and is not the degenerate maximum |
| Arduino.ArduinoSerialPercentageController.SetDirection | hardware_interface/impl/src/main/java/nl/jpoint/trojkaracer/hardwareinterface/ArduinoSerialPercentageController.java:54-59 | returns ControllerResult and writes ControllerWrites with the direction calibration and "STE" |
| Arduino.ArduinoSerialPercentageController.GetDirection | hardware_interface/impl/src/main/java/nl/jpoint/trojkaracer/hardwareinterface/ArduinoSerialPercentageController.java:62-64 | the percentage of the adapter's 0, which succeeds exactly when 0 lies within the direction limits and is not the degenerate maximum |
| Arduino.ArduinoSerialPercentageController.Stop | hardware_interface/impl/src/main/java/nl/jpoint/trojkaracer/hardwareinterface/ArduinoSerialPercentageController.java:67-69 | one adapter stop: two neutral writes, or HardwareInterfaceException on a failing port |
| Arduino.SteeringValue | hardware_interface/src/main/java/nl/jpoint/trojkaracer/hardwareinterface/impl/ArduinoSerialServoController.java:73 | degrees 0 to 180 map into [1000, 2000], with 0, 90 and 180 giving 1000, 1500 and 2000 |
| Arduino.SteeringValueMonotone | hardware_interface/src/main/java/nl/jpoint/trojkaracer/hardwareinterface/impl/ArduinoSerialServoController.java:73 | more degrees never give a lower pulse width |
| Arduino.ArduinoSerialServoController.constructor | hardware_interface/src/main/java/nl/jpoint/trojkaracer/hardwareinterface/impl/ArduinoSerialServoController.java:26-28 | the default limits are 1000 and 2000 |
| Arduino.ArduinoSerialServoController.WithLimits | hardware_interface/src/main/java/nl/jpoint/trojkaracer/hardwareinterface/impl/ArduinoSerialServoController.java:30-35 | the given port and limits are held |
| Arduino.ArduinoSerialServoController.SendCommand | hardware_interface/src/main/java/nl/jpoint/trojkaracer/hardwareinterface/impl/ArduinoSerialServoController.java:77-90 | the formatted message is written on a healthy port, a port failure is swallowed, and 0 is returned either way |
| Arduino.ArduinoSerialServoController.Forward | hardware_interface/src/main/java/nl/jpoint/trojkaracer/hardwareinterface/impl/ArduinoSerialServoController.java:37-40 | writes "THR" and the amount, unvalidated, and returns 0 |
| Arduino.ArduinoSerialServoController.Backward | hardware_interface/src/main/java/nl/jpoint/trojkaracer/hardwareinterface/impl/ArduinoSerialServoController.java:42-45 | writes "THR" and the amount, unvalidated, and returns 0 |
| Arduino.ArduinoSerialServoController.Brake | hardware_interface/src/main/java/nl/jpoint/trojkaracer/hardwareinterface/impl/ArduinoSerialServoController.java:47-50 | writes "THR1500\n" and returns 0 |
| Arduino.ArduinoSerialServoController.SteerDegrees | hardware_interface/src/main/java/nl/jpoint/trojkaracer/hardwareinterface/impl/ArduinoSerialServoController.java:67-75 | degrees outside [0, 180] raise IllegalArgumentException and write nothing; otherwise the STE command with the mapped width is written and 0 returned |
| Arduino.ArduinoSerialServoController.GetSpeed | hardware_interface/src/main/java/nl/jpoint/trojkaracer/hardwareinterface/impl/ArduinoSerialServoController.java:52-55 | reports 0 |
| Arduino.ArduinoSerialServoController.IsForward | hardware_interface/src/main/java/nl/jpoint/trojkaracer/hardwareinterface/impl/ArduinoSerialServoController.java:57-60 | reports 0 |
| Arduino.ArduinoSerialServoController.IsBackward | hardware_interface/src/main/java/nl/jpoint/trojkaracer/hardwareinterface/impl/ArduinoSerialServoController.java:62-65 | reports 0 |
| Arduino.ArduinoSerialServoController.GetSteering | hardware_interface/src/main/java/nl/jpoint/trojkaracer/hardwareinterface/impl/ArduinoSerialServoController.java:92-95 | reports 0 |
| ImageProcessing.Unsigned | processing/impl/src/main/java/nl/jpoint/trojkaracer/processing/ImageProcessor.java:330-332 | the byte read unsigned lies in [0, 255] and agrees with the byte modulo 256 |
| ImageProcessing.PixelLocation | processing/impl/src/main/java/nl/jpoint/trojkaracer/processing/ImageProcessor.java:317-319 | the location is three times the row-major index of (y + yOff, x + xOff) |
| ImageProcessing.PixelLocationInBounds | processing/impl/src/main/java/nl/jpoint/trojkaracer/processing/ImageProcessor.java:317-319 | for a pixel inside a well-formed image, all three bytes of its location lie inside the pixel array |
| ImageProcessing.PixelLocationInjective | processing/impl/src/main/java/nl/jpoint/trojkaracer/processing/ImageProcessor.java:317-319 | two pixels of a row-width image share a location only if they are the same pixel |
| ImageProcessing.GetBGR | processing/impl/src/main/java/nl/jpoint/trojkaracer/processing/ImageProcessor.java:328-334 | succeeds exactly when the three bytes exist (otherwise IndexOutOfBoundsException), giving three values in [0, 255] that agree with the bytes modulo 256 |
| ImageProcessing.SquaredColorDifference | processing/impl/src/main/java/nl/jpoint/trojkaracer/processing/ImageProcessor.java:343-347 | the squared colour distance is never negative and is 0 for equal colours |
| ImageProcessing.SquaredColorDifferenceZero | processing/impl/src/main/java/nl/jpoint/trojkaracer/processing/ImageProcessor.java:343-347 | the squared color distance is never negative and is 0 exactly for equal colors |
| ImageProcessing.IsTape | processing/impl/src/main/java/nl/jpoint/trojkaracer/processing/ImageProcessor.java:23-27 | the tape test `colorDifference(pixel, TAPE_COLOR) < 100`, taken on squares: the tape colour is tape, and a tape pixel is within 100 of (20, 20, 20) on every channel |
| ImageProcessing.TapeAtReadsPixel | processing/impl/src/main/java/nl/jpoint/trojkaracer/processing/ImageProcessor.java:194-197 | every pixel of a well-formed frame is read without an out-of-bounds access, and its flag is the tape test of its colour |
| ImageProcessing.TapeRow | processing/impl/src/main/java/nl/jpoint/trojkaracer/processing/ImageProcessor.java:192-197 | a row's tape mask has one entry per pixel |
| ImageProcessing.TapeRowAt | processing/impl/src/main/java/nl/jpoint/trojkaracer/processing/ImageProcessor.java:192-197 | entry x of the row's tape mask is the tape test of pixel (y, x) |
| ImageProcessing.ScanPrefix | processing/impl/src/main/java/nl/jpoint/trojkaracer/processing/ImageProcessor.java:189-206 | the running count never exceeds the pixels scanned |
| ImageProcessing.ScanPrefixRun | processing/impl/src/main/java/nl/jpoint/trojkaracer/processing/ImageProcessor.java:192-206 | the running count is the row's trailing tape run: every pixel in it is tape and the pixel before it is not |
| ImageProcessing.RowBordersTrailingRun | processing/impl/src/main/java/nl/jpoint/trojkaracer/processing/ImageProcessor.java:207-210 | a row's borders are the scan's borders plus at most one for the run reaching the right edge, added exactly when that run is at least 4 pixels long (the count is decremented before the test against 3) |
| ImageProcessing.ScanPrefixInvariant | processing/impl/src/main/java/nl/jpoint/trojkaracer/processing/ImageProcessor.java:192-206 | while scanning, the running count is the length of the tape run ending at the current pixel, and every border so far is in ascending order on a tape pixel before that run |
| ImageProcessing.RowBordersOnTape | processing/impl/src/main/java/nl/jpoint/trojkaracer/processing/ImageProcessor.java:192-210 | every border of a row, including the one from a trailing run, lies on a tape pixel of that row, in ascending order |
| ImageProcessing.RowBordersExamples | processing/impl/src/main/java/nl/jpoint/trojkaracer/processing/ImageProcessor.java:201-210 | a closed run of 3 gives a border at its middle; a trailing run needs 4 pixels, since the count is decremented before the test |
| ImageProcessing.ScanRow | processing/impl/src/main/java/nl/jpoint/trojkaracer/processing/ImageProcessor.java:188-210 | the scan loop yields exactly RowBorders of the row's tape mask |
| ImageProcessing.ScanlineOf | processing/impl/src/main/java/nl/jpoint/trojkaracer/processing/ImageProcessor.java:213-226 | a row yields a scanline exactly when it has more than one border; the scanline is on that row and joins two consecutive borders, or is (0, 0) |
| ImageProcessing.ScanlineOfIsWidest | processing/impl/src/main/java/nl/jpoint/trojkaracer/processing/ImageProcessor.java:215-224 | the chosen pair spans a gap at least as wide as every gap of the row, and it is (0, 0) exactly when no gap is positive |
| ImageProcessing.FirstWidest | processing/impl/src/main/java/nl/jpoint/trojkaracer/processing/ImageProcessor.java:216-224 | the chosen gap index lies in [-1, n) |
| ImageProcessing.FirstWidestIsFirstLongest | processing/impl/src/main/java/nl/jpoint/trojkaracer/processing/ImageProcessor.java:216-224 | the chosen gap is positive, no gap is longer, and every earlier gap is strictly shorter, so ties go to the first; -1 means no positive gap |
| ImageProcessing.PickScanline | processing/impl/src/main/java/nl/jpoint/trojkaracer/processing/ImageProcessor.java:213-226 | the loop yields ScanlineOf: no scanline with fewer than 2 borders, otherwise the first widest pair |
| ImageProcessing.ScanlineOnTape | processing/impl/src/main/java/nl/jpoint/trojkaracer/processing/ImageProcessor.java:213-226 | a picked scanline has left < right, both on tape pixels of its row |
| ImageProcessing.WindowStart | processing/impl/src/main/java/nl/jpoint/trojkaracer/processing/ImageProcessor.java:275-285 | the window starts three lines before the line, at 0 for the first three lines, and at most six lines before the end of the list |
| ImageProcessing.WindowEnd | processing/impl/src/main/java/nl/jpoint/trojkaracer/processing/ImageProcessor.java:275-285 | the window ends three lines after the line, at 6 for the first three lines, and at most at the end of the list |
| ImageProcessing.WindowFits | processing/impl/src/main/java/nl/jpoint/trojkaracer/processing/ImageProcessor.java:275-285 | the clamped window always spans 6 lines, contains the line itself, and fits in any list of at least 6 |
| ImageProcessing.WindowAverage | processing/impl/src/main/java/nl/jpoint/trojkaracer/processing/ImageProcessor.java:287-295 | each average border is the window's sum divided by its size rounded toward zero: size times it lies within one size of the sum, on the sum's side of zero |
| ImageProcessing.Noise | processing/impl/src/main/java/nl/jpoint/trojkaracer/processing/ImageProcessor.java:298 | the noise is 0 exactly when both borders equal the average ones, and it is at least each border's distance |
| ImageProcessing.Keep | processing/impl/src/main/java/nl/jpoint/trojkaracer/processing/ImageProcessor.java:297-301 | a kept line has each border less than 20 away from its window's average border |
| ImageProcessing.FilterIsSubsequence | processing/impl/src/main/java/nl/jpoint/trojkaracer/processing/ImageProcessor.java:271-303 | the filter's output is the input lines whose noise is under 20, in their original order, and every such line is kept |
| ImageProcessing.KeptLinesMatch | processing/impl/src/main/java/nl/jpoint/trojkaracer/processing/ImageProcessor.java:299-301 | each output line is the input line at its recorded index |
| ImageProcessing.KeptIndicesOrdered | processing/impl/src/main/java/nl/jpoint/trojkaracer/processing/ImageProcessor.java:273-301 | the recorded indices are ascending and below the number of lines scanned |
| ImageProcessing.KeptIndicesComplete | processing/impl/src/main/java/nl/jpoint/trojkaracer/processing/ImageProcessor.java:299-301 | every line that passes the noise test is among the recorded indices |
| ImageProcessing.FilterResult | processing/impl/src/main/java/nl/jpoint/trojkaracer/processing/ImageProcessor.java:271-304 | 1 to 5 lines index out of range (IndexOutOfBoundsException); 0 lines give an empty result |
| ImageProcessing.FilterOutliers | processing/impl/src/main/java/nl/jpoint/trojkaracer/processing/ImageProcessor.java:271-304 | the loop returns FilterResult of its input |
| ImageProcessing.FilterStep | processing/impl/src/main/java/nl/jpoint/trojkaracer/processing/ImageProcessor.java:287-301 | one loop round keeps exactly the lines whose noise against the window average is under 20 |
| ImageProcessing.AverageOver | processing/impl/src/main/java/nl/jpoint/trojkaracer/processing/ImageProcessor.java:288-295 | the window average, with IndexOutOfBoundsException exactly when the window leaves the list |
| ImageProcessing.ConstantLinesKept | processing/impl/src/main/java/nl/jpoint/trojkaracer/processing/ImageProcessor.java:271-304 | six or more identical lines all survive the filter |
| ImageProcessing.ConstantSums | processing/impl/src/main/java/nl/jpoint/trojkaracer/processing/ImageProcessor.java:289-293 | the sums over identical lines are the count times the common value |
| ImageProcessing.FilterKeepsAll | processing/impl/src/main/java/nl/jpoint/trojkaracer/processing/ImageProcessor.java:271-304 | when every line passes the noise test, the output is the whole input |
| ImageProcessing.TapeMask | processing/impl/src/main/java/nl/jpoint/trojkaracer/processing/ImageProcessor.java:186-197 | the image's tape mask has one row per image row, each the row's tape mask |
| ImageProcessing.ScannedLinesStep | processing/impl/src/main/java/nl/jpoint/trojkaracer/processing/ImageProcessor.java:186-227 | one row adds its scanline if it has one and nothing otherwise |
| ImageProcessing.ScannedLinesOfFrame | processing/impl/src/main/java/nl/jpoint/trojkaracer/processing/ImageProcessor.java:186-227 | the scanned lines lie on tape in their own rows, inside the image, in strictly ascending rows from the horizon down |
| ImageProcessing.CollectOfFrame | processing/impl/src/main/java/nl/jpoint/trojkaracer/processing/ImageProcessor.java:215-226 | collecting per-row scanlines that lie on their rows gives lines of the frame in ascending rows |
| ImageProcessing.LinesOfFrameAppend | processing/impl/src/main/java/nl/jpoint/trojkaracer/processing/ImageProcessor.java:225 | appending a scanline from a lower row keeps the lines of a frame in order |
| ImageProcessing.FilterKeepsFrame | processing/impl/src/main/java/nl/jpoint/trojkaracer/processing/ImageProcessor.java:229 | filtering keeps the lines in the frame, on tape, and in ascending rows |
| ImageProcessing.TapeMaskAt | processing/impl/src/main/java/nl/jpoint/trojkaracer/processing/ImageProcessor.java:194-197 | the mask entry at (y, x) is the tape test of that pixel |
| ImageProcessing.TrackBoundariesOf | processing/impl/src/main/java/nl/jpoint/trojkaracer/processing/ImageProcessor.java:181-235 | the only failure is IndexOutOfBoundsException, and a frame no taller than the horizon (row 120) yields no boundaries |
| ImageProcessing.TrackBoundariesOfFrame | processing/impl/src/main/java/nl/jpoint/trojkaracer/processing/ImageProcessor.java:181-235 | the computed boundaries are scanlines inside the image, with both ends on tape pixels, in strictly ascending rows |
| ImageProcessing.ScanRowLine | processing/impl/src/main/java/nl/jpoint/trojkaracer/processing/ImageProcessor.java:188-226 | one row's scan and pick give ScanlineOf its borders |
| ImageProcessing.Collect | processing/impl/src/main/java/nl/jpoint/trojkaracer/processing/ImageProcessor.java:225 | collecting yields at most one line per row |
| ImageProcessing.CollectRows | processing/impl/src/main/java/nl/jpoint/trojkaracer/processing/ImageProcessor.java:186-227 | collecting the per-row results is the row-by-row scan |
| ImageProcessing.FrameRowsCollected | processing/impl/src/main/java/nl/jpoint/trojkaracer/processing/ImageProcessor.java:186-227 | collecting every row from the horizon down is the frame's scan |
| ImageProcessing.ScanFrame | processing/impl/src/main/java/nl/jpoint/trojkaracer/processing/ImageProcessor.java:183-227 | the nested loops yield exactly the scanned lines of the frame, from row 120 to the last |
| ImageProcessing.CalculateTrackBoundaries | processing/impl/src/main/java/nl/jpoint/trojkaracer/processing/ImageProcessor.java:181-235 | the scan followed by the filter computes TrackBoundariesOf the image |
| ImageProcessing.ImageProcessor.constructor | processing/impl/src/main/java/nl/jpoint/trojkaracer/processing/ImageProcessor.java:52-54 | no boundaries, no light location, waiting for green |
| ImageProcessing.ImageProcessor.Run | processing/impl/src/main/java/nl/jpoint/trojkaracer/processing/ImageProcessor.java:79-104 | without a light location: locate it and compute the boundaries; while waiting: only test for green; afterwards: only recompute the boundaries; a found location is kept, and waiting never resumes |
| HardWiredAI.BuildDesiredActions | ai/impl/src/main/java/nl/jpoint/trojkaracer/ai/HardWiredAIService.java:49-51 | the action holds the given speed and direction |
| HardWiredAI.Step | ai/impl/src/main/java/nl/jpoint/trojkaracer/ai/HardWiredAIService.java:35-47 | once the script is used up nothing changes; otherwise loopCounter rises by at most one and the counter advances by one exactly when loopCounter had reached 20; the counter never falls |
| HardWiredAI.Reply | ai/impl/src/main/java/nl/jpoint/trojkaracer/ai/HardWiredAIService.java:35-47 | once the script is used up the stop action; otherwise the entry at the advanced counter, or IndexOutOfBoundsException when that is past the list |
| HardWiredAI.StateAfterClosedForm | ai/impl/src/main/java/nl/jpoint/trojkaracer/ai/HardWiredAIService.java:40-43 | after n calls (n <= 126) the counters are (n div 21, n mod 21); from 126 on they stay at (6, 0) |
| HardWiredAI.ScriptEntryCalls | ai/impl/src/main/java/nl/jpoint/trojkaracer/ai/HardWiredAIService.java:14 | entry k is returned by calls 21k to 21k + 20, so entry 0 is returned 20 times and each later one 21 times |
| HardWiredAI.ScriptRunsOut | ai/impl/src/main/java/nl/jpoint/trojkaracer/ai/HardWiredAIService.java:40-45 | call 126, which moves counter from 5 to 6, reads past the list and fails; afterwards the counters rest at (6, 0) |
| HardWiredAI.StoppedStaysStopped | ai/impl/src/main/java/nl/jpoint/trojkaracer/ai/HardWiredAIService.java:36-38 | once the script is used up, every later call returns stop and leaves the counters unchanged |
| HardWiredAI.CounterNeverDecreases | ai/impl/src/main/java/nl/jpoint/trojkaracer/ai/HardWiredAIService.java:40-43 | the counter never goes back over any number of calls |
| HardWiredAI.HardWiredAIService.constructor | ai/impl/src/main/java/nl/jpoint/trojkaracer/ai/HardWiredAIService.java:22-32 | the list is the six-entry script and both counters start at 0 |
| HardWiredAI.HardWiredAIService.GetDesiredActions | ai/impl/src/main/java/nl/jpoint/trojkaracer/ai/HardWiredAIService.java:35-47 | the counters move by Step and the answer is Reply of the old counters |

## Left out

- OpenCV and floating point. The red-light locator and the green-light test of the `ImageProcessor` become the parameters `lightLocation` and `turnedGreen` of `Run`. The tape test's square root becomes a squared integer distance below 100², which is the same test on integers.
- `dumpDebugImage` writes a file and is not called; it is not modelled.
- Reactive plumbing.
  - `Flux` pipelines, timers, and the `subscribe` bodies of starters, finishers and drivers.
  - What a new driver sends during `subscribe` becomes the parameter `emitted`.
  - `RedLightStarter`'s filter pipeline becomes a sequence of readings.
  - `FixedPathNavigator`'s 250 ms interval becomes the emission index.
- Reactor's own cancellation and termination signalling: the hooks run only where the model calls them, and cancelling a handle only sets its flag.
- The subscribers' `hookOnNext` for start and finish signals is modelled by calling `StartRace`/`FinishRace` directly.
- Logging, and the id counters and timestamps of the control events.
- Serial reads. The servo controller prints and reads a reply that it ignores; neither is modelled.
- `Integer.parseInt` accepts only ASCII digits; Java would also accept other Unicode digits.
- 32-bit overflow: integers are unbounded and nothing wraps at 32 bits. Speeds, degrees and percentages stay far inside the 32-bit range; pulse widths, pixel locations and the values sent over the serial line are taken as unbounded.
- A `RaceControlMessageSubscriber` message whose type is null, or an event type outside the listed enum: Java's `switch` would throw or fall through. Only the listed message types are modelled.
- Driver inputs are reduced to the manual and the automated driver, the only two the race control service installs.
- `ImageProcessing.WellFormed` is assumed of every image: three bytes per pixel in row-major BGR order. This is the 3-byte raster type the cast to `DataBufferByte` assumes.
- `TrackBoundaries` is modelled as the sequence of filtered scanlines it wraps.
- The `ImageProcessor` getters are modelled as the fields they return.
- `HardWiredAI.DesiredActions`: the steering and throttle actions become plain reals, because Java doubles are only stored and returned.
- `PercentageForPulseWidth`: when neutral equals maximum, Java divides by zero at the maximum pulse width. The model returns `ArithmeticException` there instead of requiring it away.
- `RowBorders`: the trailing tape run is decremented before the comparison, so a run that touches the right edge needs 4 pixels, not 3, to yield a border. The model follows the code.
- `ArduinoSerialCommandAdapter` always parses the fixed reply "0;0". Any calibration of the percentage controller whose limits exclude 0 therefore writes its command and then fails converting the old pulse width back (`ZeroOldPulseWidthRejected`). The model follows the code.
- The third "INI10\n" write that the adapter's test expects after a stop: the code never sends it.
