# Robot car decision core, in Dafny

This project models the decision logic of a Raspberry Pi robot car. The car
side is `server/thinkland_rpi_car.py`: the `Car` class with its drive
patterns, lights, servos and sensor classifiers, plus the `demo_cruising` and
`demo_line_tracking` loops. The client side is
`client/thinkland_rpi_demo_move_find_object.py`: the `Cruising` loop, the
`find_object` watcher, the camera sweep `get_status_with_camera`, the step
loops, and the coarse lock and approach of `move_step_find_object1_thread`.

Every sensor read, detection result, clock reading and random draw is an
input. Every actuator call is a `Command` appended to a ghost trace (`log`)
kept by the `Car` class. The class invariant `Valid()` ties every output
field to that trace: the drivetrain (four direction pins and two duty
cycles), the three LED pins, `LED_FLAG`, and the front, pan and tilt servos.
It does so through a ghost history of outputs, one entry per call, each
following from the one before by the call's effect. `Motion.Car.Replays`
turns that into a plain replay of the trace from a new car, so the replay
lemmas (`Motion.QuietAfterStop`, `Motion.PanelKept`,
`Cruise.LineTrackingHoldsLastMotion`) speak about the car itself.

The client threads share two module-level flags: `STOP_FLAGE`, set by the
keyboard listener on Caps Lock, and `CRUSING_FLOG`, cleared by the watcher
when it sees a cup. They live in the `SharedFlags` class. The threads are
modelled sequentially: whatever the other threads did between two checks of
a loop reaches that loop as a list of `SignalEvent`s, which it delivers
before checking the flags.

Each `while True` loop runs over a finite list of inputs. It is proved
against a recursive function (`CruiseRun`, `Sweep`, `StepRun`,
`ApproachRun`, `SpinRun`, `LockRun`, …) that gives the trace and flags after
those inputs. The lemmas about those functions state what the loops promise.

Modules:
- `Motion`: the drivetrain, lights, servos and class `Car`.
- `Sensing`: the line-tracking, infrared and ultrasonic classifiers.
- `Signals`: the flags, key handler and watcher.
- `Cruise`: `demo_cruising`, `demo_line_tracking` and `Cruising`.
- `Search`: the camera sweep and the step loops.
- `Approach`: the centroid, approach and coarse lock.
- `Demos`: the entry points that chain the loops.

The coarse-lock spin search keeps its timeout test as written,
`start_time - end_time > 5` (`Approach.LockTimedOutAsWritten`). With a clock
that never goes back, that test never fires (`Approach.SpinNeverTimesOut`),
so only the flags end the search. `Approach.LockTimedOut` is the reading with
the operands swapped; `Approach.TimeoutTests` relates the two.

## Model

| member | source | states |
|---|---|---|
| Motion.Pattern | server/thinkland_rpi_car.py:336-439 | no motor side is driven forwards and backwards at once; turn_left drives only the right wheels (left duty 0), turn_right only the left wheels; a spin drives the two sides in opposite directions at the same speed; run_forward/run_reverse drive both sides the same way at the same speed |
| Motion.Settle | server/thinkland_rpi_car.py:229-232 | after a motion with a positive duration both duty cycles are 0 and the direction pins are kept; with no duration the pattern stays as set |
| Motion.ReplayConcat | server/thinkland_rpi_car.py:200-232 | the drivetrain after two runs of calls is the drivetrain after the first run, continued by the second |
| Motion.QuietAfterStop | server/thinkland_rpi_car.py:317-323 | after stop_all_wheels, or any timed motion, followed by calls that do not move the wheels, no wheel is powered; a second stop changes nothing and the drivetrain is all-low |
| Motion.PanelAfter | server/thinkland_rpi_car.py:251-315 | a call leaves the front, pan and tilt servos alone unless it turns that servo, and leaves the LED pins and LED_FLAG alone unless it is led_light or turn_off_led |
| Motion.PanelReplayConcat | server/thinkland_rpi_car.py:251-315 | the lights and servos after two runs of calls are those after the first run, continued by the second |
| Motion.PanelKept | server/thinkland_rpi_car.py:590-756 | a run of calls none of which turns a given servo leaves that servo where it was; one with no led_light or turn_off_led leaves the LED pins and LED_FLAG as they were |
| Motion.HistoryReplays | server/thinkland_rpi_car.py:100-119 | a history that follows the calls from a new car holds, at each point, the replay of the calls made up to there |
| Motion.Car.Replays | server/thinkland_rpi_car.py:100-119 | the drivetrain, LED pins, LED_FLAG and servos of a car are the replay of every call made on it since it was built |
| Motion.LedPinsMix | server/thinkland_rpi_car.py:251-277 | each LED pin is on exactly for the colour names that mix it (red: red, yellow, purple, white; green: green, yellow, cyan, white; blue: blue, cyan, purple, white); any other name switches all off |
| Motion.UltrasonicServoDegree | server/thinkland_rpi_car.py:606-611 | "center" gives 90, "right" 0, "left" 180, and any other direction keeps the given degree |
| Motion.Car.constructor | server/thinkland_rpi_car.py:100-119 | a new car has an all-low drivetrain with both duty cycles 0, an empty trace, all LED pins low, no servo turned, and LED_FLAG true for red, green and blue |
| Motion.Car.SetMotion | server/thinkland_rpi_car.py:200-232 | __set_motion leaves the pins as given and the duty cycles as given, or 0 after a positive duration |
| Motion.Car.StopAllWheels | server/thinkland_rpi_car.py:317-323 | the drivetrain becomes all-low with both duty cycles 0, and the trace gains one stop |
| Motion.Car.RunForward | server/thinkland_rpi_car.py:336-349 | the drivetrain is the forward pattern settled by the duration, and the trace gains exactly that call |
| Motion.Car.RunReverse | server/thinkland_rpi_car.py:351-367 | the drivetrain is the reverse pattern settled by the duration, and the trace gains exactly that call |
| Motion.Car.TurnLeft | server/thinkland_rpi_car.py:369-385 | the drivetrain is the turn-left pattern (right wheels only) settled by the duration, and the trace gains exactly that call |
| Motion.Car.TurnRight | server/thinkland_rpi_car.py:387-403 | the drivetrain is the turn-right pattern (left wheels only) settled by the duration, and the trace gains exactly that call |
| Motion.Car.SpinLeft | server/thinkland_rpi_car.py:405-421 | the drivetrain is the spin-left pattern settled by the duration, and the trace gains exactly that call |
| Motion.Car.SpinRight | server/thinkland_rpi_car.py:423-439 | the drivetrain is the spin-right pattern settled by the duration, and the trace gains exactly that call |
| Motion.Car.LedLight | server/thinkland_rpi_car.py:251-277 | the three LED pins are those of the colour table, and the trace gains the call |
| Motion.Car.TurnOffLed | server/thinkland_rpi_car.py:299-315 | LED_FLAG[led] becomes false and no other entry changes; the red or green pin goes low for those indices, and the blue pin for any other; the other pins keep their values |
| Motion.Car.TurnServoUltrasonic | server/thinkland_rpi_car.py:590-616 | the front servo is set to the direction's degree (center 90, right 0, left 180, else the given degree), and the trace gains that turn |
| Motion.Car.TurnServoCameraHorizontal | server/thinkland_rpi_car.py:716-735 | the pan servo is at the given angle and the trace gains the pan |
| Motion.Car.TurnServoCameraVertical | server/thinkland_rpi_car.py:738-756 | the tilt servo is at the given angle and the trace gains the tilt |
| Sensing.LineTrackingTurnType | server/thinkland_rpi_car.py:506-557 | first match wins: s1, s3 and s4 dark gives sharp_left_turn whatever s2 reads, else (s1 or s2) and s4 gives sharp_right_turn; each of the eight results holds exactly for its stated set of patterns, so no_line holds exactly when all four are light |
| Sensing.InfraredStatusOf | server/thinkland_rpi_car.py:576-588 | clear iff both channels are clear; only_right_blocked iff left clear and right not; only_left_blocked iff right clear and left not; blocked iff neither |
| Sensing.UltrasoundStatusOf | server/thinkland_rpi_car.py:641-646 | blocked iff distance <= 20, approaching_obstacle iff 20 < distance <= 50, clear iff distance > 50 |
| Sensing.UltrasoundMonotone | server/thinkland_rpi_car.py:641-646 | a larger distance never gives a more cautious status, and the fault codes -2 and -3 classify as blocked |
| Sensing.UltrasoundStatusAsWritten | server/thinkland_rpi_car.py:489-491 | with the value distance_from_obstacle returns, only the fault codes get a status; a measured distance comes back as text and gets none |
| Sensing.MeasuredDistanceGetsNoStatus | server/thinkland_rpi_car.py:639-646 | a measured 35 cm gets no status from the code as written, and the intended classifier calls it approaching_obstacle |
| Sensing.ShouldTurn | server/thinkland_rpi_car.py:769-782 | the loop does not turn exactly when the infrared pair is clear and the ultrasonic distance is over 20 |
| Cruise.ServerCruisePass | server/thinkland_rpi_car.py:769-793 | one pass ranges (front servo to 90) exactly when the infrared pair is clear; when not turning it ends running forward at 10 (clear) or 5 (approaching); when turning it backs off at 10 for 0.02 s, then spins away from the blocked side at 10 for the drawn time; it never stops the wheels |
| Cruise.DemoCruisingPass | server/thinkland_rpi_car.py:769-793 | the loop body issues exactly the commands of the pass |
| Cruise.DemoCruisingProbe | server/thinkland_rpi_car.py:769-782 | with a clear infrared pair the front servo is centred; then green and forward at 10 when the range is clear, yellow and forward at 5 when approaching; a turn is called for exactly when the pair is not clear or the range is blocked |
| Cruise.SignalTurn | server/thinkland_rpi_car.py:785-793 | purple and a left spin when only the right side is blocked, cyan and a right spin when only the left side is, red and a right spin otherwise |
| Cruise.DemoCruisingTurn | server/thinkland_rpi_car.py:783-793 | the turn issues the reverse, the turn colour and the spin, in that order |
| Cruise.DemoCruising | server/thinkland_rpi_car.py:759-795 | over a run of readings, the new car has issued the passes of those readings in order |
| Cruise.LineCommands | server/thinkland_rpi_car.py:807-821 | straight runs forward at speed; smooth turns turn at 0.75 speed; regular turns spin at 0.75 speed; sharp turns spin at full speed; every turn heads to the side in its name; no_line issues nothing |
| Cruise.LastLineSeen | server/thinkland_rpi_car.py:550-554 | helper for Cruise.LineTrackingHoldsLastMotion: the last turn type in which some sensor saw the line, which is never no_line |
| Cruise.LineTrackingHoldsLastMotion | server/thinkland_rpi_car.py:550-554 | no_line maintains the previous movement: after a run of patterns the drivetrain holds the motion of the last pattern that saw the line, or is unchanged if none did |
| Cruise.LineStep | server/thinkland_rpi_car.py:807-821 | the branch chain issues exactly the motion table's command for the turn type |
| Cruise.DemoLineTracking | server/thinkland_rpi_car.py:798-823 | over a run of sensor patterns, the new car has issued the motion table's commands for them in order |
| Cruise.CruiseDecision | client/thinkland_rpi_demo_move_find_object.py:80-100 | ranges exactly when the infrared pair is clear; clear ahead runs forward at speed, an obstacle approaching at half speed; otherwise reverse at speed for 0.1 s, then spin at twice the speed for the drawn time, left only for only_right_blocked; never stops the wheels |
| Cruise.CruiseEndedIsFinal | client/thinkland_rpi_demo_move_find_object.py:64-73 | once Cruising has broken out of its loop, later rounds change nothing |
| Cruise.CruiseExitsOnlyOnFlags | client/thinkland_rpi_demo_move_find_object.py:64-78 | Cruising leaves only at a flag check that finds a stop request or the cruising flag cleared; its last command is then the one stop it ever issues; while running it makes one pass per round, never stops the wheels, and both flags allow cruising |
| Cruise.CruiseHonoursStop | client/thinkland_rpi_demo_move_find_object.py:65-68 | with a stop already requested, Cruising stops the wheels at its first check and does nothing else |
| Cruise.CruisingProbe | client/thinkland_rpi_demo_move_find_object.py:81-92 | with a clear infrared pair the front servo is centred, then forward at speed when the range is clear, at half speed when approaching; a turn is called for exactly when the pair is not clear or the range is blocked |
| Cruise.CruisingTurn | client/thinkland_rpi_demo_move_find_object.py:93-100 | reverse at speed for 0.1 s, then spin at twice the speed for the drawn time, left only when just the right side is blocked |
| Cruise.CruisingDecide | client/thinkland_rpi_demo_move_find_object.py:80-100 | the decision branches issue exactly the decision's commands |
| Cruise.CruiseOnce | client/thinkland_rpi_demo_move_find_object.py:65-100 | one round does the flag checks, the pan to h_angle[i] and the decision, matching one step of the loop's specification; the next pan index stays within h_angle and is the pass count plus one, modulo 3 |
| Cruise.Cruising | client/thinkland_rpi_demo_move_find_object.py:52-103 | the loop issues the trace, leaves the flags and reports the exit that the rounds determine, with the camera panning 20, 90, 160, 20, … |
| Signals.OnPress | client/thinkland_rpi_demo_move_find_object.py:27-35 | a stop is requested after a key exactly when it was already requested or the key is Caps Lock; the cruising flag is untouched |
| Signals.WatchFrame | client/thinkland_rpi_demo_move_find_object.py:113-119 | the watcher never touches the stop flag and only moves the cruising flag from true to false, exactly when no stop is requested and "cup" is among the labels |
| Signals.StopAbsorbs | client/thinkland_rpi_demo_move_find_object.py:27-35 | once a stop is requested, no key press or watcher pass changes the flags |
| Signals.EventsOnlyLatch | client/thinkland_rpi_demo_move_find_object.py:113-119 | a stop request persists, a cleared cruising flag stays cleared, and it was cleared only by a watcher pass that saw "cup" |
| Signals.NoStopWithoutCapsLock | client/thinkland_rpi_demo_move_find_object.py:27-35 | without a Caps Lock press no stop is ever requested |
| Signals.CapsLockStops | client/thinkland_rpi_demo_move_find_object.py:27-35 | a Caps Lock press among the events always leaves a stop requested |
| Signals.SharedFlags.constructor | client/thinkland_rpi_demo_move_find_object.py:24-49 | the flags start with no stop requested and cruising set |
| Signals.SharedFlags.Press | client/thinkland_rpi_demo_move_find_object.py:27-35 | on_press changes the flags as the key handler's rule says |
| Signals.SharedFlags.Watch | client/thinkland_rpi_demo_move_find_object.py:113-119 | one watcher pass reports the break exactly when a stop was requested, and changes the flags as the watcher's rule says |
| Signals.SharedFlags.ResumeCruising | client/thinkland_rpi_demo_move_find_object.py:326 | the cruising flag is set and the stop flag kept |
| Signals.SharedFlags.Deliver | client/thinkland_rpi_demo_move_find_object.py:106-119 | the other threads' events, applied one by one, leave the flags as the events' rules say |
| Signals.WatchRunIsDelivery | client/thinkland_rpi_demo_move_find_object.py:106-119 | the watcher's passes change the flags exactly as the same presses and sightings delivered one by one would; it leaves only with a stop requested, after its first pass if one was already requested, and never runs more passes than it is given; a non-empty run that ends with a stop requested has left |
| Signals.FindObject | client/thinkland_rpi_demo_move_find_object.py:106-119 | the watcher loop's flags, pass count and exit are those of its specification; the object asked for is never consulted |
| Search.PoseTables | client/thinkland_rpi_demo_move_find_object.py:281-287 | pose p is tilt vTable[p / 3] and pan hTable[p % 3], and opens a row exactly when p % 3 == 0 |
| Search.Classify | client/thinkland_rpi_demo_move_find_object.py:302-310 | status_stop iff pos < 40; otherwise status_move iff angle == 90, status_turn_right iff angle < 90, status_turn_left iff angle > 90 |
| Search.SweepVisitOrder | client/thinkland_rpi_demo_move_find_object.py:284-295 | an uninterrupted sweep tilts to 25 and pans 45, 90, 135, then tilts to 45 and pans 45, 90, 135 |
| Search.SweepFoundIsFinal | client/thinkland_rpi_demo_move_find_object.py:300-310 | once the object is seen, no later pose changes anything |
| Search.SweepCancelledRow | client/thinkland_rpi_demo_move_find_object.py:287-292 | once the stop check broke out of a row, the rest of that row is skipped |
| Search.SweepWithoutStop | client/thinkland_rpi_demo_move_find_object.py:284-299 | without a stop and without a sighting, the sweep has issued exactly the camera moves of its poses so far |
| Search.FirstSighting | client/thinkland_rpi_demo_move_find_object.py:284-310 | with no stop requested and no Caps Lock press up to the sighting, the sweep reports the status of the first pose whose labels hold the object, having visited exactly the poses up to that one |
| Search.NoSightingMeansMove | client/thinkland_rpi_demo_move_find_object.py:284-311 | without a stop and with no sighting, all six poses are visited and the sweep reports status_move |
| Search.CancelledSweep | client/thinkland_rpi_demo_move_find_object.py:284-311 | with a stop requested, the sweep tilts to 25, stops the wheels, tilts to 45, stops again, takes no picture and reports status_move |
| Search.StopMidSweep | client/thinkland_rpi_demo_move_find_object.py:284-311 | Caps Lock pressed before the check of pose p, with no stop or sighting earlier: the sweep has panned through the poses before p, then opens p's row if p opens one, stops the wheels, opens and breaks off the 45 row if p was in the 25 row, and reports status_move with the stop standing |
| Search.StoppedSweepFindsNothing | client/thinkland_rpi_demo_move_find_object.py:289-303 | a sweep that ends with a stop requested has not seen the object |
| Search.Sees | client/thinkland_rpi_demo_move_find_object.py:300-301 | the label scan finds the object exactly when it is among the labels |
| Search.VisitPose | client/thinkland_rpi_demo_move_find_object.py:287-299 | one pose does the stop check, then the pan and the look, matching one step of the sweep's specification |
| Search.RowPose | client/thinkland_rpi_demo_move_find_object.py:287-310 | a stop or a sighting settles the row with the status of that pose; otherwise the sweep moves on to the next column |
| Search.SweepRow | client/thinkland_rpi_demo_move_find_object.py:284-310 | one tilt row leaves the flags and trace of the sweep after that row, and reports a status exactly when the object was seen in it |
| Search.GetStatusWithCamera | client/thinkland_rpi_demo_move_find_object.py:266-311 | the two tilt rows issue the sweep's trace, leave its flags and return its status, which is that of the first sighting, or status_move (Search.FirstSighting, Search.NoSightingMeansMove) |
| Search.StepMotion | client/thinkland_rpi_demo_move_find_object.py:197-206 | status_move runs forward at speed for dis; turn_right and turn_left spin at 10 for 0.4 s; status_stop moves nothing; each status gives its own move |
| Search.StepEndedIsFinal | client/thinkland_rpi_demo_move_find_object.py:190-206 | once the step loop has returned, later rounds change nothing |
| Search.StepExitsOnlyOnStopOrClose | client/thinkland_rpi_demo_move_find_object.py:190-206 | the step loop returns only on a stop request or after a sweep that said status_stop; while it runs, its last sweep did not say status_stop |
| Search.StepHonoursStop | client/thinkland_rpi_demo_move_find_object.py:246-251 | with a stop already requested, the loop leaves at its first check, stopping the wheels only in demo_move_step_find_object |
| Search.ActOnStatus | client/thinkland_rpi_demo_move_find_object.py:197-205 | after a sweep the camera pans back to 90, then the status's move follows |
| Search.StepPass | client/thinkland_rpi_demo_move_find_object.py:196-206 | one pass issues the sweep, the pan back to 90 and the move for the sweep's status |
| Search.StopDuringSweepStillMoves | client/thinkland_rpi_demo_move_find_object.py:190-206 | a stop requested during a pass's sweep, after its check: the sweep says status_move, the pass pans back to 90 and still runs forward at speed for dis, and the loop leaves at its next check, stopping the wheels only in demo_move_step_find_object |
| Search.StepOnce | client/thinkland_rpi_demo_move_find_object.py:190-206 | one pass does the stop check, the sweep and the move, matching one step of the loop's specification |
| Search.StepFindObject | client/thinkland_rpi_demo_move_find_object.py:189-206 | the step loop issues the trace, leaves the flags and reports the exit that the rounds determine |
| Approach.IndexOf | client/thinkland_rpi_demo_move_find_object.py:351 | names.index returns the first position holding the label |
| Approach.SumOfCopies | client/thinkland_rpi_demo_move_find_object.py:355-367 | a sum of n copies of one value is n times it |
| Approach.MeanOfCopies | client/thinkland_rpi_demo_move_find_object.py:355-367 | the mean of copies of one value is that value |
| Approach.Total | client/thinkland_rpi_demo_move_find_object.py:355-357 | the accumulation loop computes the sum of the list |
| Approach.Centroid | client/thinkland_rpi_demo_move_find_object.py:342-367 | the averaged x and y are those of the first box labelled with the object, or 320 and 0 when there is none |
| Approach.SteerCommands | client/thinkland_rpi_demo_move_find_object.py:368-374 | x > 360 turns right at 4 for 0.1 s, x < 200 turns left at 4 for 0.1 s, and 200..360 steers not at all; never both |
| Approach.ApproachPass | client/thinkland_rpi_demo_move_find_object.py:368-380 | a pass is at most one steer followed by the creep forward at 4 for 0.2 s |
| Approach.ApproachEndedIsFinal | client/thinkland_rpi_demo_move_find_object.py:336-383 | once the approach has returned, later frames change nothing |
| Approach.ApproachAlwaysCreeps | client/thinkland_rpi_demo_move_find_object.py:380-383 | while no stop is requested, the approach's trace so far ends with the creep forward at 4 for 0.2 s, and an approach that ended without a stop crept at least once; so only a stop request makes it stop the wheels |
| Approach.ApproachHonoursStop | client/thinkland_rpi_demo_move_find_object.py:337-340 | at any frame the approach reaches whose stop check finds a stop, it stops the wheels and ends, and later frames change nothing |
| Approach.ApproachStopsWhenClose | client/thinkland_rpi_demo_move_find_object.py:336-383 | at any frame the approach reaches and whose stop check finds no stop, it issues that frame's steer and creep, and ends exactly when the frame's distance is in (0, 20) or its infrared pair is not clear |
| Approach.ApproachDoneCases | client/thinkland_rpi_demo_move_find_object.py:381 | a fault code with a clear infrared pair never ends the approach; a distance of 20 or more ends it exactly when the infrared pair is not clear; a blocked pair always ends it |
| Approach.ApproachDoneAsWritten | client/thinkland_rpi_demo_move_find_object.py:375-381 | with the value distance_from_obstacle returns, only a fault code reaches a decision, the one the numeric test gives; a measured distance, which comes back as text, reaches none |
| Approach.MeasuredDistanceNeverEndsApproach | client/thinkland_rpi_demo_move_find_object.py:375-381 | a measured 12 cm with a clear infrared pair gets no decision from the test as written, and ends the approach by the numeric test |
| Approach.Steer | client/thinkland_rpi_demo_move_find_object.py:368-374 | the steering tests issue exactly the steer for the aim point |
| Approach.ApproachStep | client/thinkland_rpi_demo_move_find_object.py:342-383 | one pass issues exactly the steer and the creep for its frame, and reports the stop condition |
| Approach.ApproachOnce | client/thinkland_rpi_demo_move_find_object.py:336-383 | one pass does the stop check, then the steer, creep and stop test, matching one step of the approach's specification |
| Approach.ApproachLoop | client/thinkland_rpi_demo_move_find_object.py:336-383 | the approach loop issues the trace, leaves the flags and reports the exit that the frames determine |
| Approach.TimeoutTests | client/thinkland_rpi_demo_move_find_object.py:331 | with a clock that does not go back, the test as written never fires; the swapped test fires exactly after more than 5 s |
| Approach.SpinEndedIsFinal | client/thinkland_rpi_demo_move_find_object.py:328-332 | once the spin search has left, later ticks change nothing |
| Approach.SpinNeverTimesOut | client/thinkland_rpi_demo_move_find_object.py:327-332 | with a clock that does not go back, the spin search never leaves on the timeout; it leaves only when a flag stops it, and while it runs both flags allow it |
| Approach.LockEndedIsFinal | client/thinkland_rpi_demo_move_find_object.py:322-332 | once the coarse lock has ended or stalled, later rounds change nothing |
| Approach.LockRunsOnce | client/thinkland_rpi_demo_move_find_object.py:321-332 | with a clock that does not go back, a first round that finishes leaves the flags stopping the lock, so the lock ends at its second check and Cruising runs in one round only |
| Approach.SpinOnce | client/thinkland_rpi_demo_move_find_object.py:328-332 | one tick checks the flags, spins left at 1 for 0.3 s and tests the clock, matching one step of the spin's specification |
| Approach.SpinSearch | client/thinkland_rpi_demo_move_find_object.py:327-332 | the spin loop issues the trace, leaves the flags and reports the exit that the ticks determine |
| Approach.LockStep | client/thinkland_rpi_demo_move_find_object.py:323-332 | a lock round cruises at 10, re-aims the camera, sets the cruising flag again and runs the spin search, as its specification says |
| Approach.LockOnce | client/thinkland_rpi_demo_move_find_object.py:322-332 | one round of the lock loop checks both flags and then runs the round, matching one step of the lock's specification |
| Approach.CoarseLock | client/thinkland_rpi_demo_move_find_object.py:321-332 | the lock loop issues the trace, leaves the flags and reports the exit that the rounds determine |
| Demos.DemoMoveFindObject | client/thinkland_rpi_demo_move_find_object.py:122-153 | a new car tilts and pans the camera, then cruises at speed 6; the flags end as Cruising leaves them |
| Demos.DemoStepFindObject | client/thinkland_rpi_demo_move_find_object.py:156-206 | a new car tilts and pans the camera, then runs the step loop that leaves a stop without stopping the wheels; the flags end as the loop leaves them |
| Demos.DemoMoveStepFindObject | client/thinkland_rpi_demo_move_find_object.py:209-263 | a new car aims the camera and cruises at speed 4; once Cruising leaves, it aims again and runs the step loop that stops the wheels on a stop request; the flags end as the last loop run leaves them |
| Demos.MoveStepFindObject1Thread | client/thinkland_rpi_demo_move_find_object.py:314-383 | a new car aims the camera, sets the cruising flag and runs the coarse lock; once the lock ends, it spins right at 0.5 for 0.5 s and runs the approach; the flags end as the last loop run leaves them |

## Left out

- GPIO mode and pin set-up (`__init_level`, `__init_pwm`) and the PWM objects: pins and duty cycles are plain fields of `Motion.Car`.
- Servo duty-cycle arithmetic (`2.5 + 10 * degree / 180`) and the `SERVO_TOTAL_STEP` repeat loops: a servo is an integer angle field that gets set.
- `distance_from_obstacle` echo timing: the distance is an input. Its return type is the subject of both findings below; the loops are modelled with the numeric distance.
- The LED pins' level before the first `led_light`: `__init_level` sets them up as outputs without an initial level, and the model starts them low.
- `stop_completely`: only clean-up, and it calls `time.time(delay)` and a PWM object that does not exist.
- `turn_on_led`: a busy loop that only another thread can end. `LED_FLAG`, which ends it, is modelled in `Motion.Car.TurnOffLed`.
- `check_left_obstacle_with_sensor`, `check_right_obstacle_with_sensor` and `servo_front_rotate`: not used by the loops modelled here.
- `demo_car_moving`, `demo_sensor`, `demo_led_switch`, `main`, `demo_move_step_find_object1` and the client's `__main__`: interactive menus and thread launches.
- Keyboard listener and threads (`listenser`, `start_listenser_thread`, the `threading.Thread` launches): the interleaving is replaced by the event lists delivered before each check. Only interleavings in which the other threads act between two flag checks are represented.
- Camera, detector and the client's `Car` proxy are not part of this model. Labels and boxes are inputs. A client `Car` call is taken to act as the server `Car` method of the same name.
- `time.sleep` delays (including the 2 s start-up of `demo_line_tracking` and the 2 s settle of each sweep pose) and every `print`.
- `random.uniform` draws are inputs, with their range as a precondition: [0.25, 1.0] for `demo_cruising`, [0.25, 1.5] for `Cruising`.
- `KeyboardInterrupt` handlers: the stop or clean-up made on Ctrl-C is not modelled.
- Every `while True` loop runs over a finite list of inputs. When the inputs run out, the loop's specification reports where it stands (`ended` false, or `stalled` for the coarse lock), a state the source never reaches; the demos then issue nothing further.
- The `for i in range(1)` around the detection in the approach runs exactly once, so it is not written as a loop.
- `Demos.MoveStepFindObject1Thread`: the turn back and the approach are stated only when the coarse lock ends on a flag. A lock whose inputs run out is a horizon artefact of this model, not a source behaviour.

## Findings

| source | as written | input that shows it | evidently intended | confidence | as-written member | corrected member |
|---|---|---|---|---|---|---|
| server/thinkland_rpi_car.py:489-491 | a successful measurement returns `str(distance)`, which `obstacle_status_from_ultrasound` then compares with `<= 20`; in Python 3 that raises TypeError, so only the fault codes -2 and -3 get a status | a measured 35.0 cm | return the number, so that 35.0 classifies as approaching_obstacle by the thresholds 20 and 50 | not executed | Sensing.UltrasoundStatusAsWritten (Sensing.MeasuredDistanceGetsNoStatus) | Sensing.UltrasoundStatusOf |
| client/thinkland_rpi_demo_move_find_object.py:375-381 | the approach's stop test compares the value of `distance_from_obstacle`, which is the text of a measured distance, with `0 < distance_to_obstacle`; in Python 3 that raises TypeError before the infrared status is looked at, so the approach thread dies at its first measured distance | a measured 12.0 cm with a clear infrared pair | compare the numeric distance, so that 12.0 ends the approach | not executed | Approach.ApproachDoneAsWritten (Approach.MeasuredDistanceNeverEndsApproach) | Approach.ApproachDone (Approach.ApproachDoneCases) |
