// The entry points of client/thinkland_rpi_demo_move_find_object.py that
// put the loops together: each builds its Car, aims the camera, and runs its
// loops in order, sharing the flags with the watcher and the key listener.
// Connecting to the car, the camera and the detector is left out; every
// loop runs over the inputs given to it.

module Demos {
  import opened Motion
  import opened Signals
  import opened Cruise
  import opened Search
  import opened Approach

  /** demo_move_find_object: aim the camera, then cruise at speed 6 until the
      watcher spots a cup or a stop is requested. */
  method DemoMoveFindObject(flags: SharedFlags, vAngle: int, hAngle: int, rounds: seq<CruiseRound>)
    returns (car: Car)
    requires SpinsInRange(rounds)
    modifies flags
    ensures car.Valid()
    ensures car.log == [TiltCamera(vAngle), PanCamera(hAngle)] + CruiseRun(old(flags.State()), rounds, 6.0).trace
    ensures flags.State() == CruiseRun(old(flags.State()), rounds, 6.0).flags
  {
    car := new Car();
    car.TurnServoCameraVertical(vAngle);
    car.TurnServoCameraHorizontal(hAngle);
    var _ := Cruising(car, flags, 6.0, rounds);
  }

  /** demo_step_find_object: aim the camera, then the step loop, which leaves
      a stop request without stopping the wheels. */
  method DemoStepFindObject(flags: SharedFlags, wanted: string, speed: real, dis: real, vAngle: int, hAngle: int,
                            rounds: seq<StepRound>)
    returns (car: Car)
    requires SweepsComplete(rounds)
    modifies flags
    ensures car.Valid()
    ensures car.log == [TiltCamera(vAngle), PanCamera(hAngle)] +
                       StepRun(old(flags.State()), rounds, wanted, speed, dis, false).trace
    ensures flags.State() == StepRun(old(flags.State()), rounds, wanted, speed, dis, false).flags
  {
    car := new Car();
    car.TurnServoCameraVertical(vAngle);
    car.TurnServoCameraHorizontal(hAngle);
    var _ := StepFindObject(car, flags, wanted, speed, dis, false, rounds);
  }

  /** demo_move_step_find_object: cruise at speed 4 until Cruising leaves,
      aim the camera again, then the step loop, which stops the wheels on a
      stop request.  When the cruise rounds run out first, nothing follows. */
  method DemoMoveStepFindObject(flags: SharedFlags, wanted: string, speed: real, dis: real, vAngle: int, hAngle: int,
                                cruise: seq<CruiseRound>, rounds: seq<StepRound>)
    returns (car: Car)
    requires SpinsInRange(cruise) && SweepsComplete(rounds)
    modifies flags
    ensures car.Valid()
    ensures var c := CruiseRun(old(flags.State()), cruise, 4.0);
      !c.ended ==> car.log == [TiltCamera(vAngle), PanCamera(hAngle)] + c.trace && flags.State() == c.flags
    ensures var c := CruiseRun(old(flags.State()), cruise, 4.0);
      c.ended ==> car.log == [TiltCamera(vAngle), PanCamera(hAngle)] + c.trace +
                             [TiltCamera(vAngle), PanCamera(hAngle)] +
                             StepRun(c.flags, rounds, wanted, speed, dis, true).trace
    ensures var c := CruiseRun(old(flags.State()), cruise, 4.0);
      c.ended ==> flags.State() == StepRun(c.flags, rounds, wanted, speed, dis, true).flags
  {
    ghost var c := CruiseRun(flags.State(), cruise, 4.0);
    car := new Car();
    car.TurnServoCameraVertical(vAngle);
    car.TurnServoCameraHorizontal(hAngle);
    ghost var aimed := car.log;
    assert aimed == [TiltCamera(vAngle), PanCamera(hAngle)];
    var ended := Cruising(car, flags, 4.0, cruise);
    assert car.log == aimed + c.trace && flags.State() == c.flags && ended == c.ended;
    if !ended {
      return;
    }
    ghost var s := StepRun(c.flags, rounds, wanted, speed, dis, true);
    ghost var cruised := car.log;
    car.TurnServoCameraVertical(vAngle);
    car.TurnServoCameraHorizontal(hAngle);
    ghost var reaimed := car.log;
    assert reaimed == cruised + [TiltCamera(vAngle), PanCamera(hAngle)];
    var _ := StepFindObject(car, flags, wanted, speed, dis, true, rounds);
    assert car.log == reaimed + s.trace;
  }

  /** move_step_find_object1_thread: aim the camera, set the cruising flag,
      the coarse lock, then a short turn back and the approach.  When the
      lock's inputs run out first, nothing follows. */
  method MoveStepFindObject1Thread(flags: SharedFlags, wanted: string, vAngle: int, hAngle: int,
                                   lock: seq<LockRound>, frames: seq<Frame>)
    returns (car: Car)
    requires LockSpinsInRange(lock) && FramesWellFormed(frames, wanted)
    modifies flags
    ensures car.Valid()
    ensures var l := LockRun(old(flags.State()).(cruising := true), lock, vAngle, hAngle);
      !l.done ==> car.log == [TiltCamera(vAngle), PanCamera(hAngle)] + l.trace && flags.State() == l.flags
    ensures var l := LockRun(old(flags.State()).(cruising := true), lock, vAngle, hAngle);
      l.done ==> car.log == [TiltCamera(vAngle), PanCamera(hAngle)] + l.trace +
                            [Move(SpinRight, 0.5, 0.5)] + ApproachRun(l.flags, frames, wanted).trace
    ensures var l := LockRun(old(flags.State()).(cruising := true), lock, vAngle, hAngle);
      l.done ==> flags.State() == ApproachRun(l.flags, frames, wanted).flags
  {
    ghost var l := LockRun(flags.State().(cruising := true), lock, vAngle, hAngle);
    car := new Car();
    car.TurnServoCameraVertical(vAngle);
    car.TurnServoCameraHorizontal(hAngle);
    ghost var aimed := car.log;
    assert aimed == [TiltCamera(vAngle), PanCamera(hAngle)];
    flags.ResumeCruising();
    var done, stalled := CoarseLock(car, flags, vAngle, hAngle, lock);
    assert car.log == aimed + l.trace && flags.State() == l.flags && done == l.done;
    if !done {
      return;
    }
    ghost var a := ApproachRun(l.flags, frames, wanted);
    car.SpinRight(0.5, 0.5);
    ghost var turned := car.log;
    var _ := ApproachLoop(car, flags, wanted, frames);
    assert car.log == turned + a.trace;
  }
}
