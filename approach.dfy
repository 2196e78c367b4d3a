// The final phase of move_step_find_object1_thread in
// client/thinkland_rpi_demo_move_find_object.py: the coarse lock (cruise until
// the object is spotted, then spin slowly until it is spotted again) and the
// approach (steer towards the detected box and creep forward until close).
// Detections, ranges, infrared readings and clock readings are inputs.

module Approach {
  import opened Motion
  import opened Sensing
  import opened Signals
  import opened Cruise

  // ---------------------------------------------------------------------------
  // Centroid and steering

  /** A detection box as the detector reports it: x, y, width, height.  Only
      x and y are read. */
  datatype Box = Box(x: real, y: real, w: real, h: real)

  /** names.index(item): the position of the first occurrence. */
  function IndexOf(names: seq<string>, wanted: string): (i: nat)
    requires wanted in names
    ensures i < |names| && names[i] == wanted
    ensures forall k :: 0 <= k < i ==> names[k] != wanted
  {
    if names[0] == wanted then 0 else 1 + IndexOf(names[1..], wanted)
  }

  function Sum(ds: seq<real>): real
    decreases |ds|
  {
    if ds == [] then 0.0 else Sum(ds[..|ds| - 1]) + ds[|ds| - 1]
  }

  /** A sum of copies of one value is that many times the value. */
  lemma {:induction false} SumOfCopies(ds: seq<real>, v: real)
    requires forall i :: 0 <= i < |ds| ==> ds[i] == v
    ensures Sum(ds) == |ds| as real * v
    decreases |ds|
  {
    if ds != [] {
      SumOfCopies(ds[..|ds| - 1], v);
    }
  }

  /** The mean of copies of one value is the value. */
  lemma MeanOfCopies(ds: seq<real>, v: real)
    requires ds != [] && forall i :: 0 <= i < |ds| ==> ds[i] == v
    ensures Sum(ds) / |ds| as real == v
  {
    SumOfCopies(ds, v);
  }

  /** `for d in ds: total = total + d` */
  method Total(ds: seq<real>) returns (total: real)
    ensures total == Sum(ds)
  {
    total := 0.0;
    var i := 0;
    while i < |ds|
      invariant 0 <= i <= |ds| && total == Sum(ds[..i])
    {
      assert ds[..i + 1][..i] == ds[..i];
      total := total + ds[i];
      i := i + 1;
    }
    assert ds[..i] == ds;
  }

  /** Where the approach aims: the first box labelled `wanted`, or x = 320,
      y = 0 when there is none. */
  function Aim(names: seq<string>, boxes: seq<Box>, wanted: string): (xy: (real, real))
    requires wanted in names ==> IndexOf(names, wanted) < |boxes|
  {
    if wanted in names then (boxes[IndexOf(names, wanted)].x, boxes[IndexOf(names, wanted)].y)
    else (320.0, 0.0)
  }

  /** The centroid of one frame as the source computes it: every label equal
      to `wanted` appends the box at names.index(item), which is always the
      first match, and the collected values are averaged; so the mean is the
      first matching box, and the defaults hold when nothing matches. */
  method Centroid(names: seq<string>, boxes: seq<Box>, wanted: string) returns (x1: real, y1: real)
    requires wanted in names ==> IndexOf(names, wanted) < |boxes|
    ensures (x1, y1) == Aim(names, boxes, wanted)
  {
    var ys: seq<real> := [];
    var xs: seq<real> := [];
    x1, y1 := 320.0, 0.0;
    var j := 0;
    while j < |names|
      invariant 0 <= j <= |names| && |xs| == |ys|
      invariant (|xs| > 0) == (wanted in names[..j])
      invariant forall i :: 0 <= i < |xs| ==> xs[i] == boxes[IndexOf(names, wanted)].x
      invariant forall i :: 0 <= i < |ys| ==> ys[i] == boxes[IndexOf(names, wanted)].y
    {
      assert names[..j + 1] == names[..j] + [names[j]];
      if names[j] == wanted {
        var id := IndexOf(names, wanted);
        ys := ys + [boxes[id].y];
        xs := xs + [boxes[id].x];
      }
      j := j + 1;
    }
    assert names[..j] == names;
    var ysum := Total(ys);
    if |ys| > 0 {
      MeanOfCopies(ys, boxes[IndexOf(names, wanted)].y);
      y1 := ysum / |ys| as real;
    }
    var xsum := Total(xs);
    if |xs| > 0 {
      MeanOfCopies(xs, boxes[IndexOf(names, wanted)].x);
      x1 := xsum / |xs| as real;
    }
  }

  /** Steering towards the aim point: right of 360 turns right, left of 200
      turns left, both briefly at speed 4; never both. */
  function SteerCommands(x1: real): (cs: seq<Command>)
    ensures x1 > 360.0 <==> cs == [Move(TurnRight, 4.0, 0.1)]
    ensures x1 < 200.0 <==> cs == [Move(TurnLeft, 4.0, 0.1)]
    ensures 200.0 <= x1 <= 360.0 <==> cs == []
  {
    if x1 > 360.0 then [Move(TurnRight, 4.0, 0.1)]
    else if x1 < 200.0 then [Move(TurnLeft, 4.0, 0.1)]
    else []
  }

  /** The approach ends when the range is positive and under 20 or the
      infrared pair is not clear. */
  function ApproachDone(distance: real, ir: InfraredStatus): bool {
    (0.0 < distance && distance < 20.0) || ir != Clear
  }

  /** The approach never ends on a fault code, nor on a range of 20 or more,
      while the infrared pair is clear; an infrared block ends it whatever
      the range says. */
  lemma ApproachDoneCases(distance: real, ir: InfraredStatus)
    ensures ir == Clear ==> !ApproachDone(EchoStuckHigh, ir) && !ApproachDone(EchoTimeout, ir)
    ensures distance >= 20.0 ==> (ApproachDone(distance, ir) <==> ir != Clear)
    ensures ir != Clear ==> ApproachDone(distance, ir)
  {
  }

  // ---------------------------------------------------------------------------
  // The approach loop

  /** One pass of the approach loop: the other threads' events before its
      stop check, the detections of the picture, and the two sensor reads. */
  datatype Frame = Frame(env: seq<SignalEvent>, names: seq<string>, boxes: seq<Box>,
                         distance: real, leftClear: bool, rightClear: bool)

  predicate FrameWellFormed(fr: Frame, wanted: string) {
    wanted in fr.names ==> IndexOf(fr.names, wanted) < |fr.boxes|
  }

  predicate FramesWellFormed(frames: seq<Frame>, wanted: string) {
    forall i :: 0 <= i < |frames| ==> FrameWellFormed(frames[i], wanted)
  }

  /** The commands of one approach pass after its stop check. */
  function ApproachPass(fr: Frame, wanted: string): (cs: seq<Command>)
    requires FrameWellFormed(fr, wanted)
    // the creep forward is always the last command, after at most one steer
    ensures 1 <= |cs| <= 2 && cs[|cs| - 1] == Move(Forward, 4.0, 0.2)
    ensures cs[..|cs| - 1] == SteerCommands(Aim(fr.names, fr.boxes, wanted).0)
  {
    SteerCommands(Aim(fr.names, fr.boxes, wanted).0) + [Move(Forward, 4.0, 0.2)]
  }

  datatype ApproachOutcome = ApproachOutcome(flags: Flags, trace: seq<Command>, ended: bool)

  /** One pass of the approach loop after the outcome o of the earlier ones. */
  function ApproachStepOf(o: ApproachOutcome, fr: Frame, wanted: string): ApproachOutcome
    requires FrameWellFormed(fr, wanted)
  {
    if o.ended then o
    else
      var g := AfterEvents(o.flags, fr.env);
      if g.stopRequested then ApproachOutcome(g, o.trace + [StopWheels], true)
      else ApproachOutcome(g, o.trace + ApproachPass(fr, wanted),
                           ApproachDone(fr.distance, InfraredStatusOf(fr.leftClear, fr.rightClear)))
  }

  /** The approach loop over the frames given, oldest first. */
  function ApproachRun(f: Flags, frames: seq<Frame>, wanted: string): ApproachOutcome
    requires FramesWellFormed(frames, wanted)
    decreases |frames|
  {
    if frames == [] then ApproachOutcome(f, [], false)
    else ApproachStepOf(ApproachRun(f, frames[..|frames| - 1], wanted), frames[|frames| - 1], wanted)
  }

  /** The approach over one more frame is one more step. */
  lemma ApproachRunSnoc(f: Flags, frames: seq<Frame>, wanted: string, k: nat)
    requires FramesWellFormed(frames, wanted) && k < |frames|
    ensures FramesWellFormed(frames[..k], wanted) && FrameWellFormed(frames[k], wanted)
    ensures ApproachRun(f, frames[..k + 1], wanted) == ApproachStepOf(ApproachRun(f, frames[..k], wanted), frames[k], wanted)
  {
    assert frames[..k + 1][..k] == frames[..k];
  }

  lemma {:induction false} ApproachEndedIsFinal(f: Flags, frames: seq<Frame>, wanted: string, k: nat)
    requires FramesWellFormed(frames, wanted) && k <= |frames|
    requires ApproachRun(f, frames[..k], wanted).ended
    ensures ApproachRun(f, frames, wanted) == ApproachRun(f, frames[..k], wanted)
    decreases |frames|
  {
    if k < |frames| {
      var init := frames[..|frames| - 1];
      assert init[..k] == frames[..k];
      ApproachEndedIsFinal(f, init, wanted, k);
    } else {
      assert frames[..k] == frames;
    }
  }

  /** Every pass that gets past the stop check creeps forward before its stop
      test, so the approach stops the wheels only on a stop request: while it
      runs, or when it ends close to the object, its last command is the creep. */
  lemma {:induction false} ApproachAlwaysCreeps(f: Flags, frames: seq<Frame>, wanted: string)
    requires FramesWellFormed(frames, wanted)
    ensures var o := ApproachRun(f, frames, wanted);
      (o.trace != [] && !o.flags.stopRequested ==> o.trace[|o.trace| - 1] == Move(Forward, 4.0, 0.2)) &&
      (o.ended && !o.flags.stopRequested ==> o.trace != [])
    decreases |frames|
  {
    if frames != [] {
      var init := frames[..|frames| - 1];
      ApproachAlwaysCreeps(f, init, wanted);
      var o := ApproachRun(f, init, wanted);
      if o.ended && o.flags.stopRequested {
        assert ApproachRun(f, frames, wanted) == o;
      }
    }
  }

  /** A stop request found at a reached frame's check stops the wheels and
      ends the approach, with nothing else issued. */
  lemma ApproachHonoursStop(f: Flags, frames: seq<Frame>, wanted: string, k: nat)
    requires FramesWellFormed(frames, wanted) && k < |frames|
    requires !ApproachRun(f, frames[..k], wanted).ended
    requires AfterEvents(ApproachRun(f, frames[..k], wanted).flags, frames[k].env).stopRequested
    ensures var o := ApproachRun(f, frames[..k + 1], wanted);
      o.ended && o.flags.stopRequested && o.trace == ApproachRun(f, frames[..k], wanted).trace + [StopWheels]
    ensures ApproachRun(f, frames, wanted) == ApproachRun(f, frames[..k + 1], wanted)
  {
    assert frames[..k + 1][..k] == frames[..k];
    ApproachEndedIsFinal(f, frames, wanted, k + 1);
  }

  /** A pass that is reached and gets past its stop check steers, creeps,
      and ends the approach exactly when its frame shows the object close or
      an infrared block. */
  lemma ApproachStopsWhenClose(f: Flags, frames: seq<Frame>, wanted: string, k: nat)
    requires FramesWellFormed(frames, wanted) && k < |frames|
    requires !ApproachRun(f, frames[..k], wanted).ended
    requires !AfterEvents(ApproachRun(f, frames[..k], wanted).flags, frames[k].env).stopRequested
    ensures var o := ApproachRun(f, frames[..k + 1], wanted);
      o.trace == ApproachRun(f, frames[..k], wanted).trace + ApproachPass(frames[k], wanted) &&
      (o.ended <==> ApproachDone(frames[k].distance, InfraredStatusOf(frames[k].leftClear, frames[k].rightClear)))
  {
    assert frames[..k + 1][..k] == frames[..k];
  }

  /** The approach's stop test as written, on what distance_from_obstacle
      returns: `0 < distance` is evaluated first and raises TypeError in
      Python 3 when the distance is text, shown here as None, whatever the
      infrared pair says.  Only the fault codes reach a decision. */
  function ApproachDoneAsWritten(r: RangeReading, ir: InfraredStatus): (done: Option<bool>)
    ensures done.None? <==> r.DistanceText?
    ensures r.FaultCode? ==> done == Some(ApproachDone(r.code as real, ir))
  {
    match r
    case FaultCode(code) => Some((0 < code && code < 20) || ir != Clear)
    case DistanceText(_) => None
  }

  /** A measured 12 cm with a clear infrared pair: the test as written fails
      where the numeric test ends the approach. */
  lemma MeasuredDistanceNeverEndsApproach()
    ensures ApproachDoneAsWritten(DistanceText("12.0"), Clear) == None
    ensures ApproachDone(12.0, Clear)
  {
  }

  /** The two steering tests of an approach pass. */
  method Steer(car: Car, x1: real)
    requires car.Valid()
    modifies car
    ensures car.Valid() && car.log == old(car.log) + SteerCommands(x1)
  {
    if x1 > 360.0 {
      car.TurnRight(4.0, 0.1);
    }
    if x1 < 200.0 {
      car.TurnLeft(4.0, 0.1);
    }
  }

  /** One approach pass after the stop check, as the source writes it. */
  method ApproachStep(car: Car, fr: Frame, wanted: string) returns (done: bool)
    requires car.Valid() && FrameWellFormed(fr, wanted)
    modifies car
    ensures car.Valid() && car.log == old(car.log) + ApproachPass(fr, wanted)
    ensures done == ApproachDone(fr.distance, InfraredStatusOf(fr.leftClear, fr.rightClear))
  {
    var x1, y1 := Centroid(fr.names, fr.boxes, wanted);
    Steer(car, x1);
    var distance := fr.distance;
    var obstacle := InfraredStatusOf(fr.leftClear, fr.rightClear);
    car.RunForward(4.0, 0.2);
    done := (0.0 < distance && distance < 20.0) || obstacle != Clear;
  }

  /** One pass of the approach loop: its stop check, then the pass itself. */
  method ApproachOnce(car: Car, flags: SharedFlags, wanted: string, fr: Frame, ghost o: ApproachOutcome,
                      ghost base: seq<Command>)
    returns (ended: bool)
    requires car.Valid() && FrameWellFormed(fr, wanted)
    requires !o.ended && flags.State() == o.flags && car.log == base + o.trace
    modifies car, flags
    ensures car.Valid()
    ensures var n := ApproachStepOf(o, fr, wanted);
      car.log == base + n.trace && flags.State() == n.flags && ended == n.ended
  {
    flags.Deliver(fr.env);
    if flags.stopRequested {
      car.StopAllWheels();
      AppendAssoc(base, o.trace, [StopWheels]);
      return true;
    }
    ended := ApproachStep(car, fr, wanted);
    AppendAssoc(base, o.trace, ApproachPass(fr, wanted));
  }

  /** The approach loop (the final `while True`). */
  method ApproachLoop(car: Car, flags: SharedFlags, wanted: string, frames: seq<Frame>) returns (ended: bool)
    requires car.Valid() && FramesWellFormed(frames, wanted)
    modifies car, flags
    ensures car.Valid()
    ensures var o := ApproachRun(old(flags.State()), frames, wanted);
      car.log == old(car.log) + o.trace && flags.State() == o.flags && ended == o.ended
  {
    ghost var f0 := flags.State();
    var k := 0;
    while k < |frames|
      invariant 0 <= k <= |frames| && car.Valid()
      invariant var o := ApproachRun(f0, frames[..k], wanted);
        !o.ended && o.flags == flags.State() && car.log == old(car.log) + o.trace
    {
      ApproachRunSnoc(f0, frames, wanted, k);
      ended := ApproachOnce(car, flags, wanted, frames[k], ApproachRun(f0, frames[..k], wanted), old(car.log));
      if ended {
        ApproachEndedIsFinal(f0, frames, wanted, k + 1);
        return;
      }
      k := k + 1;
    }
    assert frames[..k] == frames;
    return false;
  }

  // ---------------------------------------------------------------------------
  // The coarse lock

  /** The timeout test of the spin search as written: start_time - end_time
      > 5, which asks for the clock to have gone back by 5 seconds. */
  function LockTimedOutAsWritten(start: real, end: real): bool {
    start - end > 5.0
  }

  /** The evidently intended test: more than 5 seconds have passed. */
  function LockTimedOut(start: real, end: real): bool {
    end - start > 5.0
  }

  /** With a clock that does not go back, the written test never fires, and
      the intended one fires once more than 5 seconds have passed. */
  lemma TimeoutTests(start: real, end: real)
    requires start <= end
    ensures !LockTimedOutAsWritten(start, end)
    ensures LockTimedOut(start, end) <==> end > start + 5.0
  {
  }

  /** One pass of the spin search: the other threads' events before its
      check, and the clock read after the spin. */
  datatype SpinTick = SpinTick(env: seq<SignalEvent>, clock: real)

  datatype SpinExit = SpinFlags | SpinTimeout

  /** exit: None while the loop still runs, else why it left. */
  datatype SpinOutcome = SpinOutcome(flags: Flags, trace: seq<Command>, exit: Option<SpinExit>)

  /** Both flags allow the search to go on: cruising set and no stop. */
  predicate Searching(f: Flags) {
    f.cruising && !f.stopRequested
  }

  /** One tick of the spin: the check, then a spin and the clock test. */
  function SpinStep(o: SpinOutcome, t: SpinTick, start: real): SpinOutcome {
    if o.exit.Some? then o
    else
      var g := AfterEvents(o.flags, t.env);
      if !Searching(g) then SpinOutcome(g, o.trace, Some(SpinFlags))
      else SpinOutcome(g, o.trace + [Move(SpinLeft, 1.0, 0.3)],
                       if LockTimedOutAsWritten(start, t.clock) then Some(SpinTimeout) else None)
  }

  /** The spin search (the inner loop of the coarse lock) over the ticks
      given, started at clock reading `start`, with the timeout as written. */
  function SpinRun(f: Flags, start: real, ticks: seq<SpinTick>): SpinOutcome
    decreases |ticks|
  {
    if ticks == [] then SpinOutcome(f, [], None)
    else SpinStep(SpinRun(f, start, ticks[..|ticks| - 1]), ticks[|ticks| - 1], start)
  }

  lemma {:induction false} SpinEndedIsFinal(f: Flags, start: real, ticks: seq<SpinTick>, k: nat)
    requires k <= |ticks| && SpinRun(f, start, ticks[..k]).exit.Some?
    ensures SpinRun(f, start, ticks) == SpinRun(f, start, ticks[..k])
    decreases |ticks|
  {
    if k < |ticks| {
      var init := ticks[..|ticks| - 1];
      assert init[..k] == ticks[..k];
      SpinEndedIsFinal(f, start, init, k);
    } else {
      assert ticks[..k] == ticks;
    }
  }

  predicate ClockFrom(start: real, ticks: seq<SpinTick>) {
    forall i :: 0 <= i < |ticks| ==> start <= ticks[i].clock
  }

  /** With a clock that does not go back, the spin search never times out:
      it leaves only when a flag stops it, and it spins only while searching. */
  lemma {:induction false} SpinNeverTimesOut(f: Flags, start: real, ticks: seq<SpinTick>)
    requires ClockFrom(start, ticks)
    ensures var o := SpinRun(f, start, ticks);
      o.exit != Some(SpinTimeout) && (o.exit == Some(SpinFlags) ==> !Searching(o.flags)) &&
      (ticks != [] && o.exit.None? ==> Searching(o.flags))
    decreases |ticks|
  {
    if ticks != [] {
      SpinNeverTimesOut(f, start, ticks[..|ticks| - 1]);
    }
  }

  /** One round of the coarse lock: the other threads' events before its
      check, the rounds Cruising(car, 10) runs, and the clock at the start of
      the spin search with the ticks of that search. */
  datatype LockRound = LockRound(env: seq<SignalEvent>, cruise: seq<CruiseRound>, start: real, spins: seq<SpinTick>)

  predicate LockSpinsInRange(rounds: seq<LockRound>) {
    forall i :: 0 <= i < |rounds| ==> SpinsInRange(rounds[i].cruise)
  }

  /** done: the loop condition failed; stalled: the inputs ran out inside
      Cruising or the spin search. */
  datatype LockOutcome = LockOutcome(flags: Flags, trace: seq<Command>, done: bool, stalled: bool)

  /** A round of the coarse lock after its check: cruise until Cruising
      leaves, re-aim the camera, set the cruising flag again, spin search. */
  function LockPass(g: Flags, r: LockRound, vAngle: int, hAngle: int): LockOutcome {
    var c := CruiseRun(g, r.cruise, 10.0);
    if !c.ended then LockOutcome(c.flags, c.trace, false, true)
    else
      var sp := SpinRun(c.flags.(cruising := true), r.start, r.spins);
      LockOutcome(sp.flags, c.trace + [TiltCamera(vAngle), PanCamera(hAngle)] + sp.trace, false, sp.exit.None?)
  }

  /** One round of the coarse lock: the check, then the pass. */
  function LockRoundStep(o: LockOutcome, r: LockRound, vAngle: int, hAngle: int): LockOutcome {
    if o.done || o.stalled then o
    else
      var g := AfterEvents(o.flags, r.env);
      if !Searching(g) then LockOutcome(g, o.trace, true, false)
      else
        var p := LockPass(g, r, vAngle, hAngle);
        LockOutcome(p.flags, o.trace + p.trace, false, p.stalled)
  }

  /** The coarse lock over the rounds given. */
  function LockRun(f: Flags, rounds: seq<LockRound>, vAngle: int, hAngle: int): LockOutcome
    decreases |rounds|
  {
    if rounds == [] then LockOutcome(f, [], false, false)
    else LockRoundStep(LockRun(f, rounds[..|rounds| - 1], vAngle, hAngle), rounds[|rounds| - 1], vAngle, hAngle)
  }

  lemma {:induction false} LockEndedIsFinal(f: Flags, rounds: seq<LockRound>, vAngle: int, hAngle: int, k: nat)
    requires k <= |rounds|
    requires LockRun(f, rounds[..k], vAngle, hAngle).done || LockRun(f, rounds[..k], vAngle, hAngle).stalled
    ensures LockRun(f, rounds, vAngle, hAngle) == LockRun(f, rounds[..k], vAngle, hAngle)
    decreases |rounds|
  {
    if k < |rounds| {
      var init := rounds[..|rounds| - 1];
      assert init[..k] == rounds[..k];
      LockEndedIsFinal(f, init, vAngle, hAngle, k);
    } else {
      assert rounds[..k] == rounds;
    }
  }

  predicate LockClocksFrom(rounds: seq<LockRound>) {
    forall i :: 0 <= i < |rounds| ==> ClockFrom(rounds[i].start, rounds[i].spins)
  }

  /** The coarse lock leaves only when a flag stops it.  With a clock that
      does not go back, a round that finishes its spin search leaves the flags
      stopping the loop, and since the other threads can neither withdraw a
      stop nor set the cruising flag again, the next check ends the lock:
      Cruising runs in one round only. */
  lemma LockRunsOnce(f: Flags, rounds: seq<LockRound>, vAngle: int, hAngle: int)
    requires |rounds| >= 2 && LockClocksFrom(rounds)
    requires !LockRun(f, rounds[..1], vAngle, hAngle).stalled
    ensures LockRun(f, rounds, vAngle, hAngle).done
    ensures LockRun(f, rounds, vAngle, hAngle) == LockRun(f, rounds[..2], vAngle, hAngle)
  {
    var one := rounds[..1];
    assert one[..0] == [] && one[0] == rounds[0];
    assert rounds[..2][..1] == one;
    var o := LockRun(f, one, vAngle, hAngle);
    if !o.done {
      var g := AfterEvents(f, rounds[0].env);
      assert LockRun(f, one[..0], vAngle, hAngle) == LockOutcome(f, [], false, false);
      assert o == LockOutcome(LockPass(g, rounds[0], vAngle, hAngle).flags, LockPass(g, rounds[0], vAngle, hAngle).trace,
                              false, LockPass(g, rounds[0], vAngle, hAngle).stalled);
      var c := CruiseRun(g, rounds[0].cruise, 10.0);
      var sp := SpinRun(c.flags.(cruising := true), rounds[0].start, rounds[0].spins);
      assert ClockFrom(rounds[0].start, rounds[0].spins);
      SpinNeverTimesOut(c.flags.(cruising := true), rounds[0].start, rounds[0].spins);
      assert c.ended;
      assert o.flags == sp.flags && o.stalled == sp.exit.None?;
      assert sp.exit.Some? && sp.exit.value != SpinTimeout;
      assert sp.exit.value.SpinFlags?;
      assert !Searching(o.flags);
      EventsOnlyLatch(o.flags, rounds[1].env);
      assert !Searching(AfterEvents(o.flags, rounds[1].env));
      assert LockRun(f, rounds[..2], vAngle, hAngle).done;
    }
    LockEndedIsFinal(f, rounds, vAngle, hAngle, 2);
  }

  /** One tick of the spin loop, while the spin has not ended. */
  method SpinOnce(car: Car, flags: SharedFlags, start: real, t: SpinTick, ghost o: SpinOutcome, ghost base: seq<Command>)
    returns (exit: Option<SpinExit>)
    requires car.Valid() && o.exit.None? && flags.State() == o.flags && car.log == base + o.trace
    modifies car, flags
    ensures car.Valid()
    ensures var n := SpinStep(o, t, start);
      car.log == base + n.trace && flags.State() == n.flags && exit == n.exit
  {
    flags.Deliver(t.env);
    if !(flags.cruising && !flags.stopRequested) {
      return Some(SpinFlags);
    }
    car.SpinLeft(1.0, 0.3);
    var end := t.clock;
    if start - end > 5.0 {
      return Some(SpinTimeout);
    }
    return None;
  }

  /** The spin search, as the source writes it. */
  method SpinSearch(car: Car, flags: SharedFlags, start: real, ticks: seq<SpinTick>) returns (exit: Option<SpinExit>)
    requires car.Valid()
    modifies car, flags
    ensures car.Valid()
    ensures var o := SpinRun(old(flags.State()), start, ticks);
      car.log == old(car.log) + o.trace && flags.State() == o.flags && exit == o.exit
  {
    ghost var f0 := flags.State();
    var k := 0;
    while k < |ticks|
      invariant 0 <= k <= |ticks| && car.Valid()
      invariant var o := SpinRun(f0, start, ticks[..k]);
        o.exit.None? && o.flags == flags.State() && car.log == old(car.log) + o.trace
    {
      assert ticks[..k + 1][..k] == ticks[..k];
      exit := SpinOnce(car, flags, start, ticks[k], SpinRun(f0, start, ticks[..k]), old(car.log));
      if exit.Some? {
        SpinEndedIsFinal(f0, start, ticks, k + 1);
        return;
      }
      k := k + 1;
    }
    assert ticks[..k] == ticks;
    return None;
  }

  /** A round of the coarse lock after its check, as the source writes it. */
  method LockStep(car: Car, flags: SharedFlags, vAngle: int, hAngle: int, r: LockRound) returns (stalled: bool)
    requires car.Valid() && SpinsInRange(r.cruise)
    modifies car, flags
    ensures car.Valid()
    ensures var p := LockPass(old(flags.State()), r, vAngle, hAngle);
      car.log == old(car.log) + p.trace && flags.State() == p.flags && stalled == p.stalled
  {
    var ended := Cruising(car, flags, 10.0, r.cruise);
    if !ended {
      return true;
    }
    ghost var cruised := car.log;
    car.TurnServoCameraVertical(vAngle);
    car.TurnServoCameraHorizontal(hAngle);
    flags.ResumeCruising();
    var exit := SpinSearch(car, flags, r.start, r.spins);
    ghost var c := CruiseRun(old(flags.State()), r.cruise, 10.0);
    ghost var sp := SpinRun(c.flags.(cruising := true), r.start, r.spins);
    AppendAssoc(old(car.log), c.trace + [TiltCamera(vAngle), PanCamera(hAngle)], sp.trace);
    AppendAssoc(old(car.log), c.trace, [TiltCamera(vAngle), PanCamera(hAngle)]);
    return exit.None?;
  }

  /** One round of the coarse lock loop, while the lock has not ended. */
  method LockOnce(car: Car, flags: SharedFlags, vAngle: int, hAngle: int, r: LockRound,
                  ghost o: LockOutcome, ghost base: seq<Command>)
    returns (done: bool, stalled: bool)
    requires car.Valid() && SpinsInRange(r.cruise)
    requires !o.done && !o.stalled && flags.State() == o.flags && car.log == base + o.trace
    modifies car, flags
    ensures car.Valid()
    ensures var n := LockRoundStep(o, r, vAngle, hAngle);
      car.log == base + n.trace && flags.State() == n.flags && done == n.done && stalled == n.stalled
  {
    flags.Deliver(r.env);
    if !(flags.cruising && !flags.stopRequested) {
      return true, false;
    }
    ghost var g := flags.State();
    stalled := LockStep(car, flags, vAngle, hAngle, r);
    AppendAssoc(base, o.trace, LockPass(g, r, vAngle, hAngle).trace);
    return false, stalled;
  }

  /** The coarse lock: `while CRUSING_FLOG and not STOP_FLAGE`. */
  method CoarseLock(car: Car, flags: SharedFlags, vAngle: int, hAngle: int, rounds: seq<LockRound>)
    returns (done: bool, stalled: bool)
    requires car.Valid() && LockSpinsInRange(rounds)
    modifies car, flags
    ensures car.Valid()
    ensures var o := LockRun(old(flags.State()), rounds, vAngle, hAngle);
      car.log == old(car.log) + o.trace && flags.State() == o.flags && done == o.done && stalled == o.stalled
  {
    ghost var f0 := flags.State();
    var k := 0;
    while k < |rounds|
      invariant 0 <= k <= |rounds| && car.Valid()
      invariant var o := LockRun(f0, rounds[..k], vAngle, hAngle);
        !o.done && !o.stalled && o.flags == flags.State() && car.log == old(car.log) + o.trace
    {
      assert rounds[..k + 1][..k] == rounds[..k];
      done, stalled := LockOnce(car, flags, vAngle, hAngle, rounds[k], LockRun(f0, rounds[..k], vAngle, hAngle), old(car.log));
      if done || stalled {
        LockEndedIsFinal(f0, rounds, vAngle, hAngle, k + 1);
        return;
      }
      k := k + 1;
    }
    assert rounds[..k] == rounds;
    return false, false;
  }
}
