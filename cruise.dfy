// The obstacle-avoiding and line-following loops: demo_cruising and
// demo_line_tracking of server/thinkland_rpi_car.py, and Cruising of
// client/thinkland_rpi_demo_move_find_object.py.  Each `while True` loop is
// run over a finite list of sensor readings; random spin durations are part
// of the readings.

module Cruise {
  import opened Motion
  import opened Sensing
  import opened Signals

  /** What one pass of a cruising loop reads: the two infrared channels (true
      when clear), the ultrasonic range, and the spin duration drawn by
      random.uniform for that pass. */
  datatype Reading = Reading(leftClear: bool, rightClear: bool, distance: real, spin: real)

  function SpinKind(ir: InfraredStatus): MotionKind {
    if ir == OnlyRightBlocked then SpinLeft else SpinRight
  }

  /** The LED colour demo_cruising shows while turning away. */
  function TurnColour(ir: InfraredStatus): string {
    if ir == OnlyRightBlocked then "purple"
    else if ir == OnlyLeftBlocked then "cyan"
    else "red"
  }

  // ---------------------------------------------------------------------------
  // demo_cruising (server)

  /** The commands of one pass of demo_cruising. */
  function ServerCruisePass(r: Reading): (cs: seq<Command>)
    ensures |cs| >= 2 && cs[|cs| - 1].Move?
    // the front servo is centred for ranging exactly when the infrared pair is clear
    ensures (|cs| > 0 && cs[0] == FrontServo(90)) <==> InfraredStatusOf(r.leftClear, r.rightClear) == Clear
    ensures !ShouldTurn(InfraredStatusOf(r.leftClear, r.rightClear), r.distance) ==>
      cs[|cs| - 1] == Move(Forward, if r.distance > 50.0 then 10.0 else 5.0, 0.0)
    // a turn backs off briefly, then spins away from the blocked side for the drawn time
    ensures ShouldTurn(InfraredStatusOf(r.leftClear, r.rightClear), r.distance) ==>
      |cs| >= 3 && cs[|cs| - 3] == Move(Reverse, 10.0, 0.02) &&
      cs[|cs| - 1].kind == (if InfraredStatusOf(r.leftClear, r.rightClear) == OnlyRightBlocked then SpinLeft else SpinRight) &&
      cs[|cs| - 1].speed == 10.0 && cs[|cs| - 1].duration == r.spin
    ensures StopWheels !in cs
  {
    var ir := InfraredStatusOf(r.leftClear, r.rightClear);
    var probe := if ir == Clear then [FrontServo(90)] else [];
    if !ShouldTurn(ir, r.distance) then
      if UltrasoundStatusOf(r.distance) == UsClear then probe + [Led("green"), Move(Forward, 10.0, 0.0)]
      else probe + [Led("yellow"), Move(Forward, 5.0, 0.0)]
    else
      probe + ServerTurnAway(ir, r.spin)
  }

  /** demo_cruising's turn: back off briefly, show the turn colour, spin away. */
  function ServerTurnAway(ir: InfraredStatus, spin: real): seq<Command> {
    [Move(Reverse, 10.0, 0.02), Led(TurnColour(ir)), Move(SpinKind(ir), 10.0, spin)]
  }

  /** The commands of demo_cruising over a run of readings. */
  function ServerCruiseRun(rs: seq<Reading>): seq<Command>
    decreases |rs|
  {
    if rs == [] then [] else ServerCruiseRun(rs[..|rs| - 1]) + ServerCruisePass(rs[|rs| - 1])
  }

  /** demo_cruising's look ahead: with a clear infrared pair, centre the
      front servo and read the range, showing green and driving at 10 when
      clear, yellow and 5 when approaching; shouldTurn tells whether a turn
      must follow. */
  method DemoCruisingProbe(car: Car, ir: InfraredStatus, distance: real) returns (shouldTurn: bool)
    requires car.Valid()
    modifies car
    ensures car.Valid() && shouldTurn == ShouldTurn(ir, distance)
    ensures car.log == old(car.log) + (if ir == Clear then [FrontServo(90)] else []) +
      (if shouldTurn then []
       else if UltrasoundStatusOf(distance) == UsClear then [Led("green"), Move(Forward, 10.0, 0.0)]
       else [Led("yellow"), Move(Forward, 5.0, 0.0)])
  {
    shouldTurn := true;
    if ir == Clear {
      shouldTurn := false;
      car.TurnServoUltrasonic("center", 90);
      var us := UltrasoundStatusOf(distance);
      if us == UsClear {
        car.LedLight("green");
        car.RunForward(10.0, 0.0);
      } else if us == Approaching {
        car.LedLight("yellow");
        car.RunForward(5.0, 0.0);
      } else {
        shouldTurn := true;
      }
    }
  }

  /** One pass of demo_cruising's loop, as the source writes it. */
  method DemoCruisingPass(car: Car, r: Reading)
    requires car.Valid() && 0.25 <= r.spin <= 1.0
    modifies car
    ensures car.Valid() && car.log == old(car.log) + ServerCruisePass(r)
  {
    var ir := InfraredStatusOf(r.leftClear, r.rightClear);
    var shouldTurn := DemoCruisingProbe(car, ir, r.distance);
    if shouldTurn {
      DemoCruisingTurn(car, ir, r.spin);
    }
  }

  /** The colour and the spin of demo_cruising's turn, by blocked side. */
  method SignalTurn(car: Car, ir: InfraredStatus, spin: real)
    requires car.Valid()
    modifies car
    ensures car.Valid() && car.log == old(car.log) + [Led(TurnColour(ir)), Move(SpinKind(ir), 10.0, spin)]
  {
    if ir == OnlyRightBlocked {
      car.LedLight("purple");
      car.SpinLeft(10.0, spin);
    } else if ir == OnlyLeftBlocked {
      car.LedLight("cyan");
      car.SpinRight(10.0, spin);
    } else {
      car.LedLight("red");
      car.SpinRight(10.0, spin);
    }
  }

  /** The turn of demo_cruising, as the source writes it. */
  method DemoCruisingTurn(car: Car, ir: InfraredStatus, spin: real)
    requires car.Valid()
    modifies car
    ensures car.Valid() && car.log == old(car.log) + ServerTurnAway(ir, spin)
  {
    car.RunReverse(10.0, 0.02);
    SignalTurn(car, ir, spin);
  }

  /** demo_cruising over a finite run of readings, on a freshly built car. */
  method DemoCruising(rs: seq<Reading>) returns (car: Car)
    requires forall i :: 0 <= i < |rs| ==> 0.25 <= rs[i].spin <= 1.0
    ensures fresh(car) && car.Valid() && car.log == ServerCruiseRun(rs)
  {
    car := new Car();
    var k := 0;
    while k < |rs|
      invariant 0 <= k <= |rs|
      invariant fresh(car) && car.Valid() && car.log == ServerCruiseRun(rs[..k])
    {
      assert rs[..k + 1][..k] == rs[..k];
      DemoCruisingPass(car, rs[k]);
      k := k + 1;
    }
    assert rs[..k] == rs;
  }

  // ---------------------------------------------------------------------------
  // demo_line_tracking (server)

  datatype LinePattern = LinePattern(s1: bool, s2: bool, s3: bool, s4: bool)

  function TurnOf(p: LinePattern): LineTurn {
    LineTrackingTurnType(p.s1, p.s2, p.s3, p.s4)
  }

  /** The command demo_line_tracking issues for a turn type; none for no_line. */
  function LineCommands(t: LineTurn, speed: real): (cs: seq<Command>)
    ensures cs == [] <==> t == NoLine
    ensures |cs| <= 1 && forall c :: c in cs ==> c.Move? && c.duration == 0.0
    ensures t == Straight ==> cs == [Move(Forward, speed, 0.0)]
    // smooth curves turn (one side driven), regular and sharp turns spin in place
    ensures t == SmoothLeft || t == SmoothRight ==> cs[0].kind in {TurnLeft, TurnRight}
    ensures t in {RegularLeftTurn, RegularRightTurn, SharpLeftTurn, SharpRightTurn} ==>
      cs[0].kind in {SpinLeft, SpinRight}
    // every turn heads towards the side its name says
    ensures t in {SmoothLeft, RegularLeftTurn, SharpLeftTurn} <==> cs != [] && cs[0].kind in {TurnLeft, SpinLeft}
    // only sharp turns and straight runs go at full speed; the others at three quarters
    ensures t in {SharpLeftTurn, SharpRightTurn, Straight} ==> cs[0].speed == speed
    ensures t in {SmoothLeft, SmoothRight, RegularLeftTurn, RegularRightTurn} ==> cs[0].speed == speed * 0.75
  {
    match t
    case Straight => [Move(Forward, speed, 0.0)]
    case SmoothLeft => [Move(TurnLeft, speed * 0.75, 0.0)]
    case SmoothRight => [Move(TurnRight, speed * 0.75, 0.0)]
    case RegularLeftTurn => [Move(SpinLeft, speed * 0.75, 0.0)]
    case RegularRightTurn => [Move(SpinRight, speed * 0.75, 0.0)]
    case SharpLeftTurn => [Move(SpinLeft, speed, 0.0)]
    case SharpRightTurn => [Move(SpinRight, speed, 0.0)]
    case NoLine => []
  }

  /** The commands of demo_line_tracking over a run of sensor patterns. */
  function LineTrackingRun(ps: seq<LinePattern>, speed: real): seq<Command>
    decreases |ps|
  {
    if ps == [] then []
    else LineTrackingRun(ps[..|ps| - 1], speed) + LineCommands(TurnOf(ps[|ps| - 1]), speed)
  }

  /** The most recent pattern in which some sensor saw the line. */
  function LastLineSeen(ps: seq<LinePattern>): (t: Option<LineTurn>)
    ensures t.Some? ==> t.value != NoLine
    decreases |ps|
  {
    if ps == [] then None
    else if TurnOf(ps[|ps| - 1]) != NoLine then Some(TurnOf(ps[|ps| - 1]))
    else LastLineSeen(ps[..|ps| - 1])
  }

  /** no_line maintains the previous movement: after a run of patterns the
      drivetrain runs the motion of the last turn type that saw the line, or is
      as it was when no sensor saw the line at all. */
  lemma {:induction false} LineTrackingHoldsLastMotion(w: Wheels, ps: seq<LinePattern>, speed: real)
    ensures LastLineSeen(ps).None? ==> Replay(w, LineTrackingRun(ps, speed)) == w
    ensures LastLineSeen(ps).Some? ==>
      Replay(w, LineTrackingRun(ps, speed)) == WheelsAfter(w, LineCommands(LastLineSeen(ps).value, speed)[0])
    decreases |ps|
  {
    if ps != [] {
      var init := ps[..|ps| - 1];
      var cs := LineCommands(TurnOf(ps[|ps| - 1]), speed);
      LineTrackingHoldsLastMotion(w, init, speed);
      ReplayConcat(w, LineTrackingRun(init, speed), cs);
      if cs != [] {
        assert cs[1..] == [];
      }
    }
  }

  /** The motion demo_line_tracking picks for one turn type. */
  method LineStep(car: Car, turn: LineTurn, speed: real)
    requires car.Valid()
    modifies car
    ensures car.Valid() && car.log == old(car.log) + LineCommands(turn, speed)
  {
    if turn == Straight {
      car.RunForward(speed, 0.0);
    } else if turn == SmoothLeft {
      car.TurnLeft(speed * 0.75, 0.0);
    } else if turn == SmoothRight {
      car.TurnRight(speed * 0.75, 0.0);
    } else if turn == RegularLeftTurn {
      car.SpinLeft(speed * 0.75, 0.0);
    } else if turn == RegularRightTurn {
      car.SpinRight(speed * 0.75, 0.0);
    } else if turn == SharpLeftTurn {
      car.SpinLeft(speed, 0.0);
    } else if turn == SharpRightTurn {
      car.SpinRight(speed, 0.0);
    }
  }

  /** demo_line_tracking over a finite run of patterns, on a freshly built car;
      the two-second start-up sleep is not modelled. */
  method DemoLineTracking(ps: seq<LinePattern>, speed: real) returns (car: Car)
    ensures fresh(car) && car.Valid() && car.log == LineTrackingRun(ps, speed)
  {
    car := new Car();
    var k := 0;
    while k < |ps|
      invariant 0 <= k <= |ps|
      invariant car.Valid() && car.log == LineTrackingRun(ps[..k], speed)
    {
      assert ps[..k + 1][..k] == ps[..k];
      LineStep(car, TurnOf(ps[k]), speed);
      k := k + 1;
    }
    assert ps[..k] == ps;
  }

  // ---------------------------------------------------------------------------
  // Cruising (client)

  /** The commands of one pass of Cruising after the camera pan: probe ahead
      when the infrared pair is clear, then drive on or back off and spin. */
  function CruiseDecision(r: Reading, speed: real): (cs: seq<Command>)
    ensures |cs| >= 1 && cs[|cs| - 1].Move?
    ensures (cs[0] == FrontServo(90)) <==> InfraredStatusOf(r.leftClear, r.rightClear) == Clear
    // clear ahead: full speed; an obstacle approaching: half speed
    ensures !ShouldTurn(InfraredStatusOf(r.leftClear, r.rightClear), r.distance) ==>
      cs == [FrontServo(90), Move(Forward, if r.distance > 50.0 then speed else speed * 0.5, 0.0)]
    // otherwise back off for 0.1 s, then spin at double speed away from the blocked side
    ensures ShouldTurn(InfraredStatusOf(r.leftClear, r.rightClear), r.distance) ==>
      |cs| >= 2 && cs[|cs| - 2] == Move(Reverse, speed, 0.1) &&
      cs[|cs| - 1].kind == (if InfraredStatusOf(r.leftClear, r.rightClear) == OnlyRightBlocked then SpinLeft else SpinRight) &&
      cs[|cs| - 1].speed == 2.0 * speed && cs[|cs| - 1].duration == r.spin
    ensures StopWheels !in cs
  {
    var ir := InfraredStatusOf(r.leftClear, r.rightClear);
    var probe := if ir == Clear then [FrontServo(90)] else [];
    probe +
      if !ShouldTurn(ir, r.distance) then
        [Move(Forward, if UltrasoundStatusOf(r.distance) == UsClear then speed else speed * 0.5, 0.0)]
      else
        [Move(Reverse, speed, 0.1), Move(SpinKind(ir), 2.0 * speed, r.spin)]
  }

  /** h_angle: the camera pan angles Cruising cycles through, one per pass. */
  const PanAngles: seq<int> := [20, 90, 160]

  /** The commands of the pass numbered `n` (from 0) once both flag checks
      are passed: the camera pans through 20, 90, 160, 20, ... degrees. */
  function ClientCruisePass(r: Reading, speed: real, n: nat): seq<Command> {
    [PanCamera(PanAngles[n % 3])] + CruiseDecision(r, speed)
  }

  /** One pass of Cruising: the other threads' events since the last check,
      and the readings of the pass. */
  datatype CruiseRound = CruiseRound(env: seq<SignalEvent>, reading: Reading)

  predicate SpinsInRange(rounds: seq<CruiseRound>) {
    forall i :: 0 <= i < |rounds| ==> 0.25 <= rounds[i].reading.spin <= 1.5
  }

  /** ended: the loop broke on a flag; passes: full passes made before. */
  datatype CruiseOutcome = CruiseOutcome(flags: Flags, trace: seq<Command>, ended: bool, passes: nat)

  /** One round of Cruising: the flag check, then a pass. */
  function CruiseStep(o: CruiseOutcome, last: CruiseRound, speed: real): CruiseOutcome {
    if o.ended then o
    else
      var g := AfterEvents(o.flags, last.env);
      if g.stopRequested || !g.cruising then CruiseOutcome(g, o.trace + [StopWheels], true, o.passes)
      else CruiseOutcome(g, o.trace + ClientCruisePass(last.reading, speed, o.passes), false, o.passes + 1)
  }

  /** Cruising over a finite run of rounds: the state after the rounds given,
      oldest first.  Rounds after the loop has broken change nothing. */
  function CruiseRun(f: Flags, rounds: seq<CruiseRound>, speed: real): CruiseOutcome
    decreases |rounds|
  {
    if rounds == [] then CruiseOutcome(f, [], false, 0)
    else CruiseStep(CruiseRun(f, rounds[..|rounds| - 1], speed), rounds[|rounds| - 1], speed)
  }

  /** Once Cruising has left its loop, later rounds add nothing. */
  lemma {:induction false} CruiseEndedIsFinal(f: Flags, rounds: seq<CruiseRound>, speed: real, k: nat)
    requires k <= |rounds| && CruiseRun(f, rounds[..k], speed).ended
    ensures CruiseRun(f, rounds, speed) == CruiseRun(f, rounds[..k], speed)
    decreases |rounds|
  {
    if k < |rounds| {
      var init := rounds[..|rounds| - 1];
      assert init[..k] == rounds[..k];
      CruiseEndedIsFinal(f, init, speed, k);
    } else {
      assert rounds[..k] == rounds;
    }
  }

  /** Cruising leaves only through a flag check: when it leaves, a stop was
      requested or cruising was called off, and its last command stops the
      wheels, the only stop it ever issues; otherwise it made a pass for every
      round, never stopped the wheels, and both flags still allow cruising. */
  lemma {:induction false} CruiseExitsOnlyOnFlags(f: Flags, rounds: seq<CruiseRound>, speed: real)
    ensures var o := CruiseRun(f, rounds, speed);
      (o.ended ==> (o.flags.stopRequested || !o.flags.cruising) && o.passes < |rounds| &&
                   o.trace != [] && o.trace[|o.trace| - 1] == StopWheels &&
                   StopWheels !in o.trace[..|o.trace| - 1]) &&
      (!o.ended ==> o.passes == |rounds| && StopWheels !in o.trace &&
                    (rounds != [] ==> !o.flags.stopRequested && o.flags.cruising))
    decreases |rounds|
  {
    if rounds != [] {
      var init := rounds[..|rounds| - 1];
      CruiseExitsOnlyOnFlags(f, init, speed);
      var o := CruiseRun(f, init, speed);
      if !o.ended {
        var t := CruiseRun(f, rounds, speed).trace;
        if CruiseRun(f, rounds, speed).ended {
          assert t[..|t| - 1] == o.trace;
        } else {
          var pass := ClientCruisePass(rounds[|rounds| - 1].reading, speed, o.passes);
          assert t == o.trace + pass;
          assert StopWheels !in pass[1..];
        }
      }
    }
  }

  /** Once a stop has been requested, Cruising stops the wheels at its first
      check and does nothing else. */
  lemma CruiseHonoursStop(f: Flags, rounds: seq<CruiseRound>, speed: real)
    requires f.stopRequested && rounds != []
    ensures CruiseRun(f, rounds, speed) == CruiseOutcome(f, [StopWheels], true, 0)
  {
    var first := rounds[..1];
    assert first[..0] == [];
    StopAbsorbs(f, rounds[0].env);
    CruiseEndedIsFinal(f, rounds, speed, 1);
  }

  /** Cruising's look ahead: with a clear infrared pair, centre the front
      servo and read the range, driving on at full or half speed unless the
      range is blocked; shouldTurn tells whether a turn must follow. */
  method CruisingProbe(car: Car, ir: InfraredStatus, distance: real, speed: real) returns (shouldTurn: bool)
    requires car.Valid()
    modifies car
    ensures car.Valid() && shouldTurn == ShouldTurn(ir, distance)
    ensures car.log == old(car.log) + (if ir == Clear then [FrontServo(90)] else []) +
      (if shouldTurn then [] else [Move(Forward, if UltrasoundStatusOf(distance) == UsClear then speed else speed * 0.5, 0.0)])
  {
    shouldTurn := true;
    if ir == Clear {
      shouldTurn := false;
      car.TurnServoUltrasonic("center", 90);
      var us := UltrasoundStatusOf(distance);
      if us == UsClear {
        car.RunForward(speed, 0.0);
      } else if us == Approaching {
        car.RunForward(speed * 0.5, 0.0);
      } else {
        shouldTurn := true;
      }
    }
  }

  /** Cruising's turn: back off for 0.1 s, then spin at double speed, left
      when only the right side is blocked, right otherwise. */
  method CruisingTurn(car: Car, ir: InfraredStatus, speed: real, spin: real)
    requires car.Valid()
    modifies car
    ensures car.Valid() && car.log == old(car.log) + [Move(Reverse, speed, 0.1), Move(SpinKind(ir), 2.0 * speed, spin)]
  {
    car.RunReverse(speed, 0.1);
    if ir == OnlyRightBlocked {
      car.SpinLeft(2.0 * speed, spin);
    } else if ir == OnlyLeftBlocked {
      car.SpinRight(2.0 * speed, spin);
    } else {
      car.SpinRight(2.0 * speed, spin);
    }
  }

  /** The part of a Cruising pass after the camera pan. */
  method CruisingDecide(car: Car, r: Reading, speed: real)
    requires car.Valid() && 0.25 <= r.spin <= 1.5
    modifies car
    ensures car.Valid() && car.log == old(car.log) + CruiseDecision(r, speed)
  {
    var ir := InfraredStatusOf(r.leftClear, r.rightClear);
    var shouldTurn := CruisingProbe(car, ir, r.distance, speed);
    if shouldTurn {
      CruisingTurn(car, ir, speed, r.spin);
    }
  }

  /** One round of the Cruising loop, while the loop still runs: the flag
      check, then the pan to PanAngles[i], the next i, and the decision. */
  method CruiseOnce(car: Car, flags: SharedFlags, speed: real, round: CruiseRound, i: nat,
                    ghost o: CruiseOutcome, ghost base: seq<Command>)
    returns (ended: bool, next: nat)
    requires car.Valid() && 0.25 <= round.reading.spin <= 1.5 && i < 3 && i == o.passes % 3
    requires !o.ended && flags.State() == o.flags && car.log == base + o.trace
    modifies car, flags
    ensures car.Valid()
    ensures var n := CruiseStep(o, round, speed);
      car.log == base + n.trace && flags.State() == n.flags && ended == n.ended
    ensures next < 3 && next == (o.passes + 1) % 3
  {
    next := if i + 1 == 3 then 0 else i + 1;
    flags.Deliver(round.env);
    if flags.stopRequested || !flags.cruising {
      car.StopAllWheels();
      AppendAssoc(base, o.trace, [StopWheels]);
      return true, next;
    }
    car.TurnServoCameraHorizontal(PanAngles[i]);
    CruisingDecide(car, round.reading, speed);
    AppendAssoc(base, o.trace, ClientCruisePass(round.reading, speed, o.passes));
    AppendAssoc(base + o.trace, [PanCamera(PanAngles[i])], CruiseDecision(round.reading, speed));
    return false, next;
  }

  /** Cruising(car, speed) over a finite run of rounds, sharing the flags with
      the other threads. */
  method Cruising(car: Car, flags: SharedFlags, speed: real, rounds: seq<CruiseRound>) returns (ended: bool)
    requires car.Valid() && SpinsInRange(rounds)
    modifies car, flags
    ensures car.Valid()
    ensures var o := CruiseRun(old(flags.State()), rounds, speed);
      car.log == old(car.log) + o.trace && flags.State() == o.flags && ended == o.ended
  {
    var i := 0;
    var k := 0;
    while k < |rounds|
      invariant 0 <= k <= |rounds| && 0 <= i < 3 && i == k % 3
      invariant car.Valid()
      invariant var o := CruiseRun(old(flags.State()), rounds[..k], speed);
        !o.ended && o.passes == k && o.flags == flags.State() && car.log == old(car.log) + o.trace
    {
      assert rounds[..k + 1][..k] == rounds[..k];
      ended, i := CruiseOnce(car, flags, speed, rounds[k], i, CruiseRun(old(flags.State()), rounds[..k], speed),
                             old(car.log));
      if ended {
        CruiseEndedIsFinal(old(flags.State()), rounds, speed, k + 1);
        return;
      }
      k := k + 1;
    }
    assert rounds[..k] == rounds;
    return false;
  }
}
