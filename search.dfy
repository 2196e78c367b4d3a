// get_status_with_camera of client/thinkland_rpi_demo_move_find_object.py:
// a sweep of the camera over two tilt and three pan angles that reports where
// the wanted object was first seen, and the step loop that drives towards it
// (demo_step_find_object and demo_move_step_find_object).  Pictures and
// detections are inputs: for every pose, the labels detected there.

module Search {
  import opened Motion
  import opened Sensing
  import opened Signals

  /** vTable: the tilt angles, outer loop. */
  const TiltTable: seq<int> := [25, 45]
  /** hTable: the pan angles, inner loop. */
  const PanTable: seq<int> := [45, 90, 135]

  /** The number of poses of one sweep. */
  const Poses: nat := 6

  /** The tilt and pan angle of each pose, in the order the loops visit them:
      pose p is row p / 3 and column p % 3 of vTable x hTable. */
  const PoseTilt: seq<int> := [25, 25, 25, 45, 45, 45]
  const PosePan: seq<int> := [45, 90, 135, 45, 90, 135]

  /** Pose p opens a tilt row. */
  predicate OpensRow(p: nat) {
    p == 0 || p == 3
  }

  lemma PoseTables(p: nat)
    requires p < Poses
    ensures PoseTilt[p] == TiltTable[p / 3] && PosePan[p] == PanTable[p % 3]
    ensures OpensRow(p) <==> p % 3 == 0
  {
  }

  datatype SearchStatus = StatusStop | StatusMove | StatusTurnRight | StatusTurnLeft

  /** Where the object was seen decides the status: seen with the camera tilted
      low means it is close; otherwise head for it. */
  function Classify(pos: int, angle: int): (s: SearchStatus)
    ensures s == StatusStop <==> pos < 40
    ensures s == StatusMove <==> pos >= 40 && angle == 90
    ensures s == StatusTurnRight <==> pos >= 40 && angle < 90
    ensures s == StatusTurnLeft <==> pos >= 40 && angle > 90
  {
    if pos < 40 then StatusStop
    else if angle == 90 then StatusMove
    else if angle < 90 then StatusTurnRight
    else StatusTurnLeft
  }

  /** What happens at pose p (tilt TiltTable[p / 3], pan PanTable[p % 3]): the
      other threads' events before its stop check, then the labels detected
      in the picture taken there, if one is taken. */
  datatype PoseView = PoseView(env: seq<SignalEvent>, labels: seq<string>)

  /** The sweep after some poses: found is the status to report once the
      object was seen; rowCancelled records that the stop check broke out of
      the current tilt row. */
  datatype SweepState = SweepState(flags: Flags, trace: seq<Command>, found: Option<SearchStatus>, rowCancelled: bool)

  /** The tilt command that opens a row, issued before the row's first check. */
  function RowOpening(p: nat): seq<Command>
    requires p < Poses
  {
    if OpensRow(p) then [TiltCamera(PoseTilt[p])] else []
  }

  /** Pose p of the sweep. */
  function SweepStep(s: SweepState, view: PoseView, wanted: string, p: nat): SweepState
    requires p < Poses
  {
    if s.found.Some? || (s.rowCancelled && !OpensRow(p)) then s
    else
      var g := AfterEvents(s.flags, view.env);
      if g.stopRequested then SweepState(g, s.trace + RowOpening(p) + [StopWheels], None, true)
      else
        SweepState(g, s.trace + RowOpening(p) + [PanCamera(PosePan[p])],
                   if wanted in view.labels then Some(Classify(PoseTilt[p], PosePan[p])) else None,
                   false)
  }

  /** The sweep after its first p poses. */
  function Sweep(f: Flags, views: seq<PoseView>, wanted: string, p: nat): SweepState
    requires |views| == Poses && p <= Poses
  {
    if p == 0 then SweepState(f, [], None, false)
    else SweepStep(Sweep(f, views, wanted, p - 1), views[p - 1], wanted, p - 1)
  }

  /** The status returned: status_move when the object was never seen. */
  function SweepStatus(s: SweepState): SearchStatus {
    if s.found.Some? then s.found.value else StatusMove
  }

  /** The camera commands of an uninterrupted sweep through its first p poses. */
  function PoseTrace(p: nat): seq<Command>
    requires p <= Poses
  {
    if p == 0 then [] else PoseTrace(p - 1) + RowOpening(p - 1) + [PanCamera(PosePan[p - 1])]
  }

  /** The sweep visits the tilt angles 25 then 45, and at each of them the pan
      angles 45, 90, 135 in turn. */
  lemma SweepVisitOrder()
    ensures PoseTrace(Poses) == [TiltCamera(25), PanCamera(45), PanCamera(90), PanCamera(135),
                                 TiltCamera(45), PanCamera(45), PanCamera(90), PanCamera(135)]
  {
    assert PoseTrace(3) == [TiltCamera(25), PanCamera(45), PanCamera(90), PanCamera(135)];
  }

  /** Once the object was seen, no later pose changes anything. */
  lemma {:induction false} SweepFoundIsFinal(f: Flags, views: seq<PoseView>, wanted: string, p: nat, q: nat)
    requires |views| == Poses && p <= q <= Poses
    requires Sweep(f, views, wanted, p).found.Some?
    ensures Sweep(f, views, wanted, q) == Sweep(f, views, wanted, p)
    decreases q
  {
    if p < q {
      SweepFoundIsFinal(f, views, wanted, p, q - 1);
    }
  }

  /** Once the stop check broke out of a row, the rest of that row is skipped. */
  lemma {:induction false} SweepCancelledRow(f: Flags, views: seq<PoseView>, wanted: string, p: nat, q: nat)
    requires |views| == Poses && 0 < p <= q <= Poses && (p <= 3 ==> q <= 3)
    requires Sweep(f, views, wanted, p).rowCancelled
    ensures Sweep(f, views, wanted, q) == Sweep(f, views, wanted, p)
    decreases q
  {
    if p < q {
      SweepCancelledRow(f, views, wanted, p, q - 1);
    }
  }

  /** No Caps Lock press among the events the sweep sees before pose p. */
  predicate NoCapsLockBefore(views: seq<PoseView>, p: nat)
    requires p <= |views|
  {
    forall i, j :: 0 <= i < p && 0 <= j < |views[i].env| ==> views[i].env[j] != KeyPress(CapsLock)
  }

  /** Without a stop request, a sweep that has not yet seen the object has
      issued exactly the camera commands of its poses so far. */
  lemma {:induction false} SweepWithoutStop(f: Flags, views: seq<PoseView>, wanted: string, p: nat)
    requires |views| == Poses && p <= Poses
    requires !f.stopRequested && NoCapsLockBefore(views, p)
    requires forall i :: 0 <= i < p ==> wanted !in views[i].labels
    ensures var s := Sweep(f, views, wanted, p);
      !s.flags.stopRequested && s.trace == PoseTrace(p) && s.found == None && !s.rowCancelled
    decreases p
  {
    if p > 0 {
      SweepWithoutStop(f, views, wanted, p - 1);
      NoStopWithoutCapsLock(Sweep(f, views, wanted, p - 1).flags, views[p - 1].env);
    }
  }

  /** With no stop request, the sweep reports where the object was first seen,
      having visited the poses up to and including that one, in order. */
  lemma FirstSighting(f: Flags, views: seq<PoseView>, wanted: string, p: nat)
    requires |views| == Poses && p < Poses
    requires !f.stopRequested && NoCapsLockBefore(views, p + 1)
    requires wanted in views[p].labels && forall i :: 0 <= i < p ==> wanted !in views[i].labels
    ensures SweepStatus(Sweep(f, views, wanted, Poses)) == Classify(TiltTable[p / 3], PanTable[p % 3])
    ensures Sweep(f, views, wanted, Poses).trace == PoseTrace(p + 1)
  {
    SweepWithoutStop(f, views, wanted, p);
    NoStopWithoutCapsLock(Sweep(f, views, wanted, p).flags, views[p].env);
    SweepFoundIsFinal(f, views, wanted, p + 1, Poses);
    PoseTables(p);
  }

  /** With no stop request and no sighting, every pose is visited and the
      sweep reports status_move. */
  lemma NoSightingMeansMove(f: Flags, views: seq<PoseView>, wanted: string)
    requires |views| == Poses
    requires !f.stopRequested && NoCapsLockBefore(views, Poses)
    requires forall i :: 0 <= i < Poses ==> wanted !in views[i].labels
    ensures SweepStatus(Sweep(f, views, wanted, Poses)) == StatusMove
    ensures Sweep(f, views, wanted, Poses).trace == PoseTrace(Poses)
  {
    SweepWithoutStop(f, views, wanted, Poses);
  }

  /** A stop request before the sweep: the stop check breaks only the inner
      loop, so each tilt row is opened, the wheels are stopped, no picture is
      taken, and the sweep still reports status_move. */
  lemma CancelledSweep(f: Flags, views: seq<PoseView>, wanted: string)
    requires |views| == Poses && f.stopRequested
    ensures Sweep(f, views, wanted, Poses) ==
      SweepState(f, [TiltCamera(25), StopWheels, TiltCamera(45), StopWheels], None, true)
    ensures SweepStatus(Sweep(f, views, wanted, Poses)) == StatusMove
  {
    StopAbsorbs(f, views[0].env);
    assert Sweep(f, views, wanted, 1) == SweepState(f, [TiltCamera(25), StopWheels], None, true);
    SweepCancelledRow(f, views, wanted, 1, 3);
    StopAbsorbs(f, views[3].env);
    assert Sweep(f, views, wanted, 4) == SweepState(f, [TiltCamera(25), StopWheels, TiltCamera(45), StopWheels], None, true);
    SweepCancelledRow(f, views, wanted, 4, 6);
  }

  /** Caps Lock pressed before the stop check of pose p, with no stop and no
      sighting before: the check stops the wheels and breaks the row, the
      next row (if any) is opened and broken off at once, and the sweep
      reports status_move with the stop request standing. */
  lemma StopMidSweep(f: Flags, views: seq<PoseView>, wanted: string, p: nat)
    requires |views| == Poses && p < Poses
    requires !f.stopRequested && NoCapsLockBefore(views, p) && KeyPress(CapsLock) in views[p].env
    requires forall i :: 0 <= i < p ==> wanted !in views[i].labels
    ensures var s := Sweep(f, views, wanted, Poses);
      s.trace == PoseTrace(p) + RowOpening(p) + [StopWheels] + (if p < 3 then [TiltCamera(45), StopWheels] else []) &&
      s.flags.stopRequested && SweepStatus(s) == StatusMove
  {
    SweepWithoutStop(f, views, wanted, p);
    var g := AfterEvents(Sweep(f, views, wanted, p).flags, views[p].env);
    CapsLockStops(Sweep(f, views, wanted, p).flags, views[p].env);
    assert Sweep(f, views, wanted, p + 1) == SweepState(g, PoseTrace(p) + RowOpening(p) + [StopWheels], None, true);
    if p < 3 {
      SweepCancelledRow(f, views, wanted, p + 1, 3);
      StopAbsorbs(g, views[3].env);
      assert Sweep(f, views, wanted, 4) ==
        SweepState(g, PoseTrace(p) + RowOpening(p) + [StopWheels] + [TiltCamera(45), StopWheels], None, true);
      SweepCancelledRow(f, views, wanted, 4, Poses);
    } else {
      SweepCancelledRow(f, views, wanted, p + 1, Poses);
    }
  }

  /** A sweep that ends with a stop request has not found the object: a
      sighting returns at once, before any later stop check. */
  lemma {:induction false} StoppedSweepFindsNothing(f: Flags, views: seq<PoseView>, wanted: string, p: nat)
    requires |views| == Poses && p <= Poses
    ensures Sweep(f, views, wanted, p).flags.stopRequested ==> Sweep(f, views, wanted, p).found.None?
    decreases p
  {
    if p > 0 {
      StoppedSweepFindsNothing(f, views, wanted, p - 1);
    }
  }

  /** `for item in names: if item == object`: whether the object is among the
      detected labels. */
  method Sees(labels: seq<string>, wanted: string) returns (seen: bool)
    ensures seen <==> wanted in labels
  {
    var j := 0;
    while j < |labels|
      invariant 0 <= j <= |labels|
      invariant wanted !in labels[..j]
    {
      if labels[j] == wanted {
        return true;
      }
      assert labels[..j + 1] == labels[..j] + [labels[j]];
      j := j + 1;
    }
    assert labels[..j] == labels;
    return false;
  }

  /** One pose of get_status_with_camera after its row is opened: the stop
      check, then the pan and the look at the picture. */
  method VisitPose(car: Car, flags: SharedFlags, view: PoseView, wanted: string,
                   ghost s: SweepState, ghost p: nat, angle: int, ghost start: seq<Command>)
    returns (stopped: bool, seen: bool)
    requires car.Valid() && p < Poses && angle == PosePan[p]
    requires s.found.None? && (OpensRow(p) || !s.rowCancelled)
    requires flags.State() == s.flags && car.log == start + s.trace + RowOpening(p)
    modifies car, flags
    ensures car.Valid()
    ensures var t := SweepStep(s, view, wanted, p);
      flags.State() == t.flags && car.log == start + t.trace &&
      stopped == t.rowCancelled && seen == t.found.Some?
  {
    flags.Deliver(view.env);
    if flags.stopRequested {
      car.StopAllWheels();
      AppendAssoc(start, s.trace, RowOpening(p) + [StopWheels]);
      AppendAssoc(start + s.trace, RowOpening(p), [StopWheels]);
      return true, false;
    }
    car.TurnServoCameraHorizontal(angle);
    AppendAssoc(start, s.trace, RowOpening(p) + [PanCamera(angle)]);
    AppendAssoc(start + s.trace, RowOpening(p), [PanCamera(angle)]);
    seen := Sees(view.labels, wanted);
    return false, seen;
  }

  /** Where the sweep stands before column c of row r: nothing seen yet, the
      row not broken off, and the row's tilt already issued. */
  predicate BeforeColumn(f0: Flags, views: seq<PoseView>, wanted: string, r: nat, c: nat,
                         flags: Flags, log: seq<Command>, start: seq<Command>)
    requires |views| == Poses && r < 2 && c < 3
  {
    var s := Sweep(f0, views, wanted, 3 * r + c);
    s.found.None? && (c > 0 ==> !s.rowCancelled) && flags == s.flags &&
    (c == 0 ==> log == start + s.trace + [TiltCamera(TiltTable[r])]) &&
    (c > 0 ==> log == start + s.trace)
  }

  /** Where the sweep stands after row r: the flags and commands of the sweep
      through the row's last pose, and what the row reports. */
  predicate AfterRow(f0: Flags, views: seq<PoseView>, wanted: string, r: nat,
                     flags: Flags, log: seq<Command>, start: seq<Command>, found: bool, status: SearchStatus)
    requires |views| == Poses && r < 2
  {
    var t := Sweep(f0, views, wanted, 3 * r + 3);
    flags == t.flags && log == start + t.trace && found == t.found.Some? && (found ==> status == t.found.value)
  }

  /** The pose in column c of row r, as a step of the whole sweep: a stop or a
      sighting settles the row, otherwise the sweep moves on. */
  method RowPose(car: Car, flags: SharedFlags, views: seq<PoseView>, wanted: string, r: nat, c: nat,
                 angle: int, ghost f0: Flags, ghost start: seq<Command>)
    returns (stopped: bool, seen: bool)
    requires car.Valid() && |views| == Poses && r < 2 && c < 3 && angle == PanTable[c]
    requires BeforeColumn(f0, views, wanted, r, c, flags.State(), car.log, start)
    modifies car, flags
    ensures car.Valid()
    ensures stopped ==> AfterRow(f0, views, wanted, r, flags.State(), car.log, start, false, StatusMove)
    ensures !stopped && seen ==>
      AfterRow(f0, views, wanted, r, flags.State(), car.log, start, true, Classify(TiltTable[r], angle))
    ensures !stopped && !seen && c < 2 ==> BeforeColumn(f0, views, wanted, r, c + 1, flags.State(), car.log, start)
    ensures !stopped && !seen && c == 2 ==>
      AfterRow(f0, views, wanted, r, flags.State(), car.log, start, false, StatusMove)
  {
    var p := 3 * r + c;
    assert PoseTilt[p] == TiltTable[r] && PosePan[p] == angle && (OpensRow(p) <==> c == 0);
    stopped, seen := VisitPose(car, flags, views[p], wanted, Sweep(f0, views, wanted, p), p, angle, start);
    if stopped {
      SweepCancelledRow(f0, views, wanted, p + 1, 3 * r + 3);
    } else if seen {
      SweepFoundIsFinal(f0, views, wanted, p + 1, 3 * r + 3);
    }
  }

  /** One tilt row of get_status_with_camera: tilt the camera, then visit the
      three pan angles until the stop check breaks the row or the object is
      seen. */
  method SweepRow(car: Car, flags: SharedFlags, views: seq<PoseView>, wanted: string, r: nat, pos: int,
                  ghost f0: Flags, ghost start: seq<Command>)
    returns (found: bool, status: SearchStatus)
    requires car.Valid() && |views| == Poses && r < 2 && pos == TiltTable[r]
    requires var s := Sweep(f0, views, wanted, 3 * r);
      s.found.None? && flags.State() == s.flags && car.log == start + s.trace
    modifies car, flags
    ensures car.Valid()
    ensures AfterRow(f0, views, wanted, r, flags.State(), car.log, start, found, status)
  {
    var hTable := [45, 90, 135];
    car.TurnServoCameraVertical(pos);
    var c := 0;
    while c < |hTable|
      invariant 0 <= c <= 3 && car.Valid()
      invariant c < 3 ==> BeforeColumn(f0, views, wanted, r, c, flags.State(), car.log, start)
      invariant c == 3 ==> AfterRow(f0, views, wanted, r, flags.State(), car.log, start, false, StatusMove)
    {
      var stopped, seen := RowPose(car, flags, views, wanted, r, c, hTable[c], f0, start);
      if stopped {
        return false, StatusMove;
      }
      if seen {
        return true, Classify(pos, hTable[c]);
      }
      c := c + 1;
    }
    return false, StatusMove;
  }

  /** get_status_with_camera, sharing the flags with the other threads. */
  method GetStatusWithCamera(car: Car, flags: SharedFlags, views: seq<PoseView>, wanted: string)
    returns (status: SearchStatus)
    requires car.Valid() && |views| == Poses
    modifies car, flags
    ensures car.Valid()
    ensures var s := Sweep(old(flags.State()), views, wanted, Poses);
      car.log == old(car.log) + s.trace && flags.State() == s.flags && status == SweepStatus(s)
  {
    var vTable := [25, 45];
    ghost var f0 := flags.State();
    var r := 0;
    while r < |vTable|
      invariant 0 <= r <= 2 && car.Valid()
      invariant var s := Sweep(f0, views, wanted, 3 * r);
        s.found.None? && flags.State() == s.flags && car.log == old(car.log) + s.trace
    {
      var found, st := SweepRow(car, flags, views, wanted, r, vTable[r], f0, old(car.log));
      if found {
        SweepFoundIsFinal(f0, views, wanted, 3 * r + 3, Poses);
        return st;
      }
      r := r + 1;
    }
    return StatusMove;
  }

  // ---------------------------------------------------------------------------
  // The step loop of demo_step_find_object and demo_move_step_find_object

  /** The move made after a sweep: forward for `dis` seconds, a fixed spin
      towards the object, or nothing once it is close. */
  function StepMotion(status: SearchStatus, speed: real, dis: real): (cs: seq<Command>)
    ensures status == StatusStop <==> cs == []
    ensures status == StatusMove <==> cs == [Move(Forward, speed, dis)]
    ensures status == StatusTurnRight <==> cs == [Move(SpinRight, 10.0, 0.4)]
    ensures status == StatusTurnLeft <==> cs == [Move(SpinLeft, 10.0, 0.4)]
  {
    match status
    case StatusMove => [Move(Forward, speed, dis)]
    case StatusTurnRight => [Move(SpinRight, 10.0, 0.4)]
    case StatusTurnLeft => [Move(SpinLeft, 10.0, 0.4)]
    case StatusStop => []
  }

  /** One pass of the step loop: the other threads' events before its stop
      check, then what the sweep sees at each of its poses. */
  datatype StepRound = StepRound(env: seq<SignalEvent>, views: seq<PoseView>)

  predicate SweepsComplete(rounds: seq<StepRound>) {
    forall i :: 0 <= i < |rounds| ==> |rounds[i].views| == Poses
  }

  /** ended: the loop returned; last: the status of the last sweep made. */
  datatype StepOutcome = StepOutcome(flags: Flags, trace: seq<Command>, ended: bool, last: Option<SearchStatus>)

  /** One pass of the step loop after the outcome o of the earlier ones. */
  function StepRoundStep(o: StepOutcome, round: StepRound, wanted: string, speed: real, dis: real,
                         stopOnCancel: bool): StepOutcome
    requires |round.views| == Poses
  {
    if o.ended then o
    else
      var g := AfterEvents(o.flags, round.env);
      if g.stopRequested then
        StepOutcome(g, o.trace + (if stopOnCancel then [StopWheels] else []), true, o.last)
      else
        var s := Sweep(g, round.views, wanted, Poses);
        var status := SweepStatus(s);
        var pass := s.trace + [PanCamera(90)] + StepMotion(status, speed, dis);
        StepOutcome(s.flags, o.trace + pass, status == StatusStop, Some(status))
  }

  /** The step loop over a finite run of rounds; stopOnCancel tells whether
      the wheels are stopped when it leaves on a stop request (as
      demo_move_step_find_object does and demo_step_find_object does not). */
  function StepRun(f: Flags, rounds: seq<StepRound>, wanted: string, speed: real, dis: real, stopOnCancel: bool): StepOutcome
    requires SweepsComplete(rounds)
    decreases |rounds|
  {
    if rounds == [] then StepOutcome(f, [], false, None)
    else
      StepRoundStep(StepRun(f, rounds[..|rounds| - 1], wanted, speed, dis, stopOnCancel), rounds[|rounds| - 1],
                    wanted, speed, dis, stopOnCancel)
  }

  /** Once the step loop has returned, later rounds add nothing. */
  lemma {:induction false} StepEndedIsFinal(f: Flags, rounds: seq<StepRound>, wanted: string, speed: real, dis: real,
                                            stopOnCancel: bool, k: nat)
    requires SweepsComplete(rounds) && k <= |rounds|
    requires StepRun(f, rounds[..k], wanted, speed, dis, stopOnCancel).ended
    ensures StepRun(f, rounds, wanted, speed, dis, stopOnCancel) == StepRun(f, rounds[..k], wanted, speed, dis, stopOnCancel)
    decreases |rounds|
  {
    if k < |rounds| {
      var init := rounds[..|rounds| - 1];
      assert init[..k] == rounds[..k];
      StepEndedIsFinal(f, init, wanted, speed, dis, stopOnCancel, k);
    } else {
      assert rounds[..k] == rounds;
    }
  }

  /** The step loop returns only on a stop request or once the object is seen
      with the camera tilted low; while it runs, no stop was requested at its
      last check. */
  lemma {:induction false} StepExitsOnlyOnStopOrClose(f: Flags, rounds: seq<StepRound>, wanted: string, speed: real,
                                                      dis: real, stopOnCancel: bool)
    requires SweepsComplete(rounds)
    ensures var o := StepRun(f, rounds, wanted, speed, dis, stopOnCancel);
      (o.ended ==> o.flags.stopRequested || o.last == Some(StatusStop)) &&
      (!o.ended ==> o.last != Some(StatusStop))
    decreases |rounds|
  {
    if rounds != [] {
      StepExitsOnlyOnStopOrClose(f, rounds[..|rounds| - 1], wanted, speed, dis, stopOnCancel);
      var o := StepRun(f, rounds[..|rounds| - 1], wanted, speed, dis, stopOnCancel);
      if o.ended && !o.flags.stopRequested {
        assert o.last == Some(StatusStop);
      }
    }
  }

  /** Once a stop has been requested the step loop leaves at its first check,
      stopping the wheels only in the variant that does so. */
  lemma StepHonoursStop(f: Flags, rounds: seq<StepRound>, wanted: string, speed: real, dis: real, stopOnCancel: bool)
    requires SweepsComplete(rounds) && f.stopRequested && rounds != []
    ensures StepRun(f, rounds, wanted, speed, dis, stopOnCancel) ==
      StepOutcome(f, if stopOnCancel then [StopWheels] else [], true, None)
  {
    assert rounds[..1][..0] == [];
    StopAbsorbs(f, rounds[0].env);
    StepEndedIsFinal(f, rounds, wanted, speed, dis, stopOnCancel, 1);
  }

  /** One pass whose sweep ends with a stop request: it reports
      status_move, moves forward, and does not end the loop. */
  lemma StoppedPassMoves(o: StepOutcome, round: StepRound, wanted: string, speed: real, dis: real, stopOnCancel: bool)
    requires |round.views| == Poses && !o.ended
    requires var g := AfterEvents(o.flags, round.env);
      !g.stopRequested && Sweep(g, round.views, wanted, Poses).flags.stopRequested
    ensures var s := Sweep(AfterEvents(o.flags, round.env), round.views, wanted, Poses);
      StepRoundStep(o, round, wanted, speed, dis, stopOnCancel) ==
      StepOutcome(s.flags, o.trace + s.trace + [PanCamera(90), Move(Forward, speed, dis)], false, Some(StatusMove))
  {
    var s := Sweep(AfterEvents(o.flags, round.env), round.views, wanted, Poses);
    StoppedSweepFindsNothing(AfterEvents(o.flags, round.env), round.views, wanted, Poses);
    assert o.trace + (s.trace + [PanCamera(90)] + [Move(Forward, speed, dis)]) ==
           o.trace + s.trace + [PanCamera(90), Move(Forward, speed, dis)];
  }

  /** A pass that starts with a stop requested ends the loop at its check. */
  lemma StoppedCheckEnds(o: StepOutcome, round: StepRound, wanted: string, speed: real, dis: real, stopOnCancel: bool)
    requires |round.views| == Poses && !o.ended && o.flags.stopRequested
    ensures StepRoundStep(o, round, wanted, speed, dis, stopOnCancel) ==
      StepOutcome(o.flags, o.trace + (if stopOnCancel then [StopWheels] else []), true, o.last)
  {
    StopAbsorbs(o.flags, round.env);
  }

  /** A stop requested during a pass's sweep, after its stop check, does not
      stop the pass: the sweep reports status_move, so the car still runs
      forward for dis seconds, and the loop leaves at its next check. */
  lemma StopDuringSweepStillMoves(f: Flags, rounds: seq<StepRound>, wanted: string, speed: real, dis: real,
                                  stopOnCancel: bool, k: nat)
    requires SweepsComplete(rounds) && k + 1 < |rounds|
    requires var o := StepRun(f, rounds[..k], wanted, speed, dis, stopOnCancel);
      var g := AfterEvents(o.flags, rounds[k].env);
      !o.ended && !g.stopRequested && Sweep(g, rounds[k].views, wanted, Poses).flags.stopRequested
    ensures var o := StepRun(f, rounds[..k], wanted, speed, dis, stopOnCancel);
      var s := Sweep(AfterEvents(o.flags, rounds[k].env), rounds[k].views, wanted, Poses);
      var r := StepRun(f, rounds, wanted, speed, dis, stopOnCancel);
      r.ended && r.last == Some(StatusMove) &&
      r.trace == o.trace + s.trace + [PanCamera(90), Move(Forward, speed, dis)] + (if stopOnCancel then [StopWheels] else [])
  {
    var o := StepRun(f, rounds[..k], wanted, speed, dis, stopOnCancel);
    assert rounds[..k + 1][..k] == rounds[..k];
    assert rounds[..k + 2][..k + 1] == rounds[..k + 1];
    StoppedPassMoves(o, rounds[k], wanted, speed, dis, stopOnCancel);
    var o1 := StepRun(f, rounds[..k + 1], wanted, speed, dis, stopOnCancel);
    StoppedCheckEnds(o1, rounds[k + 1], wanted, speed, dis, stopOnCancel);
    StepEndedIsFinal(f, rounds, wanted, speed, dis, stopOnCancel, k + 2);
  }

  /** After a sweep: recentre the camera, then make the move for the status. */
  method ActOnStatus(car: Car, status: SearchStatus, speed: real, dis: real)
    requires car.Valid()
    modifies car
    ensures car.Valid() && car.log == old(car.log) + [PanCamera(90)] + StepMotion(status, speed, dis)
  {
    car.TurnServoCameraHorizontal(90);
    if status == StatusMove {
      car.RunForward(speed, dis);
    }
    if status == StatusTurnRight {
      car.SpinRight(10.0, 0.4);
    }
    if status == StatusTurnLeft {
      car.SpinLeft(10.0, 0.4);
    }
  }

  /** The body of the step loop after its stop check: sweep, then act. */
  method StepPass(car: Car, flags: SharedFlags, views: seq<PoseView>, wanted: string, speed: real, dis: real)
    returns (status: SearchStatus)
    requires car.Valid() && |views| == Poses
    modifies car, flags
    ensures car.Valid()
    ensures var s := Sweep(old(flags.State()), views, wanted, Poses);
      status == SweepStatus(s) && flags.State() == s.flags &&
      car.log == old(car.log) + (s.trace + [PanCamera(90)] + StepMotion(status, speed, dis))
  {
    status := GetStatusWithCamera(car, flags, views, wanted);
    ghost var swept := car.log;
    ActOnStatus(car, status, speed, dis);
    ghost var s := Sweep(old(flags.State()), views, wanted, Poses);
    AppendAssoc(old(car.log) + s.trace, [PanCamera(90)], StepMotion(status, speed, dis));
    AppendAssoc(old(car.log), s.trace, [PanCamera(90)]);
    AppendAssoc(old(car.log), s.trace + [PanCamera(90)], StepMotion(status, speed, dis));
  }

  /** One pass of the step loop: its stop check, then a sweep and the move. */
  method StepOnce(car: Car, flags: SharedFlags, wanted: string, speed: real, dis: real, stopOnCancel: bool,
                  round: StepRound, ghost o: StepOutcome, ghost base: seq<Command>)
    returns (ended: bool)
    requires car.Valid() && |round.views| == Poses
    requires !o.ended && flags.State() == o.flags && car.log == base + o.trace
    modifies car, flags
    ensures car.Valid()
    ensures var n := StepRoundStep(o, round, wanted, speed, dis, stopOnCancel);
      car.log == base + n.trace && flags.State() == n.flags && ended == n.ended
  {
    flags.Deliver(round.env);
    if flags.stopRequested {
      if stopOnCancel {
        car.StopAllWheels();
        AppendAssoc(base, o.trace, [StopWheels]);
      }
      return true;
    }
    ghost var g := flags.State();
    var status := StepPass(car, flags, round.views, wanted, speed, dis);
    ghost var s := Sweep(g, round.views, wanted, Poses);
    AppendAssoc(base, o.trace, s.trace + [PanCamera(90)] + StepMotion(status, speed, dis));
    return status == StatusStop;
  }

  /** The `while True` loop of demo_step_find_object (stopOnCancel false) and
      of demo_move_step_find_object (stopOnCancel true). */
  method StepFindObject(car: Car, flags: SharedFlags, wanted: string, speed: real, dis: real, stopOnCancel: bool,
                        rounds: seq<StepRound>)
    returns (ended: bool)
    requires car.Valid() && SweepsComplete(rounds)
    modifies car, flags
    ensures car.Valid()
    ensures var o := StepRun(old(flags.State()), rounds, wanted, speed, dis, stopOnCancel);
      car.log == old(car.log) + o.trace && flags.State() == o.flags && ended == o.ended
  {
    ghost var f0 := flags.State();
    var k := 0;
    while k < |rounds|
      invariant 0 <= k <= |rounds| && car.Valid()
      invariant var o := StepRun(f0, rounds[..k], wanted, speed, dis, stopOnCancel);
        !o.ended && o.flags == flags.State() && car.log == old(car.log) + o.trace
    {
      assert rounds[..k + 1][..k] == rounds[..k];
      ended := StepOnce(car, flags, wanted, speed, dis, stopOnCancel, rounds[k],
                        StepRun(f0, rounds[..k], wanted, speed, dis, stopOnCancel), old(car.log));
      if ended {
        StepEndedIsFinal(f0, rounds, wanted, speed, dis, stopOnCancel, k + 1);
        return;
      }
      k := k + 1;
    }
    assert rounds[..k] == rounds;
    return false;
  }
}
