// The drivetrain, lights and servos of the car (class Car in
// server/thinkland_rpi_car.py).  GPIO pins and PWM duty cycles are plain
// fields; every actuator call is also appended to a ghost trace `log`, so the
// decision loops elsewhere can be specified by the commands they issue.

module Motion {

  /** The six drive patterns: run_forward, run_reverse, turn_left, turn_right,
      spin_left and spin_right. */
  datatype MotionKind = Forward | Reverse | TurnLeft | TurnRight | SpinLeft | SpinRight

  /** One actuator call, as the car receives it. */
  datatype Command =
    | Move(kind: MotionKind, speed: real, duration: real)
    | StopWheels
    | Led(colour: string)
    | LedOff(led: int)
    | FrontServo(degree: int)
    | PanCamera(degree: int)
    | TiltCamera(degree: int)

  /** The drivetrain outputs: four direction pins (true is GPIO.HIGH) and the
      duty cycles of the left and right motor PWMs. */
  datatype Wheels = Wheels(leftForward: bool, leftBackward: bool,
                           rightForward: bool, rightBackward: bool,
                           speedLeft: real, speedRight: real)

  /** All direction pins low and both duty cycles 0: the state after set-up
      and after stop_all_wheels. */
  const Halted: Wheels := Wheels(false, false, false, false, 0.0, 0.0)

  /** Indices of the LED_FLAG dictionary (Car.LED_R, Car.LED_G, Car.LED_B). */
  const LedRed: int := 0
  const LedGreen: int := 1
  const LedBlue: int := 2

  datatype Option<T> = None | Some(value: T)

  /** Regrouping a concatenation of traces. */
  lemma AppendAssoc(a: seq<Command>, b: seq<Command>, c: seq<Command>)
    ensures (a + b) + c == a + (b + c)
  {
  }

  predicate IsMotion(w: Wheels) {
    w.leftForward || w.leftBackward || w.rightForward || w.rightBackward
  }

  /** The pins and duty cycles each motion primitive hands to __set_motion. */
  function Pattern(kind: MotionKind, speed: real): (w: Wheels)
    // no motor side is ever driven forwards and backwards at once
    ensures !(w.leftForward && w.leftBackward) && !(w.rightForward && w.rightBackward)
    ensures IsMotion(w)
    // a turn drives one side only: turn_left the right wheels, turn_right the left wheels
    ensures kind == TurnLeft ==>
      !w.leftForward && !w.leftBackward && w.speedLeft == 0.0 && w.rightForward && w.speedRight == speed
    ensures kind == TurnRight ==>
      w.leftForward && w.speedLeft == speed && !w.rightForward && !w.rightBackward && w.speedRight == 0.0
    // a spin drives the two sides in opposite directions at the same speed
    ensures kind == SpinLeft || kind == SpinRight ==>
      w.leftForward == w.rightBackward && w.leftBackward == w.rightForward &&
      w.leftForward != w.leftBackward && w.speedLeft == w.speedRight == speed
    ensures kind == SpinLeft ==> w.rightForward
    ensures kind == SpinRight ==> w.leftForward
    // straight runs drive both sides the same way at the same speed
    ensures kind == Forward ==> w.leftForward && w.rightForward && w.speedLeft == w.speedRight == speed
    ensures kind == Reverse ==> w.leftBackward && w.rightBackward && w.speedLeft == w.speedRight == speed
  {
    match kind
    case Forward => Wheels(true, false, true, false, speed, speed)
    case Reverse => Wheels(false, true, false, true, speed, speed)
    case TurnLeft => Wheels(false, false, true, false, 0.0, speed)
    case TurnRight => Wheels(true, false, false, false, speed, 0.0)
    case SpinLeft => Wheels(false, true, true, false, speed, speed)
    case SpinRight => Wheels(true, false, false, true, speed, speed)
  }

  /** What __set_motion leaves behind: with a positive duration it sleeps and
      then sets both duty cycles back to 0, keeping the direction pins. */
  function Settle(w: Wheels, duration: real): (r: Wheels)
    ensures duration > 0.0 ==> r.speedLeft == 0.0 && r.speedRight == 0.0
    ensures duration <= 0.0 ==> r == w
    ensures r.leftForward == w.leftForward && r.leftBackward == w.leftBackward
    ensures r.rightForward == w.rightForward && r.rightBackward == w.rightBackward
  {
    if duration > 0.0 then w.(speedLeft := 0.0, speedRight := 0.0) else w
  }

  /** The drivetrain after one command; lights and servos leave it as it was. */
  function WheelsAfter(w: Wheels, c: Command): Wheels {
    match c
    case Move(kind, speed, duration) => Settle(Pattern(kind, speed), duration)
    case StopWheels => Halted
    case _ => w
  }

  /** The drivetrain after a whole sequence of commands, oldest first. */
  function Replay(w: Wheels, cs: seq<Command>): Wheels
    decreases |cs|
  {
    if cs == [] then w else Replay(WheelsAfter(w, cs[0]), cs[1..])
  }

  /** Replaying two runs of commands one after the other is replaying their
      concatenation. */
  lemma {:induction false} ReplayConcat(w: Wheels, a: seq<Command>, b: seq<Command>)
    ensures Replay(w, a + b) == Replay(Replay(w, a), b)
    decreases |a|
  {
    if a == [] {
      assert a + b == b;
    } else {
      assert (a + b)[1..] == a[1..] + b;
      ReplayConcat(WheelsAfter(w, a[0]), a[1..], b);
    }
  }

  /** After a stop, or after any timed motion, no wheel is powered, whatever the
      drivetrain did before; a second stop changes nothing. */
  lemma {:induction false} QuietAfterStop(w: Wheels, cs: seq<Command>, c: Command)
    requires c == StopWheels || (c.Move? && c.duration > 0.0)
    requires forall i :: 0 <= i < |cs| ==> !cs[i].Move? && !cs[i].StopWheels?
    ensures Replay(w, [c] + cs).speedLeft == 0.0 && Replay(w, [c] + cs).speedRight == 0.0
    ensures c == StopWheels ==> Replay(w, [c, c] + cs) == Replay(w, [c] + cs) == Halted
    decreases |cs|
  {
    if cs == [] {
    } else {
      var last := cs[|cs| - 1];
      var init := cs[..|cs| - 1];
      assert cs == init + [last];
      QuietAfterStop(w, init, c);
      assert [c] + cs == ([c] + init) + [last];
      ReplayConcat(w, [c] + init, [last]);
      if c == StopWheels {
        assert [c, c] + cs == ([c, c] + init) + [last];
        ReplayConcat(w, [c, c] + init, [last]);
      }
    }
  }

  /** The three LED pins that led_light sets for a colour name; any other name
      switches the light off. */
  function LedPins(colour: string): (bool, bool, bool) {
    if colour == "red" then (true, false, false)
    else if colour == "green" then (false, true, false)
    else if colour == "blue" then (false, false, true)
    else if colour == "yellow" then (true, true, false)
    else if colour == "cyan" then (false, true, true)
    else if colour == "purple" then (true, false, true)
    else if colour == "white" then (true, true, true)
    else (false, false, false)
  }

  /** Each pin is lit exactly for the colour names that mix it. */
  lemma LedPinsMix(colour: string)
    ensures LedPins(colour).0 <==> colour in {"red", "yellow", "purple", "white"}
    ensures LedPins(colour).1 <==> colour in {"green", "yellow", "cyan", "white"}
    ensures LedPins(colour).2 <==> colour in {"blue", "cyan", "purple", "white"}
  {
  }

  /** The angle turn_servo_ultrasonic turns the front servo to: a named
      direction overrides the given degree, anything else keeps it. */
  function UltrasonicServoDegree(dir: string, degree: int): (d: int)
    ensures dir == "center" ==> d == 90
    ensures dir == "right" ==> d == 0
    ensures dir == "left" ==> d == 180
    ensures dir !in {"center", "right", "left"} ==> d == degree
  {
    if dir == "center" then 90
    else if dir == "right" then 0
    else if dir == "left" then 180
    else degree
  }

  /** The lights and servos: the three LED pins, the LED_FLAG dictionary, and
      the angle each servo was last sent (None before the first: set-up starts
      the servo PWMs at duty 0, which holds no angle). */
  datatype Panel = Panel(ledR: bool, ledG: bool, ledB: bool, ledFlag: map<int, bool>,
                         front: Option<int>, pan: Option<int>, tilt: Option<int>)

  /** After set-up: LEDs dark, every LED_FLAG entry true, no servo angle. */
  const InitialPanel: Panel :=
    Panel(false, false, false, map[LedRed := true, LedGreen := true, LedBlue := true], None, None, None)

  /** Whether a command addresses the front servo, the pan servo, the tilt
      servo, or the lights. */
  predicate CallsFront(c: Command) { c.FrontServo? }
  predicate CallsPan(c: Command) { c.PanCamera? }
  predicate CallsTilt(c: Command) { c.TiltCamera? }
  predicate CallsLights(c: Command) { c.Led? || c.LedOff? }

  predicate SameLights(p: Panel, q: Panel) {
    p.ledR == q.ledR && p.ledG == q.ledG && p.ledB == q.ledB && p.ledFlag == q.ledFlag
  }

  /** The lights and servos after one command; drive commands leave them be. */
  function PanelAfter(p: Panel, c: Command): (q: Panel)
    ensures !CallsFront(c) ==> q.front == p.front
    ensures !CallsPan(c) ==> q.pan == p.pan
    ensures !CallsTilt(c) ==> q.tilt == p.tilt
    ensures !CallsLights(c) ==> SameLights(q, p)
  {
    match c
    case Led(colour) =>
      var rgb := LedPins(colour);
      p.(ledR := rgb.0, ledG := rgb.1, ledB := rgb.2)
    case LedOff(led) =>
      var q := p.(ledFlag := p.ledFlag[led := false]);
      if led == LedRed then q.(ledR := false)
      else if led == LedGreen then q.(ledG := false)
      else q.(ledB := false)
    case FrontServo(degree) => p.(front := Some(degree))
    case PanCamera(degree) => p.(pan := Some(degree))
    case TiltCamera(degree) => p.(tilt := Some(degree))
    case _ => p
  }

  /** The lights and servos after a whole sequence of commands, oldest first. */
  function PanelReplay(p: Panel, cs: seq<Command>): Panel
    decreases |cs|
  {
    if cs == [] then p else PanelReplay(PanelAfter(p, cs[0]), cs[1..])
  }

  lemma {:induction false} PanelReplayConcat(p: Panel, a: seq<Command>, b: seq<Command>)
    ensures PanelReplay(p, a + b) == PanelReplay(PanelReplay(p, a), b)
    decreases |a|
  {
    if a == [] {
      assert a + b == b;
    } else {
      assert (a + b)[1..] == a[1..] + b;
      PanelReplayConcat(PanelAfter(p, a[0]), a[1..], b);
    }
  }

  /** A run of commands without a call to a servo keeps that servo's angle,
      and one without a light call keeps the LED pins and LED_FLAG; so each
      servo holds the angle of its last call, and the lights that of theirs. */
  lemma {:induction false} PanelKept(p: Panel, cs: seq<Command>)
    ensures (forall i :: 0 <= i < |cs| ==> !CallsFront(cs[i])) ==> PanelReplay(p, cs).front == p.front
    ensures (forall i :: 0 <= i < |cs| ==> !CallsPan(cs[i])) ==> PanelReplay(p, cs).pan == p.pan
    ensures (forall i :: 0 <= i < |cs| ==> !CallsTilt(cs[i])) ==> PanelReplay(p, cs).tilt == p.tilt
    ensures (forall i :: 0 <= i < |cs| ==> !CallsLights(cs[i])) ==> SameLights(PanelReplay(p, cs), p)
    decreases |cs|
  {
    if cs != [] {
      var q := PanelAfter(p, cs[0]);
      var rest := cs[1..];
      PanelKept(q, rest);
      assert PanelReplay(p, cs) == PanelReplay(q, rest);
      assert forall i :: 0 <= i < |rest| ==> rest[i] == cs[i + 1];
    }
  }

  /** Everything the car's commands set: the drivetrain and the panel. */
  datatype Outputs = Outputs(wheels: Wheels, panel: Panel)

  const StartOutputs: Outputs := Outputs(Halted, InitialPanel)

  function OutputsAfter(o: Outputs, c: Command): Outputs {
    Outputs(WheelsAfter(o.wheels, c), PanelAfter(o.panel, c))
  }

  /** Entry i of a history of outputs follows from entry i - 1 by the i-th
      command (counting from 1). */
  ghost predicate Follows(history: seq<Outputs>, cs: seq<Command>, i: nat) {
    0 < i < |history| && i <= |cs| && history[i] == OutputsAfter(history[i - 1], cs[i - 1])
  }

  /** A history that follows a run of commands from the start holds, at
      each point, the replay of the commands issued up to there. */
  lemma {:induction false} HistoryReplays(history: seq<Outputs>, cs: seq<Command>, k: nat)
    requires |history| == |cs| + 1 && history[0] == StartOutputs
    requires forall i :: 0 < i <= |cs| ==> Follows(history, cs, i)
    requires k <= |cs|
    ensures history[k] == Outputs(Replay(Halted, cs[..k]), PanelReplay(InitialPanel, cs[..k]))
    decreases k
  {
    if k == 0 {
      assert cs[..0] == [];
    } else {
      HistoryReplays(history, cs, k - 1);
      assert Follows(history, cs, k);
      var c := cs[k - 1];
      assert cs[..k] == cs[..k - 1] + [c];
      assert [c][1..] == [];
      ReplayConcat(Halted, cs[..k - 1], [c]);
      PanelReplayConcat(InitialPanel, cs[..k - 1], [c]);
    }
  }

  class Car {
    var leftForward: bool
    var leftBackward: bool
    var rightForward: bool
    var rightBackward: bool
    var speedLeft: real
    var speedRight: real
    var ledR: bool
    var ledG: bool
    var ledB: bool
    var ledFlag: map<int, bool>
    var frontServo: Option<int>
    var panServo: Option<int>
    var tiltServo: Option<int>
    /** Every actuator call so far, oldest first. */
    ghost var log: seq<Command>
    /** history[k]: the outputs after the first k calls. */
    ghost var history: seq<Outputs>

    function Drive(): Wheels
      reads this
    {
      Wheels(leftForward, leftBackward, rightForward, rightBackward, speedLeft, speedRight)
    }

    function Lights(): Panel
      reads this
    {
      Panel(ledR, ledG, ledB, ledFlag, frontServo, panServo, tiltServo)
    }

    /** The drivetrain, the lights and the servos are always what the commands
        issued so far leave behind. */
    ghost predicate Replayed()
      reads this
    {
      |history| == |log| + 1 && history[0] == StartOutputs &&
      forall i :: 0 < i <= |log| ==> Follows(history, log, i)
    }

    ghost predicate Valid()
      reads this
    {
      Replayed() && history[|log|] == Outputs(Drive(), Lights())
    }

    /** The drivetrain and the panel are the replay of every command issued
        so far, from a halted car with the lights off and no servo turned. */
    lemma Replays()
      requires Valid()
      ensures Drive() == Replay(Halted, log) && Lights() == PanelReplay(InitialPanel, log)
    {
      HistoryReplays(history, log, |log|);
      assert log[..|log|] == log;
    }

    constructor ()
      ensures Valid() && log == [] && Drive() == Halted && Lights() == InitialPanel
      ensures ledFlag == map[LedRed := true, LedGreen := true, LedBlue := true]
    {
      leftForward, leftBackward, rightForward, rightBackward := false, false, false, false;
      speedLeft, speedRight := 0.0, 0.0;
      ledR, ledG, ledB := false, false, false;
      ledFlag := map[LedRed := true, LedGreen := true, LedBlue := true];
      frontServo, panServo, tiltServo := None, None, None;
      log := [];
      history := [StartOutputs];
    }

    /** __set_motion: write the four direction pins and both duty cycles; with a
        positive duration, the motion runs for that long and the duty cycles
        return to 0. */
    method SetMotion(lf: bool, lb: bool, rf: bool, rb: bool, sl: real, sr: real, duration: real)
      modifies this`leftForward, this`leftBackward, this`rightForward, this`rightBackward,
               this`speedLeft, this`speedRight
      ensures Drive() == Settle(Wheels(lf, lb, rf, rb, sl, sr), duration)
    {
      leftForward := lf;
      leftBackward := lb;
      rightForward := rf;
      rightBackward := rb;
      speedLeft := sl;
      speedRight := sr;
      if duration > 0.0 {
        speedLeft := 0.0;
        speedRight := 0.0;
      }
    }

    /** Append a command to the trace once the hardware shows its effect. */
    ghost method Record(c: Command)
      requires Replayed() && Outputs(Drive(), Lights()) == OutputsAfter(history[|log|], c)
      modifies this`log, this`history
      ensures Valid() && log == old(log) + [c]
    {
      ghost var h := history + [Outputs(Drive(), Lights())];
      ghost var l := log + [c];
      forall i | 0 < i <= |l|
        ensures Follows(h, l, i)
      {
        if i <= |log| {
          assert Follows(history, log, i);
        }
      }
      history, log := h, l;
    }

    method StopAllWheels()
      requires Valid()
      modifies this`leftForward, this`leftBackward, this`rightForward, this`rightBackward,
               this`speedLeft, this`speedRight, this`log, this`history
      ensures Valid() && log == old(log) + [StopWheels]
      ensures Drive() == Halted
    {
      SetMotion(false, false, false, false, 0.0, 0.0, 0.0);
      Record(StopWheels);
    }

    method RunForward(speed: real, duration: real)
      requires Valid()
      modifies this`leftForward, this`leftBackward, this`rightForward, this`rightBackward,
               this`speedLeft, this`speedRight, this`log, this`history
      ensures Valid() && log == old(log) + [Move(Forward, speed, duration)]
      ensures Drive() == Settle(Pattern(Forward, speed), duration)
    {
      SetMotion(true, false, true, false, speed, speed, duration);
      Record(Move(Forward, speed, duration));
    }

    method RunReverse(speed: real, duration: real)
      requires Valid()
      modifies this`leftForward, this`leftBackward, this`rightForward, this`rightBackward,
               this`speedLeft, this`speedRight, this`log, this`history
      ensures Valid() && log == old(log) + [Move(Reverse, speed, duration)]
      ensures Drive() == Settle(Pattern(Reverse, speed), duration)
    {
      SetMotion(false, true, false, true, speed, speed, duration);
      Record(Move(Reverse, speed, duration));
    }

    method TurnLeft(speed: real, duration: real)
      requires Valid()
      modifies this`leftForward, this`leftBackward, this`rightForward, this`rightBackward,
               this`speedLeft, this`speedRight, this`log, this`history
      ensures Valid() && log == old(log) + [Move(MotionKind.TurnLeft, speed, duration)]
      ensures Drive() == Settle(Pattern(MotionKind.TurnLeft, speed), duration)
    {
      SetMotion(false, false, true, false, 0.0, speed, duration);
      Record(Move(MotionKind.TurnLeft, speed, duration));
    }

    method TurnRight(speed: real, duration: real)
      requires Valid()
      modifies this`leftForward, this`leftBackward, this`rightForward, this`rightBackward,
               this`speedLeft, this`speedRight, this`log, this`history
      ensures Valid() && log == old(log) + [Move(MotionKind.TurnRight, speed, duration)]
      ensures Drive() == Settle(Pattern(MotionKind.TurnRight, speed), duration)
    {
      SetMotion(true, false, false, false, speed, 0.0, duration);
      Record(Move(MotionKind.TurnRight, speed, duration));
    }

    method SpinLeft(speed: real, duration: real)
      requires Valid()
      modifies this`leftForward, this`leftBackward, this`rightForward, this`rightBackward,
               this`speedLeft, this`speedRight, this`log, this`history
      ensures Valid() && log == old(log) + [Move(MotionKind.SpinLeft, speed, duration)]
      ensures Drive() == Settle(Pattern(MotionKind.SpinLeft, speed), duration)
    {
      SetMotion(false, true, true, false, speed, speed, duration);
      Record(Move(MotionKind.SpinLeft, speed, duration));
    }

    method SpinRight(speed: real, duration: real)
      requires Valid()
      modifies this`leftForward, this`leftBackward, this`rightForward, this`rightBackward,
               this`speedLeft, this`speedRight, this`log, this`history
      ensures Valid() && log == old(log) + [Move(MotionKind.SpinRight, speed, duration)]
      ensures Drive() == Settle(Pattern(MotionKind.SpinRight, speed), duration)
    {
      SetMotion(true, false, false, true, speed, speed, duration);
      Record(Move(MotionKind.SpinRight, speed, duration));
    }

    method LedLight(colour: string)
      requires Valid()
      modifies this`ledR, this`ledG, this`ledB, this`log, this`history
      ensures Valid() && log == old(log) + [Led(colour)]
      ensures (ledR, ledG, ledB) == LedPins(colour)
    {
      if colour == "red" {
        ledR, ledG, ledB := true, false, false;
      } else if colour == "green" {
        ledR, ledG, ledB := false, true, false;
      } else if colour == "blue" {
        ledR, ledG, ledB := false, false, true;
      } else if colour == "yellow" {
        ledR, ledG, ledB := true, true, false;
      } else if colour == "cyan" {
        ledR, ledG, ledB := false, true, true;
      } else if colour == "purple" {
        ledR, ledG, ledB := true, false, true;
      } else if colour == "white" {
        ledR, ledG, ledB := true, true, true;
      } else {
        ledR, ledG, ledB := false, false, false;
      }
      assert (ledR, ledG, ledB) == LedPins(colour);
      Record(Led(colour));
    }

    /** turn_off_led: clear the flag of `led` and drive its pin low; any index
        other than red or green addresses the blue pin. */
    method TurnOffLed(led: int)
      requires Valid()
      modifies this`ledR, this`ledG, this`ledB, this`ledFlag, this`log, this`history
      ensures Valid() && log == old(log) + [LedOff(led)]
      ensures ledFlag == old(ledFlag)[led := false]
      ensures led == LedRed ==> !ledR && ledG == old(ledG) && ledB == old(ledB)
      ensures led == LedGreen ==> !ledG && ledR == old(ledR) && ledB == old(ledB)
      ensures led != LedRed && led != LedGreen ==> !ledB && ledR == old(ledR) && ledG == old(ledG)
    {
      ledFlag := ledFlag[led := false];
      if led == LedRed {
        ledR := false;
      } else if led == LedGreen {
        ledG := false;
      } else {
        ledB := false;
      }
      Record(LedOff(led));
    }

    method TurnServoUltrasonic(dir: string, degree: int)
      requires Valid()
      modifies this`frontServo, this`log, this`history
      ensures Valid() && log == old(log) + [FrontServo(UltrasonicServoDegree(dir, degree))]
      ensures frontServo == Some(UltrasonicServoDegree(dir, degree))
    {
      var d := degree;
      if dir == "center" {
        d := 90;
      } else if dir == "right" {
        d := 0;
      } else if dir == "left" {
        d := 180;
      }
      frontServo := Some(d);
      Record(FrontServo(d));
    }

    method TurnServoCameraHorizontal(pos: int)
      requires Valid()
      modifies this`panServo, this`log, this`history
      ensures Valid() && log == old(log) + [PanCamera(pos)] && panServo == Some(pos)
    {
      panServo := Some(pos);
      Record(PanCamera(pos));
    }

    method TurnServoCameraVertical(pos: int)
      requires Valid()
      modifies this`tiltServo, this`log, this`history
      ensures Valid() && log == old(log) + [TiltCamera(pos)] && tiltServo == Some(pos)
    {
      tiltServo := Some(pos);
      Record(TiltCamera(pos));
    }
  }
}
