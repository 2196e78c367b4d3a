// The sensor classifiers of server/thinkland_rpi_car.py: the line-tracking
// priority table, the infrared and ultrasonic obstacle statuses, and the
// policy decisions shared by the cruising loops.  Sensor reads are inputs.

module Sensing {
  import opened Motion

  /** The eight results of line_tracking_turn_type. */
  datatype LineTurn =
    | SharpLeftTurn | SharpRightTurn
    | RegularLeftTurn | RegularRightTurn
    | SmoothLeft | SmoothRight
    | Straight | NoLine

  /** The four results of obstacle_status_from_infrared. */
  datatype InfraredStatus = Clear | OnlyLeftBlocked | OnlyRightBlocked | Blocked

  /** The three results of obstacle_status_from_ultrasound. */
  datatype UltrasoundStatus = UsClear | Approaching | UsBlocked

  /** line_tracking_turn_type: the four sensors, left to right, true when the
      sensor sees dark; the first matching row of the priority table wins. */
  function LineTrackingTurnType(s1: bool, s2: bool, s3: bool, s4: bool): (t: LineTurn)
    // first match: both outer sensors and s3 dark is a sharp left whatever s2 reads
    ensures s1 && s3 && s4 ==> t == SharpLeftTurn
    ensures !(s1 && s3 && s4) && (s1 || s2) && s4 ==> t == SharpRightTurn
    // each result, stated as the exact set of patterns that produce it
    ensures t == SharpLeftTurn <==> s1 && s3 && s4
    ensures t == SharpRightTurn <==> s4 && ((s1 && !s3) || (!s1 && s2))
    ensures t == RegularLeftTurn <==> s1 && !s4
    ensures t == RegularRightTurn <==> !s1 && !s2 && s4
    ensures t == SmoothLeft <==> !s1 && !s4 && s2 && !s3
    ensures t == SmoothRight <==> !s1 && !s4 && !s2 && s3
    ensures t == Straight <==> !s1 && !s4 && s2 && s3
    ensures t == NoLine <==> !s1 && !s2 && !s3 && !s4
  {
    if s1 && (s3 && s4) then SharpLeftTurn
    else if (s1 || s2) && s4 then SharpRightTurn
    else if s1 then RegularLeftTurn
    else if s4 then RegularRightTurn
    else if s2 && !s3 then SmoothLeft
    else if !s2 && s3 then SmoothRight
    else if s2 && s3 then Straight
    else NoLine
  }

  /** obstacle_status_from_infrared: each channel reads true when nothing is in
      front of it. */
  function InfraredStatusOf(leftClear: bool, rightClear: bool): (s: InfraredStatus)
    ensures s == Clear <==> leftClear && rightClear
    ensures s == OnlyRightBlocked <==> leftClear && !rightClear
    ensures s == OnlyLeftBlocked <==> !leftClear && rightClear
    ensures s == Blocked <==> !leftClear && !rightClear
  {
    if leftClear && rightClear then Clear
    else if leftClear && !rightClear then OnlyRightBlocked
    else if !leftClear && rightClear then OnlyLeftBlocked
    else Blocked
  }

  /** The threshold part of obstacle_status_from_ultrasound, for a distance in
      centimetres or one of the fault codes -2 and -3 of distance_from_obstacle. */
  function UltrasoundStatusOf(distance: real): (s: UltrasoundStatus)
    ensures s == UsBlocked <==> distance <= 20.0
    ensures s == Approaching <==> 20.0 < distance <= 50.0
    ensures s == UsClear <==> distance > 50.0
  {
    if distance <= 20.0 then UsBlocked
    else if distance <= 50.0 then Approaching
    else UsClear
  }

  /** Fault codes of distance_from_obstacle: echo already high, echo timeout. */
  const EchoStuckHigh: real := -2.0
  const EchoTimeout: real := -3.0

  /** How free the way ahead is: 0 blocked, 1 approaching, 2 clear. */
  function Openness(s: UltrasoundStatus): nat {
    match s
    case UsBlocked => 0
    case Approaching => 1
    case UsClear => 2
  }

  /** A farther obstacle never gives a more cautious status, and a ranging fault
      is read as blocked, never as clear. */
  lemma UltrasoundMonotone(d1: real, d2: real)
    requires d1 <= d2
    ensures Openness(UltrasoundStatusOf(d1)) <= Openness(UltrasoundStatusOf(d2))
    ensures UltrasoundStatusOf(EchoStuckHigh) == UsBlocked
    ensures UltrasoundStatusOf(EchoTimeout) == UsBlocked
  {
  }

  /** What distance_from_obstacle returns: an int fault code (-2, -3), or, on
      a successful measurement, the distance converted to text. */
  datatype RangeReading = FaultCode(code: int) | DistanceText(text: string)

  /** obstacle_status_from_ultrasound applied to that return value as the code
      stands: comparing text with a number raises TypeError in Python 3, shown
      here as None.  Only the fault codes get a status. */
  function UltrasoundStatusAsWritten(r: RangeReading): (s: Option<UltrasoundStatus>)
    ensures s.None? <==> r.DistanceText?
    ensures r.FaultCode? ==> s == Some(UltrasoundStatusOf(r.code as real))
  {
    match r
    case FaultCode(code) => Some(UltrasoundStatusOf(code as real))
    case DistanceText(_) => None
  }

  /** A measured 35 cm, which the documented thresholds call approaching,
      gets no status at all; the numeric reading gets the intended one. */
  lemma MeasuredDistanceGetsNoStatus()
    ensures UltrasoundStatusAsWritten(DistanceText("35.0")) == None
    ensures UltrasoundStatusOf(35.0) == Approaching
  {
  }

  /** The cruising loops turn away unless the infrared pair is clear and the
      ultrasonic range is not blocked (the should_turn flag of demo_cruising
      and Cruising). */
  function ShouldTurn(ir: InfraredStatus, distance: real): (turn: bool)
    ensures !turn <==> ir == Clear && distance > 20.0
  {
    ir != Clear || UltrasoundStatusOf(distance) == UsBlocked
  }
}
