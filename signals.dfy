// The two flags shared between the threads of
// client/thinkland_rpi_demo_move_find_object.py: STOP_FLAGE, set by the
// keyboard listener, and CRUSING_FLOG, cleared by the find_object watcher.
// The threads are modelled sequentially: whatever the other threads did
// between two checks of a loop reaches that loop as a list of events.

module Signals {

  /** The label find_object looks for, whatever object it is asked for. */
  const Target: string := "cup"

  /** A key the listener reports: on_press reads `key.char` first, so only a
      key without a character can be Caps Lock. */
  datatype Key = CapsLock | OtherSpecialKey | CharKey(c: char)

  /** What another thread can do to the flags: a key press handled by on_press,
      or one pass of the find_object watcher over a detected label list. */
  datatype SignalEvent = KeyPress(key: Key) | Watched(labels: seq<string>)

  datatype Flags = Flags(stopRequested: bool, cruising: bool)

  /** STOP_FLAGE = False and CRUSING_FLOG = True at module load. */
  const Start: Flags := Flags(false, true)

  /** on_press: Caps Lock requests a stop; every other key is ignored. */
  function OnPress(f: Flags, key: Key): (g: Flags)
    ensures g.cruising == f.cruising
    ensures g.stopRequested <==> f.stopRequested || key == CapsLock
  {
    if key.CharKey? then f
    else if key == CapsLock then f.(stopRequested := true)
    else f
  }

  /** One pass of find_object after detection: leave on a stop request,
      otherwise clear the cruising flag when a cup is among the labels. */
  function WatchFrame(f: Flags, labels: seq<string>): (g: Flags)
    ensures g.stopRequested == f.stopRequested
    // the watcher only ever moves the cruising flag from true to false
    ensures g.cruising ==> f.cruising
    ensures f.cruising && !g.cruising <==> f.cruising && !f.stopRequested && Target in labels
  {
    if f.stopRequested then f
    else if Target in labels && f.cruising then f.(cruising := false)
    else f
  }

  function AfterEvent(f: Flags, e: SignalEvent): Flags {
    match e
    case KeyPress(key) => OnPress(f, key)
    case Watched(labels) => WatchFrame(f, labels)
  }

  /** The flags after a list of events, oldest first. */
  function AfterEvents(f: Flags, es: seq<SignalEvent>): Flags
    decreases |es|
  {
    if es == [] then f else AfterEvents(AfterEvent(f, es[0]), es[1..])
  }

  function Presses(keys: seq<Key>): (es: seq<SignalEvent>)
    ensures |es| == |keys|
    ensures forall i :: 0 <= i < |keys| ==> es[i] == KeyPress(keys[i])
  {
    seq(|keys|, i requires 0 <= i < |keys| => KeyPress(keys[i]))
  }

  /** Once a stop is requested nothing changes the flags any more: the
      request is never withdrawn and the watcher leaves before looking. */
  lemma {:induction false} StopAbsorbs(f: Flags, es: seq<SignalEvent>)
    requires f.stopRequested
    ensures AfterEvents(f, es) == f
    decreases |es|
  {
    if es != [] {
      StopAbsorbs(AfterEvent(f, es[0]), es[1..]);
    }
  }

  /** A stop request persists, a cleared cruising flag stays cleared, and the
      cruising flag is cleared only by a watcher pass that saw the target
      while no stop was requested. */
  lemma {:induction false} EventsOnlyLatch(f: Flags, es: seq<SignalEvent>)
    ensures f.stopRequested ==> AfterEvents(f, es).stopRequested
    ensures AfterEvents(f, es).cruising ==> f.cruising
    ensures f.cruising && !AfterEvents(f, es).cruising ==>
      exists i :: 0 <= i < |es| && es[i].Watched? && Target in es[i].labels
    decreases |es|
  {
    if es != [] {
      var g := AfterEvent(f, es[0]);
      EventsOnlyLatch(g, es[1..]);
      if f.cruising && !AfterEvents(f, es).cruising && g.cruising {
        var i :| 0 <= i < |es[1..]| && es[1..][i].Watched? && Target in es[1..][i].labels;
        assert es[i + 1] == es[1..][i];
      }
    }
  }

  /** Without a Caps Lock press no stop is ever requested. */
  lemma {:induction false} NoStopWithoutCapsLock(f: Flags, es: seq<SignalEvent>)
    requires !f.stopRequested
    requires forall i :: 0 <= i < |es| ==> es[i] != KeyPress(CapsLock)
    ensures !AfterEvents(f, es).stopRequested
    decreases |es|
  {
    if es != [] {
      NoStopWithoutCapsLock(AfterEvent(f, es[0]), es[1..]);
    }
  }

  /** A Caps Lock press among the events always leaves a stop request. */
  lemma {:induction false} CapsLockStops(f: Flags, es: seq<SignalEvent>)
    requires KeyPress(CapsLock) in es
    ensures AfterEvents(f, es).stopRequested
    decreases |es|
  {
    if es[0] == KeyPress(CapsLock) {
      EventsOnlyLatch(AfterEvent(f, es[0]), es[1..]);
    } else {
      assert KeyPress(CapsLock) in es[1..];
      CapsLockStops(AfterEvent(f, es[0]), es[1..]);
    }
  }

  /** The module-level flags, shared by every loop of the client. */
  class SharedFlags {
    /** STOP_FLAGE */
    var stopRequested: bool
    /** CRUSING_FLOG */
    var cruising: bool

    function State(): Flags
      reads this
    {
      Flags(stopRequested, cruising)
    }

    constructor ()
      ensures State() == Start
    {
      stopRequested, cruising := false, true;
    }

    /** on_press, run by the keyboard listener thread. */
    method Press(key: Key)
      modifies this
      ensures State() == OnPress(old(State()), key)
    {
      if !key.CharKey? && key == CapsLock {
        stopRequested := true;
      }
    }

    /** The flag part of one pass of find_object; `done` is the break. */
    method Watch(labels: seq<string>) returns (done: bool)
      modifies this
      ensures done == old(stopRequested)
      ensures State() == WatchFrame(old(State()), labels)
    {
      if stopRequested {
        return true;
      }
      if Target in labels && cruising {
        cruising := false;
      }
      return false;
    }

    /** CRUSING_FLOG = True, as move_step_find_object1_thread does before and
        during its coarse lock. */
    method ResumeCruising()
      modifies this
      ensures State() == old(State()).(cruising := true)
    {
      cruising := true;
    }

    /** Let the other threads' events since the last check take effect. */
    method Deliver(es: seq<SignalEvent>)
      modifies this
      ensures State() == AfterEvents(old(State()), es)
    {
      var i := 0;
      while i < |es|
        invariant 0 <= i <= |es|
        invariant AfterEvents(State(), es[i..]) == AfterEvents(old(State()), es)
      {
        assert es[i..][1..] == es[i + 1..];
        match es[i] {
          case KeyPress(key) => Press(key);
          case Watched(labels) => var _ := Watch(labels);
        }
        i := i + 1;
      }
    }
  }

  /** One pass of the watcher loop: the keys pressed meanwhile, then the labels
      detected in the picture it took. */
  datatype WatchTick = WatchTick(pressed: seq<Key>, labels: seq<string>)

  datatype WatchOutcome = WatchOutcome(flags: Flags, passes: nat, left: bool)

  /** find_object over a finite run of passes: the flags afterwards, how many
      passes ran, and whether the loop left on a stop request. */
  function WatchRun(f: Flags, ticks: seq<WatchTick>): WatchOutcome
    decreases |ticks|
  {
    if ticks == [] then WatchOutcome(f, 0, false)
    else
      var g := AfterEvents(f, Presses(ticks[0].pressed));
      if g.stopRequested then WatchOutcome(g, 1, true)
      else
        var rest := WatchRun(WatchFrame(g, ticks[0].labels), ticks[1..]);
        WatchOutcome(rest.flags, 1 + rest.passes, rest.left)
  }

  function TickEvents(ticks: seq<WatchTick>): seq<SignalEvent>
    decreases |ticks|
  {
    if ticks == [] then []
    else Presses(ticks[0].pressed) + [Watched(ticks[0].labels)] + TickEvents(ticks[1..])
  }

  lemma {:induction false} AfterEventsAppend(f: Flags, a: seq<SignalEvent>, b: seq<SignalEvent>)
    ensures AfterEvents(f, a + b) == AfterEvents(AfterEvents(f, a), b)
    decreases |a|
  {
    if a == [] {
      assert a + b == b;
    } else {
      assert (a + b)[1..] == a[1..] + b;
      AfterEventsAppend(AfterEvent(f, a[0]), a[1..], b);
    }
  }

  /** The watcher leaves its loop at the first pass that sees a stop request,
      and its passes change the flags exactly as the same presses and
      sightings delivered one by one would: leaving early loses nothing. */
  lemma {:induction false} WatchRunIsDelivery(f: Flags, ticks: seq<WatchTick>)
    ensures WatchRun(f, ticks).flags == AfterEvents(f, TickEvents(ticks))
    ensures WatchRun(f, ticks).passes <= |ticks|
    ensures WatchRun(f, ticks).left ==> WatchRun(f, ticks).flags.stopRequested
    ensures f.stopRequested && ticks != [] ==> WatchRun(f, ticks).passes == 1
    // a stop standing at the end of a non-empty run was seen at a pass's check
    ensures ticks != [] && WatchRun(f, ticks).flags.stopRequested ==> WatchRun(f, ticks).left
    decreases |ticks|
  {
    if ticks != [] {
      var ps := Presses(ticks[0].pressed);
      var g := AfterEvents(f, ps);
      EventsOnlyLatch(f, ps);
      AfterEventsAppend(f, ps + [Watched(ticks[0].labels)], TickEvents(ticks[1..]));
      AfterEventsAppend(f, ps, [Watched(ticks[0].labels)]);
      if g.stopRequested {
        StopAbsorbs(g, [Watched(ticks[0].labels)] + TickEvents(ticks[1..]));
        AfterEventsAppend(g, [Watched(ticks[0].labels)], TickEvents(ticks[1..]));
      } else {
        WatchRunIsDelivery(WatchFrame(g, ticks[0].labels), ticks[1..]);
      }
    }
  }

  /** find_object: `wanted` (the source's `object` parameter) is never consulted; the loop looks for Target. */
  method FindObject(flags: SharedFlags, wanted: string, ticks: seq<WatchTick>) returns (passes: nat, left: bool)
    modifies flags
    ensures WatchRun(old(flags.State()), ticks) == WatchOutcome(flags.State(), passes, left)
  {
    passes, left := 0, false;
    var i := 0;
    while i < |ticks|
      invariant 0 <= i <= |ticks| && passes == i
      invariant WatchRun(flags.State(), ticks[i..]).flags == WatchRun(old(flags.State()), ticks).flags
      invariant i + WatchRun(flags.State(), ticks[i..]).passes == WatchRun(old(flags.State()), ticks).passes
      invariant WatchRun(flags.State(), ticks[i..]).left == WatchRun(old(flags.State()), ticks).left
    {
      assert ticks[i..][1..] == ticks[i + 1..];
      flags.Deliver(Presses(ticks[i].pressed));
      var done := flags.Watch(ticks[i].labels);
      passes := passes + 1;
      if done {
        left := true;
        return;
      }
      i := i + 1;
    }
  }
}
