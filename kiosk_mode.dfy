/** Kiosk lock-down (src/utils/kioskMode.ts): the input events whose
    default action the page prevents, and the idle counter that reloads the
    page. The one-second interval is a `Tick` event; the reload is reported,
    not performed. */
module KioskMode {
  import opened Wrappers

  /** The input events `lockActions` listens to. */
  datatype InputEvent = ContextMenu | MouseDown(button: int) | TouchStart(touches: nat)

  /** Whether the listener calls `preventDefault`: the context menu always,
      the middle mouse button, and touches with more than one finger. */
  predicate Prevented(e: InputEvent) {
    match e
    case ContextMenu => true
    case MouseDown(button) => button == 1
    case TouchStart(touches) => touches > 1
  }

  /** For every input: `preventDefault` is called on every context menu, on
      a mouse press exactly when it is the middle button, and on a touch
      exactly when more than one finger is down. Ordinary use (the primary
      and secondary buttons, single-finger touches) gets through. */
  lemma PreventedInputs()
    ensures Prevented(ContextMenu)
    ensures forall b: int :: Prevented(MouseDown(b)) <==> b == 1
    ensures forall n: nat :: Prevented(TouchStart(n)) <==> n > 1
  {
  }

  const DefaultSeconds := 300

  /** The document events that count as activity. */
  const ActivityEvents := ["mousemove", "keydown", "touchstart", "input"]

  datatype IdleEvent = Tick | Activity(name: string)

  /** One event on the idle counter: the new count and whether the page
      reloads. Activity resets the count; a tick adds one and reloads once
      the count exceeds `seconds`. */
  function IdleStep(idleTime: int, seconds: int, e: IdleEvent): (int, bool) {
    match e
    case Tick => (idleTime + 1, idleTime + 1 > seconds)
    case Activity(name) => (if name in ActivityEvents then 0 else idleTime, false)
  }

  /** The count after a run of events. */
  function IdleAfter(idleTime: int, seconds: int, events: seq<IdleEvent>): int
    decreases |events|
  {
    if events == [] then idleTime
    else IdleAfter(IdleStep(idleTime, seconds, events[0]).0, seconds, events[1..])
  }

  /** For each of `n` ticks without activity, whether it reloads. */
  function TickReloads(idleTime: int, seconds: int, n: nat): seq<bool>
    decreases n
  {
    if n == 0 then []
    else [IdleStep(idleTime, seconds, Tick).1] + TickReloads(idleTime + 1, seconds, n - 1)
  }

  /** Without activity, tick `j` (counting from 0) reloads exactly when the
      count then exceeds `seconds`. */
  lemma {:induction false} TickReloadsAt(idleTime: int, seconds: int, n: nat, j: nat)
    requires j < n
    ensures |TickReloads(idleTime, seconds, n)| == n
    ensures TickReloads(idleTime, seconds, n)[j] <==> idleTime + j + 1 > seconds
    decreases n
  {
    TickReloadsLength(idleTime, seconds, n);
    if j > 0 {
      TickReloadsAt(idleTime + 1, seconds, n - 1, j - 1);
    }
  }

  lemma {:induction false} TickReloadsLength(idleTime: int, seconds: int, n: nat)
    ensures |TickReloads(idleTime, seconds, n)| == n
    decreases n
  {
    if n > 0 {
      TickReloadsLength(idleTime + 1, seconds, n - 1);
    }
  }

  /** From a fresh counter, the first reload is on tick `seconds + 1`: the
      ticks before it do not reload and that one does. */
  lemma FirstReloadAfterSeconds(seconds: nat)
    ensures var reloads := TickReloads(0, seconds, seconds + 1);
      |reloads| == seconds + 1 && reloads[seconds] &&
      forall j :: 0 <= j < seconds ==> !reloads[j]
  {
    var reloads := TickReloads(0, seconds, seconds + 1);
    TickReloadsAt(0, seconds, seconds + 1, seconds);
    forall j | 0 <= j < seconds
      ensures !reloads[j]
    {
      TickReloadsAt(0, seconds, seconds + 1, j);
    }
  }

  /** An event one of the activity listeners reacts to. */
  predicate IsReset(e: IdleEvent) {
    e.Activity? && e.name in ActivityEvents
  }

  /** The number of ticks among the events. */
  function TickCount(events: seq<IdleEvent>): nat
    decreases |events|
  {
    if events == [] then 0 else (if events[0].Tick? then 1 else 0) + TickCount(events[1..])
  }

  /** With no activity among the events, the counter grows by their ticks. */
  lemma {:induction false} IdleWithoutReset(idleTime: int, seconds: int, events: seq<IdleEvent>)
    requires forall i :: 0 <= i < |events| ==> !IsReset(events[i])
    ensures IdleAfter(idleTime, seconds, events) == idleTime + TickCount(events)
    decreases |events|
  {
    if events != [] {
      assert !IsReset(events[0]);
      assert forall i :: 0 <= i < |events[1..]| ==> events[1..][i] == events[i + 1];
      IdleWithoutReset(IdleStep(idleTime, seconds, events[0]).0, seconds, events[1..]);
    }
  }

  lemma {:induction false} IdleAfterConcat(idleTime: int, seconds: int, a: seq<IdleEvent>, b: seq<IdleEvent>)
    ensures IdleAfter(idleTime, seconds, a + b) == IdleAfter(IdleAfter(idleTime, seconds, a), seconds, b)
    decreases |a|
  {
    if a != [] {
      assert (a + b)[1..] == a[1..] + b;
      IdleAfterConcat(IdleStep(idleTime, seconds, a[0]).0, seconds, a[1..], b);
    } else {
      assert a + b == b;
    }
  }

  lemma {:induction false} IdleAfterAppend(idleTime: int, seconds: int, events: seq<IdleEvent>, e: IdleEvent)
    ensures IdleAfter(idleTime, seconds, events + [e]) ==
            IdleStep(IdleAfter(idleTime, seconds, events), seconds, e).0
    decreases |events|
  {
    if events != [] {
      assert (events + [e])[1..] == events[1..] + [e];
      IdleAfterAppend(IdleStep(idleTime, seconds, events[0]).0, seconds, events[1..], e);
    } else {
      assert events + [e] == [e];
    }
  }

  /** The counter the interval keeps is the number of ticks since the last
      activity event `k`, or the starting count plus all ticks when there is
      none (`k == -1`), whatever the threshold. */
  lemma IdleIsTicksSinceActivity(idleTime: int, seconds: int, events: seq<IdleEvent>, k: int)
    requires -1 <= k < |events|
    requires k >= 0 ==> IsReset(events[k])
    requires forall j :: k < j < |events| ==> !IsReset(events[j])
    ensures IdleAfter(idleTime, seconds, events) ==
      if k == -1 then idleTime + TickCount(events) else TickCount(events[k + 1..])
  {
    if k == -1 {
      IdleWithoutReset(idleTime, seconds, events);
    } else {
      var upTo, after := events[..k + 1], events[k + 1..];
      assert events == upTo + after;
      IdleAfterConcat(idleTime, seconds, upTo, after);
      assert upTo == events[..k] + [events[k]];
      IdleAfterAppend(idleTime, seconds, events[..k], events[k]);
      assert forall i :: 0 <= i < |after| ==> after[i] == events[k + 1 + i];
      IdleWithoutReset(0, seconds, after);
    }
  }

  /** The idle counter of `setUpAutoRefresh`, updated in place. */
  class IdleCounter {
    var idleTime: int
    const seconds: int

    constructor (seconds: int)
      ensures this.seconds == seconds && idleTime == 0
    {
      this.seconds := seconds;
      idleTime := 0;
    }

    /** A document event: an activity event resets the count. */
    method OnEvent(name: string)
      modifies this
      ensures idleTime == IdleStep(old(idleTime), seconds, Activity(name)).0
      ensures name in ActivityEvents ==> idleTime == 0
      ensures name !in ActivityEvents ==> idleTime == old(idleTime)
    {
      if name in ActivityEvents {
        idleTime := 0;
      }
    }

    /** The interval callback: count one second, and reload once the count
        exceeds the threshold. */
    method OnTick() returns (reload: bool)
      modifies this
      ensures idleTime == old(idleTime) + 1
      ensures reload <==> idleTime > seconds
      ensures (idleTime, reload) == IdleStep(old(idleTime), seconds, Tick)
    {
      idleTime := idleTime + 1;
      reload := idleTime > seconds;
    }
  }

  /** `setUpAutoRefresh`: a fresh counter with the given threshold, or 300
      seconds when none is passed. */
  method SetUpAutoRefresh(seconds: Option<int>) returns (counter: IdleCounter)
    ensures fresh(counter) && counter.idleTime == 0
    ensures counter.seconds == seconds.GetOr(DefaultSeconds)
    ensures seconds.None? ==> counter.seconds == 300
  {
    counter := new IdleCounter(seconds.GetOr(DefaultSeconds));
  }
}
