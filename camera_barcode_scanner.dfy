/** The camera barcode reader's debouncer (src/components/CameraBarcodeScanner.tsx).
    The camera and the detector are a stream of per-frame detection results;
    the two five-second pause timers are `Restart` events. A code is reported
    once the count of frames showing it first reaches three, with no frame
    showing another code first in between; frames without a barcode, failed
    detections and restarts do not reset that count, so after a restart one
    more frame of the same code reports it again. After a report, or after
    100 frames without one, scanning pauses until restart. */
module CameraBarcodeScanner {
  import opened Wrappers

  const MaxScans := 100
  const ReportAfter := 3

  /** What `barcodeDetector.detect` gave for one frame: the raw values of
      the barcodes found, in the detector's order, or a failure. */
  datatype FrameResult = Detected(codes: seq<string>) | DetectionFailed

  /** The scanner's closure variables. */
  datatype ScanState = ScanState(
    lastCode: Option<string>,
    consecutiveCount: nat,
    totalScans: nat,
    stopScanning: bool)

  const Started := ScanState(None, 0, 0, false)

  /** The invariant every reachable state keeps. */
  ghost predicate Inv(s: ScanState) {
    && s.totalScans <= MaxScans
    && (s.totalScans == MaxScans ==> s.stopScanning)
    && (s.lastCode.None? <==> s.consecutiveCount == 0)
  }

  /** The code considered in a frame: the first barcode detected, if any. */
  function FirstCode(r: FrameResult): (c: Option<string>)
    ensures c.Some? <==> r.Detected? && |r.codes| > 0
    ensures c.Some? ==> c.value == r.codes[0]
  {
    if r.Detected? && |r.codes| > 0 then Some(r.codes[0]) else None
  }

  /** One run of `scanFrame`: the new state and the code reported, if any.
      A paused scanner does nothing; a report pauses it; the invariant is
      kept. */
  function Step(s: ScanState, r: FrameResult): (res: (ScanState, Option<string>))
    ensures s.stopScanning ==> res == (s, None)
    ensures res.1.Some? ==> res.0.stopScanning && res.1 == FirstCode(r)
    ensures Inv(s) ==> Inv(res.0)
  {
    if s.stopScanning then (s, None)
    else
      var seen :=
        match FirstCode(r)
        case None => s
        case Some(c) =>
          if s.lastCode == Some(c) then s.(consecutiveCount := s.consecutiveCount + 1)
          else s.(lastCode := Some(c), consecutiveCount := 1);
      if FirstCode(r).Some? && seen.consecutiveCount >= ReportAfter then
        (seen.(stopScanning := true), FirstCode(r))
      else
        var total := seen.totalScans + 1;
        (seen.(totalScans := total, stopScanning := total >= MaxScans), None)
  }

  /** The restart timer: resume with a fresh frame budget. The debounce
      state is kept. */
  function Restart(s: ScanState): (r: ScanState)
    ensures !r.stopScanning && r.totalScans == 0
    ensures r.lastCode == s.lastCode && r.consecutiveCount == s.consecutiveCount
    ensures Inv(s) ==> Inv(r)
  {
    s.(stopScanning := false, totalScans := 0)
  }

  datatype Event = Frame(result: FrameResult) | RestartFired

  /** One event: a frame, or the restart timer. */
  function EventStep(s: ScanState, e: Event): (ScanState, Option<string>) {
    match e
    case Frame(r) => Step(s, r)
    case RestartFired => (Restart(s), None)
  }

  function Reported(c: Option<string>): seq<string> {
    if c.Some? then [c.value] else []
  }

  /** The state and the codes reported, in order, after a run of events. */
  function Run(s: ScanState, events: seq<Event>): (ScanState, seq<string>)
    decreases |events|
  {
    if events == [] then (s, [])
    else
      var first := EventStep(s, events[0]);
      var rest := Run(first.0, events[1..]);
      (rest.0, Reported(first.1) + rest.1)
  }

  /** A frame without a barcode, or with a failed detection, leaves the
      debounce state alone; it only uses up the frame budget. */
  lemma EmptyFrameKeepsCode(s: ScanState, r: FrameResult)
    requires FirstCode(r).None?
    ensures var (next, reported) := Step(s, r);
      reported.None? && next.lastCode == s.lastCode && next.consecutiveCount == s.consecutiveCount
  {
  }

  /** Only the first barcode of a frame counts: frames that agree on it
      have the same effect. */
  lemma OnlyFirstBarcodeCounts(s: ScanState, a: seq<string>, b: seq<string>)
    requires |a| > 0 && |b| > 0 && a[0] == b[0]
    ensures Step(s, Detected(a)) == Step(s, Detected(b))
  {
  }

  /** A running scanner counts repeats of the same code and starts again at
      one for a different code; it reports exactly when the count reaches
      three, and then pauses. */
  lemma DebounceStep(s: ScanState, r: FrameResult, c: string)
    requires !s.stopScanning && FirstCode(r) == Some(c)
    ensures var (next, reported) := Step(s, r);
      next.lastCode == Some(c) &&
      next.consecutiveCount == (if s.lastCode == Some(c) then s.consecutiveCount + 1 else 1) &&
      (reported.Some? <==> next.consecutiveCount >= 3) &&
      (reported.Some? ==> reported.value == c && next.stopScanning && next.totalScans == s.totalScans)
  {
  }

  /** A frame that reports nothing uses one unit of the frame budget, and
      the scanner pauses when the budget reaches 100. */
  lemma FrameBudget(s: ScanState, r: FrameResult)
    requires !s.stopScanning
    requires Step(s, r).1.None?
    ensures Step(s, r).0.totalScans == s.totalScans + 1
    ensures Step(s, r).0.stopScanning <==> s.totalScans + 1 >= MaxScans
  {
  }

  /** A paused scanner ignores every frame until it is restarted. */
  lemma {:induction false} PausedIgnoresFrames(s: ScanState, events: seq<Event>)
    requires s.stopScanning
    requires forall i :: 0 <= i < |events| ==> events[i].Frame?
    ensures Run(s, events) == (s, [])
    decreases |events|
  {
    if events != [] {
      assert EventStep(s, events[0]) == (s, None);
      assert forall i :: 0 <= i < |events[1..]| ==> events[1..][i] == events[i + 1];
      PausedIgnoresFrames(s, events[1..]);
      var tail: seq<string> := Run(s, events[1..]).1;
      assert [] + tail == tail;
    }
  }

  /** Every run from a state satisfying the invariant keeps it; in
      particular the frame budget never exceeds 100. */
  lemma {:induction false} RunKeepsInv(s: ScanState, events: seq<Event>)
    requires Inv(s)
    ensures Inv(Run(s, events).0) && Run(s, events).0.totalScans <= MaxScans
    decreases |events|
  {
    if events != [] {
      var next := EventStep(s, events[0]).0;
      assert Inv(next);
      RunKeepsInv(next, events[1..]);
    }
  }

  /** Three frames showing the same new code on a running scanner with
      budget left report that code once and pause. */
  lemma ThreeFramesReport(s: ScanState, c: string, rest: seq<string>)
    requires !s.stopScanning && s.lastCode != Some(c) && s.totalScans + 2 < MaxScans
    ensures var f := Frame(Detected([c] + rest));
      var (last, reported) := Run(s, [f, f, f]);
      reported == [c] && last.stopScanning && last.lastCode == Some(c) && last.consecutiveCount == 3
  {
    var r := Detected([c] + rest);
    var f := Frame(r);
    var s1 := s.(lastCode := Some(c), consecutiveCount := 1, totalScans := s.totalScans + 1);
    var s2 := s1.(consecutiveCount := 2, totalScans := s.totalScans + 2);
    var s3 := s2.(consecutiveCount := 3, stopScanning := true);
    assert Step(s, r) == (s1, None);
    assert Step(s1, r) == (s2, None);
    assert Step(s2, r) == (s3, Some(c));
    assert [f][1..] == [] && [f, f][1..] == [f] && [f, f, f][1..] == [f, f];
    var one: seq<string> := [c];
    assert one + [] == one && [] + one == one;
    assert Run(s2, [f]) == (s3, one);
    assert Run(s1, [f, f]) == (s3, one);
    assert Run(s, [f, f, f]) == (s3, one);
  }

  /** The debounce state survives the pause: right after a restart, a
      single frame still showing the reported code reports it again. */
  lemma RestartKeepsDebounce(s: ScanState, c: string, rest: seq<string>)
    requires s.lastCode == Some(c) && s.consecutiveCount >= 3
    ensures Step(Restart(s), Detected([c] + rest)).1 == Some(c)
  {
  }

  /** The scanner's closure variables, updated in place. */
  class Scanner {
    var lastCode: Option<string>
    var consecutiveCount: nat
    var totalScans: nat
    var stopScanning: bool

    function State(): ScanState
      reads this
    {
      ScanState(lastCode, consecutiveCount, totalScans, stopScanning)
    }

    /** The effect body, once enabled and supported: fresh closure state. */
    constructor ()
      ensures State() == Started && Inv(State())
    {
      lastCode, consecutiveCount, totalScans, stopScanning := None, 0, 0, false;
    }

    /** `scanFrame` for one frame result. */
    method ScanFrame(r: FrameResult) returns (reported: Option<string>)
      modifies this
      ensures (State(), reported) == Step(old(State()), r)
    {
      if stopScanning {
        return None;
      }
      if r.Detected? && |r.codes| > 0 {
        var currentCode := r.codes[0];
        if lastCode == Some(currentCode) {
          consecutiveCount := consecutiveCount + 1;
        } else {
          lastCode := Some(currentCode);
          consecutiveCount := 1;
        }
        if consecutiveCount >= ReportAfter {
          stopScanning := true;
          return Some(currentCode);
        }
      }
      totalScans := totalScans + 1;
      if totalScans >= MaxScans {
        stopScanning := true;
      }
      reported := None;
    }

    /** Either pause timer firing. */
    method RestartScanning()
      modifies this
      ensures State() == Restart(old(State()))
    {
      stopScanning := false;
      totalScans := 0;
    }

    /** The effect's cleanup on unmount or a changed `enabled`/`onRead`. */
    method Teardown()
      modifies this
      ensures State() == old(State()).(stopScanning := true)
    {
      stopScanning := true;
    }
  }

  /** Mounting the component: the scanner state exists only when `enabled`
      is set and the browser offers a barcode detector. */
  method Mount(enabled: bool, detectorSupported: bool) returns (scanner: Scanner?)
    ensures scanner == null <==> !(enabled && detectorSupported)
    ensures scanner != null ==> fresh(scanner) && scanner.State() == Started
  {
    if !enabled || !detectorSupported {
      return null;
    }
    scanner := new Scanner();
  }
}
