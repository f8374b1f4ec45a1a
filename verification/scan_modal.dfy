/** The device scanner dialog: four state fields stepped by a progress timer,
    reset by starting a scan and by closing, and a completion callback. */
module ScanModal {

  datatype ScanState = ScanState(scanning: bool, progress: int, devicesFound: int, scanComplete: bool)

  /** The initial state, also restored on close. */
  const Idle := ScanState(false, 0, 0, false)

  /** The state `startScan` sets. */
  const Started := ScanState(true, 0, 0, false)

  /** One firing of the progress timer: below 100 the progress grows by 10; at
      or above 100 it stays 100, scanning stops, the scan is complete and no
      device is found. */
  function Step(s: ScanState): (t: ScanState)
    ensures s.progress < 100 ==> t == s.(progress := s.progress + 10)
    ensures s.progress >= 100 ==> t == ScanState(false, 100, 0, true)
  {
    if s.progress >= 100 then ScanState(false, 100, 0, true) else s.(progress := s.progress + 10)
  }

  /** The timer only runs while scanning; otherwise a tick has no effect. */
  function Tick(s: ScanState): ScanState {
    if s.scanning then Step(s) else s
  }

  /** The state after `k` timer firings. */
  function Run(s: ScanState, k: nat): ScanState {
    if k == 0 then s else Tick(Run(s, k - 1))
  }

  /** From a fresh start, the first ten firings add 10 each without completing. */
  lemma {:induction false} RunCounting(k: nat)
    requires k <= 10
    ensures Run(Started, k) == ScanState(true, 10 * k, 0, false)
  {
    if k > 0 {
      RunCounting(k - 1);
    }
  }

  /** The eleventh firing completes the scan, and later firings change nothing. */
  lemma {:induction false} RunCompletes(k: nat)
    requires k >= 11
    ensures Run(Started, k) == ScanState(false, 100, 0, true)
  {
    if k == 11 {
      RunCounting(10);
    } else {
      RunCompletes(k - 1);
    }
  }

  /** The states a scan can be in: progress is a multiple of 10 in [0, 100],
      scanning and completion never hold together, completion means full
      progress, and no device is ever found. */
  ghost predicate Reachable(s: ScanState) {
    && s.progress % 10 == 0 && 0 <= s.progress <= 100
    && !(s.scanning && s.scanComplete)
    && (s.scanComplete ==> s.progress == 100)
    && s.devicesFound == 0
  }

  lemma TickKeepsReachable(s: ScanState)
    requires Reachable(s)
    ensures Reachable(Tick(s))
  {
  }

  class Scanner {
    var scanning: bool
    var progress: int
    var devicesFound: int
    var scanComplete: bool
    /** The values passed to `onScanComplete`, in call order. */
    var reported: seq<int>
    /** How many times `onClose` was called. */
    var closed: nat

    function State(): ScanState
      reads this
    {
      ScanState(scanning, progress, devicesFound, scanComplete)
    }

    ghost predicate Valid()
      reads this
    {
      Reachable(State())
    }

    constructor ()
      ensures Valid()
      ensures State() == Idle && reported == [] && closed == 0
    {
      scanning, progress, devicesFound, scanComplete := false, 0, 0, false;
      reported, closed := [], 0;
    }

    /** `startScan`: scanning from zero, nothing found, not complete. */
    method StartScan()
      requires Valid()
      modifies this
      ensures Valid()
      ensures State() == Started
      ensures reported == old(reported) && closed == old(closed)
    {
      scanning, progress, devicesFound, scanComplete := true, 0, 0, false;
    }

    /** One timer firing. When it completes the scan, the completion effect
        runs because `scanComplete` changed and reports the number of devices
        found (always 0). */
    method TimerFired()
      requires Valid()
      modifies this
      ensures Valid()
      ensures State() == Tick(old(State()))
      ensures reported == old(reported) + (if scanComplete && !old(scanComplete) then [devicesFound] else [])
      ensures closed == old(closed)
    {
      var next := Tick(State());
      var completes := next.scanComplete && !scanComplete;
      scanning, progress, devicesFound, scanComplete := next.scanning, next.progress, next.devicesFound, next.scanComplete;
      if completes {
        reported := reported + [devicesFound];
      }
    }

    /** The parent passes a new `onScanComplete` function: the completion
        effect depends on it, so it runs again and, while the scan is complete,
        reports the count once more. Nothing else changes. */
    method CallbackChanged()
      requires Valid()
      modifies this
      ensures Valid()
      ensures State() == old(State()) && closed == old(closed)
      ensures reported == old(reported) + (if scanComplete then [devicesFound] else [])
    {
      if scanComplete {
        reported := reported + [devicesFound];
      }
    }

    /** `resetAndClose`: the four fields return to their initial values, then `onClose` is called. */
    method ResetAndClose()
      requires Valid()
      modifies this
      ensures Valid()
      ensures State() == Idle
      ensures closed == old(closed) + 1 && reported == old(reported)
    {
      scanning, progress, devicesFound, scanComplete := false, 0, 0, false;
      closed := closed + 1;
    }
  }

  /** A full scan reports zero devices on the eleventh firing. A parent that
      hands over a new callback after that (one re-render) gets the report a
      second time. */
  method FullScan() returns (first: seq<int>, again: seq<int>)
    ensures first == [0] && again == [0, 0]
  {
    var scanner := new Scanner();
    scanner.StartScan();
    var i := 0;
    while i < 10
      invariant 0 <= i <= 10
      invariant scanner.Valid() && scanner.State() == Run(Started, i) && scanner.reported == []
    {
      RunCounting(i + 1);
      scanner.TimerFired();
      i := i + 1;
    }
    RunCounting(10);
    assert scanner.progress == 100 && scanner.reported == [];
    scanner.TimerFired();
    first := scanner.reported;
    scanner.CallbackChanged();
    again := scanner.reported;
  }
}
