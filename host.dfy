/**
 * The rules of the host daemon's library (daemon/lib/src/lib.rs): which serial
 * port is the gauge, which core counts as the busiest, what one round of
 * `write_perf_data` sends and how the detect/send loop ends.
 *
 * What the operating system reports (the port list, the CPU and memory
 * readings, the local hour, whether a write succeeded, when another thread
 * calls `stop`) is given to the model as input.
 */
module Host {
  import opened Wrappers
  import opened Message
  import opened Avg

  const USB_VENDOR_ID: nat := 0x1209
  const USB_PRODUCT_ID: nat := 0x0001
  /** Seconds of data in the CPU average, one sample per round. */
  const AVG_CPU_SAMPLES: nat := 15

  /** The daemon's error kinds; the wrapped `io::Error` and `serialport::Error` values are not modelled. */
  datatype Error = PortNotFound | IO | Serial

  /** `daytime` on the local hour, `None` when the local time is unavailable. */
  function Daytime(hour: Option<nat>): (d: bool)
    ensures d <==> hour.Some? && 7 <= hour.value <= 17
  {
    match hour
    case Some(h) => 6 < h && h < 18
    case None => false
  }

  /** Despite the "between 6am and 6pm" description, 6 o'clock is night and 17 o'clock is day. */
  lemma DaytimeEdges()
    ensures !Daytime(Some(6)) && Daytime(Some(7)) && Daytime(Some(17)) && !Daytime(Some(18))
    ensures !Daytime(None)
  {
  }

  datatype PortType = UsbPort(vid: nat, pid: nat) | PciPort | BluetoothPort | Unknown

  datatype PortInfo = PortInfo(portName: string, portType: PortType)

  /** The matching rule of `detect_port`: a USB port with the gauge's vendor and product ids. */
  predicate IsGauge(p: PortInfo)
  {
    p.portType.UsbPort? && p.portType.vid == USB_VENDOR_ID && p.portType.pid == USB_PRODUCT_ID
  }

  /** The position `find` stops at: the first port that is the gauge. */
  function FindGauge(ports: seq<PortInfo>): (r: Option<nat>)
    ensures r.None? <==> forall i :: 0 <= i < |ports| ==> !IsGauge(ports[i])
    ensures r.Some? ==>
      && r.value < |ports| && IsGauge(ports[r.value])
      && forall i :: 0 <= i < r.value ==> !IsGauge(ports[i])
  {
    if ports == [] then None
    else if IsGauge(ports[0]) then Some(0)
    else
      var rest := FindGauge(ports[1..]);
      if rest.None? then None else Some(rest.value + 1)
  }

  /** `detect_port`; `available` is `None` when listing the serial ports fails. */
  function DetectPort(available: Option<seq<PortInfo>>): (r: Result<PortInfo, Error>)
    ensures available.None? ==> r == Err(Serial)
    ensures r == Err(PortNotFound) <==>
      available.Some? && forall i :: 0 <= i < |available.value| ==> !IsGauge(available.value[i])
    ensures r.Ok? ==> exists i :: (0 <= i < |available.value| && available.value[i] == r.value &&
      IsGauge(r.value) && forall j :: 0 <= j < i ==> !IsGauge(available.value[j]))
    ensures available.Some? && FindGauge(available.value).Some? ==>
      r == Ok(available.value[FindGauge(available.value).value])
  {
    match available
    case None => Err(Serial)
    case Some(ports) =>
      var i := FindGauge(ports);
      if i.None? then Err(PortNotFound) else Ok(ports[i.value])
  }

  /** A non-USB port is never taken for the gauge, whatever else is listed. */
  lemma NonUsbNeverMatches(ports: seq<PortInfo>)
    requires forall i :: 0 <= i < |ports| ==> !ports[i].portType.UsbPort?
    ensures DetectPort(Some(ports)) == Err(PortNotFound)
  {
  }

  /** One CPU load reading; only its idle fraction is used. */
  datatype CpuLoad = CpuLoad(idle: real)

  /** `busy_fraction`. */
  function BusyFraction(load: CpuLoad): (r: real)
    ensures r + load.idle == 1.0
    ensures 0.0 <= load.idle <= 1.0 ==> 0.0 <= r <= 1.0
  {
    1.0 - load.idle
  }

  /**
   * The core `min_by` on the idle fractions picks: the first of the least idle
   * cores.  The fold keeps the earlier core on a tie, as `min_by` does.
   */
  function LeastIdle(cores: seq<CpuLoad>): (r: Option<nat>)
    ensures r.None? <==> cores == []
    ensures r.Some? ==>
      && r.value < |cores|
      && (forall i :: 0 <= i < |cores| ==> cores[r.value].idle <= cores[i].idle)
      && (forall i :: 0 <= i < r.value ==> cores[i].idle > cores[r.value].idle)
  {
    if cores == [] then None
    else
      var best := LeastIdle(cores[..|cores| - 1]);
      var last := |cores| - 1;
      if best.None? then Some(0)
      else if cores[best.value].idle <= cores[last].idle then best
      else Some(last)
  }

  /** The reading behind `peak_core_load`: the least idle core, or the aggregate when there are no cores. */
  function PeakCore(cores: seq<CpuLoad>, aggregate: CpuLoad): (r: CpuLoad)
    ensures cores == [] ==> r == aggregate
    ensures cores != [] ==> r in cores && forall i :: 0 <= i < |cores| ==> r.idle <= cores[i].idle
  {
    match LeastIdle(cores)
    case Some(i) => cores[i]
    case None => aggregate
  }

  /** The peak core is the busiest one: no core is busier. */
  lemma PeakIsBusiest(cores: seq<CpuLoad>, aggregate: CpuLoad)
    requires cores != []
    ensures forall i :: 0 <= i < |cores| ==> BusyFraction(cores[i]) <= BusyFraction(PeakCore(cores, aggregate))
  {
    var p := PeakCore(cores, aggregate);
    forall i | 0 <= i < |cores| ensures BusyFraction(cores[i]) <= BusyFraction(p) {
      assert p.idle <= cores[i].idle;
    }
  }

  /**
   * What the system reports during one round: the per-core and aggregate CPU
   * loads (`None` when reading them fails) and the memory load computed from the
   * free and total memory (`None` when reading the memory fails).
   */
  datatype Readings = Readings(cores: Option<seq<CpuLoad>>, aggregate: Option<CpuLoad>, memoryLoad: Option<real>)

  /** A round's effect: the averager's new window, the snapshot handed to `write` if any, and the result. */
  datatype RoundResult = RoundResult(window: seq<real>, sent: Option<PerfData>, result: Result<(), Error>)

  /**
   * `write_perf_data` on an averager whose window is `window`.  The aggregate
   * load joins the window before the average is read, so the average sent
   * always includes it.  A failing CPU reading leaves the window alone; a
   * failing memory reading comes after the sample was added.
   */
  function PerfRound(window: seq<real>, maxSamples: nat, readings: Readings, daytime: bool, writeOk: bool): (o: RoundResult)
    requires 2 <= maxSamples && |window| <= maxSamples
    ensures |o.window| <= maxSamples
    ensures o.sent.Some? <==>
      readings.cores.Some? && readings.aggregate.Some? && readings.memoryLoad.Some?
    ensures o.result.Ok? <==> o.sent.Some? && writeOk
    ensures o.result.Err? ==> o.result.error == IO
  {
    if readings.cores.None? || readings.aggregate.None? then RoundResult(window, None, Err(IO))
    else
      var agg := readings.aggregate.value;
      var newWindow := Slide(window, BusyFraction(agg), maxSamples);
      if readings.memoryLoad.None? then RoundResult(newWindow, None, Err(IO))
      else
        var perf := Snapshot(newWindow, readings.cores.value, agg, readings.memoryLoad.value, daytime);
        RoundResult(newWindow, Some(perf), if writeOk then Ok(()) else Err(IO))
  }

  /**
   * The `PerfData` built from the new window and the readings: the average is
   * over the window, which already holds the current load.
   */
  function Snapshot(newWindow: seq<real>, cores: seq<CpuLoad>, agg: CpuLoad, memoryLoad: real, daytime: bool): (p: PerfData)
    requires newWindow != []
    ensures p.allCoresAvg * |newWindow| as real == Sum(newWindow)
  {
    MeanTimesCount(newWindow);
    PerfData(
      allCoresLoad := BusyFraction(agg),
      allCoresAvg := Mean(newWindow).UnwrapOr(0.0),
      peakCoreLoad := BusyFraction(PeakCore(cores, agg)),
      memoryLoad := memoryLoad,
      daytime := daytime)
  }

  /** A failing CPU reading ends the round before the averager is touched. */
  lemma CpuFailureKeepsWindow(window: seq<real>, maxSamples: nat, readings: Readings, daytime: bool, writeOk: bool)
    requires 2 <= maxSamples && |window| <= maxSamples
    requires readings.cores.None? || readings.aggregate.None?
    ensures PerfRound(window, maxSamples, readings, daytime, writeOk) == RoundResult(window, None, Err(IO))
  {
  }

  /**
   * Once the CPU readings succeed, the aggregate load joins the window, even when
   * the memory reading then fails.
   */
  lemma SampleBeforeAverage(window: seq<real>, maxSamples: nat, readings: Readings, daytime: bool, writeOk: bool)
    requires 2 <= maxSamples && |window| <= maxSamples
    requires readings.cores.Some? && readings.aggregate.Some?
    ensures var o := PerfRound(window, maxSamples, readings, daytime, writeOk);
      && o.window == Slide(window, BusyFraction(readings.aggregate.value), maxSamples)
      && o.window[|o.window| - 1] == BusyFraction(readings.aggregate.value)
  {
  }

  /** The average sent is over the window after the sample, so it always includes the current load. */
  lemma AverageIncludesSample(window: seq<real>, maxSamples: nat, readings: Readings, daytime: bool, writeOk: bool)
    requires 2 <= maxSamples && |window| <= maxSamples
    ensures var o := PerfRound(window, maxSamples, readings, daytime, writeOk);
      o.sent.Some? ==> o.sent.value.allCoresAvg * |o.window| as real == Sum(o.window)
  {
    if readings.cores.Some? && readings.aggregate.Some? && readings.memoryLoad.Some? {
      var agg := readings.aggregate.value;
      var w := Slide(window, BusyFraction(agg), maxSamples);
      var p := Snapshot(w, readings.cores.value, agg, readings.memoryLoad.value, daytime);
      assert PerfRound(window, maxSamples, readings, daytime, writeOk).sent == Some(p);
      assert PerfRound(window, maxSamples, readings, daytime, writeOk).window == w;
    }
  }

  /** The snapshot sent: current and peak load, memory load and the daytime flag. */
  lemma SnapshotFields(window: seq<real>, maxSamples: nat, readings: Readings, daytime: bool, writeOk: bool)
    requires 2 <= maxSamples && |window| <= maxSamples
    requires readings.cores.Some? && readings.aggregate.Some? && readings.memoryLoad.Some?
    ensures var o := PerfRound(window, maxSamples, readings, daytime, writeOk);
      && o.sent.Some?
      && o.sent.value.allCoresLoad == BusyFraction(readings.aggregate.value)
      && o.sent.value.peakCoreLoad == BusyFraction(PeakCore(readings.cores.value, readings.aggregate.value))
      && o.sent.value.memoryLoad == readings.memoryLoad.value
      && o.sent.value.daytime == daytime
  {
  }

  /** `write_perf_data`: one round on the averager `cpuAvg`, returning the snapshot handed to `write`. */
  method WritePerfData(cpuAvg: Averager, readings: Readings, daytime: bool, writeOk: bool)
    returns (result: Result<(), Error>, sent: Option<PerfData>)
    requires cpuAvg.Valid()
    modifies cpuAvg`samples
    ensures cpuAvg.Valid()
    ensures RoundResult(cpuAvg.samples, sent, result) ==
      PerfRound(old(cpuAvg.samples), cpuAvg.maxSamples, readings, daytime, writeOk)
  {
    if readings.cores.None? || readings.aggregate.None? {
      return Err(IO), None;
    }
    var loadAgg := readings.aggregate.value;
    var minIdle := PeakCore(readings.cores.value, loadAgg);
    var allCoresLoad := BusyFraction(loadAgg);
    cpuAvg.AddSample(allCoresLoad);
    if readings.memoryLoad.None? {
      return Err(IO), None;
    }
    var perf := PerfData(
      allCoresLoad := BusyFraction(loadAgg),
      allCoresAvg := cpuAvg.Average().UnwrapOr(0.0),
      peakCoreLoad := BusyFraction(minIdle),
      memoryLoad := readings.memoryLoad.value,
      daytime := daytime);
    sent := Some(perf);
    result := if writeOk then Ok(()) else Err(IO);
  }

  /**
   * What happens around one pass of the send loop: the hour `daytime` reads, the
   * round's readings, whether the write succeeds, and whether another thread
   * has called `stop` by the time the loop checks the run mode.
   */
  datatype Round = Round(hour: Option<nat>, readings: Readings, writeOk: bool, stopRequested: bool)

  /** A round whose readings all succeed and whose write succeeds. */
  predicate WritesOk(r: Round)
  {
    r.readings.cores.Some? && r.readings.aggregate.Some? && r.readings.memoryLoad.Some? && r.writeOk
  }

  /**
   * The loop's state after the given rounds: `Returned` once `detectsend_loop`
   * has returned, `Running` when it would carry on with further rounds.
   */
  datatype Outcome = Returned(result: Result<(), Error>) | Running

  /** The outcome, the snapshots handed to `write` in order, and the final run mode (true for `Stop`). */
  datatype Trace = Trace(outcome: Outcome, sent: seq<PerfData>, stopped: bool)

  /**
   * The send loop over `rounds`, from an averager window and a run mode;
   * `sentBefore` are the snapshots written in earlier rounds.
   */
  function RunRounds(stopped: bool, window: seq<real>, rounds: seq<Round>, sentBefore: seq<PerfData>): (t: Trace)
    requires |window| <= AVG_CPU_SAMPLES
    ensures |sentBefore| <= |t.sent| <= |sentBefore| + |rounds|
    ensures t.sent[..|sentBefore|] == sentBefore
    ensures stopped ==> t.stopped
    decreases |rounds|
  {
    if rounds == [] then Trace(Running, sentBefore, stopped)
    else
      var r := rounds[0];
      var o := PerfRound(window, AVG_CPU_SAMPLES, r.readings, Daytime(r.hour), r.writeOk);
      var sent := sentBefore + if o.sent.Some? then [o.sent.value] else [];
      var stoppedNow := stopped || r.stopRequested;
      if o.result.Err? then Trace(Returned(o.result), sent, stoppedNow)
      else if stoppedNow then Trace(Returned(Ok(())), sent, stoppedNow)
      else
        var t := RunRounds(stoppedNow, o.window, rounds[1..], sent);
        assert sent[..|sentBefore|] == sentBefore;
        assert t.sent[..|sentBefore|] == t.sent[..|sent|][..|sentBefore|];
        t
  }

  /**
   * With `stop` already called, the loop returns `Ok` at its first check, which
   * comes after one complete, successful write.
   */
  lemma StopAfterWrite(window: seq<real>, rounds: seq<Round>)
    requires |window| <= AVG_CPU_SAMPLES && |rounds| > 0
    requires var r := rounds[0];
      r.readings.cores.Some? && r.readings.aggregate.Some? && r.readings.memoryLoad.Some? && r.writeOk
    ensures RunRounds(true, window, rounds, []).outcome == Returned(Ok(()))
    ensures |RunRounds(true, window, rounds, []).sent| == 1
  {
  }

  /**
   * The loop returns `Ok` in a round `k` of `rounds` that wrote its snapshot,
   * having written one snapshot in each round up to `k`, so that `sentAfter`
   * snapshots follow the `sentBefore` ones; `stop` was called by round `k`.
   */
  ghost predicate OkInRound(rounds: seq<Round>, sentBefore: nat, sentAfter: nat)
  {
    exists k :: 0 <= k < |rounds| && WritesOk(rounds[k]) && sentAfter == sentBefore + k + 1
      && exists j :: 0 <= j <= k && rounds[j].stopRequested
  }

  /**
   * The loop only ever returns `Ok` after the run mode was set to `Stop`, and in
   * a round `k` that wrote its snapshot: it wrote one snapshot in every round up
   * to and including `k`, and `stop` had been called by round `k` (or before
   * the rounds, when `stopped`).
   */
  lemma {:induction false} OkOnlyWhenStopped(stopped: bool, window: seq<real>, rounds: seq<Round>, sentBefore: seq<PerfData>)
    requires |window| <= AVG_CPU_SAMPLES
    ensures var t := RunRounds(stopped, window, rounds, sentBefore);
      t.outcome == Returned(Ok(())) ==>
        && t.stopped
        && (if stopped then |t.sent| == |sentBefore| + 1 && WritesOk(rounds[0])
            else OkInRound(rounds, |sentBefore|, |t.sent|))
    decreases |rounds|
  {
    if rounds != [] {
      var r := rounds[0];
      var o := PerfRound(window, AVG_CPU_SAMPLES, r.readings, Daytime(r.hour), r.writeOk);
      var sent := sentBefore + if o.sent.Some? then [o.sent.value] else [];
      var t0 := RunRounds(stopped, window, rounds, sentBefore);
      RoundStep(stopped, window, rounds, 0, sentBefore);
      assert rounds[0..] == rounds && rounds[0 + 1..] == rounds[1..];
      if o.result.Ok? {
        assert WritesOk(rounds[0]) && |sent| == |sentBefore| + 1;
        if stopped || r.stopRequested {
          assert t0 == Trace(Returned(Ok(())), sent, true);
          if !stopped {
            OkInFirstRound(rounds, |sentBefore|);
          }
        } else {
          OkOnlyWhenStopped(false, o.window, rounds[1..], sent);
          var t := RunRounds(false, o.window, rounds[1..], sent);
          assert t0 == t;
          if t.outcome == Returned(Ok(())) {
            OkInLaterRound(rounds, |sentBefore|, |t.sent|);
          }
        }
      }
    }
  }

  lemma OkInFirstRound(rounds: seq<Round>, sentBefore: nat)
    requires rounds != [] && WritesOk(rounds[0]) && rounds[0].stopRequested
    ensures OkInRound(rounds, sentBefore, sentBefore + 1)
  {
    assert 0 <= 0 <= 0 && rounds[0].stopRequested;
  }

  lemma OkInLaterRound(rounds: seq<Round>, sentBefore: nat, sentAfter: nat)
    requires rounds != [] && WritesOk(rounds[0])
    requires OkInRound(rounds[1..], sentBefore + 1, sentAfter)
    ensures OkInRound(rounds, sentBefore, sentAfter)
  {
    var k :| 0 <= k < |rounds[1..]| && WritesOk(rounds[1..][k]) && sentAfter == sentBefore + 1 + k + 1
      && exists j :: 0 <= j <= k && rounds[1..][j].stopRequested;
    var j :| 0 <= j <= k && rounds[1..][j].stopRequested;
    assert rounds[k + 1] == rounds[1..][k] && rounds[j + 1] == rounds[1..][j];
    assert 0 <= j + 1 <= k + 1 && rounds[j + 1].stopRequested;
  }

  /** A failed write ends the loop with the write's error, before the run mode is even checked. */
  lemma WriteErrorEnds(stopped: bool, window: seq<real>, rounds: seq<Round>)
    requires |window| <= AVG_CPU_SAMPLES && |rounds| > 0
    requires var r := rounds[0];
      r.readings.cores.Some? && r.readings.aggregate.Some? && r.readings.memoryLoad.Some? && !r.writeOk
    ensures RunRounds(stopped, window, rounds, []).outcome == Returned(Err(IO))
    ensures |RunRounds(stopped, window, rounds, []).sent| == 1
  {
  }

  /** One round of `RunRounds`, taken from position `i` of the rounds. */
  lemma RoundStep(stopped: bool, window: seq<real>, rounds: seq<Round>, i: nat, sentBefore: seq<PerfData>)
    requires |window| <= AVG_CPU_SAMPLES && i < |rounds|
    ensures var r := rounds[i];
      var o := PerfRound(window, AVG_CPU_SAMPLES, r.readings, Daytime(r.hour), r.writeOk);
      var sent := sentBefore + if o.sent.Some? then [o.sent.value] else [];
      var t := RunRounds(stopped, window, rounds[i..], sentBefore);
      && (o.result.Err? ==> t == Trace(Returned(o.result), sent, stopped || r.stopRequested))
      && (o.result.Ok? && (stopped || r.stopRequested) ==> t == Trace(Returned(Ok(())), sent, true))
      && (o.result.Ok? && !(stopped || r.stopRequested) ==>
            t == RunRounds(false, o.window, rounds[i + 1..], sent))
  {
    assert rounds[i..][0] == rounds[i] && rounds[i..][1..] == rounds[i + 1..];
  }

  /** The global run mode of the service, `Run` until `stop` is called. */
  class Service {
    var stopRequested: bool

    constructor ()
      ensures !stopRequested
    {
      stopRequested := false;
    }

    /** `stop`: set the run mode to `Stop`. */
    method Stop()
      modifies this`stopRequested
      ensures stopRequested
    {
      stopRequested := true;
    }

    /**
     * `detectsend_loop` over the given rounds: find and open the port, then write
     * one snapshot per round until a write fails or the run mode is `Stop`.
     * `available` is the port listing, `portOpened` whether opening and setting DTR
     * succeed.
     */
    method DetectsendLoop(available: Option<seq<PortInfo>>, portOpened: bool, rounds: seq<Round>)
      returns (outcome: Outcome, sent: seq<PerfData>)
      modifies this`stopRequested
      ensures DetectPort(available).Err? ==>
        outcome == Returned(Err(DetectPort(available).error)) && sent == [] &&
        stopRequested == old(stopRequested)
      ensures DetectPort(available).Ok? && !portOpened ==>
        outcome == Returned(Err(Serial)) && sent == [] && stopRequested == old(stopRequested)
      ensures DetectPort(available).Ok? && portOpened ==>
        Trace(outcome, sent, stopRequested) == RunRounds(old(stopRequested), [], rounds, [])
    {
      var pinfo := DetectPort(available);
      if pinfo.Err? {
        return Returned(Err(pinfo.error)), [];
      }
      if !portOpened {
        return Returned(Err(Serial)), [];
      }
      var cpuAvg := new Averager(AVG_CPU_SAMPLES);
      outcome, sent := SendRounds(cpuAvg, rounds);
    }

    /**
     * The `loop` of `detectsend_loop` on the averager `cpuAvg`, one `SendOnce`
     * per round until one of them ends the loop.
     */
    method SendRounds(cpuAvg: Averager, rounds: seq<Round>) returns (outcome: Outcome, sent: seq<PerfData>)
      requires cpuAvg.Valid() && cpuAvg.maxSamples == AVG_CPU_SAMPLES
      modifies this`stopRequested, cpuAvg`samples
      ensures Trace(outcome, sent, stopRequested) ==
        RunRounds(old(stopRequested), old(cpuAvg.samples), rounds, [])
    {
      ghost var all := RunRounds(stopRequested, cpuAvg.samples, rounds, []);
      outcome, sent := Running, [];
      var i := 0;
      assert rounds[i..] == rounds;
      while i < |rounds| && outcome == Running
        invariant 0 <= i <= |rounds|
        invariant cpuAvg.Valid() && cpuAvg.maxSamples == AVG_CPU_SAMPLES
        invariant outcome == Running ==> RunRounds(stopRequested, cpuAvg.samples, rounds[i..], sent) == all
        invariant outcome != Running ==> Trace(outcome, sent, stopRequested) == all
      {
        outcome, sent := SendOnce(cpuAvg, rounds, i, sent);
        i := i + 1;
      }
      if outcome == Running {
        assert rounds[i..] == [];
      }
    }

    /**
     * One pass of the loop body: `write_perf_data`, then the run-mode check.
     * `sent` grows by the snapshot handed to `write`, if any.
     */
    method SendOnce(cpuAvg: Averager, rounds: seq<Round>, i: nat, sentBefore: seq<PerfData>)
      returns (outcome: Outcome, sent: seq<PerfData>)
      requires i < |rounds|
      requires cpuAvg.Valid() && cpuAvg.maxSamples == AVG_CPU_SAMPLES
      modifies this`stopRequested, cpuAvg`samples
      ensures cpuAvg.Valid()
      ensures outcome == Running ==>
        && !stopRequested
        && RunRounds(stopRequested, cpuAvg.samples, rounds[i + 1..], sent) ==
           RunRounds(old(stopRequested), old(cpuAvg.samples), rounds[i..], sentBefore)
      ensures outcome != Running ==>
        Trace(outcome, sent, stopRequested) ==
        RunRounds(old(stopRequested), old(cpuAvg.samples), rounds[i..], sentBefore)
    {
      var round := rounds[i];
      RoundStep(stopRequested, cpuAvg.samples, rounds, i, sentBefore);
      var result, perf := WritePerfData(cpuAvg, round.readings, Daytime(round.hour), round.writeOk);
      sent := sentBefore + if perf.Some? then [perf.value] else [];
      if round.stopRequested {
        // another thread's `stop` has run by now
        stopRequested := true;
      }
      if result.Err? {
        outcome := Returned(result);
      } else if stopRequested {
        outcome := Returned(Ok(()));
      } else {
        outcome := Running;
      }
    }
  }
}
