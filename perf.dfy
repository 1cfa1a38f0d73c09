/**
 * The animation engine of the firmware (firmware/src/perf.rs).
 *
 * When fresh data arrives while older data is on screen, `UpdateState` computes
 * one second of frames that move the two CPU bars from the old values toward
 * the new ones, VU-meter style: a rise is shown at once, a fall is eased at a
 * fixed rate.  Each frame becomes a request to run `show_perf` after a delay;
 * the requests are returned instead of being handed to the RTIC scheduler.
 */
module Perf {
  import opened Wrappers
  import opened Message

  /** Frames per second for interpolated display updates. */
  const FRAMES_PER_SECOND: nat := 15
  /** CPU bar fall-off rate in percentage points per second. */
  const FALL_PCT_PER_SECOND: real := 25.0
  /** Delay between two frames, in milliseconds (integer division: 66). */
  const FRAME_MS: nat := 1000 / FRAMES_PER_SECOND
  /** Fall-off per frame, as a fraction of a full bar (1/60). */
  const FALL_FRAC_PER_FRAME: real := FALL_PCT_PER_SECOND / 100.0 / FRAMES_PER_SECOND as real

  /** The previously stored and the to-be-displayed snapshots. */
  datatype State = State(previous: Option<PerfData>, current: Option<PerfData>)

  /** A `show_perf::spawn_after(delay, frame)` request. */
  datatype ScheduledFrame = ScheduledFrame(delayMs: nat, perf: PerfData)

  /** `f32::max` on values that are not NaN. */
  function Max(a: real, b: real): real
  {
    if a >= b then a else b
  }

  /** One frame of the VU-meter rule: jump up to a higher target, ease down to a lower one. */
  function UpdateCpuLoad(prevLoad: real, targetLoad: real): (r: real)
    ensures targetLoad > prevLoad ==> r == targetLoad
    ensures r >= targetLoad
    ensures targetLoad <= prevLoad ==> prevLoad - FALL_FRAC_PER_FRAME <= r <= prevLoad
    ensures r == targetLoad || r == prevLoad - FALL_FRAC_PER_FRAME
  {
    if targetLoad > prevLoad then targetLoad
    else Max(targetLoad, prevLoad - FALL_FRAC_PER_FRAME)
  }

  /**
   * The load shown `n` frames after `prevLoad` when heading for `targetLoad`, in
   * closed form: the target at once if it is higher, otherwise a linear fall that
   * stops at the target.
   */
  function LoadAfter(prevLoad: real, targetLoad: real, n: nat): real
  {
    if n == 0 then prevLoad
    else if targetLoad > prevLoad then targetLoad
    else Max(targetLoad, prevLoad - n as real * FALL_FRAC_PER_FRAME)
  }

  /** The next frame: eased loads, the other three fields taken from the target. */
  function NextFrame(prev: PerfData, target: PerfData): PerfData
  {
    PerfData(
      allCoresLoad := UpdateCpuLoad(prev.allCoresLoad, target.allCoresLoad),
      allCoresAvg := target.allCoresAvg,
      peakCoreLoad := UpdateCpuLoad(prev.peakCoreLoad, target.peakCoreLoad),
      memoryLoad := target.memoryLoad,
      daytime := target.daytime)
  }

  /** The frame computed after `n` steps of the blending loop. */
  function Ease(prev: PerfData, target: PerfData, n: nat): (r: PerfData)
    ensures r.allCoresLoad == LoadAfter(prev.allCoresLoad, target.allCoresLoad, n)
    ensures r.peakCoreLoad == LoadAfter(prev.peakCoreLoad, target.peakCoreLoad, n)
    ensures n > 0 ==>
      r.allCoresAvg == target.allCoresAvg && r.memoryLoad == target.memoryLoad &&
      r.daytime == target.daytime
  {
    if n == 0 then prev
    else
      LoadAfterStep(prev.allCoresLoad, target.allCoresLoad, n - 1);
      LoadAfterStep(prev.peakCoreLoad, target.peakCoreLoad, n - 1);
      NextFrame(Ease(prev, target, n - 1), target)
  }

  /**
   * `update_state`.  The four cases of `(previous, current)`; in the blended case
   * the returned frames are the `show_perf` requests in scheduling order.
   */
  method UpdateState(input: State) returns (result: State, frames: seq<ScheduledFrame>)
    ensures input.previous.Some? && input.current.None? ==>
      result == State(input.previous, input.previous) && frames == []
    ensures input.previous.None? && input.current.Some? ==>
      result == State(input.current, input.current) && frames == []
    ensures input.previous.None? && input.current.None? ==>
      result == State(None, None) && frames == []
    ensures input.previous.Some? && input.current.Some? ==>
      var prev, target := input.previous.value, input.current.value;
      && |frames| == FRAMES_PER_SECOND
      && (forall f :: 0 <= f < |frames| ==>
            frames[f] == ScheduledFrame(f * FRAME_MS, Ease(prev, target, f + 1)))
      && result == State(Some(Ease(prev, target, FRAMES_PER_SECOND)), None)
    ensures forall f :: 0 <= f < |frames| ==> frames[f].delayMs < 1000
    ensures forall f, g :: 0 <= f < g < |frames| ==> frames[f].delayMs < frames[g].delayMs
  {
    match (input.previous, input.current)
    case (Some(prev), None) =>
      result, frames := State(Some(prev), Some(prev)), [];
    case (None, Some(newPerf)) =>
      result, frames := State(Some(newPerf), Some(newPerf)), [];
    case (Some(prev0), Some(target)) =>
      var prev := prev0;
      frames := [];
      for frame := 0 to FRAMES_PER_SECOND
        invariant prev == Ease(prev0, target, frame)
        invariant |frames| == frame
        invariant forall f :: 0 <= f < frame ==>
          frames[f] == ScheduledFrame(f * FRAME_MS, Ease(prev0, target, f + 1))
      {
        prev := PerfData(
          allCoresLoad := UpdateCpuLoad(prev.allCoresLoad, target.allCoresLoad),
          allCoresAvg := target.allCoresAvg,
          peakCoreLoad := UpdateCpuLoad(prev.peakCoreLoad, target.peakCoreLoad),
          memoryLoad := target.memoryLoad,
          daytime := target.daytime);
        frames := frames + [ScheduledFrame(frame * FRAME_MS, prev)];
      }
      result := State(Some(prev), None);
      forall f, g | 0 <= f < g < |frames| ensures frames[f].delayMs < frames[g].delayMs {
        FrameDelays(f, g);
      }
      forall f | 0 <= f < |frames| ensures frames[f].delayMs < 1000 {
        if f > 0 {
          FrameDelays(0, f);
        }
      }
    case (None, None) =>
      result, frames := State(None, None), [];
  }

  /** Frame delays grow with the frame number and stay within one second. */
  lemma FrameDelays(f: nat, g: nat)
    requires f < g < FRAMES_PER_SECOND
    ensures f * FRAME_MS < g * FRAME_MS < 1000
  {
  }

  /** One step of `UpdateCpuLoad` advances the closed form by one frame. */
  lemma {:induction false} LoadAfterStep(prevLoad: real, targetLoad: real, n: nat)
    ensures UpdateCpuLoad(LoadAfter(prevLoad, targetLoad, n), targetLoad) ==
            LoadAfter(prevLoad, targetLoad, n + 1)
  {
    assert (n + 1) as real * FALL_FRAC_PER_FRAME == n as real * FALL_FRAC_PER_FRAME + FALL_FRAC_PER_FRAME;
  }

  /**
   * While falling, each frame is at most the previous one and at most one
   * per-frame step below it; no frame goes below the target; once the target is
   * reached, it is kept.
   */
  lemma FallIsEased(prevLoad: real, targetLoad: real, n: nat)
    requires targetLoad <= prevLoad
    ensures targetLoad <= LoadAfter(prevLoad, targetLoad, n + 1) <= LoadAfter(prevLoad, targetLoad, n)
    ensures LoadAfter(prevLoad, targetLoad, n) - FALL_FRAC_PER_FRAME <= LoadAfter(prevLoad, targetLoad, n + 1)
    ensures LoadAfter(prevLoad, targetLoad, n) == targetLoad ==>
      forall m :: m >= n ==> LoadAfter(prevLoad, targetLoad, m) == targetLoad
  {
  }

  /** A rise is shown in full on the first frame and then held. */
  lemma RiseIsImmediate(prevLoad: real, targetLoad: real, n: nat)
    requires targetLoad > prevLoad && n > 0
    ensures LoadAfter(prevLoad, targetLoad, n) == targetLoad
  {
  }

  /**
   * Over the 15 frames of one second a falling bar drops by exactly
   * `FALL_PCT_PER_SECOND` percentage points, unless it reaches the target first.
   */
  lemma OneSecondOfFall(prevLoad: real, targetLoad: real)
    requires targetLoad <= prevLoad
    ensures LoadAfter(prevLoad, targetLoad, FRAMES_PER_SECOND) ==
      Max(targetLoad, prevLoad - FALL_PCT_PER_SECOND / 100.0)
  {
  }
}
