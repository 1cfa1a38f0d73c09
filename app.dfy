/**
 * The RTIC task bodies of the firmware (firmware/src/main.rs).
 *
 * The shared resources become the fields of `Firmware`; each task becomes a
 * method that runs to completion.  What a task hands to the scheduler or to the
 * display (a spawn, a drawing, a panic) is appended to the ghost `log` instead.
 * The display, the LED pin and the USB peripheral are not modelled beyond that.
 */
module App {
  import opened Wrappers
  import opened Ints
  import opened Message
  import Io

  /** Frequency of the countdown timer that drives `tick`. */
  const TIMER_HZ: nat := 10
  /** Milliseconds added to `prev_perf_ms` by each tick (100). */
  const TICK_MS: u32 := (1000 / TIMER_HZ) as u32

  /** Watchdog thresholds, in milliseconds since the last perf packet. */
  const REDRAW_MS: u32 := 500
  const NO_DATA_MS: u32 := 2_000
  const BLANK_MS: u32 := 30_000

  const NO_DATA_TEXT: string := "No data received"

  /** Output level of the activity LED pin; the LED is lit when the pin is low. */
  datatype Level = Low | High

  /** Failure of `postcard::from_bytes_cobs`; its decoder is not part of this model. */
  datatype DecodeError = DeserializeError

  /** What a task hands to the scheduler, the display or the fault handler. */
  datatype Effect =
    | SpawnShowPerf(request: Option<PerfData>)
    | SpawnPulseLed
    | SpawnHandlePacket(packet: seq<u8>)
    | DrawMessage(text: string)
    | DrawPerf(shown: PerfData)
    | ClearDisplay
    | Breakpoint  // `asm::bkpt()`
    | Panic       // a failed `unwrap` or an explicit `panic!`

  /** What `tick` does once the counter has reached `ms`. */
  function TickEffects(ms: u32): seq<Effect>
  {
    if ms == REDRAW_MS then [SpawnShowPerf(None)]
    else if ms == NO_DATA_MS then [DrawMessage(NO_DATA_TEXT)]
    else if ms == BLANK_MS then [ClearDisplay]
    else []
  }

  /** The counter after `k` ticks without a perf packet, starting from `ms`. */
  function CounterAfter(ms: u32, k: nat): u32
  {
    if k == 0 then ms else WrappingAdd32(CounterAfter(ms, k - 1), TICK_MS)
  }

  /** Until it wraps, the counter is exactly 100 ms per tick since the last reset. */
  lemma {:induction false} CounterCountsTicks(k: nat)
    requires k * TICK_MS as int < U32_LIMIT
    ensures CounterAfter(0, k) as int == k * TICK_MS as int
  {
    assert TICK_MS as int == 100;
    if k > 0 {
      CounterCountsTicks(k - 1);
      var prev := CounterAfter(0, k - 1);
      assert prev as int + 100 == k * 100;
    }
  }

  /**
   * From a reset, with no packets, the watchdog redraws on tick 5, shows the
   * "No data received" message on tick 20 and blanks the display on tick 300, and
   * does nothing on every other tick until the counter wraps.
   */
  lemma WatchdogSchedule(k: nat)
    requires k * TICK_MS as int < U32_LIMIT
    ensures TickEffects(CounterAfter(0, k)) ==
      if k == 5 then [SpawnShowPerf(None)]
      else if k == 20 then [DrawMessage(NO_DATA_TEXT)]
      else if k == 300 then [ClearDisplay]
      else []
  {
    CounterCountsTicks(k);
    assert TICK_MS as int == 100;
    var c := CounterAfter(0, k) as int;
    assert c == k * 100;
    assert c == REDRAW_MS as int <==> k == 5;
    assert c == NO_DATA_MS as int <==> k == 20;
    assert c == BLANK_MS as int <==> k == 300;
  }

  /** The value `show_perf` stores back into `prev_perf`, and the one it draws. */
  datatype ShowDecision = ShowDecision(stored: Option<PerfData>, shown: Option<PerfData>)

  /** The blend shown when both an old and a new packet exist. */
  function Midpoint(prev: PerfData, newPerf: PerfData): PerfData
  {
    PerfData(
      allCoresLoad := (prev.allCoresLoad + newPerf.allCoresLoad) / 2.0,
      allCoresAvg := newPerf.allCoresAvg,
      peakCoreLoad := (prev.peakCoreLoad + newPerf.peakCoreLoad) / 2.0,
      memoryLoad := newPerf.memoryLoad,
      daytime := newPerf.daytime)
  }

  /** The combination table of `show_perf` over `(prev_perf, new_perf)`. */
  function CombinePerf(prev: Option<PerfData>, newPerf: Option<PerfData>): (d: ShowDecision)
    ensures d.stored == (if newPerf.Some? then newPerf else prev)
    ensures d.shown.None? <==> prev.None? && newPerf.None?
    ensures prev.None? || newPerf.None? ==> d.shown == d.stored
  {
    match (prev, newPerf)
    case (Some(p), None) => ShowDecision(Some(p), Some(p))
    case (None, Some(n)) => ShowDecision(Some(n), Some(n))
    case (Some(p), Some(n)) => ShowDecision(Some(n), Some(Midpoint(p, n)))
    case (None, None) => ShowDecision(None, None)
  }

  /**
   * With both packets present, the two CPU loads shown lie half-way between the old
   * and the new load, and the other fields are the new packet's.
   */
  lemma BlendIsHalfway(p: PerfData, n: PerfData)
    ensures var s := CombinePerf(Some(p), Some(n)).shown.value;
      && s.allCoresLoad - p.allCoresLoad == n.allCoresLoad - s.allCoresLoad
      && s.peakCoreLoad - p.peakCoreLoad == n.peakCoreLoad - s.peakCoreLoad
      && s.allCoresAvg == n.allCoresAvg && s.memoryLoad == n.memoryLoad
      && s.daytime == n.daytime
  {
  }

  /**
   * What `handle_usb_event` hands on for the buffered bytes `pending`, with a
   * result buffer of `bufBytes` zeroed bytes: the whole result buffer when a
   * non-empty packet was read, a panic when `read_packet` panicked or failed.
   */
  function UsbEventEffects(pending: seq<u8>, bufBytes: nat): seq<Effect>
  {
    match Io.Deframe(pending, bufBytes)
    case Packet(len) =>
      if len == 0 then []
      else [SpawnHandlePacket(pending[..len] + seq(bufBytes - len, _ => 0))]
    case _ => [Panic]
  }

  /**
   * A complete frame that fits is handed on as its payload padded with zeros; an
   * empty frame is consumed and dropped; an oversized one panics on `unwrap`.
   */
  lemma UsbEventOnFrame(payload: seq<u8>, bufBytes: nat)
    requires Io.TERMINATOR !in payload
    ensures UsbEventEffects(payload + [Io.TERMINATOR], bufBytes) ==
      if |payload| > bufBytes then [Panic]
      else if payload == [] then []
      else [SpawnHandlePacket(payload + seq(bufBytes - |payload|, _ => 0))]
  {
    Io.DeframeFrame(payload, bufBytes);
    assert (payload + [Io.TERMINATOR])[..|payload|] == payload;
  }

  class Firmware {
    var serial: Io.Serial
    var led: Level
    /** Blinks the activity LED briefly when set. */
    var pulseLed: bool
    /** Previously received perf data. */
    var prevPerf: Option<PerfData>
    /** Milliseconds since the device last received a perf packet. */
    var prevPerfMs: u32
    /** Everything the tasks have requested so far, in order. */
    ghost var log: seq<Effect>

    ghost predicate Valid()
      reads this, serial
    {
      serial.Valid()
    }

    /** The shared resources as `init` returns them, with the LED switched off. */
    constructor Init()
      ensures Valid() && fresh(serial) && fresh(serial.buf)
      ensures serial.bufI == 0
      ensures led == High && !pulseLed && prevPerf == None && prevPerfMs == 0
      ensures log == []
    {
      serial := new Io.Serial();
      led := High;
      pulseLed := false;
      prevPerf := None;
      prevPerfMs := 0;
      log := [];
    }

    /** `tick`: advance the no-data counter and act on the value it reaches. */
    method Tick()
      modifies this`prevPerfMs, this`log
      ensures prevPerfMs == WrappingAdd32(old(prevPerfMs), TICK_MS)
      ensures log == old(log) + TickEffects(prevPerfMs) + [SpawnPulseLed]
    {
      prevPerfMs := WrappingAdd32(prevPerfMs, TICK_MS);
      if prevPerfMs == REDRAW_MS {
        log := log + [SpawnShowPerf(None)];
      } else if prevPerfMs == NO_DATA_MS {
        log := log + [DrawMessage(NO_DATA_TEXT)];
      } else if prevPerfMs == BLANK_MS {
        log := log + [ClearDisplay];
      }
      log := log + [SpawnPulseLed];
    }

    /** `pulse_led`: light the LED and clear the flag if it was set, else switch the LED off. */
    method PulseLed()
      modifies this`led, this`pulseLed
      ensures led == (if old(pulseLed) then Low else High)
      ensures !pulseLed
    {
      if pulseLed {
        led := Low;
        pulseLed := false;
      } else {
        led := High;
      }
    }

    /**
     * `handle_usb_event`: read one packet into a zeroed buffer of `bufBytes` bytes
     * (`io::BUF_BYTES`, whose value is not part of this model) and spawn
     * `handle_packet` with the buffer when the packet is not empty.
     */
    method HandleUsbEvent(bufBytes: nat)
      requires Valid()
      modifies serial`bufI, this`log
      ensures Valid()
      ensures log == old(log) + UsbEventEffects(old(serial.Pending()), bufBytes)
      ensures serial.bufI == if Io.Delivers(old(serial.Pending()), bufBytes) then 0 else old(serial.bufI)
    {
      var result := new u8[bufBytes](_ => 0);
      ghost var zeros := result[..];
      var r := serial.ReadPacket(result);
      match r {
        case Packet(len) =>
          if len > 0 {
            assert zeros[len..] == seq(bufBytes - len, _ => 0);
            assert result[..] == result[..len] + result[len..];
            log := log + [SpawnHandlePacket(result[..])];
          }
        case PacketBufTooSmall =>
          log := log + [Panic];
        case TerminatorNotAtEnd(_) =>
          log := log + [Panic];
      }
    }

    /** `usb_high`: handle the USB interrupt, then ask for an LED pulse. */
    method UsbHigh(bufBytes: nat)
      requires Valid()
      modifies serial`bufI, this`log, this`pulseLed
      ensures Valid() && pulseLed
      ensures log == old(log) + UsbEventEffects(old(serial.Pending()), bufBytes)
      ensures serial.bufI == if Io.Delivers(old(serial.Pending()), bufBytes) then 0 else old(serial.bufI)
    {
      HandleUsbEvent(bufBytes);
      pulseLed := true;
    }

    /** `usb_low`: the same work for the low-priority USB interrupt. */
    method UsbLow(bufBytes: nat)
      requires Valid()
      modifies serial`bufI, this`log, this`pulseLed
      ensures Valid() && pulseLed
      ensures log == old(log) + UsbEventEffects(old(serial.Pending()), bufBytes)
      ensures serial.bufI == if Io.Delivers(old(serial.Pending()), bufBytes) then 0 else old(serial.bufI)
    {
      HandleUsbEvent(bufBytes);
      pulseLed := true;
    }

    /**
     * `handle_packet`, given what the COBS decoder made of the packet: a perf
     * message resets the no-data counter and is passed to `show_perf`; a clear
     * screen message is ignored; a decode failure hits a breakpoint.
     */
    method HandlePacket(decoded: Result<FromHost, DecodeError>)
      modifies this`prevPerfMs, this`log
      ensures decoded.Ok? && decoded.value.ShowPerf? ==>
        prevPerfMs == 0 && log == old(log) + [SpawnShowPerf(Some(decoded.value.perf))]
      ensures decoded == Ok(ClearScreen) ==>
        prevPerfMs == old(prevPerfMs) && log == old(log)
      ensures decoded.Err? ==>
        prevPerfMs == old(prevPerfMs) && log == old(log) + [Breakpoint]
    {
      match decoded {
        case Ok(msg) =>
          match msg {
            case ShowPerf(perfData) =>
              prevPerfMs := 0;
              log := log + [SpawnShowPerf(Some(perfData))];
            case ClearScreen =>
          }
        case Err(_) =>
          log := log + [Breakpoint];
      }
    }

    /** `show_perf`: combine the stored and the new packet, store, and draw the result. */
    method ShowPerf(newPerf: Option<PerfData>)
      modifies this`prevPerf, this`log
      ensures var d := CombinePerf(old(prevPerf), newPerf);
        && prevPerf == d.stored
        && log == old(log) + (if d.shown.Some? then [DrawPerf(d.shown.value)] else [])
    {
      var prevValue := prevPerf;
      prevPerf := None;
      var perfData: Option<PerfData>;
      match (prevValue, newPerf) {
        case (Some(p), None) =>
          prevPerf := Some(p);
          perfData := Some(p);
        case (None, Some(n)) =>
          prevPerf := Some(n);
          perfData := Some(n);
        case (Some(p), Some(n)) =>
          prevPerf := Some(n);
          perfData := Some(Midpoint(p, n));
        case (None, None) =>
          perfData := None;
      }
      if perfData.Some? {
        log := log + [DrawPerf(perfData.value)];
      }
    }
  }
}
