# hw-gauge in Dafny

hw-gauge is a small USB hardware monitor. A host daemon samples CPU and memory
load once a second and sends `PerfData` snapshots over a USB serial port. The
STM32 firmware reassembles the packets, animates the load bars and draws them
on a 128x64 OLED display. This project models the core of both sides and
proves properties of that model:

- `message.dfy`: the `FromHost` and `PerfData` message types.
- `ints.dfy`: `u8`/`u16`/`u32` and wrapping addition.
- `io.dfy`: the firmware's serial receive buffer (`Serial`). It has a 64-byte
  array and a write index, and `read_packet` deframes on a carriage-return
  terminator.
- `perf.dfy`: the VU-meter animation (`update_state`, `update_cpu_load`). It
  returns the frames it would schedule.
- `app.dfy`: the RTIC task bodies (`tick`, `pulse_led`, `usb_high`/`usb_low`,
  `handle_usb_event`, `handle_packet`, `show_perf`) as methods of a
  `Firmware` class. The fields of `Firmware` are the shared resources. A ghost
  log records what the tasks spawn, draw or panic on.
- `mono.dfy`: the RTIC monotonic timer over a 16-bit
  hardware counter with a software overflow count. Its registers are fields.
- `gfx.dfy`: the display arithmetic (colours, line positions, bar scaling,
  percentage text, right alignment) and the layout `draw_perf` produces.
- `avg.dfy`: the daemon's sliding-window `Averager`.
- `host.dfy`: the daemon library. It covers `daytime`, `detect_port`, the
  least-idle-core choice, `write_perf_data`, `stop` and the detect/send loop.

What the code does at the points that decide the model:

- The frame terminator is byte 13, a carriage return (firmware/src/io.rs:6).
- `read_packet` copies the `i` bytes before the terminator into the caller's
  buffer and refuses the packet when `i > packet_buf.len()`
  (firmware/src/io.rs:66-74).
- A terminator that is not the last buffered byte panics. Bytes after a
  packet are never moved to the front of the buffer, and a packet too large
  for the caller's buffer stays buffered.
- The CPU bars fall by at most 25 percentage points per second
  (firmware/src/perf.rs:10).
- `daytime` is true for hours 7 to 17 only. Its comment says "between 6am and
  6pm", but hour 6 is night (daemon/lib/src/lib.rs:84-89).
- main.rs never calls `Serial::poll`. `Poll` is modelled on its own.
- `perf.rs` is not called from main.rs. Its frames carry a bare `PerfData`,
  while main.rs's `show_perf` takes an `Option<PerfData>`.

Loads are `f32`/`f64` in the source and exact `real`s here.

## Model

| member | source | states |
|---|---|---|
| Ints.WrappingAdd32 | firmware/src/mono.rs:65 | `u32::wrapping_add`: the exact sum when it fits, otherwise the sum minus 2^32 |
| Ints.WrappingAdd16 | firmware/src/mono.rs:75 | `u16::wrapping_add`: the exact sum when it fits, otherwise the sum minus 2^16 |
| Io.FindTerminator | firmware/src/io.rs:56-57 | `None` exactly when no terminator is buffered; otherwise the index of a terminator with none before it |
| Io.FirstTerminatorIs | firmware/src/io.rs:56-57 | a terminator at `i` with none before it is the one the scan stops at |
| Io.Deframe | firmware/src/io.rs:51-80 | no terminator gives `Ok(0)`; a delivered packet is everything before the final terminator; a terminator before the last byte is the panic case; a final terminator after more bytes than the caller's buffer holds is the "too small" error |
| Io.DeframeFrame | firmware/src/io.rs:56-74 | payload + terminator is delivered whole when it fits, refused when it does not |
| Io.DeliveredPacketShape | firmware/src/io.rs:56-74 | a delivered packet is shorter than the 64-byte buffer and holds no terminator |
| Io.Serial.constructor | firmware/src/io.rs:19-26 | a zeroed 64-byte buffer and an empty write index |
| Io.Serial.Poll | firmware/src/io.rs:29-49 | nothing changes unless the device was polled and the read succeeded; then the bytes read are appended to the pending bytes and the count is returned |
| Io.Serial.ReadPacket | firmware/src/io.rs:51-80 | the outcome is `Deframe` of the pending bytes; on delivery the packet is copied to the front of the caller's buffer and the index resets; otherwise neither buffer changes |
| Perf.UpdateCpuLoad | firmware/src/perf.rs:99-108 | a higher target is taken at once; a lower one is approached by at most one per-frame step and never undershot |
| Perf.Ease | firmware/src/perf.rs:59-69 | after `n` frames the two CPU loads equal the closed-form `LoadAfter`, and the other fields are the target's |
| Perf.UpdateState | firmware/src/perf.rs:29-96 | the four cases of (previous, current); blending schedules 15 frames at delays `f * 66` ms, each the eased frame `f + 1`, and stores the last frame with no current value |
| Perf.LoadAfterStep | firmware/src/perf.rs:99-108 | one `update_cpu_load` step advances the closed form by one frame |
| Perf.FallIsEased | firmware/src/perf.rs:60-68 | while falling, frames never increase, drop by at most one step, never go below the target and stay there once reached |
| Perf.RiseIsImmediate | firmware/src/perf.rs:100-102 | a rise is shown in full from the first frame on |
| Perf.OneSecondOfFall | firmware/src/perf.rs:7-13 | the 15 frames of one second lower a falling bar by exactly 25 percentage points, or to the target |
| App.CounterCountsTicks | firmware/src/main.rs:189-190 | until it wraps, the no-data counter is 100 ms times the number of ticks since the last reset |
| App.WatchdogSchedule | firmware/src/main.rs:189-212 | from a reset, tick 5 re-shows the last data, tick 20 shows "No data received", tick 300 blanks the display, and other ticks do nothing |
| App.CombinePerf | firmware/src/main.rs:280-307 | the new packet is stored when present, else the old one is kept; something is drawn unless both are missing; a lone packet is drawn as it is |
| App.BlendIsHalfway | firmware/src/main.rs:292-301 | with both packets present, the drawn CPU loads are half-way between old and new and the other fields are the new packet's |
| App.UsbEventOnFrame | firmware/src/main.rs:324-330 | a complete frame is passed on as its payload padded with zeros; an empty frame is dropped; an oversized one panics |
| App.Firmware.Init | firmware/src/main.rs:152-176 | the shared resources start with the LED off, no pulse, no stored data, counter 0 and an empty receive buffer |
| App.Firmware.Tick | firmware/src/main.rs:180-216 | the counter grows by 100 ms (wrapping); the watchdog action for the new value is taken, then an LED pulse is spawned |
| App.Firmware.PulseLed | firmware/src/main.rs:218-230 | a pending pulse lights the LED and is consumed; otherwise the LED is switched off |
| App.Firmware.HandleUsbEvent | firmware/src/main.rs:324-330 | the effects are those of `UsbEventEffects` on the pending bytes; the receive index resets exactly when a packet is delivered |
| App.Firmware.UsbHigh | firmware/src/main.rs:232-239 | handles the USB event, then requests an LED pulse |
| App.Firmware.UsbLow | firmware/src/main.rs:241-248 | handles the USB event, then requests an LED pulse |
| App.Firmware.HandlePacket | firmware/src/main.rs:250-271 | a perf message resets the counter and is passed to `show_perf`; clear-screen changes nothing; a decode failure hits a breakpoint |
| App.Firmware.ShowPerf | firmware/src/main.rs:275-320 | the stored packet and the drawing are those `CombinePerf` decides |
| Mono.InstantIsSum | firmware/src/mono.rs:54-66 | the two wrapping additions of `now` are one sum modulo 2^32 |
| Mono.OverflowCompensation | firmware/src/mono.rs:57-65 | a pending overflow counted in `now` gives the same instant as one already moved into the overflow count |
| Mono.LowBitsAreCounter | firmware/src/mono.rs:54-66 | while the overflow count is a whole number of wraps, the instant's low 16 bits are the hardware counter |
| Mono.CompareDistance | firmware/src/mono.rs:68-81 | the compare register fires after the requested number of ticks when the instant is at most 0xffff ahead, else after 0xffff ticks |
| Mono.PrescalerRate | firmware/src/mono.rs:24-25 | a prescaler exists exactly when `clock / freq` is between 1 and 2^16, and then the counter ticks every `clock / freq` cycles |
| Mono.Zero | firmware/src/mono.rs:96-99 | the epoch is the instant of a fresh timer |
| Mono.MonoTimer.Start | firmware/src/mono.rs:26-41 | a started timer has counter 0, no pending overflow and no counted overflows |
| Mono.MonoTimer.New | firmware/src/mono.rs:17-42 | fails exactly when no 16-bit prescaler exists; otherwise a fresh timer at instant zero |
| Mono.MonoTimer.Reset | firmware/src/mono.rs:49-51 | enables the compare interrupt |
| Mono.MonoTimer.Now | firmware/src/mono.rs:54-66 | returns the instant the registers denote, whose low 16 bits are the counter |
| Mono.MonoTimer.SetCompare | firmware/src/mono.rs:68-81 | writes `CompareValue` to the compare register |
| Mono.MonoTimer.ClearCompareFlag | firmware/src/mono.rs:83-85 | clears the compare flag |
| Mono.MonoTimer.OnInterrupt | firmware/src/mono.rs:87-94 | a pending overflow moves into the overflow count, and the instant does not change |
| Gfx.Colours | firmware/src/gfx.rs:39-49 | foreground and background differ; the background is lit exactly during the day |
| Gfx.LineY | firmware/src/gfx.rs:125-127 | each of the four text lines starts below the top padding and ends within the 64-row display |
| Gfx.LineSpacing | firmware/src/gfx.rs:125-127 | consecutive text lines are 16 rows apart, one character height plus the padding |
| Gfx.LineLayout | firmware/src/gfx.rs:125-127 | the four text lines start at rows 2, 18, 34 and 50, and the last bar fits on the display |
| Gfx.TruncateToI32 | firmware/src/gfx.rs:143 | `as i32` truncates toward zero within the i32 range, for negative values as for positive ones, and saturates at -2^31 below it and at 2^31 - 1 above it |
| Gfx.ScaleX | firmware/src/gfx.rs:139-145 | the bar end is at most `max_x`; for a load in [0, 1] it is the floor of `max_x * load`; a load of 1 or more fills the bar |
| Gfx.PercentString | firmware/src/gfx.rs:158-182 | two or four characters; the tens digit is blank below 10 %; the digits read back as the per-mille value capped at 999, to whole percent unless fractional |
| Gfx.PermilleTextUnique | firmware/src/gfx.rs:158-182 | the digit read-back fixes the text completely: one text per per-mille value |
| Gfx.PermilleTextExamples | firmware/src/gfx.rs:158-182 | 0.5 % free shows as " 0"; a 12.3 % average shows as "12.3" |
| Gfx.BarAt | firmware/src/gfx.rs:129-156 | the bar starts at the left padding on its line, is 10 rows high, never extends past the bar width, ends at the floor of `max_x * load` for a load in [0, 1] and is full for a load of 1 or more |
| Gfx.RightAligned | firmware/src/gfx.rs:69-78 | the text plus suffix fits 16 characters or the `unwrap` fails; a fitting text shows the per-mille value's digits, then the suffix, and ends one pixel from the right edge |
| Gfx.PerfLayout | firmware/src/gfx.rs:35-123 | the labels, the "% Avg" text on line 0 showing the average's per-mille digits and the "% Free" text on line 2 showing the free memory's (both fit and end at the right edge without covering the labels), and the three bars `draw_perf` draws |
| Avg.Slide | daemon/src/avg.rs:40-46 | the window grows by one below capacity and stays at capacity; the sample is last and the oldest samples are kept in order |
| Avg.Window | daemon/src/avg.rs:40-46 | adding samples one by one never exceeds the capacity |
| Avg.WindowIsLatest | daemon/src/avg.rs:40-46 | after any sequence of additions the window is exactly the latest `max_samples` samples |
| Avg.MeanTimesCount | daemon/src/avg.rs:31-38 | the mean times the count is the sum |
| Avg.ConstantMean | daemon/src/avg.rs:62-71 | identical samples average to that value |
| Avg.AverageUpToMaxSamples | daemon/src/avg.rs:73-97 | four samples in a window of 20 or of 4 average to 10 |
| Avg.AverageBeyondMaxSamples | daemon/src/avg.rs:99-112 | a fifth sample in a window of 4 evicts the first; the mean is over the last four |
| Avg.Averager.constructor | daemon/src/avg.rs:23-29 | at least two slots are demanded; the window starts empty and `average` is `None` |
| Avg.Averager.Average | daemon/src/avg.rs:31-38 | `None` exactly when empty; otherwise the value times the count is the sum |
| Avg.Averager.AddSample | daemon/src/avg.rs:40-46 | appends below capacity; at capacity drops exactly the oldest sample, then appends |
| Host.Daytime | daemon/lib/src/lib.rs:84-92 | true exactly for a known hour from 7 to 17 |
| Host.DaytimeEdges | daemon/lib/src/lib.rs:84-91 | 6 and 18 are night, 7 and 17 day, an unknown time is night |
| Host.FindGauge | daemon/lib/src/lib.rs:99-102 | `None` exactly when no port matches; otherwise the first matching position |
| Host.DetectPort | daemon/lib/src/lib.rs:95-105 | a listing failure is a serial error; `PortNotFound` exactly when no port matches; whenever a port matches, `Ok` with the first USB port with vid 0x1209 and pid 0x0001 |
| Host.NonUsbNeverMatches | daemon/lib/src/lib.rs:99-104 | a listing without USB ports gives `PortNotFound` |
| Host.LeastIdle | daemon/lib/src/lib.rs:139-141 | `None` exactly for no cores; otherwise a core with the least idle time, the first one on a tie |
| Host.PeakCore | daemon/lib/src/lib.rs:139-142 | the least idle core, or the aggregate when there are no per-core readings |
| Host.BusyFraction | daemon/lib/src/lib.rs:124-126 | the busy fraction and the idle fraction add up to 1, so an idle fraction in [0, 1] gives a busy fraction in [0, 1] |
| Host.PeakIsBusiest | daemon/lib/src/lib.rs:139-142 | no core's busy fraction exceeds the peak core's |
| Host.PerfRound | daemon/lib/src/lib.rs:119-168 | a snapshot is written exactly when all readings succeed; the result is `Ok` exactly when it is written and the write succeeds; every failure is an I/O error |
| Host.CpuFailureKeepsWindow | daemon/lib/src/lib.rs:130-138 | a failing CPU reading leaves the averager untouched and sends nothing |
| Host.SampleBeforeAverage | daemon/lib/src/lib.rs:144-146 | once the CPU readings succeed, the current load joins the window as its newest sample, even if the memory reading then fails |
| Host.AverageIncludesSample | daemon/lib/src/lib.rs:146-154 | the average sent is the mean of the window after the current sample was added |
| Host.Snapshot | daemon/lib/src/lib.rs:152-158 | the snapshot's average times the window's length is the window's sum |
| Host.SnapshotFields | daemon/lib/src/lib.rs:152-158 | the snapshot carries the aggregate load, the least idle core's load, the memory load and the daytime flag |
| Host.WritePerfData | daemon/lib/src/lib.rs:119-168 | the averager's new window, the snapshot written and the result are those of `PerfRound` |
| Host.RunRounds | daemon/lib/src/lib.rs:64-81 | earlier snapshots are kept as a prefix, each round writes at most one, and a stop once requested stays requested |
| Host.StopAfterWrite | daemon/lib/src/lib.rs:64-71 | after `stop`, the loop returns `Ok` at its first check, after exactly one successful write |
| Host.OkOnlyWhenStopped | daemon/lib/src/lib.rs:64-77 | the loop returns `Ok` only with the run mode at `Stop`, in a round `k` that wrote its snapshot, after one snapshot in every round before it; `stop` was called by round `k`, or before the loop when it returns in its first round |
| Host.WriteErrorEnds | daemon/lib/src/lib.rs:164-167 | a failed write ends the loop with an I/O error |
| Host.Service.constructor | daemon/lib/src/lib.rs:35-39 | the run mode starts as `Run` |
| Host.Service.Stop | daemon/lib/src/lib.rs:48-56 | sets the run mode to `Stop` |
| Host.Service.DetectsendLoop | daemon/lib/src/lib.rs:58-82 | a detection or open failure returns its error without writing; otherwise the outcome, the snapshots and the run mode are those of `RunRounds` from an empty averager |
| Host.Service.SendRounds | daemon/lib/src/lib.rs:64-81 | the loop's outcome, snapshots and run mode are those of `RunRounds` |
| Host.Service.SendOnce | daemon/lib/src/lib.rs:65-77 | one pass either ends the loop with `RunRounds`'s result or leaves the run mode at `Run` with the rest of the rounds to go |

## Left out

- USB device and CDC class plumbing, the I2C display driver, the LED pin,
  clocks and the hardware `init` are left out: they are hardware set-up or
  foreign code. `Poll` takes the outcome of `usb_dev.poll` and `port.read` as
  parameters.
- RTIC scheduling and priorities are left out. Each task runs to completion;
  `spawn` and `spawn_after` requests become log entries or returned frames.
  Full spawn queues (the `unwrap` in `handle_usb_event`, the breakpoint in
  `update_state`) are not modelled.
- The postcard/COBS decoder and encoder are library code.
  `App.Firmware.HandlePacket` takes the decoder's result, and the daemon's
  encoded bytes are represented by the `PerfData` handed to `write`.
- `io::BUF_BYTES` is not defined in firmware/src/io.rs. It is a parameter
  (`bufBytes`) of the USB event methods.
- Drawing pixels (`Text`, `Rectangle`, `clear`, `flush`, `draw_message`'s
  rendering) is left out. `Gfx.PerfLayout` returns what would be drawn.
- Floating point is left out. Loads are exact reals, so `f32` rounding, NaN,
  `partial_cmp().unwrap()` panics, the `ratio * 1000.0 as i32` cast and the
  memory formula `1 - free / total` are not modelled. `Gfx.PercentString`
  and `Gfx.PerfLayout` take the per-mille integer after the cast.
- Gfx.PercentString: requires a non-negative per-mille value. Loads lie in
  [0, 1]; a negative ratio would make the digit arithmetic wrap in `u8`.
- Gfx.RightAligned: requires a non-negative per-mille value, for the same
  reason.
- A logged `Panic` does not halt the model. The firmware stops in its panic
  handler at that point (a failed `unwrap` or `read_packet`'s `panic!`), but
  `App.Firmware.UsbHigh` and `App.Firmware.UsbLow` still set `pulse_led`
  after it, and later calls carry on. No run of the firmware reaches the
  states after a logged `Panic`.
- App.Firmware.Tick: the `u32 +=` on `prev_perf_ms` wraps here. This is the
  release-build behaviour; a debug build would panic after about 49 days
  without data.
- Mono.MonoTimer.OnInterrupt: `ovf += 0x10000` wraps here, as in a release
  build.
- The hardware advancing the counter and raising the overflow flag is left
  out. The race between reading `cnt` and `uif` in `now` is left out too.
- `fugit`'s `checked_duration_since` is not part of this model.
  `Mono.MonoTimer.SetCompare` takes its outcome as a parameter.
- `MonoTimer::new`'s register writes are left out. Only the prescaler
  computation and the started state are modelled.
- Mutex poisoning is left out, so the `Err` arms of `CONTEXT.lock()` in
  `stop` and `detectsend_loop` are not modelled. Another thread's `stop` is
  a per-round flag in the loop's input.
- `open_port` is one success flag. Port names, the baud rate and DTR are not
  modelled.
- Sleeps (`SEND_PERIOD`, `CPU_POLL_PERIOD`, `DETECT_RETRY_DELAY`) and the
  clock behind `daytime` are left out. The local hour is an input.
- The endless loop is modelled over a finite list of rounds. It reports
  `Running` when the rounds run out.
- `io::Error` and `serialport::Error` payloads are collapsed to the error
  kinds `IO` and `Serial`.
- win-service/src/main.rs, daemon/windows/src/main.rs,
  daemon/linux/src/main.rs and daemon/src/main.rs are left out: they are
  service registration, logging set-up, retry loops and an obsolete
  prototype.
