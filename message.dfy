/**
 * The messages the host daemon sends to the gauge (shared/src/message.rs).
 * The four loads are `f32` fractions in the source; they are exact reals here.
 */
module Message {

  /** One performance snapshot of the host. */
  datatype PerfData = PerfData(
    allCoresLoad: real,  // aggregate load of all CPU cores, 0..1
    allCoresAvg: real,   // all-cores load averaged over recent samples, 0..1
    peakCoreLoad: real,  // load of the busiest core, 0..1
    memoryLoad: real,    // fraction of memory in use, 0..1
    daytime: bool        // selects the day or night colour scheme
  )

  datatype FromHost = ClearScreen | ShowPerf(perf: PerfData)
}
