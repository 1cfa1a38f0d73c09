/**
 * The RTIC monotonic timer over a 16-bit hardware timer (firmware/src/mono.rs).
 *
 * The timer's registers become fields: the counter `cnt`, the update (overflow)
 * flag `uif`, the capture/compare register `ccr1` with its flag `cc1if` and its
 * interrupt enable `cc1ie`, and the prescaler `psc`.  The software overflow
 * count `ovf` extends the 16-bit counter to a 32-bit instant.  The hardware
 * advancing `cnt` and raising `uif` is not modelled: those fields only change
 * when a caller says so.
 */
module Mono {
  import opened Wrappers
  import opened Ints

  /** Ticks in one wrap of the 16-bit counter. */
  const WRAP_TICKS: u32 := 0x1_0000
  /** The longest compare distance the 16-bit compare register can express. */
  const MAX_COMPARE_TICKS: nat := 0xffff

  /**
   * The instant `now` reads: the counter, plus one wrap if an overflow is pending
   * that `on_interrupt` has not yet counted, plus the counted overflows, with
   * wrapping additions.
   */
  function InstantOf(cnt: u16, uif: bool, ovf: u32): u32
  {
    WrappingAdd32(WrappingAdd32(cnt as u32, if uif then WRAP_TICKS else 0), ovf)
  }

  /** The two wrapping additions of `now` amount to one sum modulo 2^32. */
  lemma InstantIsSum(cnt: u16, uif: bool, ovf: u32)
    ensures InstantOf(cnt, uif, ovf) as int ==
      (cnt as int + (if uif then WRAP_TICKS as int else 0) + ovf as int) % U32_LIMIT
  {
  }

  /**
   * Moving a pending overflow into the overflow count does not change the instant:
   * this is the compensation `now` makes before `on_interrupt` has run.
   */
  lemma {:induction false} OverflowCompensation(cnt: u16, ovf: u32)
    ensures InstantOf(cnt, true, ovf) == InstantOf(cnt, false, WrappingAdd32(ovf, WRAP_TICKS))
  {
    InstantIsSum(cnt, true, ovf);
    InstantIsSum(cnt, false, WrappingAdd32(ovf, WRAP_TICKS));
  }

  /** While the overflow count is a whole number of wraps, the instant's low 16 bits are the counter. */
  lemma {:induction false} LowBitsAreCounter(cnt: u16, uif: bool, ovf: u32)
    requires ovf as int % WRAP_TICKS as int == 0
    ensures InstantOf(cnt, uif, ovf) as int % WRAP_TICKS as int == cnt as int
  {
    InstantIsSum(cnt, uif, ovf);
    var sum := cnt as int + (if uif then WRAP_TICKS as int else 0) + ovf as int;
    var q := ovf as int / WRAP_TICKS as int + (if uif then 1 else 0);
    assert sum == cnt as int + q * WRAP_TICKS as int;
    var w := sum / U32_LIMIT;
    assert sum % U32_LIMIT == cnt as int + (q - w * 0x1_0000) * WRAP_TICKS as int;
  }

  /**
   * The value `set_compare` writes to the compare register.  `ahead` is the outcome
   * of `instant.checked_duration_since(now)`: `None` for an instant in the past,
   * otherwise the number of ticks until it.
   */
  function CompareValue(cnt: u16, instant: u32, ahead: Option<nat>): u16
  {
    match ahead
    case None => WrappingAdd16(cnt, MAX_COMPARE_TICKS as u16)
    case Some(ticks) =>
      if ticks <= MAX_COMPARE_TICKS then (instant as int % U16_LIMIT) as u16
      else WrappingAdd16(cnt, MAX_COMPARE_TICKS as u16)
  }

  /**
   * The compare register fires after the requested number of ticks when the
   * instant is within reach, and after the longest possible wait (0xffff ticks)
   * when it is in the past or too far ahead.
   */
  lemma {:induction false} CompareDistance(cnt: u16, uif: bool, ovf: u32, instant: u32, ahead: Option<nat>)
    requires ovf as int % WRAP_TICKS as int == 0
    requires ahead.Some? ==>
      instant as int == (InstantOf(cnt, uif, ovf) as int + ahead.value) % U32_LIMIT
    ensures (CompareValue(cnt, instant, ahead) as int - cnt as int) % U16_LIMIT ==
      if ahead.Some? && ahead.value <= MAX_COMPARE_TICKS then ahead.value else MAX_COMPARE_TICKS
  {
    if ahead.Some? && ahead.value <= MAX_COMPARE_TICKS {
      var now := InstantOf(cnt, uif, ovf) as int;
      LowBitsAreCounter(cnt, uif, ovf);
      var k := ahead.value;
      // now = cnt + a * 2^16, and instant = now + k - b * 2^32
      var a := now / U16_LIMIT;
      assert now == cnt as int + a * U16_LIMIT;
      var b := (now + k) / U32_LIMIT;
      assert instant as int == cnt as int + k + (a - b * 0x1_0000) * U16_LIMIT;
      var c := instant as int / U16_LIMIT;
      assert instant as int % U16_LIMIT == instant as int - c * U16_LIMIT;
      assert (instant as int % U16_LIMIT) - cnt as int == k + (a - b * 0x1_0000 - c) * U16_LIMIT;
    }
  }

  /**
   * The prescaler `new` computes from the timer clock and the tick frequency
   * `freq`: `clock / freq - 1`, which must fit in 16 bits.  Division by zero, the
   * unsigned underflow of a clock slower than `freq`, and a value above 0xffff
   * all panic in the source; they are `None` here.
   */
  function Prescaler(clockHz: nat, freq: nat): Option<u16>
  {
    if freq == 0 || clockHz / freq == 0 || clockHz / freq - 1 > 0xffff then None
    else Some((clockHz / freq - 1) as u16)
  }

  /** With the prescaler found, the counter ticks once every `clock / freq` clock cycles. */
  lemma PrescalerRate(clockHz: nat, freq: nat)
    ensures Prescaler(clockHz, freq).Some? <==>
      freq > 0 && freq <= clockHz && clockHz / freq <= WRAP_TICKS as int
    ensures Prescaler(clockHz, freq).Some? ==>
      Prescaler(clockHz, freq).value as int + 1 == clockHz / freq
  {
    if freq > 0 && freq <= clockHz {
      assert clockHz / freq >= 1;
    }
  }

  /** The instant of tick zero, the epoch of every instant. */
  function Zero(): (t: u32)
    ensures t == InstantOf(0, false, 0)
  {
    0
  }

  class MonoTimer {
    var cnt: u16
    var uif: bool
    var ovf: u32
    var ccr1: u16
    var cc1if: bool
    var cc1ie: bool
    var psc: u16

    /** The overflow count only ever holds whole wraps of the counter. */
    ghost predicate Valid()
      reads this
    {
      ovf as int % WRAP_TICKS as int == 0
    }

    /** A started timer: counter at zero, no pending overflow, nothing counted yet. */
    constructor Start(psc: u16)
      ensures Valid()
      ensures this.psc == psc && cnt == 0 && !uif && ovf == 0
      ensures ccr1 == 0 && !cc1if && !cc1ie
    {
      this.psc := psc;
      cnt, uif, ovf := 0, false, 0;
      ccr1, cc1if, cc1ie := 0, false, false;
    }

    /** `MonoTimer::new`: fails (panics in the source) when no 16-bit prescaler gives `freq`. */
    static method New(clockHz: nat, freq: nat) returns (r: Option<MonoTimer>)
      ensures r.Some? <==> Prescaler(clockHz, freq).Some?
      ensures r.Some? ==>
        && fresh(r.value) && r.value.Valid()
        && r.value.psc == Prescaler(clockHz, freq).value
        && r.value.ovf == 0 && !r.value.uif
        && r.value.Instant() == Zero()
    {
      var psc := Prescaler(clockHz, freq);
      if psc.None? {
        r := None;
      } else {
        var timer := new MonoTimer.Start(psc.value);
        r := Some(timer);
      }
    }

    /** The instant the registers currently denote. */
    function Instant(): u32
      reads this
    {
      InstantOf(cnt, uif, ovf)
    }

    /** `reset`: enable the compare interrupt. */
    method Reset()
      modifies this`cc1ie
      ensures cc1ie
    {
      cc1ie := true;
    }

    /** `now`: read the current instant; the low 16 bits are the counter. */
    method Now() returns (t: u32)
      requires Valid()
      ensures t == Instant()
      ensures t as int % WRAP_TICKS as int == cnt as int
    {
      t := WrappingAdd32(WrappingAdd32(cnt as u32, if uif then WRAP_TICKS else 0), ovf);
      LowBitsAreCounter(cnt, uif, ovf);
    }

    /** `set_compare`: program the compare register for `instant`. */
    method SetCompare(instant: u32, ahead: Option<nat>)
      requires Valid()
      modifies this`ccr1
      ensures ccr1 == CompareValue(cnt, instant, ahead)
    {
      var now := Now();
      var c := cnt;
      var val: u16;
      match ahead {
        case None =>
          val := WrappingAdd16(c, 0xffff);
        case Some(ticks) =>
          if ticks <= 0xffff {
            val := (instant as int % U16_LIMIT) as u16;
          } else {
            val := WrappingAdd16(c, 0xffff);
          }
      }
      ccr1 := val;
    }

    /** `clear_compare_flag`. */
    method ClearCompareFlag()
      modifies this`cc1if
      ensures !cc1if
    {
      cc1if := false;
    }

    /**
     * `on_interrupt`: count a pending overflow.  The instant the registers denote is
     * the same before and after.
     */
    method OnInterrupt()
      requires Valid()
      modifies this`uif, this`ovf
      ensures Valid()
      ensures old(uif) ==> !uif && ovf == WrappingAdd32(old(ovf), WRAP_TICKS)
      ensures !old(uif) ==> uif == old(uif) && ovf == old(ovf)
      ensures Instant() == old(Instant())
    {
      if uif {
        OverflowCompensation(cnt, ovf);
        uif := false;
        ovf := WrappingAdd32(ovf, WRAP_TICKS);
      }
    }
  }
}
