/**
 * The display helpers of the firmware (firmware/src/gfx.rs): the arithmetic that
 * decides where text and bars go on the 128x64 monochrome display, what the
 * percentage texts say and which colour is background.  Drawing the pixels is
 * not modelled; `PerfLayout` returns what `draw_perf` would draw instead.
 */
module Gfx {
  import opened Wrappers

  const DISP_WIDTH: int := 128
  const DISP_HEIGHT: int := 64
  const X_PAD: int := 1
  const Y_PAD: int := 2
  const CHAR_HEIGHT: int := 14
  const CHAR_WIDTH: int := 6
  const BAR_WIDTH: int := DISP_WIDTH - X_PAD * 2
  const BAR_HEIGHT: int := 10
  /** Capacity of the `heapless::String<U16>` the percentage texts are built in. */
  const TEXT_CAPACITY: nat := 16

  datatype BinaryColor = On | Off

  /** Colours of one frame. */
  datatype ColourScheme = ColourScheme(background: BinaryColor, foreground: BinaryColor)

  /** Inverted during the day to even out burn-in. */
  function Colours(daytime: bool): (c: ColourScheme)
    ensures c.background != c.foreground
    ensures daytime <==> c.background == On
  {
    ColourScheme(
      background := if daytime then On else Off,
      foreground := if daytime then Off else On)
  }

  /** Top y coordinate of text line `line`. */
  function LineY(line: int): (y: int)
    ensures 0 <= line <= 3 ==> Y_PAD <= y && y + CHAR_HEIGHT <= DISP_HEIGHT
  {
    Y_PAD + line * (Y_PAD + CHAR_HEIGHT)
  }

  /** Consecutive text lines are one character height plus the padding apart. */
  lemma LineSpacing(line: int)
    ensures LineY(line + 1) - LineY(line) == CHAR_HEIGHT + Y_PAD
  {
  }

  /** The four text lines start at rows 2, 18, 34 and 50, and a bar on the last one still fits. */
  lemma LineLayout()
    ensures [LineY(0), LineY(1), LineY(2), LineY(3)] == [2, 18, 34, 50]
    ensures LineY(3) + BAR_HEIGHT < DISP_HEIGHT
  {
  }

  /** `f32 as i32` for a value that is not NaN: truncation toward zero, saturating at the i32 range. */
  function TruncateToI32(x: real): (r: int)
    ensures -0x8000_0000 <= r <= 0x7fff_ffff
    ensures 0.0 <= x < 0x7fff_ffff as real ==> r as real <= x < r as real + 1.0
    ensures x >= 0x7fff_ffff as real ==> r == 0x7fff_ffff
    ensures -0x8000_0000 as real < x < 0.0 ==> r as real - 1.0 < x <= r as real
    ensures x <= -0x8000_0000 as real ==> r == -0x8000_0000
  {
    var t := if x >= 0.0 then x.Floor else -((-x).Floor);
    if t < -0x8000_0000 then -0x8000_0000
    else if t > 0x7fff_ffff then 0x7fff_ffff
    else t
  }

  /** The `scale_x` closure of `bar_graph`: the bar's right edge for a load `val`. */
  function ScaleX(maxX: nat, val: real): (x: int)
    requires maxX < 0x7fff_ffff
    ensures x <= maxX
    ensures 0.0 <= val <= 1.0 ==> 0 <= x && x as real <= maxX as real * val < x as real + 1.0
    ensures val >= 1.0 ==> x == maxX
  {
    var t := TruncateToI32(maxX as real * val);
    TruncatedProduct(maxX, val);
    if t < maxX then t else maxX
  }

  /** Where the truncated product lies relative to `maxX`. */
  lemma TruncatedProduct(maxX: nat, val: real)
    requires maxX < 0x7fff_ffff
    ensures var t := TruncateToI32(maxX as real * val);
      && (0.0 <= val <= 1.0 ==> 0 <= t <= maxX && t as real <= maxX as real * val < t as real + 1.0)
      && (val >= 1.0 ==> t >= maxX)
  {
    var p := maxX as real * val;
    var t := TruncateToI32(p);
    if 0.0 <= val <= 1.0 {
      MulNonNegative(maxX as real, val);
      MulNonNegative(maxX as real, 1.0 - val);
      assert maxX as real - p == maxX as real * (1.0 - val);
      assert t as real <= p;
    }
    if val >= 1.0 {
      MulNonNegative(maxX as real, val - 1.0);
      assert p - maxX as real == maxX as real * (val - 1.0);
      if p < 0x7fff_ffff as real {
        assert p < t as real + 1.0;
      }
    }
  }

  lemma MulNonNegative(a: real, b: real)
    requires 0.0 <= a && 0.0 <= b
    ensures 0.0 <= a * b
  {
  }

  /** The character the source's `digit` gives for a decimal digit. */
  function Digit(d: int): char
    requires 0 <= d <= 9
  {
    ('0' as int + d) as char
  }

  /** Reads one character of a percentage text back as a digit, a blank counting as 0. */
  function DigitValue(c: char): int
  {
    if '0' <= c <= '9' then c as int - '0' as int else 0
  }

  /** `Digit` writes a digit character that reads back as the digit. */
  lemma DigitReadsBack(d: int)
    requires 0 <= d <= 9
    ensures '0' <= Digit(d) <= '9' && DigitValue(Digit(d)) == d
    ensures d > 0 ==> '1' <= Digit(d)
  {
  }

  /**
   * What a percentage text shows for the per-mille value `n`: a tens digit that
   * is blank below 10 %, a ones digit and, when `fractional`, a point and the
   * tenths; the digits read back as `n` capped at 999, cut to whole percent
   * unless `fractional`.
   */
  ghost predicate ShowsPermille(s: string, n: int, fractional: bool)
  {
    var shown := if n < 999 then n else 999;
    && |s| == (if fractional then 4 else 2)
    && (s[0] == ' ' <==> shown < 100)
    && (s[0] == ' ' || '1' <= s[0] <= '9')
    && '0' <= s[1] <= '9'
    && (fractional ==> s[2] == '.' && '0' <= s[3] <= '9')
    && DigitValue(s[0]) * 100 + DigitValue(s[1]) * 10 + (if fractional then DigitValue(s[3]) else 0)
      == (if fractional then shown else shown - shown % 10)
  }

  /** A per-mille value has exactly one text that shows it. */
  lemma PermilleTextUnique(s: string, t: string, n: int, fractional: bool)
    requires ShowsPermille(s, n, fractional) && ShowsPermille(t, n, fractional)
    ensures s == t
  {
    var a, b := DigitValue(s[0]), DigitValue(t[0]);
    var c, d := DigitValue(s[1]), DigitValue(t[1]);
    var e := if fractional then DigitValue(s[3]) else 0;
    var f := if fractional then DigitValue(t[3]) else 0;
    DecimalDigitsUnique(a, c, e, b, d, f);
    forall i | 0 <= i < |s| ensures s[i] == t[i] {
      if i == 0 || i == 1 || i == 3 {
        assert DigitValue(s[i]) == DigitValue(t[i]);
      }
    }
  }

  /** 0.5 % free shows as " 0", and an average of 12.3 % as "12.3". */
  lemma PermilleTextExamples(free: string, avg: string)
    requires ShowsPermille(free, 5, false) && ShowsPermille(avg, 123, true)
    ensures free == " 0" && avg == "12.3"
  {
    DigitReadsBack(0);
    DigitReadsBack(1);
    DigitReadsBack(2);
    DigitReadsBack(3);
    PermilleTextUnique(free, [' ', Digit(0)], 5, false);
    PermilleTextUnique(avg, [Digit(1), Digit(2), '.', Digit(3)], 123, true);
  }

  lemma DecimalDigitsUnique(a: int, c: int, e: int, b: int, d: int, f: int)
    requires 0 <= a <= 9 && 0 <= c <= 9 && 0 <= e <= 9
    requires 0 <= b <= 9 && 0 <= d <= 9 && 0 <= f <= 9
    requires a * 100 + c * 10 + e == b * 100 + d * 10 + f
    ensures a == b && c == d && e == f
  {
  }

  /**
   * `percent_string`, from the per-mille value `n` that the source computes as
   * `(ratio * 1000.0) as i32`.  Two characters (tens blank when 0, ones) or, when
   * `fractional`, four (with a point and the tenths).
   */
  method PercentString(n: int, fractional: bool) returns (s: string)
    requires n >= 0
    ensures ShowsPermille(s, n, fractional)
  {
    var num := if n < 999 then n else 999;
    var tenths := num % 10;
    num := num / 10;
    var ones := num % 10;
    num := num / 10;
    var tens := num % 10;
    DigitReadsBack(tenths);
    DigitReadsBack(ones);
    DigitReadsBack(tens);

    s := [];
    s := s + [if tens == 0 then ' ' else Digit(tens)];
    s := s + [Digit(ones)];
    if fractional {
      s := s + ['.'];
      s := s + [Digit(tenths)];
    }
  }

  /** One piece of text and where it is drawn. */
  datatype TextItem = TextItem(text: string, x: int, y: int)

  /** A bar rectangle from (left, top) to (right, bottom), outlined or solid. */
  datatype Bar = Bar(left: int, top: int, right: int, bottom: int, solid: bool)

  /** Everything `draw_perf` puts on the display for one snapshot. */
  datatype Layout = Layout(colours: ColourScheme, texts: seq<TextItem>, bars: seq<Bar>)

  /** `bar_graph` on a bar of width `BAR_WIDTH` whose top-left corner is (X_PAD, y). */
  function BarAt(y: int, val: real, solid: bool): (b: Bar)
    ensures b.left == X_PAD && b.top == y && b.bottom == y + BAR_HEIGHT && b.solid == solid
    ensures b.right <= X_PAD + BAR_WIDTH - 1
    ensures 0.0 <= val <= 1.0 ==>
      (X_PAD <= b.right && (b.right - X_PAD) as real <= (BAR_WIDTH - 1) as real * val < (b.right - X_PAD + 1) as real)
    ensures val >= 1.0 ==> b.right == X_PAD + BAR_WIDTH - 1
  {
    Bar(X_PAD, y, X_PAD + ScaleX((BAR_WIDTH - 1) as nat, val), y + BAR_HEIGHT, solid)
  }

  /** A percentage text with its suffix, right-aligned on line `line`. */
  method RightAligned(n: int, fractional: bool, suffix: string, line: int) returns (item: Option<TextItem>)
    requires n >= 0
    ensures item.Some? <==> (if fractional then 4 else 2) + |suffix| <= TEXT_CAPACITY
    ensures item.Some? ==>
      && |item.value.text| == (if fractional then 4 else 2) + |suffix|
      && item.value.text[(if fractional then 4 else 2)..] == suffix
      && ShowsPermille(item.value.text[..(if fractional then 4 else 2)], n, fractional)
      && item.value.x + |item.value.text| * CHAR_WIDTH == DISP_WIDTH - X_PAD
      && item.value.y == LineY(line)
  {
    var text := PercentString(n, fractional);
    if |text| + |suffix| > TEXT_CAPACITY {
      // `push_str` fails and `unwrap` panics
      return None;
    }
    text := text + suffix;
    var width := |text| * CHAR_WIDTH;
    item := Some(TextItem(text, DISP_WIDTH - X_PAD - width, LineY(line)));
  }

  /**
   * The layout of `draw_perf`.  `avgPermille` and `freePermille` are the per-mille
   * values `percent_string` receives for the average CPU load and the free memory.
   * Both texts fit their 16-character strings, end one pixel from the right edge
   * and start to the right of the "CPU" and "RAM" labels.
   */
  method PerfLayout(avgPermille: int, freePermille: int, allCoresLoad: real, peakCoreLoad: real,
                    memoryLoad: real, daytime: bool) returns (layout: Layout)
    requires avgPermille >= 0 && freePermille >= 0
    ensures layout.colours == Colours(daytime)
    ensures |layout.texts| == 4
    ensures layout.texts[0] == TextItem("CPU", X_PAD, LineY(0))
    ensures |layout.texts[1].text| == 9 && layout.texts[1].text[4..] == "% Avg"
    ensures layout.texts[2] == TextItem("RAM", X_PAD, LineY(2))
    ensures |layout.texts[3].text| == 8 && layout.texts[3].text[2..] == "% Free"
    ensures ShowsPermille(layout.texts[1].text[..4], avgPermille, true)
    ensures ShowsPermille(layout.texts[3].text[..2], freePermille, false)
    ensures forall i :: 0 <= i < 4 ==> |layout.texts[i].text| <= TEXT_CAPACITY
    ensures layout.texts[1].x + |layout.texts[1].text| * CHAR_WIDTH == DISP_WIDTH - X_PAD
    ensures layout.texts[3].x + |layout.texts[3].text| * CHAR_WIDTH == DISP_WIDTH - X_PAD
    ensures layout.texts[1].y == LineY(0) && layout.texts[3].y == LineY(2)
    ensures layout.texts[1].x > X_PAD + 3 * CHAR_WIDTH && layout.texts[3].x > X_PAD + 3 * CHAR_WIDTH
    ensures layout.bars == [
      BarAt(LineY(1), peakCoreLoad, false),
      BarAt(LineY(1), allCoresLoad, true),
      BarAt(LineY(3), memoryLoad, true)]
  {
    var colours := Colours(daytime);
    var avg := RightAligned(avgPermille, true, "% Avg", 0);
    var free := RightAligned(freePermille, false, "% Free", 2);
    layout := Layout(
      colours,
      [TextItem("CPU", X_PAD, LineY(0)), avg.value, TextItem("RAM", X_PAD, LineY(2)), free.value],
      [BarAt(LineY(1), peakCoreLoad, false),
       BarAt(LineY(1), allCoresLoad, true),
       BarAt(LineY(3), memoryLoad, true)]);
  }
}
