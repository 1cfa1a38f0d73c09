/**
 * The host daemon's sliding-window averager (daemon/src/avg.rs): a FIFO of at
 * most `maxSamples` samples that drops the oldest sample when full, and their
 * mean.  Samples are `f64` in the source and exact reals here.
 */
module Avg {
  import opened Wrappers

  /** Sum of the samples, front to back. */
  function Sum(s: seq<real>): real
  {
    if s == [] then 0.0 else s[0] + Sum(s[1..])
  }

  /** The mean of the samples, `None` when there are none. */
  function Mean(s: seq<real>): Option<real>
  {
    if |s| == 0 then None else Some(Sum(s) / |s| as real)
  }

  /** A mean times the number of samples is their sum. */
  lemma MeanTimesCount(s: seq<real>)
    requires s != []
    ensures Mean(s).value * |s| as real == Sum(s)
  {
  }

  /** The window after `add_sample(sample)` on a window of `maxSamples` capacity. */
  function Slide(samples: seq<real>, sample: real, maxSamples: nat): (r: seq<real>)
    requires 1 <= maxSamples && |samples| <= maxSamples
    ensures |r| == if |samples| < maxSamples then |samples| + 1 else maxSamples
    ensures r[|r| - 1] == sample
    ensures r[..|r| - 1] == samples[|samples| + 1 - |r|..]
  {
    if |samples| == maxSamples then samples[1..] + [sample] else samples + [sample]
  }

  /** The window after adding `xs`, in order, to an empty averager. */
  function Window(xs: seq<real>, maxSamples: nat): (r: seq<real>)
    requires 1 <= maxSamples
    ensures |r| <= maxSamples
  {
    if xs == [] then []
    else Slide(Window(xs[..|xs| - 1], maxSamples), xs[|xs| - 1], maxSamples)
  }

  /** The last `maxSamples` elements of `xs`, or all of them if there are fewer. */
  function Latest(xs: seq<real>, maxSamples: nat): seq<real>
  {
    if |xs| <= maxSamples then xs else xs[|xs| - maxSamples..]
  }

  /** The window always holds exactly the most recent `maxSamples` samples (or all, if fewer). */
  lemma {:induction false} WindowIsLatest(xs: seq<real>, maxSamples: nat)
    requires 1 <= maxSamples
    ensures Window(xs, maxSamples) == Latest(xs, maxSamples)
  {
    if xs != [] {
      WindowIsLatest(xs[..|xs| - 1], maxSamples);
      SlideLatest(xs, maxSamples);
    }
  }

  /** Adding the last element to the window of the others gives the window of all. */
  lemma SlideLatest(xs: seq<real>, maxSamples: nat)
    requires 1 <= maxSamples && xs != []
    ensures Slide(Latest(xs[..|xs| - 1], maxSamples), xs[|xs| - 1], maxSamples) == Latest(xs, maxSamples)
  {
    var init, last := xs[..|xs| - 1], xs[|xs| - 1];
    var w := Latest(init, maxSamples);
    if |xs| <= maxSamples {
      assert w + [last] == xs;
    } else {
      var k := |xs| - maxSamples;
      assert w[1..] == init[k..];
      SuffixOfInit(xs, k);
    }
  }

  lemma SuffixOfInit(xs: seq<real>, k: nat)
    requires k < |xs|
    ensures xs[..|xs| - 1][k..] + [xs[|xs| - 1]] == xs[k..]
  {
    var a, b := xs[..|xs| - 1][k..] + [xs[|xs| - 1]], xs[k..];
    assert |a| == |b|;
    forall i | 0 <= i < |a| ensures a[i] == b[i] {
      if i < |a| - 1 {
        assert a[i] == xs[k + i];
      }
    }
  }

  /** A sum of `n` copies of `v` is `n * v`. */
  lemma {:induction false} SumOfConstant(s: seq<real>, v: real)
    requires forall i :: 0 <= i < |s| ==> s[i] == v
    ensures Sum(s) == |s| as real * v
  {
    if s != [] {
      SumOfConstant(s[1..], v);
      assert |s| as real * v == v + (|s| - 1) as real * v;
    }
  }

  /** Identical samples average to that value. */
  lemma ConstantMean(s: seq<real>, v: real)
    requires |s| > 0 && forall i :: 0 <= i < |s| ==> s[i] == v
    ensures Mean(s) == Some(v)
  {
    SumOfConstant(s, v);
    assert (|s| as real * v) / |s| as real == v;
  }

  lemma SumOfFour(a: real, b: real, c: real, d: real)
    ensures Sum([a, b, c, d]) == a + b + c + d
  {
    assert Sum([d]) == d by { assert [d][1..] == []; }
    assert Sum([c, d]) == c + d by { assert [c, d][1..] == [d]; }
    assert Sum([b, c, d]) == b + c + d by { assert [b, c, d][1..] == [c, d]; }
    assert [a, b, c, d][1..] == [b, c, d];
  }

  /**
   * The unit tests `returns_average_before_max_samples` and
   * `returns_average_at_max_samples`: four samples in a window of twenty or of
   * four are all kept.
   */
  lemma AverageUpToMaxSamples()
    ensures Window([5.0, 15.0, 5.0, 15.0], 20) == [5.0, 15.0, 5.0, 15.0]
    ensures Window([5.0, 15.0, 5.0, 15.0], 4) == [5.0, 15.0, 5.0, 15.0]
    ensures Mean(Window([5.0, 15.0, 5.0, 15.0], 4)) == Some(40.0 / 4.0)
  {
    var xs := [5.0, 15.0, 5.0, 15.0];
    WindowIsLatest(xs, 20);
    WindowIsLatest(xs, 4);
    SumOfFour(5.0, 15.0, 5.0, 15.0);
    assert Mean(xs) == Some(Sum(xs) / 4.0);
  }

  /**
   * The unit test `returns_average_beyond_max_samples`: with four slots, the fifth
   * sample evicts the first, so the mean is over the last four.
   */
  lemma AverageBeyondMaxSamples()
    ensures Window([5.0, 15.0, 5.0, 15.0, 100.0], 4) == [15.0, 5.0, 15.0, 100.0]
    ensures Mean(Window([5.0, 15.0, 5.0, 15.0, 100.0], 4)) == Some((15.0 + 5.0 + 15.0 + 100.0) / 4.0)
  {
    var xs := [5.0, 15.0, 5.0, 15.0, 100.0];
    var last := [15.0, 5.0, 15.0, 100.0];
    WindowIsLatest(xs, 4);
    assert Latest(xs, 4) == xs[1..] == last;
    SumOfFour(15.0, 5.0, 15.0, 100.0);
    assert Mean(last) == Some(Sum(last) / 4.0);
  }

  class Averager {
    var samples: seq<real>
    const maxSamples: nat

    ghost predicate Valid()
      reads this
    {
      2 <= maxSamples && |samples| <= maxSamples
    }

    /** `Averager::new`; the source asserts that at least two samples are kept. */
    constructor (maxSamples: nat)
      requires maxSamples > 1
      ensures Valid() && this.maxSamples == maxSamples && samples == []
      ensures Average() == None
    {
      this.maxSamples := maxSamples;
      samples := [];
    }

    /** `average`: `None` for no samples, otherwise their sum over their count. */
    function Average(): (r: Option<real>)
      reads this
      ensures r.None? <==> samples == []
      ensures r.Some? ==> r.value * |samples| as real == Sum(samples)
    {
      Mean(samples)
    }

    /** `add_sample`: drop the oldest sample when full, then append. */
    method AddSample(sample: real)
      requires Valid()
      modifies this`samples
      ensures Valid()
      ensures samples == Slide(old(samples), sample, maxSamples)
      ensures |old(samples)| < maxSamples ==> samples == old(samples) + [sample]
      ensures |old(samples)| == maxSamples ==> samples == old(samples)[1..] + [sample]
    {
      if |samples| == maxSamples {
        samples := samples[1..];
      }
      samples := samples + [sample];
    }
  }
}
