/**
 * `MeanAndSpreadFilter`: a running mean and spread over a sliding window of
 * the last `N` samples, kept in a circular buffer. While the buffer fills
 * up the mean and the sum of squared deviations are updated by Welford's
 * formulas; once it is full, each new sample replaces the oldest one and
 * both are corrected for the sample that leaves the window. One channel
 * is modelled: the source processes its channels element by element.
 */
module MeanAndSpread {
  import opened Wrappers

  /** The sum of the samples. */
  function Sum(s: seq<real>): real
  {
    if |s| == 0 then 0.0 else Sum(s[..|s| - 1]) + s[|s| - 1]
  }

  /** The sum of the squares of the samples. */
  function SumSq(s: seq<real>): real
  {
    if |s| == 0 then 0.0 else SumSq(s[..|s| - 1]) + s[|s| - 1] * s[|s| - 1]
  }

  /** The sum of the squared deviations of the samples from `m`. */
  function SqDev(s: seq<real>, m: real): real
  {
    if |s| == 0 then 0.0 else SqDev(s[..|s| - 1], m) + (s[|s| - 1] - m) * (s[|s| - 1] - m)
  }

  lemma SumAppend(s: seq<real>, x: real)
    ensures Sum(s + [x]) == Sum(s) + x
    ensures SumSq(s + [x]) == SumSq(s) + x * x
  {
    assert (s + [x])[..|s|] == s;
  }

  /** Replacing one sample changes the sums by the difference. */
  lemma {:induction false} SumUpdate(s: seq<real>, k: nat, x: real)
    requires k < |s|
    ensures Sum(s[k := x]) == Sum(s) - s[k] + x
    ensures SumSq(s[k := x]) == SumSq(s) - s[k] * s[k] + x * x
    decreases |s|
  {
    var t := s[k := x];
    var n := |s| - 1;
    assert t[..n] == if k < n then s[..n][k := x] else s[..n];
    if k < n {
      SumUpdate(s[..n], k, x);
    }
  }

  /** The sum of squared deviations in terms of the plain sums. */
  lemma {:induction false} SqDevExpand(s: seq<real>, m: real)
    ensures SqDev(s, m) == SumSq(s) - 2.0 * m * Sum(s) + (|s| as real) * m * m
    decreases |s|
  {
    if |s| > 0 {
      var n := |s| - 1;
      SqDevExpand(s[..n], m);
      DeviationSquare(s[n], m, SqDev(s[..n], m), SumSq(s[..n]), Sum(s[..n]), n as real);
    }
  }

  lemma DeviationSquare(x: real, m: real, d: real, q: real, t: real, n: real)
    requires d == q - 2.0 * m * t + n * m * m
    ensures d + (x - m) * (x - m) == (q + x * x) - 2.0 * m * (t + x) + (n + 1.0) * m * m
  {
  }

  /**
   * The state of one channel: the circular buffer, the next slot
   * `ind_next`, the fill count `inds_used`, the estimated mean, the sum of
   * squared deviations `var_sum`, the estimated variance and the flag
   * `is_valid_output`. The window length `N` is the length of the buffer.
   */
  datatype Filter = Filter(buffer: seq<real>, indNext: nat, indsUsed: nat,
                           mean: real, varSum: real, variance: real, isValid: bool)

  /**
   * The index bookkeeping every state keeps: a non-empty buffer, at most
   * `N` slots in use, and while the buffer fills up the next slot is the
   * first unused one.
   */
  predicate Bookkept(f: Filter)
  {
    && 0 < |f.buffer|
    && f.indsUsed <= |f.buffer|
    && f.indNext <= |f.buffer|
    && (f.indsUsed < |f.buffer| ==> f.indNext == f.indsUsed)
  }

  /** A new filter of window length `n`: a zero buffer and zero statistics. */
  function Init(n: nat): (f: Filter)
    requires 0 < n
    ensures Bookkept(f)
  {
    Filter(seq(n, _ => 0.0), 0, 0, 0.0, 0.0, 0.0, false)
  }

  /** `reset`: the counters and statistics return to zero; the buffer and the flag stay. */
  function ResetState(f: Filter): (r: Filter)
    requires Bookkept(f)
    ensures Bookkept(r)
  {
    f.(indNext := 0, indsUsed := 0, mean := 0.0, varSum := 0.0, variance := 0.0)
  }

  /** The slot that a new sample is written to. */
  function WriteSlot(f: Filter): nat
    requires Bookkept(f)
  {
    if f.indsUsed < |f.buffer| then f.indNext else f.indNext % |f.buffer|
  }

  /** Welford's mean when the sample `x` joins `k` samples of mean `mean`. */
  function JoinMean(mean: real, k: nat, x: real): real
    requires 0 < k
  {
    (mean * (k as real) + x) / ((k as real) + 1.0)
  }

  /** Welford's `var_sum` when the sample `x` joins, the mean moving from `mean` to `meanNew`. */
  function JoinVarSum(varSum: real, mean: real, meanNew: real, x: real): real
  {
    varSum + (x - mean) * (x - meanNew)
  }

  /** The mean of `n` samples when `x` replaces `xOld`. */
  function SlideMean(mean: real, n: nat, x: real, xOld: real): real
    requires 0 < n
  {
    mean + (x - xOld) / (n as real)
  }

  /** `var_sum` when `x` replaces `xOld`, the mean moving from `mean` to `meanNew`. */
  function SlideVarSum(varSum: real, mean: real, meanNew: real, x: real, xOld: real): real
  {
    varSum + ((x - mean) * (x - meanNew) - (xOld - mean) * (xOld - meanNew))
  }

  /** One pass of the loop of `filter_samples`, for the sample `x`. */
  function Push(f: Filter, x: real): (r: Filter)
    requires Bookkept(f)
    ensures Bookkept(r) && |r.buffer| == |f.buffer|
  {
    var n := |f.buffer|;
    if f.indsUsed == 0 then
      f.(mean := x, buffer := f.buffer[f.indNext := x], indNext := f.indNext + 1, indsUsed := 1)
    else if f.indsUsed < n then
      var meanNew := JoinMean(f.mean, f.indsUsed, x);
      var varSum := JoinVarSum(f.varSum, f.mean, meanNew, x);
      f.(mean := meanNew, varSum := varSum, variance := varSum / (f.indsUsed as real),
         buffer := f.buffer[f.indNext := x], indNext := f.indNext + 1, indsUsed := f.indsUsed + 1)
    else
      var k := f.indNext % n;
      var meanNew := SlideMean(f.mean, n, x, f.buffer[k]);
      var varSum := SlideVarSum(f.varSum, f.mean, meanNew, x, f.buffer[k]);
      f.(isValid := true, mean := meanNew, varSum := varSum, variance := varSum / (n as real),
         buffer := f.buffer[k := x], indNext := k + 1)
  }

  /** The states after each prefix of the samples: `Run(f, xs)` is the state after all of `xs`. */
  function Run(f: Filter, xs: seq<real>): (r: Filter)
    requires Bookkept(f)
    ensures Bookkept(r) && |r.buffer| == |f.buffer|
    decreases |xs|
  {
    if |xs| == 0 then f else Push(Run(f, xs[..|xs| - 1]), xs[|xs| - 1])
  }

  /** `res_mean`: the estimated mean right after each sample. */
  function Means(f: Filter, xs: seq<real>): (r: seq<real>)
    requires Bookkept(f)
    ensures |r| == |xs|
    decreases |xs|
  {
    if |xs| == 0 then [] else Means(f, xs[..|xs| - 1]) + [Run(f, xs).mean]
  }

  /** `res_var`: the estimated variance right after each sample. */
  function Variances(f: Filter, xs: seq<real>): (r: seq<real>)
    requires Bookkept(f)
    ensures |r| == |xs|
    decreases |xs|
  {
    if |xs| == 0 then [] else Variances(f, xs[..|xs| - 1]) + [Run(f, xs).variance]
  }

  /** Extending a prefix of the samples by one is one more `Push`, mean and variance. */
  lemma RunPrefix(f: Filter, xs: seq<real>, i: nat)
    requires Bookkept(f) && i < |xs|
    ensures Run(f, xs[..i + 1]) == Push(Run(f, xs[..i]), xs[i])
    ensures Means(f, xs[..i + 1]) == Means(f, xs[..i]) + [Run(f, xs[..i + 1]).mean]
    ensures Variances(f, xs[..i + 1]) == Variances(f, xs[..i]) + [Run(f, xs[..i + 1]).variance]
  {
    assert xs[..i + 1][..i] == xs[..i];
  }

  // ---------------------------------------------------------------------
  // Index bookkeeping

  /**
   * Every write goes to a slot in `[0, N)` and leaves the other slots
   * alone; the fill count grows by one up to `N` and then stays at `N`.
   */
  lemma PushWrites(f: Filter, x: real)
    requires Bookkept(f)
    ensures var r := Push(f, x);
      && WriteSlot(f) < |f.buffer|
      && r.buffer[WriteSlot(f)] == x
      && (forall j | 0 <= j < |f.buffer| && j != WriteSlot(f) :: r.buffer[j] == f.buffer[j])
      && r.indsUsed == (if f.indsUsed < |f.buffer| then f.indsUsed + 1 else |f.buffer|)
  {
  }

  /** Once the buffer is full it stays full, whatever the samples. */
  lemma {:induction false} FullStaysFull(f: Filter, xs: seq<real>)
    requires Bookkept(f) && f.indsUsed == |f.buffer|
    ensures Run(f, xs).indsUsed == |f.buffer|
    decreases |xs|
  {
    if |xs| > 0 {
      FullStaysFull(f, xs[..|xs| - 1]);
    }
  }

  /** After `k` samples the fill count is `min(inds_used + k, N)`. */
  lemma {:induction false} RunCount(f: Filter, xs: seq<real>)
    requires Bookkept(f)
    ensures Run(f, xs).indsUsed == if f.indsUsed + |xs| < |f.buffer| then f.indsUsed + |xs| else |f.buffer|
    decreases |xs|
  {
    if |xs| > 0 {
      RunCount(f, xs[..|xs| - 1]);
    }
  }

  /**
   * The very first sample leaves the variance as it was; while filling the
   * variance is `var_sum` over the count before the sample; when full it is
   * `var_sum` over `N`. `is_valid_output` is set by the first sample taken
   * while the buffer is full and is never cleared.
   */
  lemma PushVariance(f: Filter, x: real)
    requires Bookkept(f)
    ensures var r := Push(f, x);
      && (f.indsUsed == 0 ==> r.variance == f.variance && r.varSum == f.varSum)
      && (0 < f.indsUsed < |f.buffer| ==> r.variance == r.varSum / (f.indsUsed as real))
      && (f.indsUsed == |f.buffer| ==> r.variance == r.varSum / (|f.buffer| as real))
      && r.isValid == (f.isValid || f.indsUsed == |f.buffer|)
  {
  }

  /** `reset` zeroes the counters and statistics and keeps the buffer and the flag. */
  lemma ResetKeeps(f: Filter)
    requires Bookkept(f)
    ensures var r := ResetState(f);
      && r.buffer == f.buffer && r.isValid == f.isValid
      && r.indNext == 0 && r.indsUsed == 0
      && r.mean == 0.0 && r.varSum == 0.0 && r.variance == 0.0
  {
  }

  /** No samples, no change. */
  lemma RunEmpty(f: Filter)
    requires Bookkept(f)
    ensures Run(f, []) == f && Means(f, []) == [] && Variances(f, []) == []
  {
  }

  // ---------------------------------------------------------------------
  // Welford's invariant: the statistics describe the samples held

  /** The samples currently held: the first `inds_used` slots (all `N` once full). */
  function Window(f: Filter): seq<real>
    requires Bookkept(f)
  {
    f.buffer[..f.indsUsed]
  }

  /**
   * The mean times the count is the sum of the samples held, and `var_sum`
   * plus the count times the squared mean is the sum of their squares;
   * `VarSumIsSqDev` shows that `var_sum` is then the sum of their squared
   * deviations from the mean.
   */
  predicate Welford(f: Filter)
  {
    && Bookkept(f)
    && (f.indsUsed == 0 ==> f.varSum == 0.0)
    && (f.indsUsed > 0 ==> Stats(Window(f), f.indsUsed, f.mean, f.varSum))
  }

  /** `m` and `v` are the mean and `var_sum` of the `n` samples `w`, stated through their sums. */
  predicate Stats(w: seq<real>, n: nat, m: real, v: real)
  {
    n == |w| && Moments(n as real, Sum(w), SumSq(w), m, v)
  }

  /**
   * `m` and `v` are the mean and `var_sum` of `n` samples whose sum is `t`
   * and whose sum of squares is `q`.
   */
  predicate Moments(n: real, t: real, q: real, m: real, v: real)
  {
    m * n == t && v + n * m * m == q
  }

  /** Under Welford's invariant the estimated mean is the arithmetic mean of the window ... */
  lemma MeanIsAverage(f: Filter)
    requires Welford(f) && f.indsUsed > 0
    ensures f.mean == Sum(Window(f)) / (f.indsUsed as real)
  {
  }

  /** ... and `var_sum` is the sum of the squared deviations of the window from that mean. */
  lemma VarSumIsSqDev(f: Filter)
    requires Welford(f) && f.indsUsed > 0
    ensures f.varSum == SqDev(Window(f), f.mean)
  {
    var w := Window(f);
    SqDevExpand(w, f.mean);
    Deviations(f.mean, |w| as real, Sum(w), SumSq(w), f.varSum, SqDev(w, f.mean));
  }

  lemma Deviations(m: real, n: real, t: real, q: real, v: real, d: real)
    requires Moments(n, t, q, m, v) && d == q - 2.0 * m * t + n * m * m
    ensures v == d
  {
  }

  lemma InitWelford(n: nat)
    requires 0 < n
    ensures Welford(Init(n))
  {
  }

  lemma ResetWelford(f: Filter)
    requires Bookkept(f)
    ensures Welford(ResetState(f))
  {
  }

  /** Every sample keeps Welford's invariant: the update formulas are exact. */
  lemma PushWelford(f: Filter, x: real)
    requires Welford(f)
    ensures Welford(Push(f, x))
  {
    if f.indsUsed == 0 {
      PushWelfordFirst(f, x);
    } else if f.indsUsed < |f.buffer| {
      PushWelfordFill(f, x);
    } else {
      PushWelfordSlide(f, x);
    }
  }

  lemma PushWelfordFirst(f: Filter, x: real)
    requires Welford(f) && f.indsUsed == 0
    ensures Welford(Push(f, x))
  {
    var r := Push(f, x);
    assert Window(r) == [x];
    SumAppend([], x);
    assert [] + [x] == [x];
  }

  lemma PushWelfordFill(f: Filter, x: real)
    requires Welford(f) && 0 < f.indsUsed < |f.buffer|
    ensures Welford(Push(f, x))
  {
    FillWindow(f, x);
    FillKeeps(f, x, Push(f, x));
  }

  /** `r` is `f` after the sample `x` joined a window that is not yet full. */
  predicate Filled(f: Filter, x: real, r: Filter)
    requires Bookkept(f) && Bookkept(r) && 0 < f.indsUsed
  {
    && Window(r) == Window(f) + [x]
    && r.indsUsed == f.indsUsed + 1
    && r.mean == JoinMean(f.mean, f.indsUsed, x)
    && r.varSum == JoinVarSum(f.varSum, f.mean, r.mean, x)
  }

  lemma FillWindow(f: Filter, x: real)
    requires Bookkept(f) && 0 < f.indsUsed < |f.buffer|
    ensures Filled(f, x, Push(f, x))
  {
    assert Window(Push(f, x)) == Window(f) + [x];
  }

  lemma PushWelfordSlide(f: Filter, x: real)
    requires Welford(f) && f.indsUsed == |f.buffer|
    ensures Welford(Push(f, x))
  {
    SlideWindow(f, x);
    SlideKeeps(f, x, Push(f, x));
  }

  /**
   * `r` is `f` after the sample `x` replaced the oldest of a full window,
   * stated in the window's own terms.
   */
  predicate Slid(f: Filter, x: real, r: Filter)
    requires Bookkept(f) && Bookkept(r) && 0 < f.indsUsed
  {
    var w, k := Window(f), f.indNext % f.indsUsed;
    && r.indsUsed == f.indsUsed
    && Window(r) == w[k := x]
    && r.mean == SlideMean(f.mean, f.indsUsed, x, w[k])
    && r.varSum == SlideVarSum(f.varSum, f.mean, r.mean, x, w[k])
  }

  lemma SlideWindow(f: Filter, x: real)
    requires Bookkept(f) && 0 < f.indsUsed == |f.buffer|
    ensures Slid(f, x, Push(f, x))
  {
    assert Window(f) == f.buffer;
  }

  /** The state `r` that the filling branch produces from `f` keeps Welford's invariant. */
  lemma FillKeeps(f: Filter, x: real, r: Filter)
    requires Welford(f) && 0 < f.indsUsed
    requires Bookkept(r) && Filled(f, x, r)
    ensures Welford(r)
  {
    FillStats(Window(f), f.indsUsed, x, f.mean, f.varSum, Window(r), r.indsUsed, r.mean, r.varSum);
  }

  /** The state `r` that the sliding branch produces from `f` keeps Welford's invariant. */
  lemma SlideKeeps(f: Filter, x: real, r: Filter)
    requires Welford(f) && 0 < f.indsUsed
    requires Bookkept(r) && Slid(f, x, r)
    ensures Welford(r)
  {
    var w, k := Window(f), f.indNext % f.indsUsed;
    SlideWindowStats(w, f.indsUsed, k, x, f.mean, f.varSum, Window(r), r.mean, r.varSum);
  }

  /**
   * Welford's update while filling: the `n` samples `w`, with mean `m` and
   * `var_sum` `v`, gain the sample `x` and become the `n1` samples `w1`,
   * with mean `m1` and `var_sum` `v1`.
   */
  lemma FillStats(w: seq<real>, n: nat, x: real, m: real, v: real, w1: seq<real>, n1: nat, m1: real, v1: real)
    requires 0 < n && Stats(w, n, m, v)
    requires w1 == w + [x] && n1 == n + 1
    requires m1 == JoinMean(m, n, x) && v1 == JoinVarSum(v, m, m1, x)
    ensures Stats(w1, n1, m1, v1)
  {
    var t, q, t1, q1 := Sum(w), SumSq(w), Sum(w1), SumSq(w1);
    FillSums(w, x, w1);
    FillStep(m, n, x, t, q, v, m1, v1, n1, t1, q1);
  }

  /**
   * Welford's update when full: the sample `x` replaces slot `k` of the
   * `n` samples `w`, giving `w1`.
   */
  lemma SlideWindowStats(w: seq<real>, n: nat, k: nat, x: real, m: real, v: real, w1: seq<real>, m1: real, v1: real)
    requires k < n && Stats(w, n, m, v)
    requires w1 == w[k := x] && m1 == SlideMean(m, n, x, w[k])
    requires v1 == SlideVarSum(v, m, m1, x, w[k])
    ensures Stats(w1, n, m1, v1)
  {
    var xOld := w[k];
    SlideSums(w, k, x, xOld);
    SlideStats(w, n, xOld, x, m, v, w1, m1, v1);
  }

  /**
   * The same on the sums: the sample `x` replaces `xOld` among the
   * `n` samples `w`, giving `w1`.
   */
  lemma SlideStats(w: seq<real>, n: nat, xOld: real, x: real, m: real, v: real, w1: seq<real>, m1: real, v1: real)
    requires 0 < n && Stats(w, n, m, v) && |w1| == n
    requires Sum(w1) == Sum(w) - xOld + x && SumSq(w1) == SumSq(w) - xOld * xOld + x * x
    requires m1 == SlideMean(m, n, x, xOld) && v1 == SlideVarSum(v, m, m1, x, xOld)
    ensures Stats(w1, n, m1, v1)
  {
    var t, q, t1, q1 := Sum(w), SumSq(w), Sum(w1), SumSq(w1);
    SlideStep(m, n, x, xOld, t, q, v, m1, v1, t1, q1);
  }

  lemma FillSums(w: seq<real>, x: real, w1: seq<real>)
    requires w1 == w + [x]
    ensures Sum(w1) == Sum(w) + x && SumSq(w1) == SumSq(w) + x * x
  {
    SumAppend(w, x);
  }

  lemma SlideSums(w: seq<real>, k: nat, x: real, xOld: real)
    requires k < |w| && xOld == w[k]
    ensures Sum(w[k := x]) == Sum(w) - xOld + x && SumSq(w[k := x]) == SumSq(w) - xOld * xOld + x * x
  {
    SumUpdate(w, k, x);
    Square(xOld, w[k]);
  }

  lemma Square(a: real, b: real)
    requires a == b
    ensures a * a == b * b
  {
  }

  /**
   * Welford's update while filling, on the plain sums: `t` and `q` are the
   * sum and the sum of squares of the `k` samples held, `m` and `v` the mean
   * and `var_sum` before the sample `x`; `m1` and `v1` are the mean and
   * `var_sum` after it, and `t1` and `q1` the new sums.
   */
  lemma FillStep(m: real, k: nat, x: real, t: real, q: real, v: real, m1: real, v1: real,
                 k1: nat, t1: real, q1: real)
    requires 0 < k && Moments(k as real, t, q, m, v)
    requires m1 == JoinMean(m, k, x) && v1 == JoinVarSum(v, m, m1, x)
    requires k1 == k + 1 && t1 == t + x && q1 == q + x * x
    ensures Moments(k1 as real, t1, q1, m1, v1)
  {
    var u, u1 := k as real, k1 as real;
    assert m1 * u1 == t1;
    assert u1 * m1 * m1 == (m * u + x) * m1;
  }

  /** Welford's update when full, with `xOld` leaving the `n` samples held and `x` entering. */
  lemma SlideStep(m: real, n: nat, x: real, xOld: real, t: real, q: real, v: real, m1: real, v1: real,
                  t1: real, q1: real)
    requires 0 < n && Moments(n as real, t, q, m, v)
    requires m1 == SlideMean(m, n, x, xOld) && v1 == SlideVarSum(v, m, m1, x, xOld)
    requires t1 == t - xOld + x && q1 == q - xOld * xOld + x * x
    ensures Moments(n as real, t1, q1, m1, v1)
  {
    var u := n as real;
    var d := (x - xOld) / u;
    assert d * u == x - xOld;
    assert u * m1 * m1 - u * m * m == (x - xOld) * (m1 + m);
  }

  lemma {:induction false} RunWelford(f: Filter, xs: seq<real>)
    requires Welford(f)
    ensures Welford(Run(f, xs))
    decreases |xs|
  {
    if |xs| > 0 {
      RunWelford(f, xs[..|xs| - 1]);
      PushWelford(Run(f, xs[..|xs| - 1]), xs[|xs| - 1]);
    }
  }

  /** Splitting the samples splits their sums. */
  lemma {:induction false} SumConcat(a: seq<real>, b: seq<real>)
    ensures Sum(a + b) == Sum(a) + Sum(b)
    decreases |b|
  {
    if |b| > 0 {
      SumConcat(a, b[..|b| - 1]);
      LastOfConcat(a, b);
    } else {
      assert a + b == a;
    }
  }

  lemma {:induction false} SqDevConcat(a: seq<real>, b: seq<real>, m: real)
    ensures SqDev(a + b, m) == SqDev(a, m) + SqDev(b, m)
    decreases |b|
  {
    if |b| > 0 {
      SqDevConcat(a, b[..|b| - 1], m);
      LastOfConcat(a, b);
    } else {
      assert a + b == a;
    }
  }

  lemma LastOfConcat(a: seq<real>, b: seq<real>)
    requires 0 < |b|
    ensures (a + b)[..|a + b| - 1] == a + b[..|b| - 1]
    ensures (a + b)[|a + b| - 1] == b[|b| - 1]
  {
  }

  /** Reading the buffer from another slot does not change its sums. */
  lemma RotationSums(f: Filter, m: real)
    requires Bookkept(f)
    ensures Sum(Rotation(f)) == Sum(f.buffer) && SqDev(Rotation(f), m) == SqDev(f.buffer, m)
  {
    var b, s := f.buffer, f.indNext % |f.buffer|;
    SumConcat(b[s..], b[..s]);
    SumConcat(b[..s], b[s..]);
    SqDevConcat(b[s..], b[..s], m);
    SqDevConcat(b[..s], b[s..], m);
    assert b[..s] + b[s..] == b;
  }

  /**
   * The filter's promise: from a fresh or reset state, after the samples
   * `xs` the estimated mean is the average of the last `min(|xs|, N)`
   * samples and `var_sum` is the sum of their squared deviations from it.
   */
  lemma SlidingStatistics(f: Filter, xs: seq<real>)
    requires Bookkept(f) && f.indsUsed == 0 && f.varSum == 0.0 && 0 < |xs|
    ensures var r := Run(f, xs);
      var k := if |xs| < |f.buffer| then |xs| else |f.buffer|;
      var w := xs[|xs| - k..];
      && r.mean == Sum(w) / (k as real)
      && r.varSum == SqDev(w, r.mean)
  {
    var r := Run(f, xs);
    RunWelford(f, xs);
    LastSamples(f, xs, r.mean);
    MeanIsAverage(r);
    VarSumIsSqDev(r);
  }

  /**
   * From a fresh or reset state, the window after the samples `xs` holds
   * the last `min(|xs|, N)` of them: in arrival order while the buffer is
   * filling, and oldest first when read circularly from `ind_next` once it
   * is full; either way with the same sums.
   */
  lemma LastSamples(f: Filter, xs: seq<real>, m: real)
    requires Bookkept(f) && f.indsUsed == 0 && 0 < |xs|
    ensures var r := Run(f, xs);
      var k := if |xs| < |f.buffer| then |xs| else |f.buffer|;
      var w := xs[|xs| - k..];
      && r.indsUsed == k
      && Bookkept(r)
      && (r.indsUsed < |r.buffer| ==> Window(r) == w)
      && (r.indsUsed == |r.buffer| ==> Rotation(r) == w)
      && Sum(Window(r)) == Sum(w)
      && SqDev(Window(r), m) == SqDev(w, m)
  {
    var r := Run(f, xs);
    var k := if |xs| < |f.buffer| then |xs| else |f.buffer|;
    var w := xs[|xs| - k..];
    RunRing(f, [], xs);
    RunCount(f, xs);
    assert [] + xs == xs;
    if r.indsUsed < |r.buffer| {
      assert Window(r) == w;
    } else {
      assert Window(r) == r.buffer;
      RotationSums(r, m);
    }
  }

  // ---------------------------------------------------------------------
  // The circular order of the buffer

  /** The buffer read circularly from the slot the next sample goes to. */
  function Rotation(f: Filter): seq<real>
    requires Bookkept(f)
  {
    var s := f.indNext % |f.buffer|;
    f.buffer[s..] + f.buffer[..s]
  }

  /**
   * `h` is the sequence of samples since the last reset. While filling,
   * the buffer starts with exactly those samples; once full, reading the
   * buffer circularly from `ind_next` gives the last `N` samples, oldest
   * first.
   */
  predicate Ring(f: Filter, h: seq<real>)
  {
    && Bookkept(f)
    && (f.indsUsed < |f.buffer| ==> f.buffer[..f.indsUsed] == h)
    && (f.indsUsed == |f.buffer| ==> |h| >= |f.buffer| && Rotation(f) == h[|h| - |f.buffer|..])
  }

  lemma InitRing(n: nat)
    requires 0 < n
    ensures Ring(Init(n), [])
  {
  }

  lemma ResetRing(f: Filter)
    requires Bookkept(f)
    ensures Ring(ResetState(f), [])
  {
  }

  /** Once full, the slot the next sample overwrites holds the oldest sample of the window. */
  lemma OldestOverwritten(f: Filter, h: seq<real>)
    requires Ring(f, h) && f.indsUsed == |f.buffer|
    ensures WriteSlot(f) == f.indNext % |f.buffer|
    ensures f.buffer[WriteSlot(f)] == h[|h| - |f.buffer|]
  {
    assert Rotation(f)[0] == f.buffer[WriteSlot(f)];
  }

  lemma PushRing(f: Filter, h: seq<real>, x: real)
    requires Ring(f, h)
    ensures Ring(Push(f, x), h + [x])
  {
    PushAdvances(f, x);
    AdvanceRing(f, h, x, Push(f, x));
  }

  /** `r` is `f` with the sample `x` written and the indices moved on, whatever the statistics. */
  predicate Advanced(f: Filter, x: real, r: Filter)
    requires Bookkept(f)
  {
    && Bookkept(r)
    && r.buffer == f.buffer[WriteSlot(f) := x]
    && r.indNext == WriteSlot(f) + 1
    && r.indsUsed == (if f.indsUsed < |f.buffer| then f.indsUsed + 1 else |f.buffer|)
  }

  lemma PushAdvances(f: Filter, x: real)
    requires Bookkept(f)
    ensures Advanced(f, x, Push(f, x))
  {
  }

  lemma AdvanceRing(f: Filter, h: seq<real>, x: real, r: Filter)
    requires Ring(f, h) && Advanced(f, x, r)
    ensures Ring(r, h + [x])
  {
    if f.indsUsed < |f.buffer| {
      FillRing(f, h, x, r);
    } else {
      SlideRing(f, h, x, r);
    }
  }

  lemma FillRing(f: Filter, h: seq<real>, x: real, r: Filter)
    requires Ring(f, h) && Advanced(f, x, r) && f.indsUsed < |f.buffer|
    ensures Ring(r, h + [x])
  {
    var n := |f.buffer|;
    assert r.buffer[..r.indsUsed] == h + [x];
    if r.indsUsed == n {
      ModSmall(r.indNext, n);
      assert Rotation(r) == r.buffer;
    }
  }

  lemma SlideRing(f: Filter, h: seq<real>, x: real, r: Filter)
    requires Ring(f, h) && Advanced(f, x, r) && f.indsUsed == |f.buffer|
    ensures Ring(r, h + [x])
  {
    var n, k := |f.buffer|, f.indNext % |f.buffer|;
    assert WriteSlot(f) == k && |r.buffer| == n;
    ModSmall(k + 1, n);
    assert Rotation(r) == (f.buffer[k..] + f.buffer[..k])[1..] + [x] by {
      RotateAfterWrite(f.buffer, k, x);
    }
    DropOldest(h, x, n);
  }

  /** Writing `x` over slot `k` and reading on from `k + 1` drops the oldest sample and appends `x`. */
  lemma RotateAfterWrite(b: seq<real>, k: nat, x: real)
    requires k < |b|
    ensures var b1, s := b[k := x], if k + 1 == |b| then 0 else k + 1;
      b1[s..] + b1[..s] == (b[k..] + b[..k])[1..] + [x]
  {
    var b1 := b[k := x];
    assert b1 == b[..k] + [x] + b[k + 1..];
    if k + 1 < |b| {
      assert b1[k + 1..] + b1[..k + 1] == b[k + 1..] + b[..k] + [x];
      assert b[k + 1..] + b[..k] == (b[k..] + b[..k])[1..];
    } else {
      assert b1[0..] + b1[..0] == b[..k] + [x];
      assert b[..k] == (b[k..] + b[..k])[1..];
    }
  }

  /** The last `n` samples after `x` are the last `n` before it, less the oldest, then `x`. */
  lemma DropOldest(h: seq<real>, x: real, n: nat)
    requires 0 < n <= |h|
    ensures (h + [x])[|h| + 1 - n..] == h[|h| - n..][1..] + [x]
  {
  }

  lemma ModSmall(i: nat, n: nat)
    requires 0 < n && i <= n
    ensures i % n == if i == n then 0 else i
  {
  }

  lemma {:induction false} RunRing(f: Filter, h: seq<real>, xs: seq<real>)
    requires Ring(f, h)
    ensures Ring(Run(f, xs), h + xs)
    decreases |xs|
  {
    if |xs| > 0 {
      var p := xs[..|xs| - 1];
      RunRing(f, h, p);
      PushRing(Run(f, p), h + p, xs[|xs| - 1]);
      AppendLast(h, xs);
    }
  }

  lemma AppendLast(h: seq<real>, xs: seq<real>)
    requires 0 < |xs|
    ensures h + xs[..|xs| - 1] + [xs[|xs| - 1]] == h + xs
  {
    assert xs[..|xs| - 1] + [xs[|xs| - 1]] == xs;
  }

  // ---------------------------------------------------------------------
  // The types of the statistics after `reset`

  /**
   * The Python type of each statistic besides its value: `__init__` makes
   * all three numpy arrays, and `reset` makes them plain floats.
   */
  datatype Typed = Typed(state: Filter, meanIsArray: bool, varSumIsArray: bool, varianceIsArray: bool)

  /**
   * The exception a pass can raise. The object's fields have already been
   * updated when it is raised, so it carries the state left behind.
   */
  datatype PyError = AttributeError(after: Typed)

  /** `reset` as written: the counters return to zero and the statistics become Python floats. */
  function ResetAsWritten(t: Typed): (r: Typed)
    requires Bookkept(t.state)
    ensures Bookkept(r.state) && r.state == ResetState(t.state)
  {
    Typed(ResetState(t.state), false, false, false)
  }

  /**
   * One pass of the loop with its types: the first sample makes the mean
   * the sample array and leaves the other two as they were; any later
   * sample mixes them with the sample array, which makes them arrays.
   */
  function PushTyped(t: Typed, x: real): (r: Typed)
    requires Bookkept(t.state)
    ensures Bookkept(r.state) && r.state == Push(t.state, x) && r.meanIsArray
  {
    var later := t.state.indsUsed > 0;
    Typed(Push(t.state, x), true, t.varSumIsArray || later, t.varianceIsArray || later)
  }

  /**
   * One pass of the loop followed by the copies into `res_mean` and
   * `res_var`: `.copy()` exists on numpy arrays only, so a float statistic
   * raises `AttributeError` after the pass has updated the object.
   */
  function EmitTyped(t: Typed, x: real): (r: Result<Typed, PyError>)
    requires Bookkept(t.state)
    ensures r.Success? <==> PushTyped(t, x).varianceIsArray
    ensures (if r.Success? then r.value else r.error.after) == PushTyped(t, x)
  {
    var p := PushTyped(t, x);
    if p.meanIsArray && p.varianceIsArray then Success(p) else Failure(AttributeError(p))
  }

  /**
   * As written, the first sample after `reset` raises `AttributeError`,
   * whatever it is, with the sample already taken into the buffer and the
   * mean, and the rest of that call's samples skipped. The failure happens
   * once: the first sample of the next call makes the statistics arrays
   * again and is copied out.
   */
  lemma ResetThenSampleFails(t: Typed, x: real, y: real)
    requires Bookkept(t.state)
    ensures var e := EmitTyped(ResetAsWritten(t), x);
      && e.Failure?
      && e.error.after.state == Push(ResetState(t.state), x)
      && e.error.after.state.indsUsed == 1
      && EmitTyped(e.error.after, y).Success?
  {
  }

  /** The corrected `reset` (the `Reset` the class uses): the values return to zero, the types stay. */
  function ResetTyped(t: Typed): (r: Typed)
    requires Bookkept(t.state)
    ensures Bookkept(r.state) && r.state == ResetState(t.state)
    ensures (r.meanIsArray, r.varSumIsArray, r.varianceIsArray) == (t.meanIsArray, t.varSumIsArray, t.varianceIsArray)
  {
    t.(state := ResetState(t.state))
  }

  predicate AllArrays(t: Typed)
  {
    t.meanIsArray && t.varSumIsArray && t.varianceIsArray
  }

  /**
   * With the corrected `reset`, the statistics stay arrays from `__init__`
   * on, so every sample, including the first after a reset, is copied out.
   */
  lemma ArraysThroughout(t: Typed, x: real)
    requires Bookkept(t.state) && AllArrays(t)
    ensures AllArrays(ResetTyped(t))
    ensures EmitTyped(t, x).Success? && AllArrays(EmitTyped(t, x).value)
    ensures EmitTyped(ResetTyped(t), x).Success?
  {
  }

  // ---------------------------------------------------------------------
  // The filter object

  /**
   * `MeanAndSpreadFilter` for one channel. The window length `N` is the
   * length of `circularBuffer`, which the object allocates once and then
   * updates in place.
   */
  class MeanAndSpreadFilter {
    const N: nat
    const windowLengthInSeconds: real
    const circularBuffer: array<real>
    var indNext: nat
    var indsUsed: nat
    var estimatedMean: real
    var varSum: real
    var estimatedVariance: real
    var isValidOutput: bool
    var ready: bool

    /** The object's state as a value. */
    function State(): Filter
      reads this, circularBuffer
    {
      Filter(circularBuffer[..], indNext, indsUsed, estimatedMean, varSum, estimatedVariance, isValidOutput)
    }

    predicate Valid()
      reads this, circularBuffer
    {
      N == circularBuffer.Length && Bookkept(State())
    }

    /**
     * `__init__`: a window of `int(fs * window_length_in_seconds)` samples
     * (defaults 100 and 1), a zero buffer and zero statistics.
     */
    constructor(fs: Option<real>, windowLengthInSeconds: Option<real>)
      requires 1.0 <= fs.UnwrapOr(100.0) * windowLengthInSeconds.UnwrapOr(1.0)
      ensures Valid() && ready && fresh(circularBuffer)
      ensures this.windowLengthInSeconds == windowLengthInSeconds.UnwrapOr(1.0)
      ensures N == (fs.UnwrapOr(100.0) * this.windowLengthInSeconds).Floor
      ensures 0 < N && State() == Init(N)
    {
      var seconds := windowLengthInSeconds.UnwrapOr(1.0);
      var n := (fs.UnwrapOr(100.0) * seconds).Floor;
      N := n;
      this.windowLengthInSeconds := seconds;
      circularBuffer := new real[n](_ => 0.0);
      indNext, indsUsed := 0, 0;
      estimatedMean, varSum, estimatedVariance := 0.0, 0.0, 0.0;
      isValidOutput, ready := false, true;
      new;
      assert circularBuffer[..] == seq(n, _ => 0.0);
    }

    /** `reset`, with the statistics kept as arrays (see `ResetThenSampleFails`). */
    method Reset()
      requires Valid()
      modifies this
      ensures Valid() && ready == old(ready)
      ensures State() == ResetState(old(State()))
    {
      indNext, indsUsed := 0, 0;
      estimatedMean, varSum, estimatedVariance := 0.0, 0.0, 0.0;
    }

    /** One pass of the loop of `filter_samples`: the sample `x` enters the window. */
    method Step(x: real)
      requires Valid()
      modifies this, circularBuffer
      ensures Valid() && ready == old(ready)
      ensures State() == Push(old(State()), x)
    {
      var n := N;
      if indsUsed == 0 {
        estimatedMean := x;
        circularBuffer[indNext] := x;
        indNext := indNext + 1;
        indsUsed := indsUsed + 1;
      } else if indsUsed < n {
        var meanNew := JoinMean(estimatedMean, indsUsed, x);
        varSum := JoinVarSum(varSum, estimatedMean, meanNew, x);
        estimatedMean := meanNew;
        estimatedVariance := varSum / (indsUsed as real);
        circularBuffer[indNext] := x;
        indNext := indNext + 1;
        indsUsed := indsUsed + 1;
      } else {
        isValidOutput := true;
        indNext := indNext % n;
        var xOld := circularBuffer[indNext];
        var meanNew := SlideMean(estimatedMean, n, x, xOld);
        varSum := SlideVarSum(varSum, estimatedMean, meanNew, x, xOld);
        estimatedMean := meanNew;
        estimatedVariance := varSum / (n as real);
        circularBuffer[indNext] := x;
        indNext := indNext + 1;
      }
    }

    /**
     * `filter_samples`: feeds the samples in order and returns the mean
     * and the variance after each one; with no samples, or when `ready` is
     * off, nothing changes and both results are zero.
     */
    method FilterSamples(sIn: seq<real>) returns (resMean: array<real>, resVar: array<real>)
      requires Valid()
      modifies this, circularBuffer
      ensures Valid() && ready == old(ready) && fresh(resMean) && fresh(resVar)
      ensures 0 < |sIn| && ready ==>
        && State() == Run(old(State()), sIn)
        && resMean[..] == Means(old(State()), sIn)
        && resVar[..] == Variances(old(State()), sIn)
      ensures !(0 < |sIn| && ready) ==>
        && State() == old(State())
        && resMean[..] == seq(|sIn|, _ => 0.0)
        && resVar[..] == seq(|sIn|, _ => 0.0)
    {
      resMean := new real[|sIn|](_ => 0.0);
      resVar := new real[|sIn|](_ => 0.0);
      if 0 < |sIn| && ready {
        Record(sIn, resMean, resVar);
      } else {
        assert resMean[..] == seq(|sIn|, _ => 0.0);
        assert resVar[..] == seq(|sIn|, _ => 0.0);
      }
    }

    /** Stores `v` at position `i` of `a`, extending the written prefix. */
    static method Put(a: array<real>, i: nat, v: real)
      requires i < a.Length
      modifies a
      ensures a[..i + 1] == old(a[..i]) + [v]
    {
      a[i] := v;
      assert a[..i + 1] == a[..i] + [v];
    }

    /** The loop of `filter_samples`, writing the mean and variance after each sample. */
    method Record(sIn: seq<real>, resMean: array<real>, resVar: array<real>)
      requires Valid() && resMean.Length == |sIn| && resVar.Length == |sIn|
      requires resMean != circularBuffer && resVar != circularBuffer && resMean != resVar
      modifies this, circularBuffer, resMean, resVar
      ensures Valid() && ready == old(ready)
      ensures State() == Run(old(State()), sIn)
      ensures resMean[..] == Means(old(State()), sIn)
      ensures resVar[..] == Variances(old(State()), sIn)
    {
      ghost var f0 := State();
      for i := 0 to |sIn|
        invariant Valid() && ready == old(ready)
        invariant State() == Run(f0, sIn[..i])
        invariant resMean[..i] == Means(f0, sIn[..i])
        invariant resVar[..i] == Variances(f0, sIn[..i])
      {
        RunPrefix(f0, sIn, i);
        Step(sIn[i]);
        Put(resMean, i, estimatedMean);
        Put(resVar, i, estimatedVariance);
      }
      assert sIn[..|sIn|] == sIn;
    }
  }
}
