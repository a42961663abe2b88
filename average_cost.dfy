/**
 * The rounding rule of `getAverageCost` in models/Course.js: the mean tuition
 * of a bootcamp's courses, rounded up to a multiple of 10, computed exactly on
 * integers: ceil(mean / 10) * 10 == ceil(sum / (10 * n)) * 10.
 */
module AverageCost {

  /** The total of a sequence of tuitions. */
  function Sum(ts: seq<int>): (s: int)
    ensures (forall k :: 0 <= k < |ts| ==> ts[k] >= 0) ==> s >= 0
    ensures |ts| == 1 ==> s == ts[0]
  {
    if ts == [] then 0
    else
      var init := ts[..|ts| - 1];
      assert forall k :: 0 <= k < |init| ==> init[k] == ts[k];
      Sum(init) + ts[|ts| - 1]
  }

  /** Integer ceiling of a / b for a positive divisor (Dafny's `/` is the floor here). */
  function CeilDiv(a: int, b: int): (q: int)
    requires b > 0
    ensures (q - 1) * b < a <= q * b
  {
    var f := (-a) / b;
    var m := (-a) % b;
    assert -a == f * b + m && 0 <= m < b;
    assert (-f) * b == a + m;
    -f
  }

  /**
   * `v` is the mean of `ts` rounded up to a multiple of 10: a multiple of 10
   * with mean <= v < mean + 10, stated without division as
   * sum <= v * n < sum + 10 * n.
   */
  function IsRoundedMean(v: int, ts: seq<int>): (ok: bool)
    // the next lower multiple of 10 is already below the mean
    ensures ok ==> (v - 10) * |ts| < Sum(ts) <= v * |ts|
  {
    |ts| > 0 && v % 10 == 0 && Sum(ts) <= v * |ts| < Sum(ts) + 10 * |ts|
  }

  /** `Math.ceil(avg / 10) * 10` over the tuitions `ts` (line 53). */
  function RoundedAverage(ts: seq<int>): (v: int)
    requires |ts| > 0
    ensures IsRoundedMean(v, ts)
  {
    var n := |ts|;
    var q := CeilDiv(Sum(ts), 10 * n);
    assert (q - 1) * (10 * n) == (q * 10 - 10) * n;
    assert q * (10 * n) == (q * 10) * n;
    q * 10
  }

  /** The same bounds phrased with the real-valued mean tuition. */
  lemma RoundedAverageBracketsMean(ts: seq<int>)
    requires |ts| > 0
    ensures var mean := Sum(ts) as real / |ts| as real;
            var v := RoundedAverage(ts) as real;
            mean <= v < mean + 10.0
  {
    MeanBracket(Sum(ts), |ts|, RoundedAverage(ts));
  }

  /** Dividing `s <= v * n < s + 10 * n` by the positive count `n`. */
  lemma MeanBracket(s: int, n: int, v: int)
    requires n > 0 && s <= v * n < s + 10 * n
    ensures s as real / n as real <= v as real < s as real / n as real + 10.0
  {
    var nr := n as real;
    var sr := s as real;
    assert (v * n) as real == v as real * nr;
    assert sr / nr * nr == sr;
    RealCancel(sr / nr, v as real, nr);
    assert (sr / nr + 10.0) * nr == sr + 10.0 * nr;
    RealCancel(v as real, sr / nr + 10.0, nr);
  }

  /** No multiple of 10 that is at least the mean is smaller than the written value. */
  lemma RoundedAverageIsLeast(ts: seq<int>, m: int)
    requires |ts| > 0 && m % 10 == 0 && Sum(ts) <= m * |ts|
    ensures RoundedAverage(ts) <= m
  {
    var v := RoundedAverage(ts);
    var n := |ts|;
    assert (v - 10) * n == v * n - 10 * n;
    IntCancel(v - 10, m, n);
    TensGap(v, m);
  }

  /** The rounded mean is unique, so RoundedAverage is the only value meeting the rule. */
  lemma RoundedMeanIsUnique(ts: seq<int>, v: int, w: int)
    requires IsRoundedMean(v, ts) && IsRoundedMean(w, ts)
    ensures v == w
  {
    var n := |ts|;
    assert (v - 10) * n == v * n - 10 * n;
    assert (w - 10) * n == w * n - 10 * n;
    IntCancel(v - 10, w, n);
    IntCancel(w - 10, v, n);
    TensGap(v, w);
    TensGap(w, v);
  }

  /** Strict inequality survives dividing both sides by a positive count. */
  lemma IntCancel(a: int, b: int, n: int)
    requires n > 0 && a * n < b * n
    ensures a < b
  {
  }

  lemma RealCancel(a: real, b: real, n: real)
    requires n > 0.0
    ensures a * n <= b * n ==> a <= b
    ensures a * n < b * n ==> a < b
  {
  }

  /** Two multiples of 10 less than 10 apart are ordered. */
  lemma TensGap(v: int, m: int)
    requires v % 10 == 0 && m % 10 == 0 && v - 10 < m
    ensures v <= m
  {
  }

  /** Three courses costing 100, 200 and 300 give an average cost of 200. */
  lemma ThreeCoursesExample()
    ensures RoundedAverage([100, 200, 300]) == 200
  {
    assert Sum([100, 200, 300]) == 600 by {
      assert [100, 200, 300][..2] == [100, 200];
      assert [100, 200][..1] == [100];
      assert [100][..0] == [];
    }
    assert IsRoundedMean(200, [100, 200, 300]);
    RoundedMeanIsUnique([100, 200, 300], RoundedAverage([100, 200, 300]), 200);
  }

  /** A mean just above a multiple of 10 is rounded up to the next one, not to the nearest. */
  lemma RoundsUpNotToNearest()
    ensures RoundedAverage([101]) == 110
  {
    assert Sum([101]) == 101 by { assert [101][..0] == []; }
    assert IsRoundedMean(110, [101]);
    RoundedMeanIsUnique([101], RoundedAverage([101]), 110);
  }

  /** A mean that is already a multiple of 10 is written unchanged. */
  lemma ExactMeanIsKept(ts: seq<int>, m: int)
    requires |ts| > 0 && m % 10 == 0 && Sum(ts) == m * |ts|
    ensures RoundedAverage(ts) == m
  {
    assert IsRoundedMean(m, ts);
    RoundedMeanIsUnique(ts, RoundedAverage(ts), m);
  }
}
