/** Exact-real statistics used by both pipelines: sums and means, the sign of a
    least-squares slope, and the mean of consecutive differences. */
module Stats {

  /** The direction label both front ends attach to a score history. */
  datatype Trend = Improving | Declining

  function Sum(xs: seq<real>): real
  {
    if xs == [] then 0.0 else Sum(xs[..|xs| - 1]) + xs[|xs| - 1]
  }

  function Mean(xs: seq<real>): real
    requires xs != []
  {
    Sum(xs) / |xs| as real
  }

  /** A mean of values that all lie in [lo, hi] lies in [lo, hi]. */
  lemma {:induction false} MeanWithin(xs: seq<real>, lo: real, hi: real)
    requires xs != []
    requires forall i :: 0 <= i < |xs| ==> lo <= xs[i] <= hi
    ensures lo <= Mean(xs) <= hi
  {
    SumWithin(xs, lo, hi);
    DivideBounds(Sum(xs), |xs| as real, lo, hi);
  }

  lemma DivideBounds(total: real, n: real, lo: real, hi: real)
    requires n > 0.0 && lo * n <= total <= hi * n
    ensures lo <= total / n <= hi
  {
  }

  /** A percentage of c out of n lies in [0, 100], and hits 100 or 0 exactly at
      c == n or c == 0. */
  lemma ScaledRatio(c: real, n: real)
    requires 0.0 <= c <= n && n > 0.0
    ensures 0.0 <= 100.0 * (c / n) <= 100.0
    ensures 100.0 * (c / n) == 100.0 <==> c == n
    ensures 100.0 * (c / n) == 0.0 <==> c == 0.0
  {
    assert c / n <= 1.0;
    assert c / n == 1.0 ==> c == n;
  }

  lemma Distribute(c: real, m: real)
    ensures c * (m + 1.0) == c * m + c
  {
  }

  lemma {:induction false} SumWithin(xs: seq<real>, lo: real, hi: real)
    requires forall i :: 0 <= i < |xs| ==> lo <= xs[i] <= hi
    ensures lo * |xs| as real <= Sum(xs) <= hi * |xs| as real
  {
    if xs != [] {
      SumWithin(xs[..|xs| - 1], lo, hi);
      Distribute(lo, (|xs| - 1) as real);
      Distribute(hi, (|xs| - 1) as real);
    }
  }

  // ---------------------------------------------------------------------------
  // Least-squares slope of ys against xs.
  //
  // The coefficient of the least-squares line is
  //   Sum_i (x_i - mean x) * (y_i - mean y) / Sum_i (x_i - mean x)^2,
  // and each of those sums is 1 / (2n) times the corresponding sum over all
  // ordered pairs (i, j) of (x_i - x_j) * (y_i - y_j); the factor cancels in the
  // ratio, so the model states the slope in that pairwise form.
  // ---------------------------------------------------------------------------

  /** (x - a) * (y - b): one term of a cross-product sum. */
  function Term(x: real, a: real, y: real, b: real): real
  {
    (x - a) * (y - b)
  }

  lemma TermSign(x: real, a: real, y: real, b: real)
    ensures (x < a && y < b) || (a < x && b < y) ==> Term(x, a, y, b) > 0.0
    ensures Term(x, a, y, b) == Term(a, x, b, y)
  {
    if x < a && y < b {
      assert (a - x) * (b - y) > 0.0;
    }
  }

  lemma TermNegated(x: real, a: real, y: real, b: real)
    ensures Term(x, a, -y, -b) == -Term(x, a, y, b)
  {
  }

  /** Sum over i of (xs[i] - a) * (ys[i] - b). */
  function Deviation(xs: seq<real>, ys: seq<real>, a: real, b: real): real
    requires |xs| == |ys|
  {
    if xs == [] then 0.0
    else Deviation(xs[..|xs| - 1], ys[..|xs| - 1], a, b) + Term(xs[|xs| - 1], a, ys[|xs| - 1], b)
  }

  /** Sum over all ordered pairs i, j of (xs[i] - xs[j]) * (ys[i] - ys[j]). */
  function PairSum(xs: seq<real>, ys: seq<real>): real
    requires |xs| == |ys|
  {
    if xs == [] then 0.0
    else
      var n := |xs| - 1;
      PairSum(xs[..n], ys[..n]) + 2.0 * Deviation(xs[..n], ys[..n], xs[n], ys[n])
  }

  /** The slope of the least-squares line of ys against xs. When every x is the
      same the fitted coefficient is 0 (the minimum-norm solution). */
  function Slope(xs: seq<real>, ys: seq<real>): (s: real)
    requires |xs| == |ys|
    ensures NotConstant(xs) ==> PairSum(xs, xs) > 0.0 && s * PairSum(xs, xs) == PairSum(xs, ys)
  {
    SpreadPositive(xs);
    var spread := PairSum(xs, xs);
    if spread == 0.0 then 0.0 else PairSum(xs, ys) / spread
  }

  /** Greater xs go with greater ys, pair by pair. */
  ghost predicate Concordant(xs: seq<real>, ys: seq<real>)
    requires |xs| == |ys|
  {
    forall i, j :: 0 <= i < |xs| && 0 <= j < |xs| && xs[i] < xs[j] ==> ys[i] < ys[j]
  }

  /** Greater xs go with smaller ys, pair by pair. */
  ghost predicate Discordant(xs: seq<real>, ys: seq<real>)
    requires |xs| == |ys|
  {
    forall i, j :: 0 <= i < |xs| && 0 <= j < |xs| && xs[i] < xs[j] ==> ys[i] > ys[j]
  }

  ghost predicate NotConstant(xs: seq<real>)
  {
    exists i, j :: 0 <= i < |xs| && 0 <= j < |xs| && xs[i] != xs[j]
  }

  lemma PairSumUnfolded(xs: seq<real>, ys: seq<real>)
    requires |xs| == |ys| && xs != []
    ensures var n := |xs| - 1;
      PairSum(xs, ys) == PairSum(xs[..n], ys[..n]) + 2.0 * Deviation(xs[..n], ys[..n], xs[n], ys[n])
  {
  }

  lemma {:induction false} DeviationNonNegative(xs: seq<real>, ys: seq<real>, a: real, b: real)
    requires |xs| == |ys|
    requires forall i :: 0 <= i < |xs| ==> Term(xs[i], a, ys[i], b) >= 0.0
    ensures Deviation(xs, ys, a, b) >= 0.0
  {
    if xs != [] {
      var n := |xs| - 1;
      var xs', ys' := xs[..n], ys[..n];
      assert forall i :: 0 <= i < n ==> xs'[i] == xs[i] && ys'[i] == ys[i];
      DeviationNonNegative(xs', ys', a, b);
    }
  }

  /** With one strictly positive term `k` the sum is strictly positive. */
  lemma {:induction false} DeviationPositive(xs: seq<real>, ys: seq<real>, a: real, b: real, k: nat)
    requires |xs| == |ys| && k < |xs|
    requires forall i :: 0 <= i < |xs| ==> Term(xs[i], a, ys[i], b) >= 0.0
    requires Term(xs[k], a, ys[k], b) > 0.0
    ensures Deviation(xs, ys, a, b) > 0.0
  {
    var n := |xs| - 1;
    var xs', ys' := xs[..n], ys[..n];
    assert forall i :: 0 <= i < n ==> xs'[i] == xs[i] && ys'[i] == ys[i];
    if k < n {
      DeviationPositive(xs', ys', a, b, k);
    } else {
      DeviationNonNegative(xs', ys', a, b);
    }
  }

  /** Every term (xs[i] - xs[j]) * (ys[i] - ys[j]) is non-negative. */
  ghost predicate PairwiseAligned(xs: seq<real>, ys: seq<real>)
    requires |xs| == |ys|
  {
    forall i, j :: 0 <= i < |xs| && 0 <= j < |xs| ==> Term(xs[i], xs[j], ys[i], ys[j]) >= 0.0
  }

  lemma AlignedPrefix(xs: seq<real>, ys: seq<real>)
    requires |xs| == |ys| && xs != [] && PairwiseAligned(xs, ys)
    ensures var n := |xs| - 1;
      && PairwiseAligned(xs[..n], ys[..n])
      && forall i :: 0 <= i < n ==> Term(xs[..n][i], xs[n], ys[..n][i], ys[n]) >= 0.0
  {
    var n := |xs| - 1;
    assert forall i :: 0 <= i < n ==> xs[..n][i] == xs[i] && ys[..n][i] == ys[i];
  }

  lemma {:induction false} PairSumNonNegative(xs: seq<real>, ys: seq<real>)
    requires |xs| == |ys| && PairwiseAligned(xs, ys)
    ensures PairSum(xs, ys) >= 0.0
  {
    if xs != [] {
      var n := |xs| - 1;
      PairSumUnfolded(xs, ys);
      AlignedPrefix(xs, ys);
      PairSumNonNegative(xs[..n], ys[..n]);
      DeviationNonNegative(xs[..n], ys[..n], xs[n], ys[n]);
    }
  }

  /** With one strictly positive pair (i, j) the double sum is strictly positive. */
  lemma {:induction false} PairSumPositive(xs: seq<real>, ys: seq<real>, i: nat, j: nat)
    requires |xs| == |ys| && i < |xs| && j < |xs| && PairwiseAligned(xs, ys)
    requires Term(xs[i], xs[j], ys[i], ys[j]) > 0.0
    ensures PairSum(xs, ys) > 0.0
  {
    var n := |xs| - 1;
    var xs', ys' := xs[..n], ys[..n];
    PairSumUnfolded(xs, ys);
    AlignedPrefix(xs, ys);
    if i < n && j < n {
      assert xs'[i] == xs[i] && xs'[j] == xs[j] && ys'[i] == ys[i] && ys'[j] == ys[j];
      PairSumPositive(xs', ys', i, j);
      DeviationNonNegative(xs', ys', xs[n], ys[n]);
    } else {
      PairSumNonNegative(xs', ys');
      var k := if i < n then i else j;
      TermSign(xs[i], xs[j], ys[i], ys[j]);
      assert k < n ==> Term(xs'[k], xs[n], ys'[k], ys[n]) > 0.0;
      if k < n {
        DeviationPositive(xs', ys', xs[n], ys[n], k);
      }
    }
  }

  lemma ConcordantIsAligned(xs: seq<real>, ys: seq<real>)
    requires |xs| == |ys| && Concordant(xs, ys)
    ensures PairwiseAligned(xs, ys)
    ensures forall i, j :: 0 <= i < |xs| && 0 <= j < |xs| && xs[i] != xs[j]
              ==> Term(xs[i], xs[j], ys[i], ys[j]) > 0.0
  {
    forall i, j | 0 <= i < |xs| && 0 <= j < |xs|
      ensures Term(xs[i], xs[j], ys[i], ys[j]) >= 0.0
      ensures xs[i] != xs[j] ==> Term(xs[i], xs[j], ys[i], ys[j]) > 0.0
    {
      TermSign(xs[i], xs[j], ys[i], ys[j]);
    }
  }

  /** Concordant data with some spread in xs has a positive pairwise sum. */
  /** Non-constant xs have a positive spread: each x moves with itself. */
  lemma SpreadPositive(xs: seq<real>)
    ensures NotConstant(xs) ==> PairSum(xs, xs) > 0.0
  {
    if NotConstant(xs) {
      PairSumConcordant(xs, xs);
    }
  }

  lemma PairSumConcordant(xs: seq<real>, ys: seq<real>)
    requires |xs| == |ys| && Concordant(xs, ys) && NotConstant(xs)
    ensures PairSum(xs, ys) > 0.0
  {
    ConcordantIsAligned(xs, ys);
    var i, j :| 0 <= i < |xs| && 0 <= j < |xs| && xs[i] != xs[j];
    PairSumPositive(xs, ys, i, j);
  }

  function Negated(ys: seq<real>): (r: seq<real>)
    ensures |r| == |ys|
    ensures forall i :: 0 <= i < |ys| ==> r[i] == -ys[i]
  {
    if ys == [] then [] else Negated(ys[..|ys| - 1]) + [-ys[|ys| - 1]]
  }

  lemma {:induction false} DeviationNegated(xs: seq<real>, ys: seq<real>, a: real, b: real)
    requires |xs| == |ys|
    ensures Deviation(xs, Negated(ys), a, -b) == -Deviation(xs, ys, a, b)
  {
    if xs != [] {
      var n := |xs| - 1;
      assert Negated(ys)[..n] == Negated(ys[..n]);
      DeviationNegated(xs[..n], ys[..n], a, b);
      TermNegated(xs[n], a, ys[n], b);
    }
  }

  lemma {:induction false} PairSumNegated(xs: seq<real>, ys: seq<real>)
    requires |xs| == |ys|
    ensures PairSum(xs, Negated(ys)) == -PairSum(xs, ys)
  {
    if xs != [] {
      var n := |xs| - 1;
      assert Negated(ys)[..n] == Negated(ys[..n]);
      PairSumNegated(xs[..n], ys[..n]);
      DeviationNegated(xs[..n], ys[..n], xs[n], ys[n]);
    }
  }

  /** When larger xs always carry larger ys (and the xs are not all equal) the
      fitted slope is positive. */
  lemma SlopeOfConcordant(xs: seq<real>, ys: seq<real>)
    requires |xs| == |ys| && Concordant(xs, ys) && NotConstant(xs)
    ensures Slope(xs, ys) > 0.0
  {
    PairSumConcordant(xs, xs);
    PairSumConcordant(xs, ys);
    DivideSign(PairSum(xs, ys), PairSum(xs, xs));
  }

  /** When larger xs always carry smaller ys (and the xs are not all equal) the
      fitted slope is negative. */
  lemma SlopeOfDiscordant(xs: seq<real>, ys: seq<real>)
    requires |xs| == |ys| && Discordant(xs, ys) && NotConstant(xs)
    ensures Slope(xs, ys) < 0.0
  {
    PairSumConcordant(xs, xs);
    var zs := Negated(ys);
    assert Concordant(xs, zs);
    PairSumConcordant(xs, zs);
    PairSumNegated(xs, ys);
    DivideSign(PairSum(xs, ys), PairSum(xs, xs));
  }

  // ---------------------------------------------------------------------------
  // Mean of consecutive differences (pandas `diff().mean()`).
  // ---------------------------------------------------------------------------

  /** [s[1] - s[0], s[2] - s[1], ...]: the differences pandas' `diff` yields
      after its leading missing value. */
  function Differences(s: seq<real>): (d: seq<real>)
    ensures |d| == if s == [] then 0 else |s| - 1
    ensures forall i :: 0 <= i < |d| ==> d[i] == s[i + 1] - s[i]
  {
    if |s| < 2 then [] else Differences(s[..|s| - 1]) + [s[|s| - 1] - s[|s| - 2]]
  }

  /** The differences telescope to last minus first. */
  lemma {:induction false} DifferencesTelescope(s: seq<real>)
    requires s != []
    ensures Sum(Differences(s)) == s[|s| - 1] - s[0]
  {
    if |s| >= 2 {
      var n := |s| - 1;
      DifferencesTelescope(s[..n]);
      assert Differences(s)[..n - 1] == Differences(s[..n]);
    }
  }

  lemma DivideSign(t: real, n: real)
    requires n > 0.0
    ensures t / n > 0.0 <==> t > 0.0
    ensures t / n < 0.0 <==> t < 0.0
  {
  }

  /** With at least two values, the mean difference is positive exactly when the
      last value exceeds the first. */
  lemma MeanDifferenceSign(s: seq<real>)
    requires |s| >= 2
    ensures Mean(Differences(s)) > 0.0 <==> s[|s| - 1] > s[0]
  {
    DifferencesTelescope(s);
    DivideSign(Sum(Differences(s)), |Differences(s)| as real);
  }
}
