/** Performance numbers: one-pass maximum drawdown and the Sharpe estimate with its
    Newton square root. */
module Evaluation {
  import opened Domain
  import opened Drawdown

  // ----- Maximum drawdown -------------------------------------------------------

  function Sum(ps: seq<real>): real {
    if ps == [] then 0.0 else Sum(ps[..|ps| - 1]) + ps[|ps| - 1]
  }

  /** The cumulative P&L curve, starting at 0. */
  function Equity(ps: seq<real>, i: nat): real
    requires i <= |ps|
  {
    Sum(ps[..i])
  }

  function CurvePeak(ps: seq<real>): real {
    if ps == [] then 0.0 else Max(CurvePeak(ps[..|ps| - 1]), Sum(ps))
  }

  function MaxDrawdown(ps: seq<real>): real {
    if ps == [] then 0.0 else Max(MaxDrawdown(ps[..|ps| - 1]), CurvePeak(ps) - Sum(ps))
  }

  function RealizedOf(entries: seq<Option<real>>): seq<real> {
    if entries == [] then []
    else RealizedOf(entries[..|entries| - 1]) + match entries[|entries| - 1] case Some(p) => [p] case None => []
  }

  /** `entries` are the realized P&Ls of the ledger entries, None while still open. */
  method ComputeMaxDrawdown(entries: seq<Option<real>>) returns (maxDd: real)
    ensures maxDd == MaxDrawdown(RealizedOf(entries))
  {
    var peak, equity := 0.0, 0.0;
    maxDd := 0.0;
    for i := 0 to |entries|
      invariant equity == Sum(RealizedOf(entries[..i]))
      invariant peak == CurvePeak(RealizedOf(entries[..i]))
      invariant maxDd == MaxDrawdown(RealizedOf(entries[..i]))
    {
      assert entries[..i + 1][..i] == entries[..i];
      match entries[i] {
        case Some(pnl) =>
          var before := RealizedOf(entries[..i]);
          assert (before + [pnl])[..|before|] == before;
          equity := equity + pnl;
          if equity > peak {
            peak := equity;
          }
          var dd := peak - equity;
          if dd > maxDd {
            maxDd := dd;
          }
        case None =>
          assert RealizedOf(entries[..i + 1]) == RealizedOf(entries[..i]);
      }
    }
    assert entries[..|entries|] == entries;
  }

  ghost predicate OnCurve(ps: seq<real>, i: int) {
    0 <= i <= |ps|
  }

  lemma {:induction false} PeakIsReached(ps: seq<real>)
    ensures forall i :: OnCurve(ps, i) ==> Equity(ps, i) <= CurvePeak(ps)
    ensures exists i :: OnCurve(ps, i) && Equity(ps, i) == CurvePeak(ps)
  {
    assert ps[..|ps|] == ps;
    if ps == [] {
      assert OnCurve(ps, 0);
    } else {
      var before := ps[..|ps| - 1];
      PeakIsReached(before);
      forall i | OnCurve(ps, i)
        ensures Equity(ps, i) <= CurvePeak(ps)
      {
        if i < |ps| {
          assert OnCurve(before, i) && before[..i] == ps[..i];
        }
      }
      var k :| OnCurve(before, k) && Equity(before, k) == CurvePeak(before);
      assert before[..k] == ps[..k] && OnCurve(ps, k) && OnCurve(ps, |ps|);
      assert Equity(ps, k) == CurvePeak(ps) || Equity(ps, |ps|) == CurvePeak(ps);
    }
  }

  /** The one-pass result is the largest fall from any earlier point of the curve to
      any later one. */
  lemma {:induction false} MaxDrawdownIsLargestFall(ps: seq<real>)
    ensures forall i, j :: OnCurve(ps, i) && OnCurve(ps, j) && i <= j ==>
        Equity(ps, i) - Equity(ps, j) <= MaxDrawdown(ps)
    ensures exists i, j ::
              OnCurve(ps, i) && OnCurve(ps, j) && i <= j && Equity(ps, i) - Equity(ps, j) == MaxDrawdown(ps)
  {
    assert ps[..|ps|] == ps;
    PeakIsReached(ps);
    if ps == [] {
      assert OnCurve(ps, 0) && Equity(ps, 0) - Equity(ps, 0) == MaxDrawdown(ps);
    } else {
      var before := ps[..|ps| - 1];
      MaxDrawdownIsLargestFall(before);
      forall i, j | OnCurve(ps, i) && OnCurve(ps, j) && i <= j
        ensures Equity(ps, i) - Equity(ps, j) <= MaxDrawdown(ps)
      {
        if j < |ps| {
          assert OnCurve(before, i) && OnCurve(before, j) && before[..i] == ps[..i] && before[..j] == ps[..j];
        }
      }
      if MaxDrawdown(ps) == MaxDrawdown(before) {
        var i, j :| OnCurve(before, i) && OnCurve(before, j) && i <= j
            && Equity(before, i) - Equity(before, j) == MaxDrawdown(before);
        assert before[..i] == ps[..i] && before[..j] == ps[..j] && OnCurve(ps, i) && OnCurve(ps, j);
      } else {
        var i :| OnCurve(ps, i) && Equity(ps, i) == CurvePeak(ps);
        assert OnCurve(ps, |ps|) && Equity(ps, |ps|) == Sum(ps);
      }
    }
  }

  // ----- Against the live drawdown tracker ----------------------------------------

  function PnlsOf(es: seq<Event>): seq<real> {
    if es == [] then []
    else PnlsOf(es[..|es| - 1]) + if es[|es| - 1].Trade? then [es[|es| - 1].pnl] else []
  }

  /** The largest total drawdown the tracker has shown so far. */
  function LargestShown(equity: real, es: seq<Event>): real {
    if es == [] then TotalDrawdown(StateAfter(equity, es))
    else Max(LargestShown(equity, es[..|es| - 1]), TotalDrawdown(StateAfter(equity, es)))
  }

  lemma {:induction false} CurveMatchesTracker(es: seq<Event>)
    ensures Sum(PnlsOf(es)) == TotalPnl(es) && CurvePeak(PnlsOf(es)) == Peak(es)
  {
    if es != [] {
      var before := es[..|es| - 1];
      CurveMatchesTracker(before);
      if es[|es| - 1].Trade? {
        assert PnlsOf(es)[..|PnlsOf(before)|] == PnlsOf(before);
      } else {
        assert PnlsOf(es) == PnlsOf(before);
        PeakIsHighest(before);
        assert before[..|before|] == before;
      }
    }
  }

  /** The report's figure is the largest drawdown the live tracker showed on the same
      P&L sequence, whatever the starting equity and the daily resets. */
  lemma {:induction false} ReportMatchesTracker(equity: real, es: seq<Event>)
    ensures MaxDrawdown(PnlsOf(es)) == LargestShown(equity, es)
  {
    StateFromTrades(equity, es);
    CurveMatchesTracker(es);
    PeakIsHighest(es);
    assert es[..|es|] == es;
    if es != [] {
      var before := es[..|es| - 1];
      ReportMatchesTracker(equity, before);
      if es[|es| - 1].Trade? {
        assert PnlsOf(es)[..|PnlsOf(before)|] == PnlsOf(before);
      } else {
        assert PnlsOf(es) == PnlsOf(before);
        DrawdownShown(equity, before);
        StateFromTrades(equity, before);
      }
    }
  }

  lemma DrawdownShown(equity: real, es: seq<Event>)
    ensures TotalDrawdown(StateAfter(equity, es)) <= LargestShown(equity, es)
  {
  }

  // ----- The Newton square root -----------------------------------------------------

  const NEWTON_STEPS: nat := 10

  function NewtonStep(v: real, x: real): real
    requires x > 0.0
  {
    (x + v / x) / 2.0
  }

  /** The k-th iterate from the start value v. */
  function Newton(v: real, k: nat): (x: real)
    requires v > 0.0
    ensures x > 0.0
  {
    if k == 0 then v
    else
      var x := Newton(v, k - 1);
      StepPositive(v, x);
      NewtonStep(v, x)
  }

  lemma StepPositive(v: real, x: real)
    requires v > 0.0 && x > 0.0
    ensures NewtonStep(v, x) > 0.0 && v / x > 0.0 && Mul(x, v / x) == v
  {
  }

  /** One step squares half the difference of its two averaged values. */
  lemma StepError(v: real, x: real)
    requires v > 0.0 && x > 0.0
    ensures var y, d := NewtonStep(v, x), (x - v / x) / 2.0;
            Mul(y, y) - v == Mul(d, d) >= 0.0
  {
    StepPositive(v, x);
    HalfSumSquared(x, v / x);
  }

  lemma HalfSumSquared(x: real, w: real)
    ensures Mul((x + w) / 2.0, (x + w) / 2.0) - Mul(x, w) == Mul((x - w) / 2.0, (x - w) / 2.0)
    ensures Mul((x - w) / 2.0, (x - w) / 2.0) >= 0.0
  {
    SquareSign((x - w) / 2.0);
  }

  lemma SquareSign(d: real)
    ensures Mul(d, d) >= 0.0
    ensures Mul(d, d) == 0.0 <==> d == 0.0
  {
    MulSign(d, d);
    MulSign(-d, -d);
    assert Mul(-d, -d) == Mul(d, d);
  }

  /** From above the root, a step divides the error of the square by at least four. */
  lemma StepShrinks(v: real, x: real)
    requires v > 0.0 && x > 0.0 && Mul(x, x) - v >= 0.0
    ensures var y := NewtonStep(v, x); 0.0 <= Mul(y, y) - v <= (Mul(x, x) - v) / 4.0
  {
    hide NewtonStep;
    StepError(v, x);
    StepPositive(v, x);
    var w := v / x;
    MulMonotone(x, w, x);
    SquareBelow(x, w);
  }

  lemma SquareBelow(x: real, w: real)
    requires x > 0.0 && w > 0.0
    requires Mul(x, x) >= Mul(x, w)
    ensures Mul((x - w) / 2.0, (x - w) / 2.0) <= (Mul(x, x) - Mul(x, w)) / 4.0
  {
    assert w <= x by {
      MulMonotone(x, w, x);
    }
    MulMonotone(w, x, w);
  }

  function Pow4(k: nat): (p: real)
    ensures p >= 1.0
  {
    if k == 0 then 1.0 else 4.0 * Pow4(k - 1)
  }

  /** After k steps the square is above v by at most (v - 1)^2 / 4^k. */
  lemma {:induction false} NewtonBound(v: real, k: nat)
    requires v > 0.0 && k >= 1
    ensures var x := Newton(v, k); 0.0 <= Mul(x, x) - v <= Mul(v - 1.0, v - 1.0) / Pow4(k)
  {
    if k == 1 {
      StepError(v, v);
      assert Newton(v, 1) == NewtonStep(v, Newton(v, 0)) == NewtonStep(v, v);
      SelfQuotient(v);
      assert Mul((v - 1.0) / 2.0, (v - 1.0) / 2.0) == Mul(v - 1.0, v - 1.0) / 4.0;
      assert Pow4(1) == 4.0;
    } else {
      NewtonBound(v, k - 1);
      StepShrinks(v, Newton(v, k - 1));
      QuarterOf(Mul(v - 1.0, v - 1.0), Pow4(k - 1));
    }
  }

  lemma SelfQuotient(v: real)
    requires v != 0.0
    ensures v / v == 1.0
  {
  }

  lemma QuarterOf(a: real, p: real)
    requires p > 0.0
    ensures a / p / 4.0 == a / (4.0 * p)
  {
  }

  // ----- The Sharpe estimate ----------------------------------------------------------

  function Mean(ps: seq<real>): real
    requires ps != []
  {
    Sum(ps) / |ps| as real
  }

  function SquaredDeviations(ps: seq<real>, mean: real): real {
    if ps == [] then 0.0
    else SquaredDeviations(ps[..|ps| - 1], mean) + Mul(ps[|ps| - 1] - mean, ps[|ps| - 1] - mean)
  }

  function Variance(ps: seq<real>): real
    requires |ps| >= 2
  {
    SquaredDeviations(ps, Mean(ps)) / (|ps| as real - 1.0)
  }

  method SimpleSharpe(ps: seq<real>) returns (sharpe: real)
    ensures |ps| < 2 || Variance(ps) <= 0.0 ==> sharpe == 0.0
    ensures |ps| >= 2 && Variance(ps) > 0.0 ==> sharpe == Mean(ps) / Newton(Variance(ps), NEWTON_STEPS)
  {
    if |ps| < 2 {
      return 0.0;
    }
    var n := |ps| as real;
    var mean := Sum(ps) / n;
    var variance := SquaredDeviations(ps, mean) / (n - 1.0);
    if variance <= 0.0 {
      return 0.0;
    }
    var x := variance;
    for i := 0 to 10
      invariant x > 0.0 && x == Newton(variance, i)
    {
      // The source returns 0 here if x is not positive; it always is.
      x := (x + variance / x) / 2.0;
    }
    sharpe := mean / x;
  }

  /** The reported ratio has the sign of the mean and never overstates it: its square
      times the variance is at most the squared mean, and short of it by no more than
      the Newton error allows. */
  lemma SharpeIsConservative(mean: real, v: real)
    requires v > 0.0
    ensures var s := mean / Newton(v, NEWTON_STEPS);
            && (s > 0.0 <==> mean > 0.0)
            && (s < 0.0 <==> mean < 0.0)
            && Mul(Mul(s, s), v) <= Mul(mean, mean)
            && Mul(mean, mean) <= Mul(Mul(s, s), v + Mul(v - 1.0, v - 1.0) / 1048576.0)
  {
    var x := Newton(v, NEWTON_STEPS);
    var s := mean / x;
    NewtonBound(v, NEWTON_STEPS);
    assert Pow4(NEWTON_STEPS) == 1048576.0 by {
      assert Pow4(5) == 1024.0;
    }
    QuotientSign(mean, x);
    SquareSign(s);
    ProductOfSquares(s, x);
    ScaleBetween(Mul(s, s), v, Mul(x, x), v + Mul(v - 1.0, v - 1.0) / 1048576.0);
  }

  lemma ProductOfSquares(s: real, x: real)
    ensures Mul(Mul(s, x), Mul(s, x)) == Mul(Mul(s, s), Mul(x, x))
  {
  }

  lemma ScaleBetween(c: real, lo: real, mid: real, hi: real)
    requires c >= 0.0 && lo <= mid <= hi
    ensures Mul(c, lo) <= Mul(c, mid) <= Mul(c, hi)
  {
  }

  predicate AllEqual(ps: seq<real>, mean: real) {
    forall i :: 0 <= i < |ps| ==> ps[i] == mean
  }

  lemma {:induction false} DeviationsSign(ps: seq<real>, mean: real)
    ensures SquaredDeviations(ps, mean) >= 0.0
    ensures SquaredDeviations(ps, mean) == 0.0 <==> AllEqual(ps, mean)
  {
    hide Mul;
    if ps != [] {
      var before, last := ps[..|ps| - 1], ps[|ps| - 1];
      DeviationsSign(before, mean);
      SquareSign(last - mean);
      assert AllEqual(ps, mean) <==> AllEqual(before, mean) && last == mean by {
        assert forall i :: 0 <= i < |before| ==> before[i] == ps[i];
      }
    }
  }

  /** The estimate is cut to 0 for no variance exactly when all results are equal. */
  lemma NoVarianceIff(ps: seq<real>)
    requires |ps| >= 2
    ensures Variance(ps) >= 0.0
    ensures Variance(ps) <= 0.0 <==> AllEqual(ps, Mean(ps))
  {
    var mean := Mean(ps);
    DeviationsSign(ps, mean);
    QuotientSign(SquaredDeviations(ps, mean), |ps| as real - 1.0);
  }

  function SumOfSquares(ps: seq<real>): real {
    if ps == [] then 0.0 else SumOfSquares(ps[..|ps| - 1]) + Mul(ps[|ps| - 1], ps[|ps| - 1])
  }

  lemma SquareOfDifference(p: real, m: real)
    ensures Mul(p - m, p - m) == Mul(p, p) - 2.0 * Mul(m, p) + Mul(m, m)
  {
  }

  lemma {:induction false} DeviationsExpand(ps: seq<real>, m: real)
    ensures SquaredDeviations(ps, m) == SumOfSquares(ps) - 2.0 * Mul(m, Sum(ps)) + |ps| as real * Mul(m, m)
  {
    hide Mul;
    if ps == [] {
      MulSign(m, 0.0);
    } else {
      var before, p := ps[..|ps| - 1], ps[|ps| - 1];
      DeviationsExpand(before, m);
      SquareOfDifference(p, m);
      MulAdd(m, Sum(before), p);
      assert |ps| as real * Mul(m, m) == |before| as real * Mul(m, m) + Mul(m, m);
    }
  }

  /** The variance is the unbiased one: with n results, n times n - 1 times the variance is n
      times the sum of squares less the square of the sum. */
  lemma VarianceIsUnbiased(ps: seq<real>)
    requires |ps| >= 2
    ensures var n := |ps| as real;
            Mul(n, Mul(Variance(ps), n - 1.0)) == Mul(n, SumOfSquares(ps)) - Mul(Sum(ps), Sum(ps))
  {
    var n, mean := |ps| as real, Mean(ps);
    QuotientSign(Sum(ps), n);
    QuotientSign(SquaredDeviations(ps, mean), n - 1.0);
    DeviationsExpand(ps, mean);
    hide Mul, Mean, Variance, Sum, SumOfSquares, SquaredDeviations;
    ScaledDeviations(n, mean, Sum(ps), SumOfSquares(ps));
  }

  lemma ScaledDeviations(n: real, mean: real, sum: real, squares: real)
    requires Mul(mean, n) == sum
    ensures Mul(n, squares - 2.0 * Mul(mean, sum) + n * Mul(mean, mean)) == Mul(n, squares) - Mul(sum, sum)
  {
    assert n * (mean * sum) == sum * sum by {
      assert n * mean == sum;
    }
    assert n * (n * (mean * mean)) == sum * sum by {
      assert n * mean == sum;
    }
  }
}
