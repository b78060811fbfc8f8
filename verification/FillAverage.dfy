/** What `avg_fill_price` is: the notional-weighted mean of the fill prices, which
    is never below the size-weighted mean a trader would call the average price. */
module FillAverage {
  import opened Domain
  import opened Exposure

  datatype Trade = Trade(size: real, price: real, fee: real) {
    function Notional(): real { Worth(size, price) }
  }

  predicate Proper(ts: seq<Trade>) {
    forall t :: t in ts ==> t.size >= 0.0 && t.price >= 0.0
  }

  /** The entry after a sequence of fills. */
  function AfterFills(e: ContractExposure, ts: seq<Trade>): ContractExposure {
    if ts == [] then e
    else
      var t := ts[|ts| - 1];
      FilledEntry(AfterFills(e, ts[..|ts| - 1]), t.size, t.price, t.fee)
  }

  function TotalSize(ts: seq<Trade>): real {
    if ts == [] then 0.0 else TotalSize(ts[..|ts| - 1]) + ts[|ts| - 1].size
  }

  function TotalNotional(ts: seq<Trade>): real {
    if ts == [] then 0.0 else TotalNotional(ts[..|ts| - 1]) + ts[|ts| - 1].Notional()
  }

  /** Sum of price times notional over the fills. */
  function TotalPriced(ts: seq<Trade>): real {
    if ts == [] then 0.0
    else
      var t := ts[|ts| - 1];
      TotalPriced(ts[..|ts| - 1]) + Mul(t.price, t.Notional())
  }

  predicate Fresh(e: ContractExposure) {
    e.filled == 0.0
  }

  lemma NotionalSign(t: Trade)
    requires t.size >= 0.0 && t.price >= 0.0
    ensures t.Notional() >= 0.0 && Mul(t.price, t.Notional()) >= 0.0
  {
    MulSign(t.price, t.Notional());
  }

  lemma {:induction false} TotalsNonnegative(ts: seq<Trade>)
    requires Proper(ts)
    ensures TotalSize(ts) >= 0.0 && TotalNotional(ts) >= 0.0 && TotalPriced(ts) >= 0.0
  {
    hide Mul, Worth;
    if ts != [] {
      TotalsNonnegative(ts[..|ts| - 1]);
      NotionalSign(ts[|ts| - 1]);
    }
  }

  // ----- The tracked average ----------------------------------------------

  /** One fill: both the filled amount and its priced total move by the fill. */
  lemma BlendStep(e: ContractExposure, size: real, price: real, fee: real)
    requires e.filled >= 0.0 && Worth(size, price) >= 0.0
    ensures var e' := FilledEntry(e, size, price, fee);
            && e'.filled == e.filled + Worth(size, price)
            && Mul(e'.avgFillPrice, e'.filled) == Mul(e.avgFillPrice, e.filled) + Mul(price, Worth(size, price))
  {
    hide Worth;
    var n := Worth(size, price);
    if e.filled + n > 0.0 {
      DivTimes(e.avgFillPrice * e.filled + price * n, e.filled + n);
    } else {
      assert n == 0.0 && e.filled == 0.0;
    }
  }

  lemma DivTimes(a: real, b: real)
    requires b != 0.0
    ensures Mul(a / b, b) == a
  {
  }

  /** The tracked average, times what was filled, is the priced total of all fills. */
  lemma {:induction false} AverageIsNotionalWeighted(e: ContractExposure, ts: seq<Trade>)
    requires Fresh(e) && Proper(ts)
    ensures var e' := AfterFills(e, ts);
            && e'.filled == TotalNotional(ts)
            && Mul(e'.avgFillPrice, e'.filled) == TotalPriced(ts)
  {
    hide FilledEntry, Worth;
    if ts != [] {
      hide Mul;
      var before, t := ts[..|ts| - 1], ts[|ts| - 1];
      AverageIsNotionalWeighted(e, before);
      TotalsNonnegative(before);
      NotionalSign(t);
      BlendStep(AfterFills(e, before), t.size, t.price, t.fee);
    }
  }

  function TotalFees(ts: seq<Trade>): real {
    if ts == [] then 0.0 else TotalFees(ts[..|ts| - 1]) + ts[|ts| - 1].fee
  }

  /** Many fills move the amounts as one fill of their total would: all of it becomes filled,
      pending loses it down to zero, and every fee is kept. */
  lemma {:induction false} FillsAddUp(e: ContractExposure, ts: seq<Trade>)
    requires Proper(ts) && e.pending >= 0.0
    ensures var e' := AfterFills(e, ts);
            && e'.contract == e.contract && e'.side == e.side
            && e'.filled == e.filled + TotalNotional(ts)
            && e'.pending == Max(e.pending - TotalNotional(ts), 0.0)
            && e'.feesPaid == e.feesPaid + TotalFees(ts)
  {
    hide Worth;
    if ts != [] {
      FillsAddUp(e, ts[..|ts| - 1]);
      NotionalSign(ts[|ts| - 1]);
    }
  }

  /** Bounds on every price bound the priced total. */
  lemma {:induction false} PricedBetween(ts: seq<Trade>, lo: real, hi: real)
    requires Proper(ts)
    requires forall t :: t in ts ==> lo <= t.price <= hi
    ensures Mul(lo, TotalNotional(ts)) <= TotalPriced(ts) <= Mul(hi, TotalNotional(ts))
  {
    if ts != [] {
      hide Mul, Worth;
      var before, t := ts[..|ts| - 1], ts[|ts| - 1];
      var n := t.Notional();
      PricedBetween(before, lo, hi);
      NotionalSign(t);
      MulMonotone(lo, t.price, n);
      MulMonotone(t.price, hi, n);
      MulAdd(lo, TotalNotional(before), n);
      MulAdd(hi, TotalNotional(before), n);
    }
  }

  /** Once anything of value is filled, the average lies between the extreme prices. */
  lemma AverageBetweenPrices(e: ContractExposure, ts: seq<Trade>, lo: real, hi: real)
    requires Fresh(e) && Proper(ts)
    requires forall t :: t in ts ==> lo <= t.price <= hi
    requires TotalNotional(ts) > 0.0
    ensures lo <= AfterFills(e, ts).avgFillPrice <= hi
  {
    hide *;
    AverageIsNotionalWeighted(e, ts);
    PricedBetween(ts, lo, hi);
    var a, n := AfterFills(e, ts).avgFillPrice, TotalNotional(ts);
    MulMonotone(a, lo, n);
    MulMonotone(hi, a, n);
  }

  // ----- Against the size-weighted average: Cauchy-Schwarz ------------------

  function Square(s: real, p: real, q: real): real { s * ((p - q) * (p - q)) }

  function Quad(p: real, a: real, b: real, c: real): real { p * p * a - 2.0 * p * b + c }

  function Cross(a: real, b: real, c: real): real { c * a - b * b }

  /** Size-weighted spread of the fill prices around p. */
  function Spread(ts: seq<Trade>, p: real): real {
    if ts == [] then 0.0
    else
      var t := ts[|ts| - 1];
      Spread(ts[..|ts| - 1], p) + Square(t.size, p, t.price)
  }

  /** The gap in the Cauchy-Schwarz inequality, as a sum of squares. */
  function Gap(ts: seq<Trade>): real {
    if ts == [] then 0.0
    else
      var before, t := ts[..|ts| - 1], ts[|ts| - 1];
      Gap(before) + Mul(t.size, Spread(before, t.price))
  }

  lemma QuadStep(p: real, a: real, b: real, c: real, s: real, q: real)
    ensures Quad(p, a + s, b + Worth(s, q), c + Mul(q, Worth(s, q))) == Quad(p, a, b, c) + Square(s, p, q)
  {
  }

  lemma CrossStep(a: real, b: real, c: real, s: real, q: real)
    ensures Cross(a + s, b + Worth(s, q), c + Mul(q, Worth(s, q))) == Cross(a, b, c) + Mul(s, Quad(q, a, b, c))
  {
  }

  lemma {:induction false} SpreadIsQuad(ts: seq<Trade>, p: real)
    ensures Spread(ts, p) == Quad(p, TotalSize(ts), TotalNotional(ts), TotalPriced(ts))
  {
    if ts != [] {
      hide Mul, Worth, Quad, Square;
      var before, t := ts[..|ts| - 1], ts[|ts| - 1];
      SpreadIsQuad(before, p);
      QuadStep(p, TotalSize(before), TotalNotional(before), TotalPriced(before), t.size, t.price);
    }
  }

  lemma {:induction false} GapIsCross(ts: seq<Trade>)
    ensures Gap(ts) == Cross(TotalSize(ts), TotalNotional(ts), TotalPriced(ts))
  {
    if ts != [] {
      hide Mul, Worth, Quad, Cross;
      var before, t := ts[..|ts| - 1], ts[|ts| - 1];
      GapIsCross(before);
      SpreadIsQuad(before, t.price);
      CrossStep(TotalSize(before), TotalNotional(before), TotalPriced(before), t.size, t.price);
    }
  }

  /** All fills of positive size had the same price. */
  predicate OnePrice(ts: seq<Trade>) {
    forall s, t :: s in ts && t in ts && s.size > 0.0 && t.size > 0.0 ==> s.price == t.price
  }

  lemma SquareSign(s: real, p: real, q: real)
    requires s >= 0.0
    ensures Square(s, p, q) >= 0.0
    ensures Square(s, p, q) == 0.0 <==> s == 0.0 || p == q
  {
    MulSign(p - q, p - q);
    if p < q {
      MulSign(q - p, q - p);
      assert Mul(q - p, q - p) == Mul(p - q, p - q);
    }
    MulSign(s, Mul(p - q, p - q));
    assert Square(s, p, q) == Mul(s, Mul(p - q, p - q));
  }

  lemma {:induction false} SpreadSign(ts: seq<Trade>, p: real)
    requires Proper(ts)
    ensures Spread(ts, p) >= 0.0
    ensures Spread(ts, p) == 0.0 <==> forall t :: t in ts && t.size > 0.0 ==> t.price == p
  {
    hide Square;
    if ts != [] {
      var before, t := ts[..|ts| - 1], ts[|ts| - 1];
      assert ts == before + [t];
      SpreadSign(before, p);
      SquareSign(t.size, p, t.price);
    }
  }

  lemma {:induction false} GapSign(ts: seq<Trade>)
    requires Proper(ts)
    ensures Gap(ts) >= 0.0
    ensures Gap(ts) == 0.0 <==> OnePrice(ts)
  {
    hide Mul, Square;
    if ts != [] {
      var before, t := ts[..|ts| - 1], ts[|ts| - 1];
      assert ts == before + [t];
      GapSign(before);
      SpreadSign(before, t.price);
      MulSign(t.size, Spread(before, t.price));
    }
  }

  /** The tracked average is at least the size-weighted average price, and equal to
      it exactly when all fills of positive size had the same price. */
  lemma AverageOverstates(e: ContractExposure, ts: seq<Trade>)
    requires Fresh(e) && Proper(ts)
    requires TotalNotional(ts) > 0.0
    ensures TotalSize(ts) > 0.0
    ensures AfterFills(e, ts).avgFillPrice >= TotalNotional(ts) / TotalSize(ts)
    ensures AfterFills(e, ts).avgFillPrice == TotalNotional(ts) / TotalSize(ts) <==> OnePrice(ts)
  {
    hide *;
    AverageIsNotionalWeighted(e, ts);
    GapIsCross(ts);
    GapSign(ts);
    TotalsNonnegative(ts);
    MeansCompare(AfterFills(e, ts).avgFillPrice, TotalSize(ts), TotalNotional(ts));
  }

  lemma MeansCompare(avg: real, a: real, b: real)
    requires a >= 0.0 && b > 0.0 && Cross(a, b, Mul(avg, b)) >= 0.0
    ensures a > 0.0
    ensures avg >= b / a
    ensures avg == b / a <==> Cross(a, b, Mul(avg, b)) == 0.0
  {
    hide Mul, Cross;
    CrossFactors(avg, a, b);
    MulSign(avg, a);
    MulMonotone(Mul(avg, a) - b, 0.0, b);
    MulMonotone(0.0, Mul(avg, a) - b, b);
    MulSign(0.0, b);
    assert a != 0.0;
    DivTimes(b, a);
    MulMonotone(avg, b / a, a);
    MulMonotone(b / a, avg, a);
  }

  lemma CrossFactors(avg: real, a: real, b: real)
    ensures Cross(a, b, Mul(avg, b)) == Mul(Mul(avg, a) - b, b)
  {
  }

  /** Two fills at different prices are enough for the tracked average to be wrong
      as a price per share. */
  lemma TwoPricesOverstate(e: ContractExposure, s: Trade, t: Trade)
    requires Fresh(e) && s.size > 0.0 && t.size > 0.0 && s.price > 0.0 && t.price > 0.0 && s.price != t.price
    ensures TotalSize([s, t]) == s.size + t.size
    ensures AfterFills(e, [s, t]).avgFillPrice > TotalNotional([s, t]) / TotalSize([s, t])
  {
    hide Worth, Mul, AfterFills;
    var ts := [s, t];
    assert ts[..1] == [s] && [s][..0] == [];
    assert TotalSize([s]) == s.size && TotalNotional([s]) == s.Notional();
    assert TotalSize(ts) == s.size + t.size && TotalNotional(ts) == s.Notional() + t.Notional();
    assert s in ts && t in ts;
    NotionalPositive(s);
    NotionalPositive(t);
    AverageOverstates(e, ts);
  }

  lemma NotionalPositive(t: Trade)
    requires t.size > 0.0 && t.price > 0.0
    ensures t.Notional() > 0.0
  {
  }
}
