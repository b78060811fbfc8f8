/** Net edge of a trade candidate after fees, slippage and latency decay. */
module Edge {
  import opened Domain

  datatype FeeSchedule = FeeSchedule(makerRate: real, takerRate: real, probabilityScaled: bool)

  function EffectiveRate(fees: FeeSchedule, p: real): real {
    if fees.probabilityScaled then fees.takerRate * Min(p, 1.0 - p) else fees.takerRate
  }

  function FeeUsdc(fees: FeeSchedule, notional: real, p: real): real {
    notional * EffectiveRate(fees, p)
  }

  datatype SlippageEstimate = SlippageEstimate(entry: real, exit: real)

  function SlippageFromDepth(orderSize: real, depth: real): SlippageEstimate {
    var entry := if depth > 0.0 then Min(orderSize / depth * 0.02, 0.05) else 0.05;
    SlippageEstimate(entry, Min(entry * 1.5, 0.05))
  }

  datatype EdgeInput = EdgeInput(
    fairValueProb: real,
    marketPrice: real,
    notional: real,
    bookDepthUsdc: real,
    fees: FeeSchedule,
    latencyBufferMs: nat,
    signalAgeMs: nat)

  datatype EdgeEstimate = EdgeEstimate(grossEdge: real, netEdge: real, costs: CostSnapshot, isProfitable: bool)

  function FeeFraction(input: EdgeInput): real {
    if input.notional > 0.0 then
      (FeeUsdc(input.fees, input.notional, input.marketPrice)
          + FeeUsdc(input.fees, input.notional, input.fairValueProb))
      / input.notional
    else 0.0
  }

  function GrossEdge(input: EdgeInput): real {
    Abs(input.fairValueProb - input.marketPrice)
  }

  function LatencyDecay(input: EdgeInput): real {
    if input.latencyBufferMs > 0
    then Min(input.signalAgeMs as real / input.latencyBufferMs as real * 0.01, GrossEdge(input))
    else 0.0
  }

  function Compute(input: EdgeInput): EdgeEstimate {
    var slippage := SlippageFromDepth(input.notional, input.bookDepthUsdc);
    var totalCost := FeeFraction(input) + (slippage.entry + slippage.exit) + LatencyDecay(input);
    var netEdge := GrossEdge(input) - totalCost;
    EdgeEstimate(
      GrossEdge(input),
      netEdge,
      CostSnapshot(
        EffectiveRate(input.fees, input.marketPrice),
        FeeUsdc(input.fees, input.notional, input.marketPrice),
        FeeUsdc(input.fees, input.notional, input.fairValueProb),
        slippage.entry, slippage.exit, LatencyDecay(input), totalCost),
      netEdge > 0.0)
  }

  // ----- Symmetry ------------------------------------------------------------

  lemma RateIsSymmetric(fees: FeeSchedule, p: real)
    ensures EffectiveRate(fees, 1.0 - p) == EffectiveRate(fees, p)
  {
    assert Min(1.0 - p, 1.0 - (1.0 - p)) == Min(p, 1.0 - p);
  }

  function Mirrored(input: EdgeInput): EdgeInput {
    input.(fairValueProb := 1.0 - input.fairValueProb, marketPrice := 1.0 - input.marketPrice)
  }

  /** Seen from the other outcome a candidate has the same edge and the same costs. */
  lemma EdgeIsSymmetric(input: EdgeInput)
    ensures Compute(Mirrored(input)) == Compute(input)
  {
    RateIsSymmetric(input.fees, input.marketPrice);
    RateIsSymmetric(input.fees, input.fairValueProb);
    hide EffectiveRate, SlippageFromDepth;
    assert GrossEdge(Mirrored(input)) == GrossEdge(input);
    assert FeeFraction(Mirrored(input)) == FeeFraction(input);
  }

  // ----- Costs and order size ----------------------------------------------------

  lemma FeesAreProportional(input: EdgeInput)
    requires input.notional > 0.0
    ensures FeeFraction(input)
        == EffectiveRate(input.fees, input.marketPrice) + EffectiveRate(input.fees, input.fairValueProb)
  {
    Proportional(input.notional, EffectiveRate(input.fees, input.marketPrice),
        EffectiveRate(input.fees, input.fairValueProb));
  }

  lemma Proportional(n: real, a: real, b: real)
    requires n > 0.0
    ensures (n * a + n * b) / n == a + b
  {
    assert n * a + n * b == n * (a + b);
  }

  lemma SlippageGrowsWithSize(small: real, large: real, depth: real)
    requires small <= large
    ensures SlippageFromDepth(small, depth).entry <= SlippageFromDepth(large, depth).entry
    ensures SlippageFromDepth(small, depth).exit <= SlippageFromDepth(large, depth).exit
    ensures small >= 0.0 ==> SlippageFromDepth(small, depth).entry >= 0.0 && SlippageFromDepth(small, depth).exit >= 0.0
  {
    if depth > 0.0 {
      QuotientOrder(small, large, depth);
    }
  }

  /** Costs estimated for a larger order are never below those of a smaller one. */
  lemma SmallerOrderKeepsMoreEdge(input: EdgeInput, size: real)
    requires 0.0 < size <= input.notional
    ensures Compute(input.(notional := size)).netEdge >= Compute(input).netEdge
    ensures Compute(input.(notional := size)).grossEdge == Compute(input).grossEdge
  {
    var smaller := input.(notional := size);
    FeesAreProportional(input);
    FeesAreProportional(smaller);
    SlippageGrowsWithSize(size, input.notional, input.bookDepthUsdc);
    hide EffectiveRate, SlippageFromDepth, FeeFraction;
    assert LatencyDecay(smaller) == LatencyDecay(input);
  }

  lemma RateNonnegative(fees: FeeSchedule, p: real)
    requires fees.takerRate >= 0.0 && 0.0 <= p <= 1.0
    ensures EffectiveRate(fees, p) >= 0.0
  {
  }

  // ----- The fee model in numbers --------------------------------------------------

  /** An unscaled fee is the taker rate of the notional at every price; a scaled one is that
      times the distance of the price to the nearer end of [0, 1]. */
  lemma FeeInNumbers(fees: FeeSchedule, notional: real, p: real)
    ensures !fees.probabilityScaled ==> FeeUsdc(fees, notional, p) == Mul(notional, fees.takerRate)
    ensures fees.probabilityScaled && p <= 0.5 ==> FeeUsdc(fees, notional, p) == Mul(notional, Mul(fees.takerRate, p))
    ensures fees.probabilityScaled && p > 0.5 ==>
              FeeUsdc(fees, notional, p) == Mul(notional, Mul(fees.takerRate, 1.0 - p))
  {
  }

  /** Scaling makes a fee vanish at the ends of [0, 1] and at most halves the full rate. */
  lemma ScalingAtLeastHalves(fees: FeeSchedule, notional: real, p: real)
    requires fees.takerRate >= 0.0 && notional >= 0.0 && 0.0 <= p <= 1.0
    ensures var scaled, flat := fees.(probabilityScaled := true), fees.(probabilityScaled := false);
            && 0.0 <= 2.0 * FeeUsdc(scaled, notional, p) <= FeeUsdc(flat, notional, p)
            && (p == 0.0 || p == 1.0 ==> FeeUsdc(scaled, notional, p) == 0.0)
  {
    var share := Min(p, 1.0 - p);
    MulMonotone(2.0 * share, 1.0, fees.takerRate);
    MulSign(fees.takerRate, share);
    assert Mul(2.0 * share, fees.takerRate) == 2.0 * (fees.takerRate * share);
    MulSign(notional, fees.takerRate * share);
    MulMonotone(2.0 * (fees.takerRate * share), fees.takerRate, notional);
    assert Mul(2.0 * (fees.takerRate * share), notional) == 2.0 * (notional * (fees.takerRate * share));
  }

  /** Slippage is 2% of the order's share of the book, at most 5%, and 5% without a book; on
      exit it is half as much again, at most 5%. */
  lemma SlippageInNumbers(size: real, depth: real)
    ensures var s := SlippageFromDepth(size, depth);
            && (depth <= 0.0 ==> s.entry == 0.05)
            && (depth > 0.0 ==> s.entry <= 0.05 && Mul(s.entry, depth) <= size * 0.02)
            && (depth > 0.0 ==> s.entry == 0.05 || Mul(s.entry, depth) == size * 0.02)
            && s.exit <= 0.05 && s.exit <= s.entry * 1.5 && (s.exit == 0.05 || s.exit == s.entry * 1.5)
  {
    if depth > 0.0 {
      QuotientSign(size, depth);
      assert Mul(size / depth * 0.02, depth) == Mul(size / depth, depth) * 0.02;
      MulMonotone(SlippageFromDepth(size, depth).entry, size / depth * 0.02, depth);
    }
  }

  /** The share of the taker rate that is charged at a price: all of it, or with scaling the
      distance to the nearer end of [0, 1]. */
  function ChargedShare(fees: FeeSchedule, p: real): real {
    if !fees.probabilityScaled then 1.0
    else if p <= 0.5 then p
    else 1.0 - p
  }

  /** What separates net from gross edge: the two rates, which do not depend on the order
      size, both slippages and the decay. */
  lemma NetEdgeAddsUp(input: EdgeInput)
    ensures var e, fees, m, p := Compute(input), input.fees, input.marketPrice, input.fairValueProb;
            var share := ChargedShare(fees, m) + ChargedShare(fees, p);
            var slippage := SlippageFromDepth(input.notional, input.bookDepthUsdc);
            && e.grossEdge == (if p >= m then p - m else m - p)
            && e.grossEdge - e.netEdge == e.costs.totalCostFrac
            && e.costs.totalCostFrac ==
               (if input.notional > 0.0 then Mul(fees.takerRate, share) else 0.0)
               + slippage.entry + slippage.exit + LatencyDecay(input)
            && (e.isProfitable <==> e.grossEdge > e.costs.totalCostFrac)
            && (input.notional > 0.0 ==> 0.0 < slippage.entry <= slippage.exit <= 0.05)
  {
    if input.notional > 0.0 {
      FeesAreProportional(input);
      SharedRate(input.fees, input.marketPrice, input.fairValueProb);
      if input.bookDepthUsdc > 0.0 {
        QuotientSign(input.notional, input.bookDepthUsdc);
      }
    }
    hide EffectiveRate, FeeUsdc;
  }

  lemma SharedRate(fees: FeeSchedule, m: real, p: real)
    ensures EffectiveRate(fees, m) + EffectiveRate(fees, p)
         == Mul(fees.takerRate, ChargedShare(fees, m) + ChargedShare(fees, p))
  {
    if fees.probabilityScaled {
      MulAdd(fees.takerRate, Min(m, 1.0 - m), Min(p, 1.0 - p));
    }
  }

  /** The snapshot shows the parts the total is made of: the rate and the two fees in dollars
      at market price and fair value, both slippages and the decay. */
  lemma CostsAreItemised(input: EdgeInput)
    requires input.notional > 0.0
    ensures var e, c := Compute(input), Compute(input).costs;
            && Mul(c.feeRate, input.notional) == c.entryFeeUsdc
            && c.entryFeeUsdc == FeeUsdc(input.fees, input.notional, input.marketPrice)
            && c.exitFeeUsdc == FeeUsdc(input.fees, input.notional, input.fairValueProb)
            && Mul(c.totalCostFrac - c.entrySlippage - c.exitSlippage - c.latencyDecay, input.notional)
               == c.entryFeeUsdc + c.exitFeeUsdc
            && c.entrySlippage == SlippageFromDepth(input.notional, input.bookDepthUsdc).entry
            && c.exitSlippage == SlippageFromDepth(input.notional, input.bookDepthUsdc).exit
            && c.latencyDecay == LatencyDecay(input)
  {
    hide EffectiveRate;
    var fees := Compute(input).costs.entryFeeUsdc + Compute(input).costs.exitFeeUsdc;
    QuotientSign(fees, input.notional);
    assert Mul(FeeFraction(input), input.notional) == fees;
  }

  /** Age costs one percent per full buffer, but never more than the whole gross edge. */
  lemma DecayIsBounded(input: EdgeInput)
    ensures 0.0 <= LatencyDecay(input) <= GrossEdge(input)
    ensures input.latencyBufferMs > 0 ==>
        Mul(LatencyDecay(input), input.latencyBufferMs as real) <= input.signalAgeMs as real * 0.01
    ensures input.latencyBufferMs > 0 ==>
        || LatencyDecay(input) == GrossEdge(input)
        || Mul(LatencyDecay(input), input.latencyBufferMs as real) == input.signalAgeMs as real * 0.01
    ensures LatencyDecay(input) == 0.0
        <==> input.latencyBufferMs == 0 || input.signalAgeMs == 0 || GrossEdge(input) == 0.0
  {
    if input.latencyBufferMs > 0 {
      var ratio, b := input.signalAgeMs as real / input.latencyBufferMs as real, input.latencyBufferMs as real;
      QuotientOrder(0.0, input.signalAgeMs as real, b);
      if input.signalAgeMs > 0 {
        QuotientSign(input.signalAgeMs as real, b);
      }
      assert ratio * b == input.signalAgeMs as real;
      MulMonotone(LatencyDecay(input), ratio * 0.01, b);
      assert Mul(ratio * 0.01, b) == ratio * b * 0.01;
    }
  }

  /** With nonnegative rates and prices in [0, 1] every order pays for its costs. */
  lemma CostsNeverHelp(input: EdgeInput)
    requires input.notional > 0.0 && input.fees.takerRate >= 0.0
    requires 0.0 <= input.marketPrice <= 1.0 && 0.0 <= input.fairValueProb <= 1.0
    ensures Compute(input).netEdge < Compute(input).grossEdge
  {
    NetEdgeAddsUp(input);
    DecayIsBounded(input);
    RateNonnegative(input.fees, input.marketPrice);
    RateNonnegative(input.fees, input.fairValueProb);
    hide EffectiveRate, SlippageFromDepth, FeeFraction, LatencyDecay, Compute;
  }
}
