/** The signal pipeline: fair value, edge, gates, sizing and intent. */
module Pipeline {
  import opened Domain
  import FairValue
  import Edge
  import Gates
  import Sizing

  datatype PipelineInput = PipelineInput(
    contract: ContractKey,
    asset: Asset,
    outcome: Outcome,
    duration: MarketDuration,
    spotPrice: real,
    windowOpenPrice: real,
    shortDelta: real,
    momentum: Option<real>,
    volatility: Option<real>,
    secondaryPrice: Option<real>,
    book: Option<Gates.BookSnapshot>,
    marketPrice: real,
    cexFeedHealthy: bool,
    lastCexTick: Option<int>,
    lockState: LockState,
    killSwitchActive: bool,
    executionHealthy: bool,
    currentPositions: nat,
    currentPositionNotional: real,
    equity: real,
    signalAgeMs: nat,
    now: int)

  datatype StrategyConfig = StrategyConfig(
    fiveMin: Gates.Thresholds,
    fifteenMin: Gates.Thresholds,
    latencyDecayBufferMs: nat)

  /** Everything the pipeline is configured with. */
  datatype Setup = Setup(strategy: StrategyConfig, risk: RiskConfig, fees: Edge.FeeSchedule, mode: Sizing.SizingMode)

  function ThresholdsFor(setup: Setup, input: PipelineInput): Gates.Thresholds {
    if input.duration == FiveMin then setup.strategy.fiveMin else setup.strategy.fifteenMin
  }

  function FairValueOf(input: PipelineInput): FairValue.FairValueEstimate {
    FairValue.Compute(FairValue.FairValueInput(
                        input.outcome, input.duration, input.spotPrice, input.windowOpenPrice, input.shortDelta,
                        input.momentum, input.volatility, input.secondaryPrice))
  }

  function BookDepth(input: PipelineInput): real {
    if input.book.Some? then input.book.value.Depth() else 0.0
  }

  /** The edge of the candidate, costed as an order of the given notional. */
  function EdgeInputAt(setup: Setup, input: PipelineInput, notional: real): Edge.EdgeInput {
    Edge.EdgeInput(FairValueOf(input).probability, input.marketPrice, notional, BookDepth(input), setup.fees,
                   setup.strategy.latencyDecayBufferMs, input.signalAgeMs)
  }

  function EdgeAt(setup: Setup, input: PipelineInput, notional: real): Edge.EdgeEstimate {
    Edge.Compute(EdgeInputAt(setup, input, notional))
  }

  /** Costs are estimated at the largest order the risk limits allow. */
  function EdgeOf(setup: Setup, input: PipelineInput): Edge.EdgeEstimate {
    EdgeAt(setup, input, setup.risk.maxNotionalPerOrder)
  }

  function GateContextOf(setup: Setup, input: PipelineInput): Gates.GateContext {
    Gates.GateContext(
      input.asset == BTC || input.asset == ETH, input.cexFeedHealthy, input.lastCexTick, input.book,
      FairValueOf(input).confidence, EdgeOf(setup, input).netEdge, input.lockState, input.killSwitchActive,
      input.executionHealthy, input.currentPositions, setup.risk.maxConcurrentPositions, input.now)
  }

  function SizingInputOf(setup: Setup, input: PipelineInput): Sizing.SizingInput {
    Sizing.SizingInput(
      setup.mode, input.equity, FairValueOf(input).probability, input.marketPrice,
      setup.risk.maxNotionalPerOrder, setup.risk.maxPositionPerMarket, input.currentPositionNotional, BookDepth(input))
  }

  function SideFor(fairValue: real, marketPrice: real): Side {
    if fairValue > marketPrice then Buy else Sell
  }

  function Evaluate(setup: Setup, input: PipelineInput): SignalDecision {
    var rejections := Gates.Rejections(Gates.ALL_GATES, GateContextOf(setup, input), ThresholdsFor(setup, input));
    if rejections != [] then Reject(input.contract, rejections)
    else
      var size := Sizing.Sized(SizingInputOf(setup, input)).notional;
      if size == 0.0 then Reject(input.contract, [InsufficientLiquidity])
      else
        var edge := EdgeOf(setup, input);
        var p := FairValueOf(input).probability;
        Accept(OrderIntent(
                 input.contract, input.asset, input.duration, SideFor(p, input.marketPrice), input.marketPrice,
                 size, p, edge.grossEdge, edge.netEdge, edge.costs, input.now))
  }

  // ----- What acceptance means ------------------------------------------------------

  /** An accepted intent repeats the candidate's contract, price and time, carries its fair
      value, edge and costs, buys exactly below fair value, was seen unlocked with the kill
      switch off, clears the edge threshold, and fits the remaining position, order and equity
      limits. */
  lemma AcceptedIntent(setup: Setup, input: PipelineInput)
    requires Evaluate(setup, input).Accept?
    ensures var i := Evaluate(setup, input).intent;
            && i.contract == input.contract && i.asset == input.asset && i.duration == input.duration
            && i.targetPrice == input.marketPrice && i.signalTimestamp == input.now
            && (i.side == Buy <==> i.fairValue > i.targetPrice)
            && i.fairValue == FairValueOf(input).probability
            && (i.grossEdge, i.netEdge, i.costs) ==
               (EdgeOf(setup, input).grossEdge, EdgeOf(setup, input).netEdge, EdgeOf(setup, input).costs)
            && input.lockState == Unlocked && !input.killSwitchActive && input.executionHealthy
            && input.currentPositions < setup.risk.maxConcurrentPositions
            && (input.duration == FiveMin ==> i.netEdge >= setup.strategy.fiveMin.minNetEdge)
            && (input.duration == FifteenMin ==> i.netEdge >= setup.strategy.fifteenMin.minNetEdge)
            && 1.0 <= i.size <= setup.risk.maxNotionalPerOrder
            && i.size <= setup.risk.maxPositionPerMarket - input.currentPositionNotional
            && i.size <= input.equity * 0.5
  {
    hide Edge.Compute, FairValue.Compute, Sizing.Sized;
    var ctx, t := GateContextOf(setup, input), ThresholdsFor(setup, input);
    Gates.PassingSignal(ctx, t);
    Sizing.TradedSizeRespectsCaps(SizingInputOf(setup, input));
  }

  /** The candidate meets one set of thresholds: edge and confidence, depth, and the age of
      the feed and of the book. */
  predicate Clears(setup: Setup, input: PipelineInput, t: Gates.Thresholds) {
    && EdgeOf(setup, input).netEdge >= t.minNetEdge
    && FairValueOf(input).confidence >= t.minConfidence
    && input.book.Some? && input.book.value.Depth() >= t.minBookDepthUsdc
    && input.now - input.book.value.timestamp <= t.staleBookTolerance
    && (input.lastCexTick.Some? ==> input.now - input.lastCexTick.value <= t.staleFeedTolerance)
  }

  /** What it takes to be accepted: the thresholds of the candidate's own duration, a free
      contract, a running and healthy bot with room for a position, and something to trade. */
  lemma AcceptedIff(setup: Setup, input: PipelineInput)
    ensures Evaluate(setup, input).Accept? <==>
              && (input.duration == FiveMin ==> Clears(setup, input, setup.strategy.fiveMin))
              && (input.duration == FifteenMin ==> Clears(setup, input, setup.strategy.fifteenMin))
              && input.cexFeedHealthy && input.executionHealthy
              && input.lockState == Unlocked && !input.killSwitchActive
              && input.currentPositions < setup.risk.maxConcurrentPositions
              && Sizing.Sized(SizingInputOf(setup, input)).notional != 0.0
  {
    hide Edge.Compute, FairValue.Compute, Sizing.Sized, Gates.Rejections, EdgeOf, FairValueOf;
    Gates.PassingSignal(GateContextOf(setup, input), ThresholdsFor(setup, input));
  }

  /** What a candidate's edge is computed from: the distance of fair value and market price,
      fees and slippage of an order of the largest size against the whole book, and the age of
      the signal against the configured buffer. */
  lemma CandidateIsCostedSo(setup: Setup, input: PipelineInput)
    ensures var e, most := EdgeOf(setup, input), setup.risk.maxNotionalPerOrder;
            var p, m := FairValueOf(input).probability, input.marketPrice;
            var depth := match input.book
                         case Some(b) => Gates.DepthUsdc(b.bids) + Gates.DepthUsdc(b.asks)
                         case None => 0.0;
            var buffer, age := setup.strategy.latencyDecayBufferMs, input.signalAgeMs as real;
            && e.grossEdge == (if p > m then p - m else m - p)
            && e.costs.entryFeeUsdc == Edge.FeeUsdc(setup.fees, most, m)
            && e.costs.exitFeeUsdc == Edge.FeeUsdc(setup.fees, most, p)
            && (depth <= 0.0 ==> e.costs.entrySlippage == 0.05)
            && (depth > 0.0 ==> e.costs.entrySlippage == 0.05 || Mul(e.costs.entrySlippage, depth) == most * 0.02)
            && (buffer == 0 ==> e.costs.latencyDecay == 0.0)
            && (buffer > 0 ==> e.costs.latencyDecay == e.grossEdge
                               || Mul(e.costs.latencyDecay, buffer as real) == age * 0.01)
  {
    hide FairValue.Compute, Gates.DepthUsdc, Edge.LatencyDecay, Edge.SlippageFromDepth, Edge.FeeUsdc, Edge.FeeFraction;
    Edge.SlippageInNumbers(setup.risk.maxNotionalPerOrder, BookDepth(input));
    Edge.DecayIsBounded(EdgeInputAt(setup, input, setup.risk.maxNotionalPerOrder));
  }

  /** What a candidate's mode asks for, from its own price, fair value and equity. */
  function AskedSize(setup: Setup, input: PipelineInput): real {
    var p, m := FairValueOf(input).probability, input.marketPrice;
    match setup.mode
    case FixedNotional(amount) => amount
    case PercentOfEquity(pct) => Mul(pct, input.equity)
    case CappedKelly(fraction, most) =>
      Min(if 0.0 < m < 1.0 && p > m then input.equity * ((p - m) / (1.0 - m) * fraction) else 0.0, most)
  }

  lemma NegativeFractionStakesNothing(equity: real, p: real, m: real, fraction: real)
    requires equity >= 0.0 && fraction < 0.0
    ensures Sizing.KellyNotional(equity, p, m, fraction) == 0.0
    ensures 0.0 < m < 1.0 && p > m ==> equity * ((p - m) / (1.0 - m) * fraction) <= 0.0
  {
    if 0.0 < m < 1.0 {
      Sizing.OddsForm(p, m);
      QuotientSign(p - m, 1.0 - m);
      var f := (p - m) / (1.0 - m);
      if p > m {
        MulSign(f, -fraction);
        MulSign(equity, -(f * fraction));
        assert Mul(f, -fraction) == -(f * fraction) && Mul(equity, -(f * fraction)) == -(equity * (f * fraction));
      }
    }
  }

  lemma RawIsAsked(setup: Setup, input: PipelineInput)
    requires input.equity >= 0.0
    ensures var raw := Sizing.RawSize(SizingInputOf(setup, input));
            raw == AskedSize(setup, input) || (raw <= 0.0 && AskedSize(setup, input) <= 0.0)
  {
    hide FairValue.Compute, Gates.DepthUsdc, Sizing.KellyNotional;
    if setup.mode.CappedKelly? && setup.mode.fraction < 0.0 {
      NegativeFractionStakesNothing(input.equity, FairValueOf(input).probability, input.marketPrice,
          setup.mode.fraction);
    } else {
      hide Sizing.RawSize;
      Sizing.ModeAsks(SizingInputOf(setup, input));
    }
  }

  lemma AcceptedSize(setup: Setup, input: PipelineInput)
    ensures Evaluate(setup, input).Accept? ==>
              Evaluate(setup, input).intent.size == Sizing.Sized(SizingInputOf(setup, input)).notional != 0.0
  {
    hide FairValue.Compute, Edge.Compute, Gates.Rejections, Sizing.Sized, SizingInputOf;
  }

  /** The size in full: the least of what the mode asks for, the order limit, the rest of the
      position limit, a quarter of the book and half of the equity. An accepted intent has that
      size, and a candidate for which it is below 1 is rejected. */
  lemma CandidateIsSizedSo(setup: Setup, input: PipelineInput)
    ensures var depth := match input.book
                         case Some(b) => Gates.DepthUsdc(b.bids) + Gates.DepthUsdc(b.asks)
                         case None => 0.0;
            var least := Min(Min(AskedSize(setup, input), setup.risk.maxNotionalPerOrder),
                             Min(Max(setup.risk.maxPositionPerMarket - input.currentPositionNotional, 0.0),
                                 Min(depth / 4.0, input.equity / 2.0)));
            && Sizing.Sized(SizingInputOf(setup, input)).notional == (if least >= 1.0 then least else 0.0)
            && (Evaluate(setup, input).Accept? ==> Evaluate(setup, input).intent.size == least >= 1.0)
  {
    hide AskedSize, FairValue.Compute, Evaluate, Gates.DepthUsdc, Sizing.Sized, Sizing.RawSize;
    if input.equity >= 0.0 {
      RawIsAsked(setup, input);
    }
    Sizing.SizeInNumbers(SizingInputOf(setup, input));
    AcceptedSize(setup, input);
  }

  /** Which reasons a rejected candidate is given, by the thresholds of its own duration. One
      that passes every gate but is sized to nothing is called illiquid. */
  lemma RejectionReasons(setup: Setup, input: PipelineInput)
    requires Evaluate(setup, input).Reject?
    ensures var rs := Evaluate(setup, input).reasons;
            var t := if input.duration == FiveMin then setup.strategy.fiveMin else setup.strategy.fifteenMin;
            && UnsupportedMarket !in rs
            && (StaleFeed in rs <==> input.cexFeedHealthy ==>
                  input.lastCexTick.Some? && input.lastCexTick.value + t.staleFeedTolerance < input.now)
            && (StaleBook in rs <==> input.book.Some? ==>
                  input.book.value.timestamp + t.staleBookTolerance < input.now)
            && (InsufficientLiquidity in rs <==>
                  || (input.book.Some? && input.book.value.Depth() < t.minBookDepthUsdc)
                  || rs == [InsufficientLiquidity])
            && (BelowConfidence in rs <==> FairValueOf(input).confidence < t.minConfidence)
            && (BelowEdgeThreshold in rs <==> EdgeOf(setup, input).netEdge < t.minNetEdge)
            && (ContractLocked in rs <==> input.lockState != Unlocked)
            && (KillSwitchActive in rs <==> input.killSwitchActive)
            && (ExecutionUnhealthy in rs <==> !input.executionHealthy)
            && (MaxExposureReached in rs <==> input.currentPositions >= setup.risk.maxConcurrentPositions)
    ensures Evaluate(setup, input).contract == input.contract
  {
    hide Edge.Compute, FairValue.Compute, Sizing.Sized, Gates.Rejections, Gates.DepthUsdc, EdgeOf, FairValueOf;
    Gates.DataReasonsGiven(GateContextOf(setup, input), ThresholdsFor(setup, input));
    Gates.OtherReasonsGiven(GateContextOf(setup, input), ThresholdsFor(setup, input));
  }

  /** Without an order book the depth is taken as 0: the candidate is costed at the largest
      slippage and rejected, as stale but not as illiquid. */
  lemma NoBookIsStale(setup: Setup, input: PipelineInput)
    requires input.book.None?
    ensures EdgeOf(setup, input).costs.entrySlippage == 0.05 == EdgeOf(setup, input).costs.exitSlippage
    ensures var d := Evaluate(setup, input);
            d.Reject? && d.contract == input.contract
            && StaleBook in d.reasons && InsufficientLiquidity !in d.reasons
  {
    hide FairValue.Compute, Gates.Rejections;
    Edge.SlippageInNumbers(setup.risk.maxNotionalPerOrder, BookDepth(input));
    Gates.DataReasonsGiven(GateContextOf(setup, input), ThresholdsFor(setup, input));
  }

  function WithOtherThresholds(setup: Setup, d: MarketDuration, t: Gates.Thresholds): Setup {
    setup.(strategy := if d == FiveMin then setup.strategy.(fifteenMin := t) else setup.strategy.(fiveMin := t))
  }

  /** The thresholds of the other duration never matter. */
  lemma OtherThresholdsAreIgnored(setup: Setup, input: PipelineInput, t: Gates.Thresholds)
    ensures Evaluate(WithOtherThresholds(setup, input.duration, t), input) == Evaluate(setup, input)
  {
    hide Edge.Compute, FairValue.Compute, Sizing.Sized, Gates.Rejections;
    var other := WithOtherThresholds(setup, input.duration, t);
    assert EdgeOf(other, input) == EdgeOf(setup, input);
    assert SizingInputOf(other, input) == SizingInputOf(setup, input);
    assert GateContextOf(other, input) == GateContextOf(setup, input);
  }

  /** Costing is conservative: re-costed at its actual size, an accepted intent keeps at
      least the net edge it reports, which is at least the configured minimum. */
  lemma RecostingKeepsTheEdge(setup: Setup, input: PipelineInput)
    requires Evaluate(setup, input).Accept?
    ensures var i := Evaluate(setup, input).intent;
            && EdgeAt(setup, input, i.size).netEdge >= i.netEdge
            && (input.duration == FiveMin ==> i.netEdge >= setup.strategy.fiveMin.minNetEdge)
            && (input.duration == FifteenMin ==> i.netEdge >= setup.strategy.fifteenMin.minNetEdge)
  {
    hide Edge.Compute, FairValue.Compute, Sizing.Sized, Gates.Rejections;
    AcceptedIntent(setup, input);
    var i := Evaluate(setup, input).intent;
    var e := EdgeInputAt(setup, input, setup.risk.maxNotionalPerOrder);
    Edge.SmallerOrderKeepsMoreEdge(e, i.size);
    assert e.(notional := i.size) == EdgeInputAt(setup, input, i.size);
  }

  /** The fee written into the intent is the one of the largest order. It is never below
      the fee at the actual size, and equal to it exactly for an order of full size or a
      rate of zero; a simulated fill charges it unchanged. */
  lemma EntryFeeIsForTheLargestOrder(setup: Setup, input: PipelineInput)
    requires Evaluate(setup, input).Accept?
    requires Edge.EffectiveRate(setup.fees, input.marketPrice) >= 0.0
    ensures var i := Evaluate(setup, input).intent;
            var rate := Edge.EffectiveRate(setup.fees, input.marketPrice);
            var atSize := Edge.FeeUsdc(setup.fees, i.size, input.marketPrice);
            && i.costs.entryFeeUsdc >= atSize
            && (i.costs.entryFeeUsdc == atSize <==> i.size == setup.risk.maxNotionalPerOrder || rate == 0.0)
  {
    hide FairValue.Compute, Sizing.Sized, Gates.Rejections, Edge.EffectiveRate, Edge.FeeUsdc, Edge.FeeFraction;
    AcceptedIntent(setup, input);
    var most := setup.risk.maxNotionalPerOrder;
    assert Evaluate(setup, input).intent.costs.entryFeeUsdc == Edge.FeeUsdc(setup.fees, most, input.marketPrice);
    hide Evaluate, Edge.Compute;
    FeeGrowsWithSize(setup.fees, Evaluate(setup, input).intent.size, most, input.marketPrice);
  }

  lemma FeeGrowsWithSize(fees: Edge.FeeSchedule, small: real, large: real, p: real)
    requires small <= large && Edge.EffectiveRate(fees, p) >= 0.0
    ensures Edge.FeeUsdc(fees, large, p) >= Edge.FeeUsdc(fees, small, p)
    ensures Edge.FeeUsdc(fees, large, p) == Edge.FeeUsdc(fees, small, p)
        <==> small == large || Edge.EffectiveRate(fees, p) == 0.0
  {
    hide Edge.EffectiveRate;
    var rate := Edge.EffectiveRate(fees, p);
    assert Edge.FeeUsdc(fees, large, p) == Mul(large, rate) && Edge.FeeUsdc(fees, small, p) == Mul(small, rate);
    hide Mul, Edge.FeeUsdc;
    MulAdd(rate, large, small);
    MulSign(large - small, rate);
  }

  /** The sized notional becomes the intent's size in shares, so what is reserved is that
      notional times the price: the full sized notional only at a price of 1. */
  lemma ReservedIsSizedTimesPrice(setup: Setup, input: PipelineInput)
    requires Evaluate(setup, input).Accept?
    ensures var i := Evaluate(setup, input).intent;
            var sized := Sizing.Sized(SizingInputOf(setup, input)).notional;
            && i.Notional() == Mul(sized, input.marketPrice)
            && (i.Notional() == sized <==> input.marketPrice == 1.0)
  {
    hide FairValue.Compute, Edge.Compute, Sizing.Sized, Gates.Rejections;
    AcceptedIntent(setup, input);
    var sized := Evaluate(setup, input).intent.size;
    MulAdd(sized, input.marketPrice, 1.0);
    MulSign(sized, input.marketPrice - 1.0);
    assert Mul(sized, 1.0) == sized;
  }

  /** The edge as the chosen side sees it. */
  function SignedEdge(i: OrderIntent): real {
    if i.side == Buy then i.fairValue - i.targetPrice else i.targetPrice - i.fairValue
  }

  /** With nonnegative rates, prices in [0, 1] and a positive threshold the side points
      toward fair value, and what it stands to gain is the reported gross edge. */
  lemma SidePointsToFairValue(setup: Setup, input: PipelineInput)
    requires Evaluate(setup, input).Accept?
    requires setup.fees.takerRate >= 0.0 && 0.0 <= input.marketPrice <= 1.0
    requires ThresholdsFor(setup, input).minNetEdge > 0.0
    ensures var i := Evaluate(setup, input).intent;
            && SignedEdge(i) == i.grossEdge >= i.netEdge > 0.0
            && i.fairValue != i.targetPrice
  {
    AcceptedIntent(setup, input);
    var e := EdgeInputAt(setup, input, setup.risk.maxNotionalPerOrder);
    assert 0.01 <= e.fairValueProb <= 0.99;
    hide FairValue.Compute, Sizing.Sized, Gates.Rejections;
    Edge.CostsNeverHelp(e);
    assert Edge.Compute(e).grossEdge == Abs(e.fairValueProb - e.marketPrice);
    hide Edge.Compute;
  }

  // ----- Mirror symmetry --------------------------------------------------------------

  /** The same market seen through its other outcome token. */
  function Mirror(input: PipelineInput, twin: ContractKey): PipelineInput {
    input.(contract := twin, outcome := FairValue.Flip(input.outcome), marketPrice := 1.0 - input.marketPrice)
  }

  function OtherSide(s: Side): Side {
    if s == Buy then Sell else Buy
  }

  lemma MirrorParts(setup: Setup, input: PipelineInput, twin: ContractKey)
    ensures FairValueOf(Mirror(input, twin)).probability == 1.0 - FairValueOf(input).probability
    ensures EdgeOf(setup, Mirror(input, twin)) == EdgeOf(setup, input)
    ensures GateContextOf(setup, Mirror(input, twin)) == GateContextOf(setup, input)
    ensures !setup.mode.CappedKelly? ==>
              Sizing.Sized(SizingInputOf(setup, Mirror(input, twin))) == Sizing.Sized(SizingInputOf(setup, input))
  {
    hide Edge.Compute, FairValue.Compute;
    FairValue.OutcomesAreComplementary(
      FairValue.FairValueInput(
        input.outcome, input.duration, input.spotPrice, input.windowOpenPrice, input.shortDelta,
        input.momentum, input.volatility, input.secondaryPrice));
    Edge.EdgeIsSymmetric(EdgeInputAt(setup, input, setup.risk.maxNotionalPerOrder));
    if !setup.mode.CappedKelly? {
      SameSize(SizingInputOf(setup, input), SizingInputOf(setup, Mirror(input, twin)));
    }
  }

  lemma SameSize(a: Sizing.SizingInput, b: Sizing.SizingInput)
    requires !a.mode.CappedKelly?
    requires b == a.(fairValueProb := b.fairValueProb, marketPrice := b.marketPrice)
    ensures Sizing.Sized(a) == Sizing.Sized(b)
  {
    hide Sizing.RawSize, Sizing.Capped, Sizing.ClipsUpTo;
    SameRawSize(a, b);
    SameCaps(a, b, 4);
  }

  lemma {:induction false} SameCaps(a: Sizing.SizingInput, b: Sizing.SizingInput, k: nat)
    requires !a.mode.CappedKelly? && k <= 4
    requires b == a.(fairValueProb := b.fairValueProb, marketPrice := b.marketPrice)
    ensures Sizing.Capped(a, k) == Sizing.Capped(b, k) && Sizing.ClipsUpTo(a, k) == Sizing.ClipsUpTo(b, k)
  {
    hide Sizing.Cap, Sizing.RawSize;
    if k == 0 {
      SameRawSize(a, b);
    } else {
      SameCaps(a, b, k - 1);
      SameCap(Sizing.ALL_CAPS[k - 1], a, b);
    }
  }

  lemma SameCap(r: Sizing.ClipReason, a: Sizing.SizingInput, b: Sizing.SizingInput)
    requires b == a.(fairValueProb := b.fairValueProb, marketPrice := b.marketPrice)
    ensures Sizing.Cap(r, a) == Sizing.Cap(r, b)
  {
  }

  lemma SameRawSize(a: Sizing.SizingInput, b: Sizing.SizingInput)
    requires !a.mode.CappedKelly?
    requires b == a.(fairValueProb := b.fairValueProb, marketPrice := b.marketPrice)
    ensures Sizing.RawSize(a) == Sizing.RawSize(b)
  {
  }

  /** For fixed and percentage sizing the two outcomes of a market are judged alike:
      same rejection and reasons, or same edge, costs and size at mirrored prices. The
      sides are opposite exactly when the fair value differs from the market price. */
  lemma MirrorSymmetry(setup: Setup, input: PipelineInput, twin: ContractKey)
    requires !setup.mode.CappedKelly?
    ensures match Evaluate(setup, input)
            case Reject(_, reasons) =>
              Evaluate(setup, Mirror(input, twin)) == Reject(twin, reasons)
            case Accept(i) =>
              var m := Evaluate(setup, Mirror(input, twin));
              && m.Accept?
              && m.intent == i.(contract := twin, side := m.intent.side,
                                targetPrice := 1.0 - i.targetPrice, fairValue := 1.0 - i.fairValue)
              && (m.intent.side == OtherSide(i.side) <==> i.fairValue != i.targetPrice)
  {
    hide Edge.Compute, FairValue.Compute, Sizing.Sized, Gates.Rejections;
    MirrorParts(setup, input, twin);
  }

  /** And under the conditions of normal operation every accepted pair is opposite. */
  lemma MirroredSidesAreOpposite(setup: Setup, input: PipelineInput, twin: ContractKey)
    requires !setup.mode.CappedKelly?
    requires setup.fees.takerRate >= 0.0 && 0.0 <= input.marketPrice <= 1.0
    requires ThresholdsFor(setup, input).minNetEdge > 0.0
    requires Evaluate(setup, input).Accept?
    ensures Evaluate(setup, Mirror(input, twin)).Accept?
    ensures Evaluate(setup, Mirror(input, twin)).intent.side == OtherSide(Evaluate(setup, input).intent.side)
  {
    hide Evaluate;
    MirrorSymmetry(setup, input, twin);
    SidePointsToFairValue(setup, input);
  }

  // ----- Kelly sizing -----------------------------------------------------------------

  /** Under Kelly sizing the pipeline never sells: it accepts only below fair value. */
  lemma KellyOnlyBuys(setup: Setup, input: PipelineInput)
    requires setup.mode.CappedKelly? && Evaluate(setup, input).Accept?
    ensures 0.0 < input.marketPrice < 1.0 && FairValueOf(input).probability > input.marketPrice
    ensures Evaluate(setup, input).intent.side == Buy
  {
    hide Edge.Compute, FairValue.Compute, Gates.Rejections, Sizing.KellyNotional, Sizing.Capped, Sizing.ClipsUpTo;
    var s := SizingInputOf(setup, input);
    assert Sizing.Sized(s).notional != 0.0;
    Sizing.TradedSizeRespectsCaps(s);
    hide Sizing.Sized;
    Sizing.KellyStakesOnlyAbove(s.equity, s.fairValueProb, s.marketPrice, setup.mode.fraction);
  }

  /** Same verdict, and the same reasons for a rejection. */
  predicate JudgedAlike(a: SignalDecision, b: SignalDecision) {
    (a.Accept? <==> b.Accept?) && (a.Reject? && b.Reject? ==> a.reasons == b.reasons)
  }

  lemma KellyNeverTakesBoth(setup: Setup, input: PipelineInput, twin: ContractKey)
    requires setup.mode.CappedKelly?
    ensures !(Evaluate(setup, input).Accept? && Evaluate(setup, Mirror(input, twin)).Accept?)
  {
    hide Evaluate, EdgeOf, GateContextOf, SizingInputOf;
    MirrorParts(setup, input, twin);
    if Evaluate(setup, input).Accept? && Evaluate(setup, Mirror(input, twin)).Accept? {
      KellyOnlyBuys(setup, input);
      KellyOnlyBuys(setup, Mirror(input, twin));
      assert false;
    }
  }

  /** The exact place of Kelly sizing in the symmetry: the two outcomes are judged alike if
      and only if neither is accepted. */
  lemma KellyTwinsAlikeIff(setup: Setup, input: PipelineInput, twin: ContractKey)
    requires setup.mode.CappedKelly?
    ensures JudgedAlike(Evaluate(setup, input), Evaluate(setup, Mirror(input, twin)))
            <==> !Evaluate(setup, input).Accept? && !Evaluate(setup, Mirror(input, twin)).Accept?
  {
    KellyNeverTakesBoth(setup, input, twin);
    hide Edge.Compute, FairValue.Compute, Gates.Rejections, Sizing.Sized, EdgeOf;
    MirrorParts(setup, input, twin);
  }

  // ----- A candidate that is accepted ----------------------------------------------------

  const PLAIN_SETUP := Setup(
    StrategyConfig(Gates.Thresholds(0.02, 0.5, 100.0, 1000, 1000), Gates.Thresholds(0.02, 0.5, 100.0, 1000, 1000), 500),
    RiskConfig(10.0, 5, 500.0, 100.0, 200.0, 5, 25.0),
    Edge.FeeSchedule(0.0, 0.01, false),
    Sizing.FixedNotional(10.0))

  /** Bitcoin one percent up on its window, a deep book quoting 0.625. */
  function RisingCandidate(c: ContractKey): PipelineInput {
    PipelineInput(
      c, BTC, Up, FiveMin, 101.0, 100.0, 0.01, None, None, None,
      Some(Gates.BookSnapshot([Gates.PriceLevel(0.625, 1600.0)], [], 0)), 0.625,
      true, Some(0), Unlocked, false, true, 0, 0.0, 1000.0, 0, 0)
  }

  /** The pipeline does accept: a buy of the fixed size, judged worth 0.8. */
  lemma RisingCandidateIsBought(c: ContractKey)
    ensures var d := Evaluate(PLAIN_SETUP, RisingCandidate(c));
            && d.Accept?
            && d.intent.side == Buy && d.intent.fairValue == 0.8 && d.intent.size == 10.0
            && d.intent.grossEdge == 0.175 && d.intent.netEdge > 0.15
  {
    var input := RisingCandidate(c);
    RisingFairValue(c);
    assert BookDepth(input) == 1000.0;
    assert EdgeOf(PLAIN_SETUP, input).grossEdge == 0.175;
    RisingEdge(c);
    hide Edge.Compute, FairValue.Compute, EdgeOf;
    Gates.PassingSignal(GateContextOf(PLAIN_SETUP, input), ThresholdsFor(PLAIN_SETUP, input));
    hide Gates.Rejections;
    RisingSize(c);
  }

  lemma RisingFairValue(c: ContractKey)
    ensures FairValueOf(RisingCandidate(c)) == FairValue.FairValueEstimate(0.8, 0.8)
  {
    var f := FairValue.FairValueInput(Up, FiveMin, 101.0, 100.0, 0.01, None, None, None);
    assert FairValue.MovePct(f) == 0.01;
    assert FairValue.RawShift(f) == 0.03;
  }

  lemma RisingEdge(c: ContractKey)
    ensures EdgeOf(PLAIN_SETUP, RisingCandidate(c)).netEdge > 0.15
  {
    RisingFairValue(c);
    var e := EdgeInputAt(PLAIN_SETUP, RisingCandidate(c), PLAIN_SETUP.risk.maxNotionalPerOrder);
    Edge.NetEdgeAddsUp(e);
    assert e.bookDepthUsdc == 1000.0 && e.notional == 25.0 && e.fairValueProb == 0.8;
    assert Edge.SlippageFromDepth(25.0, 1000.0).entry == 0.0005;
  }

  lemma RisingSize(c: ContractKey)
    ensures Sizing.Sized(SizingInputOf(PLAIN_SETUP, RisingCandidate(c))).notional == 10.0
  {
    var s := SizingInputOf(PLAIN_SETUP, RisingCandidate(c));
    assert Sizing.RawSize(s) == 10.0 && s.bookDepthUsdc == 1000.0;
    forall i | 0 <= i < 4
      ensures Sizing.Cap(Sizing.ALL_CAPS[i], s) >= 10.0
    {
    }
  }
}
