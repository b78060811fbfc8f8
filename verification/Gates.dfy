/** Signal gates: every gate is evaluated, and all reasons are reported. */
module Gates {
  import opened Domain

  datatype PriceLevel = PriceLevel(price: real, size: real)

  function DepthUsdc(levels: seq<PriceLevel>): real {
    if levels == [] then 0.0
    else DepthUsdc(levels[..|levels| - 1]) + levels[|levels| - 1].price * levels[|levels| - 1].size
  }

  datatype BookSnapshot = BookSnapshot(bids: seq<PriceLevel>, asks: seq<PriceLevel>, timestamp: int) {
    function Depth(): real { DepthUsdc(bids) + DepthUsdc(asks) }
  }

  datatype Thresholds = Thresholds(
    minNetEdge: real,
    minConfidence: real,
    minBookDepthUsdc: real,
    staleFeedTolerance: nat,
    staleBookTolerance: nat)

  datatype GateContext = GateContext(
    isSupportedMarket: bool,
    cexFeedHealthy: bool,
    lastCexTick: Option<int>,
    book: Option<BookSnapshot>,
    confidence: real,
    netEdge: real,
    lockState: LockState,
    killSwitchActive: bool,
    executionHealthy: bool,
    currentPositions: nat,
    maxConcurrentPositions: nat,
    now: int)

  datatype GateResult = GateResult(rejections: seq<RejectReason>, passed: bool)

  const ALL_GATES: seq<RejectReason> := [
    UnsupportedMarket, StaleFeed, StaleBook, InsufficientLiquidity, BelowConfidence, BelowEdgeThreshold,
    ContractLocked, KillSwitchActive, ExecutionUnhealthy, MaxExposureReached]

  /** When a gate rejects. */
  predicate Rejects(gate: RejectReason, ctx: GateContext, t: Thresholds) {
    match gate
    case UnsupportedMarket => !ctx.isSupportedMarket
    case StaleFeed => !ctx.cexFeedHealthy
        || (ctx.lastCexTick.Some? && ctx.now - ctx.lastCexTick.value > t.staleFeedTolerance)
    case StaleBook => ctx.book.None? || ctx.now - ctx.book.value.timestamp > t.staleBookTolerance
    case InsufficientLiquidity => ctx.book.Some? && ctx.book.value.Depth() < t.minBookDepthUsdc
    case BelowConfidence => ctx.confidence < t.minConfidence
    case BelowEdgeThreshold => ctx.netEdge < t.minNetEdge
    case ContractLocked => ctx.lockState != Unlocked
    case KillSwitchActive => ctx.killSwitchActive
    case ExecutionUnhealthy => !ctx.executionHealthy
    case MaxExposureReached => ctx.currentPositions >= ctx.maxConcurrentPositions
  }

  /** The rejecting gates among `gates`, in order. */
  function Rejections(gates: seq<RejectReason>, ctx: GateContext, t: Thresholds): (rs: seq<RejectReason>)
    ensures forall g :: g in rs <==> g in gates && Rejects(g, ctx, t)
  {
    if gates == [] then []
    else
      var before, g := gates[..|gates| - 1], gates[|gates| - 1];
      assert gates == before + [g];
      var rs := Rejections(before, ctx, t);
      if Rejects(g, ctx, t) then rs + [g] else rs
  }

  /** The rejections of the first k gates. */
  function UpTo(k: nat, ctx: GateContext, t: Thresholds): seq<RejectReason>
    requires k <= |ALL_GATES|
  {
    Rejections(ALL_GATES[..k], ctx, t)
  }

  lemma NextGate(k: nat, gate: RejectReason, ctx: GateContext, t: Thresholds)
    requires k < 10 && ALL_GATES[k] == gate
    ensures UpTo(k + 1, ctx, t) == if Rejects(gate, ctx, t) then UpTo(k, ctx, t) + [gate] else UpTo(k, ctx, t)
  {
    assert ALL_GATES[..k + 1][..k] == ALL_GATES[..k];
  }

  /** A signal passes exactly when every gate lets it through, and otherwise carries
      exactly the gates that did not. */
  method Evaluate(ctx: GateContext, t: Thresholds) returns (r: GateResult)
    ensures r.rejections == Rejections(ALL_GATES, ctx, t)
    ensures r.passed <==> forall g :: g in ALL_GATES ==> !Rejects(g, ctx, t)
  {
    var reasons := DataGates(ctx, t);
    reasons := StrategyGates(reasons, ctx, t);
    reasons := RiskGates(reasons, ctx, t);
    GateEnds(ctx, t);
    PassesIff(ctx, t);
    r := GateResult(reasons, reasons == []);
  }

  /** Market support and fresh, deep enough data. */
  method DataGates(ctx: GateContext, t: Thresholds) returns (reasons: seq<RejectReason>)
    ensures reasons == UpTo(4, ctx, t)
  {
    hide Rejections, UpTo;
    reasons := [];
    GateEnds(ctx, t);

    if !ctx.isSupportedMarket {
      reasons := reasons + [UnsupportedMarket];
    }
    assert reasons == UpTo(1, ctx, t) by { NextGate(0, UnsupportedMarket, ctx, t); }

    if !ctx.cexFeedHealthy {
      reasons := reasons + [StaleFeed];
    } else if ctx.lastCexTick.Some? {
      var age := ctx.now - ctx.lastCexTick.value;
      if age > t.staleFeedTolerance {
        reasons := reasons + [StaleFeed];
      }
    }
    assert reasons == UpTo(2, ctx, t) by { NextGate(1, StaleFeed, ctx, t); }

    match ctx.book {
      case None =>
        reasons := reasons + [StaleBook];
      case Some(book) =>
        var bookAge := ctx.now - book.timestamp;
        if bookAge > t.staleBookTolerance {
          reasons := reasons + [StaleBook];
        }
        assert reasons == UpTo(3, ctx, t) by { NextGate(2, StaleBook, ctx, t); }
        if book.Depth() < t.minBookDepthUsdc {
          reasons := reasons + [InsufficientLiquidity];
        }
    }
    assert reasons == UpTo(4, ctx, t) by {
      NextGate(2, StaleBook, ctx, t);
      NextGate(3, InsufficientLiquidity, ctx, t);
    }
  }

  /** Confidence, edge and the contract lock. */
  method StrategyGates(before: seq<RejectReason>, ctx: GateContext, t: Thresholds) returns (reasons: seq<RejectReason>)
    requires before == UpTo(4, ctx, t)
    ensures reasons == UpTo(7, ctx, t)
  {
    hide Rejections, UpTo;
    reasons := before;
    if ctx.confidence < t.minConfidence {
      reasons := reasons + [BelowConfidence];
    }
    assert reasons == UpTo(5, ctx, t) by { NextGate(4, BelowConfidence, ctx, t); }

    if ctx.netEdge < t.minNetEdge {
      reasons := reasons + [BelowEdgeThreshold];
    }
    assert reasons == UpTo(6, ctx, t) by { NextGate(5, BelowEdgeThreshold, ctx, t); }

    if ctx.lockState != Unlocked {
      reasons := reasons + [ContractLocked];
    }
    assert reasons == UpTo(7, ctx, t) by { NextGate(6, ContractLocked, ctx, t); }
  }

  /** Kill switch, execution health and position count. */
  method RiskGates(before: seq<RejectReason>, ctx: GateContext, t: Thresholds) returns (reasons: seq<RejectReason>)
    requires before == UpTo(7, ctx, t)
    ensures reasons == UpTo(10, ctx, t)
  {
    hide Rejections, UpTo;
    reasons := before;
    if ctx.killSwitchActive {
      reasons := reasons + [KillSwitchActive];
    }
    assert reasons == UpTo(8, ctx, t) by { NextGate(7, KillSwitchActive, ctx, t); }

    if !ctx.executionHealthy {
      reasons := reasons + [ExecutionUnhealthy];
    }
    assert reasons == UpTo(9, ctx, t) by { NextGate(8, ExecutionUnhealthy, ctx, t); }

    if ctx.currentPositions >= ctx.maxConcurrentPositions {
      reasons := reasons + [MaxExposureReached];
    }
    assert reasons == UpTo(10, ctx, t) by { NextGate(9, MaxExposureReached, ctx, t); }
  }

  lemma GateEnds(ctx: GateContext, t: Thresholds)
    ensures UpTo(0, ctx, t) == [] && UpTo(10, ctx, t) == Rejections(ALL_GATES, ctx, t)
  {
    assert ALL_GATES[..10] == ALL_GATES;
  }

  lemma PassesIff(ctx: GateContext, t: Thresholds)
    ensures Rejections(ALL_GATES, ctx, t) == [] <==> forall g :: g in ALL_GATES ==> !Rejects(g, ctx, t)
  {
    var rs := Rejections(ALL_GATES, ctx, t);
    if rs != [] {
      assert rs[0] in rs;
    }
  }

  /** What a passing signal is known to satisfy, gate by gate. */
  lemma PassingSignal(ctx: GateContext, t: Thresholds)
    ensures Rejections(ALL_GATES, ctx, t) == [] <==>
              && ctx.isSupportedMarket
              && ctx.cexFeedHealthy
              && (ctx.lastCexTick.Some? ==> ctx.now - ctx.lastCexTick.value <= t.staleFeedTolerance)
              && ctx.book.Some?
              && ctx.now - ctx.book.value.timestamp <= t.staleBookTolerance
              && ctx.book.value.Depth() >= t.minBookDepthUsdc
              && ctx.confidence >= t.minConfidence
              && ctx.netEdge >= t.minNetEdge
              && ctx.lockState == Unlocked
              && !ctx.killSwitchActive
              && ctx.executionHealthy
              && ctx.currentPositions < ctx.maxConcurrentPositions
  {
    hide Rejections;
    PassesIff(ctx, t);
    forall g
      ensures g in ALL_GATES
    {
      EveryGateIsListed(g);
    }
    assert Rejects(UnsupportedMarket, ctx, t) || Rejects(StaleFeed, ctx, t) || Rejects(StaleBook, ctx, t)
        || Rejects(InsufficientLiquidity, ctx, t) || Rejects(BelowConfidence, ctx, t)
        || Rejects(BelowEdgeThreshold, ctx, t)
        || Rejects(ContractLocked, ctx, t) || Rejects(KillSwitchActive, ctx, t) || Rejects(ExecutionUnhealthy, ctx, t)
        || Rejects(MaxExposureReached, ctx, t) || forall g :: g in ALL_GATES ==> !Rejects(g, ctx, t);
  }

  lemma EveryGateIsListed(g: RejectReason)
    ensures g in ALL_GATES
  {
    assert ALL_GATES[0] == UnsupportedMarket && ALL_GATES[1] == StaleFeed && ALL_GATES[2] == StaleBook;
    assert ALL_GATES[3] == InsufficientLiquidity && ALL_GATES[4] == BelowConfidence
        && ALL_GATES[5] == BelowEdgeThreshold;
    assert ALL_GATES[6] == ContractLocked && ALL_GATES[7] == KillSwitchActive && ALL_GATES[8] == ExecutionUnhealthy;
    assert ALL_GATES[9] == MaxExposureReached;
  }

  lemma ReasonIffRejects(ctx: GateContext, t: Thresholds)
    ensures forall g :: g in Rejections(ALL_GATES, ctx, t) <==> Rejects(g, ctx, t)
  {
    hide Rejects;
    forall g
      ensures g in Rejections(ALL_GATES, ctx, t) <==> Rejects(g, ctx, t)
    {
      EveryGateIsListed(g);
    }
  }

  /** And reason by reason: when a rejected signal complains about the market or its data. */
  lemma DataReasonsGiven(ctx: GateContext, t: Thresholds)
    ensures UnsupportedMarket in Rejections(ALL_GATES, ctx, t) <==> !ctx.isSupportedMarket
    ensures StaleFeed in Rejections(ALL_GATES, ctx, t) <==>
              ctx.cexFeedHealthy ==> ctx.lastCexTick.Some? && ctx.lastCexTick.value + t.staleFeedTolerance < ctx.now
    ensures StaleBook in Rejections(ALL_GATES, ctx, t) <==>
              ctx.book.Some? ==> ctx.book.value.timestamp + t.staleBookTolerance < ctx.now
    ensures InsufficientLiquidity in Rejections(ALL_GATES, ctx, t) <==>
              ctx.book.Some? && DepthUsdc(ctx.book.value.bids) + DepthUsdc(ctx.book.value.asks) < t.minBookDepthUsdc
  {
    hide Rejections, DepthUsdc;
    ReasonIffRejects(ctx, t);
  }

  /** And when it complains about the estimate, the contract or the state of the bot. */
  lemma OtherReasonsGiven(ctx: GateContext, t: Thresholds)
    ensures BelowConfidence in Rejections(ALL_GATES, ctx, t) <==> ctx.confidence < t.minConfidence
    ensures BelowEdgeThreshold in Rejections(ALL_GATES, ctx, t) <==> ctx.netEdge < t.minNetEdge
    ensures ContractLocked in Rejections(ALL_GATES, ctx, t) <==> ctx.lockState == Locked || ctx.lockState == Cooldown
    ensures KillSwitchActive in Rejections(ALL_GATES, ctx, t) <==> ctx.killSwitchActive
    ensures ExecutionUnhealthy in Rejections(ALL_GATES, ctx, t) <==> !ctx.executionHealthy
    ensures MaxExposureReached in Rejections(ALL_GATES, ctx, t) <==>
              ctx.currentPositions >= ctx.maxConcurrentPositions
  {
    hide Rejections, DepthUsdc;
    ReasonIffRejects(ctx, t);
  }
}
