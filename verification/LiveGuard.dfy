/** The guard for tiny live orders, and its tightened risk limits. */
module LiveGuard {
  import opened Domain
  import opened Drawdown
  import opened Exposure
  import Limits

  datatype LiveValidationConfig = LiveValidationConfig(
    maxNotional: real,
    maxConcurrent: nat,
    maxGrossExposure: real,
    allowedAssets: seq<Asset>,
    allowedDurations: seq<MarketDuration>,
    maxDailyLoss: real,
    maxConsecutiveLosses: nat,
    requireOperatorAck: bool)

  datatype GuardReject =
    | OperatorNotAcked
    | AssetNotAllowed(asset: Asset)
    | DurationNotAllowed(duration: MarketDuration)
    | NotionalTooLarge(requested: real, limit: real)
    | ExposureLimitExceeded(exposure: real, exposureLimit: real)
    | ConcurrentLimitExceeded(positions: nat, positionLimit: nat)

  class LiveGuard {
    const config: LiveValidationConfig
    var operatorAcked: bool

    constructor (config: LiveValidationConfig)
      ensures this.config == config && operatorAcked == !config.requireOperatorAck
    {
      this.config := config;
      operatorAcked := !config.requireOperatorAck;
    }

    method OperatorAck()
      modifies this
      ensures operatorAcked
    {
      operatorAcked := true;
    }

    /** Passes exactly the trades inside every limit; otherwise names a limit that is
        really exceeded. */
    method Check(asset: Asset, duration: MarketDuration, notional: real, exposure: real, positions: nat)
      returns (r: Option<GuardReject>)
      ensures r.None? <==>
                && operatorAcked
                && (config.allowedAssets == [] || asset in config.allowedAssets)
                && (config.allowedDurations == [] || duration in config.allowedDurations)
                && notional <= config.maxNotional
                && exposure + notional <= config.maxGrossExposure
                && positions < config.maxConcurrent
      ensures r == Some(OperatorNotAcked) ==> !operatorAcked
      ensures r.Some? && r.value.AssetNotAllowed? ==>
                r.value.asset == asset && config.allowedAssets != [] && asset !in config.allowedAssets
      ensures r.Some? && r.value.DurationNotAllowed? ==>
                r.value.duration == duration && config.allowedDurations != [] && duration !in config.allowedDurations
      ensures r.Some? && r.value.NotionalTooLarge? ==>
          r.value.requested == notional > r.value.limit == config.maxNotional
      ensures r.Some? && r.value.ExposureLimitExceeded? ==>
                r.value.exposure == exposure + notional > r.value.exposureLimit == config.maxGrossExposure
      ensures r.Some? && r.value.ConcurrentLimitExceeded? ==>
                r.value.positions == positions >= r.value.positionLimit == config.maxConcurrent
    {
      if !operatorAcked {
        return Some(OperatorNotAcked);
      }
      if config.allowedAssets != [] && asset !in config.allowedAssets {
        return Some(AssetNotAllowed(asset));
      }
      if config.allowedDurations != [] && duration !in config.allowedDurations {
        return Some(DurationNotAllowed(duration));
      }
      if notional > config.maxNotional {
        return Some(NotionalTooLarge(notional, config.maxNotional));
      }
      var newExposure := exposure + notional;
      if newExposure > config.maxGrossExposure {
        return Some(ExposureLimitExceeded(newExposure, config.maxGrossExposure));
      }
      if positions >= config.maxConcurrent {
        return Some(ConcurrentLimitExceeded(positions, config.maxConcurrent));
      }
      r := None;
    }
  }

  function MinNat(a: nat, b: nat): nat {
    if a < b then a else b
  }

  function ApplyOverrides(live: LiveValidationConfig, base: RiskConfig): RiskConfig {
    RiskConfig(
      Min(live.maxNotional, base.maxPositionPerMarket),
      MinNat(live.maxConcurrent, base.maxConcurrentPositions),
      Min(live.maxGrossExposure, base.maxGrossExposure),
      Min(live.maxDailyLoss, base.maxDailyDrawdown),
      base.maxTotalDrawdown,
      MinNat(live.maxConsecutiveLosses, base.maxConsecutiveLosses),
      Min(live.maxNotional, base.maxNotionalPerOrder))
  }

  /** Over any run of trades, the overridden limits trip the kill switch no later than
      the base limits do. */
  lemma OverridesNeverDelayTheTrip(live: LiveValidationConfig, base: RiskConfig, equity: real, es: seq<Event>, now: int)
    requires SwitchAfter(base, equity, es, now).active
    ensures SwitchAfter(ApplyOverrides(live, base), equity, es, now).active
  {
    TighterTripsNoLater(ApplyOverrides(live, base), base, equity, es, now);
  }

  predicate LiveCapReached(live: LiveValidationConfig, es: seq<Event>) {
    Max(-PnlSinceReset(es), 0.0) >= live.maxDailyLoss || LossesSinceWin(es) >= live.maxConsecutiveLosses
  }

  /** And exactly when: the overridden switch is active iff the base limits tripped or, after
      some trade, the loss since the last reset or the losing streak had reached the live cap. */
  lemma OverriddenTripsIff(live: LiveValidationConfig, base: RiskConfig, equity: real, es: seq<Event>, now: int)
    ensures SwitchAfter(ApplyOverrides(live, base), equity, es, now).active <==>
              || SwitchAfter(base, equity, es, now).active
              || exists k :: 1 <= k <= |es| && es[k - 1].Trade? && LiveCapReached(live, es[..k])
  {
    var tight := ApplyOverrides(live, base);
    TripsExactlyOnBreach(base, equity, es, now);
    TripsExactlyOnBreach(tight, equity, es, now);
    forall k | 1 <= k <= |es|
      ensures Breached(tight, es[..k]) <==> Breached(base, es[..k]) || LiveCapReached(live, es[..k])
    {
    }
  }

  /** A trade passes the overridden limits exactly when it passes the base limits and the live
      caps on order, contract, count and gross exposure. */
  lemma OverridesAdmitIff(live: LiveValidationConfig, base: RiskConfig, snap: ExposureSnapshot,
          contractNotional: real, proposed: real)
    ensures Limits.Admits(ApplyOverrides(live, base), snap, contractNotional, proposed) <==>
              && Limits.Admits(base, snap, contractNotional, proposed)
              && proposed <= live.maxNotional && contractNotional + proposed <= live.maxNotional
              && snap.activeContracts + (if contractNotional == 0.0 then 1 else 0) <= live.maxConcurrent
              && snap.grossExposure + proposed <= live.maxGrossExposure
  {
  }

  /** A book within the base limits and inside the live caps on contracts, count and gross. */
  ghost predicate WithinBoth(live: LiveValidationConfig, base: RiskConfig, b: Book) {
    && Limits.Within(base, b)
    && (forall c :: c in b ==> b[c].Notional() <= live.maxNotional)
    && |b| <= live.maxConcurrent
    && Gross(b) <= live.maxGrossExposure
  }

  /** Reservations checked against the overridden limits keep the book inside base limits and
      live caps through any mix of operations. */
  lemma OverriddenRunsStayWithinBoth(live: LiveValidationConfig, base: RiskConfig, b: Book, ops: seq<Limits.Op>)
    requires WithinBoth(live, base, b) && Limits.PermittedRun(ApplyOverrides(live, base), b, ops)
    ensures WithinBoth(live, base, Limits.ApplyAll(b, ops))
  {
    hide Gross, Limits.PermittedRun, Limits.ApplyAll;
    Limits.RunStaysWithin(ApplyOverrides(live, base), b, ops);
  }
}
