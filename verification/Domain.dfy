/** Shared vocabulary of the bot: contracts, orders, signals and configuration. */
module Domain {

  datatype Option<+T> = None | Some(value: T)

  function Min(a: real, b: real): (r: real)
    ensures r <= a && r <= b && (r == a || r == b)
  {
    if a < b then a else b
  }

  function Max(a: real, b: real): (r: real)
    ensures r >= a && r >= b && (r == a || r == b)
  {
    if a > b then a else b
  }

  function Abs(a: real): (r: real)
    ensures r >= 0.0 && (r == a || r == -a)
  {
    if a < 0.0 then -a else a
  }

  /** The notional of a size at a price. */
  function Worth(size: real, price: real): real { size * price }

  // Products under a name, so that proofs can treat them as opaque terms.

  function Mul(a: real, b: real): real { a * b }

  lemma MulSign(a: real, b: real)
    ensures a >= 0.0 && b >= 0.0 ==> Mul(a, b) >= 0.0
    ensures a > 0.0 && b > 0.0 ==> Mul(a, b) > 0.0
    ensures Mul(a, b) == 0.0 <==> a == 0.0 || b == 0.0
  {
  }

  lemma MulMonotone(a: real, b: real, c: real)
    requires c >= 0.0
    ensures a <= b ==> Mul(a, c) <= Mul(b, c)
    ensures a < b && c > 0.0 ==> Mul(a, c) < Mul(b, c)
  {
  }

  lemma MulAdd(a: real, b: real, c: real)
    ensures Mul(a, b + c) == Mul(a, b) + Mul(a, c)
    ensures Mul(a, b - c) == Mul(a, b) - Mul(a, c)
    ensures Mul(b + c, a) == Mul(b, a) + Mul(c, a)
    ensures Mul(b - c, a) == Mul(b, a) - Mul(c, a)
  {
  }

  lemma QuotientSign(a: real, x: real)
    requires x > 0.0
    ensures (a / x > 0.0 <==> a > 0.0) && (a / x < 0.0 <==> a < 0.0)
    ensures Mul(a / x, x) == a
  {
  }

  lemma QuotientOrder(a: real, b: real, x: real)
    requires a <= b && x > 0.0
    ensures a / x <= b / x
    ensures a >= 0.0 ==> a / x >= 0.0
  {
  }

  // ----- Markets -----------------------------------------------------------

  datatype Asset = BTC | ETH
  datatype MarketDuration = FiveMin | FifteenMin
  datatype Outcome = Up | Down
  datatype Side = Buy | Sell
  datatype LockState = Unlocked | Locked | Cooldown

  type TokenId = string
  type ClientOrderId = string
  type VenueOrderId = string

  datatype ContractKey = ContractKey(marketId: string, tokenId: TokenId) {
    /** The text under which the source stores a contract in its hash maps. */
    function Display(): string { marketId + ":" + tokenId }
  }

  /** The separator is found right after the market id. */
  lemma SeparatorPosition(k: ContractKey)
    requires ':' !in k.marketId
    ensures |k.Display()| == |k.marketId| + 1 + |k.tokenId|
    ensures k.Display()[|k.marketId|] == ':'
    ensures forall i :: 0 <= i < |k.marketId| ==> k.Display()[i] != ':'
  {
  }

  /** Keying maps by the contract itself is the same as keying them by its text,
      provided no market id contains the separator. */
  lemma DisplayIsInjective(a: ContractKey, b: ContractKey)
    requires ':' !in a.marketId && ':' !in b.marketId
    requires a.Display() == b.Display()
    ensures a == b
  {
    SeparatorPosition(a);
    SeparatorPosition(b);
    var s := a.Display();
    assert |a.marketId| == |b.marketId|;
    assert a.marketId == s[..|a.marketId|] == b.marketId;
    assert a.tokenId == s[|a.marketId| + 1..] == b.tokenId;
  }

  // ----- Orders ------------------------------------------------------------

  datatype OrderState =
    | Pending
    | Acked
    | PartialFill
    | Filled
    | CancelPending
    | Canceled
    | Rejected
    | Retrying
    | Uncertain

  /** States in which an order blocks a second order on its contract. */
  predicate Live(s: OrderState) {
    s == Pending || s == Acked || s == PartialFill
  }

  /** States that free the contract's slot. */
  predicate Terminal(s: OrderState) {
    s == Filled || s == Canceled || s == Rejected
  }

  datatype OrderRecord = OrderRecord(
    clientOrderId: ClientOrderId,
    venueOrderId: Option<VenueOrderId>,
    contract: ContractKey,
    side: Side,
    price: real,
    size: real,
    filledSize: real,
    avgFillPrice: Option<real>,
    state: OrderState,
    retryCount: nat)

  datatype FillEvent = FillEvent(
    clientOrderId: ClientOrderId,
    contract: ContractKey,
    price: real,
    filledSize: real,
    remainingSize: real,
    fee: real)

  // ----- Signals -----------------------------------------------------------

  datatype RejectReason =
    | StaleFeed
    | StaleBook
    | InsufficientLiquidity
    | BelowEdgeThreshold
    | BelowConfidence
    | ContractLocked
    | KillSwitchActive
    | ExecutionUnhealthy
    | UnsupportedMarket
    | MaxExposureReached

  datatype CostSnapshot = CostSnapshot(
    feeRate: real,
    entryFeeUsdc: real,
    exitFeeUsdc: real,
    entrySlippage: real,
    exitSlippage: real,
    latencyDecay: real,
    totalCostFrac: real)

  datatype OrderIntent = OrderIntent(
    contract: ContractKey,
    asset: Asset,
    duration: MarketDuration,
    side: Side,
    targetPrice: real,
    size: real,
    fairValue: real,
    grossEdge: real,
    netEdge: real,
    costs: CostSnapshot,
    signalTimestamp: int) {
    /** The exposure an intent reserves before it is submitted. */
    function Notional(): real { Worth(size, targetPrice) }
  }

  datatype SignalDecision =
    | Accept(intent: OrderIntent)
    | Reject(contract: ContractKey, reasons: seq<RejectReason>)

  // ----- Configuration -----------------------------------------------------

  datatype RiskConfig = RiskConfig(
    maxPositionPerMarket: real,
    maxConcurrentPositions: nat,
    maxGrossExposure: real,
    maxDailyDrawdown: real,
    maxTotalDrawdown: real,
    maxConsecutiveLosses: nat,
    maxNotionalPerOrder: real)

  /** Durations are in milliseconds. */
  datatype ExecutionConfig = ExecutionConfig(
    maxRetryAttempts: nat,
    retryBackoffMs: nat,
    staleSignalThreshold: nat,
    maxConcurrentOrders: nat)
}
