/** Hard exposure limits. The engine offers the check; the event loop does not make it. */
module Limits {
  import opened Domain
  import opened Exposure

  datatype LimitKind = PositionPerMarket | ConcurrentPositions | GrossExposure | NotionalPerOrder

  datatype LimitViolation = LimitViolation(kind: LimitKind, current: real, limit: real)

  datatype LimitCheckResult = LimitCheckResult(passed: bool, violations: seq<LimitViolation>)

  /** What a proposed trade would bring one limited quantity to. */
  function Projected(kind: LimitKind, snap: ExposureSnapshot, contractNotional: real, proposed: real): real {
    match kind
    case PositionPerMarket => contractNotional + proposed
    case ConcurrentPositions => (snap.activeContracts + if contractNotional == 0.0 then 1 else 0) as real
    case GrossExposure => snap.grossExposure + proposed
    case NotionalPerOrder => proposed
  }

  function LimitOf(kind: LimitKind, config: RiskConfig): real {
    match kind
    case PositionPerMarket => config.maxPositionPerMarket
    case ConcurrentPositions => config.maxConcurrentPositions as real
    case GrossExposure => config.maxGrossExposure
    case NotionalPerOrder => config.maxNotionalPerOrder
  }

  predicate Exceeded(kind: LimitKind, config: RiskConfig, snap: ExposureSnapshot, contractNotional: real,
          proposed: real) {
    Projected(kind, snap, contractNotional, proposed) > LimitOf(kind, config)
  }

  const ALL_LIMITS: seq<LimitKind> := [PositionPerMarket, ConcurrentPositions, GrossExposure, NotionalPerOrder]

  /** The exceeded limits among `kinds`, in order, with the amounts that exceed them. */
  function Violations(kinds: seq<LimitKind>, config: RiskConfig, snap: ExposureSnapshot, contractNotional: real,
          proposed: real)
    : (vs: seq<LimitViolation>)
    ensures vs == [] <==> forall k :: k in kinds ==> !Exceeded(k, config, snap, contractNotional, proposed)
  {
    if kinds == [] then []
    else
      var before, k := kinds[..|kinds| - 1], kinds[|kinds| - 1];
      assert kinds == before + [k];
      Violations(before, config, snap, contractNotional, proposed) +
      if Exceeded(k, config, snap, contractNotional, proposed)
      then [LimitViolation(k, Projected(k, snap, contractNotional, proposed), LimitOf(k, config))]
      else []
  }

  predicate Admits(config: RiskConfig, snap: ExposureSnapshot, contractNotional: real, proposed: real) {
    && contractNotional + proposed <= config.maxPositionPerMarket
    && snap.activeContracts + (if contractNotional == 0.0 then 1 else 0) <= config.maxConcurrentPositions
    && snap.grossExposure + proposed <= config.maxGrossExposure
    && proposed <= config.maxNotionalPerOrder
  }

  lemma AdmitsIffNothingExceeded(config: RiskConfig, snap: ExposureSnapshot, contractNotional: real, proposed: real)
    ensures Admits(config, snap, contractNotional, proposed)
            <==> forall k :: k in ALL_LIMITS ==> !Exceeded(k, config, snap, contractNotional, proposed)
  {
    assert PositionPerMarket in ALL_LIMITS && ConcurrentPositions in ALL_LIMITS
        && GrossExposure in ALL_LIMITS && NotionalPerOrder in ALL_LIMITS;
  }

  method Check(config: RiskConfig, snap: ExposureSnapshot, contractNotional: real, proposed: real)
    returns (r: LimitCheckResult)
    ensures r.passed <==> Admits(config, snap, contractNotional, proposed)
    ensures r.violations == Violations(ALL_LIMITS, config, snap, contractNotional, proposed)
  {
    var violations := [];

    var newContractNotional := contractNotional + proposed;
    if newContractNotional > config.maxPositionPerMarket {
      violations := violations + [LimitViolation(PositionPerMarket, newContractNotional, config.maxPositionPerMarket)];
    }
    assert ALL_LIMITS[..1][..0] == [];
    assert violations == Violations(ALL_LIMITS[..1], config, snap, contractNotional, proposed);

    var wouldAdd := if contractNotional == 0.0 then 1 else 0;
    if snap.activeContracts + wouldAdd > config.maxConcurrentPositions {
      violations := violations + [LimitViolation(ConcurrentPositions, (snap.activeContracts + wouldAdd) as real,
                                                 config.maxConcurrentPositions as real)];
    }
    assert ALL_LIMITS[..2][..1] == ALL_LIMITS[..1];
    assert violations == Violations(ALL_LIMITS[..2], config, snap, contractNotional, proposed);

    var newGross := snap.grossExposure + proposed;
    if newGross > config.maxGrossExposure {
      violations := violations + [LimitViolation(GrossExposure, newGross, config.maxGrossExposure)];
    }
    assert ALL_LIMITS[..3][..2] == ALL_LIMITS[..2];
    assert violations == Violations(ALL_LIMITS[..3], config, snap, contractNotional, proposed);

    if proposed > config.maxNotionalPerOrder {
      violations := violations + [LimitViolation(NotionalPerOrder, proposed, config.maxNotionalPerOrder)];
    }
    assert violations == Violations(ALL_LIMITS, config, snap, contractNotional, proposed);

    r := LimitCheckResult(violations == [], violations);
    AdmitsIffNothingExceeded(config, snap, contractNotional, proposed);
  }

  // ----- Runs of the exposure book under the limits -------------------------

  datatype Op =
    | Add(c: ContractKey, side: Side, notional: real)
    | Remove(c: ContractKey, notional: real)
    | Fill(c: ContractKey, size: real, price: real, fee: real)
    | Close(c: ContractKey)

  function Apply(b: Book, op: Op): Book {
    match op
    case Add(c, side, n) => WithPending(b, c, side, n)
    case Remove(c, n) => WithoutPending(b, c, n)
    case Fill(c, size, price, fee) => WithFill(b, c, size, price, fee)
    case Close(c) => b - {c}
  }

  /** Reservations pass the check on the current snapshot; fills stay within pending. */
  ghost predicate Permitted(config: RiskConfig, b: Book, op: Op) {
    match op
    case Add(c, side, n) => n >= 0.0 && Admits(config, SnapshotOf(b), NotionalOf(b, c), n)
    case Remove(c, n) => n >= 0.0
    case Fill(c, size, price, fee) => c in b ==> 0.0 <= Worth(size, price) <= b[c].pending
    case Close(c) => true
  }

  ghost predicate Within(config: RiskConfig, b: Book) {
    && (forall c :: c in b ==> b[c].pending >= 0.0 && b[c].filled >= 0.0)
    && (forall c :: c in b ==> b[c].Notional() <= config.maxPositionPerMarket)
    && |b| <= config.maxConcurrentPositions
    && Gross(b) <= config.maxGrossExposure
  }

  lemma AddStaysWithin(config: RiskConfig, b: Book, c: ContractKey, side: Side, n: real)
    requires Within(config, b) && n >= 0.0 && Admits(config, SnapshotOf(b), NotionalOf(b, c), n)
    ensures Within(config, WithPending(b, c, side, n))
  {
    hide Gross;
    var e := EntryOrNew(b, c, side);
    GrossAfterUpdate(b, c, e.(pending := e.pending + n));
  }

  lemma RemoveStaysWithin(config: RiskConfig, b: Book, c: ContractKey, n: real)
    requires Within(config, b) && n >= 0.0
    ensures Within(config, WithoutPending(b, c, n))
  {
    hide Gross;
    if c in b {
      GrossAfterUpdate(b, c, b[c].(pending := Max(b[c].pending - n, 0.0)));
      GrossAfterRemoval(b, c);
    }
  }

  lemma FillStaysWithin(config: RiskConfig, b: Book, c: ContractKey, size: real, price: real, fee: real)
    requires Within(config, b) && c in b && 0.0 <= Worth(size, price) <= b[c].pending
    ensures Within(config, WithFill(b, c, size, price, fee))
  {
    hide Worth, Gross, FilledEntry;
    FillAmounts(b, c, size, price, fee);
    var e := FilledEntry(b[c], size, price, fee);
    assert PendingOf(WithFill(b, c, size, price, fee), c) == e.pending;
    assert FilledOf(WithFill(b, c, size, price, fee), c) == e.filled;
    GrossAfterUpdate(b, c, e);
  }

  lemma StepStaysWithin(config: RiskConfig, b: Book, op: Op)
    requires Within(config, b) && Permitted(config, b, op)
    ensures Within(config, Apply(b, op))
  {
    hide Worth, Gross, WithFill, WithPending, WithoutPending;
    match op {
      case Add(c, side, n) => AddStaysWithin(config, b, c, side, n);
      case Remove(c, n) => RemoveStaysWithin(config, b, c, n);
      case Fill(c, size, price, fee) =>
        if c in b {
          FillStaysWithin(config, b, c, size, price, fee);
        } else {
          assert WithFill(b, c, size, price, fee) == b by {
            FillAbsent(b, c, size, price, fee);
          }
        }
      case Close(c) => GrossAfterRemoval(b, c);
    }
  }

  /** The venue's fill is dropped when the contract has no entry. */
  lemma FillAbsent(b: Book, c: ContractKey, size: real, price: real, fee: real)
    ensures WithFill(b, c, size, price, fee) == b <== c !in b
  {
  }

  function ApplyAll(b: Book, ops: seq<Op>): Book {
    if ops == [] then b else Apply(ApplyAll(b, ops[..|ops| - 1]), ops[|ops| - 1])
  }

  lemma RunExtends(b: Book, ops: seq<Op>, op: Op)
    ensures ApplyAll(b, ops + [op]) == Apply(ApplyAll(b, ops), op)
  {
    assert (ops + [op])[..|ops|] == ops;
  }

  ghost predicate PermittedRun(config: RiskConfig, b: Book, ops: seq<Op>) {
    ops == [] ||
    var before := ops[..|ops| - 1];
    PermittedRun(config, b, before) && Permitted(config, ApplyAll(b, before), ops[|ops| - 1])
  }

  /** All limits hold after any mix of admitted reservations, releases, fills and closes. */
  lemma {:induction false} RunStaysWithin(config: RiskConfig, b: Book, ops: seq<Op>)
    requires Within(config, b) && PermittedRun(config, b, ops)
    ensures Within(config, ApplyAll(b, ops))
  {
    hide Within, Permitted;
    if ops != [] {
      var before := ops[..|ops| - 1];
      RunStaysWithin(config, b, before);
      StepStaysWithin(config, ApplyAll(b, before), ops[|ops| - 1]);
    }
  }
}
