/** Exposure tracking: notional pending and filled per contract. */
module Exposure {
  import opened Domain
  import opened MapSums

  datatype ContractExposure = ContractExposure(
    contract: ContractKey,
    side: Side,
    pending: real,
    filled: real,
    feesPaid: real,
    avgFillPrice: real) {
    function Notional(): real { pending + filled }
  }

  type Book = map<ContractKey, ContractExposure>

  // ----- What each operation does to the book ------------------------------

  function PendingOf(b: Book, c: ContractKey): real {
    if c in b then b[c].pending else 0.0
  }

  function FilledOf(b: Book, c: ContractKey): real {
    if c in b then b[c].filled else 0.0
  }

  function NotionalOf(b: Book, c: ContractKey): real {
    PendingOf(b, c) + FilledOf(b, c)
  }

  function EntryOrNew(b: Book, c: ContractKey, side: Side): ContractExposure {
    if c in b then b[c] else ContractExposure(c, side, 0.0, 0.0, 0.0, 0.0)
  }

  function WithPending(b: Book, c: ContractKey, side: Side, notional: real): Book {
    var e := EntryOrNew(b, c, side);
    b[c := e.(pending := e.pending + notional)]
  }

  function WithoutPending(b: Book, c: ContractKey, notional: real): Book {
    if c !in b then b
    else
      var e := b[c].(pending := Max(b[c].pending - notional, 0.0));
      if e.pending == 0.0 && e.filled == 0.0 then b - {c} else b[c := e]
  }

  function FilledEntry(e: ContractExposure, size: real, price: real, fee: real): ContractExposure {
    var n := Worth(size, price);
    var newFilled := e.filled + n;
    ContractExposure(
      e.contract,
      e.side,
      Max(e.pending - n, 0.0),
      newFilled,
      e.feesPaid + fee,
      if newFilled > 0.0 then (e.avgFillPrice * e.filled + price * n) / newFilled else e.avgFillPrice)
  }

  function WithFill(b: Book, c: ContractKey, size: real, price: real, fee: real): Book {
    if c in b then b[c := FilledEntry(b[c], size, price, fee)] else b
  }

  function WithLoaded(b: Book, es: seq<ContractExposure>): Book {
    if es == [] then b
    else
      var last := es[|es| - 1];
      WithLoaded(b, es[..|es| - 1])[last.contract := last]
  }

  function Positions(b: Book): set<ContractKey> {
    set c | c in b && b[c].filled > 0.0
  }

  /** The contracts of which something is filled, counted as positions. */
  function PositionCount(b: Book): nat {
    |Positions(b)|
  }

  // ----- Totals ------------------------------------------------------------

  datatype ExposureSnapshot = ExposureSnapshot(
    totalPending: real,
    totalFilled: real,
    grossExposure: real,
    activeContracts: nat)

  function PendingPart(e: ContractExposure): real { e.pending }

  function FilledPart(e: ContractExposure): real { e.filled }

  ghost function TotalPending(b: Book): real {
    SumOver(b, PendingPart)
  }

  ghost function TotalFilled(b: Book): real {
    SumOver(b, FilledPart)
  }

  ghost function Gross(b: Book): real {
    TotalPending(b) + TotalFilled(b)
  }

  ghost function SnapshotOf(b: Book): ExposureSnapshot {
    ExposureSnapshot(TotalPending(b), TotalFilled(b), Gross(b), |b|)
  }

  /** Replacing one entry moves the gross exposure by that entry's own change. */
  lemma GrossAfterUpdate(b: Book, c: ContractKey, e: ContractExposure)
    ensures Gross(b[c := e]) == Gross(b) + e.Notional() - NotionalOf(b, c)
  {
    SumUpdate(b, PendingPart, c, e);
    SumUpdate(b, FilledPart, c, e);
  }

  lemma GrossAfterRemoval(b: Book, c: ContractKey)
    ensures Gross(b - {c}) == Gross(b) - NotionalOf(b, c)
  {
    if c in b {
      SumSplit(b, PendingPart, c);
      SumSplit(b, FilledPart, c);
    } else {
      assert b - {c} == b;
    }
  }

  // ----- The tracker -------------------------------------------------------

  class ExposureTracker {
    var exposures: Book

    constructor ()
      ensures exposures == map[]
    {
      exposures := map[];
    }

    method AddPending(c: ContractKey, side: Side, notional: real)
      modifies this
      ensures exposures == WithPending(old(exposures), c, side, notional)
    {
      if c !in exposures {
        exposures := exposures[c := ContractExposure(c, side, 0.0, 0.0, 0.0, 0.0)];
      }
      var entry := exposures[c];
      exposures := exposures[c := entry.(pending := entry.pending + notional)];
      assert exposures == WithPending(old(exposures), c, side, notional);
    }

    method RemovePending(c: ContractKey, notional: real)
      modifies this
      ensures exposures == WithoutPending(old(exposures), c, notional)
    {
      if c in exposures {
        var entry := exposures[c];
        entry := entry.(pending := Max(entry.pending - notional, 0.0));
        exposures := exposures[c := entry];
        if entry.pending == 0.0 && entry.filled == 0.0 {
          exposures := exposures - {c};
        }
      }
      assert exposures == WithoutPending(old(exposures), c, notional);
    }

    method ApplyFill(c: ContractKey, size: real, price: real, fee: real)
      modifies this
      ensures exposures == WithFill(old(exposures), c, size, price, fee)
    {
      if c in exposures {
        var entry := exposures[c];
        var fillNotional := size * price;
        entry := entry.(pending := Max(entry.pending - fillNotional, 0.0));
        var oldFilled := entry.filled;
        var newFilled := oldFilled + fillNotional;
        if newFilled > 0.0 {
          entry := entry.(avgFillPrice := (entry.avgFillPrice * oldFilled + price * fillNotional) / newFilled);
        }
        entry := entry.(filled := newFilled, feesPaid := entry.feesPaid + fee);
        assert entry == FilledEntry(old(exposures)[c], size, price, fee);
        exposures := exposures[c := entry];
      }
    }

    method ClosePosition(c: ContractKey)
      modifies this
      ensures exposures == old(exposures) - {c}
    {
      exposures := exposures - {c};
    }

    function ContractNotional(c: ContractKey): (r: real)
      reads this
      ensures r == NotionalOf(exposures, c)
    {
      if c in exposures then exposures[c].Notional() else 0.0
    }

    method Snapshot() returns (s: ExposureSnapshot)
      ensures s == SnapshotOf(exposures)
    {
      var totalPending, totalFilled := 0.0, 0.0;
      var rest := exposures.Keys;
      ghost var done: Book := map[];
      while rest != {}
        invariant rest <= exposures.Keys
        invariant done.Keys == exposures.Keys - rest
        invariant forall c :: c in done ==> done[c] == exposures[c]
        invariant totalPending == TotalPending(done)
        invariant totalFilled == TotalFilled(done)
        decreases rest
      {
        var c :| c in rest;
        SumUpdate(done, PendingPart, c, exposures[c]);
        SumUpdate(done, FilledPart, c, exposures[c]);
        totalPending := totalPending + exposures[c].pending;
        totalFilled := totalFilled + exposures[c].filled;
        rest := rest - {c};
        done := done[c := exposures[c]];
      }
      assert done == exposures;
      s := ExposureSnapshot(totalPending, totalFilled, totalPending + totalFilled, |exposures|);
    }

    method LoadFromReconciliation(es: seq<ContractExposure>)
      modifies this
      ensures exposures == WithLoaded(old(exposures), es)
    {
      for i := 0 to |es|
        invariant exposures == WithLoaded(old(exposures), es[..i])
      {
        assert es[..i + 1][..i] == es[..i];
        exposures := exposures[es[i].contract := es[i]];
      }
      assert es[..|es|] == es;
    }
  }

  // ----- What the operations mean for the amounts --------------------------

  /** Undoing a reservation restores every amount in the book; the map itself is
      restored too unless it held an entry of zero pending and zero filled. */
  lemma RemoveUndoesAdd(b: Book, c: ContractKey, side: Side, n: real)
    requires PendingOf(b, c) >= 0.0
    ensures var b' := WithoutPending(WithPending(b, c, side, n), c, n);
            && (forall k :: PendingOf(b', k) == PendingOf(b, k) && FilledOf(b', k) == FilledOf(b, k))
            && (b' == b <==> !(c in b && b[c].pending == 0.0 && b[c].filled == 0.0))
  {
    var b1 := WithPending(b, c, side, n);
    var b' := WithoutPending(b1, c, n);
    assert b1[c].pending - n == PendingOf(b, c);
    if c in b && !(b[c].pending == 0.0 && b[c].filled == 0.0) {
      assert b' == b[c := b[c]];
    } else if c !in b {
      assert b' == b;
    }
  }

  /** What a fill does to the two amounts. */
  lemma FillAmounts(b: Book, c: ContractKey, size: real, price: real, fee: real)
    ensures var b' := WithFill(b, c, size, price, fee);
            && b'.Keys == b.Keys
            && (forall k :: k != c || c !in b ==>
               PendingOf(b', k) == PendingOf(b, k) && FilledOf(b', k) == FilledOf(b, k))
            && (c in b ==>
                  && PendingOf(b', c) == Max(PendingOf(b, c) - Worth(size, price), 0.0)
                  && FilledOf(b', c) == FilledOf(b, c) + Worth(size, price))
  {
  }

  /** What a reservation and a release do to the two amounts. */
  lemma PendingAmounts(b: Book, c: ContractKey, side: Side, n: real)
    ensures var b' := WithPending(b, c, side, n);
            forall k :: FilledOf(b', k) == FilledOf(b, k)
                && PendingOf(b', k) == PendingOf(b, k) + if k == c then n else 0.0
    ensures var b' := WithoutPending(b, c, n);
            forall k :: FilledOf(b', k) == FilledOf(b, k) &&
                        PendingOf(b', k) == if k == c && c in b then Max(PendingOf(b, c) - n, 0.0) else PendingOf(b, k)
  {
  }

  /** A fill within the pending amount moves it to filled and keeps the total;
      beyond it the total grows by exactly the excess. */
  lemma FillConservesNotional(b: Book, c: ContractKey, size: real, price: real, fee: real)
    requires c in b && b[c].pending >= 0.0
    ensures var b' := WithFill(b, c, size, price, fee);
            && NotionalOf(b', c) == NotionalOf(b, c) + Max(Worth(size, price) - b[c].pending, 0.0)
            && (forall k :: k != c ==> NotionalOf(b', k) == NotionalOf(b, k))
  {
  }

  // ----- Counting positions -------------------------------------------------

  ghost predicate SameFilled(b: Book, b': Book) {
    forall c :: FilledOf(b', c) == FilledOf(b, c)
  }

  lemma CountFollowsFilled(b: Book, b': Book)
    requires SameFilled(b, b')
    ensures PositionCount(b') == PositionCount(b)
  {
    forall c
      ensures c in Positions(b) <==> c in Positions(b')
    {
      assert FilledOf(b', c) == FilledOf(b, c);
    }
    assert Positions(b) == Positions(b');
  }

  /** Reserving and releasing never change the number of positions: a contract with nothing
      but pending orders is not one. */
  lemma ReservationsKeepCount(b: Book, c: ContractKey, side: Side, n: real)
    ensures PositionCount(WithPending(b, c, side, n)) == PositionCount(b)
    ensures PositionCount(WithoutPending(b, c, n)) == PositionCount(b)
  {
    hide WithPending, WithoutPending, PositionCount;
    PendingAmounts(b, c, side, n);
    CountFollowsFilled(b, WithPending(b, c, side, n));
    CountFollowsFilled(b, WithoutPending(b, c, n));
  }

  /** A fill adds a position exactly when it makes the filled amount of a booked contract
      positive, and takes one away exactly when it ends that. */
  lemma FillMovesCount(b: Book, c: ContractKey, size: real, price: real, fee: real)
    ensures var before, after := FilledOf(b, c), FilledOf(b, c) + Worth(size, price);
            PositionCount(WithFill(b, c, size, price, fee)) == PositionCount(b)
            + (if c in b && before <= 0.0 < after then 1 else 0)
            - (if c in b && after <= 0.0 < before then 1 else 0)
  {
    hide Worth;
    var was, now := Positions(b), Positions(WithFill(b, c, size, price, fee));
    if c in b {
      if FilledOf(b, c) + Worth(size, price) > 0.0 {
        assert now == was + {c};
        assert c in was ==> now == was;
      } else {
        assert now == was - {c};
        assert c !in was ==> now == was;
      }
    }
  }
}
