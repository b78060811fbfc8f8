/** The accounting ledger: entries, an index by contract, and exit P&L. */
module Ledger {
  import opened Domain

  datatype ResolutionOutcome = Yes | No | Unknown

  datatype LedgerEntry = LedgerEntry(
    id: nat,
    contract: ContractKey,
    side: Side,
    entryPrice: real,
    exitPrice: Option<real>,
    size: real,
    feesPaid: real,
    realizedPnl: Option<real>,
    officialOutcome: Option<ResolutionOutcome>,
    officialPnl: Option<real>,
    closedAt: Option<int>,
    verifiedAt: Option<int>) {
    predicate IsOpen() { closedAt.None? }
  }

  datatype Books = Books(entries: seq<LedgerEntry>, byContract: map<ContractKey, seq<nat>>, nextId: nat)

  const EMPTY_BOOKS := Books([], map[], 1)

  // ----- What each operation does -----------------------------------------------

  /** Position of the first entry with this id. */
  function Find(es: seq<LedgerEntry>, id: nat): (r: Option<nat>)
    ensures r.Some? ==> r.value < |es| && es[r.value].id == id && forall i :: 0 <= i < r.value ==> es[i].id != id
    ensures r.None? ==> forall e :: e in es ==> e.id != id
  {
    if es == [] then None
    else
      var before := es[..|es| - 1];
      assert es == before + [es[|es| - 1]];
      var r := Find(before, id);
      if r.Some? then r
      else if es[|es| - 1].id == id then Some(|es| - 1)
      else None
  }

  function NewEntry(id: nat, c: ContractKey, side: Side, price: real, size: real): LedgerEntry {
    LedgerEntry(id, c, side, price, None, size, 0.0, None, None, None, None, None)
  }

  function IdsIn(b: Books, c: ContractKey): seq<nat> {
    if c in b.byContract then b.byContract[c] else []
  }

  function EntryRecorded(b: Books, c: ContractKey, side: Side, price: real, size: real): Books {
    Books(b.entries + [NewEntry(b.nextId, c, side, price, size)],
          b.byContract[c := IdsIn(b, c) + [b.nextId]],
          b.nextId + 1)
  }

  /** Profit of leaving an entry at a price, after all fees. */
  function PnlAt(e: LedgerEntry, exitPrice: real): real {
    (if e.side == Buy then (exitPrice - e.entryPrice) * e.size else (e.entryPrice - exitPrice) * e.size) - e.feesPaid
  }

  function ClosedEntry(e: LedgerEntry, exitPrice: real, fees: real, now: int): LedgerEntry {
    var paid := e.(exitPrice := Some(exitPrice), feesPaid := e.feesPaid + fees, closedAt := Some(now));
    paid.(realizedPnl := Some(PnlAt(paid, exitPrice)))
  }

  function Replaced(b: Books, i: nat, e: LedgerEntry): Books
    requires i < |b.entries|
  {
    b.(entries := b.entries[i := e])
  }

  function ExitRecorded(b: Books, id: nat, exitPrice: real, fees: real, now: int): (Books, Option<real>) {
    var i := Find(b.entries, id);
    if i.None? then (b, None)
    else
      var e := ClosedEntry(b.entries[i.value], exitPrice, fees, now);
      (Replaced(b, i.value, e), e.realizedPnl)
  }

  function FeesAdded(b: Books, id: nat, fees: real): Books {
    var i := Find(b.entries, id);
    if i.None? then b
    else Replaced(b, i.value, b.entries[i.value].(feesPaid := b.entries[i.value].feesPaid + fees))
  }

  function ResolvedEntry(e: LedgerEntry, outcome: ResolutionOutcome, pnl: real, at: int): LedgerEntry {
    e.(officialOutcome := Some(outcome), officialPnl := Some(pnl), verifiedAt := Some(at))
  }

  function ResolutionRecorded(b: Books, id: nat, outcome: ResolutionOutcome, pnl: real, at: int): Books {
    var i := Find(b.entries, id);
    if i.None? then b else Replaced(b, i.value, ResolvedEntry(b.entries[i.value], outcome, pnl, at))
  }

  /** The open entries of a contract, looked up id by id through the index. */
  function OpenByIds(es: seq<LedgerEntry>, ids: seq<nat>): seq<LedgerEntry> {
    if ids == [] then []
    else
      var i := Find(es, ids[|ids| - 1]);
      OpenByIds(es, ids[..|ids| - 1]) + if i.Some? && es[i.value].IsOpen() then [es[i.value]] else []
  }

  // ----- The ledger -----------------------------------------------------------------

  class Ledger {
    var entries: seq<LedgerEntry>
    var byContract: map<ContractKey, seq<nat>>
    var nextId: nat

    function View(): Books
      reads this
    {
      Books(entries, byContract, nextId)
    }

    constructor ()
      ensures View() == EMPTY_BOOKS
    {
      entries, byContract, nextId := [], map[], 1;
    }

    method RecordEntry(c: ContractKey, side: Side, price: real, size: real) returns (id: nat)
      modifies this
      ensures View() == EntryRecorded(old(View()), c, side, price, size)
      ensures id == old(nextId)
    {
      id := nextId;
      nextId := nextId + 1;
      if c !in byContract {
        byContract := byContract[c := []];
      }
      byContract := byContract[c := byContract[c] + [id]];
      entries := entries + [NewEntry(id, c, side, price, size)];
      assert byContract == EntryRecorded(old(View()), c, side, price, size).byContract;
    }

    method RecordExit(id: nat, exitPrice: real, fees: real, now: int) returns (pnl: Option<real>)
      modifies this
      ensures (View(), pnl) == ExitRecorded(old(View()), id, exitPrice, fees, now)
    {
      var i := Find(entries, id);
      if i.None? {
        return None;
      }
      var entry := entries[i.value];
      entry := entry.(exitPrice := Some(exitPrice));
      entry := entry.(feesPaid := entry.feesPaid + fees);
      entry := entry.(closedAt := Some(now));
      var p := match entry.side
        case Buy => (exitPrice - entry.entryPrice) * entry.size - entry.feesPaid
        case Sell => (entry.entryPrice - exitPrice) * entry.size - entry.feesPaid;
      assert p == PnlAt(entry, exitPrice);
      entry := entry.(realizedPnl := Some(p));
      assert entry == ClosedEntry(old(entries)[i.value], exitPrice, fees, now);
      entries := entries[i.value := entry];
      pnl := Some(p);
    }

    method AddFees(id: nat, fees: real)
      modifies this
      ensures View() == FeesAdded(old(View()), id, fees)
    {
      var i := Find(entries, id);
      if i.Some? {
        entries := entries[i.value := entries[i.value].(feesPaid := entries[i.value].feesPaid + fees)];
      }
    }

    method RecordResolution(id: nat, outcome: ResolutionOutcome, pnl: real, at: int)
      modifies this
      ensures View() == ResolutionRecorded(old(View()), id, outcome, pnl, at)
    {
      var i := Find(entries, id);
      if i.Some? {
        var entry := entries[i.value];
        entry := entry.(officialOutcome := Some(outcome));
        entry := entry.(officialPnl := Some(pnl));
        entry := entry.(verifiedAt := Some(at));
        entries := entries[i.value := entry];
      }
    }

    function OpenEntriesFor(c: ContractKey): (r: seq<LedgerEntry>)
      reads this
      ensures Sound(View()) ==> r == ScanOpen(entries, c)
    {
      var r := if c in byContract then OpenByIds(entries, byContract[c]) else [];
      assert Sound(View()) ==> r == ScanOpen(entries, c) by {
        if Sound(View()) {
          IndexAgreesWithScan(View(), c);
        }
      }
      r
    }
  }

  // ----- The index against a plain scan ------------------------------------------------

  function IdsOf(es: seq<LedgerEntry>, c: ContractKey): seq<nat> {
    if es == [] then []
    else IdsOf(es[..|es| - 1], c) + if es[|es| - 1].contract == c then [es[|es| - 1].id] else []
  }

  function ScanOpen(es: seq<LedgerEntry>, c: ContractKey): seq<LedgerEntry> {
    if es == [] then []
    else
      var e := es[|es| - 1];
      ScanOpen(es[..|es| - 1], c) + if e.contract == c && e.IsOpen() then [e] else []
  }

  /** Ids are 1, 2, ..., n in order, and the index lists each contract's ids in order. */
  ghost predicate Sound(b: Books) {
    && b.nextId == |b.entries| + 1
    && (forall i :: 0 <= i < |b.entries| ==> b.entries[i].id == i + 1)
    && (forall c :: IdsIn(b, c) == IdsOf(b.entries, c))
  }

  lemma FindById(es: seq<LedgerEntry>, id: nat)
    requires forall i :: 0 <= i < |es| ==> es[i].id == i + 1
    ensures Find(es, id) == if 1 <= id <= |es| then Some(id - 1) else None
  {
    var r := Find(es, id);
    if 1 <= id <= |es| {
      assert es[id - 1] in es && es[id - 1].id == id;
    }
  }

  lemma EntryKeepsSound(b: Books, c: ContractKey, side: Side, price: real, size: real)
    requires Sound(b)
    ensures Sound(EntryRecorded(b, c, side, price, size))
    ensures Find(EntryRecorded(b, c, side, price, size).entries, b.nextId) == Some(|b.entries|)
  {
    var b' := EntryRecorded(b, c, side, price, size);
    assert b'.entries[..|b'.entries| - 1] == b.entries;
    forall k
      ensures IdsIn(b', k) == IdsOf(b'.entries, k)
    {
      assert IdsIn(b, k) == IdsOf(b.entries, k);
    }
    FindById(b'.entries, b.nextId);
  }

  lemma {:induction false} SameIdsOf(es: seq<LedgerEntry>, es': seq<LedgerEntry>, c: ContractKey)
    requires |es| == |es'|
    requires forall i :: 0 <= i < |es| ==> es[i].id == es'[i].id && es[i].contract == es'[i].contract
    ensures IdsOf(es, c) == IdsOf(es', c)
  {
    if es != [] {
      SameIdsOf(es[..|es| - 1], es'[..|es| - 1], c);
    }
  }

  /** Rewriting an entry without touching its id and contract keeps the index sound. */
  lemma ReplaceKeepsSound(b: Books, i: nat, e: LedgerEntry)
    requires Sound(b) && i < |b.entries|
    requires e.id == b.entries[i].id && e.contract == b.entries[i].contract
    ensures Sound(Replaced(b, i, e))
  {
    var b' := Replaced(b, i, e);
    forall c
      ensures IdsIn(b', c) == IdsOf(b'.entries, c)
    {
      SameIdsOf(b.entries, b'.entries, c);
      assert IdsIn(b, c) == IdsOf(b.entries, c);
    }
  }

  /** Every operation keeps the ledger sound. */
  lemma OperationsKeepSound(b: Books, id: nat, price: real, fees: real, now: int, outcome: ResolutionOutcome)
    requires Sound(b)
    ensures Sound(ExitRecorded(b, id, price, fees, now).0)
    ensures Sound(FeesAdded(b, id, fees))
    ensures Sound(ResolutionRecorded(b, id, outcome, price, now))
  {
    var i := Find(b.entries, id);
    if i.Some? {
      var e := b.entries[i.value];
      ReplaceKeepsSound(b, i.value, ClosedEntry(e, price, fees, now));
      ReplaceKeepsSound(b, i.value, e.(feesPaid := e.feesPaid + fees));
      ReplaceKeepsSound(b, i.value, ResolvedEntry(e, outcome, price, now));
    }
  }

  lemma {:induction false} ScanThroughIds(es: seq<LedgerEntry>, k: nat, c: ContractKey)
    requires k <= |es| && forall i :: 0 <= i < |es| ==> es[i].id == i + 1
    ensures OpenByIds(es, IdsOf(es[..k], c)) == ScanOpen(es[..k], c)
  {
    if k > 0 {
      ScanThroughIds(es, k - 1, c);
      assert es[..k][..k - 1] == es[..k - 1];
      FindById(es, es[k - 1].id);
      var ids := IdsOf(es[..k], c);
      if es[k - 1].contract == c {
        assert ids[..|ids| - 1] == IdsOf(es[..k - 1], c) && ids[|ids| - 1] == es[k - 1].id;
      } else {
        assert ids == IdsOf(es[..k - 1], c);
      }
    }
  }

  /** Looking up open entries through the index gives what a scan of all entries gives. */
  lemma IndexAgreesWithScan(b: Books, c: ContractKey)
    requires Sound(b)
    ensures OpenByIds(b.entries, IdsIn(b, c)) == ScanOpen(b.entries, c)
  {
    ScanThroughIds(b.entries, |b.entries|, c);
    assert b.entries[..|b.entries|] == b.entries;
    assert IdsIn(b, c) == IdsOf(b.entries, c);
  }

  // ----- Totals ----------------------------------------------------------------------------

  function TotalFees(es: seq<LedgerEntry>): real {
    if es == [] then 0.0 else TotalFees(es[..|es| - 1]) + es[|es| - 1].feesPaid
  }

  function RealizedOr0(e: LedgerEntry): real {
    match e.realizedPnl case Some(p) => p case None => 0.0
  }

  function TotalRealized(es: seq<LedgerEntry>): real {
    if es == [] then 0.0 else TotalRealized(es[..|es| - 1]) + RealizedOr0(es[|es| - 1])
  }

  lemma {:induction false} TotalsAfterReplace(es: seq<LedgerEntry>, i: nat, e: LedgerEntry)
    requires i < |es|
    ensures TotalFees(es[i := e]) == TotalFees(es) + e.feesPaid - es[i].feesPaid
    ensures TotalRealized(es[i := e]) == TotalRealized(es) + RealizedOr0(e) - RealizedOr0(es[i])
  {
    var n := |es| - 1;
    if i == n {
      assert es[i := e][..n] == es[..n];
    } else {
      assert es[i := e][..n] == es[..n][i := e];
      TotalsAfterReplace(es[..n], i, e);
    }
  }

  lemma TotalsAfterAppend(es: seq<LedgerEntry>, e: LedgerEntry)
    ensures TotalFees(es + [e]) == TotalFees(es) + e.feesPaid
    ensures TotalRealized(es + [e]) == TotalRealized(es) + RealizedOr0(e)
  {
    assert (es + [e])[..|es|] == es;
  }
}
