/** Startup reconciliation: rebuild both trackers from the venue's open orders. */
module Reconciliation {
  import opened Domain
  import opened Orders
  import opened Exposure
  import opened OrderDesk

  datatype OpenOrderInfo = OpenOrderInfo(
    clientOrderId: ClientOrderId,
    venueOrderId: VenueOrderId,
    contract: ContractKey,
    side: Side,
    price: real,
    originalSize: real,
    remainingSize: real,
    state: OrderState)

  datatype ReconciliationResult = ReconciliationResult(
    matchedOrders: nat,
    unknownOrders: nat,
    availableUsdc: real,
    safeToTrade: bool,
    warnings: nat)

  datatype Outcome =
    | Reconciled(result: ReconciliationResult)
    | FetchFailed
    | BalanceFailed

  // ----- What is loaded ----------------------------------------------------

  function FilledPartOf(info: OpenOrderInfo): real {
    info.originalSize - info.remainingSize
  }

  function RecordOf(info: OpenOrderInfo): OrderRecord {
    OrderRecord(info.clientOrderId, Some(info.venueOrderId), info.contract, info.side, info.price,
                info.originalSize, FilledPartOf(info),
                if FilledPartOf(info) > 0.0 then Some(info.price) else None, info.state, 0)
  }

  function RecordsOf(infos: seq<OpenOrderInfo>): seq<OrderRecord> {
    if infos == [] then [] else RecordsOf(infos[..|infos| - 1]) + [RecordOf(infos[|infos| - 1])]
  }

  function ExposureOf(info: OpenOrderInfo): ContractExposure {
    ContractExposure(info.contract, info.side, Worth(info.remainingSize, info.price),
                     Worth(FilledPartOf(info), info.price), 0.0, info.price)
  }

  predicate HasExposure(info: OpenOrderInfo) {
    ExposureOf(info).pending > 0.0 || ExposureOf(info).filled > 0.0
  }

  function ExposuresOf(infos: seq<OpenOrderInfo>): seq<ContractExposure> {
    if infos == [] then []
    else
      var info := infos[|infos| - 1];
      ExposuresOf(infos[..|infos| - 1]) + if HasExposure(info) then [ExposureOf(info)] else []
  }

  function KnownCount(o: Orders, infos: seq<OpenOrderInfo>): nat {
    if infos == [] then 0
    else KnownCount(o, infos[..|infos| - 1]) + if infos[|infos| - 1].clientOrderId in o.records then 1 else 0
  }

  /** Known orders the venue reports in another state. */
  function MismatchCount(o: Orders, infos: seq<OpenOrderInfo>): nat {
    if infos == [] then 0
    else
      var info := infos[|infos| - 1];
      MismatchCount(o, infos[..|infos| - 1]) +
      if info.clientOrderId in o.records && o.records[info.clientOrderId].state != info.state then 1 else 0
  }

  // ----- The reconciler ----------------------------------------------------

  class Reconciler {
    const orderTracker: OrderTracker
    const exposureTracker: ExposureTracker

    constructor (orderTracker: OrderTracker, exposureTracker: ExposureTracker)
      ensures this.orderTracker == orderTracker && this.exposureTracker == exposureTracker
    {
      this.orderTracker, this.exposureTracker := orderTracker, exposureTracker;
    }

    /** `openOrders` and `balance` are the client's answers, None for an error. A
        failed balance query comes too late to leave the trackers untouched. */
    method Reconcile(openOrders: Option<seq<OpenOrderInfo>>, balance: Option<real>) returns (r: Outcome)
      modifies orderTracker, exposureTracker
      ensures openOrders.None? ==>
                r == FetchFailed && orderTracker.View() == old(orderTracker.View())
                    && exposureTracker.exposures == old(exposureTracker.exposures)
      ensures openOrders.Some? ==>
                && orderTracker.View() == Loaded(old(orderTracker.View()), RecordsOf(openOrders.value))
                && exposureTracker.exposures
                   == WithLoaded(old(exposureTracker.exposures), ExposuresOf(openOrders.value))
                && (balance.None? ==> r == BalanceFailed)
                && (balance.Some? ==>
                      && r.Reconciled?
                      && r.result.availableUsdc == balance.value
                      && r.result.matchedOrders == KnownCount(old(orderTracker.View()), openOrders.value)
                      && r.result.matchedOrders + r.result.unknownOrders == |openOrders.value|
                      && (r.result.safeToTrade <==> r.result.unknownOrders == 0)
                      && r.result.warnings ==
                         r.result.unknownOrders + MismatchCount(old(orderTracker.View()), openOrders.value)
                         + if balance.value <= 0.0 then 1 else 0)
    {
      if openOrders.None? {
        return FetchFailed;
      }
      var infos := openOrders.value;
      var matched, unknown, warnings := 0, 0, 0;
      var orderRecords: seq<OrderRecord>, exposures: seq<ContractExposure> := [], [];
      for i := 0 to |infos|
        invariant matched == KnownCount(orderTracker.View(), infos[..i])
        invariant matched + unknown == i
        invariant warnings == unknown + MismatchCount(orderTracker.View(), infos[..i])
        invariant orderRecords == RecordsOf(infos[..i])
        invariant exposures == ExposuresOf(infos[..i])
        invariant orderTracker.View() == old(orderTracker.View())
        invariant exposureTracker.exposures == old(exposureTracker.exposures)
      {
        var info := infos[i];
        assert infos[..i + 1][..i] == infos[..i];
        var known := orderTracker.Get(info.clientOrderId);
        match known {
          case Some(existing) =>
            if existing.state != info.state {
              warnings := warnings + 1;
            }
            matched := matched + 1;
          case None =>
            warnings := warnings + 1;
            unknown := unknown + 1;
        }
        var filledSize := info.originalSize - info.remainingSize;
        orderRecords := orderRecords + [RecordOf(info)];
        var pendingNotional := info.remainingSize * info.price;
        var filledNotional := filledSize * info.price;
        assert pendingNotional == ExposureOf(info).pending && filledNotional == ExposureOf(info).filled;
        if pendingNotional > 0.0 || filledNotional > 0.0 {
          exposures := exposures + [ContractExposure(info.contract, info.side, pendingNotional, filledNotional,
              0.0, info.price)];
        }
      }
      assert infos[..|infos|] == infos;
      orderTracker.LoadFromReconciliation(orderRecords);
      exposureTracker.LoadFromReconciliation(exposures);
      if balance.None? {
        return BalanceFailed;
      }
      if balance.value <= 0.0 {
        warnings := warnings + 1;
      }
      r := Reconciled(ReconciliationResult(matched, unknown, balance.value, unknown == 0, warnings));
    }
  }

  // ----- What a reconciled start looks like ---------------------------------

  function StartDesk(infos: seq<OpenOrderInfo>): Desk {
    Desk(Loaded(EMPTY_ORDERS, RecordsOf(infos)), WithLoaded(map[], ExposuresOf(infos)))
  }

  /** The executions that must have happened before the restart. */
  function PastFills(infos: seq<OpenOrderInfo>): seq<FillEvent> {
    if infos == [] then []
    else
      var info := infos[|infos| - 1];
      PastFills(infos[..|infos| - 1]) +
      [FillEvent(info.clientOrderId, info.contract, info.price, FilledPartOf(info), info.remainingSize, 0.0)]
  }

  function OriginalValue(infos: seq<OpenOrderInfo>): real {
    if infos == [] then 0.0
    else OriginalValue(infos[..|infos| - 1]) + Worth(infos[|infos| - 1].originalSize, infos[|infos| - 1].price)
  }

  predicate Plausible(infos: seq<OpenOrderInfo>) {
    forall info :: info in infos ==> 0.0 <= info.remainingSize <= info.originalSize && info.price >= 0.0
  }

  predicate DistinctOrders(infos: seq<OpenOrderInfo>) {
    forall i, j :: 0 <= i < j < |infos| ==>
      infos[i].clientOrderId != infos[j].clientOrderId && infos[i].contract != infos[j].contract
  }

  lemma SplitWorth(info: OpenOrderInfo)
    requires 0.0 <= info.remainingSize <= info.originalSize && info.price >= 0.0
    ensures ExposureOf(info).pending >= 0.0 && ExposureOf(info).filled >= 0.0
    ensures ExposureOf(info).Notional() == Worth(info.originalSize, info.price)
  {
    WorthSign(info.remainingSize, info.price);
    WorthSign(FilledPartOf(info), info.price);
  }

  /** Loading one more order into both trackers. */
  lemma LoadsOneMore(infos: seq<OpenOrderInfo>)
    requires infos != []
    ensures var before, info := StartDesk(infos[..|infos| - 1]), infos[|infos| - 1];
            && StartDesk(infos).orders == Orders(
                 before.orders.records[info.clientOrderId := RecordOf(info)],
                 if Live(info.state) then before.orders.slots[info.contract := info.clientOrderId]
                 else before.orders.slots)
            && StartDesk(infos).book ==
               if HasExposure(info) then before.book[info.contract := ExposureOf(info)] else before.book
  {
    var prev, info := infos[..|infos| - 1], infos[|infos| - 1];
    var recs := RecordsOf(infos);
    assert recs[..|recs| - 1] == RecordsOf(prev) && recs[|recs| - 1] == RecordOf(info);
    if HasExposure(info) {
      var es := ExposuresOf(infos);
      assert es[..|es| - 1] == ExposuresOf(prev) && es[|es| - 1] == ExposureOf(info);
    } else {
      assert ExposuresOf(infos) == ExposuresOf(prev);
    }
  }

  /** The keys of the reconciled maps come from the open orders. */
  lemma {:induction false} StartKeys(infos: seq<OpenOrderInfo>)
    ensures var d := StartDesk(infos);
            && (forall id :: id in d.orders.records <==> exists info :: info in infos && info.clientOrderId == id)
            && (forall c ::
                  c in d.orders.slots <==> exists info :: info in infos && info.contract == c && Live(info.state))
            && (forall c :: c in d.book <==> exists info :: info in infos && info.contract == c && HasExposure(info))
  {
    if infos != [] {
      var before, info := infos[..|infos| - 1], infos[|infos| - 1];
      assert infos == before + [info];
      StartKeys(before);
      LoadsOneMore(infos);
    }
  }

  /** With distinct orders each open order is found in both trackers, and has its contract's
      slot if it is live. */
  lemma {:induction false} StartEntries(infos: seq<OpenOrderInfo>, info: OpenOrderInfo)
    requires DistinctOrders(infos) && info in infos
    ensures var d := StartDesk(infos);
            && info.clientOrderId in d.orders.records && d.orders.records[info.clientOrderId] == RecordOf(info)
            && (Live(info.state) ==>
                  info.contract in d.orders.slots && d.orders.slots[info.contract] == info.clientOrderId)
            && (HasExposure(info) ==> info.contract in d.book && d.book[info.contract] == ExposureOf(info))
  {
    hide HasExposure;
    var before, last := infos[..|infos| - 1], infos[|infos| - 1];
    assert infos == before + [last];
    LoadsOneMore(infos);
    if info != last {
      assert info in before;
      StartEntries(before, info);
    }
  }

  /** What is found there: the venue's own terms, with what is no longer open counted as filled
      at the order's price, and an exposure for every order of which either part is worth
      something. */
  lemma StartTerms(infos: seq<OpenOrderInfo>, info: OpenOrderInfo)
    requires DistinctOrders(infos) && info in infos
    ensures info.clientOrderId in StartDesk(infos).orders.records
    ensures var rec := StartDesk(infos).orders.records[info.clientOrderId];
            && rec.clientOrderId == info.clientOrderId && rec.venueOrderId == Some(info.venueOrderId)
            && rec.contract == info.contract && rec.side == info.side && rec.state == info.state
            && rec.price == info.price && rec.size == info.originalSize && rec.retryCount == 0
            && rec.filledSize == info.originalSize - info.remainingSize
            && rec.avgFillPrice == if info.remainingSize < info.originalSize then Some(info.price) else None
    ensures var book := StartDesk(infos).book;
            var pending := info.remainingSize * info.price;
            var filled := (info.originalSize - info.remainingSize) * info.price;
            if pending > 0.0 || filled > 0.0
            then
              && info.contract in book
              && book[info.contract] == ContractExposure(info.contract, info.side, pending, filled, 0.0, info.price)
            else info.contract !in book
  {
    hide StartDesk, DistinctOrders;
    StartEntries(infos, info);
    if !HasExposure(info) {
      NoExposureNoEntry(infos, info);
    }
    assert ExposureOf(info).pending == info.remainingSize * info.price;
    assert ExposureOf(info).filled == (info.originalSize - info.remainingSize) * info.price;
    hide Worth;
  }

  lemma NoExposureNoEntry(infos: seq<OpenOrderInfo>, info: OpenOrderInfo)
    requires DistinctOrders(infos) && info in infos && !HasExposure(info)
    ensures info.contract !in StartDesk(infos).book
  {
    hide StartDesk, HasExposure;
    StartKeys(infos);
  }

  /** Reconciling empty trackers restores the full original value as gross exposure. */
  lemma {:induction false} GrossIsOriginalValue(infos: seq<OpenOrderInfo>)
    requires Plausible(infos) && DistinctOrders(infos)
    ensures Gross(StartDesk(infos).book) == OriginalValue(infos)
  {
    hide Worth;
    if infos != [] {
      var before, info := infos[..|infos| - 1], infos[|infos| - 1];
      assert infos == before + [info];
      GrossIsOriginalValue(before);
      LoadsOneMore(infos);
      SplitWorth(info);
      var b := StartDesk(before).book;
      StartKeys(before);
      assert info.contract !in b;
      GrossAfterUpdate(b, info.contract, ExposureOf(info));
    }
  }

  /** When several exposures name one contract, the last one wins. */
  lemma {:induction false} LastExposureWins(b: Book, es: seq<ContractExposure>, i: nat)
    requires i < |es|
    requires forall j :: i < j < |es| ==> es[j].contract != es[i].contract
    ensures es[i].contract in WithLoaded(b, es) && WithLoaded(b, es)[es[i].contract] == es[i]
  {
    if i < |es| - 1 {
      assert es[..|es| - 1][i] == es[i];
      LastExposureWins(b, es[..|es| - 1], i);
    }
  }

  // ----- The run invariants hold at the start -------------------------------

  lemma {:induction false} PastExecutions(infos: seq<OpenOrderInfo>, id: ClientOrderId, c: ContractKey)
    requires DistinctOrders(infos)
    ensures (forall info :: info in infos ==> info.clientOrderId != id) ==> Executed(PastFills(infos), id) == 0.0
    ensures forall info :: info in infos && info.clientOrderId == id ==>
        Executed(PastFills(infos), id) == FilledPartOf(info)
    ensures (forall info :: info in infos ==> info.contract != c) ==> Traded(PastFills(infos), c) == 0.0
    ensures forall info :: info in infos && info.contract == c ==>
              Traded(PastFills(infos), c) == Worth(FilledPartOf(info), info.price)
  {
    hide Worth;
    if infos != [] {
      var before, info := infos[..|infos| - 1], infos[|infos| - 1];
      assert infos == before + [info];
      PastExecutions(before, id, c);
      var h := PastFills(before);
      var f := FillEvent(info.clientOrderId, info.contract, info.price, FilledPartOf(info), info.remainingSize, 0.0);
      assert PastFills(infos) == h + [f];
      HistoryExtends(h, f);
    }
  }

  lemma {:induction false} PastFillsComeFrom(infos: seq<OpenOrderInfo>, f: FillEvent)
    requires f in PastFills(infos)
    ensures exists info :: info in infos && f.clientOrderId == info.clientOrderId
              && f.filledSize == FilledPartOf(info) && f.price == info.price
  {
    var before, info := infos[..|infos| - 1], infos[|infos| - 1];
    assert infos == before + [info];
    if f in PastFills(before) {
      PastFillsComeFrom(before, f);
    } else {
      assert info in infos;
    }
  }

  /** Every open order with something left to fill is in a live state. */
  predicate RemainderIsLive(infos: seq<OpenOrderInfo>) {
    forall info :: info in infos && Worth(info.remainingSize, info.price) > 0.0 ==> Live(info.state)
  }

  lemma StartFillsSound(infos: seq<OpenOrderInfo>)
    requires Plausible(infos) && DistinctOrders(infos)
    ensures FillsSound(StartDesk(infos), PastFills(infos))
  {
    hide Worth;
    var d, h := StartDesk(infos), PastFills(infos);
    StartKeys(infos);
    forall f | f in h
      ensures f.clientOrderId in d.orders.records && f.filledSize >= 0.0 && f.price >= 0.0
    {
      PastFillsComeFrom(infos, f);
    }
    forall id | id in d.orders.records
      ensures var rec := d.orders.records[id];
              rec.price >= 0.0 && 0.0 <= rec.filledSize <= Executed(h, id) <= rec.size
    {
      var info :| info in infos && info.clientOrderId == id;
      StartEntries(infos, info);
      PastExecutions(infos, id, info.contract);
    }
  }

  lemma StartIndexSound(infos: seq<OpenOrderInfo>)
    requires DistinctOrders(infos)
    ensures IndexSound(StartDesk(infos).orders)
  {
    var o := StartDesk(infos).orders;
    StartKeys(infos);
    forall id | id in o.records
      ensures o.records[id].clientOrderId == id
      ensures Live(o.records[id].state) ==> o.records[id].contract in o.slots && o.slots[o.records[id].contract] == id
    {
      var info :| info in infos && info.clientOrderId == id;
      StartEntries(infos, info);
    }
    forall c | c in o.slots
      ensures o.slots[c] in o.records && o.records[o.slots[c]].contract == c
    {
      var info :| info in infos && info.contract == c && Live(info.state);
      StartEntries(infos, info);
    }
  }

  lemma StartAgreesAt(infos: seq<OpenOrderInfo>, c: ContractKey)
    requires Plausible(infos) && DistinctOrders(infos)
    ensures var d, h := StartDesk(infos), PastFills(infos);
            && FilledOf(d.book, c) == Traded(h, c)
            && (RemainderIsLive(infos) ==> PendingOf(d.book, c) == LiveValue(d, h, c))
  {
    hide Worth, Executed, Traded, PastFills, DistinctOrders;
    var d, h := StartDesk(infos), PastFills(infos);
    StartKeys(infos);
    PastExecutions(infos, "", c);
    if info :| info in infos && info.contract == c {
      StartEntries(infos, info);
      PastExecutions(infos, info.clientOrderId, c);
      SplitWorth(info);
      assert UnfilledSize(d, h, info.clientOrderId) == info.remainingSize;
      StartContractIsUnique(infos, info);
    }
  }

  lemma StartContractIsUnique(infos: seq<OpenOrderInfo>, info: OpenOrderInfo)
    requires DistinctOrders(infos) && info in infos
    ensures forall other :: other in infos && other.contract == info.contract ==> other == info
  {
  }

  /** Reconciliation starts the bot in a sound state exactly when no open order with
      value left is in a state the duplicate check ignores. */
  lemma StartIsSoundIff(infos: seq<OpenOrderInfo>, max: nat)
    requires Plausible(infos) && DistinctOrders(infos)
    requires ActiveCount(StartDesk(infos).orders) <= max
    ensures Sound(StartDesk(infos), PastFills(infos), max) <==> RemainderIsLive(infos)
  {
    hide Worth;
    var d, h := StartDesk(infos), PastFills(infos);
    StartIndexSound(infos);
    StartFillsSound(infos);
    if RemainderIsLive(infos) {
      forall c
        ensures PendingOf(d.book, c) == LiveValue(d, h, c) && FilledOf(d.book, c) == Traded(h, c)
      {
        StartAgreesAt(infos, c);
      }
    } else {
      var info :| info in infos && Worth(info.remainingSize, info.price) > 0.0 && !Live(info.state);
      StartEntries(infos, info);
      StartKeys(infos);
      StartContractIsUnique(infos, info);
      assert info.contract !in d.orders.slots;
      assert PendingOf(d.book, info.contract) > 0.0 && LiveValue(d, h, info.contract) == 0.0;
    }
  }

  lemma {:induction false} NothingKnownAtStart(infos: seq<OpenOrderInfo>)
    ensures KnownCount(EMPTY_ORDERS, infos) == 0
  {
    if infos != [] {
      NothingKnownAtStart(infos[..|infos| - 1]);
    }
  }

  /** So on an empty order tracker reconciliation reports it safe to trade, that is no order
      unknown, only if the venue has no open order at all. */
  lemma SafeOnlyWithoutOrders(infos: seq<OpenOrderInfo>)
    ensures |infos| - KnownCount(EMPTY_ORDERS, infos) == 0 <==> infos == []
  {
    NothingKnownAtStart(infos);
  }
}
