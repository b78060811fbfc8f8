/** Runs that show why the environment must respect `OrderRuns.Allowed`. Each holds
    for every intent of positive size and price, not for one chosen input. */
module OrderWitnesses {
  import opened Domain
  import opened Orders
  import opened Exposure
  import opened Execution
  import opened OrderDesk
  import opened OrderRuns

  predicate Tradeable(cfg: ExecutionConfig, intent: OrderIntent, now: int) {
    && intent.size > 0.0
    && intent.targetPrice > 0.0
    && now - intent.signalTimestamp <= cfg.staleSignalThreshold
  }

  /** A final fill below the limit price leaves the price improvement pending
      although no order is open any more. */
  lemma ImprovedFillLeaks(cfg: ExecutionConfig, intent: OrderIntent, id: ClientOrderId, now: int,
          vid: VenueOrderId, price: real)
    requires cfg.maxConcurrentOrders >= 1 && Tradeable(cfg, intent, now)
    requires 0.0 <= price < intent.targetPrice
    ensures var fill := FillEvent(id, intent.contract, price, intent.size, 0.0, 0.0);
            var d := Run(EMPTY_DESK, cfg, [Intent(intent, id, now, Ok(vid, Acked)), Fill(fill)]);
            && !SomeLiveOrder(d.orders, intent.contract)
            && PendingOf(d.book, intent.contract) == intent.size * (intent.targetPrice - price) > 0.0
  {
    hide IntentStep, FillStep;
    var fill := FillEvent(id, intent.contract, price, intent.size, 0.0, 0.0);
    var placed := Intent(intent, id, now, Ok(vid, Acked));
    RunExtends(EMPTY_DESK, cfg, [], placed);
    RunExtends(EMPTY_DESK, cfg, [] + [placed], Fill(fill));
    assert [] + [placed] + [Fill(fill)] == [placed, Fill(fill)];
    LoneOrder(cfg, intent, id, now, vid);
    LoneOrderFilled(Step(EMPTY_DESK, cfg, placed), intent, id, fill);
    assert intent.size * intent.targetPrice - intent.size * price == intent.size * (intent.targetPrice - price);
  }

  /** The desk after one intent was placed on empty trackers. */
  lemma LoneOrder(cfg: ExecutionConfig, intent: OrderIntent, id: ClientOrderId, now: int, vid: VenueOrderId)
    requires cfg.maxConcurrentOrders >= 1 && Tradeable(cfg, intent, now)
    ensures var d := IntentStep(EMPTY_DESK, cfg, intent, id, now, Ok(vid, Acked)).0;
            && d.orders.records.Keys == {id} && d.orders.records[id].contract == intent.contract
            && intent.contract in d.book && PendingOf(d.book, intent.contract) == intent.size * intent.targetPrice
  {
    assert ActiveIds(EMPTY_ORDERS) == {};
  }

  lemma LoneOrderFilled(d: Desk, intent: OrderIntent, id: ClientOrderId, fill: FillEvent)
    requires d.orders.records.Keys == {id} && d.orders.records[id].contract == intent.contract
    requires intent.contract in d.book && PendingOf(d.book, intent.contract) == intent.size * intent.targetPrice
    requires 0.0 <= fill.price < intent.targetPrice && intent.size > 0.0
    requires fill == FillEvent(id, intent.contract, fill.price, intent.size, 0.0, 0.0)
    ensures var d' := FillStep(d, fill);
            && !SomeLiveOrder(d'.orders, intent.contract)
            && PendingOf(d'.book, intent.contract) == intent.size * intent.targetPrice - intent.size * fill.price > 0.0
  {
    hide WithFill;
    FillAmounts(d.book, intent.contract, intent.size, fill.price, 0.0);
    MulMonotone(fill.price, intent.targetPrice, intent.size);
    assert Mul(fill.price, intent.size) == intent.size * fill.price
        && Mul(intent.targetPrice, intent.size) == intent.size * intent.targetPrice;
  }

  /** An acknowledgement overtaken by the final fill revives the order without a
      slot: it stays active for ever, and the duplicate check cannot see it. */
  lemma LateAckRevives(d: Desk, f: FillEvent, vid: VenueOrderId)
    requires IndexSound(d.orders)
    requires OnLiveOrder(d, f.clientOrderId) && f.remainingSize == 0.0
    ensures var c := d.orders.records[f.clientOrderId].contract;
            var d' := AckStep(FillStep(d, f), f.clientOrderId, vid);
            && OnLiveOrder(d', f.clientOrderId)
            && !HasPending(d'.orders, c)
            && SomeLiveOrder(d'.orders, c)
  {
    hide Worth, WithFill;
    var c := d.orders.records[f.clientOrderId].contract;
    var d1 := FillStep(d, f);
    var d' := AckStep(d1, f.clientOrderId, vid);
    assert c !in d1.orders.slots;
    assert d'.orders.records[f.clientOrderId].contract == c;
  }

  /** The failure the Uncertain state exists for: the client reports an error but the venue
      has the order and fills it. The order is marked Filled, yet its reservation is gone
      and the exposure tracker drops the fill, so the position is not tracked at all. */
  lemma UncertainFillIsLost(cfg: ExecutionConfig, intent: OrderIntent, id: ClientOrderId, now: int, e: ClientError)
    requires cfg.maxConcurrentOrders >= 1 && Tradeable(cfg, intent, now)
    ensures var fill := FillEvent(id, intent.contract, intent.targetPrice, intent.size, 0.0, 0.0);
            var es := [Intent(intent, id, now, Err(e)), Fill(fill)];
            var d := Run(EMPTY_DESK, cfg, es);
            && d.book == map[]
            && Traded(FillsOf(es), intent.contract) == intent.Notional() > 0.0
            && d.orders.records.Keys == {id} && d.orders.records[id].state == Filled
  {
    hide IntentStep, FillStep, Tradeable, Worth;
    var fill := FillEvent(id, intent.contract, intent.targetPrice, intent.size, 0.0, 0.0);
    var failed := Intent(intent, id, now, Err(e));
    RunExtends(EMPTY_DESK, cfg, [], failed);
    RunExtends(EMPTY_DESK, cfg, [] + [failed], Fill(fill));
    assert [] + [failed] + [Fill(fill)] == [failed, Fill(fill)];
    LoneFailure(cfg, intent, id, now, e);
    DroppedFill(Step(EMPTY_DESK, cfg, failed), fill);
    assert [failed, Fill(fill)][..1] == [failed] && [failed][..0] == [];
    assert FillsOf([failed]) == [];
    assert FillsOf([failed, Fill(fill)]) == [] + [fill] == [fill] && [fill][..0] == [];
  }

  lemma LoneFailure(cfg: ExecutionConfig, intent: OrderIntent, id: ClientOrderId, now: int, e: ClientError)
    requires cfg.maxConcurrentOrders >= 1 && Tradeable(cfg, intent, now)
    ensures var d := IntentStep(EMPTY_DESK, cfg, intent, id, now, Err(e)).0;
            && d.book == map[] && d.orders.records.Keys == {id} && d.orders.records[id].state == Uncertain
    ensures intent.Notional() > 0.0
  {
    assert ActiveIds(EMPTY_ORDERS) == {};
    RemoveUndoesAdd(map[], intent.contract, intent.side, intent.Notional());
  }

  lemma DroppedFill(d: Desk, f: FillEvent)
    requires f.contract !in d.book && d.orders.records.Keys == {f.clientOrderId} && f.remainingSize == 0.0
    ensures var d' := FillStep(d, f);
            && d'.book == d.book && d'.orders.records.Keys == {f.clientOrderId}
            && d'.orders.records[f.clientOrderId].state == Filled
  {
  }

  /** An acknowledgement of an uncertain order, once the contract has a new order,
      gives the contract two live orders. */
  lemma UncertainAckDoubles(cfg: ExecutionConfig, first: OrderIntent, second: OrderIntent,
                            a: ClientOrderId, b: ClientOrderId, now: int, e: ClientError, vid: VenueOrderId)
    requires cfg.maxConcurrentOrders >= 1 && a != b
    requires Tradeable(cfg, first, now) && Tradeable(cfg, second, now) && first.contract == second.contract
    ensures var es := [Intent(first, a, now, Err(e)), Intent(second, b, now, Ok(vid, Acked)), Ack(a, vid)];
            var d := Run(EMPTY_DESK, cfg, es);
            && OnLiveOrder(d, a) && OnLiveOrder(d, b)
            && d.orders.records[a].contract == d.orders.records[b].contract
  {
    hide IntentStep, AckStep, Tradeable;
    var failed, placed := Intent(first, a, now, Err(e)), Intent(second, b, now, Ok(vid, Acked));
    RunExtends(EMPTY_DESK, cfg, [], failed);
    RunExtends(EMPTY_DESK, cfg, [] + [failed], placed);
    RunExtends(EMPTY_DESK, cfg, [] + [failed] + [placed], Ack(a, vid));
    assert [] + [failed] + [placed] + [Ack(a, vid)] == [failed, placed, Ack(a, vid)];
    assert ActiveIds(EMPTY_ORDERS) == {};
    FirstAnswer(EMPTY_DESK, cfg, first, a, now, Err(e));
    var d1 := Step(EMPTY_DESK, cfg, failed);
    FirstAnswer(d1, cfg, second, b, now, Ok(vid, Acked));
    AckRevives(Step(d1, cfg, placed), a, vid);
  }

  /** An admitted intent adds one record, live or uncertain as the venue answered. */
  lemma FirstAnswer(d: Desk, cfg: ExecutionConfig, intent: OrderIntent, id: ClientOrderId, now: int, reply: Reply)
    requires id !in d.orders.records && !HasPending(d.orders, intent.contract)
    requires Tradeable(cfg, intent, now) && ActiveCount(d.orders) < cfg.maxConcurrentOrders
    requires reply.Ok? ==> Live(reply.status)
    ensures var o, o' := d.orders, IntentStep(d, cfg, intent, id, now, reply).0.orders;
            && o'.records.Keys == o.records.Keys + {id}
            && (forall k :: k in o.records ==> o'.records[k] == o.records[k])
            && o'.records[id].contract == intent.contract
            && o'.records[id].state == (if reply.Ok? then reply.status else Uncertain)
            && (HasPending(o', intent.contract) <==> reply.Ok?)
            && (reply.Err? ==> ActiveCount(o') == ActiveCount(o))
  {
    hide Worth, WithPending, WithoutPending, ActiveIds;
    ActiveCountAfterUpdate(d.orders, IntentStep(d, cfg, intent, id, now, reply).0.orders, id);
  }

  lemma AckRevives(d: Desk, id: ClientOrderId, vid: VenueOrderId)
    requires id in d.orders.records
    ensures var d' := AckStep(d, id, vid);
            && OnLiveOrder(d', id)
            && d'.orders.records.Keys == d.orders.records.Keys
            && (forall k :: k in d.orders.records ==> d'.orders.records[k].contract == d.orders.records[k].contract)
            && (forall k :: OnLiveOrder(d, k) ==> OnLiveOrder(d', k))
  {
  }

  /** A second cancellation of a dead order frees the slot of the contract's new
      live order, so a third order would be let through. */
  lemma RepeatedCancelFreesSlot(d: Desk, id: ClientOrderId, other: ClientOrderId)
    requires IndexSound(d.orders)
    requires OnLiveOrder(d, other) && id in d.orders.records && d.orders.records[id].state == Canceled
    requires d.orders.records[id].contract == d.orders.records[other].contract
    ensures var d' := ChangeStep(d, id, Canceled);
            var c := d.orders.records[other].contract;
            OnLiveOrder(d', other) && !HasPending(d'.orders, c) && HasPending(d.orders, c)
  {
    OneLiveOrderPerContract(d.orders, d.orders.records[other].contract);
  }
}
