/** Order tracking: every order by client id, plus one slot per contract. */
module Orders {
  import opened Domain

  datatype Orders = Orders(
    records: map<ClientOrderId, OrderRecord>,
    slots: map<ContractKey, ClientOrderId>)

  const EMPTY_ORDERS := Orders(map[], map[])

  // ----- What each operation does to the two maps --------------------------

  function Registered(o: Orders, rec: OrderRecord): Orders {
    Orders(o.records[rec.clientOrderId := rec], o.slots[rec.contract := rec.clientOrderId])
  }

  predicate HasPending(o: Orders, c: ContractKey) {
    c in o.slots && o.slots[c] in o.records && Live(o.records[o.slots[c]].state)
  }

  function StateUpdated(o: Orders, id: ClientOrderId, s: OrderState, vid: Option<VenueOrderId>): Orders {
    if id !in o.records then o
    else
      var rec := o.records[id];
      var rec' := rec.(state := s, venueOrderId := if vid.Some? then vid else rec.venueOrderId);
      Orders(o.records[id := rec'], if Terminal(s) then o.slots - {rec.contract} else o.slots)
  }

  function FillRecorded(o: Orders, id: ClientOrderId, size: real, price: real, s: OrderState): Orders {
    if id !in o.records then o
    else
      var rec := o.records[id];
      var rec' := rec.(filledSize := size, avgFillPrice := Some(price), state := s);
      Orders(o.records[id := rec'], if s == Filled then o.slots - {rec.contract} else o.slots)
  }

  function Loaded(o: Orders, recs: seq<OrderRecord>): Orders {
    if recs == [] then o
    else
      var prev := Loaded(o, recs[..|recs| - 1]);
      var rec := recs[|recs| - 1];
      Orders(
        prev.records[rec.clientOrderId := rec],
        if Live(rec.state) then prev.slots[rec.contract := rec.clientOrderId] else prev.slots)
  }

  /** States counted against the concurrent order limit. */
  predicate Active(s: OrderState) {
    Live(s) || s == Retrying
  }

  function ActiveIds(o: Orders): set<ClientOrderId> {
    set id | id in o.records && Active(o.records[id].state)
  }

  function ActiveCount(o: Orders): nat {
    |ActiveIds(o)|
  }

  // ----- The tracker -------------------------------------------------------

  class OrderTracker {
    var orders: map<ClientOrderId, OrderRecord>
    var pendingContracts: map<ContractKey, ClientOrderId>

    function View(): Orders
      reads this
    {
      Orders(orders, pendingContracts)
    }

    constructor ()
      ensures View() == EMPTY_ORDERS
    {
      orders, pendingContracts := map[], map[];
    }

    method Register(rec: OrderRecord)
      modifies this
      ensures View() == Registered(old(View()), rec)
    {
      orders := orders[rec.clientOrderId := rec];
      pendingContracts := pendingContracts[rec.contract := rec.clientOrderId];
    }

    predicate HasPendingOrder(c: ContractKey)
      reads this
      ensures HasPendingOrder(c) == HasPending(View(), c)
    {
      if c in pendingContracts then
        var id := pendingContracts[c];
        if id in orders then
          var s := orders[id].state;
          s == Pending || s == Acked || s == PartialFill
        else false
      else false
    }

    method UpdateState(id: ClientOrderId, s: OrderState, vid: Option<VenueOrderId>)
      modifies this
      ensures View() == StateUpdated(old(View()), id, s, vid)
    {
      if id in orders {
        var order := orders[id].(state := s);
        if vid.Some? {
          order := order.(venueOrderId := vid);
        }
        orders := orders[id := order];
        if s == Filled || s == Canceled || s == Rejected {
          pendingContracts := pendingContracts - {order.contract};
        }
      }
    }

    method ApplyFill(id: ClientOrderId, size: real, price: real, s: OrderState)
      modifies this
      ensures View() == FillRecorded(old(View()), id, size, price, s)
    {
      if id in orders {
        var order := orders[id].(filledSize := size, avgFillPrice := Some(price), state := s);
        orders := orders[id := order];
        if s == Filled {
          pendingContracts := pendingContracts - {order.contract};
        }
      }
    }

    function ActiveOrderCount(): (n: nat)
      reads this
      ensures n == ActiveCount(View())
    {
      var active := set id |
        && id in orders
        && (orders[id].state == Pending || orders[id].state == Acked
            || orders[id].state == PartialFill || orders[id].state == Retrying);
      assert active == ActiveIds(View());
      |active|
    }

    function Get(id: ClientOrderId): (r: Option<OrderRecord>)
      reads this
      ensures r.Some? <==> id in orders
      ensures r.Some? ==> r.value == orders[id]
    {
      if id in orders then Some(orders[id]) else None
    }

    method MarkUncertain(id: ClientOrderId)
      modifies this
      ensures View() == StateUpdated(old(View()), id, Uncertain, None)
    {
      UpdateState(id, Uncertain, None);
    }

    method LoadFromReconciliation(recs: seq<OrderRecord>)
      modifies this
      ensures View() == Loaded(old(View()), recs)
    {
      for i := 0 to |recs|
        invariant View() == Loaded(old(View()), recs[..i])
      {
        assert recs[..i + 1][..i] == recs[..i];
        var rec := recs[i];
        if rec.state == Pending || rec.state == Acked || rec.state == PartialFill {
          pendingContracts := pendingContracts[rec.contract := rec.clientOrderId];
        }
        orders := orders[rec.clientOrderId := rec];
      }
      assert recs[..|recs|] == recs;
    }
  }

  // ----- Counting active orders --------------------------------------------

  /** Changing one record moves the active count by that record's own change. */
  lemma ActiveCountAfterUpdate(o: Orders, o': Orders, id: ClientOrderId)
    requires id in o'.records
    requires o'.records == o.records[id := o'.records[id]]
    ensures var was := id in o.records && Active(o.records[id].state);
            var now := Active(o'.records[id].state);
            ActiveCount(o') == ActiveCount(o) + (if now then 1 else 0) - (if was then 1 else 0)
  {
    if Active(o'.records[id].state) {
      assert ActiveIds(o') == ActiveIds(o) + {id};
    } else {
      assert ActiveIds(o') == ActiveIds(o) - {id};
    }
  }
}
