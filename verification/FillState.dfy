/** Applies venue events to the order tracker and the exposure tracker. */
module FillState {
  import opened Domain
  import opened Orders
  import opened Exposure
  import opened OrderDesk

  class FillStateProcessor {
    const tracker: OrderTracker
    const exposure: ExposureTracker

    function View(): Desk
      reads tracker, exposure
    {
      Desk(tracker.View(), exposure.exposures)
    }

    constructor (tracker: OrderTracker, exposure: ExposureTracker)
      ensures this.tracker == tracker && this.exposure == exposure
    {
      this.tracker, this.exposure := tracker, exposure;
    }

    method ProcessAck(id: ClientOrderId, vid: VenueOrderId)
      modifies tracker
      ensures View() == AckStep(old(View()), id, vid)
    {
      tracker.UpdateState(id, Acked, Some(vid));
    }

    method ProcessFill(f: FillEvent)
      modifies tracker, exposure
      ensures View() == FillStep(old(View()), f)
    {
      var newState := if f.remainingSize == 0.0 then Filled else PartialFill;
      tracker.ApplyFill(f.clientOrderId, f.filledSize, f.price, newState);
      exposure.ApplyFill(f.contract, f.filledSize, f.price, f.fee);
    }

    method ProcessStateChange(id: ClientOrderId, newState: OrderState)
      modifies tracker, exposure
      ensures View() == ChangeStep(old(View()), id, newState)
    {
      tracker.UpdateState(id, newState, None);
      ghost var orders := tracker.View();
      if newState == Canceled || newState == Rejected {
        var order := tracker.Get(id);
        assert order.Some? <==> id in orders.records;
        if order.Some? {
          var pendingNotional := (order.value.size - order.value.filledSize) * order.value.price;
          assert pendingNotional == Worth(order.value.size - order.value.filledSize, order.value.price);
          assert order.value == orders.records[id];
          exposure.RemovePending(order.value.contract, pendingNotional);
        }
      }
    }
  }
}
