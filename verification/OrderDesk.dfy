/** The order desk: order tracker and exposure book, driven by intents and venue
    events. Its invariant ties the two maps to the history of fills. */
module OrderDesk {
  import opened Domain
  import opened Orders
  import opened Exposure
  import opened Execution

  datatype Desk = Desk(orders: Orders, book: Book)

  const EMPTY_DESK := Desk(EMPTY_ORDERS, map[])

  // ----- One step per event ------------------------------------------------

  function AckStep(d: Desk, id: ClientOrderId, vid: VenueOrderId): Desk {
    d.(orders := StateUpdated(d.orders, id, Acked, Some(vid)))
  }

  function StateAfterFill(f: FillEvent): OrderState {
    if f.remainingSize == 0.0 then Filled else PartialFill
  }

  function FillStep(d: Desk, f: FillEvent): Desk {
    Desk(
      FillRecorded(d.orders, f.clientOrderId, f.filledSize, f.price, StateAfterFill(f)),
      WithFill(d.book, f.contract, f.filledSize, f.price, f.fee))
  }

  function ChangeStep(d: Desk, id: ClientOrderId, s: OrderState): Desk {
    var orders' := StateUpdated(d.orders, id, s, None);
    if (s == Canceled || s == Rejected) && id in orders'.records then
      var rec := orders'.records[id];
      Desk(orders', WithoutPending(d.book, rec.contract, Worth(rec.size - rec.filledSize, rec.price)))
    else
      d.(orders := orders')
  }

  /** Reserve exposure, submit, and release the reservation on failure. */
  function IntentStep(d: Desk, cfg: ExecutionConfig, intent: OrderIntent, id: ClientOrderId, now: int, reply: Reply)
    : (Desk, SubmitResult)
  {
    var reserved := WithPending(d.book, intent.contract, intent.side, intent.Notional());
    var (orders', r) := Submission(d.orders, cfg, intent, id, now, reply);
    (Desk(orders', if r.Failed? then WithoutPending(reserved, intent.contract, intent.Notional()) else reserved), r)
  }

  // ----- The history of fills ----------------------------------------------

  /** Total size the venue has executed on an order. */
  function Executed(h: seq<FillEvent>, id: ClientOrderId): real {
    if h == [] then 0.0
    else
      var f := h[|h| - 1];
      Executed(h[..|h| - 1], id) + if f.clientOrderId == id then f.filledSize else 0.0
  }

  /** Total notional the venue has executed on a contract. */
  function Traded(h: seq<FillEvent>, c: ContractKey): real {
    if h == [] then 0.0
    else
      var f := h[|h| - 1];
      Traded(h[..|h| - 1], c) + if f.contract == c then Worth(f.filledSize, f.price) else 0.0
  }

  function UnfilledSize(d: Desk, h: seq<FillEvent>, id: ClientOrderId): real
    requires id in d.orders.records
  {
    d.orders.records[id].size - Executed(h, id)
  }

  function UnfilledValue(d: Desk, h: seq<FillEvent>, id: ClientOrderId): real
    requires id in d.orders.records
  {
    Worth(UnfilledSize(d, h, id), d.orders.records[id].price)
  }

  /** Price times unfilled size of the contract's live order, 0 without one. */
  function LiveValue(d: Desk, h: seq<FillEvent>, c: ContractKey): real {
    if HasPending(d.orders, c) then UnfilledValue(d, h, d.orders.slots[c]) else 0.0
  }

  // ----- The invariant -----------------------------------------------------

  ghost predicate IndexSound(o: Orders) {
    && (forall id :: id in o.records ==> o.records[id].clientOrderId == id)
    && (forall c :: c in o.slots ==> o.slots[c] in o.records && o.records[o.slots[c]].contract == c)
    && (forall id :: id in o.records && Live(o.records[id].state) ==>
          o.records[id].contract in o.slots && o.slots[o.records[id].contract] == id)
  }

  ghost predicate FillsSound(d: Desk, h: seq<FillEvent>) {
    && (forall f :: f in h ==> f.clientOrderId in d.orders.records && f.filledSize >= 0.0 && f.price >= 0.0)
    && (forall id :: id in d.orders.records ==>
          var rec := d.orders.records[id];
          rec.price >= 0.0 && 0.0 <= rec.filledSize <= Executed(h, id) <= rec.size)
  }

  ghost predicate BookAgrees(d: Desk, h: seq<FillEvent>) {
    forall c :: PendingOf(d.book, c) == LiveValue(d, h, c) && FilledOf(d.book, c) == Traded(h, c)
  }

  ghost predicate Sound(d: Desk, h: seq<FillEvent>, maxOrders: nat) {
    && IndexSound(d.orders)
    && ActiveCount(d.orders) <= maxOrders
    && FillsSound(d, h)
    && BookAgrees(d, h)
  }

  /** The index story told without the index: one live order per contract, and
      the duplicate check sees exactly the live orders. */
  lemma OneLiveOrderPerContract(o: Orders, c: ContractKey)
    requires IndexSound(o)
    ensures HasPending(o, c)
            <==> exists id :: id in o.records && o.records[id].contract == c && Live(o.records[id].state)
    ensures forall a, b ::
              && a in o.records && Live(o.records[a].state)
              && b in o.records && Live(o.records[b].state)
              && o.records[a].contract == o.records[b].contract
              ==> a == b
  {
    if HasPending(o, c) {
      var id := o.slots[c];
      assert id in o.records && o.records[id].contract == c;
    }
  }

  lemma UnknownOrderNeverExecuted(h: seq<FillEvent>, id: ClientOrderId)
    requires forall f :: f in h ==> f.clientOrderId != id
    ensures Executed(h, id) == 0.0
  {
    if h != [] {
      UnknownOrderNeverExecuted(h[..|h| - 1], id);
    }
  }

  lemma HistoryExtends(h: seq<FillEvent>, f: FillEvent)
    ensures forall id :: Executed(h + [f], id) == Executed(h, id) + if f.clientOrderId == id then f.filledSize else 0.0
    ensures forall c ::
              Traded(h + [f], c) == Traded(h, c) + if f.contract == c then Worth(f.filledSize, f.price) else 0.0
  {
    assert (h + [f])[..|h|] == h;
  }

  lemma WorthSign(size: real, price: real)
    requires price >= 0.0
    ensures size >= 0.0 ==> Worth(size, price) >= 0.0
    ensures Worth(size, price) > 0.0 ==> price > 0.0 && size > 0.0
  {
  }

  lemma MoreIsWorthMore(small: real, large: real, price: real)
    requires small <= large && price >= 0.0
    ensures Worth(small, price) <= Worth(large, price)
  {
    assert (large - small) * price == large * price - small * price;
  }

  // ----- Changing one live order -------------------------------------------

  predicate OnLiveOrder(d: Desk, id: ClientOrderId) {
    id in d.orders.records && Live(d.orders.records[id].state)
  }

  /** The order maps after rewriting one record and possibly freeing its slot. */
  function Rewritten(o: Orders, id: ClientOrderId, rec: OrderRecord, freed: bool): Orders {
    Orders(o.records[id := rec], if freed then o.slots - {rec.contract} else o.slots)
  }

  /** Rewriting a live order keeps the index, and the order counts as active
      afterwards exactly when its new state is. */
  lemma RewriteLiveOrder(o: Orders, id: ClientOrderId, rec: OrderRecord, freed: bool)
    requires IndexSound(o)
    requires id in o.records && Live(o.records[id].state)
    requires rec.clientOrderId == o.records[id].clientOrderId && rec.contract == o.records[id].contract
    requires freed ==> !Live(rec.state)
    ensures var o' := Rewritten(o, id, rec, freed);
            && IndexSound(o')
            && ActiveCount(o') == ActiveCount(o) - (if Active(rec.state) then 0 else 1)
  {
    ActiveCountAfterUpdate(o, Rewritten(o, id, rec, freed), id);
  }

  /** No other contract notices, and the order's own contract has a live order
      afterwards exactly when the order itself is still live. */
  lemma RewriteSeenAt(o: Orders, id: ClientOrderId, rec: OrderRecord, freed: bool, c: ContractKey)
    requires IndexSound(o)
    requires id in o.records && Live(o.records[id].state)
    requires rec.contract == o.records[id].contract
    requires freed ==> !Live(rec.state)
    ensures var o' := Rewritten(o, id, rec, freed);
            if c == rec.contract then
              && HasPending(o, c) && o.slots[c] == id
              && (HasPending(o', c) <==> Live(rec.state))
              && (HasPending(o', c) ==> o'.slots[c] == id)
            else
              && (HasPending(o', c) <==> HasPending(o, c))
              && (HasPending(o, c) ==> o'.slots[c] == o.slots[c] && o.slots[c] != id)
  {
  }

  /** Fills stay sound when records keep their price, size and last fill. */
  lemma SameSizesKeepFills(d: Desk, d': Desk, h: seq<FillEvent>)
    requires FillsSound(d, h)
    requires d'.orders.records.Keys == d.orders.records.Keys
    requires forall id :: id in d.orders.records ==>
               var rec, rec' := d.orders.records[id], d'.orders.records[id];
               rec'.price == rec.price && rec'.size == rec.size && rec'.filledSize == rec.filledSize
    ensures FillsSound(d', h)
  {
    forall id | id in d'.orders.records
      ensures var rec := d'.orders.records[id];
              rec.price >= 0.0 && 0.0 <= rec.filledSize <= Executed(h, id) <= rec.size
    {
      assert id in d.orders.records;
    }
  }

  lemma PendingNonnegative(d: Desk, h: seq<FillEvent>, c: ContractKey)
    requires IndexSound(d.orders) && FillsSound(d, h) && BookAgrees(d, h)
    ensures PendingOf(d.book, c) >= 0.0
  {
    hide Worth;
    if HasPending(d.orders, c) {
      var rec := d.orders.records[d.orders.slots[c]];
      WorthSign(UnfilledSize(d, h, d.orders.slots[c]), rec.price);
    }
    assert PendingOf(d.book, c) == LiveValue(d, h, c);
  }

  // ----- Changing one order that is not live ---------------------------------

  predicate OwnsSlot(o: Orders, id: ClientOrderId)
    requires id in o.records
  {
    var c := o.records[id].contract;
    c in o.slots && o.slots[c] == id
  }

  /** The active count if this order were active too. */
  function CountWith(o: Orders, id: ClientOrderId): nat
    requires id in o.records
  {
    ActiveCount(o) + if Active(o.records[id].state) then 0 else 1
  }

  /** An order that stays dead is invisible to the index, unless it frees a slot in use. */
  lemma DeadRewrite(o: Orders, id: ClientOrderId, rec: OrderRecord, freed: bool)
    requires IndexSound(o)
    requires id in o.records && !Live(o.records[id].state) && !Live(rec.state)
    requires rec.clientOrderId == id && rec.contract == o.records[id].contract
    ensures var o' := Rewritten(o, id, rec, freed);
            && (IndexSound(o') <==> (freed ==> !HasPending(o, rec.contract)))
            && ActiveCount(o') == if Active(rec.state) then CountWith(o, id) else CountWith(o, id) - 1
  {
    var o' := Rewritten(o, id, rec, freed);
    ActiveCountAfterUpdate(o, o', id);
    if freed && HasPending(o, rec.contract) {
      var other := o.slots[rec.contract];
      assert other in o'.records && Live(o'.records[other].state) && rec.contract !in o'.slots;
    } else {
      forall other | other in o'.records && Live(o'.records[other].state)
        ensures o'.records[other].contract in o'.slots && o'.slots[o'.records[other].contract] == other
      {
        assert HasPending(o, o.records[other].contract);
      }
    }
  }

  lemma DeadSeenAt(o: Orders, id: ClientOrderId, rec: OrderRecord, freed: bool, c: ContractKey)
    requires IndexSound(o)
    requires id in o.records && !Live(o.records[id].state) && !Live(rec.state)
    requires rec.contract == o.records[id].contract && (freed ==> !HasPending(o, rec.contract))
    ensures var o' := Rewritten(o, id, rec, freed);
            && (HasPending(o', c) <==> HasPending(o, c))
            && (HasPending(o, c) ==> o'.slots[c] == o.slots[c] && o.slots[c] != id)
  {
  }

  /** An order that comes back to life needs its contract's slot. */
  lemma ReviveRewrite(o: Orders, id: ClientOrderId, rec: OrderRecord)
    requires IndexSound(o)
    requires id in o.records && !Live(o.records[id].state) && Live(rec.state)
    requires rec.clientOrderId == id && rec.contract == o.records[id].contract
    ensures var o' := Rewritten(o, id, rec, false);
            && (IndexSound(o') <==> OwnsSlot(o, id))
            && ActiveCount(o') == CountWith(o, id)
  {
    ActiveCountAfterUpdate(o, Rewritten(o, id, rec, false), id);
  }

  lemma ReviveSeenAt(o: Orders, id: ClientOrderId, rec: OrderRecord, c: ContractKey)
    requires IndexSound(o)
    requires id in o.records && !Live(o.records[id].state) && Live(rec.state)
    requires rec.contract == o.records[id].contract && OwnsSlot(o, id)
    ensures var o' := Rewritten(o, id, rec, false);
            if c == rec.contract then
              !HasPending(o, c) && HasPending(o', c) && o'.slots[c] == id
            else
              && (HasPending(o', c) <==> HasPending(o, c))
              && (HasPending(o, c) ==> o'.slots[c] == o.slots[c] && o.slots[c] != id)
  {
  }

  /** When an order that is not live may come back without touching the book. */
  predicate Revivable(d: Desk, h: seq<FillEvent>, max: nat, id: ClientOrderId)
    requires id in d.orders.records
  {
    OwnsSlot(d.orders, id) && UnfilledValue(d, h, id) == 0.0 && CountWith(d.orders, id) <= max
  }

  lemma RevivedIff(d: Desk, h: seq<FillEvent>, max: nat, d': Desk, id: ClientOrderId)
    requires Sound(d, h, max)
    requires id in d.orders.records && !Live(d.orders.records[id].state)
    requires id in d'.orders.records && Live(d'.orders.records[id].state)
    requires d'.book == d.book && d'.orders == Rewritten(d.orders, id, d'.orders.records[id], false)
    requires SameTerms(d.orders.records[id], d'.orders.records[id])
    ensures Sound(d', h, max) <==> Revivable(d, h, max, id)
  {
    hide Worth, FillsSound, Executed, Traded, ActiveCount;
    var c := d.orders.records[id].contract;
    assert d.orders.records[id].clientOrderId == id;
    ReviveRewrite(d.orders, id, d'.orders.records[id]);
    SameSizesKeepFills(d, d', h);
    if OwnsSlot(d.orders, id) {
      assert BookAgrees(d', h) <==> UnfilledValue(d, h, id) == 0.0 by {
        RevivedAgreesIff(d, h, d', id);
      }
    }
  }

  /** Same contract, price, size and last fill. */
  predicate SameTerms(a: OrderRecord, b: OrderRecord) {
    && b.clientOrderId == a.clientOrderId && b.contract == a.contract
    && b.price == a.price && b.size == a.size && b.filledSize == a.filledSize
  }

  lemma RevivedAgreesIff(d: Desk, h: seq<FillEvent>, d': Desk, id: ClientOrderId)
    requires IndexSound(d.orders) && BookAgrees(d, h)
    requires id in d.orders.records && !Live(d.orders.records[id].state) && OwnsSlot(d.orders, id)
    requires id in d'.orders.records && Live(d'.orders.records[id].state)
    requires d'.book == d.book && d'.orders == Rewritten(d.orders, id, d'.orders.records[id], false)
    requires SameTerms(d.orders.records[id], d'.orders.records[id])
    ensures BookAgrees(d', h) <==> UnfilledValue(d, h, id) == 0.0
  {
    hide Worth, IndexSound, Executed, Traded;
    var c := d.orders.records[id].contract;
    forall k
      ensures LiveValue(d', h, k) == if k == c then UnfilledValue(d, h, id) else LiveValue(d, h, k)
      ensures PendingOf(d.book, k) == LiveValue(d, h, k) && FilledOf(d.book, k) == Traded(h, k)
      ensures LiveValue(d, h, c) == 0.0
    {
      ReviveSeenAt(d.orders, id, d'.orders.records[id], k);
      ReviveSeenAt(d.orders, id, d'.orders.records[id], c);
    }
    if BookAgrees(d', h) {
      assert PendingOf(d'.book, c) == LiveValue(d', h, c);
    }
  }

  // ----- Acknowledgements --------------------------------------------------

  /** An acknowledged order must be live, or have no value left and still its slot. */
  predicate AckKeeps(d: Desk, h: seq<FillEvent>, max: nat, id: ClientOrderId) {
    id in d.orders.records ==> Live(d.orders.records[id].state) || Revivable(d, h, max, id)
  }

  /** An acknowledgement keeps the books in agreement exactly when it meets `AckKeeps`. */
  lemma AckKeepsSoundIff(d: Desk, h: seq<FillEvent>, max: nat, id: ClientOrderId, vid: VenueOrderId)
    requires Sound(d, h, max)
    ensures Sound(AckStep(d, id, vid), h, max) <==> AckKeeps(d, h, max, id)
  {
    if id in d.orders.records {
      if Live(d.orders.records[id].state) {
        LiveAckKeepsSound(d, h, max, id, vid);
      } else {
        hide Sound, Revivable;
        RevivedIff(d, h, max, AckStep(d, id, vid), id);
      }
    }
  }

  lemma LiveAckKeepsSound(d: Desk, h: seq<FillEvent>, max: nat, id: ClientOrderId, vid: VenueOrderId)
    requires Sound(d, h, max) && OnLiveOrder(d, id)
    ensures Sound(AckStep(d, id, vid), h, max)
  {
    hide Worth, FillsSound, Executed, Traded;
    var d' := AckStep(d, id, vid);
    RewriteLiveOrder(d.orders, id, d'.orders.records[id], false);
    SameSizesKeepFills(d, d', h);
    forall c
      ensures PendingOf(d'.book, c) == LiveValue(d', h, c) && FilledOf(d'.book, c) == Traded(h, c)
    {
      AckAgreesAt(d, h, id, vid, c);
    }
  }

  lemma AckAgreesAt(d: Desk, h: seq<FillEvent>, id: ClientOrderId, vid: VenueOrderId, c: ContractKey)
    requires IndexSound(d.orders)
    requires PendingOf(d.book, c) == LiveValue(d, h, c) && FilledOf(d.book, c) == Traded(h, c)
    requires OnLiveOrder(d, id)
    ensures var d' := AckStep(d, id, vid);
            PendingOf(d'.book, c) == LiveValue(d', h, c) && FilledOf(d'.book, c) == Traded(h, c)
  {
    hide Worth, IndexSound, Executed, Traded;
    RewriteSeenAt(d.orders, id, AckStep(d, id, vid).orders.records[id], false, c);
  }

  // ----- Fills -------------------------------------------------------------

  /** A fill of nonnegative size and price that does not overfill a known order. */
  predicate Sizeable(d: Desk, h: seq<FillEvent>, f: FillEvent) {
    && f.clientOrderId in d.orders.records
    && f.filledSize >= 0.0 && f.price >= 0.0
    && f.filledSize <= UnfilledSize(d, h, f.clientOrderId)
  }

  /** What a fill of a live order has to be worth. Only value booked on the order's own
      contract counts; a last fill must use up what was pending, another one exactly its
      share, unless nothing of value is left. */
  predicate LiveFillFits(d: Desk, h: seq<FillEvent>, f: FillEvent)
    requires f.clientOrderId in d.orders.records
  {
    var rec, whole := d.orders.records[f.clientOrderId], UnfilledValue(d, h, f.clientOrderId);
    var share := Worth(f.filledSize, rec.price);
    var booked := if f.contract == rec.contract then Worth(f.filledSize, f.price) else 0.0;
    && (f.contract != rec.contract && Worth(f.filledSize, f.price) > 0.0 ==> PendingOf(d.book, f.contract) == 0.0)
    && if f.remainingSize == 0.0 then whole <= booked else booked == share || share == whole <= booked
  }

  /** A fill of an order that is not live must not eat another order's reservation. A last
      fill must not free a slot in use; another one revives the order, with no value left. */
  predicate DeadFillFits(d: Desk, h: seq<FillEvent>, max: nat, f: FillEvent)
    requires f.clientOrderId in d.orders.records
  {
    var id := f.clientOrderId;
    var rec := d.orders.records[id];
    && (Worth(f.filledSize, f.price) > 0.0 ==> PendingOf(d.book, f.contract) == 0.0)
    && if f.remainingSize == 0.0 then !HasPending(d.orders, rec.contract)
       else
         && OwnsSlot(d.orders, id) && CountWith(d.orders, id) <= max
         && Worth(UnfilledSize(d, h, id) - f.filledSize, rec.price) == 0.0
  }

  /** A fill that both trackers digest alike. One of any value needs an entry in the book:
      without it the exposure tracker drops the fill. */
  predicate FillKeeps(d: Desk, h: seq<FillEvent>, max: nat, f: FillEvent) {
    && Sizeable(d, h, f)
    && (Worth(f.filledSize, f.price) > 0.0 ==> f.contract in d.book)
    && if OnLiveOrder(d, f.clientOrderId) then LiveFillFits(d, h, f) else DeadFillFits(d, h, max, f)
  }

  /** The clamp at zero hits the value of the rest exactly for such worths: limit price p,
      unfilled u, a fill of s worth w. */
  lemma FillArithmetic(p: real, u: real, s: real, w: real, final: bool)
    requires p >= 0.0 && 0.0 <= s <= u
    ensures Max(Worth(u, p) - w, 0.0) == (if final then 0.0 else Worth(u - s, p))
            <==> if final then Worth(u, p) <= w else w == Worth(s, p) || Worth(s, p) == Worth(u, p) <= w
  {
    assert (u - s) * p == u * p - s * p;
    WorthSign(u - s, p);
  }

  /** A fill keeps the books in agreement exactly when it meets `FillKeeps`: of any order,
      known or not, live or not, of any size and price. */
  lemma FillKeepsSoundIff(d: Desk, h: seq<FillEvent>, max: nat, f: FillEvent)
    requires Sound(d, h, max)
    ensures Sound(FillStep(d, f), h + [f], max) <==> FillKeeps(d, h, max, f)
  {
    hide Sound, FillStep, FillKeeps;
    var id := f.clientOrderId;
    FillSizesIff(d, h, max, f);
    if Sizeable(d, h, f) {
      if OnLiveOrder(d, id) {
        LiveFillIff(d, h, max, f);
      } else {
        DeadFillIff(d, h, max, f);
      }
    }
  }

  lemma FillSizesIff(d: Desk, h: seq<FillEvent>, max: nat, f: FillEvent)
    requires Sound(d, h, max)
    ensures FillsSound(FillStep(d, f), h + [f]) <==> Sizeable(d, h, f)
    ensures Sound(FillStep(d, f), h + [f], max) ==> Sizeable(d, h, f)
    ensures FillKeeps(d, h, max, f) ==> Sizeable(d, h, f)
  {
    hide WithFill, Worth, Executed, Traded, BookAgrees, IndexSound, ActiveCount;
    var d', h', id := FillStep(d, f), h + [f], f.clientOrderId;
    assert f in h';
    HistoryExtends(h, f);
    if Sizeable(d, h, f) {
      assert 0.0 <= d.orders.records[id].filledSize <= Executed(h, id);
    } else if id in d.orders.records {
      assert d'.orders.records[id].size == d.orders.records[id].size;
    }
  }

  /** Away from the order's own contract live values stay; so the book agrees afterwards
      exactly if it does at the two contracts involved. */
  lemma FillAgreesIff(d: Desk, h: seq<FillEvent>, f: FillEvent, own: ContractKey)
    requires IndexSound(d.orders) && FillsSound(d, h) && BookAgrees(d, h)
    requires f.filledSize >= 0.0 && f.price >= 0.0
    requires forall c :: c != own ==> LiveValue(FillStep(d, f), h + [f], c) == LiveValue(d, h, c)
    ensures var d', h', w := FillStep(d, f), h + [f], Worth(f.filledSize, f.price);
            BookAgrees(d', h') <==>
              && (w > 0.0 ==> f.contract in d.book)
              && Max(PendingOf(d.book, f.contract) - w, 0.0) == LiveValue(d', h', f.contract)
              && (own != f.contract ==> PendingOf(d.book, own) == LiveValue(d', h', own))
  {
    hide WithFill, Worth, Executed, Traded, LiveValue, IndexSound, FillRecorded;
    var d', h', w := FillStep(d, f), h + [f], Worth(f.filledSize, f.price);
    WorthSign(f.filledSize, f.price);
    FillAmounts(d.book, f.contract, f.filledSize, f.price, f.fee);
    HistoryExtends(h, f);
    PendingNonnegative(d, h, f.contract);
    assert forall c :: PendingOf(d.book, c) == LiveValue(d, h, c) && FilledOf(d.book, c) == Traded(h, c);
    hide FillsSound;
    assert FilledOf(d'.book, f.contract) == Traded(h', f.contract) <==> (w > 0.0 ==> f.contract in d.book);
    if w > 0.0 ==> f.contract in d.book {
      assert PendingOf(d'.book, f.contract) == Max(PendingOf(d.book, f.contract) - w, 0.0);
    }
    if BookAgrees(d', h') {
      assert FilledOf(d'.book, f.contract) == Traded(h', f.contract);
      assert PendingOf(d'.book, f.contract) == LiveValue(d', h', f.contract);
      assert PendingOf(d'.book, own) == LiveValue(d', h', own);
    }
  }

  lemma LiveFillIff(d: Desk, h: seq<FillEvent>, max: nat, f: FillEvent)
    requires Sound(d, h, max)
    requires Sizeable(d, h, f) && OnLiveOrder(d, f.clientOrderId)
    ensures Sound(FillStep(d, f), h + [f], max) <==> FillKeeps(d, h, max, f)
  {
    hide Worth, WithFill, PendingOf, FilledOf, LiveValue, Executed, Traded, ActiveCount, LiveFillFits;
    var d', h', id := FillStep(d, f), h + [f], f.clientOrderId;
    var rec := d'.orders.records[id];
    RewriteLiveOrder(d.orders, id, rec, rec.state == Filled);
    FillSizesIff(d, h, max, f);
    LiveFillAgreesIff(d, h, f);
  }

  lemma LiveFillAgreesIff(d: Desk, h: seq<FillEvent>, f: FillEvent)
    requires IndexSound(d.orders) && FillsSound(d, h) && BookAgrees(d, h)
    requires Sizeable(d, h, f) && OnLiveOrder(d, f.clientOrderId)
    ensures BookAgrees(FillStep(d, f), h + [f])
            <==> (Worth(f.filledSize, f.price) > 0.0 ==> f.contract in d.book) && LiveFillFits(d, h, f)
  {
    hide Worth, WithFill, IndexSound, Executed, Traded;
    var d', h', id := FillStep(d, f), h + [f], f.clientOrderId;
    var rec, final := d.orders.records[id], f.remainingSize == 0.0;
    var u, s, w := UnfilledSize(d, h, id), f.filledSize, Worth(f.filledSize, f.price);
    HistoryExtends(h, f);
    forall c
      ensures LiveValue(d', h', c) ==
              if c == rec.contract then (if final then 0.0 else Worth(u - s, rec.price)) else LiveValue(d, h, c)
      ensures PendingOf(d.book, c) == LiveValue(d, h, c) && PendingOf(d.book, rec.contract) == Worth(u, rec.price)
    {
      RewriteSeenAt(d.orders, id, d'.orders.records[id], final, c);
      RewriteSeenAt(d.orders, id, d'.orders.records[id], final, rec.contract);
    }
    assert rec.price >= 0.0;
    FillAgreesIff(d, h, f, rec.contract);
    PendingNonnegative(d, h, f.contract);
    hide FillsSound, BookAgrees, LiveValue, FillStep, PendingOf;
    FillArithmetic(rec.price, u, s, if f.contract == rec.contract then w else 0.0, final);
    WorthSign(s, f.price);
    WorthSign(u, rec.price);
  }

  lemma DeadFillIff(d: Desk, h: seq<FillEvent>, max: nat, f: FillEvent)
    requires Sound(d, h, max)
    requires Sizeable(d, h, f) && !OnLiveOrder(d, f.clientOrderId)
    ensures Sound(FillStep(d, f), h + [f], max) <==> FillKeeps(d, h, max, f)
  {
    hide Worth, WithFill, PendingOf, FilledOf, LiveValue, Executed, Traded, ActiveCount, HasPending;
    var d', h', id := FillStep(d, f), h + [f], f.clientOrderId;
    var rec := d.orders.records[id];
    assert rec.clientOrderId == id;
    FillSizesIff(d, h, max, f);
    if f.remainingSize == 0.0 {
      DeadRewrite(d.orders, id, d'.orders.records[id], true);
      if !HasPending(d.orders, rec.contract) {
        DeadFillAgreesIff(d, h, f);
      }
    } else {
      ReviveRewrite(d.orders, id, d'.orders.records[id]);
      if OwnsSlot(d.orders, id) {
        RevivingFillAgreesIff(d, h, f);
      }
    }
  }

  lemma DeadFillAgreesIff(d: Desk, h: seq<FillEvent>, f: FillEvent)
    requires IndexSound(d.orders) && FillsSound(d, h) && BookAgrees(d, h)
    requires Sizeable(d, h, f) && !OnLiveOrder(d, f.clientOrderId) && f.remainingSize == 0.0
    requires !HasPending(d.orders, d.orders.records[f.clientOrderId].contract)
    ensures BookAgrees(FillStep(d, f), h + [f])
            <==> (Worth(f.filledSize, f.price) > 0.0 ==> f.contract in d.book && PendingOf(d.book, f.contract) == 0.0)
  {
    hide Worth, WithFill, IndexSound, Executed, Traded;
    var d', h', id := FillStep(d, f), h + [f], f.clientOrderId;
    var rec := d.orders.records[id];
    HistoryExtends(h, f);
    forall c
      ensures LiveValue(d', h', c) == LiveValue(d, h, c)
      ensures PendingOf(d.book, c) == LiveValue(d, h, c)
    {
      DeadSeenAt(d.orders, id, d'.orders.records[id], true, c);
    }
    FillAgreesIff(d, h, f, rec.contract);
    PendingNonnegative(d, h, f.contract);
    WorthSign(f.filledSize, f.price);
    hide FillsSound, BookAgrees, LiveValue, FillStep, PendingOf;
  }

  lemma RevivingFillAgreesIff(d: Desk, h: seq<FillEvent>, f: FillEvent)
    requires IndexSound(d.orders) && FillsSound(d, h) && BookAgrees(d, h)
    requires Sizeable(d, h, f) && !OnLiveOrder(d, f.clientOrderId) && f.remainingSize != 0.0
    requires OwnsSlot(d.orders, f.clientOrderId)
    ensures BookAgrees(FillStep(d, f), h + [f])
            <==> && (Worth(f.filledSize, f.price) > 0.0 ==>
                f.contract in d.book && PendingOf(d.book, f.contract) == 0.0)
                 && Worth(UnfilledSize(d, h, f.clientOrderId) - f.filledSize,
                    d.orders.records[f.clientOrderId].price) == 0.0
  {
    hide Worth, WithFill, IndexSound, Executed, Traded;
    var d', h', id := FillStep(d, f), h + [f], f.clientOrderId;
    var rec := d.orders.records[id];
    var left := Worth(UnfilledSize(d, h, id) - f.filledSize, rec.price);
    HistoryExtends(h, f);
    forall c
      ensures LiveValue(d', h', c) == if c == rec.contract then left else LiveValue(d, h, c)
      ensures PendingOf(d.book, c) == LiveValue(d, h, c) && PendingOf(d.book, rec.contract) == 0.0
    {
      ReviveSeenAt(d.orders, id, d'.orders.records[id], c);
      ReviveSeenAt(d.orders, id, d'.orders.records[id], rec.contract);
    }
    FillAgreesIff(d, h, f, rec.contract);
    PendingNonnegative(d, h, f.contract);
    WorthSign(f.filledSize, f.price);
    hide FillsSound, BookAgrees, LiveValue, FillStep, PendingOf;
  }

  // ----- State changes -----------------------------------------------------

  /** A live order may only stay live or be cancelled or rejected, unless it has no value
      left. Another order must not be revived with value left, nor free a slot in use. */
  predicate ChangeKeeps(d: Desk, h: seq<FillEvent>, max: nat, id: ClientOrderId, s: OrderState) {
    id in d.orders.records ==>
      var rec := d.orders.records[id];
      if Live(rec.state) then Live(s) || s == Canceled || s == Rejected || UnfilledValue(d, h, id) == 0.0
      else if Live(s) then Revivable(d, h, max, id)
      else (Terminal(s) ==> !HasPending(d.orders, rec.contract)) && (s == Retrying ==> CountWith(d.orders, id) <= max)
  }

  /** A state change keeps the books in agreement exactly when it meets `ChangeKeeps`. */
  lemma ChangeKeepsSoundIff(d: Desk, h: seq<FillEvent>, max: nat, id: ClientOrderId, s: OrderState)
    requires Sound(d, h, max)
    ensures Sound(ChangeStep(d, id, s), h, max) <==> ChangeKeeps(d, h, max, id, s)
  {
    if id in d.orders.records {
      hide Worth, Revivable, Sound;
      if Live(d.orders.records[id].state) {
        if Live(s) || s == Canceled || s == Rejected {
          LiveChangeKeepsSound(d, h, max, id, s);
        } else {
          LiveEndsIff(d, h, max, id, s);
        }
      } else if Live(s) {
        RevivedIff(d, h, max, ChangeStep(d, id, s), id);
      } else {
        hide ChangeStep;
        DeadChangeIff(d, h, max, id, s);
      }
    }
  }

  lemma LiveChangeKeepsSound(d: Desk, h: seq<FillEvent>, max: nat, id: ClientOrderId, s: OrderState)
    requires Sound(d, h, max)
    requires OnLiveOrder(d, id)
    requires Live(s) || s == Canceled || s == Rejected
    ensures Sound(ChangeStep(d, id, s), h, max)
  {
    hide Worth, WithoutPending, Executed, Traded, IndexSound, ActiveCount;
    var d' := ChangeStep(d, id, s);
    RewriteLiveOrder(d.orders, id, d'.orders.records[id], Terminal(s));
    assert FillsSound(d', h) by {
      SameSizesKeepFills(d, d', h);
    }
    assert BookAgrees(d', h) by {
      hide PendingOf, FilledOf, LiveValue;
      forall c
        ensures PendingOf(d'.book, c) == LiveValue(d', h, c) && FilledOf(d'.book, c) == Traded(h, c)
      {
        LiveChangeAgreesAt(d, h, id, s, c);
      }
    }
  }

  lemma LiveChangeAgreesAt(d: Desk, h: seq<FillEvent>, id: ClientOrderId, s: OrderState, c: ContractKey)
    requires IndexSound(d.orders)
    requires PendingOf(d.book, c) == LiveValue(d, h, c) && FilledOf(d.book, c) == Traded(h, c)
    requires OnLiveOrder(d, id)
    requires var rec := d.orders.records[id];
             rec.price >= 0.0 && rec.filledSize <= Executed(h, id)
    requires Live(s) || s == Canceled || s == Rejected
    ensures var d' := ChangeStep(d, id, s);
            PendingOf(d'.book, c) == LiveValue(d', h, c) && FilledOf(d'.book, c) == Traded(h, c)
  {
    hide Worth, WithoutPending, Executed, Traded, IndexSound;
    var d' := ChangeStep(d, id, s);
    var rec := d'.orders.records[id];
    RewriteSeenAt(d.orders, id, rec, Terminal(s), c);
    PendingAmounts(d.book, rec.contract, rec.side, Worth(rec.size - rec.filledSize, rec.price));
    CancelDrains(rec.price, rec.size, rec.filledSize, Executed(h, id));
  }

  /** The release computed from the last fill covers everything still pending. */
  lemma CancelDrains(price: real, size: real, lastFill: real, executed: real)
    requires price >= 0.0 && lastFill <= executed
    ensures Max(Worth(size - executed, price) - Worth(size - lastFill, price), 0.0) == 0.0
  {
    assert (size - executed) * price - (size - lastFill) * price == (lastFill - executed) * price;
  }

  /** A live order that ends without a release must have nothing pending. */
  lemma LiveEndsIff(d: Desk, h: seq<FillEvent>, max: nat, id: ClientOrderId, s: OrderState)
    requires Sound(d, h, max) && OnLiveOrder(d, id)
    requires !Live(s) && s != Canceled && s != Rejected
    ensures Sound(ChangeStep(d, id, s), h, max) <==> UnfilledValue(d, h, id) == 0.0
  {
    hide Worth, FillsSound, Executed, Traded, IndexSound, ActiveCount;
    var d' := ChangeStep(d, id, s);
    var c := d.orders.records[id].contract;
    RewriteLiveOrder(d.orders, id, d'.orders.records[id], Terminal(s));
    SameSizesKeepFills(d, d', h);
    forall k
      ensures LiveValue(d', h, k) == if k == c then 0.0 else LiveValue(d, h, k)
      ensures PendingOf(d.book, k) == LiveValue(d, h, k) && PendingOf(d.book, c) == UnfilledValue(d, h, id)
    {
      RewriteSeenAt(d.orders, id, d'.orders.records[id], Terminal(s), k);
      RewriteSeenAt(d.orders, id, d'.orders.records[id], Terminal(s), c);
    }
    if Sound(d', h, max) {
      assert PendingOf(d'.book, c) == LiveValue(d', h, c);
    }
  }

  lemma DeadChangeIff(d: Desk, h: seq<FillEvent>, max: nat, id: ClientOrderId, s: OrderState)
    requires Sound(d, h, max)
    requires id in d.orders.records && !Live(d.orders.records[id].state) && !Live(s)
    ensures Sound(ChangeStep(d, id, s), h, max) <==> ChangeKeeps(d, h, max, id, s)
  {
    hide Worth, WithoutPending, FillsSound, BookAgrees, Executed, Traded, ActiveCount, HasPending;
    var d' := ChangeStep(d, id, s);
    assert d.orders.records[id].clientOrderId == id;
    DeadRewrite(d.orders, id, d'.orders.records[id], Terminal(s));
    hide IndexSound;
    assert FillsSound(d', h) by {
      SameSizesKeepFills(d, d', h);
    }
    if Terminal(s) ==> !HasPending(d.orders, d.orders.records[id].contract) {
      DeadChangeAgrees(d, h, id, s);
    }
  }

  lemma DeadChangeAgrees(d: Desk, h: seq<FillEvent>, id: ClientOrderId, s: OrderState)
    requires IndexSound(d.orders) && FillsSound(d, h) && BookAgrees(d, h)
    requires id in d.orders.records && !Live(d.orders.records[id].state) && !Live(s)
    requires Terminal(s) ==> !HasPending(d.orders, d.orders.records[id].contract)
    ensures BookAgrees(ChangeStep(d, id, s), h)
  {
    hide Worth, ChangeStep, IndexSound, HasPending, PendingOf, FilledOf, LiveValue, Traded;
    var rec := d.orders.records[id];
    assert rec.price >= 0.0 && rec.filledSize <= rec.size;
    hide FillsSound;
    forall c
      ensures PendingOf(ChangeStep(d, id, s).book, c) == LiveValue(ChangeStep(d, id, s), h, c)
      ensures FilledOf(ChangeStep(d, id, s).book, c) == Traded(h, c)
    {
      assert PendingOf(d.book, c) == LiveValue(d, h, c);
      DeadChangeAgreesAt(d, h, id, s, c);
    }
  }

  lemma DeadChangeAgreesAt(d: Desk, h: seq<FillEvent>, id: ClientOrderId, s: OrderState, c: ContractKey)
    requires IndexSound(d.orders)
    requires PendingOf(d.book, c) == LiveValue(d, h, c) && FilledOf(d.book, c) == Traded(h, c)
    requires id in d.orders.records && !Live(d.orders.records[id].state) && !Live(s)
    requires var rec := d.orders.records[id]; rec.price >= 0.0 && rec.filledSize <= rec.size
    requires Terminal(s) ==> !HasPending(d.orders, d.orders.records[id].contract)
    ensures var d' := ChangeStep(d, id, s);
            PendingOf(d'.book, c) == LiveValue(d', h, c) && FilledOf(d'.book, c) == Traded(h, c)
  {
    hide Worth, WithoutPending, IndexSound, Executed, Traded;
    var d' := ChangeStep(d, id, s);
    var rec := d'.orders.records[id];
    WorthSign(rec.size - rec.filledSize, rec.price);
    PendingAmounts(d.book, rec.contract, rec.side, Worth(rec.size - rec.filledSize, rec.price));
  }
}
