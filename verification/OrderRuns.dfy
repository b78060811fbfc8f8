/** Whole runs of the order desk: intents and venue events in any order. */
module OrderRuns {
  import opened Domain
  import opened Orders
  import opened Exposure
  import opened Execution
  import opened OrderDesk

  // ----- Intents -----------------------------------------------------------

  /** The order maps after a new record was registered and answered, perhaps finally. */
  function Placed(o: Orders, rec: OrderRecord, freed: bool): Orders {
    var o' := Registered(o, rec);
    if freed then o'.(slots := o'.slots - {rec.contract}) else o'
  }

  lemma NewOrderKeepsIndex(o: Orders, rec: OrderRecord, freed: bool)
    requires IndexSound(o) && rec.clientOrderId !in o.records && !HasPending(o, rec.contract)
    requires freed ==> !Live(rec.state)
    ensures IndexSound(Placed(o, rec, freed))
    ensures ActiveCount(Placed(o, rec, freed)) == ActiveCount(o) + if Active(rec.state) then 1 else 0
  {
    var o' := Placed(o, rec, freed);
    ActiveCountAfterUpdate(o, o', rec.clientOrderId);
    forall id | id in o'.records && Live(o'.records[id].state)
      ensures o'.records[id].contract in o'.slots && o'.slots[o'.records[id].contract] == id
    {
      if id != rec.clientOrderId {
        assert HasPending(o, o.records[id].contract);
      }
    }
  }

  lemma NewOrderSeenAt(o: Orders, rec: OrderRecord, freed: bool, c: ContractKey)
    requires IndexSound(o) && rec.clientOrderId !in o.records
    requires freed ==> !Live(rec.state)
    ensures var o' := Placed(o, rec, freed);
            if c == rec.contract then
              && (HasPending(o', c) <==> Live(rec.state))
              && (HasPending(o', c) ==> o'.slots[c] == rec.clientOrderId)
            else
              && (HasPending(o', c) <==> HasPending(o, c))
              && (HasPending(o, c) ==> o'.slots[c] == o.slots[c] && o.slots[c] != rec.clientOrderId)
  {
  }

  lemma NewOrderKeepsFills(d: Desk, d': Desk, h: seq<FillEvent>, rec: OrderRecord, freed: bool)
    requires FillsSound(d, h) && rec.clientOrderId !in d.orders.records
    requires d'.orders == Placed(d.orders, rec, freed)
    requires rec.price >= 0.0 && rec.size >= 0.0 && rec.filledSize == 0.0
    ensures FillsSound(d', h)
    ensures Executed(h, rec.clientOrderId) == 0.0
  {
    UnknownOrderNeverExecuted(h, rec.clientOrderId);
  }

  /** Nothing is asked of an intent that is refused. One that is admitted needs a size and
      a price, and unless its submission fails the venue's answer must leave it live, or
      nothing of value was reserved. */
  predicate IntentKeeps(d: Desk, cfg: ExecutionConfig, intent: OrderIntent, now: int, reply: Reply) {
    Refusal(d.orders, cfg, intent, now).None? ==>
      && intent.size >= 0.0 && intent.targetPrice >= 0.0
      && (reply.Ok? ==> Live(reply.status) || intent.Notional() == 0.0)
  }

  /** A refused intent leaves every amount as it was. */
  lemma RefusedIntentKeepsSound(d: Desk, h: seq<FillEvent>, cfg: ExecutionConfig, intent: OrderIntent,
          id: ClientOrderId, now: int, reply: Reply)
    requires Sound(d, h, cfg.maxConcurrentOrders)
    requires Refusal(d.orders, cfg, intent, now).Some?
    ensures Sound(IntentStep(d, cfg, intent, id, now, reply).0, h, cfg.maxConcurrentOrders)
  {
    hide Worth, WithPending, WithoutPending, Executed, Traded, IndexSound, ActiveCount;
    var d' := IntentStep(d, cfg, intent, id, now, reply).0;
    PendingNonnegative(d, h, intent.contract);
    RemoveUndoesAdd(d.book, intent.contract, intent.side, intent.Notional());
    forall k
      ensures PendingOf(d'.book, k) == LiveValue(d', h, k) && FilledOf(d'.book, k) == Traded(h, k)
    {
      assert PendingOf(d.book, k) == LiveValue(d, h, k);
    }
  }

  /** An admitted intent adds one record: the trackers agree afterwards exactly if what
      stays reserved is the new order's live value. */
  lemma AdmittedIntentIff(d: Desk, h: seq<FillEvent>, cfg: ExecutionConfig, intent: OrderIntent,
          id: ClientOrderId, now: int, reply: Reply)
    requires Sound(d, h, cfg.maxConcurrentOrders)
    requires id !in d.orders.records && Refusal(d.orders, cfg, intent, now).None?
    requires intent.size >= 0.0 && intent.targetPrice >= 0.0
    ensures Sound(IntentStep(d, cfg, intent, id, now, reply).0, h, cfg.maxConcurrentOrders)
            <==> (reply.Ok? ==> Live(reply.status) || intent.Notional() == 0.0)
  {
    hide Worth, WithPending, WithoutPending, Executed, Traded, IndexSound, LiveValue, PendingOf, FilledOf;
    var d' := IntentStep(d, cfg, intent, id, now, reply).0;
    var rec := d'.orders.records[id];
    var freed := reply.Ok? && Terminal(reply.status);
    assert d'.orders == Placed(d.orders, rec, freed);
    NewOrderKeepsIndex(d.orders, rec, freed);
    NewOrderKeepsFills(d, d', h, rec, freed);
    IntentAgreesIff(d, h, cfg, intent, id, now, reply);
  }

  /** Only a submission the venue answered leaves its notional reserved. */
  lemma IntentAmounts(d: Desk, cfg: ExecutionConfig, intent: OrderIntent, id: ClientOrderId, now: int, reply: Reply)
    requires PendingOf(d.book, intent.contract) >= 0.0
    ensures var (d', r) := IntentStep(d, cfg, intent, id, now, reply);
            var left := if r.Submitted? then intent.Notional() else 0.0;
            && (r.Submitted? <==> Refusal(d.orders, cfg, intent, now).None? && reply.Ok?)
            && forall k :: PendingOf(d'.book, k) == PendingOf(d.book, k) + (if k == intent.contract then left else 0.0)
                           && FilledOf(d'.book, k) == FilledOf(d.book, k)
  {
    hide Worth, Registered, StateUpdated, WithPending, WithoutPending, Refusal;
    RemoveUndoesAdd(d.book, intent.contract, intent.side, intent.Notional());
    PendingAmounts(d.book, intent.contract, intent.side, intent.Notional());
  }

  lemma NewOrderAgreesIff(d: Desk, d': Desk, h: seq<FillEvent>, rec: OrderRecord, freed: bool, left: real)
    requires IndexSound(d.orders) && BookAgrees(d, h)
    requires rec.clientOrderId !in d.orders.records && !HasPending(d.orders, rec.contract)
    requires freed ==> !Live(rec.state)
    requires d'.orders == Placed(d.orders, rec, freed) && Executed(h, rec.clientOrderId) == 0.0
    requires forall k :: PendingOf(d'.book, k) == PendingOf(d.book, k) + (if k == rec.contract then left else 0.0)
                         && FilledOf(d'.book, k) == FilledOf(d.book, k)
    ensures BookAgrees(d', h) <==> left == if Live(rec.state) then Worth(rec.size, rec.price) else 0.0
  {
    hide Worth, IndexSound, Executed, Traded, PendingOf, FilledOf;
    var worth := if Live(rec.state) then Worth(rec.size, rec.price) else 0.0;
    forall k
      ensures LiveValue(d', h, k) == LiveValue(d, h, k) + if k == rec.contract then worth else 0.0
      ensures PendingOf(d.book, k) == LiveValue(d, h, k) && FilledOf(d.book, k) == Traded(h, k)
    {
      NewOrderSeenAt(d.orders, rec, freed, k);
    }
    hide LiveValue, HasPending;
    if BookAgrees(d', h) {
      assert PendingOf(d'.book, rec.contract) == LiveValue(d', h, rec.contract);
    }
  }

  lemma IntentAgreesIff(d: Desk, h: seq<FillEvent>, cfg: ExecutionConfig, intent: OrderIntent,
          id: ClientOrderId, now: int, reply: Reply)
    requires IndexSound(d.orders) && FillsSound(d, h) && BookAgrees(d, h)
    requires id !in d.orders.records && Executed(h, id) == 0.0
    requires Refusal(d.orders, cfg, intent, now).None?
    ensures BookAgrees(IntentStep(d, cfg, intent, id, now, reply).0, h)
            <==> (reply.Ok? ==> Live(reply.status) || intent.Notional() == 0.0)
  {
    hide Worth, WithPending, WithoutPending, Executed, IndexSound, ActiveCount, BookAgrees, HasPending,
        PendingOf, FilledOf;
    var d' := IntentStep(d, cfg, intent, id, now, reply).0;
    var rec := d'.orders.records[id];
    var freed := reply.Ok? && Terminal(reply.status);
    PendingNonnegative(d, h, intent.contract);
    IntentAmounts(d, cfg, intent, id, now, reply);
    NewOrderAgreesIff(d, d', h, rec, freed, if reply.Ok? then intent.Notional() else 0.0);
  }

  /** An intent under a fresh order id keeps the books in agreement exactly when it meets
      `IntentKeeps`. */
  lemma IntentKeepsSoundIff(d: Desk, h: seq<FillEvent>, cfg: ExecutionConfig, intent: OrderIntent,
          id: ClientOrderId, now: int, reply: Reply)
    requires Sound(d, h, cfg.maxConcurrentOrders)
    requires id !in d.orders.records
    ensures Sound(IntentStep(d, cfg, intent, id, now, reply).0, h, cfg.maxConcurrentOrders)
            <==> IntentKeeps(d, cfg, intent, now, reply)
  {
    hide Sound, IntentStep, Refusal;
    if Refusal(d.orders, cfg, intent, now).Some? {
      RefusedIntentKeepsSound(d, h, cfg, intent, id, now, reply);
    } else if intent.size >= 0.0 && intent.targetPrice >= 0.0 {
      AdmittedIntentIff(d, h, cfg, intent, id, now, reply);
    } else {
      NegativeIntentBreaks(d, h, cfg, intent, id, now, reply);
    }
  }

  lemma NegativeIntentBreaks(d: Desk, h: seq<FillEvent>, cfg: ExecutionConfig, intent: OrderIntent,
          id: ClientOrderId, now: int, reply: Reply)
    requires Refusal(d.orders, cfg, intent, now).None? && !(intent.size >= 0.0 && intent.targetPrice >= 0.0)
    ensures !Sound(IntentStep(d, cfg, intent, id, now, reply).0, h, cfg.maxConcurrentOrders)
  {
    hide Worth, WithPending, WithoutPending, BookAgrees, IndexSound, ActiveCount, HasPending;
    var rec := IntentStep(d, cfg, intent, id, now, reply).0.orders.records[id];
    assert rec.size == intent.size && rec.price == intent.targetPrice && rec.filledSize == 0.0;
  }

  // ----- Runs --------------------------------------------------------------

  datatype Event =
    | Intent(intent: OrderIntent, freshId: ClientOrderId, now: int, reply: Reply)
    | Ack(id: ClientOrderId, vid: VenueOrderId)
    | Fill(fill: FillEvent)
    | Change(id: ClientOrderId, state: OrderState)

  function Step(d: Desk, cfg: ExecutionConfig, e: Event): Desk {
    match e
    case Intent(intent, id, now, reply) => IntentStep(d, cfg, intent, id, now, reply).0
    case Ack(id, vid) => AckStep(d, id, vid)
    case Fill(f) => FillStep(d, f)
    case Change(id, s) => ChangeStep(d, id, s)
  }

  function FillsOf(es: seq<Event>): seq<FillEvent> {
    if es == [] then []
    else
      var e := es[|es| - 1];
      FillsOf(es[..|es| - 1]) + if e.Fill? then [e.fill] else []
  }

  function Run(d: Desk, cfg: ExecutionConfig, es: seq<Event>): Desk {
    if es == [] then d else Step(Run(d, cfg, es[..|es| - 1]), cfg, es[|es| - 1])
  }

  lemma RunExtends(d: Desk, cfg: ExecutionConfig, es: seq<Event>, e: Event)
    ensures Run(d, cfg, es + [e]) == Step(Run(d, cfg, es), cfg, e)
  {
    assert (es + [e])[..|es|] == es;
  }

  /** What the environment must respect at one step. Given a fresh id for each intent, this
      is also necessary, event kind by event kind. */
  predicate Allowed(d: Desk, h: seq<FillEvent>, cfg: ExecutionConfig, e: Event) {
    match e
    case Intent(intent, id, now, reply) => id !in d.orders.records && IntentKeeps(d, cfg, intent, now, reply)
    case Ack(id, vid) => AckKeeps(d, h, cfg.maxConcurrentOrders, id)
    case Fill(f) => FillKeeps(d, h, cfg.maxConcurrentOrders, f)
    case Change(id, s) => ChangeKeeps(d, h, cfg.maxConcurrentOrders, id, s)
  }

  predicate AllowedRun(d: Desk, h: seq<FillEvent>, cfg: ExecutionConfig, es: seq<Event>) {
    es == [] ||
    var before := es[..|es| - 1];
    AllowedRun(d, h, cfg, before) && Allowed(Run(d, cfg, before), h + FillsOf(before), cfg, es[|es| - 1])
  }

  predicate FreshIds(d: Desk, cfg: ExecutionConfig, es: seq<Event>) {
    es == [] ||
    var before, e := es[..|es| - 1], es[|es| - 1];
    FreshIds(d, cfg, before) && (e.Intent? ==> e.freshId !in Run(d, cfg, before).orders.records)
  }

  lemma StepKeepsSoundIff(d: Desk, h: seq<FillEvent>, cfg: ExecutionConfig, e: Event)
    requires Sound(d, h, cfg.maxConcurrentOrders)
    requires e.Intent? ==> e.freshId !in d.orders.records
    ensures Sound(Step(d, cfg, e), if e.Fill? then h + [e.fill] else h, cfg.maxConcurrentOrders)
        <==> Allowed(d, h, cfg, e)
  {
    hide Sound, Worth, IntentKeeps, AckKeeps, FillKeeps, ChangeKeeps, IntentStep, AckStep, FillStep, ChangeStep;
    match e {
      case Intent(intent, id, now, reply) => IntentKeepsSoundIff(d, h, cfg, intent, id, now, reply);
      case Ack(id, vid) => AckKeepsSoundIff(d, h, cfg.maxConcurrentOrders, id, vid);
      case Fill(f) => FillKeepsSoundIff(d, h, cfg.maxConcurrentOrders, f);
      case Change(id, s) => ChangeKeepsSoundIff(d, h, cfg.maxConcurrentOrders, id, s);
    }
  }

  /** Exposure agrees with the orders, and the index with the live orders, after
      every allowed run from a sound desk. */
  lemma {:induction false} RunKeepsSound(d: Desk, h: seq<FillEvent>, cfg: ExecutionConfig, es: seq<Event>)
    requires Sound(d, h, cfg.maxConcurrentOrders)
    requires AllowedRun(d, h, cfg, es)
    ensures Sound(Run(d, cfg, es), h + FillsOf(es), cfg.maxConcurrentOrders)
  {
    hide Sound;
    if es == [] {
      assert h + FillsOf(es) == h;
    } else {
      var before, e := es[..|es| - 1], es[|es| - 1];
      RunKeepsSound(d, h, cfg, before);
      StepKeepsSoundIff(Run(d, cfg, before), h + FillsOf(before), cfg, e);
      assert h + FillsOf(es) == if e.Fill? then h + FillsOf(before) + [e.fill] else h + FillsOf(before);
    }
  }

  /** The desk is sound after every prefix of the run. */
  ghost predicate SoundThroughout(d: Desk, h: seq<FillEvent>, cfg: ExecutionConfig, es: seq<Event>) {
    && Sound(Run(d, cfg, es), h + FillsOf(es), cfg.maxConcurrentOrders)
    && (es != [] ==> SoundThroughout(d, h, cfg, es[..|es| - 1]))
  }

  /** And the conditions are exact for whole runs: with fresh ids, the desk is sound
      throughout exactly on the allowed runs. */
  lemma {:induction false} SoundThroughoutIff(d: Desk, h: seq<FillEvent>, cfg: ExecutionConfig, es: seq<Event>)
    requires Sound(d, h, cfg.maxConcurrentOrders) && FreshIds(d, cfg, es)
    ensures SoundThroughout(d, h, cfg, es) <==> AllowedRun(d, h, cfg, es)
  {
    hide Sound, Step, Allowed;
    if es == [] {
      assert h + FillsOf(es) == h;
    } else {
      var before, e := es[..|es| - 1], es[|es| - 1];
      SoundThroughoutIff(d, h, cfg, before);
      if AllowedRun(d, h, cfg, before) {
        StepKeepsSoundIff(Run(d, cfg, before), h + FillsOf(before), cfg, e);
        assert h + FillsOf(es) == if e.Fill? then h + FillsOf(before) + [e.fill] else h + FillsOf(before);
      }
    }
  }

  // ----- Orders keep the terms they were placed with ------------------------------------

  predicate HasTermsOf(rec: OrderRecord, intent: OrderIntent) {
    && rec.contract == intent.contract && rec.side == intent.side
    && rec.price == intent.targetPrice && rec.size == intent.size
  }

  /** A venue event changes no order's terms, so requests already sent keep matching it. */
  lemma VenueKeepsTerms(d: Desk, cfg: ExecutionConfig, e: Event, calls: seq<SubmitRequest>)
    requires !e.Intent?
    ensures var d' := Step(d, cfg, e);
            && d'.orders.records.Keys == d.orders.records.Keys
            && (forall id :: id in d.orders.records ==>
                  var rec, rec' := d.orders.records[id], d'.orders.records[id];
                  && rec'.clientOrderId == rec.clientOrderId && rec'.contract == rec.contract
                  && rec'.side == rec.side && rec'.price == rec.price && rec'.size == rec.size)
    ensures CallsMatch(calls, d.orders.records) ==> CallsMatch(calls, Step(d, cfg, e).orders.records)
  {
    hide WithFill, WithoutPending;
  }

  lemma IntentPlacesItsTerms(d: Desk, cfg: ExecutionConfig, intent: OrderIntent, id: ClientOrderId, now: int,
          reply: Reply)
    ensures var o, o' := d.orders.records, IntentStep(d, cfg, intent, id, now, reply).0.orders.records;
            && (forall other :: other != id ==> (other in o' <==> other in o) && (other in o ==> o'[other] == o[other]))
            && (Refusal(d.orders, cfg, intent, now).None? ==> id in o' && HasTermsOf(o'[id], intent))
            && (Refusal(d.orders, cfg, intent, now).Some? ==> o' == o)
  {
    hide WithPending, WithoutPending, Refusal;
  }

  /** In every run with fresh ids each order still has the contract, side, price and size of
      the one intent that placed it. */
  lemma {:induction false} OrdersKeepTheirTerms(cfg: ExecutionConfig, es: seq<Event>, id: ClientOrderId)
    requires FreshIds(EMPTY_DESK, cfg, es)
    requires id in Run(EMPTY_DESK, cfg, es).orders.records
    ensures exists k ::
              && 0 <= k < |es| && es[k].Intent? && es[k].freshId == id
              && HasTermsOf(Run(EMPTY_DESK, cfg, es).orders.records[id], es[k].intent)
  {
    hide Step, HasTermsOf, Refusal;
    assert es != [];
    var before, e := es[..|es| - 1], es[|es| - 1];
    var d := Run(EMPTY_DESK, cfg, before);
    if e.Intent? && e.freshId == id {
      FreshOrderHasTerms(d, cfg, e);
    } else {
      OtherOrdersKeepTerms(d, cfg, e, id);
      OrdersKeepTheirTerms(cfg, before, id);
      var k :| 0 <= k < |before| && before[k].Intent? && before[k].freshId == id
               && HasTermsOf(d.orders.records[id], before[k].intent);
      assert es[k] == before[k];
    }
  }

  lemma FreshOrderHasTerms(d: Desk, cfg: ExecutionConfig, e: Event)
    requires e.Intent? && e.freshId !in d.orders.records && e.freshId in Step(d, cfg, e).orders.records
    ensures HasTermsOf(Step(d, cfg, e).orders.records[e.freshId], e.intent)
  {
    hide IntentStep, HasTermsOf;
    IntentPlacesItsTerms(d, cfg, e.intent, e.freshId, e.now, e.reply);
  }

  lemma OtherOrdersKeepTerms(d: Desk, cfg: ExecutionConfig, e: Event, id: ClientOrderId)
    requires (e.Intent? ==> e.freshId != id) && id in Step(d, cfg, e).orders.records
    ensures id in d.orders.records
    ensures forall intent :: HasTermsOf(d.orders.records[id], intent) ==>
              HasTermsOf(Step(d, cfg, e).orders.records[id], intent)
  {
    hide IntentStep, AckStep, FillStep, ChangeStep;
    if e.Intent? {
      IntentPlacesItsTerms(d, cfg, e.intent, e.freshId, e.now, e.reply);
    } else {
      VenueKeepsTerms(d, cfg, e, []);
    }
  }

  // ----- What a sound desk means -------------------------------------------

  ghost predicate SomeLiveOrder(o: Orders, c: ContractKey) {
    exists id :: id in o.records && o.records[id].contract == c && Live(o.records[id].state)
  }

  /** The whole story for runs from empty trackers, in terms of orders and fills only. */
  lemma RunsFromEmptyAgree(cfg: ExecutionConfig, es: seq<Event>)
    requires AllowedRun(EMPTY_DESK, [], cfg, es)
    ensures var d, h := Run(EMPTY_DESK, cfg, es), FillsOf(es);
            && (forall c :: FilledOf(d.book, c) == Traded(h, c))
            && (forall c :: !SomeLiveOrder(d.orders, c) ==> PendingOf(d.book, c) == 0.0)
            && (forall id :: OnLiveOrder(d, id) ==>
               PendingOf(d.book, d.orders.records[id].contract) == UnfilledValue(d, h, id))
            && (forall c :: HasPending(d.orders, c) <==> SomeLiveOrder(d.orders, c))
            && (forall a, b | OnLiveOrder(d, a) && OnLiveOrder(d, b) ::
                  d.orders.records[a].contract == d.orders.records[b].contract ==> a == b)
            && ActiveCount(d.orders) <= cfg.maxConcurrentOrders
  {
    hide Run, FillsOf, AllowedRun, Worth, Executed, Traded;
    var d, h := Run(EMPTY_DESK, cfg, es), FillsOf(es);
    assert Sound(d, h, cfg.maxConcurrentOrders) by {
      EmptyDeskIsSound(cfg.maxConcurrentOrders);
      assert [] + h == h;
      RunKeepsSound(EMPTY_DESK, [], cfg, es);
    }
    SoundDeskAgrees(d, h, cfg.maxConcurrentOrders);
  }

  lemma EmptyDeskIsSound(max: nat)
    ensures Sound(EMPTY_DESK, [], max)
  {
    assert ActiveIds(EMPTY_ORDERS) == {};
  }

  lemma SoundDeskAgrees(d: Desk, h: seq<FillEvent>, max: nat)
    requires Sound(d, h, max)
    ensures forall c :: FilledOf(d.book, c) == Traded(h, c)
    ensures forall c :: !SomeLiveOrder(d.orders, c) ==> PendingOf(d.book, c) == 0.0
    ensures forall id :: OnLiveOrder(d, id) ==>
        PendingOf(d.book, d.orders.records[id].contract) == UnfilledValue(d, h, id)
    ensures forall c :: HasPending(d.orders, c) <==> SomeLiveOrder(d.orders, c)
    ensures forall a, b | OnLiveOrder(d, a) && OnLiveOrder(d, b) ::
              d.orders.records[a].contract == d.orders.records[b].contract ==> a == b
  {
    hide Worth, Executed, Traded;
    forall c
      ensures FilledOf(d.book, c) == Traded(h, c)
      ensures HasPending(d.orders, c) <==> SomeLiveOrder(d.orders, c)
      ensures !SomeLiveOrder(d.orders, c) ==> PendingOf(d.book, c) == 0.0
    {
      OneLiveOrderPerContract(d.orders, c);
      assert PendingOf(d.book, c) == LiveValue(d, h, c);
    }
    forall id | OnLiveOrder(d, id)
      ensures PendingOf(d.book, d.orders.records[id].contract) == UnfilledValue(d, h, id)
    {
      var c := d.orders.records[id].contract;
      assert PendingOf(d.book, c) == LiveValue(d, h, c);
    }
  }

  /** Cancelling or rejecting a live order, after any fills it had, drains its
      contract's pending exposure to exactly zero and leaves what was filled. */
  lemma CancelDrainsPending(d: Desk, h: seq<FillEvent>, max: nat, id: ClientOrderId, s: OrderState)
    requires Sound(d, h, max)
    requires OnLiveOrder(d, id) && (s == Canceled || s == Rejected)
    ensures var c := d.orders.records[id].contract;
            var d' := ChangeStep(d, id, s);
            PendingOf(d'.book, c) == 0.0 && FilledOf(d'.book, c) == Traded(h, c) && !HasPending(d'.orders, c)
  {
    hide Worth, WithoutPending, Executed, Traded;
    var c := d.orders.records[id].contract;
    LiveChangeKeepsSound(d, h, max, id, s);
    assert PendingOf(ChangeStep(d, id, s).book, c) == LiveValue(ChangeStep(d, id, s), h, c);
  }

  /** A failed submission leaves every amount of the exposure book as it was. */
  lemma FailedIntentRestoresExposure(d: Desk, cfg: ExecutionConfig, intent: OrderIntent, id: ClientOrderId,
          now: int, reply: Reply)
    requires PendingOf(d.book, intent.contract) >= 0.0
    requires IntentStep(d, cfg, intent, id, now, reply).1.Failed?
    ensures var d' := IntentStep(d, cfg, intent, id, now, reply).0;
            forall c :: PendingOf(d'.book, c) == PendingOf(d.book, c) && FilledOf(d'.book, c) == FilledOf(d.book, c)
  {
    RemoveUndoesAdd(d.book, intent.contract, intent.side, intent.Notional());
  }

  /** The plain venue contract is enough: a fill of a live order at the limit price, of at
      most what is left, reporting the right remainder. */
  lemma HonestFillKeeps(d: Desk, h: seq<FillEvent>, max: nat, f: FillEvent)
    requires Sound(d, h, max) && OnLiveOrder(d, f.clientOrderId)
    requires var rec := d.orders.records[f.clientOrderId];
             f.contract == rec.contract && f.price == rec.price
    requires 0.0 <= f.filledSize <= UnfilledSize(d, h, f.clientOrderId)
    requires f.remainingSize == UnfilledSize(d, h, f.clientOrderId) - f.filledSize
    ensures FillKeeps(d, h, max, f)
  {
    hide Worth, Executed, Traded, ActiveCount;
    var rec := d.orders.records[f.clientOrderId];
    assert PendingOf(d.book, rec.contract) == LiveValue(d, h, rec.contract) == UnfilledValue(d, h, f.clientOrderId);
    MoreIsWorthMore(f.filledSize, UnfilledSize(d, h, f.clientOrderId), rec.price);
  }
}
