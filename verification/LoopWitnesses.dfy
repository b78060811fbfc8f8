/** Runs of the event loop that show what its theorems rest on: why the locks must outlast
    the signals, that their conditions allow trading, and the limits the loop does not check. */
module LoopWitnesses {
  import opened Domain
  import opened Orders
  import opened Exposure
  import opened Execution
  import opened OrderDesk
  import opened ContractLock
  import opened TradingLoop
  import opened LoopRuns
  import LockSpacing
  import OrderRuns
  import Pipeline

  lemma RunExtends(s: Settings, es: seq<Event>, e: Event)
    ensures Run(s, es + [e]) == (Step(s, Run(s, es).0, e), Remember(s, Run(s, es).0, Run(s, es).1, e))
    ensures AllowedRun(s, es + [e]) <==> AllowedRun(s, es) && Allowed(s, Run(s, es).0, Run(s, es).1, e)
    ensures CoveredRun(s, es + [e]) <==>
            && CoveredRun(s, es)
            && Timed(s, Run(s, es).0, Run(s, es).1, e)
            && (e.Venue? ==> Covered(Run(s, es).0.desk, e.event))
  {
    hide Step, Remember, Timed, DeskAllowed, Covered;
    assert (es + [e])[..|es|] == es;
  }

  // ----- One order on empty trackers ---------------------------------------------------------

  function FullFill(i: OrderIntent): FillEvent {
    FillEvent("first", i.contract, i.targetPrice, i.size, 0.0, 0.0)
  }

  /** The desk once the intent is placed, and then acknowledged. */
  function PlacedDesk(s: Settings, i: OrderIntent, at: int): Desk {
    IntentStep(EMPTY_DESK, s.execution, i, "first", at, Ok("v1", Acked)).0
  }

  function AckedDesk(s: Settings, i: OrderIntent, at: int): Desk {
    AckStep(PlacedDesk(s, i, at), "first", "v1")
  }

  lemma Admitted(s: Settings, d: Desk, i: OrderIntent, id: ClientOrderId, vid: VenueOrderId, at: int)
    requires !HasPending(d.orders, i.contract) && ActiveCount(d.orders) < s.execution.maxConcurrentOrders
    requires d.orders.records.Keys <= {"first"} && id !in d.orders.records && Fresh(s, i, at)
    ensures Refusal(d.orders, s.execution, i, at).None?
    ensures var (d', r) := IntentStep(d, s.execution, i, id, at, Ok(vid, Acked));
            && r == Submitted(id) && d'.orders.records.Keys == d.orders.records.Keys + {id} && i.contract in d'.book
            && d'.orders.records[id] == NewRecord(i, id).(state := Acked, venueOrderId := Some(vid))
            && d'.book == WithPending(d.book, i.contract, i.side, i.Notional())
            && PendingOf(d'.book, i.contract) == PendingOf(d.book, i.contract) + i.Notional()
            && FilledOf(d'.book, i.contract) == FilledOf(d.book, i.contract)
  {
    hide Worth, ActiveIds, ActiveCount;
  }

  lemma PlacedOrder(s: Settings, i: OrderIntent, at: int)
    requires s.execution.maxConcurrentOrders >= 1 && Fresh(s, i, at)
    ensures var d := PlacedDesk(s, i, at);
            && IntentStep(EMPTY_DESK, s.execution, i, "first", at, Ok("v1", Acked)).1.Submitted?
            && d.orders.records.Keys == {"first"}
            && d.orders.records["first"] == NewRecord(i, "first").(state := Acked, venueOrderId := Some("v1"))
            && d.book == WithPending(map[], i.contract, i.side, i.Notional())
            && i.contract in d.book && PendingOf(d.book, i.contract) == i.Notional()
               && FilledOf(d.book, i.contract) == 0.0
  {
    assert ActiveIds(EMPTY_ORDERS) == {};
    Admitted(s, EMPTY_DESK, i, "first", "v1", at);
  }

  lemma PlacedIsSound(s: Settings, i: OrderIntent, at: int)
    requires s.execution.maxConcurrentOrders >= 1 && Fresh(s, i, at) && i.size >= 0.0 && i.targetPrice >= 0.0
    ensures Sound(PlacedDesk(s, i, at), [], s.execution.maxConcurrentOrders)
    ensures Sound(AckedDesk(s, i, at), [], s.execution.maxConcurrentOrders)
    ensures OrderRuns.Allowed(PlacedDesk(s, i, at), [], s.execution, OrderRuns.Ack("first", "v1"))
  {
    PlacedOrder(s, i, at);
    hide Sound, Refusal;
    OrderRuns.EmptyDeskIsSound(s.execution.maxConcurrentOrders);
    OrderRuns.IntentKeepsSoundIff(EMPTY_DESK, [], s.execution, i, "first", at, Ok("v1", Acked));
    AckKeepsSoundIff(PlacedDesk(s, i, at), [], s.execution.maxConcurrentOrders, "first", "v1");
  }

  lemma FullFillIsAllowed(s: Settings, i: OrderIntent, d: Desk)
    requires Sound(d, [], s.execution.maxConcurrentOrders) && i.contract in d.book
    requires PendingOf(d.book, i.contract) == i.Notional() && i.size >= 0.0
    requires "first" in d.orders.records
    requires d.orders.records["first"] == NewRecord(i, "first").(state := Acked, venueOrderId := Some("v1"))
    ensures OrderRuns.Allowed(d, [], s.execution, OrderRuns.Fill(FullFill(i)))
    ensures Covered(d, OrderRuns.Fill(FullFill(i)))
    ensures Traded([FullFill(i)], i.contract) == i.Notional()
  {
    hide Worth, Sound;
    OrderRuns.HonestFillKeeps(d, [], s.execution.maxConcurrentOrders, FullFill(i));
    assert [FullFill(i)][..0] == [];
  }

  // ----- A run that trades -----------------------------------------------------------------------

  /** The bot idles until `at`, and everything about its first candidate happens then. */
  function AllAt(at: int): Moments {
    Moments(at, at, at, at)
  }

  function LockedSince(s: Settings, c: ContractKey, at: int): Locks {
    WithLock(map[], c, Some(s.expiries(c)), at)
  }

  /** A candidate an idle bot takes. */
  predicate FirstTaken(s: Settings, candidate: Pipeline.PipelineInput) {
    && candidate.now >= 0 && Taken(s, IDLE_BOT, candidate, AllAt(candidate.now), true)
    && 0.0 <= candidate.marketPrice <= 1.0 && s.execution.maxConcurrentOrders >= 1
  }

  function FirstIntent(s: Settings, candidate: Pipeline.PipelineInput): OrderIntent
    requires FirstTaken(s, candidate)
  {
    Decision(s, IDLE_BOT, candidate, candidate.now).intent
  }

  lemma FirstTerms(s: Settings, candidate: Pipeline.PipelineInput)
    requires FirstTaken(s, candidate)
    ensures var i := FirstIntent(s, candidate);
            && i.contract == candidate.contract && i.signalTimestamp == candidate.now
            && i.size >= 1.0 && 0.0 <= i.targetPrice <= 1.0
    ensures SignalStep(s, IDLE_BOT, candidate, AllAt(candidate.now), true)
            == Bot(EMPTY_DESK, LockedSince(s, candidate.contract, candidate.now), [FirstIntent(s, candidate)],
                candidate.now)
  {
    hide Decision, StateAt, NotionalOf;
    TakenIntent(s, IDLE_BOT, candidate, AllAt(candidate.now), true);
  }

  lemma FirstSignal(s: Settings, candidate: Pipeline.PipelineInput)
    requires FirstTaken(s, candidate)
    ensures var i, es := FirstIntent(s, candidate), [Signal(candidate, AllAt(candidate.now), true)];
            && i.contract == candidate.contract && i.signalTimestamp == candidate.now
            && i.size >= 1.0 && 0.0 <= i.targetPrice <= 1.0 && s.execution.maxConcurrentOrders >= 1
            && AllowedRun(s, es) && CoveredRun(s, es)
            && Run(s, es) == (Bot(EMPTY_DESK, LockedSince(s, candidate.contract, candidate.now), [i], candidate.now),
                              History([], [EntryOf(candidate.contract, AllAt(candidate.now))]))
  {
    hide Decision, FirstIntent, SignalStep, LockedSince, EntryOf;
    FirstTerms(s, candidate);
    var signal := Signal(candidate, AllAt(candidate.now), true);
    RunExtends(s, [], signal);
    assert FirstTaken(s, candidate) ==> Taken(s, IDLE_BOT, candidate, AllAt(candidate.now), true);
    hide Taken;
    assert [] + [signal] == [signal];
    assert Run(s, []) == (IDLE_BOT, History([], []));
    assert [] + [EntryOf(candidate.contract, AllAt(candidate.now))]
        == [EntryOf(candidate.contract, AllAt(candidate.now))];
  }

  /** A candidate is accepted, its order placed, and the engine's own acknowledgement taken
      off the bus. */
  function Placing(candidate: Pipeline.PipelineInput): seq<Event> {
    [Signal(candidate, AllAt(candidate.now), true)] + [Process("first", candidate.now, Ok("v1", Acked), candidate.now)]
    + [Venue(OrderRuns.Ack("first", "v1"))]
  }

  lemma PlacingIsAllowed(s: Settings, candidate: Pipeline.PipelineInput)
    requires FirstTaken(s, candidate)
    ensures var i := FirstIntent(s, candidate);
            && AllowedRun(s, Placing(candidate))
            && Run(s, Placing(candidate)).0 ==
               Bot(AckedDesk(s, i, candidate.now), LockedSince(s, i.contract, candidate.now), [], candidate.now)
            && Run(s, Placing(candidate)).1.fills == []
  {
    hide Decision, FirstTaken, FirstIntent, PlacedDesk, IntentStep, Worth, LockedSince, OrderRuns.Allowed;
    var i, at := FirstIntent(s, candidate), candidate.now;
    var signal, process := Signal(candidate, AllAt(at), true), Process("first", at, Ok("v1", Acked), at);
    FirstSignal(s, candidate);
    RunExtends(s, [signal], process);
    PlacedOrder(s, i, at);
    PlacedBot(s, i, LockedSince(s, i.contract, at), [], at);
    RunExtends(s, [signal] + [process], Venue(OrderRuns.Ack("first", "v1")));
    PlacedIsSound(s, i, at);
  }

  lemma PlacedBot(s: Settings, i: OrderIntent, locks: Locks, rest: seq<OrderIntent>, at: int)
    requires s.execution.maxConcurrentOrders >= 1 && Fresh(s, i, at)
    ensures ProcessStep(s, Bot(EMPTY_DESK, locks, [i] + rest, at), "first", at, Ok("v1", Acked), at)
            == Bot(PlacedDesk(s, i, at), locks, rest, at)
  {
    PlacedOrder(s, i, at);
    hide IntentStep;
  }

  /** The conditions on runs are met by a bot that trades: whatever candidate an idle bot
      accepts can be placed, acknowledged and filled in an allowed run, and its contract
      stays locked. */
  lemma AcceptedSignalTrades(s: Settings, candidate: Pipeline.PipelineInput)
    requires FirstTaken(s, candidate)
    ensures var i := FirstIntent(s, candidate);
            var es := Placing(candidate) + [Venue(OrderRuns.Fill(FullFill(i)))];
            var (b, h) := Run(s, es);
            && AllowedRun(s, es)
            && b.queue == [] && Traded(h.fills, i.contract) == i.Notional()
            && StateAt(s.locks, b.locks, i.contract, b.clock) == Locked
  {
    hide Decision, FirstTaken, FirstIntent, PlacedDesk, FullFill, Traded, Worth, Sound, OrderRuns.Allowed,
        OrderRuns.Step;
    hide Placing, LockedSince, StateAt, Run, AllowedRun, CoveredRun;
    var i, at := FirstIntent(s, candidate), candidate.now;
    FirstStaysLocked(s, candidate);
    FirstSignal(s, candidate);
    PlacingIsAllowed(s, candidate);
    PlacedOrder(s, i, at);
    PlacedIsSound(s, i, at);
    RunExtends(s, Placing(candidate), Venue(OrderRuns.Fill(FullFill(i))));
    FullFillIsAllowed(s, i, AckedDesk(s, i, at));
    assert [] + [FullFill(i)] == [FullFill(i)];
  }

  lemma FirstStaysLocked(s: Settings, candidate: Pipeline.PipelineInput)
    requires FirstTaken(s, candidate)
    ensures var i, at := FirstIntent(s, candidate), candidate.now;
            StateAt(s.locks, LockedSince(s, i.contract, at), i.contract, at) == Locked
  {
    hide Pipeline.Evaluate, NotionalOf;
    FirstTerms(s, candidate);
  }

  /** Against the default client such a candidate is reserved and then never filled: the run
      meets the timing conditions and those of the default client. */
  function Reserving(candidate: Pipeline.PipelineInput): seq<Event> {
    [Signal(candidate, AllAt(candidate.now), true)] + [Process("first", candidate.now, Ok("v1", Filled), candidate.now)]
    + [Venue(OrderRuns.Ack("first", "v1"))]
  }

  lemma DefaultClientReserves(s: Settings, candidate: Pipeline.PipelineInput)
    requires FirstTaken(s, candidate)
    ensures TimedRun(s, Reserving(candidate)) && forall e :: e in Reserving(candidate) ==> DefaultClient(e)
    ensures var b := Run(s, Reserving(candidate)).0;
            PendingOf(b.desk.book, candidate.contract) == FirstIntent(s, candidate).Notional()
  {
    hide Decision, FirstTaken, FirstIntent, IntentStep, Worth, LockedSince;
    var i, at := FirstIntent(s, candidate), candidate.now;
    var signal, process := Signal(candidate, AllAt(at), true), Process("first", at, Ok("v1", Filled), at);
    FirstSignal(s, candidate);
    assert ActiveIds(EMPTY_ORDERS) == {};
    assert Refusal(EMPTY_ORDERS, s.execution, i, at).None?;
    hide Refusal;
    OrderRuns.IntentAmounts(EMPTY_DESK, s.execution, i, "first", at, Ok("v1", Filled));
    RunExtends(s, [signal], process);
    RunExtends(s, [signal] + [process], Venue(OrderRuns.Ack("first", "v1")));
    CoveredRunsAreTimed(s, Reserving(candidate));
  }

  // ----- Why the locks must outlast the signals ------------------------------------------------

  /** A contract is entered and released again at once, and entered a second time `gap` later. */
  function TwoSignals(candidate: Pipeline.PipelineInput, gap: nat): seq<Event> {
    var at, later := candidate.now, candidate.now + gap;
    [Signal(candidate, AllAt(at), true)] + [Resolved([candidate.contract], at)]
    + [Signal(candidate, Moments(at, later, later, later), true)]
  }

  /** Two intents are processed, the first being filled in between. */
  function ProcessedBoth(es: seq<Event>, i: OrderIntent, at: int): seq<Event> {
    es + [Process("first", at, Ok("v1", Acked), at)] + [Venue(OrderRuns.Fill(FullFill(i)))]
    + [Process("second", at, Ok("v2", Acked), at)]
  }

  function Reentering(s: Settings, candidate: Pipeline.PipelineInput, gap: nat): seq<Event>
    requires FirstTaken(s, candidate)
  {
    ProcessedBoth(TwoSignals(candidate, gap), FirstIntent(s, candidate), candidate.now + gap)
  }

  /** The lock is free again after `gap`: the cooldown or the post-expiry buffer is over. */
  predicate FreeAfter(s: Settings, candidate: Pipeline.PipelineInput, gap: nat) {
    || gap >= s.locks.cooldownDuration
    || candidate.now + gap >= s.expiries(candidate.contract) + s.locks.postExpiryBuffer
  }

  lemma SecondSignal(s: Settings, candidate: Pipeline.PipelineInput, gap: nat)
    requires FirstTaken(s, candidate) && FreeAfter(s, candidate, gap)
    ensures var i, es := FirstIntent(s, candidate), TwoSignals(candidate, gap);
            var (b, h) := Run(s, es);
            && AllowedRun(s, es) && CoveredRun(s, es) && h.fills == []
            && b.desk == EMPTY_DESK && b.queue == [i, i] && b.clock == candidate.now + gap
  {
    var c, at, later := candidate.contract, candidate.now, candidate.now + gap;
    var signal, resolved, again :=
      Signal(candidate, AllAt(at), true), Resolved([c], at), Signal(candidate, Moments(at, later, later, later), true);
    FirstSignal(s, candidate);
    var cooled := WithCooldown(s.locks, LockedSince(s, c, at), c, at);
    assert AllCooled(s.locks, LockedSince(s, c, at), [c], at) == cooled by {
      assert [c][..0] == [];
    }
    assert StateAt(s.locks, cooled, c, later) == Unlocked;
    assert s.expiries(c) > at;
    SameDecision(s, Bot(EMPTY_DESK, cooled, [FirstIntent(s, candidate)], at), candidate, later);
    hide Decision, FirstIntent, FirstTaken, LockedSince, WithCooldown, StateAt;
    RunExtends(s, [signal], resolved);
    RunExtends(s, [signal] + [resolved], again);
    var b := Run(s, [signal] + [resolved]).0;
    assert b == Bot(EMPTY_DESK, cooled, [FirstIntent(s, candidate)], at);
  }

  /** With empty books and a free lock the same candidate is judged the same again. */
  lemma SameDecision(s: Settings, b: Bot, candidate: Pipeline.PipelineInput, later: int)
    requires FirstTaken(s, candidate)
    requires b.desk == EMPTY_DESK && StateAt(s.locks, b.locks, candidate.contract, later) == Unlocked
    requires s.expiries(candidate.contract) > candidate.now
    ensures Decision(s, b, candidate, later) == Accept(FirstIntent(s, candidate))
    ensures !candidate.killSwitchActive
  {
    hide Pipeline.Evaluate;
    assert Observed(s, b, candidate, later) == Observed(s, IDLE_BOT, candidate, candidate.now);
  }

  lemma FilledAtOnce(d: Desk, i: OrderIntent)
    requires d.orders.records.Keys == {"first"} && d.orders.records["first"].contract == i.contract
        && i.contract in d.book
    requires PendingOf(d.book, i.contract) == i.Notional() && FilledOf(d.book, i.contract) == 0.0
    ensures var d' := FillStep(d, FullFill(i));
            && PendingOf(d'.book, i.contract) == 0.0 && FilledOf(d'.book, i.contract) == i.Notional()
            && d'.orders.records.Keys == {"first"} && !HasPending(d'.orders, i.contract) && ActiveCount(d'.orders) == 0
  {
    hide Worth, WithFill;
    FillAmounts(d.book, i.contract, i.size, i.targetPrice, 0.0);
    assert ActiveIds(FillStep(d, FullFill(i)).orders) == {};
  }

  /** If a signal is still fresh when its contract is free again, both intents go through and
      the position ends at twice the notional, in a run that meets every condition. */
  lemma ReentryDoublesThePosition(s: Settings, candidate: Pipeline.PipelineInput, gap: nat)
    requires FirstTaken(s, candidate) && FreeAfter(s, candidate, gap) && gap <= s.execution.staleSignalThreshold
    ensures var es := Reentering(s, candidate, gap);
            && AllowedRun(s, es) && CoveredRun(s, es)
            && NotionalOf(Run(s, es).0.desk.book, candidate.contract) == 2.0 * FirstIntent(s, candidate).Notional()
  {
    hide Worth, FirstIntent, FirstTaken, Run, AllowedRun, CoveredRun, FullFill, FreeAfter, NotionalOf,
        TwoSignals, ProcessedBoth;
    hide Decision, Pipeline.Evaluate;
    var i, later := FirstIntent(s, candidate), candidate.now + gap;
    FirstSignal(s, candidate);
    SecondSignal(s, candidate, gap);
    BothGoThrough(s, i, TwoSignals(candidate, gap), later);
  }

  lemma BothGoThrough(s: Settings, i: OrderIntent, es: seq<Event>, at: int)
    requires AllowedRun(s, es) && CoveredRun(s, es) && Run(s, es).1.fills == []
    requires var b := Run(s, es).0; b.desk == EMPTY_DESK && b.queue == [i, i] && b.clock == at
    requires s.execution.maxConcurrentOrders >= 1 && Fresh(s, i, at) && i.size >= 0.0 && i.targetPrice >= 0.0
    ensures var fs := ProcessedBoth(es, i, at);
            && AllowedRun(s, fs) && CoveredRun(s, fs)
            && NotionalOf(Run(s, fs).0.desk.book, i.contract) == 2.0 * i.Notional()
  {
    var first, fill, second :=
      Process("first", at, Ok("v1", Acked), at), Venue(OrderRuns.Fill(FullFill(i))),
          Process("second", at, Ok("v2", Acked), at);
    var d, l := PlacedDesk(s, i, at), Run(s, es).0.locks;
    FirstGoesThrough(s, i, es, at);
    RunExtends(s, es + [first] + [fill], second);
    hide Run, AllowedRun, CoveredRun;
    PlacedOrder(s, i, at);
    FilledAtOnce(d, i);
    Admitted(s, FillStep(d, FullFill(i)), i, "second", "v2", at);
    hide IntentStep, PlacedDesk, FillStep, Worth, Covered;
  }

  lemma FirstGoesThrough(s: Settings, i: OrderIntent, es: seq<Event>, at: int)
    requires AllowedRun(s, es) && CoveredRun(s, es) && Run(s, es).1.fills == []
    requires var b := Run(s, es).0; b.desk == EMPTY_DESK && b.queue == [i, i] && b.clock == at
    requires s.execution.maxConcurrentOrders >= 1 && Fresh(s, i, at) && i.size >= 0.0 && i.targetPrice >= 0.0
    ensures var fs := es + [Process("first", at, Ok("v1", Acked), at)] + [Venue(OrderRuns.Fill(FullFill(i)))];
            && AllowedRun(s, fs) && CoveredRun(s, fs)
            && Run(s, fs).0 == Bot(FillStep(PlacedDesk(s, i, at), FullFill(i)), Run(s, es).0.locks, [i], at)
  {
    var first, fill := Process("first", at, Ok("v1", Acked), at), Venue(OrderRuns.Fill(FullFill(i)));
    var d, l := PlacedDesk(s, i, at), Run(s, es).0.locks;
    hide Run, AllowedRun, CoveredRun, PlacedDesk, IntentStep, Sound, Worth, OrderRuns.Allowed, Covered, FullFill;
    RunExtends(s, es, first);
    RunExtends(s, es + [first], fill);
    assert Run(s, es).0 == Bot(EMPTY_DESK, l, [i] + [i], at);
    PlacedOrder(s, i, at);
    PlacedBot(s, i, l, [i], at);
    PlacedIsSound(s, i, at);
    FullFillIsAllowed(s, i, d);
    hide FillStep;
  }

  /** A cooldown no longer than the staleness threshold is too short for every candidate. */
  lemma ShortCooldownDoubles(s: Settings, candidate: Pipeline.PipelineInput)
    requires FirstTaken(s, candidate) && s.locks.cooldownDuration <= s.execution.staleSignalThreshold
    ensures var es := Reentering(s, candidate, s.locks.cooldownDuration);
            && AllowedRun(s, es) && CoveredRun(s, es)
            && NotionalOf(Run(s, es).0.desk.book, candidate.contract) == 2.0 * FirstIntent(s, candidate).Notional()
  {
    ReentryDoublesThePosition(s, candidate, s.locks.cooldownDuration);
  }

  /** A buffer below the staleness threshold is too short for candidates taken right before
      the expiry. */
  lemma ShortBufferDoubles(s: Settings, candidate: Pipeline.PipelineInput)
    requires FirstTaken(s, candidate) && candidate.now == s.expiries(candidate.contract) - 1
    requires s.locks.postExpiryBuffer < s.execution.staleSignalThreshold
    ensures var es := Reentering(s, candidate, s.locks.postExpiryBuffer + 1);
            && AllowedRun(s, es) && CoveredRun(s, es)
            && NotionalOf(Run(s, es).0.desk.book, candidate.contract) == 2.0 * FirstIntent(s, candidate).Notional()
  {
    ReentryDoublesThePosition(s, candidate, s.locks.postExpiryBuffer + 1);
  }

  /** The condition on the settings is exact. As soon as an idle bot accepts, right before the
      expiry, a candidate worth more than half the limit, all covered runs keep the position
      limit if and only if the locks outlast the signals. */
  lemma PositionLimitIff(s: Settings, candidate: Pipeline.PipelineInput)
    requires FirstTaken(s, candidate) && candidate.now == s.expiries(candidate.contract) - 1
    requires 0.0 <= s.setup.risk.maxPositionPerMarket < 2.0 * FirstIntent(s, candidate).Notional()
    ensures (forall es :: CoveredRun(s, es) ==> PositionsKept(s, es)) <==> LocksOutlastSignals(s)
  {
    hide FirstTaken, FirstIntent, Run, AllowedRun, CoveredRun, NotionalOf, Reentering, FreeAfter, OrderIntent.Notional;
    if LocksOutlastSignals(s) {
      forall es | CoveredRun(s, es)
        ensures PositionsKept(s, es)
      {
        PositionLimitHolds(s, es);
      }
    } else {
      var gap := LockSpacing.Spacing(s.locks);
      assert FreeAfter(s, candidate, gap) by {
        SpacingFrees(s, candidate);
      }
      ReentryDoublesThePosition(s, candidate, gap);
      var es := Reentering(s, candidate, gap);
      assert !PositionsKept(s, es);
    }
  }

  lemma SpacingFrees(s: Settings, candidate: Pipeline.PipelineInput)
    requires candidate.now == s.expiries(candidate.contract) - 1
    ensures FreeAfter(s, candidate, LockSpacing.Spacing(s.locks))
  {
  }

  // ----- The gross limit, which nothing in the loop checks ----------------------------------------

  /** After any timed run, an intent that is submitted adds its notional to the gross exposure,
      whatever the limit says; so the limit is kept exactly if that still fits. Any other
      leaves it. */
  lemma ProcessingKeepsGrossIff(s: Settings, es: seq<Event>, id: ClientOrderId, at: int, reply: Reply, endedAt: int)
    requires TimedRun(s, es) && Run(s, es).0.queue != []
    requires Gross(Run(s, es).0.desk.book) <= s.setup.risk.maxGrossExposure
    ensures var b := Run(s, es).0;
            var i, limit := b.queue[0], s.setup.risk.maxGrossExposure;
            var gross := Gross(ProcessStep(s, b, id, at, reply, endedAt).desk.book);
            var submitted := Refusal(b.desk.orders, s.execution, i, at).None? && reply.Ok?;
            && gross == Gross(b.desk.book) + (if submitted then i.Notional() else 0.0)
            && (gross <= limit <==> !submitted || Gross(b.desk.book) + i.Notional() <= limit)
  {
    hide Run, TimedRun, Worth, Registered, StateUpdated, Refusal, Gross, ActiveCount;
    var b := Run(s, es).0;
    var i := b.queue[0];
    var reserved := WithPending(b.desk.book, i.contract, i.side, i.Notional());
    TimedRunsKeepPending(s, es);
    assert PendingOf(b.desk.book, i.contract) >= 0.0;
    GrossAfterUpdate(b.desk.book, i.contract, reserved[i.contract]);
    GrossAfterUndo(b.desk.book, i.contract, i.side, i.Notional());
  }

  lemma GrossAfterUndo(b: Book, c: ContractKey, side: Side, n: real)
    requires PendingOf(b, c) >= 0.0
    ensures Gross(WithoutPending(WithPending(b, c, side, n), c, n)) == Gross(b)
  {
    hide Gross;
    var reserved := WithPending(b, c, side, n);
    GrossAfterUpdate(b, c, reserved[c]);
    GrossAfterUpdate(reserved, c, reserved[c].(pending := Max(reserved[c].pending - n, 0.0)));
    GrossAfterRemoval(reserved, c);
  }

  /** The pipeline never looks at the gross limit. */
  lemma GrossLimitIsNotRead(setup: Pipeline.Setup, input: Pipeline.PipelineInput, limit: real)
    ensures Pipeline.Evaluate(setup.(risk := setup.risk.(maxGrossExposure := limit)), input)
        == Pipeline.Evaluate(setup, input)
  {
    var other := setup.(risk := setup.risk.(maxGrossExposure := limit));
    assert Pipeline.GateContextOf(other, input) == Pipeline.GateContextOf(setup, input);
    assert Pipeline.SizingInputOf(other, input) == Pipeline.SizingInputOf(setup, input);
    assert Pipeline.EdgeOf(other, input) == Pipeline.EdgeOf(setup, input);
  }

  /** So any accepted candidate exceeds any gross limit below its notional, in an allowed run. */
  lemma GrossLimitIsExceeded(s: Settings, candidate: Pipeline.PipelineInput)
    requires FirstTaken(s, candidate)
    requires s.setup.risk.maxGrossExposure < FirstIntent(s, candidate).Notional()
    ensures AllowedRun(s, Placing(candidate))
    ensures Gross(Run(s, Placing(candidate)).0.desk.book) > s.setup.risk.maxGrossExposure
  {
    hide Decision, FirstTaken, FirstIntent, Placing, Run, AllowedRun, PlacedDesk, Gross, Refusal;
    var i := FirstIntent(s, candidate);
    FirstSignal(s, candidate);
    PlacingIsAllowed(s, candidate);
    PlacedOrder(s, i, candidate.now);
    assert Gross(map[]) == 0.0 by {
      EmptyGross();
    }
    GrossAfterUpdate(map[], i.contract, WithPending(map[], i.contract, i.side, i.Notional())[i.contract]);
  }

  lemma EmptyGross()
    ensures Gross(map[]) == 0.0
  {
  }

  // ----- An instance -------------------------------------------------------------------------------

  /** The plain strategy with any locks, staleness threshold and gross limit, on contracts that
      expire one millisecond after the start. */
  function PlainSettings(locks: LockConfig, stale: nat, grossLimit: real): Settings {
    var setup := Pipeline.PLAIN_SETUP.(risk := Pipeline.PLAIN_SETUP.risk.(maxGrossExposure := grossLimit));
    Settings(setup, ExecutionConfig(3, 100, stale, 5), locks, (c: ContractKey) => 1)
  }

  lemma RisingIsTaken(c: ContractKey, locks: LockConfig, stale: nat, grossLimit: real)
    ensures var s, candidate := PlainSettings(locks, stale, grossLimit), Pipeline.RisingCandidate(c);
            FirstTaken(s, candidate) && FirstIntent(s, candidate).Notional() == 6.25
  {
    hide Pipeline.Evaluate;
    var s, candidate := PlainSettings(locks, stale, grossLimit), Pipeline.RisingCandidate(c);
    Pipeline.RisingCandidateIsBought(c);
    assert PositionCount(map[]) == 0;
    assert Observed(s, IDLE_BOT, candidate, 0) == candidate;
    GrossLimitIsNotRead(Pipeline.PLAIN_SETUP, candidate, grossLimit);
    Pipeline.AcceptedIntent(Pipeline.PLAIN_SETUP, candidate);
    assert Worth(10.0, 0.625) == 6.25;
  }

  /** So for the plain strategy, with a position limit of 10, the limit is kept by all covered
      runs exactly with locks that outlast the signals. */
  lemma PlainPositionLimitIff(c: ContractKey, locks: LockConfig, stale: nat, grossLimit: real)
    ensures var s := PlainSettings(locks, stale, grossLimit);
            (forall es :: CoveredRun(s, es) ==> PositionsKept(s, es)) <==> LockSpacing.Spacing(locks) > stale
  {
    var s, candidate := PlainSettings(locks, stale, grossLimit), Pipeline.RisingCandidate(c);
    RisingIsTaken(c, locks, stale, grossLimit);
    assert s.setup.risk.maxPositionPerMarket == 10.0 && LocksOutlastSignals(s) <==> LockSpacing.Spacing(locks) > stale;
    assert candidate.now == 0 == s.expiries(candidate.contract) - 1;
    hide FirstTaken, FirstIntent, CoveredRun, PositionsKept, OrderIntent.Notional;
    PositionLimitIff(s, candidate);
  }

  /** And a gross limit of anything below 6.25 does not stop a first order of 6.25. */
  lemma RisingExceedsGross(c: ContractKey, locks: LockConfig, stale: nat, limit: real)
    requires limit < 6.25
    ensures var s, es := PlainSettings(locks, stale, limit), Placing(Pipeline.RisingCandidate(c));
            AllowedRun(s, es) && Gross(Run(s, es).0.desk.book) > limit
  {
    RisingIsTaken(c, locks, stale, limit);
    hide FirstTaken, FirstIntent, Gross, Run, AllowedRun, OrderIntent.Notional;
    GrossLimitIsExceeded(PlainSettings(locks, stale, limit), Pipeline.RisingCandidate(c));
  }

  // ----- Fills of orders that are not live ---------------------------------------------------------

  /** A fill of an order that is not live, even one both trackers digest, has no reservation
      to use up: its whole value comes on top of the position. So it is not covered. */
  lemma DeadFillAddsItsWorth(d: Desk, h: seq<FillEvent>, max: nat, f: FillEvent)
    requires Sound(d, h, max) && FillKeeps(d, h, max, f) && !OnLiveOrder(d, f.clientOrderId)
    ensures NotionalOf(FillStep(d, f).book, f.contract) == NotionalOf(d.book, f.contract) + Worth(f.filledSize, f.price)
  {
    hide Worth, WithFill, ActiveCount, IndexSound, FillsSound, BookAgrees;
    WorthSign(f.filledSize, f.price);
    FillAmounts(d.book, f.contract, f.filledSize, f.price, f.fee);
    PendingNonnegative(d, h, f.contract);
  }
}
