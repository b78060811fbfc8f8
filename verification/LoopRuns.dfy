/** Whole runs of the event loop: one invariant over orders, exposure, locks and the
    intent queue, and what follows from it. */
module LoopRuns {
  import opened Domain
  import opened Orders
  import opened Exposure
  import opened Execution
  import opened OrderDesk
  import opened ContractLock
  import opened TradingLoop
  import LockSpacing
  import OrderRuns
  import Pipeline

  // ----- What has happened so far -------------------------------------------------------

  /** All fills, and one log entry per intent ever queued. */
  datatype History = History(fills: seq<FillEvent>, accepts: seq<LockSpacing.Entry>)

  function EntryOf(c: ContractKey, when: Moments): LockSpacing.Entry {
    LockSpacing.Entry(c, when.listedAt, when.checkedAt, when.lockedAt)
  }

  function Remember(s: Settings, b: Bot, h: History, e: Event): History {
    match e
    case Venue(Fill(f)) => h.(fills := h.fills + [f])
    case Signal(candidate, when, hasRoom) =>
      if Taken(s, b, candidate, when, hasRoom)
      then h.(accepts := h.accepts + [EntryOf(candidate.contract, when)])
      else h
    case _ => h
  }

  function Run(s: Settings, es: seq<Event>): (Bot, History) {
    if es == [] then (IDLE_BOT, History([], []))
    else
      var (b, h) := Run(s, es[..|es| - 1]);
      (Step(s, b, es[|es| - 1]), Remember(s, b, h, es[|es| - 1]))
  }

  // ----- What the surroundings must respect ---------------------------------------------

  /** The clock and the market: time does not run backwards, a tick lists its candidates
      after earlier ticks are done with theirs, and market prices lie in [0, 1]. A candidate
      may be judged any time after its listing. The venue may answer and report anything. */
  predicate Timed(s: Settings, b: Bot, h: History, e: Event) {
    match e
    case Signal(candidate, when, _) =>
      && when.listedAt <= when.seenAt && candidate.now <= when.lockedAt
      && b.clock <= when.seenAt <= when.checkedAt <= when.lockedAt
      && (forall i :: 0 <= i < |h.accepts| && h.accepts[i].contract == candidate.contract ==>
            h.accepts[i].lockedAt <= when.listedAt)
      && 0.0 <= candidate.marketPrice <= 1.0
    case Process(_, at, _, endedAt) => b.clock <= at <= endedAt
    case Venue(event) => !event.Intent?
    case Resolved(_, at) => b.clock <= at
    case CleanedUp(at) => b.clock <= at
  }

  /** The venue: its answers and events meet the conditions under which the order desk
      stays sound. */
  predicate DeskAllowed(s: Settings, b: Bot, h: History, e: Event) {
    match e
    case Process(id, at, reply, _) =>
      && id !in b.desk.orders.records
      && (b.queue != [] ==> OrderRuns.IntentKeeps(b.desk, s.execution, b.queue[0], at, reply))
    case Venue(event) => OrderRuns.Allowed(b.desk, h.fills, s.execution, event)
    case _ => true
  }

  predicate Allowed(s: Settings, b: Bot, h: History, e: Event) {
    Timed(s, b, h, e) && DeskAllowed(s, b, h, e)
  }

  predicate TimedRun(s: Settings, es: seq<Event>) {
    es == [] ||
    var (b, h) := Run(s, es[..|es| - 1]);
    TimedRun(s, es[..|es| - 1]) && Timed(s, b, h, es[|es| - 1])
  }

  predicate AllowedRun(s: Settings, es: seq<Event>) {
    es == [] ||
    var (b, h) := Run(s, es[..|es| - 1]);
    AllowedRun(s, es[..|es| - 1]) && Allowed(s, b, h, es[|es| - 1])
  }

  lemma {:induction false} AllowedRunsAreTimed(s: Settings, es: seq<Event>)
    requires AllowedRun(s, es)
    ensures TimedRun(s, es)
  {
    hide Run, Timed, DeskAllowed;
    if es != [] {
      AllowedRunsAreTimed(s, es[..|es| - 1]);
    }
  }

  // ----- The invariant --------------------------------------------------------------------

  /** The queue holds the most recently logged intents, in order. */
  ghost predicate QueueMatches(queue: seq<OrderIntent>, accepts: seq<LockSpacing.Entry>) {
    && |queue| <= |accepts|
    && (forall i :: 0 <= i < |accepts| ==> accepts[i].checkedAt <= accepts[i].lockedAt)
    && (forall k :: 0 <= k < |queue| ==> Logged(queue[k], accepts[|accepts| - |queue| + k]))
  }

  predicate Logged(i: OrderIntent, e: LockSpacing.Entry) {
    && e.contract == i.contract && i.signalTimestamp <= e.lockedAt
    && i.size >= 0.0 && 0.0 <= i.targetPrice <= 1.0
  }

  /** The freshness test an intent has to pass when it is processed. */
  predicate Fresh(s: Settings, i: OrderIntent, at: int) {
    at - i.signalTimestamp <= s.execution.staleSignalThreshold
  }

  predicate Fits(s: Settings, book: Book, i: OrderIntent) {
    NotionalOf(book, i.contract) + i.Notional() <= s.setup.risk.maxPositionPerMarket
  }

  /** Positions are within the limit, and stay so after any queued intent that is still fresh. */
  ghost predicate WithinPosition(s: Settings, b: Bot) {
    && (forall c :: NotionalOf(b.desk.book, c) <= s.setup.risk.maxPositionPerMarket)
    && (forall k :: 0 <= k < |b.queue| && Fresh(s, b.queue[k], b.clock) ==> Fits(s, b.desk.book, b.queue[k]))
  }

  /** Locks and queue, whatever the orders do. */
  ghost predicate EntriesSound(s: Settings, b: Bot, h: History) {
    && LockSpacing.LocksSound(s.locks, b.locks, h.accepts, s.expiries, b.clock)
    && QueueMatches(b.queue, h.accepts)
  }

  ghost predicate LoopSound(s: Settings, b: Bot, h: History) {
    Sound(b.desk, h.fills, s.execution.maxConcurrentOrders) && EntriesSound(s, b, h)
  }

  ghost predicate NoneNegative(book: Book) {
    forall c :: PendingOf(book, c) >= 0.0
  }

  // ----- Consequences ---------------------------------------------------------------------

  /** A signal is stale before its contract can be entered again: both the cooldown and the
      post-expiry buffer are long enough. */
  predicate LocksOutlastSignals(s: Settings) {
    LockSpacing.Spacing(s.locks) > s.execution.staleSignalThreshold
  }

  /** Once a later intent of the same contract is queued, the earlier one can no longer
      pass the freshness test, so at most one queued intent of a contract ever can. */
  lemma EarlierIntentIsStale(s: Settings, b: Bot, h: History, j: nat, k: nat, at: int)
    requires EntriesSound(s, b, h)
    requires LocksOutlastSignals(s)
    requires j < k < |b.queue| && b.queue[j].contract == b.queue[k].contract
    requires b.clock <= at
    ensures !Fresh(s, b.queue[j], at)
  {
    var off := |h.accepts| - |b.queue|;
    assert Logged(b.queue[j], h.accepts[off + j]) && Logged(b.queue[k], h.accepts[off + k]);
    LockSpacing.FarEnoughMeans(s.locks, s.expiries(b.queue[j].contract), h.accepts[off + j], h.accepts[off + k]);
    assert LockSpacing.Protects(s.locks, b.locks, h.accepts[off + k], s.expiries(b.queue[k].contract), b.clock);
  }

  // ----- The desk in the loop ---------------------------------------------------------------

  lemma DeskStaysSound(s: Settings, b: Bot, h: History, e: Event)
    requires LoopSound(s, b, h) && Allowed(s, b, h, e)
    ensures Sound(Step(s, b, e).desk, Remember(s, b, h, e).fills, s.execution.maxConcurrentOrders)
  {
    hide Sound, Decision, LockSpacing.LocksSound, OrderRuns.Step, OrderRuns.IntentKeeps, OrderRuns.Allowed;
    match e {
      case Process(id, at, reply, _) =>
        if b.queue != [] {
          OrderRuns.IntentKeepsSoundIff(b.desk, h.fills, s.execution, b.queue[0], id, at, reply);
        }
      case Venue(event) => OrderRuns.StepKeepsSoundIff(b.desk, h.fills, s.execution, event);
      case Signal(_, _, _) =>
      case Resolved(_, _) =>
      case CleanedUp(_) =>
    }
  }

  // ----- The locks in the loop --------------------------------------------------------------

  lemma {:induction false} AllCooledKeepsSound(cfg: LockConfig, l: Locks, log: seq<LockSpacing.Entry>,
          expiries: LockSpacing.Expiries, now: int, cs: seq<ContractKey>, at: int)
    requires LockSpacing.LocksSound(cfg, l, log, expiries, now) && now <= at
    ensures LockSpacing.LocksSound(cfg, AllCooled(cfg, l, cs, at), log, expiries, at)
  {
    hide LockSpacing.LocksSound;
    if cs == [] {
      LockSpacing.TimeKeepsSound(cfg, l, log, expiries, now, at);
    } else {
      AllCooledKeepsSound(cfg, l, log, expiries, now, cs[..|cs| - 1], at);
      LockSpacing.CooldownKeepsSound(cfg, AllCooled(cfg, l, cs[..|cs| - 1], at), log, expiries, at, cs[|cs| - 1], at);
    }
  }

  /** What a candidate that was taken looked like. */
  lemma TakenIntent(s: Settings, b: Bot, candidate: Pipeline.PipelineInput, when: Moments, hasRoom: bool)
    requires Taken(s, b, candidate, when, hasRoom)
    ensures var i := Decision(s, b, candidate, when.checkedAt).intent;
            && i.contract == candidate.contract && i.targetPrice == candidate.marketPrice
            && i.signalTimestamp == candidate.now && i.size >= 1.0
            && NotionalOf(b.desk.book, i.contract) + i.size <= s.setup.risk.maxPositionPerMarket
    ensures StateAt(s.locks, b.locks, candidate.contract, when.checkedAt) == Unlocked
  {
    hide Pipeline.Evaluate, NotionalOf, PositionCount;
    Pipeline.AcceptedIntent(s.setup, Observed(s, b, candidate, when.checkedAt));
  }

  lemma LocksStaySound(s: Settings, b: Bot, h: History, e: Event)
    requires EntriesSound(s, b, h) && Timed(s, b, h, e)
    ensures var b', h' := Step(s, b, e), Remember(s, b, h, e);
            LockSpacing.LocksSound(s.locks, b'.locks, h'.accepts, s.expiries, b'.clock)
  {
    hide Decision, LockSpacing.LocksSound, IntentStep, OrderRuns.Step;
    match e {
      case Signal(candidate, when, hasRoom) =>
        if Taken(s, b, candidate, when, hasRoom) {
          TakenIntent(s, b, candidate, when, hasRoom);
          LockSpacing.AcceptKeepsSound(s.locks, b.locks, h.accepts, s.expiries, b.clock,
                                       EntryOf(candidate.contract, when));
        } else {
          LockSpacing.TimeKeepsSound(s.locks, b.locks, h.accepts, s.expiries, b.clock, when.checkedAt);
        }
      case Process(_, _, _, endedAt) =>
        if b.queue != [] {
          LockSpacing.TimeKeepsSound(s.locks, b.locks, h.accepts, s.expiries, b.clock, endedAt);
          LockSpacing.CooldownKeepsSound(s.locks, b.locks, h.accepts, s.expiries, b.clock, b.queue[0].contract,
              endedAt);
        }
      case Venue(_) =>
      case Resolved(cs, at) => AllCooledKeepsSound(s.locks, b.locks, h.accepts, s.expiries, b.clock, cs, at);
      case CleanedUp(at) => LockSpacing.CleanupKeepsSound(s.locks, b.locks, h.accepts, s.expiries, b.clock, at);
    }
  }

  lemma TakenIsLogged(s: Settings, b: Bot, candidate: Pipeline.PipelineInput, when: Moments, hasRoom: bool)
    requires Taken(s, b, candidate, when, hasRoom)
    requires candidate.now <= when.lockedAt && 0.0 <= candidate.marketPrice <= 1.0
    ensures Logged(Decision(s, b, candidate, when.checkedAt).intent, EntryOf(candidate.contract, when))
  {
    hide Decision;
    TakenIntent(s, b, candidate, when, hasRoom);
  }

  lemma QueueStaysMatched(s: Settings, b: Bot, h: History, e: Event)
    requires EntriesSound(s, b, h) && Timed(s, b, h, e)
    ensures QueueMatches(Step(s, b, e).queue, Remember(s, b, h, e).accepts)
  {
    hide Decision, LockSpacing.LocksSound, IntentStep, OrderRuns.Step, Logged;
    if e.Signal? && Taken(s, b, e.candidate, e.when, e.hasRoom) {
      TakenIsLogged(s, b, e.candidate, e.when, e.hasRoom);
      assert Step(s, b, e).queue[..|b.queue|] == b.queue;
    }
  }

  lemma EntriesStaySound(s: Settings, b: Bot, h: History, e: Event)
    requires EntriesSound(s, b, h) && Timed(s, b, h, e)
    ensures EntriesSound(s, Step(s, b, e), Remember(s, b, h, e))
  {
    hide Step, Remember, Timed, QueueMatches, LockSpacing.LocksSound;
    LocksStaySound(s, b, h, e);
    QueueStaysMatched(s, b, h, e);
  }

  /** Locks and queue are sound after every timed run, whatever the venue does. */
  lemma {:induction false} TimedRunsKeepEntries(s: Settings, es: seq<Event>)
    requires TimedRun(s, es)
    ensures EntriesSound(s, Run(s, es).0, Run(s, es).1)
  {
    hide Step, Remember, Timed;
    if es != [] {
      TimedRunsKeepEntries(s, es[..|es| - 1]);
      EntriesStaySound(s, Run(s, es[..|es| - 1]).0, Run(s, es[..|es| - 1]).1, es[|es| - 1]);
    }
  }

  /** Every allowed event keeps orders, exposure, locks and queue in agreement. */
  lemma StepKeepsSound(s: Settings, b: Bot, h: History, e: Event)
    requires LoopSound(s, b, h) && Allowed(s, b, h, e)
    ensures LoopSound(s, Step(s, b, e), Remember(s, b, h, e))
  {
    hide Sound, Step, Remember, Timed, DeskAllowed, EntriesSound;
    DeskStaysSound(s, b, h, e);
    EntriesStaySound(s, b, h, e);
  }

  lemma {:induction false} RunsAreSound(s: Settings, es: seq<Event>)
    requires AllowedRun(s, es)
    ensures LoopSound(s, Run(s, es).0, Run(s, es).1)
  {
    hide Step, Remember, Allowed, Sound;
    if es == [] {
      OrderRuns.EmptyDeskIsSound(s.execution.maxConcurrentOrders);
    } else {
      RunsAreSound(s, es[..|es| - 1]);
      StepKeepsSound(s, Run(s, es[..|es| - 1]).0, Run(s, es[..|es| - 1]).1, es[|es| - 1]);
    }
  }

  // ----- Venue events and the tracked notional ---------------------------------------------------

  /** A fill of a contract in the book is worth no more than what is pending there, and a
      cancelled or rejected order does not release a negative amount. */
  predicate Covered(d: Desk, e: OrderRuns.Event) {
    match e
    case Fill(f) => f.contract in d.book ==> Worth(f.filledSize, f.price) <= PendingOf(d.book, f.contract)
    case Change(id, state) =>
      (state == Canceled || state == Rejected) && id in d.orders.records && d.orders.records[id].contract in d.book ==>
        Worth(d.orders.records[id].size - d.orders.records[id].filledSize, d.orders.records[id].price) >= 0.0
    case _ => true
  }

  /** The fill finds an entry in the book, or is worth nothing. */
  predicate Booked(d: Desk, e: OrderRuns.Event) {
    e.Fill? ==> e.fill.contract in d.book || Worth(e.fill.filledSize, e.fill.price) == 0.0
  }

  ghost predicate NothingAdded(before: Book, after: Book) {
    forall c :: NotionalOf(after, c) <= NotionalOf(before, c)
  }

  /** A venue event raises no contract's tracked notional exactly when it is covered. */
  lemma VenueNeverAddsIff(d: Desk, cfg: ExecutionConfig, e: OrderRuns.Event)
    requires NoneNegative(d.book) && !e.Intent?
    ensures NothingAdded(d.book, OrderRuns.Step(d, cfg, e).book) <==> Covered(d, e)
  {
    hide Worth, WithFill, WithoutPending, PendingOf, FilledOf;
    match e {
      case Fill(f) =>
        FillAmounts(d.book, f.contract, f.filledSize, f.price, f.fee);
        assert PendingOf(d.book, f.contract) >= 0.0;
        assert NothingAdded(d.book, FillStep(d, f).book) ==>
            NotionalOf(FillStep(d, f).book, f.contract) <= NotionalOf(d.book, f.contract);
      case Change(id, state) =>
        if id in d.orders.records && (state == Canceled || state == Rejected) {
          var rec := d.orders.records[id];
          assert PendingOf(d.book, rec.contract) >= 0.0;
          PendingAmounts(d.book, rec.contract, rec.side, Worth(rec.size - rec.filledSize, rec.price));
          assert NothingAdded(d.book, ChangeStep(d, id, state).book) ==>
              NotionalOf(ChangeStep(d, id, state).book, rec.contract) <= NotionalOf(d.book, rec.contract);
        }
      case Ack(_, _) =>
    }
  }

  /** A submission leaves its notional reserved in its own contract, and only if it was fresh. */
  lemma SubmissionAddsItsNotional(s: Settings, b: Bot, id: ClientOrderId, at: int, reply: Reply,
          endedAt: int, c: ContractKey)
    requires NoneNegative(b.desk.book) && b.queue != []
    ensures var i, d' := b.queue[0], ProcessStep(s, b, id, at, reply, endedAt).desk;
            var submitted := Refusal(b.desk.orders, s.execution, i, at).None? && reply.Ok?;
            && (submitted ==> Fresh(s, i, at))
            && PendingOf(d'.book, c) == PendingOf(b.desk.book, c)
               + (if submitted && c == i.contract then i.Notional() else 0.0)
            && FilledOf(d'.book, c) == FilledOf(b.desk.book, c)
  {
    hide Worth, HasPending, ActiveCount, PendingOf, FilledOf;
    var i := b.queue[0];
    assert PendingOf(b.desk.book, i.contract) >= 0.0;
    OrderRuns.IntentAmounts(b.desk, s.execution, i, id, at, reply);
    hide IntentStep;
  }

  lemma NoneTurnsNegative(s: Settings, b: Bot, h: History, e: Event)
    requires QueueMatches(b.queue, h.accepts) && NoneNegative(b.desk.book) && Timed(s, b, h, e)
    ensures NoneNegative(Step(s, b, e).desk.book)
  {
    hide Worth, WithFill, WithoutPending, IntentStep, PendingOf, FilledOf, Decision;
    forall c
      ensures PendingOf(Step(s, b, e).desk.book, c) >= 0.0
    {
      assert PendingOf(b.desk.book, c) >= 0.0;
      match e {
        case Process(id, at, reply, endedAt) =>
          if b.queue != [] {
            assert Logged(b.queue[0], h.accepts[|h.accepts| - |b.queue|]);
            WorthSign(b.queue[0].size, b.queue[0].targetPrice);
            SubmissionAddsItsNotional(s, b, id, at, reply, endedAt, c);
          }
        case Venue(event) => VenueKeepsPending(b.desk, s.execution, event, c);
        case Signal(_, _, _) =>
        case Resolved(_, _) =>
        case CleanedUp(_) =>
      }
    }
  }

  lemma VenueKeepsPending(d: Desk, cfg: ExecutionConfig, e: OrderRuns.Event, c: ContractKey)
    requires !e.Intent? && PendingOf(d.book, c) >= 0.0
    ensures PendingOf(OrderRuns.Step(d, cfg, e).book, c) >= 0.0
  {
    hide Worth, WithFill, WithoutPending, PendingOf, FilledOf;
    match e {
      case Fill(f) => FillAmounts(d.book, f.contract, f.filledSize, f.price, f.fee);
      case Change(id, state) =>
        if id in d.orders.records {
          var rec := d.orders.records[id];
          PendingAmounts(d.book, rec.contract, rec.side, Worth(rec.size - rec.filledSize, rec.price));
        }
      case Ack(_, _) =>
    }
  }

  /** Pending amounts are never negative, whatever the venue does. */
  lemma {:induction false} TimedRunsKeepPending(s: Settings, es: seq<Event>)
    requires TimedRun(s, es)
    ensures NoneNegative(Run(s, es).0.desk.book)
  {
    hide Step, Remember, Timed, EntriesSound;
    if es != [] {
      var (b, h) := Run(s, es[..|es| - 1]);
      TimedRunsKeepPending(s, es[..|es| - 1]);
      TimedRunsKeepEntries(s, es[..|es| - 1]);
      EntriesMatch(s, b, h);
      NoneTurnsNegative(s, b, h, es[|es| - 1]);
    }
  }

  lemma EntriesMatch(s: Settings, b: Bot, h: History)
    requires EntriesSound(s, b, h)
    ensures QueueMatches(b.queue, h.accepts)
  {
  }

  // ----- The position limit -------------------------------------------------------------------

  /** Notionals that do not grow, a queue that only loses its head, later time. */
  lemma LessStaysWithin(s: Settings, b: Bot, b': Bot)
    requires WithinPosition(s, b)
    requires b'.clock >= b.clock && b'.queue == b.queue
    requires forall c :: NotionalOf(b'.desk.book, c) <= NotionalOf(b.desk.book, c)
    ensures WithinPosition(s, b')
  {
    hide NotionalOf, OrderIntent.Notional;
    forall c
      ensures NotionalOf(b'.desk.book, c) <= s.setup.risk.maxPositionPerMarket
    {
      assert NotionalOf(b.desk.book, c) <= s.setup.risk.maxPositionPerMarket;
    }
    forall k | 0 <= k < |b'.queue| && Fresh(s, b'.queue[k], b'.clock)
      ensures Fits(s, b'.desk.book, b'.queue[k])
    {
      assert Fresh(s, b.queue[k], b.clock) && Fits(s, b.desk.book, b.queue[k]);
    }
  }

  lemma TakenFits(s: Settings, b: Bot, candidate: Pipeline.PipelineInput, when: Moments, hasRoom: bool)
    requires Taken(s, b, candidate, when, hasRoom)
    requires 0.0 <= candidate.marketPrice <= 1.0
    ensures Fits(s, b.desk.book, Decision(s, b, candidate, when.checkedAt).intent)
  {
    TakenIntent(s, b, candidate, when, hasRoom);
    hide Decision, NotionalOf;
    var i := Decision(s, b, candidate, when.checkedAt).intent;
    MoreIsWorthMore(i.targetPrice, 1.0, i.size);
    assert Worth(i.targetPrice, i.size) == i.Notional() && Worth(1.0, i.size) == i.size;
  }

  lemma SignalStaysWithin(s: Settings, b: Bot, candidate: Pipeline.PipelineInput, when: Moments, hasRoom: bool)
    requires WithinPosition(s, b)
    requires b.clock <= when.checkedAt <= when.lockedAt && 0.0 <= candidate.marketPrice <= 1.0
    ensures WithinPosition(s, SignalStep(s, b, candidate, when, hasRoom))
  {
    hide Decision, Fits, NotionalOf;
    var b' := SignalStep(s, b, candidate, when, hasRoom);
    LessStaysWithin(s, b, b'.(queue := b.queue));
    if Taken(s, b, candidate, when, hasRoom) {
      TakenFits(s, b, candidate, when, hasRoom);
    }
  }

  lemma ProcessStaysWithin(s: Settings, b: Bot, h: History, id: ClientOrderId, at: int, reply: Reply, endedAt: int)
    requires EntriesSound(s, b, h) && NoneNegative(b.desk.book) && WithinPosition(s, b)
    requires LocksOutlastSignals(s)
    requires b.clock <= at <= endedAt
    ensures WithinPosition(s, ProcessStep(s, b, id, at, reply, endedAt))
  {
    hide IntentStep, PendingOf, FilledOf, OrderIntent.Notional, EntriesSound, Refusal;
    if b.queue != [] {
      var i := b.queue[0];
      var b' := ProcessStep(s, b, id, at, reply, endedAt);
      forall c
        ensures NotionalOf(b'.desk.book, c) <= s.setup.risk.maxPositionPerMarket
      {
        SubmissionAddsItsNotional(s, b, id, at, reply, endedAt, c);
        assert NotionalOf(b.desk.book, c) <= s.setup.risk.maxPositionPerMarket;
        assert Fresh(s, i, at) ==> Fits(s, b.desk.book, i);
      }
      forall k | 0 <= k < |b'.queue| && Fresh(s, b'.queue[k], b'.clock)
        ensures Fits(s, b'.desk.book, b'.queue[k])
      {
        var c := b.queue[k + 1].contract;
        SubmissionAddsItsNotional(s, b, id, at, reply, endedAt, c);
        if c == i.contract {
          EarlierIntentIsStale(s, b, h, 0, k + 1, at);
        }
        assert Fits(s, b.desk.book, b.queue[k + 1]);
      }
    }
  }

  lemma PositionStaysWithin(s: Settings, b: Bot, h: History, e: Event)
    requires EntriesSound(s, b, h) && NoneNegative(b.desk.book) && WithinPosition(s, b)
    requires Timed(s, b, h, e) && (e.Venue? ==> Covered(b.desk, e.event))
    requires LocksOutlastSignals(s)
    ensures WithinPosition(s, Step(s, b, e))
  {
    hide WithinPosition, SignalStep, ProcessStep, NotionalOf, EntriesSound, OrderRuns.Step, Covered;
    match e {
      case Signal(candidate, when, hasRoom) => SignalStaysWithin(s, b, candidate, when, hasRoom);
      case Process(id, at, reply, endedAt) => ProcessStaysWithin(s, b, h, id, at, reply, endedAt);
      case Venue(event) =>
        VenueNeverAddsIff(b.desk, s.execution, event);
        LessStaysWithin(s, b, Step(s, b, e));
      case Resolved(_, _) => LessStaysWithin(s, b, Step(s, b, e));
      case CleanedUp(_) => LessStaysWithin(s, b, Step(s, b, e));
    }
  }

  /** A timed run all of whose venue events are covered. */
  predicate CoveredRun(s: Settings, es: seq<Event>) {
    es == [] ||
    var (b, h) := Run(s, es[..|es| - 1]);
    var e := es[|es| - 1];
    CoveredRun(s, es[..|es| - 1]) && Timed(s, b, h, e) && (e.Venue? ==> Covered(b.desk, e.event))
  }

  /** A run all of whose fills are booked. */
  predicate BookedRun(s: Settings, es: seq<Event>) {
    es == [] ||
    var e := es[|es| - 1];
    BookedRun(s, es[..|es| - 1]) && (e.Venue? ==> Booked(Run(s, es[..|es| - 1]).0.desk, e.event))
  }

  lemma {:induction false} CoveredRunsAreTimed(s: Settings, es: seq<Event>)
    requires CoveredRun(s, es)
    ensures TimedRun(s, es)
  {
    hide Run, Timed, Covered;
    if es != [] {
      CoveredRunsAreTimed(s, es[..|es| - 1]);
    }
  }

  lemma {:induction false} RunsStayWithin(s: Settings, es: seq<Event>)
    requires CoveredRun(s, es)
    requires LocksOutlastSignals(s) && s.setup.risk.maxPositionPerMarket >= 0.0
    ensures WithinPosition(s, Run(s, es).0)
  {
    hide Step, Remember, Timed, Covered, EntriesSound, NoneNegative;
    if es != [] {
      var before := es[..|es| - 1];
      RunsStayWithin(s, before);
      CoveredRunsAreTimed(s, before);
      TimedRunsKeepEntries(s, before);
      TimedRunsKeepPending(s, before);
      PositionStaysWithin(s, Run(s, before).0, Run(s, before).1, es[|es| - 1]);
    }
  }

  // ----- What was really traded --------------------------------------------------------------------

  /** The book shows as filled what the venue has executed. */
  ghost predicate FillsTracked(book: Book, fills: seq<FillEvent>) {
    forall c :: FilledOf(book, c) == Traded(fills, c)
  }

  /** A fill is tracked exactly when it is booked. */
  lemma FillIsTrackedIff(d: Desk, fills: seq<FillEvent>, f: FillEvent)
    requires FillsTracked(d.book, fills)
    ensures FillsTracked(FillStep(d, f).book, fills + [f]) <==> Booked(d, OrderRuns.Fill(f))
  {
    hide Worth, WithFill, FilledOf, PendingOf, Traded;
    FillAmounts(d.book, f.contract, f.filledSize, f.price, f.fee);
    HistoryExtends(fills, f);
    assert FilledOf(d.book, f.contract) == Traded(fills, f.contract);
    NoEntryNothingFilled(d.book, f.contract);
    assert FillsTracked(FillStep(d, f).book, fills + [f]) ==>
        FilledOf(FillStep(d, f).book, f.contract) == Traded(fills + [f], f.contract);
    if Booked(d, OrderRuns.Fill(f)) {
      forall c
        ensures FilledOf(FillStep(d, f).book, c) == Traded(fills + [f], c)
      {
        assert FilledOf(d.book, c) == Traded(fills, c);
      }
    }
  }

  lemma NoEntryNothingFilled(book: Book, c: ContractKey)
    ensures c !in book ==> FilledOf(book, c) == 0.0
  {
  }

  lemma FillsStayTracked(s: Settings, b: Bot, h: History, e: Event)
    requires FillsTracked(b.desk.book, h.fills) && NoneNegative(b.desk.book)
    requires Timed(s, b, h, e) && (e.Venue? ==> Booked(b.desk, e.event))
    ensures FillsTracked(Step(s, b, e).desk.book, Remember(s, b, h, e).fills)
  {
    hide Worth, WithFill, WithoutPending, IntentStep, FilledOf, PendingOf, Traded, Decision, Booked;
    if e.Venue? && e.event.Fill? {
      FillIsTrackedIff(b.desk, h.fills, e.event.fill);
    } else {
      forall c
        ensures FilledOf(Step(s, b, e).desk.book, c) == FilledOf(b.desk.book, c)
      {
        match e {
          case Process(id, at, reply, endedAt) =>
            if b.queue != [] {
              SubmissionAddsItsNotional(s, b, id, at, reply, endedAt, c);
            }
          case Venue(event) => OtherEventsFillNothing(b.desk, s.execution, event, c);
          case Signal(_, _, _) =>
          case Resolved(_, _) =>
          case CleanedUp(_) =>
        }
      }
    }
  }

  lemma OtherEventsFillNothing(d: Desk, cfg: ExecutionConfig, e: OrderRuns.Event, c: ContractKey)
    requires e.Ack? || e.Change?
    ensures FilledOf(OrderRuns.Step(d, cfg, e).book, c) == FilledOf(d.book, c)
  {
    hide Worth, WithoutPending, FilledOf, PendingOf;
    if e.Change? && e.id in d.orders.records {
      var rec := d.orders.records[e.id];
      PendingAmounts(d.book, rec.contract, rec.side, Worth(rec.size - rec.filledSize, rec.price));
    }
  }

  lemma {:induction false} BookedRunsTrackFills(s: Settings, es: seq<Event>)
    requires TimedRun(s, es) && BookedRun(s, es)
    ensures FillsTracked(Run(s, es).0.desk.book, Run(s, es).1.fills)
  {
    hide Step, Remember, Timed, Booked, NoneNegative;
    if es != [] {
      var before := es[..|es| - 1];
      BookedRunsTrackFills(s, before);
      TimedRunsKeepPending(s, before);
      hide FillsTracked;
      FillsStayTracked(s, Run(s, before).0, Run(s, before).1, es[|es| - 1]);
    }
  }

  // ----- Positions a candidate sees -----------------------------------------------------------------

  /** The contracts of which something was bought or sold, read off the fills alone. */
  function TradedContracts(fills: seq<FillEvent>): set<ContractKey> {
    set f | f in fills && Traded(fills, f.contract) > 0.0 :: f.contract
  }

  lemma {:induction false} NothingTradedWithoutFill(fills: seq<FillEvent>, c: ContractKey)
    requires forall f :: f in fills ==> f.contract != c
    ensures Traded(fills, c) == 0.0
  {
    if fills != [] {
      NothingTradedWithoutFill(fills[..|fills| - 1], c);
    }
  }

  lemma TradedContractsAre(fills: seq<FillEvent>, c: ContractKey)
    ensures c in TradedContracts(fills) <==> Traded(fills, c) > 0.0
  {
    hide Traded;
    if forall f :: f in fills ==> f.contract != c {
      NothingTradedWithoutFill(fills, c);
    }
  }

  /** A book that tracks the fills counts as positions the contracts really traded. */
  lemma CountIsTraded(book: Book, fills: seq<FillEvent>)
    requires FillsTracked(book, fills)
    ensures PositionCount(book) == |TradedContracts(fills)|
  {
    hide TradedContracts, Traded;
    var positions := Positions(book);
    forall c
      ensures c in positions <==> c in TradedContracts(fills)
    {
      TradedContractsAre(fills, c);
      assert FilledOf(book, c) == Traded(fills, c);
    }
    assert positions == TradedContracts(fills);
  }

  /** What a candidate is told after an allowed run, or after a timed one whose fills are all
      booked: the number of contracts with something executed on them. Reserved and open
      orders do not count. */
  lemma CandidateSeesTradedContracts(s: Settings, es: seq<Event>, candidate: Pipeline.PipelineInput, at: int)
    requires AllowedRun(s, es) || (TimedRun(s, es) && BookedRun(s, es))
    ensures var (b, h) := Run(s, es);
            && Observed(s, b, candidate, at).currentPositions == |TradedContracts(h.fills)|
            && (forall c :: c in TradedContracts(h.fills) <==> Traded(h.fills, c) > 0.0)
            && (Decision(s, b, candidate, at).Accept? ==>
                  |TradedContracts(h.fills)| < s.setup.risk.maxConcurrentPositions)
  {
    hide Run, AllowedRun, TimedRun, BookedRun, TradedContracts, Traded, PositionCount, Pipeline.Evaluate;
    var (b, h) := Run(s, es);
    if AllowedRun(s, es) {
      RunsAreSound(s, es);
      assert FillsTracked(b.desk.book, h.fills);
    } else {
      BookedRunsTrackFills(s, es);
    }
    CountIsTraded(b.desk.book, h.fills);
    if Decision(s, b, candidate, at).Accept? {
      Pipeline.AcceptedIntent(s.setup, Observed(s, b, candidate, at));
    }
    forall c
      ensures c in TradedContracts(h.fills) <==> Traded(h.fills, c) > 0.0
    {
      TradedContractsAre(h.fills, c);
    }
  }

  // ----- What holds over every run ---------------------------------------------------------------

  /** In every timed run, however slowly candidates are judged and whatever the venue does, a
      second entry into a contract waits for the full cooldown or until more than the
      post-expiry buffer has passed. With a buffer at least as long as the cooldown that is
      always the full cooldown. */
  lemma NoDoubleEntry(s: Settings, es: seq<Event>, i: nat, j: nat)
    requires TimedRun(s, es)
    requires var accepts := Run(s, es).1.accepts; i < j < |accepts| && accepts[i].contract == accepts[j].contract
    ensures var earlier, later := Run(s, es).1.accepts[i], Run(s, es).1.accepts[j];
            && LockSpacing.FarEnough(s.locks, s.expiries(earlier.contract), earlier, later)
            && later.checkedAt >= earlier.lockedAt + LockSpacing.Spacing(s.locks)
            && (s.locks.cooldownDuration <= s.locks.postExpiryBuffer + 1 ==>
                  later.checkedAt >= earlier.lockedAt + s.locks.cooldownDuration)
  {
    hide Run, TimedRun;
    TimedRunsKeepEntries(s, es);
    var earlier, later := Run(s, es).1.accepts[i], Run(s, es).1.accepts[j];
    LockSpacing.FarEnoughMeans(s.locks, s.expiries(earlier.contract), earlier, later);
  }

  /** With cooldown and buffer above the staleness threshold the queue never holds two
      intents of one contract of which both could still be submitted. */
  lemma OneFreshIntentPerContract(s: Settings, es: seq<Event>, j: nat, k: nat, at: int)
    requires TimedRun(s, es)
    requires LocksOutlastSignals(s)
    requires var b := Run(s, es).0; j < k < |b.queue| && b.queue[j].contract == b.queue[k].contract && b.clock <= at
    ensures Refusal(Run(s, es).0.desk.orders, s.execution, Run(s, es).0.queue[j], at).Some?
  {
    hide Run, TimedRun, EntriesSound;
    TimedRunsKeepEntries(s, es);
    EarlierIntentIsStale(s, Run(s, es).0, Run(s, es).1, j, k, at);
  }

  ghost predicate PositionsKept(s: Settings, es: seq<Event>) {
    forall c :: NotionalOf(Run(s, es).0.desk.book, c) <= s.setup.risk.maxPositionPerMarket
  }

  /** And then, if venue events are covered, no contract's tracked notional ever exceeds the
      position limit, although intents wait in the queue between the check and the
      reservation. */
  lemma PositionLimitHolds(s: Settings, es: seq<Event>)
    requires CoveredRun(s, es)
    requires LocksOutlastSignals(s) && s.setup.risk.maxPositionPerMarket >= 0.0
    ensures PositionsKept(s, es)
  {
    hide Run, CoveredRun, NotionalOf;
    RunsStayWithin(s, es);
  }

  /** If all fills are booked too, the limit also bounds what was really traded. */
  lemma TradedWithinLimit(s: Settings, es: seq<Event>, c: ContractKey)
    requires CoveredRun(s, es) && BookedRun(s, es)
    requires LocksOutlastSignals(s) && s.setup.risk.maxPositionPerMarket >= 0.0
    ensures Traded(Run(s, es).1.fills, c) <= s.setup.risk.maxPositionPerMarket
  {
    hide Run, CoveredRun, BookedRun, Traded, PendingOf, FilledOf;
    PositionLimitHolds(s, es);
    CoveredRunsAreTimed(s, es);
    BookedRunsTrackFills(s, es);
    TimedRunsKeepPending(s, es);
    var book := Run(s, es).0.desk.book;
    assert NotionalOf(book, c) <= s.setup.risk.maxPositionPerMarket;
    assert FilledOf(book, c) == Traded(Run(s, es).1.fills, c) && PendingOf(book, c) >= 0.0;
  }

  // ----- Which venues are covered --------------------------------------------------------------------

  /** Fills of live orders at their own price. */
  predicate LimitFills(s: Settings, es: seq<Event>) {
    es == [] ||
    var d, e := Run(s, es[..|es| - 1]).0.desk, es[|es| - 1];
    && LimitFills(s, es[..|es| - 1])
    && (e.Venue? && e.event.Fill? ==>
          && OnLiveOrder(d, e.event.fill.clientOrderId)
          && e.event.fill.price == d.orders.records[e.event.fill.clientOrderId].price)
  }

  lemma LimitFillIsCovered(d: Desk, h: seq<FillEvent>, max: nat, f: FillEvent)
    requires Sound(d, h, max) && OnLiveOrder(d, f.clientOrderId) && FillKeeps(d, h, max, f)
    requires f.price == d.orders.records[f.clientOrderId].price
    ensures Covered(d, OrderRuns.Fill(f)) && Booked(d, OrderRuns.Fill(f))
  {
    hide Worth, Executed, Traded, ActiveCount;
    var id := f.clientOrderId;
    var rec := d.orders.records[id];
    assert PendingOf(d.book, rec.contract) == LiveValue(d, h, rec.contract) == UnfilledValue(d, h, id);
    MoreIsWorthMore(f.filledSize, UnfilledSize(d, h, id), rec.price);
    WorthSign(f.filledSize, f.price);
    PendingNonnegative(d, h, f.contract);
  }

  lemma SoundChangeIsCovered(d: Desk, h: seq<FillEvent>, max: nat, id: ClientOrderId, state: OrderState)
    requires Sound(d, h, max)
    ensures Covered(d, OrderRuns.Change(id, state))
  {
    hide Worth, BookAgrees, IndexSound, ActiveCount;
    if id in d.orders.records {
      WorthSign(d.orders.records[id].size - d.orders.records[id].filledSize, d.orders.records[id].price);
    }
  }

  /** An honest venue, whose fills are of live orders at the limit price and whose events keep
      the desk sound, is covered, and its fills are booked. */
  lemma {:induction false} LimitFillsAreCovered(s: Settings, es: seq<Event>)
    requires AllowedRun(s, es) && LimitFills(s, es)
    ensures CoveredRun(s, es) && BookedRun(s, es)
  {
    if es != [] {
      var before, e := es[..|es| - 1], es[|es| - 1];
      var (b, h) := Run(s, before);
      LimitFillsAreCovered(s, before);
      RunsAreSound(s, before);
      hide Sound, Timed, Covered, Booked, FillKeeps, AckKeeps, ChangeKeeps, Run, EntriesSound;
      if e.Venue? {
        match e.event {
          case Fill(f) => LimitFillIsCovered(b.desk, h.fills, s.execution.maxConcurrentOrders, f);
          case Change(id, state) =>
            SoundChangeIsCovered(b.desk, h.fills, s.execution.maxConcurrentOrders, id, state);
            OnlyFillsCount(b.desk, e.event);
          case Ack(_, _) => OnlyFillsCount(b.desk, e.event);
          case Intent(_, _, _, _) => OnlyFillsCount(b.desk, e.event);
        }
      }
    }
  }

  lemma OnlyFillsCount(d: Desk, e: OrderRuns.Event)
    ensures !e.Fill? ==> Booked(d, e)
    ensures e.Ack? || e.Intent? ==> Covered(d, e)
  {
  }

  /** The default simulation client: it answers Filled to every submission and reports
      nothing, so the only venue events are the engine's own acknowledgements. */
  predicate DefaultClient(e: Event) {
    && (e.Process? ==> e.reply.Ok? && e.reply.status == Filled)
    && (e.Venue? ==> e.event.Ack?)
  }

  lemma {:induction false} DefaultClientIsCovered(s: Settings, es: seq<Event>)
    requires TimedRun(s, es) && forall e :: e in es ==> DefaultClient(e)
    ensures CoveredRun(s, es) && BookedRun(s, es)
  {
    hide Run, Timed, Covered, Booked;
    if es != [] {
      var before, e := es[..|es| - 1], es[|es| - 1];
      assert es == before + [e] && DefaultClient(e);
      DefaultClientIsCovered(s, before);
      if e.Venue? {
        OnlyFillsCount(Run(s, before).0.desk, e.event);
      }
    }
  }

  /** So the theorems cover the bot as it is built today: against its default client every
      timed run keeps the position limit. */
  lemma DefaultClientKeepsPositions(s: Settings, es: seq<Event>)
    requires TimedRun(s, es) && forall e :: e in es ==> DefaultClient(e)
    requires LocksOutlastSignals(s) && s.setup.risk.maxPositionPerMarket >= 0.0
    ensures PositionsKept(s, es)
  {
    DefaultClientIsCovered(s, es);
    PositionLimitHolds(s, es);
  }
}
