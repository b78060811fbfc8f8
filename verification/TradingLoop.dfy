/** The bot's event loop as a whole: signals, the intent queue, order processing, venue
    events and contract locks. */
module TradingLoop {
  import opened Domain
  import opened Orders
  import opened Exposure
  import opened Execution
  import opened OrderDesk
  import opened ContractLock
  import FillState
  import LockSpacing
  import OrderRuns
  import Pipeline

  /** The configuration, and the registry's expiry of each contract. */
  datatype Settings = Settings(
    setup: Pipeline.Setup,
    execution: ExecutionConfig,
    locks: LockConfig,
    expiries: LockSpacing.Expiries)

  datatype Bot = Bot(desk: Desk, locks: Locks, queue: seq<OrderIntent>, clock: int)

  const IDLE_BOT := Bot(EMPTY_DESK, map[], [], 0)

  /** The four moments of one candidate: the registry lists it, the tradeable check and
      then the pipeline input read its lock, and, if it is accepted, the lock is taken. */
  datatype Moments = Moments(listedAt: int, seenAt: int, checkedAt: int, lockedAt: int)

  datatype Event =
    | Signal(candidate: Pipeline.PipelineInput, when: Moments, hasRoom: bool)
    | Process(freshId: ClientOrderId, at: int, reply: Reply, endedAt: int)
    | Venue(event: OrderRuns.Event)
    | Resolved(contracts: seq<ContractKey>, at: int)
    | CleanedUp(at: int)

  // ----- Signals ---------------------------------------------------------------------

  /** The pipeline input: market data from the candidate, the rest read off the bot. */
  function Observed(s: Settings, b: Bot, candidate: Pipeline.PipelineInput, at: int): Pipeline.PipelineInput {
    candidate.(
      lockState := StateAt(s.locks, b.locks, candidate.contract, at),
      currentPositions := PositionCount(b.desk.book),
      currentPositionNotional := NotionalOf(b.desk.book, candidate.contract))
  }

  function Decision(s: Settings, b: Bot, candidate: Pipeline.PipelineInput, at: int): SignalDecision {
    Pipeline.Evaluate(s.setup, Observed(s, b, candidate, at))
  }

  /** The candidate is listed, free, accepted, and the queue takes the intent. */
  predicate Taken(s: Settings, b: Bot, candidate: Pipeline.PipelineInput, when: Moments, hasRoom: bool) {
    && s.expiries(candidate.contract) > when.listedAt
    && !candidate.killSwitchActive
    && StateAt(s.locks, b.locks, candidate.contract, when.seenAt) == Unlocked
    && Decision(s, b, candidate, when.checkedAt).Accept?
    && hasRoom
  }

  function SignalStep(s: Settings, b: Bot, candidate: Pipeline.PipelineInput, when: Moments, hasRoom: bool): Bot {
    if !Taken(s, b, candidate, when, hasRoom) then b.(clock := when.checkedAt)
    else
      var intent := Decision(s, b, candidate, when.checkedAt).intent;
      b.(locks := WithLock(b.locks, intent.contract, Some(s.expiries(candidate.contract)), when.lockedAt),
         queue := b.queue + [intent],
         clock := when.lockedAt)
  }

  // ----- Intents and the rest -----------------------------------------------------------

  /** The head of the queue is submitted; a failure starts the contract's cooldown. */
  function ProcessStep(s: Settings, b: Bot, id: ClientOrderId, at: int, reply: Reply, endedAt: int): Bot {
    if b.queue == [] then b
    else
      var intent := b.queue[0];
      var (desk', r) := IntentStep(b.desk, s.execution, intent, id, at, reply);
      var locks' := if r.Failed? then WithCooldown(s.locks, b.locks, intent.contract, endedAt) else b.locks;
      Bot(desk', locks', b.queue[1..], endedAt)
  }

  /** A failed submission puts the contract's lock into cooldown from the moment the
      submission ended; a successful one, and every other contract's lock, stays as it was. */
  lemma FailureStartsCooldown(s: Settings, b: Bot, id: ClientOrderId, at: int, reply: Reply, endedAt: int,
          c: ContractKey, later: int)
    requires b.queue != []
    ensures var i, b' := b.queue[0], ProcessStep(s, b, id, at, reply, endedAt);
            var failed := Refusal(b.desk.orders, s.execution, i, at).Some? || reply.Err?;
            && b'.queue == b.queue[1..]
            && (!failed || c != i.contract ==>
                  StateAt(s.locks, b'.locks, c, later) == StateAt(s.locks, b.locks, c, later))
            && (failed && c == i.contract ==>
                  StateAt(s.locks, b'.locks, c, later) ==
                  if c in b.locks && later < endedAt + s.locks.cooldownDuration
                     && (b.locks[c].marketExpiry.Some? ==>
                           later < b.locks[c].marketExpiry.value + s.locks.postExpiryBuffer)
                  then Cooldown else Unlocked)
  {
    hide WithPending, WithoutPending, Refusal, Registered, StateUpdated;
  }

  function AllCooled(cfg: LockConfig, l: Locks, cs: seq<ContractKey>, at: int): Locks {
    if cs == [] then l else WithCooldown(cfg, AllCooled(cfg, l, cs[..|cs| - 1], at), cs[|cs| - 1], at)
  }

  function Step(s: Settings, b: Bot, e: Event): Bot {
    match e
    case Signal(candidate, when, hasRoom) => SignalStep(s, b, candidate, when, hasRoom)
    case Process(id, at, reply, endedAt) => ProcessStep(s, b, id, at, reply, endedAt)
    case Venue(event) => b.(desk := OrderRuns.Step(b.desk, s.execution, event))
    case Resolved(contracts, at) => b.(locks := AllCooled(s.locks, b.locks, contracts, at), clock := at)
    case CleanedUp(at) => b.(locks := Cleaned(s.locks, b.locks, at), clock := at)
  }

  // ----- The loop -----------------------------------------------------------------------

  class TradingLoop {
    const settings: Settings
    const engine: ExecutionEngine
    const processor: FillState.FillStateProcessor
    const locks: ContractLockService
    var queue: seq<OrderIntent>

    predicate Wired() {
      && processor.tracker == engine.tracker
      && engine.config == settings.execution
      && locks.config == settings.locks
    }

    function View(clock: int): Bot
      reads this, processor.tracker, processor.exposure, locks
    {
      Bot(processor.View(), locks.locks, queue, clock)
    }

    constructor (settings: Settings, engine: ExecutionEngine, processor: FillState.FillStateProcessor,
            locks: ContractLockService)
      requires processor.tracker == engine.tracker && engine.config == settings.execution
          && locks.config == settings.locks
      ensures Wired() && queue == []
      ensures this.settings == settings && this.engine == engine && this.processor == processor && this.locks == locks
    {
      this.settings, this.engine, this.processor, this.locks := settings, engine, processor, locks;
      queue := [];
    }

    /** One candidate contract of a tick. `hasRoom` says whether the bounded queue takes
        another intent. */
    method OnCandidate(candidate: Pipeline.PipelineInput, when: Moments, hasRoom: bool, clock: int)
      requires Wired()
      modifies this`queue, locks
      ensures locks.locks == SignalStep(settings, old(View(clock)), candidate, when, hasRoom).locks
      ensures queue == SignalStep(settings, old(View(clock)), candidate, when, hasRoom).queue
      ensures processor.View() == old(processor.View())
    {
      hide Pipeline.Evaluate;
      var expiry := settings.expiries(candidate.contract);
      if expiry <= when.listedAt || candidate.killSwitchActive {
        return;
      }
      if !locks.IsTradeable(candidate.contract, when.seenAt) {
        return;
      }
      var book := processor.exposure.exposures;
      var input := candidate.(
        lockState := locks.LockStateOf(candidate.contract, when.checkedAt),
        currentPositions := PositionCount(book),
        currentPositionNotional := processor.exposure.ContractNotional(candidate.contract));
      assert input == Observed(settings, View(clock), candidate, when.checkedAt);
      var decision := Pipeline.Evaluate(settings.setup, input);
      match decision {
        case Accept(intent) =>
          if hasRoom {
            queue := queue + [intent];
            locks.Lock(intent.contract, Some(expiry), when.lockedAt);
          }
        case Reject(_, _) =>
      }
    }

    /** Take one intent off the queue: reserve, submit, and undo on failure. */
    method OnIntent(freshId: ClientOrderId, at: int, endedAt: int)
      requires Wired()
      requires queue != [] && freshId !in engine.tracker.orders
      modifies this`queue, locks, engine`sleptMs, engine`ackEvents, engine.client, engine.tracker, processor.exposure
      ensures var from := |old(engine.client.calls)|;
              var n := Attempts(engine.client.replies, from, settings.execution.maxRetryAttempts + 1);
              View(endedAt) == ProcessStep(settings, old(View(endedAt)), freshId, at,
                  engine.client.replies(from + n - 1), endedAt)
    {
      hide Submission, WithPending, WithoutPending, WithCooldown, Attempts, Refusal;
      var intent := queue[0];
      queue := queue[1..];
      var pendingNotional := intent.size * intent.targetPrice;
      assert pendingNotional == intent.Notional();
      processor.exposure.AddPending(intent.contract, intent.side, pendingNotional);
      var r := engine.SubmitIntent(intent, freshId, at);
      if r.Failed? {
        processor.exposure.RemovePending(intent.contract, pendingNotional);
        locks.StartCooldown(intent.contract, endedAt);
      }
    }

    /** The lock side of a resolution: every listed contract of the market cools down. */
    method OnResolved(contracts: seq<ContractKey>, at: int)
      requires Wired()
      modifies locks
      ensures View(at) == Step(settings, old(View(at)), Resolved(contracts, at))
    {
      for i := 0 to |contracts|
        invariant locks.locks == AllCooled(settings.locks, old(locks.locks), contracts[..i], at)
      {
        assert contracts[..i + 1][..i] == contracts[..i];
        locks.StartCooldown(contracts[i], at);
      }
      assert contracts[..|contracts|] == contracts;
    }
  }
}
