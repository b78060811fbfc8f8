/** Order submission: guards, bounded retry and the order's first state. */
module Execution {
  import opened Domain
  import opened Orders

  // ----- The exchange client, driven by an oracle --------------------------

  datatype ClientError = Auth | Submit | Cancel | Query | RateLimited | Network | Unknown

  predicate Retriable(e: ClientError) {
    e == RateLimited || e == Network
  }

  datatype Reply =
    | Ok(venueOrderId: VenueOrderId, status: OrderState)
    | Err(error: ClientError)

  datatype SubmitRequest = SubmitRequest(
    clientOrderId: ClientOrderId,
    contract: ContractKey,
    side: Side,
    price: real,
    size: real)

  /** `replies(k)` is what the venue answers to the k-th call ever made. */
  class ExchangeClient {
    const replies: nat -> Reply
    var calls: seq<SubmitRequest>

    constructor (replies: nat -> Reply)
      ensures this.replies == replies && calls == []
    {
      this.replies := replies;
      calls := [];
    }

    method SubmitOrder(req: SubmitRequest) returns (r: Reply)
      modifies this
      ensures r == replies(|old(calls)|)
      ensures calls == old(calls) + [req]
    {
      r := replies(|calls|);
      calls := calls + [req];
    }
  }

  // ----- Bounded retry -----------------------------------------------------

  /** A reply after which the loop tries again if attempts are left. */
  predicate TryAgain(r: Reply) {
    r.Err? && Retriable(r.error)
  }

  /** How many calls the retry loop makes when the venue's answers start at
      `replies(from)` and `left` calls are allowed. */
  function Attempts(replies: nat -> Reply, from: nat, left: nat): (n: nat)
    requires left >= 1
    ensures 1 <= n <= left
    ensures forall k: nat :: from <= k < from + n - 1 ==> TryAgain(replies(k))
    ensures n == left || !TryAgain(replies(from + n - 1))
    decreases left
  {
    if left == 1 || !TryAgain(replies(from)) then 1
    else 1 + Attempts(replies, from + 1, left - 1)
  }

  /** The attempt count is the only number with these properties: the loop stops
      at the first answer that is not a retriable error, or at the limit. */
  lemma {:induction false} AttemptsIsUnique(replies: nat -> Reply, from: nat, left: nat, n: nat)
    requires 1 <= n <= left
    requires forall k: nat :: from <= k < from + n - 1 ==> TryAgain(replies(k))
    requires n == left || !TryAgain(replies(from + n - 1))
    ensures n == Attempts(replies, from, left)
    decreases left
  {
    if n > 1 {
      assert TryAgain(replies(from));
      AttemptsIsUnique(replies, from + 1, left - 1, n - 1);
    }
  }

  function Repeat<T>(x: T, n: nat): (r: seq<T>)
    ensures |r| == n
    ensures forall i :: 0 <= i < n ==> r[i] == x
  {
    if n == 0 then [] else Repeat(x, n - 1) + [x]
  }

  /** The pauses before attempts 2 to n: the k-th failure waits k times the base. */
  function PauseMs(base: nat, n: nat): nat {
    if n <= 1 then 0 else PauseMs(base, n - 1) + base * (n - 1)
  }

  lemma PauseNext(base: nat, n: nat)
    ensures PauseMs(base, n + 1) == if n == 0 then 0 else PauseMs(base, n) + base * n
  {
  }

  lemma {:induction false} PauseIsTriangular(base: nat, n: nat)
    requires n >= 1
    ensures 2 * PauseMs(base, n) == base * n * (n - 1)
  {
    if n > 1 {
      PauseIsTriangular(base, n - 1);
      calc {
        2 * PauseMs(base, n);
        base * (n - 1) * (n - 2) + 2 * (base * (n - 1));
        base * (n - 1) * n;
      }
    }
  }

  // ----- Submission as a function of the tracker ---------------------------

  datatype SubmitError = DuplicateOrder | ConcurrentLimit | StaleSignal | ClientFailure(error: ClientError)

  datatype SubmitResult = Submitted(id: ClientOrderId) | Failed(error: SubmitError)

  /** The first guard that refuses the intent, if any. */
  function Refusal(o: Orders, cfg: ExecutionConfig, intent: OrderIntent, now: int): Option<SubmitError> {
    if HasPending(o, intent.contract) then Some(DuplicateOrder)
    else if ActiveCount(o) >= cfg.maxConcurrentOrders then Some(ConcurrentLimit)
    else if now - intent.signalTimestamp > cfg.staleSignalThreshold then Some(StaleSignal)
    else None
  }

  function NewRecord(intent: OrderIntent, id: ClientOrderId): OrderRecord {
    OrderRecord(id, None, intent.contract, intent.side, intent.targetPrice, intent.size, 0.0, None, Pending, 0)
  }

  function RequestFor(intent: OrderIntent, id: ClientOrderId): SubmitRequest {
    SubmitRequest(id, intent.contract, intent.side, intent.targetPrice, intent.size)
  }

  function Submission(o: Orders, cfg: ExecutionConfig, intent: OrderIntent, id: ClientOrderId, now: int, reply: Reply)
    : (Orders, SubmitResult)
  {
    var refusal := Refusal(o, cfg, intent, now);
    if refusal.Some? then (o, Failed(refusal.value))
    else
      var o1 := Registered(o, NewRecord(intent, id));
      match reply
      case Ok(vid, status) => (StateUpdated(o1, id, status, Some(vid)), Submitted(id))
      case Err(e) => (StateUpdated(o1, id, Uncertain, None), Failed(ClientFailure(e)))
  }

  /** While the venue has not answered, the order is on record with nothing filled, counts as
      active and blocks its contract. */
  lemma AwaitedOrderBlocks(o: Orders, intent: OrderIntent, id: ClientOrderId)
    requires id !in o.records
    ensures var o' := Registered(o, NewRecord(intent, id));
            && HasPending(o', intent.contract) && o'.slots[intent.contract] == id
            && ActiveCount(o') == ActiveCount(o) + 1
            && var rec := o'.records[id];
               && rec.state == Pending && rec.filledSize == 0.0 && rec.avgFillPrice == None
               && rec.venueOrderId == None && rec.retryCount == 0
  {
    ActiveCountAfterUpdate(o, Registered(o, NewRecord(intent, id)), id);
  }

  /** An order that cannot be confirmed is left Uncertain, never Rejected, and is
      not counted as active; a refused intent leaves no trace at all. */
  lemma FailedSubmission(o: Orders, cfg: ExecutionConfig, intent: OrderIntent, id: ClientOrderId, now: int,
          reply: Reply)
    requires id !in o.records
    requires Submission(o, cfg, intent, id, now, reply).1.Failed?
    ensures var (o', r) := Submission(o, cfg, intent, id, now, reply);
            if r.error.ClientFailure? then
              && reply == Err(r.error.error)
              && o'.records == o.records[id := NewRecord(intent, id).(state := Uncertain)]
              && ActiveCount(o') == ActiveCount(o)
              && !HasPending(o', intent.contract)
            else o' == o
  {
    var (o', r) := Submission(o, cfg, intent, id, now, reply);
    if r.error.ClientFailure? {
      ActiveCountAfterUpdate(o, o', id);
    }
  }

  // ----- What the venue is sent ---------------------------------------------

  /** The request asks for exactly what the intent wants, under the given order id. */
  predicate Asks(req: SubmitRequest, intent: OrderIntent, id: ClientOrderId) {
    && req.clientOrderId == id
    && req.contract == intent.contract
    && req.side == intent.side
    && req.price == intent.targetPrice
    && req.size == intent.size
  }

  /** Every call ever made names a known order and has its terms. */
  ghost predicate CallsMatch(calls: seq<SubmitRequest>, records: map<ClientOrderId, OrderRecord>) {
    forall call | call in calls ::
      && call.clientOrderId in records
      && var rec := records[call.clientOrderId];
        && rec.clientOrderId == call.clientOrderId
        && rec.contract == call.contract && rec.side == call.side
        && rec.price == call.price && rec.size == call.size
  }

  /** A submission that is not refused registers the intent's own terms, and whatever was
      asked of the venue under its id keeps matching the tracker. */
  lemma SubmissionKeepsCalls(o: Orders, cfg: ExecutionConfig, intent: OrderIntent, id: ClientOrderId, now: int,
          reply: Reply, calls: seq<SubmitRequest>, added: seq<SubmitRequest>)
    requires id !in o.records && CallsMatch(calls, o.records)
    requires forall call | call in added :: Asks(call, intent, id)
    requires Refusal(o, cfg, intent, now).Some? ==> added == []
    ensures var o' := Submission(o, cfg, intent, id, now, reply).0;
            CallsMatch(calls + added, o'.records)
  {
    hide Refusal;
    var o' := Submission(o, cfg, intent, id, now, reply).0;
    forall call | call in calls + added
      ensures call.clientOrderId in o'.records
      ensures var rec := o'.records[call.clientOrderId];
              && rec.clientOrderId == call.clientOrderId
              && rec.contract == call.contract && rec.side == call.side
              && rec.price == call.price && rec.size == call.size
    {
      if call in calls {
        assert call.clientOrderId in o.records;
      } else {
        assert Asks(call, intent, id);
      }
    }
  }

  // ----- The engine --------------------------------------------------------

  class ExecutionEngine {
    const client: ExchangeClient
    const tracker: OrderTracker
    const config: ExecutionConfig
    var sleptMs: nat
    /** Ids of the acknowledgements the engine has posted to the event bus. */
    var ackEvents: seq<(ClientOrderId, VenueOrderId)>

    constructor (client: ExchangeClient, tracker: OrderTracker, config: ExecutionConfig)
      ensures this.client == client && this.tracker == tracker && this.config == config
      ensures sleptMs == 0 && ackEvents == []
    {
      this.client, this.tracker, this.config := client, tracker, config;
      sleptMs, ackEvents := 0, [];
    }

    method SubmitWithRetry(req: SubmitRequest) returns (r: Reply)
      modifies this`sleptMs, client
      ensures var from := |old(client.calls)|;
              var n := Attempts(client.replies, from, config.maxRetryAttempts + 1);
              && client.calls == old(client.calls) + Repeat(req, n)
              && r == client.replies(from + n - 1)
              && sleptMs == old(sleptMs) + PauseMs(config.retryBackoffMs, n)
    {
      hide Attempts, Repeat, PauseMs;
      var attempts: nat := 0;
      var maxAttempts := config.maxRetryAttempts + 1;
      ghost var from := |client.calls|;
      assert Repeat(req, 0) == [];
      PauseNext(config.retryBackoffMs, 0);
      while true
        invariant attempts < maxAttempts
        invariant client.calls == old(client.calls) + Repeat(req, attempts)
        invariant forall k: nat :: from <= k < from + attempts ==> TryAgain(client.replies(k))
        invariant sleptMs == old(sleptMs) + PauseMs(config.retryBackoffMs, attempts + 1)
        decreases maxAttempts - attempts
      {
        attempts := attempts + 1;
        r := client.SubmitOrder(req);
        assert Repeat(req, attempts) == Repeat(req, attempts - 1) + [req];
        if r.Ok? || !(r.error == RateLimited || r.error == Network) || attempts >= maxAttempts {
          AttemptsIsUnique(client.replies, from, maxAttempts, attempts);
          return;
        }
        PauseNext(config.retryBackoffMs, attempts);
        sleptMs := sleptMs + config.retryBackoffMs * attempts;
      }
    }

    method SubmitIntent(intent: OrderIntent, freshId: ClientOrderId, now: int) returns (r: SubmitResult)
      requires freshId !in tracker.orders
      modifies this`sleptMs, this`ackEvents, client, tracker
      ensures var from := |old(client.calls)|;
              var n := Attempts(client.replies, from, config.maxRetryAttempts + 1);
              var reply := client.replies(from + n - 1);
              var refusal := Refusal(old(tracker.View()), config, intent, now);
              && (tracker.View(), r) == Submission(old(tracker.View()), config, intent, freshId, now, reply)
              && client.calls == old(client.calls) + (if refusal.Some? then [] else
                   Repeat(RequestFor(intent, freshId), n))
              && |client.calls| == |old(client.calls)| + (if refusal.Some? then 0 else n)
              && (forall k :: |old(client.calls)| <= k < |client.calls| ==> Asks(client.calls[k], intent, freshId))
              && ackEvents == old(ackEvents)
                 + (if r.Submitted? && reply.Ok? then [(freshId, reply.venueOrderId)] else [])
      ensures old(CallsMatch(client.calls, tracker.orders)) ==> CallsMatch(client.calls, tracker.orders)
    {
      hide Attempts, Repeat, PauseMs, HasPending, CallsMatch, Registered, StateUpdated;
      ghost var start, asked := tracker.View(), client.calls;
      if tracker.HasPendingOrder(intent.contract) {
        return Failed(DuplicateOrder);
      }
      if tracker.ActiveOrderCount() >= config.maxConcurrentOrders {
        return Failed(ConcurrentLimit);
      }
      if now - intent.signalTimestamp > config.staleSignalThreshold {
        return Failed(StaleSignal);
      }
      tracker.Register(NewRecord(intent, freshId));
      var reply := SubmitWithRetry(RequestFor(intent, freshId));
      match reply {
        case Ok(vid, status) =>
          tracker.UpdateState(freshId, status, Some(vid));
          ackEvents := ackEvents + [(freshId, vid)];
          r := Submitted(freshId);
        case Err(e) =>
          tracker.MarkUncertain(freshId);
          r := Failed(ClientFailure(e));
      }
      if old(CallsMatch(client.calls, tracker.orders)) {
        SubmissionKeepsCalls(start, config, intent, freshId, now, reply, asked, client.calls[|asked|..]);
        assert client.calls == asked + client.calls[|asked|..];
      }
    }
  }
}
