/** The bot against its default simulation client, for every interleaving of submissions
    and of the acknowledgements the engine posts to itself. */
module SimulatedVenue {
  import opened Domain
  import opened Orders
  import opened Exposure
  import opened Execution
  import opened OrderDesk
  import opened OrderRuns
  import opened OrderWitnesses

  datatype Job = Job(intent: OrderIntent, id: ClientOrderId, now: int, vid: VenueOrderId)

  /** The desk, the acknowledgements the engine has posted and the loop has not yet taken,
      and the jobs that were submitted. */
  datatype Sim = Sim(desk: Desk, acks: seq<(ClientOrderId, VenueOrderId)>, placed: seq<Job>)

  datatype SimEvent = Place(job: Job) | Deliver

  const NEW_SIM := Sim(EMPTY_DESK, [], [])

  /** The default simulation client answers every submission with Filled, and the engine
      then posts its own acknowledgement, which the loop takes some time later. */
  function SimStep(s: Sim, cfg: ExecutionConfig, e: SimEvent): Sim {
    match e
    case Place(j) =>
      var (d', r) := IntentStep(s.desk, cfg, j.intent, j.id, j.now, Ok(j.vid, Filled));
      if r.Submitted? then Sim(d', s.acks + [(j.id, j.vid)], s.placed + [j]) else s.(desk := d')
    case Deliver =>
      if s.acks == [] then s
      else Sim(AckStep(s.desk, s.acks[0].0, s.acks[0].1), s.acks[1..], s.placed)
  }

  function SimRun(s: Sim, cfg: ExecutionConfig, es: seq<SimEvent>): Sim {
    if es == [] then s else SimStep(SimRun(s, cfg, es[..|es| - 1]), cfg, es[|es| - 1])
  }

  /** Every job has a positive size and price and a fresh order id. */
  predicate FreshJobs(s: Sim, cfg: ExecutionConfig, es: seq<SimEvent>) {
    es == [] ||
    var before, e := es[..|es| - 1], es[|es| - 1];
    && FreshJobs(s, cfg, before)
    && (e.Place? ==>
          && e.job.intent.size > 0.0 && e.job.intent.targetPrice > 0.0
          && e.job.id !in SimRun(s, cfg, before).desk.orders.records)
  }

  /** How many of the engine's own acknowledgements the loop has taken. */
  function Delivered(s: Sim): int {
    |s.placed| - |s.acks|
  }

  function ReservedBy(jobs: seq<Job>, c: ContractKey): real {
    if jobs == [] then 0.0
    else
      var j := jobs[|jobs| - 1];
      ReservedBy(jobs[..|jobs| - 1], c) + if j.intent.contract == c then j.intent.Notional() else 0.0
  }

  function JobIds(jobs: seq<Job>): set<ClientOrderId> {
    if jobs == [] then {} else JobIds(jobs[..|jobs| - 1]) + {jobs[|jobs| - 1].id}
  }

  lemma {:induction false} NotAmong(jobs: seq<Job>, id: ClientOrderId)
    requires forall k :: 0 <= k < |jobs| ==> jobs[k].id != id
    ensures id !in JobIds(jobs)
  {
    if jobs != [] {
      NotAmong(jobs[..|jobs| - 1], id);
    }
  }

  /** The records are those of the submitted jobs: Acked if the acknowledgement was taken
      and Filled until then. */
  ghost predicate OrdersMatch(s: Sim) {
    && s.desk.orders.records.Keys == JobIds(s.placed)
    && (forall k: nat :: k < |s.placed| ==> InState(s, k))
    && (forall i, k :: 0 <= i < k < |s.placed| ==> s.placed[i].id != s.placed[k].id)
  }

  predicate InState(s: Sim, k: nat)
    requires k < |s.placed|
  {
    && s.placed[k].id in s.desk.orders.records
    && s.desk.orders.records[s.placed[k].id].state == if k < Delivered(s) then Acked else Filled
  }

  ghost predicate AcksMatch(s: Sim) {
    && |s.acks| <= |s.placed|
    && (forall k :: 0 <= k < |s.acks| ==> s.acks[k].0 == s.placed[Delivered(s) + k].id)
  }

  /** No slot is held, and exactly the acknowledged orders are active. */
  ghost predicate PiledUp(s: Sim) {
    && s.desk.orders.slots == map[]
    && AcksMatch(s)
    && OrdersMatch(s)
    && ActiveCount(s.desk.orders) == Delivered(s)
  }

  lemma PlaceStep(s: Sim, cfg: ExecutionConfig, j: Job)
    requires PiledUp(s) && j.id !in s.desk.orders.records
    ensures var s' := SimStep(s, cfg, Place(j));
            if Refusal(s.desk.orders, cfg, j.intent, j.now).Some? then
              s'.desk.orders == s.desk.orders && s'.acks == s.acks && s'.placed == s.placed
            else
              && s'.acks == s.acks + [(j.id, j.vid)] && s'.placed == s.placed + [j]
              && s'.desk.orders.slots == map[]
              && s'.desk.orders.records.Keys == s.desk.orders.records.Keys + {j.id}
              && (forall id :: id in s.desk.orders.records ==> s'.desk.orders.records[id] == s.desk.orders.records[id])
              && s'.desk.orders.records[j.id].state == Filled
              && ActiveCount(s'.desk.orders) == ActiveCount(s.desk.orders)
  {
    hide Worth, WithPending, WithoutPending, PiledUp, ActiveCount;
    assert s.desk.orders.slots == map[] by {
      SlotsAreFree(s);
    }
    if Refusal(s.desk.orders, cfg, j.intent, j.now).None? {
      ActiveCountAfterUpdate(s.desk.orders, SimStep(s, cfg, Place(j)).desk.orders, j.id);
    }
  }

  lemma SlotsAreFree(s: Sim)
    requires PiledUp(s)
    ensures s.desk.orders.slots == map[]
  {
  }

  lemma PlacePilesUp(s: Sim, cfg: ExecutionConfig, j: Job)
    requires PiledUp(s) && j.id !in s.desk.orders.records
    ensures PiledUp(SimStep(s, cfg, Place(j)))
  {
    hide SimStep, Refusal, ActiveCount, OrdersMatch;
    PlaceStep(s, cfg, j);
    var s' := SimStep(s, cfg, Place(j));
    if s'.placed == s.placed {
      SameOrdersMatch(s, s');
    } else {
      NewOrderMatches(s, s', j);
    }
  }

  lemma SameOrdersMatch(s: Sim, s': Sim)
    requires OrdersMatch(s) && s'.desk.orders == s.desk.orders && s'.placed == s.placed && s'.acks == s.acks
    ensures OrdersMatch(s')
  {
    forall k: nat | k < |s'.placed|
      ensures InState(s', k)
    {
      assert InState(s, k);
    }
  }

  lemma OldIdsDiffer(s: Sim, i: nat, id: ClientOrderId)
    requires i < |s.placed| && InState(s, i) && id !in s.desk.orders.records
    ensures s.placed[i].id != id
  {
  }

  lemma NewOrderMatches(s: Sim, s': Sim, j: Job)
    requires OrdersMatch(s) && j.id !in s.desk.orders.records && |s.acks| <= |s.placed|
    requires s'.placed == s.placed + [j] && |s'.acks| == |s.acks| + 1
    requires s'.desk.orders.records.Keys == s.desk.orders.records.Keys + {j.id}
    requires forall id :: id in s.desk.orders.records ==> s'.desk.orders.records[id] == s.desk.orders.records[id]
    requires s'.desk.orders.records[j.id].state == Filled
    ensures OrdersMatch(s')
  {
    assert s'.placed[..|s.placed|] == s.placed;
    forall k: nat | k < |s'.placed|
      ensures InState(s', k)
    {
      if k < |s.placed| {
        assert InState(s, k) && s'.placed[k] == s.placed[k];
      } else {
        assert s'.placed[k] == j;
      }
    }
    hide InState;
    forall i: nat, k: nat | i < k < |s'.placed|
      ensures s'.placed[i].id != s'.placed[k].id
    {
      OldIdsDiffer(s, i, j.id);
      assert s'.placed[i] == s.placed[i];
    }
  }

  lemma DeliverPilesUp(s: Sim, cfg: ExecutionConfig)
    requires PiledUp(s)
    ensures PiledUp(SimStep(s, cfg, Deliver))
  {
    if s.acks != [] {
      hide ActiveCount, OrdersMatch;
      var s', n := SimStep(s, cfg, Deliver), Delivered(s);
      assert s.acks[0].0 == s.placed[n].id;
      DeliveredOrderMatches(s, s', n);
      assert forall k :: 0 <= k < |s'.acks| ==> s'.acks[k] == s.acks[k + 1];
    }
  }

  lemma DeliveredOrderMatches(s: Sim, s': Sim, n: nat)
    requires OrdersMatch(s) && 0 <= Delivered(s) == n < |s.placed|
    requires s'.placed == s.placed && |s'.acks| == |s.acks| - 1 && s.acks != []
    requires s'.desk == AckStep(s.desk, s.placed[n].id, s.acks[0].1)
    ensures OrdersMatch(s') && ActiveCount(s'.desk.orders) == ActiveCount(s.desk.orders) + 1
  {
    hide ActiveCount;
    assert InState(s, n);
    ActiveCountAfterUpdate(s.desk.orders, s'.desk.orders, s.placed[n].id);
    forall k | 0 <= k < |s'.placed|
      ensures InState(s', k)
    {
      assert InState(s, k);
      assert k < n ==> s.placed[k].id != s.placed[n].id;
      assert k > n ==> s.placed[n].id != s.placed[k].id;
    }
  }

  /** Against that client, for every interleaving of submissions and acknowledgements, no
      contract is ever protected by a slot, and the active orders are exactly those whose
      acknowledgement was taken: once all are, every submitted order stays active. */
  lemma {:induction false} SimulatedOrdersPileUp(cfg: ExecutionConfig, es: seq<SimEvent>)
    requires FreshJobs(NEW_SIM, cfg, es)
    ensures PiledUp(SimRun(NEW_SIM, cfg, es))
  {
    hide PiledUp, SimStep;
    if es == [] {
      NothingPiledUp();
    } else {
      SimulatedOrdersPileUp(cfg, es[..|es| - 1]);
      match es[|es| - 1] {
        case Place(j) => PlacePilesUp(SimRun(NEW_SIM, cfg, es[..|es| - 1]), cfg, j);
        case Deliver => DeliverPilesUp(SimRun(NEW_SIM, cfg, es[..|es| - 1]), cfg);
      }
    }
  }

  lemma NothingPiledUp()
    ensures PiledUp(NEW_SIM)
  {
    assert ActiveIds(EMPTY_ORDERS) == {};
  }

  /** Everything the submitted jobs reserved is still pending. */
  ghost predicate AllReserved(s: Sim) {
    forall c :: PendingOf(s.desk.book, c) == ReservedBy(s.placed, c) >= 0.0
  }

  lemma ReservedStep(s: Sim, cfg: ExecutionConfig, e: SimEvent)
    requires AllReserved(s)
    requires e.Place? ==> e.job.intent.Notional() >= 0.0
    ensures AllReserved(SimStep(s, cfg, e))
  {
    hide Worth, Refusal, PendingOf, FilledOf;
    if e.Place? {
      var j := e.job;
      assert (s.placed + [j])[..|s.placed|] == s.placed;
      assert PendingOf(s.desk.book, j.intent.contract) == ReservedBy(s.placed, j.intent.contract);
      IntentAmounts(s.desk, cfg, j.intent, j.id, j.now, Ok(j.vid, Filled));
      hide IntentStep;
    }
    forall c
      ensures PendingOf(SimStep(s, cfg, e).desk.book, c) == ReservedBy(SimStep(s, cfg, e).placed, c) >= 0.0
    {
      assert PendingOf(s.desk.book, c) == ReservedBy(s.placed, c);
    }
  }

  /** And nothing that was reserved is ever released. */
  lemma {:induction false} SimulatedExposureStays(cfg: ExecutionConfig, es: seq<SimEvent>)
    requires FreshJobs(NEW_SIM, cfg, es)
    ensures AllReserved(SimRun(NEW_SIM, cfg, es))
  {
    if es != [] {
      var e := es[|es| - 1];
      SimulatedExposureStays(cfg, es[..|es| - 1]);
      if e.Place? {
        WorthSign(e.job.intent.size, e.job.intent.targetPrice);
      }
      hide SimStep, Worth, AllReserved;
      ReservedStep(SimRun(NEW_SIM, cfg, es[..|es| - 1]), cfg, e);
    }
  }

  /** So once `max_concurrent_orders` acknowledgements have been taken, no intent is ever
      submitted again, whatever happens. */
  lemma {:induction false} SimulationJams(s: Sim, cfg: ExecutionConfig, es: seq<SimEvent>)
    requires PiledUp(s) && Delivered(s) >= cfg.maxConcurrentOrders
    requires FreshJobs(s, cfg, es)
    ensures SimRun(s, cfg, es).placed == s.placed
    ensures PiledUp(SimRun(s, cfg, es)) && Delivered(SimRun(s, cfg, es)) >= cfg.maxConcurrentOrders
  {
    if es != [] {
      hide SimStep;
      var s1, e := SimRun(s, cfg, es[..|es| - 1]), es[|es| - 1];
      SimulationJams(s, cfg, es[..|es| - 1]);
      match e {
        case Place(j) =>
          JammedRefuses(s1, cfg, j.intent, j.now);
          hide PiledUp, Refusal;
          PlacePilesUp(s1, cfg, j);
          PlaceStep(s1, cfg, j);
        case Deliver =>
          hide PiledUp;
          DeliverPilesUp(s1, cfg);
          DeliverShape(s1, cfg);
      }
    }
  }

  lemma JammedRefuses(s: Sim, cfg: ExecutionConfig, intent: OrderIntent, now: int)
    requires PiledUp(s) && Delivered(s) >= cfg.maxConcurrentOrders
    ensures Refusal(s.desk.orders, cfg, intent, now) == Some(ConcurrentLimit)
  {
    hide ActiveCount;
  }

  lemma DeliverShape(s: Sim, cfg: ExecutionConfig)
    ensures var s' := SimStep(s, cfg, Deliver);
            s'.placed == s.placed && s'.acks == if s.acks == [] then [] else s.acks[1..]
  {
  }

  /** The limit itself does not hold: any number of jobs taken before the first
      acknowledgement is submitted, and all of them are active in the end. */
  lemma BurstOvershootsTheLimit(cfg: ExecutionConfig, jobs: seq<Job>)
    requires cfg.maxConcurrentOrders >= 1
    requires forall i :: 0 <= i < |jobs| ==> Tradeable(cfg, jobs[i].intent, jobs[i].now)
    requires forall i, k :: 0 <= i < k < |jobs| ==> jobs[i].id != jobs[k].id
    ensures var es := Submissions(jobs) + Repeat(Deliver, |jobs|);
            FreshJobs(NEW_SIM, cfg, es) && ActiveCount(SimRun(NEW_SIM, cfg, es).desk.orders) == |jobs|
  {
    hide PiledUp, Tradeable, ActiveCount;
    BurstIsSubmitted(cfg, jobs);
    AllDelivered(cfg, Submissions(jobs), |jobs|);
    var es := Submissions(jobs) + Repeat(Deliver, |jobs|);
    SimulatedOrdersPileUp(cfg, es);
    ActiveAreDelivered(SimRun(NEW_SIM, cfg, es));
  }

  lemma ActiveAreDelivered(s: Sim)
    requires PiledUp(s)
    ensures ActiveCount(s.desk.orders) == Delivered(s)
  {
  }

  function Submissions(jobs: seq<Job>): (es: seq<SimEvent>)
    ensures |es| == |jobs|
  {
    if jobs == [] then [] else Submissions(jobs[..|jobs| - 1]) + [Place(jobs[|jobs| - 1])]
  }

  lemma {:induction false} BurstIsSubmitted(cfg: ExecutionConfig, jobs: seq<Job>)
    requires cfg.maxConcurrentOrders >= 1
    requires forall i :: 0 <= i < |jobs| ==> Tradeable(cfg, jobs[i].intent, jobs[i].now)
    requires forall i, k :: 0 <= i < k < |jobs| ==> jobs[i].id != jobs[k].id
    ensures FreshJobs(NEW_SIM, cfg, Submissions(jobs))
    ensures var s := SimRun(NEW_SIM, cfg, Submissions(jobs)); s.placed == jobs && |s.acks| == |jobs|
  {
    hide SimStep, Refusal, PiledUp, Tradeable;
    if jobs != [] {
      var n := |jobs| - 1;
      var before, j := jobs[..n], jobs[n];
      BurstIsSubmitted(cfg, before);
      var s := SimRun(NEW_SIM, cfg, Submissions(before));
      SimulatedOrdersPileUp(cfg, Submissions(before));
      assert Submissions(jobs)[..n] == Submissions(before) && Submissions(jobs)[n] == Place(j);
      FirstAckIsOpen(s, cfg, j);
      PlaceStep(s, cfg, j);
      PositiveJob(cfg, j);
      assert before + [j] == jobs;
    }
  }

  lemma PositiveJob(cfg: ExecutionConfig, j: Job)
    requires Tradeable(cfg, j.intent, j.now)
    ensures j.intent.size > 0.0 && j.intent.targetPrice > 0.0
  {
  }

  lemma FirstAckIsOpen(s: Sim, cfg: ExecutionConfig, j: Job)
    requires PiledUp(s) && |s.acks| == |s.placed| && cfg.maxConcurrentOrders >= 1
    requires Tradeable(cfg, j.intent, j.now)
    requires forall k :: 0 <= k < |s.placed| ==> s.placed[k].id != j.id
    ensures j.id !in s.desk.orders.records && Refusal(s.desk.orders, cfg, j.intent, j.now).None?
  {
    hide ActiveCount, InState;
    NotAmong(s.placed, j.id);
  }

  lemma {:induction false} AllDelivered(cfg: ExecutionConfig, es: seq<SimEvent>, n: nat)
    requires FreshJobs(NEW_SIM, cfg, es) && n <= |SimRun(NEW_SIM, cfg, es).acks|
    ensures var fs := es + Repeat(Deliver, n);
            var s, s' := SimRun(NEW_SIM, cfg, es), SimRun(NEW_SIM, cfg, fs);
            FreshJobs(NEW_SIM, cfg, fs) && s'.placed == s.placed && |s'.acks| == |s.acks| - n
  {
    hide SimStep;
    var fs := es + Repeat(Deliver, n);
    if n == 0 {
      assert fs == es;
    } else {
      AllDelivered(cfg, es, n - 1);
      assert fs[..|fs| - 1] == es + Repeat(Deliver, n - 1) && fs[|fs| - 1] == Deliver;
      DeliverShape(SimRun(NEW_SIM, cfg, es + Repeat(Deliver, n - 1)), cfg);
    }
  }
}
