/** The simulation session: synthetic fills, statistics and its own ledger. */
module Simulation {
  import opened Domain
  import opened Ledger

  datatype FillModel = InstantFill | WithSlippage | Probabilistic(fillRate: real)

  datatype SimulatedFill = SimulatedFill(
    contract: ContractKey,
    side: Side,
    fillPrice: real,
    size: real,
    fee: real,
    filled: bool)

  /** `roll` in [0, 1) is what the source derives from the clock. */
  function SimulateFill(model: FillModel, intent: OrderIntent, roll: real): SimulatedFill {
    match model
    case InstantFill =>
      SimulatedFill(intent.contract, intent.side, intent.targetPrice, intent.size, intent.costs.entryFeeUsdc, true)
    case WithSlippage =>
      var slippage := intent.costs.entrySlippage;
      SimulatedFill(intent.contract, intent.side,
                    if intent.side == Buy then intent.targetPrice + slippage else intent.targetPrice - slippage,
                    intent.size, intent.costs.entryFeeUsdc, true)
    case Probabilistic(fillRate) =>
      var filled := roll < fillRate;
      SimulatedFill(intent.contract, intent.side, intent.targetPrice,
                    if filled then intent.size else 0.0,
                    if filled then intent.costs.entryFeeUsdc else 0.0, filled)
  }

  /** Simulated slippage is never in the trader's favour, and costs its full amount. */
  lemma SlippageCosts(intent: OrderIntent, roll: real, exit: real)
    requires intent.size >= 0.0 && intent.costs.entrySlippage >= 0.0
    ensures var slipped, clean := SimulateFill(WithSlippage, intent, roll), SimulateFill(InstantFill, intent, roll);
            var e := (f: SimulatedFill) => NewEntry(1, f.contract, f.side, f.fillPrice, f.size);
            PnlAt(e(clean), exit) - PnlAt(e(slipped), exit) == intent.costs.entrySlippage * intent.size >= 0.0
  {
  }

  datatype Stats = Stats(
    signalsEvaluated: nat,
    signalsAccepted: nat,
    signalsRejected: nat,
    fillsSimulated: nat,
    fillsMissed: nat,
    totalPnl: real,
    totalFees: real,
    eventsProcessed: nat)

  datatype Session = Session(stats: Stats, books: Books)

  const NEW_SESSION := Session(Stats(0, 0, 0, 0, 0, 0.0, 0.0, 0), EMPTY_BOOKS)

  function AfterSignal(s: Session, model: FillModel, d: SignalDecision, roll: real): Session {
    var st := s.stats.(signalsEvaluated := s.stats.signalsEvaluated + 1);
    match d
    case Reject(_, _) => s.(stats := st.(signalsRejected := st.signalsRejected + 1))
    case Accept(intent) =>
      var st1 := st.(signalsAccepted := st.signalsAccepted + 1);
      var f := SimulateFill(model, intent, roll);
      if f.filled then
        Session(
          st1.(fillsSimulated := st1.fillsSimulated + 1, totalFees := st1.totalFees + f.fee),
          FeesAdded(EntryRecorded(s.books, f.contract, f.side, f.fillPrice, f.size), s.books.nextId, f.fee))
      else s.(stats := st1.(fillsMissed := st1.fillsMissed + 1))
  }

  function AfterClose(s: Session, id: nat, exitPrice: real, exitFee: real, now: int): Session {
    var (books', pnl) := ExitRecorded(s.books, id, exitPrice, exitFee, now);
    if pnl.None? then s
    else Session(s.stats.(totalPnl := s.stats.totalPnl + pnl.value, totalFees := s.stats.totalFees + exitFee), books')
  }

  class SimulationSession {
    const model: FillModel
    const ledger: Ledger
    var stats: Stats

    function View(): Session
      reads this, ledger
    {
      Session(stats, ledger.View())
    }

    constructor (model: FillModel)
      ensures View() == NEW_SESSION && this.model == model && fresh(ledger)
    {
      this.model := model;
      ledger := new Ledger();
      stats := Stats(0, 0, 0, 0, 0, 0.0, 0.0, 0);
    }

    method ProcessSignal(d: SignalDecision, roll: real)
      modifies this, ledger
      ensures View() == AfterSignal(old(View()), model, d, roll)
    {
      stats := stats.(signalsEvaluated := stats.signalsEvaluated + 1);
      match d {
        case Accept(intent) =>
          stats := stats.(signalsAccepted := stats.signalsAccepted + 1);
          var fill := SimulateFill(model, intent, roll);
          if fill.filled {
            stats := stats.(fillsSimulated := stats.fillsSimulated + 1);
            stats := stats.(totalFees := stats.totalFees + fill.fee);
            var entryId := ledger.RecordEntry(fill.contract, fill.side, fill.fillPrice, fill.size);
            ledger.AddFees(entryId, fill.fee);
          } else {
            stats := stats.(fillsMissed := stats.fillsMissed + 1);
          }
        case Reject(_, _) =>
          stats := stats.(signalsRejected := stats.signalsRejected + 1);
      }
    }

    method RecordEvent()
      modifies this
      ensures View() == old(View()).(stats := old(stats).(eventsProcessed := old(stats).eventsProcessed + 1))
    {
      stats := stats.(eventsProcessed := stats.eventsProcessed + 1);
    }

    method ClosePosition(id: nat, exitPrice: real, exitFee: real, now: int) returns (pnl: Option<real>)
      modifies this, ledger
      ensures View() == AfterClose(old(View()), id, exitPrice, exitFee, now)
      ensures pnl == ExitRecorded(old(ledger.View()), id, exitPrice, exitFee, now).1
    {
      pnl := ledger.RecordExit(id, exitPrice, exitFee, now);
      if pnl.Some? {
        stats := stats.(totalPnl := stats.totalPnl + pnl.value);
        stats := stats.(totalFees := stats.totalFees + exitFee);
      }
    }
  }

  // ----- What a signal books ------------------------------------------------------------

  /** Only the probabilistic model ever misses, when the roll is not below its rate. */
  predicate Hits(model: FillModel, roll: real) {
    model.Probabilistic? ==> roll < model.fillRate
  }

  /** An accepted signal that hits becomes the ledger's next entry: the intent's contract, side,
      size and entry fee, at the target price, moved against the trader by the entry slippage
      if the model has it. One that misses books nothing. */
  lemma SignalBooks(s: Session, model: FillModel, intent: OrderIntent, roll: real)
    requires Sound(s.books)
    ensures var s' := AfterSignal(s, model, Accept(intent), roll);
            var slip := if model.WithSlippage? then intent.costs.entrySlippage else 0.0;
            var price := if intent.side == Buy then intent.targetPrice + slip else intent.targetPrice - slip;
            var entry := NewEntry(s.books.nextId, intent.contract, intent.side, price, intent.size);
            if Hits(model, roll)
            then
              && s'.books.entries == s.books.entries + [entry.(feesPaid := intent.costs.entryFeeUsdc)]
              && s'.stats.totalFees == s.stats.totalFees + intent.costs.entryFeeUsdc
            else s'.books == s.books && s'.stats.totalFees == s.stats.totalFees
    ensures var f := SimulateFill(model, intent, roll);
            (f.filled <==> Hits(model, roll)) && (!f.filled ==> f.size == 0.0 && f.fee == 0.0)
  {
    var f := SimulateFill(model, intent, roll);
    EntryKeepsSound(s.books, f.contract, f.side, f.fillPrice, f.size);
  }

  /** How many of a run's accepted signals hit. */
  function HitCount(model: FillModel, es: seq<Event>): nat {
    if es == [] then 0
    else
      var e := es[|es| - 1];
      HitCount(model, es[..|es| - 1]) + if e.Signal? && e.decision.Accept? && Hits(model, e.roll) then 1 else 0
  }

  /** In every run the ledger holds one entry per hit, whatever is closed in between. */
  lemma {:induction false} EntriesAreHits(model: FillModel, es: seq<Event>)
    ensures |Run(model, es).books.entries| == HitCount(model, es)
  {
    hide Balanced;
    if es != [] {
      var before, e := es[..|es| - 1], es[|es| - 1];
      EntriesAreHits(model, before);
      RunsBalance(model, before);
      assert Sound(Run(model, before).books) by { BalancedIsSound(Run(model, before)); }
      if e.Signal? && e.decision.Accept? {
        hide AfterSignal;
        SignalBooks(Run(model, before), model, e.decision.intent, e.roll);
      }
    }
  }

  lemma BalancedIsSound(s: Session)
    requires Balanced(s)
    ensures Sound(s.books)
  {
  }

  // ----- Statistics against the ledger ---------------------------------------------------

  /** The statistics are the ledger's own totals. */
  ghost predicate Balanced(s: Session) {
    && Sound(s.books)
    && s.stats.totalFees == TotalFees(s.books.entries)
    && s.stats.fillsSimulated == |s.books.entries|
    && s.stats.signalsAccepted == s.stats.fillsSimulated + s.stats.fillsMissed
    && s.stats.signalsEvaluated == s.stats.signalsAccepted + s.stats.signalsRejected
  }

  predicate PnlAgrees(s: Session) {
    s.stats.totalPnl == TotalRealized(s.books.entries)
  }

  lemma SignalKeepsBalance(s: Session, model: FillModel, d: SignalDecision, roll: real)
    requires Balanced(s)
    ensures Balanced(AfterSignal(s, model, d, roll))
    ensures PnlAgrees(s) ==> PnlAgrees(AfterSignal(s, model, d, roll))
  {
    if d.Accept? {
      var f := SimulateFill(model, d.intent, roll);
      if f.filled {
        var b := EntryRecorded(s.books, f.contract, f.side, f.fillPrice, f.size);
        var e := NewEntry(s.books.nextId, f.contract, f.side, f.fillPrice, f.size);
        EntryKeepsSound(s.books, f.contract, f.side, f.fillPrice, f.size);
        TotalsAfterAppend(s.books.entries, e);
        OperationsKeepSound(b, s.books.nextId, 0.0, f.fee, 0, Unknown);
        TotalsAfterReplace(b.entries, |s.books.entries|, e.(feesPaid := e.feesPaid + f.fee));
      }
    }
  }

  /** Closing keeps the fee total for any id; it keeps the P&L total exactly when the
      entry is unknown, was never closed, or had realized nothing. */
  lemma CloseKeepsBalance(s: Session, id: nat, exitPrice: real, exitFee: real, now: int)
    requires Balanced(s)
    ensures Balanced(AfterClose(s, id, exitPrice, exitFee, now))
    ensures PnlAgrees(s) ==>
              (PnlAgrees(AfterClose(s, id, exitPrice, exitFee, now)) <==>
               Find(s.books.entries, id).Some? ==> RealizedOr0(s.books.entries[Find(s.books.entries, id).value]) == 0.0)
  {
    var i := Find(s.books.entries, id);
    if i.Some? {
      OperationsKeepSound(s.books, id, exitPrice, exitFee, now, Unknown);
      TotalsAfterReplace(s.books.entries, i.value, ClosedEntry(s.books.entries[i.value], exitPrice, exitFee, now));
    }
  }

  datatype Event =
    | Signal(decision: SignalDecision, roll: real)
    | Close(id: nat, exitPrice: real, exitFee: real, now: int)

  function Apply(s: Session, model: FillModel, e: Event): Session {
    match e
    case Signal(d, roll) => AfterSignal(s, model, d, roll)
    case Close(id, price, fee, now) => AfterClose(s, id, price, fee, now)
  }

  function Run(model: FillModel, es: seq<Event>): Session {
    if es == [] then NEW_SESSION else Apply(Run(model, es[..|es| - 1]), model, es[|es| - 1])
  }

  /** No id is closed twice. */
  predicate ClosedOnce(es: seq<Event>) {
    forall i, j :: 0 <= i < j < |es| && es[i].Close? && es[j].Close? ==> es[i].id != es[j].id
  }

  /** In every run fees and counts agree with the ledger. */
  lemma {:induction false} RunsBalance(model: FillModel, es: seq<Event>)
    ensures Balanced(Run(model, es))
  {
    hide Balanced;
    if es == [] {
      assert Balanced(NEW_SESSION) by { NewSessionBalances(); }
    } else {
      var s := Run(model, es[..|es| - 1]);
      RunsBalance(model, es[..|es| - 1]);
      match es[|es| - 1] {
        case Signal(d, roll) => SignalKeepsBalance(s, model, d, roll);
        case Close(id, price, fee, now) => CloseKeepsBalance(s, id, price, fee, now);
      }
    }
  }

  lemma NewSessionBalances()
    ensures Balanced(NEW_SESSION) && PnlAgrees(NEW_SESSION)
  {
  }

  ghost predicate Unrealized(s: Session, id: nat) {
    forall i :: 0 <= i < |s.books.entries| && s.books.entries[i].id == id ==> s.books.entries[i].realizedPnl == None
  }

  lemma SignalKeepsUnrealized(s: Session, model: FillModel, d: SignalDecision, roll: real, id: nat)
    requires Balanced(s) && Unrealized(s, id)
    ensures Unrealized(AfterSignal(s, model, d, roll), id)
  {
    SignalAddsUnrealized(s, model, d, roll);
  }

  lemma CloseKeepsUnrealized(s: Session, other: nat, exitPrice: real, exitFee: real, now: int, id: nat)
    requires Unrealized(s, id) && other != id
    ensures Unrealized(AfterClose(s, other, exitPrice, exitFee, now), id)
  {
    CloseTouchesOne(s, other, exitPrice, exitFee, now);
  }

  /** Entries never closed in a run have realized nothing. */
  lemma {:induction false} RealizedOnlyByClosing(model: FillModel, es: seq<Event>, id: nat)
    requires forall i :: 0 <= i < |es| && es[i].Close? ==> es[i].id != id
    ensures Unrealized(Run(model, es), id)
  {
    hide Balanced, Unrealized, AfterSignal, AfterClose;
    if es == [] {
      assert Unrealized(NEW_SESSION, id) by { NewSessionUnrealized(id); }
    } else {
      var before := es[..|es| - 1];
      RunsBalance(model, before);
      RealizedOnlyByClosing(model, before, id);
      match es[|es| - 1] {
        case Signal(d, roll) => SignalKeepsUnrealized(Run(model, before), model, d, roll, id);
        case Close(other, price, fee, now) => CloseKeepsUnrealized(Run(model, before), other, price, fee, now, id);
      }
    }
  }

  lemma NewSessionUnrealized(id: nat)
    ensures Unrealized(NEW_SESSION, id)
  {
  }

  lemma CloseTouchesOne(s: Session, id: nat, exitPrice: real, exitFee: real, now: int)
    ensures var es, es' := s.books.entries, AfterClose(s, id, exitPrice, exitFee, now).books.entries;
            && |es'| == |es|
            && (forall i :: 0 <= i < |es| ==> es'[i].id == es[i].id)
            && (forall i :: 0 <= i < |es| && es[i].id != id ==> es'[i] == es[i])
  {
  }

  lemma SignalAddsUnrealized(s: Session, model: FillModel, d: SignalDecision, roll: real)
    requires Balanced(s)
    ensures var es, es' := s.books.entries, AfterSignal(s, model, d, roll).books.entries;
            && |es| <= |es'| <= |es| + 1
            && (forall i :: 0 <= i < |es| ==> es'[i] == es[i])
            && (|es'| > |es| ==> es'[|es|].realizedPnl == None)
  {
    if d.Accept? {
      var f := SimulateFill(model, d.intent, roll);
      EntryKeepsSound(s.books, f.contract, f.side, f.fillPrice, f.size);
    }
  }

  /** When no id is closed twice, the session P&L is the ledger's realized total. */
  lemma {:induction false} RunsAgreeOnPnl(model: FillModel, es: seq<Event>)
    requires ClosedOnce(es)
    ensures PnlAgrees(Run(model, es))
  {
    hide Balanced;
    if es == [] {
      NewSessionBalances();
    } else {
      var before := es[..|es| - 1];
      var s := Run(model, before);
      RunsAgreeOnPnl(model, before);
      RunsBalance(model, before);
      match es[|es| - 1] {
        case Signal(d, roll) => SignalKeepsBalance(s, model, d, roll);
        case Close(id, price, fee, now) =>
          CloseKeepsBalance(s, id, price, fee, now);
          assert forall i :: 0 <= i < |before| && before[i].Close? ==> before[i] == es[i] && before[i].id != id;
          RealizedOnlyByClosing(model, before, id);
          var i := Find(s.books.entries, id);
          if i.Some? {
            assert s.books.entries[i.value] in s.books.entries;
          }
      }
    }
  }
}
