/** The net P&L of the evaluation report, against the gross P&L of the ledger's trades. */
module NetPnl {
  import opened Domain
  import opened Ledger
  import Simulation

  /** Realized P&L less fees, as the report computes it. */
  function Reported(es: seq<LedgerEntry>): real {
    TotalRealized(es) - TotalFees(es)
  }

  /** What the price move of a closed entry earned, before any fee. */
  function GrossOf(e: LedgerEntry): real {
    match e.exitPrice
    case Some(exit) => if e.side == Buy then (exit - e.entryPrice) * e.size else (e.entryPrice - exit) * e.size
    case None => 0.0
  }

  function TotalGross(es: seq<LedgerEntry>): real {
    if es == [] then 0.0 else TotalGross(es[..|es| - 1]) + GrossOf(es[|es| - 1])
  }

  function FeesOnClosed(es: seq<LedgerEntry>): real {
    if es == [] then 0.0
    else FeesOnClosed(es[..|es| - 1]) + if es[|es| - 1].exitPrice.Some? then es[|es| - 1].feesPaid else 0.0
  }

  /** The realized P&L of an entry is its gross P&L less the fees it shows. */
  predicate Costed(e: LedgerEntry) {
    e.realizedPnl == if e.exitPrice.Some? then Some(GrossOf(e) - e.feesPaid) else None
  }

  predicate AllCosted(es: seq<LedgerEntry>) {
    forall e :: e in es ==> Costed(e)
  }

  /** The realized P&L is net of fees already, so the report charges the fees of every
      closed entry twice; it is right exactly when those fees sum to zero. */
  lemma {:induction false} ClosedFeesAreChargedTwice(es: seq<LedgerEntry>)
    requires AllCosted(es)
    ensures Reported(es) == TotalGross(es) - TotalFees(es) - FeesOnClosed(es)
    ensures Reported(es) == TotalGross(es) - TotalFees(es) <==> FeesOnClosed(es) == 0.0
  {
    if es != [] {
      var before, e := es[..|es| - 1], es[|es| - 1];
      assert e.exitPrice.None? ==> GrossOf(e) == 0.0;
      hide GrossOf;
      assert es == before + [e];
      assert Costed(e);
      ClosedFeesAreChargedTwice(before);
    }
  }

  lemma ReplaceKeepsCosted(es: seq<LedgerEntry>, i: nat, e: LedgerEntry)
    requires AllCosted(es) && i < |es|
    ensures AllCosted(es[i := e]) <==> Costed(e)
  {
    assert es[i := e][i] == e;
  }

  /** Entries, exits and resolutions keep every entry costed. A later fee keeps it exactly
      when the entry is still without an exit, or the fee is zero. */
  lemma OperationsKeepCosted(b: Books, c: ContractKey, side: Side, price: real, size: real, id: nat, fees: real,
          now: int, outcome: ResolutionOutcome)
    requires AllCosted(b.entries)
    ensures AllCosted(EntryRecorded(b, c, side, price, size).entries)
    ensures AllCosted(ExitRecorded(b, id, price, fees, now).0.entries)
    ensures AllCosted(ResolutionRecorded(b, id, outcome, price, now).entries)
    ensures AllCosted(FeesAdded(b, id, fees).entries)
            <==> fees == 0.0 || Find(b.entries, id).None? || b.entries[Find(b.entries, id).value].exitPrice.None?
  {
    hide Find;
    var i := Find(b.entries, id);
    if i.Some? {
      var e := b.entries[i.value];
      assert Costed(e);
      ExitIsCosted(e, price, fees, now);
      ResolutionIsCosted(e, outcome, price, now);
      hide ClosedEntry, ResolvedEntry;
      ReplaceKeepsCosted(b.entries, i.value, ClosedEntry(e, price, fees, now));
      ReplaceKeepsCosted(b.entries, i.value, ResolvedEntry(e, outcome, price, now));
      ReplaceKeepsCosted(b.entries, i.value, e.(feesPaid := e.feesPaid + fees));
    }
  }

  lemma ExitIsCosted(e: LedgerEntry, price: real, fees: real, now: int)
    ensures Costed(ClosedEntry(e, price, fees, now))
  {
    var gross := if e.side == Buy then (price - e.entryPrice) * e.size else (e.entryPrice - price) * e.size;
    var paid := e.(exitPrice := Some(price), feesPaid := e.feesPaid + fees, closedAt := Some(now));
    assert PnlAt(paid, price) == gross - paid.feesPaid;
    assert GrossOf(ClosedEntry(e, price, fees, now)) == gross;
  }

  lemma ResolutionIsCosted(e: LedgerEntry, outcome: ResolutionOutcome, pnl: real, at: int)
    requires Costed(e)
    ensures Costed(ResolvedEntry(e, outcome, pnl, at))
  {
    assert GrossOf(ResolvedEntry(e, outcome, pnl, at)) == GrossOf(e);
  }

  // ----- The session whose ledger is reported ------------------------------------------------

  lemma SignalKeepsCosted(s: Simulation.Session, model: Simulation.FillModel, d: SignalDecision, roll: real)
    requires Simulation.Balanced(s) && AllCosted(s.books.entries)
    ensures AllCosted(Simulation.AfterSignal(s, model, d, roll).books.entries)
  {
    if d.Accept? {
      var f := Simulation.SimulateFill(model, d.intent, roll);
      var b := EntryRecorded(s.books, f.contract, f.side, f.fillPrice, f.size);
      EntryKeepsSound(s.books, f.contract, f.side, f.fillPrice, f.size);
      OperationsKeepCosted(s.books, f.contract, f.side, f.fillPrice, f.size, 0, 0.0, 0, Unknown);
      OperationsKeepCosted(b, f.contract, f.side, f.fillPrice, f.size, s.books.nextId, f.fee, 0, Unknown);
    }
  }

  lemma CloseKeepsCosted(s: Simulation.Session, id: nat, exitPrice: real, exitFee: real, now: int)
    requires AllCosted(s.books.entries)
    ensures AllCosted(Simulation.AfterClose(s, id, exitPrice, exitFee, now).books.entries)
  {
    OperationsKeepCosted(s.books, ContractKey("", ""), Buy, 0.0, 0.0, id, exitFee, now, Unknown);
    OperationsKeepCosted(s.books, ContractKey("", ""), Buy, exitPrice, 0.0, id, exitFee, now, Unknown);
  }

  lemma {:induction false} SessionsStayCosted(model: Simulation.FillModel, es: seq<Simulation.Event>)
    ensures AllCosted(Simulation.Run(model, es).books.entries)
  {
    hide AllCosted, Simulation.Balanced, Simulation.AfterSignal, Simulation.AfterClose;
    if es == [] {
      assert AllCosted([]) by {
        NothingIsCosted();
      }
    } else {
      var before := es[..|es| - 1];
      SessionsStayCosted(model, before);
      Simulation.RunsBalance(model, before);
      match es[|es| - 1] {
        case Signal(d, roll) => SignalKeepsCosted(Simulation.Run(model, before), model, d, roll);
        case Close(id, price, fee, now) => CloseKeepsCosted(Simulation.Run(model, before), id, price, fee, now);
      }
    }
  }

  lemma NothingIsCosted()
    ensures AllCosted([])
  {
  }

  /** So in every run of the session the report charges the fees of its closed entries twice,
      and is right exactly when those fees sum to zero. */
  lemma SessionsChargeClosedFeesTwice(model: Simulation.FillModel, es: seq<Simulation.Event>)
    ensures var entries := Simulation.Run(model, es).books.entries;
            && Reported(entries) == TotalGross(entries) - TotalFees(entries) - FeesOnClosed(entries)
            && (Reported(entries) == TotalGross(entries) - TotalFees(entries) <==> FeesOnClosed(entries) == 0.0)
  {
    hide AllCosted;
    SessionsStayCosted(model, es);
    ClosedFeesAreChargedTwice(Simulation.Run(model, es).books.entries);
  }
}
