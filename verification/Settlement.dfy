/** The resolution branch of the event loop: settle a market's open entries into the
    ledger, the drawdown tracker and the equity figure. */
module Settlement {
  import opened Domain
  import opened Ledger
  import opened Resolution
  import opened Drawdown
  import opened KillSwitch
  import opened Evaluation

  predicate Due(e: LedgerEntry, market: string) {
    e.IsOpen() && e.contract.marketId == market
  }

  function OutcomeOf(e: LedgerEntry, data: ResolutionData): VerificationResult {
    Verify(InputFrom(e), data)
  }

  /** The verified P&Ls of the due entries, in ledger order. */
  function DuePnls(es: seq<LedgerEntry>, market: string, data: ResolutionData): seq<real> {
    if es == [] then []
    else
      var e := es[|es| - 1];
      DuePnls(es[..|es| - 1], market, data) + if Due(e, market) then [OutcomeOf(e, data).realizedPnl] else []
  }

  function SettledEntry(e: LedgerEntry, market: string, data: ResolutionData, now: int): LedgerEntry {
    if Due(e, market)
    then ResolvedEntry(e, OutcomeOf(e, data).outcome, OutcomeOf(e, data).realizedPnl, now)
    else e
  }

  function SettledEntries(es: seq<LedgerEntry>, market: string, data: ResolutionData, now: int): (r: seq<LedgerEntry>)
    ensures |r| == |es|
    ensures forall i :: 0 <= i < |es| ==> r[i] == SettledEntry(es[i], market, data, now)
  {
    if es == [] then []
    else SettledEntries(es[..|es| - 1], market, data, now) + [SettledEntry(es[|es| - 1], market, data, now)]
  }

  function AfterTrades(s: DrawdownState, ps: seq<real>): DrawdownState {
    if ps == [] then s else AfterTrade(AfterTrades(s, ps[..|ps| - 1]), ps[|ps| - 1], None)
  }

  /** The kill switch after these trades, one activation for each breach on the way. */
  function SwitchAfterTrades(k: Switch, s: DrawdownState, config: RiskConfig, ps: seq<real>, now: int): Switch {
    if ps == [] then k
    else Activated(SwitchAfterTrades(k, s, config, ps[..|ps| - 1], now), Breaches(AfterTrades(s, ps), config), now)
  }

  class Settler {
    const ledger: Ledger
    const drawdown: DrawdownTracker
    var equity: real

    constructor (ledger: Ledger, drawdown: DrawdownTracker, equity: real)
      ensures this.ledger == ledger && this.drawdown == drawdown && this.equity == equity
    {
      this.ledger, this.drawdown, this.equity := ledger, drawdown, equity;
    }

    /** One due entry: mark it verified, record the trade, move the equity. */
    method Settle(id: nat, result: VerificationResult, now: int)
      modifies this, ledger, drawdown, drawdown.killSwitch
      ensures ledger.View() == ResolutionRecorded(old(ledger.View()), id, result.outcome, result.realizedPnl, now)
      ensures drawdown.state == AfterTrade(old(drawdown.state), result.realizedPnl, None)
      ensures drawdown.killSwitch.View() ==
              Activated(old(drawdown.killSwitch.View()), Breaches(drawdown.state, drawdown.config), now)
      ensures equity == old(equity) + result.realizedPnl
    {
      hide *;
      ledger.RecordResolution(id, result.outcome, result.realizedPnl, now);
      drawdown.RecordTrade(result.realizedPnl, None, now);
      equity := equity + result.realizedPnl;
    }

    /** `fetched` is the resolution fetcher's answer, None when it failed. */
    method OnResolution(market: string, fetched: Option<ResolutionData>, now: int)
      requires Sound(ledger.View())
      modifies this, ledger, drawdown, drawdown.killSwitch
      ensures fetched.None? ==>
                && ledger.View() == old(ledger.View()) && drawdown.state == old(drawdown.state) && equity == old(equity)
                && drawdown.killSwitch.View() == old(drawdown.killSwitch.View())
      ensures fetched.Some? ==>
                var ps := DuePnls(old(ledger.entries), market, fetched.value);
                && ledger.View() ==
                   old(ledger.View()).(entries := SettledEntries(old(ledger.entries), market, fetched.value, now))
                && drawdown.state == AfterTrades(old(drawdown.state), ps)
                && drawdown.killSwitch.View() ==
                   SwitchAfterTrades(old(drawdown.killSwitch.View()), old(drawdown.state), drawdown.config, ps, now)
                && equity == old(equity) + Sum(ps)
      ensures fetched.Some? && fetched.value.winningToken.Some? ==>
                equity == old(equity) + SharesOf(old(ledger.entries), market, fetched.value.winningToken.value)
                          - SpentOn(old(ledger.entries), market)
    {
      if fetched.None? {
        return;
      }
      hide SharesOf, SpentOn;
      SettlementPaysWinningShares(ledger.entries, market, fetched.value);
      hide Verify, InputFrom, ResolvedEntry, ResolutionRecorded, SettledEntries, Sound, Find;
      hide AfterTrade, DuePnls, Sum, AfterTrades, SwitchAfterTrades, Breaches, Activated;
      var data := fetched.value;
      var before := ledger.entries;
      ghost var start := ledger.View();
      NothingSettledYet(start, market, data, now);
      ghost var s, k, config := drawdown.state, drawdown.killSwitch.View(), drawdown.config;
      NothingDueYet(s, k, config, market, data, now);
      for i := 0 to |before|
        invariant ledger.View() == SettledUpTo(start, i, market, data, now)
        invariant drawdown.state == AfterTrades(s, DuePnls(before[..i], market, data))
        invariant drawdown.killSwitch.View() == SwitchAfterTrades(k, s, config, DuePnls(before[..i], market, data), now)
        invariant equity == old(equity) + Sum(DuePnls(before[..i], market, data))
      {
        SettleNext(start, i, market, data, now);
        DueNext(s, k, config, before, i, market, data, now);
        if before[i].IsOpen() && before[i].contract.marketId == market {
          Settle(before[i].id, Verify(InputFrom(before[i]), data), now);
        }
      }
      assert before[..|before|] == before;
      AllSettled(start, market, data, now);
    }
  }

  /** The books once the first k entries have been gone through. */
  function SettledUpTo(b: Books, k: nat, market: string, data: ResolutionData, now: int): Books
    requires k <= |b.entries|
  {
    b.(entries := SettledEntries(b.entries[..k], market, data, now) + b.entries[k..])
  }

  lemma NothingSettledYet(b: Books, market: string, data: ResolutionData, now: int)
    ensures SettledUpTo(b, 0, market, data, now) == b
  {
    assert b.entries[..0] == [];
  }

  lemma NothingDueYet(s: DrawdownState, k: Switch, config: RiskConfig, market: string, data: ResolutionData, now: int)
    ensures forall es: seq<LedgerEntry> :: DuePnls(es[..0], market, data) == []
    ensures Sum([]) == 0.0 && AfterTrades(s, []) == s && SwitchAfterTrades(k, s, config, [], now) == k
  {
  }

  lemma AllSettled(b: Books, market: string, data: ResolutionData, now: int)
    ensures SettledUpTo(b, |b.entries|, market, data, now)
        == b.(entries := SettledEntries(b.entries, market, data, now))
  {
    assert b.entries[..|b.entries|] == b.entries;
  }

  /** Recording the resolution of the k-th entry by its id settles exactly that entry. */
  lemma SettleNext(b: Books, k: nat, market: string, data: ResolutionData, now: int)
    requires Sound(b) && k < |b.entries|
    ensures var e := b.entries[k];
            var was := SettledUpTo(b, k, market, data, now);
            SettledUpTo(b, k + 1, market, data, now)
            == if Due(e, market)
               then ResolutionRecorded(was, e.id, OutcomeOf(e, data).outcome, OutcomeOf(e, data).realizedPnl, now)
               else was
  {
    hide Verify, InputFrom, Find;
    var e := b.entries[k];
    var was := SettledUpTo(b, k, market, data, now).entries;
    assert b.entries[..k + 1][..k] == b.entries[..k];
    assert SettledUpTo(b, k + 1, market, data, now).entries == was[k := SettledEntry(e, market, data, now)];
    FindById(was, e.id);
  }

  lemma DueNext(s: DrawdownState, k: Switch, config: RiskConfig, es: seq<LedgerEntry>, i: nat,
          market: string, data: ResolutionData, now: int)
    requires i < |es|
    ensures var ps := DuePnls(es[..i], market, data);
            var qs := DuePnls(es[..i + 1], market, data);
            var pnl := OutcomeOf(es[i], data).realizedPnl;
            if Due(es[i], market)
            then
              && AfterTrades(s, qs) == AfterTrade(AfterTrades(s, ps), pnl, None) && Sum(qs) == Sum(ps) + pnl
              && SwitchAfterTrades(k, s, config, qs, now) ==
                 Activated(SwitchAfterTrades(k, s, config, ps, now), Breaches(AfterTrades(s, qs), config), now)
            else qs == ps
  {
    hide Verify, InputFrom, AfterTrade, Breaches, Activated;
    assert es[..i + 1][..i] == es[..i];
    var ps := DuePnls(es[..i], market, data);
    assert (ps + [OutcomeOf(es[i], data).realizedPnl])[..|ps|] == ps;
  }

  // ----- What a settlement pays ----------------------------------------------------------

  /** Shares held, counting sold ones as negative. */
  function SignedSize(e: LedgerEntry): real {
    if e.side == Buy then e.size else -e.size
  }

  /** Shares of one token in the market's open entries. */
  function SharesOf(es: seq<LedgerEntry>, market: string, token: TokenId): real {
    if es == [] then 0.0
    else
      var e := es[|es| - 1];
      SharesOf(es[..|es| - 1], market, token) +
      if e.closedAt.None? && e.contract == ContractKey(market, token) then SignedSize(e) else 0.0
  }

  /** Shares of any token in the market's open entries. */
  function SharesIn(es: seq<LedgerEntry>, market: string): real {
    if es == [] then 0.0
    else
      var e := es[|es| - 1];
      SharesIn(es[..|es| - 1], market) +
      if e.closedAt.None? && e.contract.marketId == market then SignedSize(e) else 0.0
  }

  /** What the market's open entries have cost so far, fees included. */
  function SpentOn(es: seq<LedgerEntry>, market: string): real {
    if es == [] then 0.0
    else
      var e := es[|es| - 1];
      SpentOn(es[..|es| - 1], market) +
      if e.closedAt.None? && e.contract.marketId == market
      then Mul(SignedSize(e), e.entryPrice) + e.feesPaid
      else 0.0
  }

  /** One entry earns its payout times its signed size, less what it has cost. */
  lemma EntryEarns(e: LedgerEntry, data: ResolutionData)
    ensures var pnl := OutcomeOf(e, data).realizedPnl + Mul(SignedSize(e), e.entryPrice) + e.feesPaid;
            && (data.winningToken == Some(e.contract.tokenId) ==> pnl == SignedSize(e))
            && (data.winningToken.Some? && data.winningToken.value != e.contract.tokenId ==> pnl == 0.0)
            && (data.winningToken.None? ==> pnl == Mul(data.payoutPrice, SignedSize(e)))
  {
    VerifiedOutcome(InputFrom(e), data);
  }

  lemma LastPnl(es: seq<LedgerEntry>, market: string, data: ResolutionData)
    requires es != []
    ensures var before, e := es[..|es| - 1], es[|es| - 1];
            Sum(DuePnls(es, market, data)) == Sum(DuePnls(before, market, data)) +
            if e.closedAt.None? && e.contract.marketId == market then OutcomeOf(e, data).realizedPnl else 0.0
  {
    hide OutcomeOf;
    var ps, pnl := DuePnls(es[..|es| - 1], market, data), OutcomeOf(es[|es| - 1], data).realizedPnl;
    assert (ps + [pnl])[..|ps|] == ps;
    assert DuePnls(es, market, data) == if Due(es[|es| - 1], market) then ps + [pnl] else ps;
  }

  /** A resolved market pays 1 for each winning share held and nothing else, against what
      all its open entries have cost; without a winner every share pays the stated price. */
  lemma {:induction false} SettlementPaysWinningShares(es: seq<LedgerEntry>, market: string, data: ResolutionData)
    ensures data.winningToken.Some? ==>
              Sum(DuePnls(es, market, data)) == SharesOf(es, market, data.winningToken.value) - SpentOn(es, market)
    ensures data.winningToken.None? ==>
              Sum(DuePnls(es, market, data)) == Mul(data.payoutPrice, SharesIn(es, market)) - SpentOn(es, market)
  {
    if es == [] {
      MulSign(data.payoutPrice, 0.0);
    } else {
      hide OutcomeOf, SignedSize, Mul, DuePnls, Sum;
      var before, e := es[..|es| - 1], es[|es| - 1];
      SettlementPaysWinningShares(before, market, data);
      LastPnl(es, market, data);
      EntryEarns(e, data);
      MulAdd(data.payoutPrice, SharesIn(before, market), SignedSize(e));
    }
  }

  /** Exactly the market's open entries are marked, as won if they hold the winner and as lost
      if they do not; everything the P&L is computed from stays as it was. */
  lemma SettledEntryShows(e: LedgerEntry, market: string, data: ResolutionData, now: int)
    ensures var e' := SettledEntry(e, market, data, now);
            && (e.closedAt.Some? || e.contract.marketId != market ==> e' == e)
            && (e.closedAt.None? && e.contract.marketId == market ==>
                  && e'.verifiedAt == Some(now)
                  && e'.officialPnl == Some(OutcomeOf(e, data).realizedPnl)
                  && e'.officialOutcome == match data.winningToken
                       case Some(w) => if w == e.contract.tokenId then Some(Yes) else Some(No)
                       case None => Some(Unknown))
            && e' == e.(officialOutcome := e'.officialOutcome, officialPnl := e'.officialPnl,
                        verifiedAt := e'.verifiedAt)
  {
    VerifiedOutcome(InputFrom(e), data);
  }

  // ----- A settlement trips the switch ---------------------------------------------------

  /** The settled P&Ls as trades of the drawdown tracker. */
  function Trades(ps: seq<real>): (es: seq<Drawdown.Event>)
    ensures |es| == |ps|
  {
    if ps == [] then [] else Trades(ps[..|ps| - 1]) + [Drawdown.Trade(ps[|ps| - 1], None)]
  }

  lemma {:induction false} TradesExtendTheRun(equity: real, es: seq<Drawdown.Event>, ps: seq<real>)
    ensures AfterTrades(StateAfter(equity, es), ps) == StateAfter(equity, es + Trades(ps))
  {
    hide AfterTrade;
    if ps == [] {
      assert es + Trades(ps) == es;
    } else {
      var n := |ps| - 1;
      TradesExtendTheRun(equity, es, ps[..n]);
      assert (es + Trades(ps))[..|es| + n] == es + Trades(ps[..n]);
    }
  }

  /** If the switch was active exactly when the trades so far had breached a limit, then after
      a settlement it is active exactly when they or the settled ones have: a breach in a
      settlement halts trading, and nothing else does. */
  lemma {:induction false} SettlementTripsIff(config: RiskConfig, equity: real, es: seq<Drawdown.Event>, k: Switch,
          ps: seq<real>, now: int)
    requires k.active <==> SomePrefixBreached(config, es)
    ensures SwitchAfterTrades(k, StateAfter(equity, es), config, ps, now).active
            <==> SomePrefixBreached(config, es + Trades(ps))
  {
    hide Breaches, Breached, AfterTrade;
    if ps == [] {
      assert es + Trades(ps) == es;
    } else {
      var n := |ps| - 1;
      var s, fs := StateAfter(equity, es), es + Trades(ps);
      SettlementTripsIff(config, equity, es, k, ps[..n], now);
      assert fs[..|fs| - 1] == es + Trades(ps[..n]) && fs[|fs| - 1].Trade?;
      TradesExtendTheRun(equity, es, ps);
      ActivatedIff(SwitchAfterTrades(k, s, config, ps[..n], now), Breaches(AfterTrades(s, ps), config), now);
      BreachesIff(config, equity, fs);
      hide SomePrefixBreached;
      PrefixesExtend(config, fs);
    }
  }

  // ----- What one resolution does, and what a second one does again ---------------------

  /** Trades move the tracker's equity by their sum, so the loop's own equity figure and
      the tracker's stay equal if they start equal. */
  lemma {:induction false} EquityFollowsTracker(s: DrawdownState, ps: seq<real>)
    ensures AfterTrades(s, ps).currentEquity == s.currentEquity + Sum(ps)
    ensures AfterTrades(s, ps).sessionPnl == s.sessionPnl + Sum(ps)
  {
    if ps != [] {
      EquityFollowsTracker(s, ps[..|ps| - 1]);
    }
  }

  /** Settling leaves the entries open with their prices and fees, so they are due again. */
  lemma {:induction false} StillDueAfterSettling(es: seq<LedgerEntry>, market: string, data: ResolutionData,
          now: int, again: ResolutionData)
    ensures DuePnls(SettledEntries(es, market, data, now), market, again) == DuePnls(es, market, again)
  {
    if es != [] {
      var n := |es| - 1;
      StillDueAfterSettling(es[..n], market, data, now, again);
      var es' := SettledEntries(es, market, data, now);
      assert es'[..n] == SettledEntries(es[..n], market, data, now);
    }
  }

  /** A repeated resolution event books the same P&L a second time. */
  lemma RepeatedResolutionBooksTwice(es: seq<LedgerEntry>, market: string, data: ResolutionData, now: int, equity: real)
    ensures var ps := DuePnls(es, market, data);
            var once := equity + Sum(ps);
            var twice := once + Sum(DuePnls(SettledEntries(es, market, data, now), market, data));
            && twice == equity + 2.0 * Sum(ps)
            && (twice == once <==> Sum(ps) == 0.0)
  {
    StillDueAfterSettling(es, market, data, now, data);
  }

  lemma {:induction false} TradesAreCounted(s: DrawdownState, ps: seq<real>)
    ensures AfterTrades(s, ps).totalTrades == s.totalTrades + |ps|
  {
    if ps != [] {
      TradesAreCounted(s, ps[..|ps| - 1]);
    }
  }

  predicate NoneDue(es: seq<LedgerEntry>, market: string) {
    forall e :: e in es ==> !Due(e, market)
  }

  lemma {:induction false} NoPnlIffNoneDue(es: seq<LedgerEntry>, market: string, data: ResolutionData)
    ensures DuePnls(es, market, data) == [] <==> NoneDue(es, market)
  {
    if es != [] {
      var before, e := es[..|es| - 1], es[|es| - 1];
      assert es == before + [e];
      NoPnlIffNoneDue(before, market, data);
    }
  }

  /** A later resolution event of the same market, with the same or other data, leaves the
      drawdown tracker and the equity alone exactly when no entry of the market was open at
      the first one. P&Ls that sum to zero do not help: the tracker still counts the trades. */
  lemma RepeatedResolutionIff(es: seq<LedgerEntry>, market: string, data: ResolutionData, now: int,
          again: ResolutionData,
          s: DrawdownState, equity: real)
    ensures var ps := DuePnls(SettledEntries(es, market, data, now), market, again);
            AfterTrades(s, ps) == s && equity + Sum(ps) == equity <==> NoneDue(es, market)
  {
    var ps := DuePnls(SettledEntries(es, market, data, now), market, again);
    StillDueAfterSettling(es, market, data, now, again);
    NoPnlIffNoneDue(es, market, again);
    TradesAreCounted(s, ps);
  }
}
