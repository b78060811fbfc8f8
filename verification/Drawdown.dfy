/** Drawdown and loss tracking, wired to the kill switch. */
module Drawdown {
  import opened Domain
  import opened KillSwitch

  datatype DrawdownState = DrawdownState(
    sessionStartEquity: real,
    dailyStartEquity: real,
    currentEquity: real,
    highWaterMark: real,
    sessionPnl: real,
    dailyPnl: real,
    consecutiveLosses: nat,
    maxConsecutiveLosses: nat,
    totalTrades: nat,
    winningTrades: nat,
    losingTrades: nat,
    totalAdverseSlippage: real,
    recentAdverseSlippageCount: nat)

  function StartState(equity: real): DrawdownState {
    DrawdownState(equity, equity, equity, equity, 0.0, 0.0, 0, 0, 0, 0, 0, 0.0, 0)
  }

  function AfterTrade(s: DrawdownState, pnl: real, slippage: Option<real>): DrawdownState {
    var equity := s.currentEquity + pnl;
    var losses := if pnl > 0.0 then 0 else if pnl < 0.0 then s.consecutiveLosses + 1 else s.consecutiveLosses;
    var slipped := slippage.Some? && slippage.value > 0.0;
    DrawdownState(
      s.sessionStartEquity,
      s.dailyStartEquity,
      equity,
      Max(s.highWaterMark, equity),
      s.sessionPnl + pnl,
      s.dailyPnl + pnl,
      losses,
      if pnl < 0.0 && losses > s.maxConsecutiveLosses then losses else s.maxConsecutiveLosses,
      s.totalTrades + 1,
      s.winningTrades + if pnl > 0.0 then 1 else 0,
      s.losingTrades + if pnl < 0.0 then 1 else 0,
      s.totalAdverseSlippage + if slipped then slippage.value else 0.0,
      s.recentAdverseSlippageCount + if slipped then 1 else 0)
  }

  function AfterReset(s: DrawdownState): DrawdownState {
    s.(dailyStartEquity := s.currentEquity, dailyPnl := 0.0, recentAdverseSlippageCount := 0)
  }

  function DailyDrawdown(s: DrawdownState): real {
    Max(s.dailyStartEquity - s.currentEquity, 0.0)
  }

  function SessionDrawdown(s: DrawdownState): real {
    Max(s.sessionStartEquity - s.currentEquity, 0.0)
  }

  function TotalDrawdown(s: DrawdownState): real {
    Max(s.highWaterMark - s.currentEquity, 0.0)
  }

  /** The reasons the thresholds give for this state, in the order they are checked. */
  function Breaches(s: DrawdownState, config: RiskConfig): seq<Reason> {
    (if DailyDrawdown(s) >= config.maxDailyDrawdown
     then [DailyDrawdownBreach(DailyDrawdown(s), config.maxDailyDrawdown)] else []) +
    (if TotalDrawdown(s) >= config.maxTotalDrawdown
     then [TotalDrawdownBreach(TotalDrawdown(s), config.maxTotalDrawdown)] else []) +
    (if s.consecutiveLosses >= config.maxConsecutiveLosses
     then [ConsecutiveLossBreach(s.consecutiveLosses, config.maxConsecutiveLosses)] else [])
  }

  function Activated(k: Switch, reasons: seq<Reason>, now: int): Switch {
    if reasons == [] then k
    else ReasonRecorded(FlagRaised(Activated(k, reasons[..|reasons| - 1], now)), reasons[|reasons| - 1], now)
  }

  lemma {:induction false} ActivatedIff(k: Switch, reasons: seq<Reason>, now: int)
    ensures Activated(k, reasons, now).active <==> k.active || reasons != []
    ensures |Activated(k, reasons, now).history| == |k.history| + |reasons|
  {
    if reasons != [] {
      ActivatedIff(k, reasons[..|reasons| - 1], now);
    }
  }

  // ----- The tracker ----------------------------------------------------------

  class DrawdownTracker {
    var state: DrawdownState
    const config: RiskConfig
    const killSwitch: KillSwitch

    constructor (equity: real, config: RiskConfig, killSwitch: KillSwitch)
      ensures state == StartState(equity) && this.config == config && this.killSwitch == killSwitch
    {
      this.config, this.killSwitch := config, killSwitch;
      state := DrawdownState(equity, equity, equity, equity, 0.0, 0.0, 0, 0, 0, 0, 0, 0.0, 0);
    }

    method RecordTrade(pnl: real, adverseSlippage: Option<real>, now: int)
      modifies this, killSwitch
      ensures state == AfterTrade(old(state), pnl, adverseSlippage)
      ensures killSwitch.View() == Activated(old(killSwitch.View()), Breaches(state, config), now)
    {
      hide Breaches, Activated;
      state := state.(totalTrades := state.totalTrades + 1);
      state := state.(sessionPnl := state.sessionPnl + pnl);
      state := state.(dailyPnl := state.dailyPnl + pnl);
      state := state.(currentEquity := state.currentEquity + pnl);
      if state.currentEquity > state.highWaterMark {
        state := state.(highWaterMark := state.currentEquity);
      }
      if pnl > 0.0 {
        state := state.(winningTrades := state.winningTrades + 1, consecutiveLosses := 0);
      } else if pnl < 0.0 {
        state := state.(losingTrades := state.losingTrades + 1, consecutiveLosses := state.consecutiveLosses + 1);
        if state.consecutiveLosses > state.maxConsecutiveLosses {
          state := state.(maxConsecutiveLosses := state.consecutiveLosses);
        }
      }
      if adverseSlippage.Some? && adverseSlippage.value > 0.0 {
        state := state.(totalAdverseSlippage := state.totalAdverseSlippage + adverseSlippage.value,
                        recentAdverseSlippageCount := state.recentAdverseSlippageCount + 1);
      }
      CheckThresholds(now);
    }

    method CheckThresholds(now: int)
      modifies killSwitch
      ensures killSwitch.View() == Activated(old(killSwitch.View()), Breaches(state, config), now)
    {
      ghost var reasons: seq<Reason> := [];
      var dailyDd := DailyDrawdown(state);
      if dailyDd >= config.maxDailyDrawdown {
        killSwitch.Activate(DailyDrawdownBreach(dailyDd, config.maxDailyDrawdown), now);
        reasons := [DailyDrawdownBreach(dailyDd, config.maxDailyDrawdown)];
        assert reasons[..0] == [];
      }
      assert killSwitch.View() == Activated(old(killSwitch.View()), reasons, now);
      var totalDd := TotalDrawdown(state);
      if totalDd >= config.maxTotalDrawdown {
        killSwitch.Activate(TotalDrawdownBreach(totalDd, config.maxTotalDrawdown), now);
        ActivatedExtends(old(killSwitch.View()), reasons, TotalDrawdownBreach(totalDd, config.maxTotalDrawdown), now);
        reasons := reasons + [TotalDrawdownBreach(totalDd, config.maxTotalDrawdown)];
      }
      if state.consecutiveLosses >= config.maxConsecutiveLosses {
        var reason := ConsecutiveLossBreach(state.consecutiveLosses, config.maxConsecutiveLosses);
        killSwitch.Activate(reason, now);
        ActivatedExtends(old(killSwitch.View()), reasons, reason, now);
        reasons := reasons + [reason];
      }
      assert reasons == Breaches(state, config);
    }

    method ResetDaily()
      modifies this
      ensures state == AfterReset(old(state))
    {
      state := state.(dailyStartEquity := state.currentEquity);
      state := state.(dailyPnl := 0.0);
      state := state.(recentAdverseSlippageCount := 0);
    }
  }

  lemma ActivatedExtends(k: Switch, reasons: seq<Reason>, reason: Reason, now: int)
    ensures Activated(k, reasons + [reason], now) == ReasonRecorded(FlagRaised(Activated(k, reasons, now)), reason, now)
  {
    assert (reasons + [reason])[..|reasons|] == reasons;
  }

  // ----- Runs in terms of the trades alone ------------------------------------

  datatype Event = Trade(pnl: real, slippage: Option<real>) | ResetDay

  function StateAfter(equity: real, es: seq<Event>): DrawdownState {
    if es == [] then StartState(equity)
    else
      var s, e := StateAfter(equity, es[..|es| - 1]), es[|es| - 1];
      if e.Trade? then AfterTrade(s, e.pnl, e.slippage) else AfterReset(s)
  }

  function TotalPnl(es: seq<Event>): real {
    if es == [] then 0.0
    else TotalPnl(es[..|es| - 1]) + if es[|es| - 1].Trade? then es[|es| - 1].pnl else 0.0
  }

  function PnlSinceReset(es: seq<Event>): real {
    if es == [] || es[|es| - 1].ResetDay? then 0.0
    else PnlSinceReset(es[..|es| - 1]) + es[|es| - 1].pnl
  }

  /** The highest cumulative P&L reached so far, counting the start as 0. */
  function Peak(es: seq<Event>): real {
    if es == [] then 0.0 else Max(Peak(es[..|es| - 1]), TotalPnl(es))
  }

  function LossesSinceWin(es: seq<Event>): nat {
    if es == [] then 0
    else
      var before, e := LossesSinceWin(es[..|es| - 1]), es[|es| - 1];
      if e.ResetDay? then before
      else if e.pnl > 0.0 then 0
      else if e.pnl < 0.0 then before + 1
      else before
  }

  function LossesIn(es: seq<Event>): nat {
    if es == [] then 0
    else LossesIn(es[..|es| - 1]) + if es[|es| - 1].Trade? && es[|es| - 1].pnl < 0.0 then 1 else 0
  }

  predicate IsWin(e: Event) {
    e.Trade? && e.pnl > 0.0
  }

  lemma {:induction false} PeakIsHighest(es: seq<Event>)
    ensures forall k :: 0 <= k <= |es| ==> TotalPnl(es[..k]) <= Peak(es)
    ensures exists k :: 0 <= k <= |es| && TotalPnl(es[..k]) == Peak(es)
  {
    if es == [] {
      assert TotalPnl(es[..0]) == Peak(es);
    } else {
      var before := es[..|es| - 1];
      PeakIsHighest(before);
      assert es[..|es|] == es;
      assert forall k :: 0 <= k <= |before| ==> before[..k] == es[..k];
      var k :| 0 <= k <= |before| && TotalPnl(before[..k]) == Peak(before);
      assert TotalPnl(es[..k]) == Peak(es) || TotalPnl(es[..|es|]) == Peak(es);
    }
  }

  /** Splitting after the last win: the streak is the number of losses behind it. */
  lemma {:induction false} StreakCountsLosses(before: seq<Event>, after: seq<Event>)
    requires before == [] || IsWin(before[|before| - 1])
    requires forall e :: e in after ==> !IsWin(e)
    ensures LossesSinceWin(before + after) == LossesIn(after)
  {
    if after == [] {
      assert before + after == before;
    } else {
      var shorter := after[..|after| - 1];
      var both := before + after;
      assert both[..|both| - 1] == before + shorter && both[|both| - 1] == after[|after| - 1];
      assert !IsWin(after[|after| - 1]);
      StreakCountsLosses(before, shorter);
    }
  }

  /** Every tracked figure is a plain function of the trades, for any starting equity. */
  lemma {:induction false} StateFromTrades(equity: real, es: seq<Event>)
    ensures var s := StateAfter(equity, es);
            && s.sessionStartEquity == equity
            && s.currentEquity == equity + TotalPnl(es)
            && s.sessionPnl == TotalPnl(es)
            && s.dailyPnl == PnlSinceReset(es)
            && s.dailyStartEquity == equity + TotalPnl(es) - PnlSinceReset(es)
            && s.highWaterMark == equity + Peak(es)
            && s.consecutiveLosses == LossesSinceWin(es)
            && s.dailyStartEquity <= s.highWaterMark
  {
    if es != [] {
      StateFromTrades(equity, es[..|es| - 1]);
      if es[|es| - 1].ResetDay? {
        PeakIsHighest(es[..|es| - 1]);
        assert es[..|es| - 1][..|es| - 1] == es[..|es| - 1];
      }
    }
  }

  function TradesIn(es: seq<Event>): nat {
    if es == [] then 0 else TradesIn(es[..|es| - 1]) + if es[|es| - 1].Trade? then 1 else 0
  }

  function WinsIn(es: seq<Event>): nat {
    if es == [] then 0 else WinsIn(es[..|es| - 1]) + if IsWin(es[|es| - 1]) then 1 else 0
  }

  function SlippageOf(e: Event): real {
    if e.Trade? && e.slippage.Some? then Max(e.slippage.value, 0.0) else 0.0
  }

  function AdverseSlippage(es: seq<Event>): real {
    if es == [] then 0.0 else AdverseSlippage(es[..|es| - 1]) + SlippageOf(es[|es| - 1])
  }

  /** The counters count, favourable slippage is ignored, and the worst streak is the
      longest losing streak the run has shown, over all resets. */
  lemma {:induction false} CountersFromTrades(equity: real, es: seq<Event>)
    ensures var s := StateAfter(equity, es);
            && s.totalTrades == TradesIn(es) && s.winningTrades == WinsIn(es) && s.losingTrades == LossesIn(es)
            && s.winningTrades + s.losingTrades <= s.totalTrades
            && s.totalAdverseSlippage == AdverseSlippage(es)
            && s.consecutiveLosses <= s.maxConsecutiveLosses
            && (forall k :: 0 <= k <= |es| ==> LossesSinceWin(es[..k]) <= s.maxConsecutiveLosses)
            && (exists k :: 0 <= k <= |es| && LossesSinceWin(es[..k]) == s.maxConsecutiveLosses)
  {
    assert es[..|es|] == es;
    StateFromTrades(equity, es);
    if es == [] {
      assert LossesSinceWin(es[..0]) == 0;
    } else {
      var before, e := es[..|es| - 1], es[|es| - 1];
      var s, s' := StateAfter(equity, before), StateAfter(equity, es);
      CountersFromTrades(equity, before);
      StateFromTrades(equity, before);
      assert forall k :: 0 <= k <= |before| ==> before[..k] == es[..k];
      if s'.maxConsecutiveLosses == s.maxConsecutiveLosses {
        var k :| 0 <= k <= |before| && LossesSinceWin(before[..k]) == s.maxConsecutiveLosses;
        assert LossesSinceWin(es[..k]) == s'.maxConsecutiveLosses;
      } else {
        assert LossesSinceWin(es[..|es|]) == s'.maxConsecutiveLosses;
      }
    }
  }

  /** The books balance, daily and session drawdown are the losses since the last reset and
      since the start, and the drawdown from the peak dominates both. */
  lemma BooksBalance(equity: real, es: seq<Event>)
    ensures var s := StateAfter(equity, es);
            && s.currentEquity == s.sessionStartEquity + s.sessionPnl
            && s.currentEquity == s.dailyStartEquity + s.dailyPnl
            && TotalDrawdown(s) >= DailyDrawdown(s)
            && TotalDrawdown(s) >= SessionDrawdown(s)
            && DailyDrawdown(s) == (if PnlSinceReset(es) < 0.0 then -PnlSinceReset(es) else 0.0)
            && SessionDrawdown(s) == (if TotalPnl(es) < 0.0 then -TotalPnl(es) else 0.0)
  {
    StateFromTrades(equity, es);
    PeakIsHighest(es);
    assert es[..0] == [];
  }

  // ----- When the switch trips -------------------------------------------------

  /** A breach read off the trades: loss since the last reset, drop from the peak, or
      losses since the last win. */
  predicate Breached(config: RiskConfig, es: seq<Event>) {
    || Max(-PnlSinceReset(es), 0.0) >= config.maxDailyDrawdown
    || Peak(es) - TotalPnl(es) >= config.maxTotalDrawdown
    || LossesSinceWin(es) >= config.maxConsecutiveLosses
  }

  lemma BreachesIff(config: RiskConfig, equity: real, es: seq<Event>)
    ensures Breaches(StateAfter(equity, es), config) != [] <==> Breached(config, es)
  {
    StateFromTrades(equity, es);
    PeakIsHighest(es);
    assert es[..|es|] == es;
  }

  /** The kill switch after a run in which only the tracker touches it. */
  function SwitchAfter(config: RiskConfig, equity: real, es: seq<Event>, now: int): Switch {
    if es == [] then IDLE
    else
      var k := SwitchAfter(config, equity, es[..|es| - 1], now);
      if es[|es| - 1].Trade? then Activated(k, Breaches(StateAfter(equity, es), config), now) else k
  }

  ghost predicate SomePrefixBreached(config: RiskConfig, es: seq<Event>) {
    exists k :: 1 <= k <= |es| && es[k - 1].Trade? && Breached(config, es[..k])
  }

  /** The switch is active exactly when some prefix ending in a trade breached a limit. */
  lemma {:induction false} TripsExactlyOnBreach(config: RiskConfig, equity: real, es: seq<Event>, now: int)
    ensures SwitchAfter(config, equity, es, now).active <==> SomePrefixBreached(config, es)
  {
    if es != [] {
      var n := |es| - 1;
      var before := es[..n];
      TripsExactlyOnBreach(config, equity, before, now);
      PrefixesExtend(config, es);
      if es[n].Trade? {
        ActivatedIff(SwitchAfter(config, equity, before, now), Breaches(StateAfter(equity, es), config), now);
        BreachesIff(config, equity, es);
      }
    }
  }

  lemma PrefixesExtend(config: RiskConfig, es: seq<Event>)
    requires es != []
    ensures SomePrefixBreached(config, es) <==>
              SomePrefixBreached(config, es[..|es| - 1]) || (es[|es| - 1].Trade? && Breached(config, es))
  {
    var before := es[..|es| - 1];
    assert es[..|es|] == es;
    if SomePrefixBreached(config, before) {
      var k :| 1 <= k <= |before| && before[k - 1].Trade? && Breached(config, before[..k]);
      assert before[..k] == es[..k] && es[k - 1].Trade?;
    }
    if SomePrefixBreached(config, es) {
      var k :| 1 <= k <= |es| && es[k - 1].Trade? && Breached(config, es[..k]);
      if k <= |before| {
        assert before[..k] == es[..k] && before[k - 1].Trade?;
      }
    }
  }

  /** Tighter limits never trip later. */
  lemma TighterTripsNoLater(tight: RiskConfig, base: RiskConfig, equity: real, es: seq<Event>, now: int)
    requires tight.maxDailyDrawdown <= base.maxDailyDrawdown
    requires tight.maxTotalDrawdown <= base.maxTotalDrawdown
    requires tight.maxConsecutiveLosses <= base.maxConsecutiveLosses
    requires SwitchAfter(base, equity, es, now).active
    ensures SwitchAfter(tight, equity, es, now).active
  {
    TripsExactlyOnBreach(base, equity, es, now);
    TripsExactlyOnBreach(tight, equity, es, now);
    var k :| 1 <= k <= |es| && es[k - 1].Trade? && Breached(base, es[..k]);
    assert Breached(tight, es[..k]);
  }
}
