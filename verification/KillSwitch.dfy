/** The kill switch: a lock-free flag and a locked record, updated in two steps.
    The first half is the switch itself, the second its interleaved steps. */
module KillSwitch {
  import opened Domain

  datatype Reason =
    | Manual
    | DailyDrawdownBreach(drawdown: real, limit: real)
    | TotalDrawdownBreach(drawdown: real, limit: real)
    | ConsecutiveLossBreach(count: nat, max: nat)
    | StaleFeedRegime
    | AbnormalLatency(avgMs: nat)
    | ExecutionFailures(failures: nat, windowSecs: nat)
    | OrderStateAnomaly(uncertain: nat)
    | ReconnectStorm(reconnects: nat, stormSecs: nat)

  datatype Activation = Activation(reason: Reason, activatedAt: int, deactivatedAt: Option<int>)

  datatype Switch = Switch(active: bool, current: Option<Activation>, history: seq<Activation>)

  const IDLE := Switch(false, None, [])

  // ----- The four atomic steps ----------------------------------------------

  function FlagRaised(s: Switch): Switch {
    s.(active := true)
  }

  function ReasonRecorded(s: Switch, reason: Reason, at: int): Switch {
    var a := Activation(reason, at, None);
    s.(current := Some(a), history := s.history + [a])
  }

  function FlagDropped(s: Switch): Switch {
    s.(active := false)
  }

  function ReasonCleared(s: Switch): Switch {
    s.(current := None)
  }

  class KillSwitch {
    var active: bool
    var current: Option<Activation>
    var history: seq<Activation>

    function View(): Switch
      reads this
    {
      Switch(active, current, history)
    }

    constructor ()
      ensures View() == IDLE
    {
      active, current, history := false, None, [];
    }

    /** The atomic swap of `activate`. */
    method RaiseFlag() returns (wasActive: bool)
      modifies this`active
      ensures View() == FlagRaised(old(View())) && wasActive == old(active)
    {
      wasActive := active;
      active := true;
    }

    /** The part of `activate` under the lock. */
    method RecordReason(reason: Reason, now: int)
      modifies this`current, this`history
      ensures View() == ReasonRecorded(old(View()), reason, now)
    {
      var activation := Activation(reason, now, None);
      current := Some(activation);
      history := history + [activation];
    }

    method Activate(reason: Reason, now: int)
      modifies this
      ensures View() == ReasonRecorded(FlagRaised(old(View())), reason, now)
    {
      var _ := RaiseFlag();
      RecordReason(reason, now);
    }

    /** The atomic store of `deactivate`. */
    method DropFlag()
      modifies this`active
      ensures View() == FlagDropped(old(View()))
    {
      active := false;
    }

    /** The part of `deactivate` under the lock. The end time goes to the current
        record, which is then dropped; the copy in the history never receives it. */
    method ClearReason(now: int)
      modifies this`current
      ensures View() == ReasonCleared(old(View()))
    {
      if current.Some? {
        current := Some(current.value.(deactivatedAt := Some(now)));
      }
      current := None;
    }

    method Deactivate(now: int)
      modifies this
      ensures View() == ReasonCleared(FlagDropped(old(View())))
    {
      DropFlag();
      ClearReason(now);
    }
  }

  // ----- Interleaved calls ---------------------------------------------------

  datatype Step = Raise | Record(reason: Reason, at: int) | Drop | Clear

  /** The switch, with the number of activate and deactivate calls between their steps. */
  datatype System = System(switch: Switch, activating: nat, deactivating: nat)

  const QUIET := System(IDLE, 0, 0)

  /** A second step belongs to a call that has done its first. */
  predicate Enabled(s: System, e: Step) {
    && (e.Record? ==> s.activating > 0)
    && (e.Clear? ==> s.deactivating > 0)
  }

  function Next(s: System, e: Step): System
    requires Enabled(s, e)
  {
    match e
    case Raise => System(FlagRaised(s.switch), s.activating + 1, s.deactivating)
    case Record(reason, at) => System(ReasonRecorded(s.switch, reason, at), s.activating - 1, s.deactivating)
    case Drop => System(FlagDropped(s.switch), s.activating, s.deactivating + 1)
    case Clear => System(ReasonCleared(s.switch), s.activating, s.deactivating - 1)
  }

  /** No deactivate call overlaps an activate call; calls of one kind may overlap. */
  predicate Apart(s: System, e: Step) {
    && (e.Raise? ==> s.deactivating == 0)
    && (e.Drop? ==> s.activating == 0)
  }

  ghost predicate Possible(es: seq<Step>)
  {
    es == [] || (Possible(es[..|es| - 1]) && Enabled(After(es[..|es| - 1]), es[|es| - 1]))
  }

  /** Any run from the idle switch, whatever the interleaving. */
  ghost function After(es: seq<Step>): System
  {
    if es == [] then QUIET
    else
      var before, e := After(es[..|es| - 1]), es[|es| - 1];
      if Enabled(before, e) then Next(before, e) else before
  }

  ghost predicate AllApart(es: seq<Step>) {
    es == [] || (AllApart(es[..|es| - 1]) && Apart(After(es[..|es| - 1]), es[|es| - 1]))
  }

  predicate Quiescent(s: System) {
    s.activating == 0 && s.deactivating == 0
  }

  /** Outside a running deactivate, a recorded reason means the flag is up; and at
      every quiescent point flag and reason agree. */
  ghost predicate Consistent(s: System) {
    && (s.deactivating == 0 && s.switch.current.Some? ==> s.switch.active)
    && (Quiescent(s) ==> (s.switch.active <==> s.switch.current.Some?))
  }

  lemma {:induction false} ApartRunsAreConsistent(es: seq<Step>)
    requires Possible(es) && AllApart(es)
    ensures Consistent(After(es))
    ensures After(es).activating > 0 ==> After(es).switch.active && After(es).deactivating == 0
    ensures After(es).deactivating > 0 ==> !After(es).switch.active
  {
    if es != [] {
      ApartRunsAreConsistent(es[..|es| - 1]);
    }
  }

  datatype Kind = RaiseStep | RecordStep | DropStep | ClearStep

  function KindOf(e: Step): Kind {
    match e
    case Raise => RaiseStep
    case Record(_, _) => RecordStep
    case Drop => DropStep
    case Clear => ClearStep
  }

  function Count(es: seq<Step>, kind: Kind): nat {
    if es == [] then 0 else Count(es[..|es| - 1], kind) + if KindOf(es[|es| - 1]) == kind then 1 else 0
  }

  /** For every interleaving the calls between their steps are the ones begun and not ended. */
  lemma {:induction false} RunningCallsAreCounted(es: seq<Step>)
    requires Possible(es)
    ensures After(es).activating == Count(es, RaiseStep) - Count(es, RecordStep)
    ensures After(es).deactivating == Count(es, DropStep) - Count(es, ClearStep)
  {
    if es != [] {
      RunningCallsAreCounted(es[..|es| - 1]);
    }
  }

  /** The history counts completed activations, and no entry ever gets an end time. */
  lemma {:induction false} HistoryCountsActivations(es: seq<Step>)
    requires Possible(es)
    ensures |After(es).switch.history| == Count(es, RecordStep)
    ensures forall a :: a in After(es).switch.history ==> a.deactivatedAt == None
  {
    if es != [] {
      HistoryCountsActivations(es[..|es| - 1]);
    }
  }

  /** Only the first step of `deactivate` lowers the flag. */
  lemma FlagOnlyDropsInDeactivate(s: System, e: Step)
    requires Enabled(s, e) && s.switch.active && !Next(s, e).switch.active
    ensures e == Drop
  {
  }

  /** Over any stretch of a run in which no deactivate begins, a raised flag stays up, however
      the calls interleave. */
  lemma {:induction false} HaltHoldsUntilDeactivate(es: seq<Step>, fs: seq<Step>)
    requires Possible(es + fs) && After(es).switch.active && Drop !in fs
    ensures After(es + fs).switch.active
  {
    if fs == [] {
      assert es + fs == es;
    } else {
      var n, all := |fs| - 1, es + fs;
      assert all[..|all| - 1] == es + fs[..n] && all[|all| - 1] == fs[n];
      HaltHoldsUntilDeactivate(es, fs[..n]);
      if !After(all).switch.active {
        FlagOnlyDropsInDeactivate(After(es + fs[..n]), fs[n]);
      }
    }
  }

  // ----- The exact guard for a call ------------------------------------------------

  predicate Agree(k: Switch) {
    k.active <==> k.current.Some?
  }

  /** A running activate has the flag up and no deactivate beside it, a running deactivate
      has it down, and with no call running flag and reason agree. */
  predicate Safe(s: System) {
    && (s.activating > 0 ==> s.switch.active && s.deactivating == 0)
    && (s.deactivating > 0 ==> !s.switch.active)
    && (Quiescent(s) ==> Agree(s.switch))
  }

  /** From a safe state a step leads to a safe state exactly when it starts no activate
      beside a running deactivate and no deactivate beside a running activate. */
  lemma StepStaysSafeIff(s: System, e: Step)
    requires Safe(s) && Enabled(s, e)
    ensures Safe(Next(s, e)) <==> Apart(s, e)
  {
  }

  /** All prefixes of a run are safe exactly when no two calls of different kind overlap. */
  ghost predicate SafeThroughout(es: seq<Step>) {
    Safe(After(es)) && (es != [] ==> SafeThroughout(es[..|es| - 1]))
  }

  lemma {:induction false} SafeThroughoutIff(es: seq<Step>)
    requires Possible(es)
    ensures SafeThroughout(es) <==> AllApart(es)
  {
    if es != [] {
      var before := es[..|es| - 1];
      SafeThroughoutIff(before);
      hide Safe, Apart;
      if SafeThroughout(before) {
        StepStaysSafeIff(After(before), es[|es| - 1]);
      }
    }
  }

  /** The running calls finish, one second step after another; no new call starts. */
  predicate Finishing(s: System, es: seq<Step>)
    decreases es
  {
    es == [] || (!es[0].Raise? && !es[0].Drop? && Enabled(s, es[0]) && Finishing(Next(s, es[0]), es[1..]))
  }

  function Finished(s: System, es: seq<Step>): System
    requires Finishing(s, es)
    decreases es
  {
    if es == [] then s else Finished(Next(s, es[0]), es[1..])
  }

  ghost predicate MayEndInDisagreement(s: System) {
    exists es :: Finishing(s, es) && Quiescent(Finished(s, es)) && !Agree(Finished(s, es).switch)
  }

  lemma FinishOne(s: System, e: Step)
    requires !e.Raise? && !e.Drop? && Enabled(s, e) && MayEndInDisagreement(Next(s, e))
    ensures MayEndInDisagreement(s)
  {
    var es :| Finishing(Next(s, e), es) && Quiescent(Finished(Next(s, e), es))
        && !Agree(Finished(Next(s, e), es).switch);
    var fs := [e] + es;
    assert fs[1..] == es;
    assert Finishing(s, fs) && Finished(s, fs) == Finished(Next(s, e), es);
  }

  /** From every unsafe state the calls already running can finish with flag and reason in
      disagreement: clears first if the flag is down, records first if it is up. */
  lemma {:induction false} UnsafeMayEndInDisagreement(s: System, reason: Reason, at: int)
    requires !Safe(s)
    ensures MayEndInDisagreement(s)
    decreases s.activating + s.deactivating
  {
    if Quiescent(s) {
      assert Finishing(s, []) && Finished(s, []) == s;
    } else {
      var e := if s.switch.active
               then (if s.activating > 0 then Record(reason, at) else Clear)
               else (if s.deactivating > 0 then Clear else Record(reason, at));
      UnsafeMayEndInDisagreement(Next(s, e), reason, at);
      FinishOne(s, e);
    }
  }

  lemma {:induction false} SafeEndsInAgreement(s: System, es: seq<Step>)
    requires Safe(s) && Finishing(s, es) && Quiescent(Finished(s, es))
    ensures Agree(Finished(s, es).switch)
    decreases es
  {
    if es != [] {
      StepStaysSafeIff(s, es[0]);
      SafeEndsInAgreement(Next(s, es[0]), es[1..]);
    }
  }

  /** Safety is what it claims to be: however the running calls finish, flag and reason
      agree in the end, if and only if the state is safe. */
  lemma SafeIff(s: System, reason: Reason, at: int)
    ensures Safe(s) <==> !MayEndInDisagreement(s)
  {
    if !Safe(s) {
      UnsafeMayEndInDisagreement(s, reason, at);
    } else if MayEndInDisagreement(s) {
      var es :| Finishing(s, es) && Quiescent(Finished(s, es)) && !Agree(Finished(s, es).switch);
      SafeEndsInAgreement(s, es);
    }
  }

  /** An activate overlapped by a whole deactivate ends with a recorded reason and the
      flag down: trading goes on although the switch names a reason to halt. */
  lemma OverlapLosesTheHalt(reason: Reason, at: int)
    ensures var es := [Raise, Drop, Clear, Record(reason, at)];
            Possible(es) && Quiescent(After(es)) && After(es).switch.current.Some? && !After(es).switch.active
  {
    var es := [Raise, Drop, Clear, Record(reason, at)];
    assert es[..3][..2] == [Raise, Drop] && [Raise, Drop][..1] == [Raise] && [Raise][..0] == [];
    assert After([]) == QUIET && After([Raise]) == Next(QUIET, Raise);
    assert After([Raise, Drop]) == Next(After([Raise]), Drop);
    assert After(es[..3]) == Next(After(es[..3][..2]), Clear);
    assert Possible([Raise]) && Possible(es[..3][..2]) && Possible(es[..3]);
  }
}
