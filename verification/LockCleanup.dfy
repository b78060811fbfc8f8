/** The cleanup task is invisible: removing expired records early never changes an
    answer, as long as cooldowns are not started on a record whose own cooldown ran
    out. Proved by simulating a run with cleanups against the run without. */
module LockCleanup {
  import opened Domain
  import opened ContractLock

  datatype Op =
    | Lock(c: ContractKey, expiry: Option<int>)
    | StartCooldown(c: ContractKey)
    | Unlock(c: ContractKey)
    | Load(contracts: seq<(ContractKey, Option<int>)>)
    | Clear
    | Cleanup
    | Query(c: ContractKey)

  datatype Timed = Timed(at: int, op: Op)

  function Apply(cfg: LockConfig, l: Locks, e: Timed): Locks {
    match e.op
    case Lock(c, expiry) => WithLock(l, c, expiry, e.at)
    case StartCooldown(c) => WithCooldown(cfg, l, c, e.at)
    case Unlock(c) => l - {c}
    case Load(contracts) => WithLoadedLocks(l, contracts, e.at)
    case Clear => map[]
    case Cleanup => Cleaned(cfg, l, e.at)
    case Query(_) => l
  }

  /** What the queries of a run answer. */
  function Answers(cfg: LockConfig, l: Locks, es: seq<Timed>): seq<LockState>
    decreases es
  {
    if es == [] then []
    else
      (if es[0].op.Query? then [StateAt(cfg, l, es[0].op.c, es[0].at)] else []) +
      Answers(cfg, Apply(cfg, l, es[0]), es[1..])
  }

  function QueryCount(es: seq<Timed>): nat {
    if es == [] then 0 else QueryCount(es[..|es| - 1]) + if es[|es| - 1].op.Query? then 1 else 0
  }

  /** The map after these operations. */
  function AfterAll(cfg: LockConfig, l: Locks, es: seq<Timed>): Locks {
    if es == [] then l else Apply(cfg, AfterAll(cfg, l, es[..|es| - 1]), es[|es| - 1])
  }

  lemma {:induction false} FirstThenRest(cfg: LockConfig, l: Locks, es: seq<Timed>)
    requires es != []
    ensures AfterAll(cfg, l, es) == AfterAll(cfg, Apply(cfg, l, es[0]), es[1..])
  {
    hide Apply;
    if |es| > 1 {
      FirstThenRest(cfg, l, es[..|es| - 1]);
      assert es[1..][..|es| - 2] == es[..|es| - 1][1..];
    }
  }

  lemma {:induction false} AnswersExtend(cfg: LockConfig, l: Locks, es: seq<Timed>, e: Timed)
    ensures Answers(cfg, l, es + [e]) ==
            Answers(cfg, l, es) + if e.op.Query? then [StateAt(cfg, AfterAll(cfg, l, es), e.op.c, e.at)] else []
    decreases es
  {
    hide Apply, StateAt;
    if es == [] {
      assert [e][1..] == [];
    } else {
      assert (es + [e])[1..] == es[1..] + [e];
      AnswersExtend(cfg, Apply(cfg, l, es[0]), es[1..], e);
      FirstThenRest(cfg, l, es);
    }
  }

  /** Each query of a run is answered, and by the state its contract has in the map the
      operations before it have led to. */
  lemma {:induction false} QueriesAreAnswered(cfg: LockConfig, l: Locks, es: seq<Timed>)
    ensures |Answers(cfg, l, es)| == QueryCount(es)
    ensures es != [] && es[|es| - 1].op.Query? ==>
              var q, answers := es[|es| - 1], Answers(cfg, l, es);
              && answers != []
              && answers[|answers| - 1] == StateAt(cfg, AfterAll(cfg, l, es[..|es| - 1]), q.op.c, q.at)
  {
    if es != [] {
      var before, last := es[..|es| - 1], es[|es| - 1];
      QueriesAreAnswered(cfg, l, before);
      assert es == before + [last];
      AnswersExtend(cfg, l, before, last);
    }
  }

  function WithoutCleanups(es: seq<Timed>): seq<Timed> {
    if es == [] then []
    else (if es[0].op.Cleanup? then [] else [es[0]]) + WithoutCleanups(es[1..])
  }

  predicate Ordered(es: seq<Timed>, from: int) {
    es == [] || (from <= es[0].at && Ordered(es[1..], es[0].at))
  }

  // ----- The simulation relation --------------------------------------------

  /** `kept` is the map without cleanups, `cleaned` the map with them: equal, except
      that records expired by now may be missing. */
  ghost predicate Related(cfg: LockConfig, kept: Locks, cleaned: Locks, now: int) {
    && (forall c :: c in cleaned ==> c in kept && cleaned[c] == kept[c])
    && (forall c :: c in kept && c !in cleaned ==> Expired(cfg, kept[c], now))
  }

  /** The one call that tells the two maps apart: a new cooldown on a record whose
      cooldown ran out while its market is still open. */
  predicate ReopensCooldown(cfg: LockConfig, kept: Locks, c: ContractKey, now: int) {
    c in kept && CooldownOver(kept[c], now) && !MarketOver(cfg, kept[c], now) && cfg.cooldownDuration > 0
  }

  predicate CleanupSafe(cfg: LockConfig, kept: Locks, e: Timed) {
    e.op.StartCooldown? ==> !ReopensCooldown(cfg, kept, e.op.c, e.at)
  }

  /** A cleanup takes away exactly the records whose cooldown or post-expiry buffer is over, and
      a query takes nothing away. */
  lemma CleanupRemovesExpired(cfg: LockConfig, l: Locks, at: int, c: ContractKey)
    ensures var l' := Apply(cfg, l, Timed(at, Cleanup));
            && (c in l' <==>
                  && c in l
                  && (l[c].state == Cooldown && l[c].cooldownUntil.Some? ==> at < l[c].cooldownUntil.value)
                  && (l[c].marketExpiry.Some? ==> at < l[c].marketExpiry.value + cfg.postExpiryBuffer))
            && (c in l' ==> l'[c] == l[c])
    ensures Apply(cfg, l, Timed(at, Query(c))) == l
  {
  }

  lemma RelatedAgree(cfg: LockConfig, kept: Locks, cleaned: Locks, now: int, c: ContractKey, later: int)
    requires Related(cfg, kept, cleaned, now) && now <= later
    ensures StateAt(cfg, kept, c, later) == StateAt(cfg, cleaned, c, later)
    ensures Related(cfg, kept, cleaned, later)
  {
  }

  lemma {:induction false} LoadKeepsRelated(cfg: LockConfig, kept: Locks, cleaned: Locks,
          contracts: seq<(ContractKey, Option<int>)>, at: int)
    requires Related(cfg, kept, cleaned, at)
    ensures Related(cfg, WithLoadedLocks(kept, contracts, at), WithLoadedLocks(cleaned, contracts, at), at)
  {
    if contracts != [] {
      LoadKeepsRelated(cfg, kept, cleaned, contracts[..|contracts| - 1], at);
    }
  }

  lemma StepKeepsRelated(cfg: LockConfig, kept: Locks, cleaned: Locks, now: int, e: Timed)
    requires Related(cfg, kept, cleaned, now) && now <= e.at
    requires CleanupSafe(cfg, kept, e)
    ensures Related(cfg, if e.op.Cleanup? then kept else Apply(cfg, kept, e), Apply(cfg, cleaned, e), e.at)
  {
    RelatedLater(cfg, kept, cleaned, now, e.at);
    if e.op.Load? {
      LoadKeepsRelated(cfg, kept, cleaned, e.op.contracts, e.at);
    }
  }

  lemma RelatedLater(cfg: LockConfig, kept: Locks, cleaned: Locks, now: int, later: int)
    requires Related(cfg, kept, cleaned, now) && now <= later
    ensures Related(cfg, kept, cleaned, later)
  {
  }

  /** The guard, checked along the run without cleanups. */
  predicate SafeRun(cfg: LockConfig, kept: Locks, es: seq<Timed>)
    decreases es
  {
    es == [] ||
    (CleanupSafe(cfg, kept, es[0]) &&
     SafeRun(cfg, if es[0].op.Cleanup? then kept else Apply(cfg, kept, es[0]), es[1..]))
  }

  lemma {:induction false} RelatedRunsAgree(cfg: LockConfig, kept: Locks, cleaned: Locks, now: int, es: seq<Timed>)
    requires Related(cfg, kept, cleaned, now) && Ordered(es, now) && SafeRun(cfg, kept, es)
    ensures Answers(cfg, cleaned, es) == Answers(cfg, kept, WithoutCleanups(es))
    decreases es
  {
    if es != [] {
      var e := es[0];
      StepKeepsRelated(cfg, kept, cleaned, now, e);
      RelatedRunsAgree(cfg, if e.op.Cleanup? then kept else Apply(cfg, kept, e), Apply(cfg, cleaned, e), e.at, es[1..]);
      if e.op.Cleanup? {
        assert WithoutCleanups(es) == WithoutCleanups(es[1..]);
      } else {
        assert WithoutCleanups(es)[0] == e && WithoutCleanups(es)[1..] == WithoutCleanups(es[1..]);
      }
      if e.op.Query? {
        RelatedAgree(cfg, kept, cleaned, now, e.op.c, e.at);
      }
    }
  }

  /** Every query of a run is answered as if the cleanup task did not exist. */
  lemma CleanupIsInvisible(cfg: LockConfig, l: Locks, es: seq<Timed>, start: int)
    requires Ordered(es, start) && SafeRun(cfg, l, es)
    ensures Answers(cfg, l, es) == Answers(cfg, l, WithoutCleanups(es))
  {
    RelatedRunsAgree(cfg, l, l, start, es);
  }

  /** And the guard is exact: a cleanup just before a cooldown goes unnoticed at all
      later times if and only if the cooldown does not reopen an expired one. */
  lemma CleanupBeforeCooldownIff(cfg: LockConfig, l: Locks, c: ContractKey, at: int)
    ensures (forall later :: later >= at ==>
               StateAt(cfg, WithCooldown(cfg, Cleaned(cfg, l, at), c, at), c, later)
               == StateAt(cfg, WithCooldown(cfg, l, c, at), c, later))
            <==> !ReopensCooldown(cfg, l, c, at)
  {
    if ReopensCooldown(cfg, l, c, at) {
      assert StateAt(cfg, WithCooldown(cfg, Cleaned(cfg, l, at), c, at), c, at) == Unlocked;
      assert StateAt(cfg, WithCooldown(cfg, l, c, at), c, at) == Cooldown;
    }
  }

  /** In particular a cooldown on any contract that is not observably Unlocked is safe. */
  lemma CooldownOnHeldLockIsSafe(cfg: LockConfig, l: Locks, c: ContractKey, at: int)
    requires StateAt(cfg, l, c, at) != Unlocked
    ensures CleanupSafe(cfg, l, Timed(at, StartCooldown(c)))
  {
  }
}
