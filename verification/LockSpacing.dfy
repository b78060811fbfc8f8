/** No double entry: accepted signals on one contract keep the cooldown, or the
    post-expiry buffer if that is shorter, between them, through any mix of accepts,
    cooldowns and cleanups. */
module LockSpacing {
  import opened Domain
  import opened ContractLock

  /** One accepted signal: when the registry listed its contract, when its lock was seen
      free and when it was locked. */
  datatype Entry = Entry(contract: ContractKey, listedAt: int, checkedAt: int, lockedAt: int)

  /** Registry expiry of each contract; it is kept when a contract is discovered again. */
  type Expiries = ContractKey -> int

  /** A later entry waits for the cooldown, or for the end of the post-expiry buffer of a
      contract that was locked before it expired. */
  predicate FarEnough(cfg: LockConfig, expiry: int, earlier: Entry, later: Entry) {
    || later.checkedAt >= earlier.lockedAt + cfg.cooldownDuration
    || (earlier.lockedAt < expiry && later.checkedAt >= expiry + cfg.postExpiryBuffer)
  }

  ghost predicate Spaced(cfg: LockConfig, log: seq<Entry>, expiries: Expiries) {
    forall i, j :: 0 <= i < j < |log| && log[i].contract == log[j].contract ==>
      FarEnough(cfg, expiries(log[i].contract), log[i], log[j])
  }

  /** The spacing that the configuration alone guarantees. */
  function Spacing(cfg: LockConfig): nat {
    if cfg.cooldownDuration <= cfg.postExpiryBuffer then cfg.cooldownDuration else cfg.postExpiryBuffer + 1
  }

  /** In every case the entries are `Spacing` apart, and a full cooldown apart if the later
      one was seen free before the buffer ended. */
  lemma FarEnoughMeans(cfg: LockConfig, expiry: int, earlier: Entry, later: Entry)
    requires FarEnough(cfg, expiry, earlier, later)
    ensures later.checkedAt >= earlier.lockedAt + Spacing(cfg)
    ensures later.checkedAt < expiry + cfg.postExpiryBuffer ==>
        later.checkedAt >= earlier.lockedAt + cfg.cooldownDuration
  {
  }

  /** The lock of the contract still protects this entry, or the time it had to
      protect has passed. */
  predicate Protects(cfg: LockConfig, l: Locks, e: Entry, expiry: int, now: int) {
    if e.contract in l then
      var r := l[e.contract];
      && r.marketExpiry == Some(expiry)
      && (r.state == Locked || (r.state == Cooldown && r.cooldownUntil.Some? &&
                                r.cooldownUntil.value >= e.lockedAt + cfg.cooldownDuration))
    else
      now >= e.lockedAt + cfg.cooldownDuration || now >= expiry + cfg.postExpiryBuffer
  }

  ghost predicate LocksSound(cfg: LockConfig, l: Locks, log: seq<Entry>, expiries: Expiries, now: int) {
    && (forall i :: 0 <= i < |log| ==>
       log[i].lockedAt <= now && Protects(cfg, l, log[i], expiries(log[i].contract), now))
    && Spaced(cfg, log, expiries)
  }

  /** A contract seen free before its post-expiry buffer has run out is past the
      cooldown of every earlier entry. */
  lemma FreeMeansCooledDown(cfg: LockConfig, l: Locks, log: seq<Entry>, expiries: Expiries, now: int,
          c: ContractKey, at: int, i: nat)
    requires LocksSound(cfg, l, log, expiries, now) && now <= at
    requires i < |log| && log[i].contract == c
    requires StateAt(cfg, l, c, at) == Unlocked
    requires at < expiries(c) + cfg.postExpiryBuffer
    ensures at >= log[i].lockedAt + cfg.cooldownDuration
  {
    assert Protects(cfg, l, log[i], expiries(c), now);
  }

  /** What a new entry must respect: a contract is listed before it expires and after any
      earlier entry of it was locked, and its lock is seen free. It may be judged any time
      after that. */
  ghost predicate MayEnter(cfg: LockConfig, l: Locks, log: seq<Entry>, expiries: Expiries, e: Entry) {
    && e.listedAt < expiries(e.contract)
    && (forall i :: 0 <= i < |log| && log[i].contract == e.contract ==> log[i].lockedAt <= e.listedAt)
    && e.checkedAt <= e.lockedAt
    && StateAt(cfg, l, e.contract, e.checkedAt) == Unlocked
  }

  lemma EntryIsFarEnough(cfg: LockConfig, l: Locks, log: seq<Entry>, expiries: Expiries, now: int, e: Entry, i: nat)
    requires LocksSound(cfg, l, log, expiries, now) && MayEnter(cfg, l, log, expiries, e) && now <= e.checkedAt
    requires i < |log| && log[i].contract == e.contract
    ensures FarEnough(cfg, expiries(e.contract), log[i], e)
  {
    assert Protects(cfg, l, log[i], expiries(e.contract), now);
  }

  lemma AcceptKeepsSound(cfg: LockConfig, l: Locks, log: seq<Entry>, expiries: Expiries, now: int, e: Entry)
    requires LocksSound(cfg, l, log, expiries, now) && MayEnter(cfg, l, log, expiries, e) && now <= e.checkedAt
    ensures LocksSound(cfg, WithLock(l, e.contract, Some(expiries(e.contract)), e.lockedAt),
                       log + [e], expiries, e.lockedAt)
  {
    var l' := WithLock(l, e.contract, Some(expiries(e.contract)), e.lockedAt);
    var log' := log + [e];
    forall i | 0 <= i < |log'|
      ensures log'[i].lockedAt <= e.lockedAt
      ensures Protects(cfg, l', log'[i], expiries(log'[i].contract), e.lockedAt)
    {
      if i < |log| {
        assert Protects(cfg, l, log[i], expiries(log[i].contract), now);
      }
    }
    forall i | 0 <= i < |log| && log[i].contract == e.contract
      ensures FarEnough(cfg, expiries(e.contract), log[i], e)
    {
      EntryIsFarEnough(cfg, l, log, expiries, now, e, i);
    }
  }

  lemma CooldownKeepsSound(cfg: LockConfig, l: Locks, log: seq<Entry>, expiries: Expiries, now: int,
          c: ContractKey, at: int)
    requires LocksSound(cfg, l, log, expiries, now) && now <= at
    ensures LocksSound(cfg, WithCooldown(cfg, l, c, at), log, expiries, at)
  {
    forall i | 0 <= i < |log|
      ensures Protects(cfg, WithCooldown(cfg, l, c, at), log[i], expiries(log[i].contract), at)
    {
      assert Protects(cfg, l, log[i], expiries(log[i].contract), now);
    }
  }

  lemma CleanupKeepsSound(cfg: LockConfig, l: Locks, log: seq<Entry>, expiries: Expiries, now: int, at: int)
    requires LocksSound(cfg, l, log, expiries, now) && now <= at
    ensures LocksSound(cfg, Cleaned(cfg, l, at), log, expiries, at)
  {
    forall i | 0 <= i < |log|
      ensures Protects(cfg, Cleaned(cfg, l, at), log[i], expiries(log[i].contract), at)
    {
      assert Protects(cfg, l, log[i], expiries(log[i].contract), now);
    }
  }

  lemma TimeKeepsSound(cfg: LockConfig, l: Locks, log: seq<Entry>, expiries: Expiries, now: int, at: int)
    requires LocksSound(cfg, l, log, expiries, now) && now <= at
    ensures LocksSound(cfg, l, log, expiries, at)
  {
    forall i | 0 <= i < |log|
      ensures Protects(cfg, l, log[i], expiries(log[i].contract), at)
    {
      assert Protects(cfg, l, log[i], expiries(log[i].contract), now);
    }
  }

  // ----- Runs of the lock service alone --------------------------------------

  datatype LockEvent =
    | Accepted(entry: Entry)
    | CooledDown(c: ContractKey, at: int)
    | CleanedUp(at: int)

  function TimeOf(e: LockEvent): int {
    match e
    case Accepted(entry) => entry.checkedAt
    case CooledDown(_, at) => at
    case CleanedUp(at) => at
  }

  function TimeAfter(now: int, es: seq<LockEvent>): int {
    if es == [] then now
    else
      var e := es[|es| - 1];
      if e.Accepted? then e.entry.lockedAt else TimeOf(e)
  }

  function NextLocks(cfg: LockConfig, expiries: Expiries, l: Locks, e: LockEvent): Locks {
    match e
    case Accepted(entry) => WithLock(l, entry.contract, Some(expiries(entry.contract)), entry.lockedAt)
    case CooledDown(c, at) => WithCooldown(cfg, l, c, at)
    case CleanedUp(at) => Cleaned(cfg, l, at)
  }

  function LocksAfter(cfg: LockConfig, expiries: Expiries, es: seq<LockEvent>): Locks {
    if es == [] then map[] else NextLocks(cfg, expiries, LocksAfter(cfg, expiries, es[..|es| - 1]), es[|es| - 1])
  }

  function LogOf(es: seq<LockEvent>): seq<Entry> {
    if es == [] then []
    else LogOf(es[..|es| - 1]) + if es[|es| - 1].Accepted? then [es[|es| - 1].entry] else []
  }

  /** Time never runs backwards, and accepts meet `MayEnter`. */
  ghost predicate Legal(cfg: LockConfig, expiries: Expiries, now: int, l: Locks, log: seq<Entry>, e: LockEvent) {
    now <= TimeOf(e) && (e.Accepted? ==> MayEnter(cfg, l, log, expiries, e.entry))
  }

  ghost predicate LegalRun(cfg: LockConfig, expiries: Expiries, start: int, es: seq<LockEvent>) {
    es == [] ||
    var before := es[..|es| - 1];
    && LegalRun(cfg, expiries, start, before)
    && Legal(cfg, expiries, TimeAfter(start, before), LocksAfter(cfg, expiries, before), LogOf(before), es[|es| - 1])
  }

  lemma RunExtends(cfg: LockConfig, expiries: Expiries, start: int, es: seq<LockEvent>, e: LockEvent)
    ensures LegalRun(cfg, expiries, start, es + [e])
            <==> LegalRun(cfg, expiries, start, es) &&
                 Legal(cfg, expiries, TimeAfter(start, es), LocksAfter(cfg, expiries, es), LogOf(es), e)
    ensures LogOf(es + [e]) == LogOf(es) + if e.Accepted? then [e.entry] else []
    ensures LocksAfter(cfg, expiries, es + [e]) == NextLocks(cfg, expiries, LocksAfter(cfg, expiries, es), e)
    ensures TimeAfter(start, es + [e]) == if e.Accepted? then e.entry.lockedAt else TimeOf(e)
  {
    assert (es + [e])[..|es|] == es;
  }

  lemma EmptyRun(cfg: LockConfig, expiries: Expiries, start: int)
    ensures LegalRun(cfg, expiries, start, []) && LogOf([]) == [] && LocksAfter(cfg, expiries, []) == map[]
    ensures TimeAfter(start, []) == start
  {
  }

  lemma {:induction false} RunsAreSound(cfg: LockConfig, expiries: Expiries, start: int, es: seq<LockEvent>)
    requires LegalRun(cfg, expiries, start, es)
    ensures LocksSound(cfg, LocksAfter(cfg, expiries, es), LogOf(es), expiries, TimeAfter(start, es))
  {
    if es != [] {
      var before, e := es[..|es| - 1], es[|es| - 1];
      RunsAreSound(cfg, expiries, start, before);
      var l, log, now := LocksAfter(cfg, expiries, before), LogOf(before), TimeAfter(start, before);
      match e {
        case Accepted(entry) => AcceptKeepsSound(cfg, l, log, expiries, now, entry);
        case CooledDown(c, at) => CooldownKeepsSound(cfg, l, log, expiries, now, c, at);
        case CleanedUp(at) => CleanupKeepsSound(cfg, l, log, expiries, now, at);
      }
      assert !e.Accepted? ==> LogOf(es) == log;
    }
  }

  /** Over every legal run two accepts of one contract are spaced: by a full cooldown or,
      once the contract's post-expiry buffer is over, by more than that buffer. */
  lemma AcceptsAreSpaced(cfg: LockConfig, expiries: Expiries, start: int, es: seq<LockEvent>, i: nat, j: nat)
    requires LegalRun(cfg, expiries, start, es)
    requires i < j < |LogOf(es)| && LogOf(es)[i].contract == LogOf(es)[j].contract
    ensures var earlier, later := LogOf(es)[i], LogOf(es)[j];
            && FarEnough(cfg, expiries(earlier.contract), earlier, later)
            && later.checkedAt >= earlier.lockedAt + Spacing(cfg)
  {
    RunsAreSound(cfg, expiries, start, es);
    FarEnoughMeans(cfg, expiries(LogOf(es)[i].contract), LogOf(es)[i], LogOf(es)[j]);
  }

  ghost predicate CooldownApart(cfg: LockConfig, log: seq<Entry>) {
    forall i, j :: 0 <= i < j < |log| && log[i].contract == log[j].contract ==>
      log[j].checkedAt >= log[i].lockedAt + cfg.cooldownDuration
  }

  /** A lock taken right before the expiry stops counting when the buffer ends, and the
      contract is taken again although its candidate was listed before the expiry. */
  function LapsedRun(cfg: LockConfig, c: ContractKey, expiry: int): seq<LockEvent> {
    var last, free := expiry - 1, expiry + cfg.postExpiryBuffer;
    [Accepted(Entry(c, last, last, last))] + [Accepted(Entry(c, last, free, free))]
  }

  lemma LapsedRunIsLegal(cfg: LockConfig, expiries: Expiries, c: ContractKey)
    ensures var es := LapsedRun(cfg, c, expiries(c));
            && LegalRun(cfg, expiries, expiries(c) - 1, es)
            && |LogOf(es)| == 2 && LogOf(es)[0].contract == LogOf(es)[1].contract == c
            && LogOf(es)[1].checkedAt == LogOf(es)[0].lockedAt + cfg.postExpiryBuffer + 1
  {
    var es := LapsedRun(cfg, c, expiries(c));
    hide LegalRun, LogOf, LocksAfter, TimeAfter;
    EmptyRun(cfg, expiries, expiries(c) - 1);
    assert [] + [es[0]] == [es[0]] && es == [es[0]] + [es[1]];
    RunExtends(cfg, expiries, expiries(c) - 1, [], es[0]);
    RunExtends(cfg, expiries, expiries(c) - 1, [es[0]], es[1]);
  }

  /** All accepts of all legal runs are a full cooldown apart exactly when the cooldown
      does not outlast the post-expiry buffer. */
  lemma FullCooldownIff(cfg: LockConfig, expiries: Expiries, c: ContractKey)
    ensures (forall es :: LegalRun(cfg, expiries, expiries(c) - 1, es) ==> CooldownApart(cfg, LogOf(es)))
            <==> cfg.cooldownDuration <= cfg.postExpiryBuffer + 1
  {
    if cfg.cooldownDuration <= cfg.postExpiryBuffer + 1 {
      forall es | LegalRun(cfg, expiries, expiries(c) - 1, es)
        ensures CooldownApart(cfg, LogOf(es))
      {
        RunsAreSound(cfg, expiries, expiries(c) - 1, es);
      }
    } else {
      LapsedRunIsLegal(cfg, expiries, c);
      var es := LapsedRun(cfg, c, expiries(c));
      assert !CooldownApart(cfg, LogOf(es));
    }
  }

  /** Nor is the spacing ever more than the cooldown: an entry whose cooldown starts at
      once may be followed by another exactly one cooldown later. */
  lemma SpacingIsTight(cfg: LockConfig, expiries: Expiries, c: ContractKey)
    requires 0 < expiries(c) && cfg.cooldownDuration < expiries(c)
    ensures var later := cfg.cooldownDuration;
            var es := [Accepted(Entry(c, 0, 0, 0))] + [CooledDown(c, 0)] + [Accepted(Entry(c, later, later, later))];
            && LegalRun(cfg, expiries, 0, es)
            && LogOf(es) == [Entry(c, 0, 0, 0), Entry(c, later, later, later)]
  {
    var later := cfg.cooldownDuration;
    var first, second := Accepted(Entry(c, 0, 0, 0)), CooledDown(c, 0);
    hide LegalRun, LogOf, LocksAfter, TimeAfter;
    EmptyRun(cfg, expiries, 0);
    assert [] + [first] == [first];
    RunExtends(cfg, expiries, 0, [], first);
    RunExtends(cfg, expiries, 0, [first], second);
    RunExtends(cfg, expiries, 0, [first] + [second], Accepted(Entry(c, later, later, later)));
  }
}
