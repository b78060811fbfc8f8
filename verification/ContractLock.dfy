/** Per-contract locks with lazy expiry and an eager cleanup task. Times and
    durations are in milliseconds; the current time is passed in. */
module ContractLock {
  import opened Domain

  datatype LockRecord = LockRecord(
    state: LockState,
    changedAt: int,
    cooldownUntil: Option<int>,
    marketExpiry: Option<int>)

  type Locks = map<ContractKey, LockRecord>

  datatype LockConfig = LockConfig(postExpiryBuffer: nat, cooldownDuration: nat)

  // ----- Reading a record ---------------------------------------------------

  predicate CooldownOver(r: LockRecord, now: int) {
    r.state == Cooldown && r.cooldownUntil.Some? && now >= r.cooldownUntil.value
  }

  predicate MarketOver(cfg: LockConfig, r: LockRecord, now: int) {
    r.marketExpiry.Some? && now >= r.marketExpiry.value + cfg.postExpiryBuffer
  }

  predicate Expired(cfg: LockConfig, r: LockRecord, now: int) {
    CooldownOver(r, now) || MarketOver(cfg, r, now)
  }

  function StateAt(cfg: LockConfig, l: Locks, c: ContractKey, now: int): LockState {
    if c !in l || Expired(cfg, l[c], now) then Unlocked else l[c].state
  }

  // ----- What each operation does to the map --------------------------------

  function WithLock(l: Locks, c: ContractKey, expiry: Option<int>, now: int): Locks {
    l[c := LockRecord(Locked, now, None, expiry)]
  }

  function WithCooldown(cfg: LockConfig, l: Locks, c: ContractKey, now: int): Locks {
    if c in l
    then l[c := LockRecord(Cooldown, now, Some(now + cfg.cooldownDuration), l[c].marketExpiry)]
    else l
  }

  function WithLoadedLocks(l: Locks, contracts: seq<(ContractKey, Option<int>)>, now: int): Locks {
    if contracts == [] then l
    else
      var (c, expiry) := contracts[|contracts| - 1];
      WithLock(WithLoadedLocks(l, contracts[..|contracts| - 1], now), c, expiry, now)
  }

  function Cleaned(cfg: LockConfig, l: Locks, now: int): Locks {
    map c | c in l && !Expired(cfg, l[c], now) :: l[c]
  }

  // ----- The service --------------------------------------------------------

  class ContractLockService {
    var locks: Locks
    const config: LockConfig

    constructor (config: LockConfig)
      ensures this.config == config && locks == map[]
    {
      this.config := config;
      locks := map[];
    }

    function LockStateOf(c: ContractKey, now: int): (s: LockState)
      reads this
      ensures s == StateAt(config, locks, c, now)
    {
      if c !in locks then Unlocked
      else
        var record := locks[c];
        if record.state == Cooldown && record.cooldownUntil.Some? && now >= record.cooldownUntil.value then Unlocked
        else if record.marketExpiry.Some? && now >= record.marketExpiry.value + config.postExpiryBuffer then Unlocked
        else record.state
    }

    predicate IsTradeable(c: ContractKey, now: int)
      reads this
    {
      LockStateOf(c, now) == Unlocked
    }

    method Lock(c: ContractKey, marketExpiry: Option<int>, now: int)
      modifies this`locks
      ensures locks == WithLock(old(locks), c, marketExpiry, now)
    {
      locks := locks[c := LockRecord(Locked, now, None, marketExpiry)];
    }

    method StartCooldown(c: ContractKey, now: int)
      modifies this`locks
      ensures locks == WithCooldown(config, old(locks), c, now)
    {
      if c in locks {
        var record := locks[c];
        record := record.(state := Cooldown);
        record := record.(changedAt := now);
        record := record.(cooldownUntil := Some(now + config.cooldownDuration));
        locks := locks[c := record];
      }
    }

    method Unlock(c: ContractKey)
      modifies this`locks
      ensures locks == old(locks) - {c}
    {
      locks := locks - {c};
    }

    method CleanupExpired(now: int)
      modifies this`locks
      ensures locks == Cleaned(config, old(locks), now)
    {
      locks := map c | c in locks && Retained(locks[c], now) :: locks[c];
    }

    predicate Retained(record: LockRecord, now: int)
      reads this
      ensures Retained(record, now) == !Expired(config, record, now)
    {
      if record.state == Cooldown && record.cooldownUntil.Some? && now >= record.cooldownUntil.value then false
      else if record.marketExpiry.Some? && now >= record.marketExpiry.value + config.postExpiryBuffer then false
      else true
    }

    method Clear()
      modifies this`locks
      ensures locks == map[]
    {
      locks := map[];
    }

    method LoadFromReconciliation(contracts: seq<(ContractKey, Option<int>)>, now: int)
      modifies this`locks
      ensures locks == WithLoadedLocks(old(locks), contracts, now)
    {
      for i := 0 to |contracts|
        invariant locks == WithLoadedLocks(old(locks), contracts[..i], now)
      {
        assert contracts[..i + 1][..i] == contracts[..i];
        var (c, expiry) := contracts[i];
        locks := locks[c := LockRecord(Locked, now, None, expiry)];
      }
      assert contracts[..|contracts|] == contracts;
    }
  }
}
