/** The client side of the run lock: the classes of run_lock.py over one Redis server. */
module RunLocks {
  import opened Wrappers
  import opened RedisStore

  /** What became of each of the four requests one `LockManager.acquire` may send. */
  datatype Links = Links(set_: Link, get: Link, exists_: Link, eval: Link)

  const ALL_DELIVERED := Links(Delivered, Delivered, Delivered, Delivered)

  /** The store left behind, the answer, and whether the stale-lock path took the lock. */
  datatype Attempt = Attempt(store: Store, acquired: bool, recovered: bool)

  /** Whether a lock that was read is judged stale: too old, or its named owner has no heartbeat. */
  predicate JudgedStale(st: Store, now: real, lock: Lock, exists_: Link) {
    || now - lock.acquiredAt > LOCK_STALE_THRESHOLD
    || (lock.owner != "" && exists_ == Delivered && !BeatLive(st, now, lock.owner))
  }

  /** `StaleLockRecovery.check_and_recover` with no clock tick inside. */
  function RecoverOutcome(st: Store, now: real, me: string, symbol: string, links: Links): Attempt {
    var seen := GetLock(st, now, symbol);
    if links.get != Delivered || seen.None? || !JudgedStale(st, now, seen.value, links.exists_) then
      Attempt(st, false, false)
    else
      var (after, ok) := RecoverScript(st, now, symbol, me, now, seen.value.owner);
      var (left, reply) := Via(links.eval, st, after, ok);
      var took := reply == Success(true);
      Attempt(left, took, took)
  }

  /**
   `LockManager.acquire` with no clock tick inside. Under any pattern of lost requests and replies a client that is
   told it has the lock has it, no other symbol's key changes, and a store that changed names the caller.
   When every request is served it succeeds exactly when the lock is free or judged stale.
   */
  function AcquireOutcome(st: Store, now: real, me: string, symbol: string, links: Links): (a: Attempt)
    ensures a.acquired ==> GetLock(a.store, now, symbol) == Some(Lock(me, now, now + 90.0))
    ensures a.store == st || GetLock(a.store, now, symbol) == Some(Lock(me, now, now + 90.0))
    ensures a.store.locks - {symbol} == st.locks - {symbol} && a.store.beats == st.beats
    ensures links == ALL_DELIVERED ==>
              var seen := GetLock(st, now, symbol);
              && (a.acquired <==> seen.None? || JudgedStale(st, now, seen.value, Delivered))
              && (a.recovered <==> a.acquired && seen.Some?)
              && (!a.acquired ==> a.store == st)
  {
    var (after, ok) := SetLockNx(st, now, symbol, me, now);
    var (left, reply) := Via(links.set_, st, after, ok);
    if reply == Success(true) then Attempt(left, true, false)
    else RecoverOutcome(left, now, me, symbol, links)
  }

  /** The store after a release. */
  function Released(st: Store, now: real, symbol: string, me: string, link: Link): Store {
    if link == NotSent then st else ReleaseScript(st, now, symbol, me).0
  }

  class RunLock {
    const redis: Server
    const instanceId: string

    constructor (redis: Server, instanceId: string)
      ensures this.redis == redis && this.instanceId == instanceId
    {
      this.redis := redis;
      this.instanceId := instanceId;
    }

    method Acquire(symbol: string, link: Link) returns (acquired: bool)
      modifies redis`store
      ensures var (after, ok) := SetLockNx(old(redis.store), redis.now, symbol, instanceId, redis.now);
              var (left, reply) := Via(link, old(redis.store), after, ok);
              redis.store == left && acquired == (reply == Success(true))
    {
      var result := redis.SetNx(symbol, instanceId, redis.now, link);
      acquired := result.Success? && result.value;
    }

    /** Deletes the lock if and only if this instance owns it; any other lock stays. */
    method Release(symbol: string, link: Link) returns (released: bool)
      modifies redis`store
      ensures link == Delivered ==>
                (released <==> exists lock :: GetLock(old(redis.store), redis.now, symbol) == Some(lock)
                                           && lock.owner == instanceId)
      ensures released ==> redis.store == DeleteLock(old(redis.store), symbol)
      ensures !released && link != ReplyLost ==> redis.store == old(redis.store)
      ensures redis.store == Released(old(redis.store), redis.now, symbol, instanceId, link)
    {
      var result := redis.EvalRelease(symbol, instanceId, link);
      released := result.Success? && result.value;
    }
  }

  class HeartbeatManager {
    const redis: Server
    const instanceId: string

    constructor (redis: Server, instanceId: string)
      ensures this.redis == redis && this.instanceId == instanceId
    {
      this.redis := redis;
      this.instanceId := instanceId;
    }

    /** One iteration of the heartbeat loop: this instance, and no other, counts as alive for the next 30 seconds. */
    method Beat(link: Link)
      modifies redis`store
      ensures forall t :: BeatLive(redis.store, t, instanceId) <==>
                if link == NotSent then BeatLive(old(redis.store), t, instanceId) else t < redis.now + 30.0
      ensures forall id, t :: id != instanceId ==> (BeatLive(redis.store, t, id) <==> BeatLive(old(redis.store), t, id))
      ensures redis.store.locks == old(redis.store).locks
    {
      if link != NotSent {
        redis.store := SetBeat(redis.store, redis.now, instanceId);
      }
    }

    /** From now on this instance, and no other, counts as dead. */
    method Stop(link: Link)
      modifies redis`store
      ensures forall t :: BeatLive(redis.store, t, instanceId) <==>
                link == NotSent && BeatLive(old(redis.store), t, instanceId)
      ensures forall id, t :: id != instanceId ==> (BeatLive(redis.store, t, id) <==> BeatLive(old(redis.store), t, id))
      ensures redis.store.locks == old(redis.store).locks
    {
      if link != NotSent {
        redis.store := DeleteBeat(redis.store, instanceId);
      }
    }
  }

  class StaleLockRecovery {
    const redis: Server
    const instanceId: string
    var recoveredCount: nat

    constructor (redis: Server, instanceId: string)
      ensures this.redis == redis && this.instanceId == instanceId && recoveredCount == 0
    {
      this.redis := redis;
      this.instanceId := instanceId;
      this.recoveredCount := 0;
    }

    method CheckAndRecover(symbol: string, links: Links) returns (taken: bool)
      modifies this`recoveredCount, redis`store
      ensures var a := RecoverOutcome(old(redis.store), redis.now, instanceId, symbol, links);
              redis.store == a.store && taken == a.acquired
      ensures recoveredCount == old(recoveredCount) + if taken then 1 else 0
    {
      var raw := redis.Get(symbol, links.get);
      if raw.Failure? || raw.value.None? {
        return false;
      }
      var lock := raw.value.value;
      var shouldRecover := redis.now - lock.acquiredAt > LOCK_STALE_THRESHOLD;
      if !shouldRecover && lock.owner != "" {
        var alive := redis.Exists(lock.owner, links.exists_);
        shouldRecover := alive.Success? && !alive.value;
      }
      if !shouldRecover {
        return false;
      }
      var result := redis.EvalRecover(symbol, instanceId, redis.now, lock.owner, links.eval);
      taken := result.Success? && result.value;
      if taken {
        recoveredCount := recoveredCount + 1;
      }
    }
  }

  class LockManager {
    const redis: Server
    const instanceId: string
    const lock: RunLock
    const recovery: StaleLockRecovery
    const heartbeat: HeartbeatManager

    ghost predicate Valid() {
      && lock.redis == redis && lock.instanceId == instanceId
      && recovery.redis == redis && recovery.instanceId == instanceId
      && heartbeat.redis == redis && heartbeat.instanceId == instanceId
    }

    constructor (redis: Server, instanceId: string)
      ensures Valid() && this.redis == redis && this.instanceId == instanceId
      ensures recovery.recoveredCount == 0 && fresh(recovery)
    {
      this.redis := redis;
      this.instanceId := instanceId;
      lock := new RunLock(redis, instanceId);
      recovery := new StaleLockRecovery(redis, instanceId);
      heartbeat := new HeartbeatManager(redis, instanceId);
    }

    method Acquire(symbol: string, links: Links) returns (acquired: bool)
      requires Valid()
      modifies redis`store, recovery`recoveredCount
      ensures var a := AcquireOutcome(old(redis.store), redis.now, instanceId, symbol, links);
              && redis.store == a.store && acquired == a.acquired
              && recovery.recoveredCount == old(recovery.recoveredCount) + if a.recovered then 1 else 0
    {
      acquired := lock.Acquire(symbol, links.set_);
      if !acquired {
        acquired := recovery.CheckAndRecover(symbol, links);
      }
    }

    method Release(symbol: string, link: Link) returns (released: bool)
      requires Valid()
      modifies redis`store
      ensures link == Delivered ==>
                (released <==> exists lock :: GetLock(old(redis.store), redis.now, symbol) == Some(lock)
                                           && lock.owner == instanceId)
      ensures released ==> redis.store == DeleteLock(old(redis.store), symbol)
      ensures redis.store == Released(old(redis.store), redis.now, symbol, instanceId, link)
    {
      released := lock.Release(symbol, link);
    }
  }
}
