/** src/damm/lock.service.ts: one lock per (pool, owner) in the 'DAMMLock' entity store. */
module DammLockService {
  import opened Wrappers
  import opened Entities
  import opened Store
  import opened Utils

  predicate LocksKeyed(entries: map<string, DammLock>) {
    forall k :: k in entries ==> entries[k].id == k
  }

  function GetOrCreateLockIn(locks: StoreState<DammLock>, owner: string, pool: DammPool, timestamp: nat)
    : (StoreState<DammLock>, DammLock)
  {
    var id := CreateLockId(pool.id, owner);
    match locks.Find(id)
    case Some(l) => (locks, l)
    case None =>
      var l := DammLock(id, pool.id, owner, 0, timestamp * 1000, timestamp * 1000);
      (locks.Save(l.id, l), l)
  }

  /** `updateLock`: amount and update time change, nothing else. */
  function WithAmount(lock: DammLock, amount: int, timestamp: nat): (l: DammLock)
    ensures l.amount == amount && l.updatedAt == timestamp * 1000
    ensures l.id == lock.id && l.pool == lock.pool && l.owner == lock.owner && l.createdAt == lock.createdAt
  {
    lock.(amount := amount, updatedAt := timestamp * 1000)
  }

  /** First call wins; a new lock is empty with equal times; its id splits back into pool and owner. */
  lemma GetOrCreateLockSpec(locks: StoreState<DammLock>, owner: string, pool: DammPool, timestamp: nat, timestamp2: nat)
    requires locks.Valid() && !locks.isEvent && LocksKeyed(locks.entries)
    ensures var (after, l) := GetOrCreateLockIn(locks, owner, pool, timestamp);
      && after.Find(l.id) == Some(l) && LocksKeyed(after.entries)
      && (CreateLockId(pool.id, owner) !in locks.entries ==>
            l.amount == 0 && l.createdAt == l.updatedAt == timestamp * 1000 && l.owner == owner && l.pool == pool.id)
      && ('-' !in owner ==> SplitAtLastDash(l.id) == Some((pool.id, owner)))
      && GetOrCreateLockIn(after, owner, pool, timestamp2) == (after, l)
  {
    if '-' !in owner {
      LockIdRoundTrip(pool.id, owner);
    }
  }

  class LockService {
    var locks: StoreState<DammLock>

    ghost predicate Valid()
      reads this
    {
      locks.Valid() && !locks.isEvent && LocksKeyed(locks.entries)
    }

    constructor()
      ensures Valid() && locks == Empty(false)
    {
      locks := Empty(false);
    }

    method GetOrCreateLock(owner: string, pool: DammPool, timestamp: nat) returns (lock: DammLock)
      requires Valid()
      modifies this
      ensures Valid()
      ensures (locks, lock) == GetOrCreateLockIn(old(locks), owner, pool, timestamp)
    {
      var id := pool.id + "-" + owner;
      var found := locks.Find(id);
      if found.Some? {
        return found.value;
      }
      lock := DammLock(id, pool.id, owner, 0, timestamp * 1000, timestamp * 1000);
      locks := locks.Save(lock.id, lock);
    }

    method UpdateLock(lock: DammLock, amount: int, timestamp: nat) returns (updated: DammLock)
      requires Valid()
      modifies this
      ensures Valid()
      ensures updated == WithAmount(lock, amount, timestamp)
      ensures locks == old(locks).Save(lock.id, updated)
    {
      updated := lock.(amount := amount, updatedAt := timestamp * 1000);
      locks := locks.Save(updated.id, updated);
    }
  }
}
