/**
 * src/damm/pool.service.ts: base pools and DAMM pools, looked up in the
 * in-batch cache first and in the durable store (the database, read-only
 * during a batch) second; a durable hit is copied into the cache.
 */
module DammPoolService {
  import opened Wrappers
  import opened Entities
  import opened Store

  /** Every cached base pool sits under its own id. */
  predicate BasePoolsKeyed(entries: map<string, BasePool>) {
    forall k :: k in entries ==> entries[k].id == k
  }

  predicate DammPoolsKeyed(entries: map<string, DammPool>) {
    forall k :: k in entries ==> entries[k].id == k
  }

  /**
   * `find` / `findDammPool`: the cached entity, else the durable one (which
   * is then saved into the cache), else nothing.  Returns the cache afterwards.
   */
  function CachedFind<T>(cache: StoreState<T>, durable: map<string, T>, id: string): (StoreState<T>, Option<T>) {
    if id in cache.entries then (cache, Some(cache.entries[id]))
    else if id in durable then (cache.Save(id, durable[id]), Some(durable[id]))
    else (cache, None)
  }

  /** Absent only when neither tier has the id; the cache is consulted first; a durable hit is promoted. */
  lemma CachedFindTiers<T>(cache: StoreState<T>, durable: map<string, T>, id: string)
    requires !cache.isEvent
    ensures CachedFind(cache, durable, id).1.None? <==> id !in cache.entries && id !in durable
    ensures id in cache.entries ==> CachedFind(cache, durable, id) == (cache, Some(cache.entries[id]))
    ensures id !in cache.entries && id in durable ==>
      CachedFind(cache, durable, id).1 == Some(durable[id])
      && CachedFind(cache, durable, id).0.Find(id) == Some(durable[id])
    ensures CachedFind(cache, durable, id).1.None? ==> CachedFind(cache, durable, id).0 == cache
  {
  }

  /** Looking the same id up twice gives the same entity, and the second lookup changes nothing. */
  lemma CachedFindIdempotent<T>(cache: StoreState<T>, durable: map<string, T>, id: string)
    requires !cache.isEvent
    ensures var (after, found) := CachedFind(cache, durable, id);
      CachedFind(after, durable, id) == (after, found)
  {
  }

  function NewBasePool(poolId: string, tokenX: string, tokenY: string, tokenXVault: string, tokenYVault: string,
                       reserveX: int, reserveY: int, timestamp: nat): BasePool
  {
    BasePool(poolId, tokenX, tokenY, tokenXVault, tokenYVault, reserveX, reserveY, 0, true, timestamp * 1000, timestamp * 1000)
  }

  /** `getOrCreateBasePool`: the pool `find` yields, else a new one saved into the cache. */
  function GetOrCreateBasePoolIn(cache: StoreState<BasePool>, durable: map<string, BasePool>,
                               poolId: string, tokenX: string, tokenY: string, tokenXVault: string, tokenYVault: string,
                               reserveX: int, reserveY: int, timestamp: nat): (StoreState<BasePool>, BasePool)
  {
    var (cache', found) := CachedFind(cache, durable, poolId);
    match found
    case Some(p) => (cache', p)
    case None =>
      var p := NewBasePool(poolId, tokenX, tokenY, tokenXVault, tokenYVault, reserveX, reserveY, timestamp);
      (cache'.Save(p.id, p), p)
  }

  /**
   * A new base pool carries the given tokens, vaults and reserves, no
   * liquidity, status true and equal creation and update times; it is then
   * what the cache holds under its id.
   */
  lemma GetOrCreateBasePoolNew(cache: StoreState<BasePool>, durable: map<string, BasePool>,
                               poolId: string, tokenX: string, tokenY: string, tokenXVault: string, tokenYVault: string,
                               reserveX: int, reserveY: int, timestamp: nat)
    requires !cache.isEvent && poolId !in cache.entries && poolId !in durable
    ensures var (after, p) := GetOrCreateBasePoolIn(cache, durable, poolId, tokenX, tokenY, tokenXVault, tokenYVault, reserveX, reserveY, timestamp);
      && p.id == poolId && p.tokenX == tokenX && p.tokenY == tokenY
      && p.tokenXVault == tokenXVault && p.tokenYVault == tokenYVault
      && p.reserveX == reserveX && p.reserveY == reserveY
      && p.totalLiquidity == 0 && p.status && p.createdAt == p.updatedAt == timestamp * 1000
      && after.Find(poolId) == Some(p)
  {
  }

  /** A second get-or-create, with any arguments, returns the first pool and leaves the cache alone. */
  lemma GetOrCreateBasePoolIdempotent(cache: StoreState<BasePool>, durable: map<string, BasePool>,
                                      poolId: string, tokenX: string, tokenY: string, tokenXVault: string, tokenYVault: string,
                                      reserveX: int, reserveY: int, timestamp: nat,
                                      tokenX2: string, tokenY2: string, tokenXVault2: string, tokenYVault2: string,
                                      reserveX2: int, reserveY2: int, timestamp2: nat)
    requires !cache.isEvent
    ensures var (after, p) := GetOrCreateBasePoolIn(cache, durable, poolId, tokenX, tokenY, tokenXVault, tokenYVault, reserveX, reserveY, timestamp);
      GetOrCreateBasePoolIn(after, durable, poolId, tokenX2, tokenY2, tokenXVault2, tokenYVault2, reserveX2, reserveY2, timestamp2) == (after, p)
  {
  }

  /** The DAMM pool record; `lpMint` is passed but the entity has no column for it. */
  function NewDammPool(poolId: string, basePool: BasePool, aVault: string, bVault: string,
                       aVaultLpMint: string, bVaultLpMint: string): DammPool
  {
    DammPool(poolId, basePool.id, aVault, bVault, aVaultLpMint, bVaultLpMint, "0")
  }

  /** `getOrCreateDammPool` (the pool id is the address, `createPoolId` being the identity on canonical addresses). */
  function GetOrCreateDammPoolIn(cache: StoreState<DammPool>, durable: map<string, DammPool>,
                               poolAddress: string, basePool: BasePool, lpMint: string, aVault: string, bVault: string,
                               aVaultLpMint: string, bVaultLpMint: string): (StoreState<DammPool>, DammPool)
  {
    var (cache', found) := CachedFind(cache, durable, poolAddress);
    match found
    case Some(p) => (cache', p)
    case None =>
      var p := NewDammPool(poolAddress, basePool, aVault, bVault, aVaultLpMint, bVaultLpMint);
      (cache'.Save(p.id, p), p)
  }

  /** A new DAMM pool has curve type "0" and points at its base pool; a second call returns it unchanged. */
  lemma GetOrCreateDammPoolSpec(cache: StoreState<DammPool>, durable: map<string, DammPool>,
                                poolAddress: string, basePool: BasePool, lpMint: string, aVault: string, bVault: string,
                                aVaultLpMint: string, bVaultLpMint: string,
                                basePool2: BasePool, lpMint2: string, aVault2: string, bVault2: string,
                                aVaultLpMint2: string, bVaultLpMint2: string)
    requires !cache.isEvent
    ensures var (after, p) := GetOrCreateDammPoolIn(cache, durable, poolAddress, basePool, lpMint, aVault, bVault, aVaultLpMint, bVaultLpMint);
      && after.Find(poolAddress) == Some(p)
      && (poolAddress !in cache.entries && poolAddress !in durable ==>
            p.id == poolAddress && p.curveType == "0" && p.basePool == basePool.id
            && p.aVault == aVault && p.bVault == bVault)
      && GetOrCreateDammPoolIn(after, durable, poolAddress, basePool2, lpMint2, aVault2, bVault2, aVaultLpMint2, bVaultLpMint2) == (after, p)
  {
  }

  /** `updateBasePool`: the new reserves, liquidity, status and update time; nothing else changes. */
  function UpdatedBasePool(pool: BasePool, reserveX: int, reserveY: int, totalLiquidity: int, status: bool, timestamp: nat): (p: BasePool)
    ensures p.reserveX == reserveX && p.reserveY == reserveY && p.totalLiquidity == totalLiquidity
    ensures p.status == status && p.updatedAt == timestamp * 1000
    ensures p.id == pool.id && p.tokenX == pool.tokenX && p.tokenY == pool.tokenY
    ensures p.tokenXVault == pool.tokenXVault && p.tokenYVault == pool.tokenYVault && p.createdAt == pool.createdAt
  {
    pool.(reserveX := reserveX, reserveY := reserveY, totalLiquidity := totalLiquidity,
          updatedAt := timestamp * 1000, status := status)
  }

  class PoolService {
    var basePools: StoreState<BasePool>
    var dammPools: StoreState<DammPool>
    /** The database as seen during this batch. */
    const durableBasePools: map<string, BasePool>
    const durableDammPools: map<string, DammPool>

    ghost predicate Valid()
      reads this
    {
      && basePools.Valid() && !basePools.isEvent && BasePoolsKeyed(basePools.entries)
      && dammPools.Valid() && !dammPools.isEvent && DammPoolsKeyed(dammPools.entries)
      && BasePoolsKeyed(durableBasePools) && DammPoolsKeyed(durableDammPools)
    }

    constructor(durableBasePools: map<string, BasePool>, durableDammPools: map<string, DammPool>)
      requires BasePoolsKeyed(durableBasePools) && DammPoolsKeyed(durableDammPools)
      ensures Valid()
      ensures basePools == Empty(false) && dammPools == Empty(false)
      ensures this.durableBasePools == durableBasePools && this.durableDammPools == durableDammPools
    {
      basePools := Empty(false);
      dammPools := Empty(false);
      this.durableBasePools := durableBasePools;
      this.durableDammPools := durableDammPools;
    }

    method Find(id: string) returns (pool: Option<BasePool>)
      requires Valid()
      modifies this
      ensures Valid() && dammPools == old(dammPools)
      ensures (basePools, pool) == CachedFind(old(basePools), durableBasePools, id)
    {
      if id in basePools.entries {
        return Some(basePools.entries[id]);
      }
      if id in durableBasePools {
        var dbPool := durableBasePools[id];
        basePools := basePools.Save(dbPool.id, dbPool);
        return Some(dbPool);
      }
      return None;
    }

    method FindDammPool(id: string) returns (pool: Option<DammPool>)
      requires Valid()
      modifies this
      ensures Valid() && basePools == old(basePools)
      ensures (dammPools, pool) == CachedFind(old(dammPools), durableDammPools, id)
    {
      if id in dammPools.entries {
        return Some(dammPools.entries[id]);
      }
      if id in durableDammPools {
        var dbPool := durableDammPools[id];
        dammPools := dammPools.Save(dbPool.id, dbPool);
        return Some(dbPool);
      }
      return None;
    }

    method GetOrCreateBasePool(poolId: string, tokenX: string, tokenY: string, tokenXVault: string, tokenYVault: string,
                               reserveX: int, reserveY: int, timestamp: nat) returns (pool: BasePool)
      requires Valid()
      modifies this
      ensures Valid() && dammPools == old(dammPools)
      ensures (basePools, pool) == GetOrCreateBasePoolIn(old(basePools), durableBasePools,
                 poolId, tokenX, tokenY, tokenXVault, tokenYVault, reserveX, reserveY, timestamp)
    {
      var existing := Find(poolId);
      if existing.Some? {
        return existing.value;
      }
      pool := NewBasePool(poolId, tokenX, tokenY, tokenXVault, tokenYVault, reserveX, reserveY, timestamp);
      basePools := basePools.Save(pool.id, pool);
    }

    method GetOrCreateDammPool(poolAddress: string, basePool: BasePool, lpMint: string, aVault: string, bVault: string,
                               aVaultLpMint: string, bVaultLpMint: string) returns (pool: DammPool)
      requires Valid()
      modifies this
      ensures Valid() && basePools == old(basePools)
      ensures (dammPools, pool) == GetOrCreateDammPoolIn(old(dammPools), durableDammPools,
                 poolAddress, basePool, lpMint, aVault, bVault, aVaultLpMint, bVaultLpMint)
    {
      var existing := FindDammPool(poolAddress);
      if existing.Some? {
        return existing.value;
      }
      pool := NewDammPool(poolAddress, basePool, aVault, bVault, aVaultLpMint, bVaultLpMint);
      dammPools := dammPools.Save(pool.id, pool);
    }

    /** Writes the updated pool back under its id (`basePoolStore.update`, never refused on an entity store). */
    method UpdateBasePool(basePool: BasePool, reserveX: int, reserveY: int, totalLiquidity: int, status: bool, timestamp: nat)
      returns (updated: BasePool)
      requires Valid()
      modifies this
      ensures Valid() && dammPools == old(dammPools)
      ensures updated == UpdatedBasePool(basePool, reserveX, reserveY, totalLiquidity, status, timestamp)
      ensures basePools == old(basePools).Save(basePool.id, updated)
    {
      updated := basePool.(reserveX := reserveX, reserveY := reserveY, totalLiquidity := totalLiquidity,
                           updatedAt := timestamp * 1000, status := status);
      basePools := basePools.Save(updated.id, updated);
    }
  }
}
