/**
 * src/dlmm/pool.service.ts: base pools and DLMM pairs.  Unlike the DAMM
 * service there is no durable tier: every lookup consults the in-batch
 * cache only.
 */
module DlmmPoolService {
  import opened Wrappers
  import opened Entities
  import opened Store
  import DammPoolService

  predicate DlmmPoolsKeyed(entries: map<string, DlmmPool>) {
    forall k :: k in entries ==> entries[k].id == k
  }

  /** The new base pool of a pair: its vaults are the pair's reserve accounts. */
  function NewBasePool(poolId: string, tokenX: string, tokenY: string, reserveX: string, reserveY: string,
                       reserveXAmount: int, reserveYAmount: int, timestamp: nat): BasePool
  {
    BasePool(poolId, tokenX, tokenY, reserveX, reserveY, reserveXAmount, reserveYAmount, 0, true,
             timestamp * 1000, timestamp * 1000)
  }

  /** `getOrCreateBasePool`: the cached pool, else a new one saved into the cache. */
  function GetOrCreateBasePoolIn(cache: StoreState<BasePool>, poolId: string, tokenX: string, tokenY: string,
                                 reserveX: string, reserveY: string, reserveXAmount: int, reserveYAmount: int,
                                 timestamp: nat): (StoreState<BasePool>, BasePool)
  {
    match cache.Find(poolId)
    case Some(p) => (cache, p)
    case None =>
      var p := NewBasePool(poolId, tokenX, tokenY, reserveX, reserveY, reserveXAmount, reserveYAmount, timestamp);
      (cache.Save(p.id, p), p)
  }

  /**
   * Only the cache is consulted: a cached pool is returned untouched, with
   * any arguments; otherwise the new pool takes its vaults from the reserve
   * accounts and its reserves from the amounts, with no liquidity and
   * status true.  Either way the cache then holds the returned pool.
   */
  lemma GetOrCreateBasePoolSpec(cache: StoreState<BasePool>, poolId: string, tokenX: string, tokenY: string,
                                reserveX: string, reserveY: string, reserveXAmount: int, reserveYAmount: int,
                                timestamp: nat)
    requires !cache.isEvent
    ensures var (after, p) := GetOrCreateBasePoolIn(cache, poolId, tokenX, tokenY, reserveX, reserveY,
                                                    reserveXAmount, reserveYAmount, timestamp);
      && after.Find(poolId) == Some(p)
      && (poolId in cache.entries ==> after == cache && p == cache.entries[poolId])
      && (poolId !in cache.entries ==>
            p.id == poolId && p.tokenX == tokenX && p.tokenY == tokenY
            && p.tokenXVault == reserveX && p.tokenYVault == reserveY
            && p.reserveX == reserveXAmount && p.reserveY == reserveYAmount
            && p.totalLiquidity == 0 && p.status && p.createdAt == p.updatedAt == timestamp * 1000)
  {
  }

  /** A second get-or-create, whatever its arguments, returns the first pool and changes nothing. */
  lemma GetOrCreateBasePoolIdempotent(cache: StoreState<BasePool>, poolId: string, tokenX: string, tokenY: string,
                                      reserveX: string, reserveY: string, reserveXAmount: int, reserveYAmount: int,
                                      timestamp: nat, tokenX2: string, tokenY2: string, reserveX2: string,
                                      reserveY2: string, reserveXAmount2: int, reserveYAmount2: int, timestamp2: nat)
    requires !cache.isEvent
    ensures var (after, p) := GetOrCreateBasePoolIn(cache, poolId, tokenX, tokenY, reserveX, reserveY,
                                                    reserveXAmount, reserveYAmount, timestamp);
      GetOrCreateBasePoolIn(after, poolId, tokenX2, tokenY2, reserveX2, reserveY2, reserveXAmount2,
                            reserveYAmount2, timestamp2) == (after, p)
  {
  }

  function NewDlmmPool(poolId: string, basePool: BasePool, binStep: int, activeId: int, activationPoint: Option<int>,
                       preActivationDuration: Option<int>, preActivationSwapAddress: Option<string>): DlmmPool
  {
    DlmmPool(poolId, basePool.id, binStep, activeId, activationPoint, preActivationDuration, preActivationSwapAddress)
  }

  /** `getOrCreateDlmmPool` (the pool id is the address, `createPoolId` being the identity on canonical addresses). */
  function GetOrCreateDlmmPoolIn(cache: StoreState<DlmmPool>, poolAddress: string, basePool: BasePool, binStep: int,
                                 activeId: int, activationPoint: Option<int>, preActivationDuration: Option<int>,
                                 preActivationSwapAddress: Option<string>): (StoreState<DlmmPool>, DlmmPool)
  {
    match cache.Find(poolAddress)
    case Some(p) => (cache, p)
    case None =>
      var p := NewDlmmPool(poolAddress, basePool, binStep, activeId, activationPoint, preActivationDuration,
                           preActivationSwapAddress);
      (cache.Save(p.id, p), p)
  }

  /**
   * An existing pair is returned unchanged, its bin step and active bin
   * whatever the arguments say; a new pair carries the arguments and points
   * at its base pool.
   */
  lemma GetOrCreateDlmmPoolSpec(cache: StoreState<DlmmPool>, poolAddress: string, basePool: BasePool, binStep: int,
                                activeId: int, activationPoint: Option<int>, preActivationDuration: Option<int>,
                                preActivationSwapAddress: Option<string>)
    requires !cache.isEvent
    ensures var (after, p) := GetOrCreateDlmmPoolIn(cache, poolAddress, basePool, binStep, activeId, activationPoint,
                                                    preActivationDuration, preActivationSwapAddress);
      && after.Find(poolAddress) == Some(p)
      && (poolAddress in cache.entries ==> after == cache && p == cache.entries[poolAddress])
      && (poolAddress !in cache.entries ==>
            p.id == poolAddress && p.basePool == basePool.id && p.binStep == binStep && p.activeId == activeId
            && p.activationPoint == activationPoint && p.preActivationDuration == preActivationDuration
            && p.preActivationSwapAddress == preActivationSwapAddress)
  {
  }

  /** `updateBasePool`: the pool written back with new reserves, liquidity, status and update time. */
  function UpdateBasePoolIn(cache: StoreState<BasePool>, pool: BasePool, reserveX: int, reserveY: int,
                            totalLiquidity: int, status: bool, timestamp: nat): StoreState<BasePool>
  {
    cache.Save(pool.id, DammPoolService.UpdatedBasePool(pool, reserveX, reserveY, totalLiquidity, status, timestamp))
  }

  /** The pool now reads back with the new reserves, liquidity, status and update time, all else as before; other pools are untouched. */
  lemma UpdateBasePoolSpec(cache: StoreState<BasePool>, pool: BasePool, reserveX: int, reserveY: int,
                           totalLiquidity: int, status: bool, timestamp: nat, other: string)
    requires !cache.isEvent
    ensures var after := UpdateBasePoolIn(cache, pool, reserveX, reserveY, totalLiquidity, status, timestamp);
      && after.Find(pool.id).Some?
      && var p := after.Find(pool.id).value;
      && p.reserveX == reserveX && p.reserveY == reserveY && p.totalLiquidity == totalLiquidity
      && p.status == status && p.updatedAt == timestamp * 1000
      && p.id == pool.id && p.tokenX == pool.tokenX && p.tokenY == pool.tokenY
      && p.tokenXVault == pool.tokenXVault && p.tokenYVault == pool.tokenYVault && p.createdAt == pool.createdAt
      && (other != pool.id ==> after.Find(other) == cache.Find(other))
  {
  }

  /** `updateDlmmPool`: the active bin always, each activation field only when given. */
  function UpdatedDlmmPool(pool: DlmmPool, activeId: int, activationPoint: Option<int>,
                           preActivationDuration: Option<int>, preActivationSwapAddress: Option<string>): DlmmPool
  {
    pool.(activeId := activeId,
          activationPoint := if activationPoint.Some? then activationPoint else pool.activationPoint,
          preActivationDuration := if preActivationDuration.Some? then preActivationDuration else pool.preActivationDuration,
          preActivationSwapAddress := if preActivationSwapAddress.Some? then preActivationSwapAddress
                                      else pool.preActivationSwapAddress)
  }

  /** An omitted activation field keeps its value, a given one replaces it; id, base pool and bin step never change. */
  lemma UpdateDlmmPoolSpec(pool: DlmmPool, activeId: int, activationPoint: Option<int>,
                           preActivationDuration: Option<int>, preActivationSwapAddress: Option<string>)
    ensures var p := UpdatedDlmmPool(pool, activeId, activationPoint, preActivationDuration, preActivationSwapAddress);
      && p.activeId == activeId
      && (activationPoint.Some? ==> p.activationPoint == activationPoint)
      && (activationPoint.None? ==> p.activationPoint == pool.activationPoint)
      && (preActivationDuration.Some? ==> p.preActivationDuration == preActivationDuration)
      && (preActivationDuration.None? ==> p.preActivationDuration == pool.preActivationDuration)
      && (preActivationSwapAddress.Some? ==> p.preActivationSwapAddress == preActivationSwapAddress)
      && (preActivationSwapAddress.None? ==> p.preActivationSwapAddress == pool.preActivationSwapAddress)
      && p.id == pool.id && p.basePool == pool.basePool && p.binStep == pool.binStep
  {
  }

  class PoolService {
    var basePools: StoreState<BasePool>
    var dlmmPools: StoreState<DlmmPool>

    ghost predicate Valid()
      reads this
    {
      && basePools.Valid() && !basePools.isEvent && DammPoolService.BasePoolsKeyed(basePools.entries)
      && dlmmPools.Valid() && !dlmmPools.isEvent && DlmmPoolsKeyed(dlmmPools.entries)
    }

    constructor()
      ensures Valid() && basePools == Empty(false) && dlmmPools == Empty(false)
    {
      basePools := Empty(false);
      dlmmPools := Empty(false);
    }

    method GetOrCreateBasePool(poolId: string, tokenX: string, tokenY: string, reserveX: string, reserveY: string,
                               reserveXAmount: int, reserveYAmount: int, timestamp: nat) returns (pool: BasePool)
      requires Valid()
      modifies this
      ensures Valid() && dlmmPools == old(dlmmPools)
      ensures (basePools, pool) == GetOrCreateBasePoolIn(old(basePools), poolId, tokenX, tokenY, reserveX, reserveY,
                                                         reserveXAmount, reserveYAmount, timestamp)
    {
      var existing := basePools.Find(poolId);
      if existing.Some? {
        return existing.value;
      }
      pool := NewBasePool(poolId, tokenX, tokenY, reserveX, reserveY, reserveXAmount, reserveYAmount, timestamp);
      basePools := basePools.Save(pool.id, pool);
    }

    method GetOrCreateDlmmPool(poolAddress: string, basePool: BasePool, binStep: int, activeId: int,
                               activationPoint: Option<int>, preActivationDuration: Option<int>,
                               preActivationSwapAddress: Option<string>) returns (pool: DlmmPool)
      requires Valid()
      modifies this
      ensures Valid() && basePools == old(basePools)
      ensures (dlmmPools, pool) == GetOrCreateDlmmPoolIn(old(dlmmPools), poolAddress, basePool, binStep, activeId,
                                                         activationPoint, preActivationDuration, preActivationSwapAddress)
    {
      var existing := dlmmPools.Find(poolAddress);
      if existing.Some? {
        return existing.value;
      }
      pool := NewDlmmPool(poolAddress, basePool, binStep, activeId, activationPoint, preActivationDuration,
                          preActivationSwapAddress);
      dlmmPools := dlmmPools.Save(pool.id, pool);
    }

    method UpdateBasePool(basePool: BasePool, reserveX: int, reserveY: int, totalLiquidity: int, status: bool,
                          timestamp: nat)
      requires Valid()
      modifies this
      ensures Valid() && dlmmPools == old(dlmmPools)
      ensures basePools == UpdateBasePoolIn(old(basePools), basePool, reserveX, reserveY, totalLiquidity, status, timestamp)
    {
      var updated := basePool.(reserveX := reserveX, reserveY := reserveY, totalLiquidity := totalLiquidity,
                               updatedAt := timestamp * 1000, status := status);
      basePools := basePools.Save(basePool.id, updated);
    }

    method UpdateDlmmPool(pool: DlmmPool, activeId: int, activationPoint: Option<int>,
                          preActivationDuration: Option<int>, preActivationSwapAddress: Option<string>)
      requires Valid()
      modifies this
      ensures Valid() && basePools == old(basePools)
      ensures dlmmPools == old(dlmmPools).Save(pool.id, UpdatedDlmmPool(pool, activeId, activationPoint,
                                                                        preActivationDuration, preActivationSwapAddress))
    {
      var updated := pool.(activeId := activeId);
      if activationPoint.Some? {
        updated := updated.(activationPoint := activationPoint);
      }
      if preActivationDuration.Some? {
        updated := updated.(preActivationDuration := preActivationDuration);
      }
      if preActivationSwapAddress.Some? {
        updated := updated.(preActivationSwapAddress := preActivationSwapAddress);
      }
      dlmmPools := dlmmPools.Save(pool.id, updated);
    }

    /** `getBasePool`: a lookup in the cache, which it leaves as it is. */
    method GetBasePool(poolId: string) returns (pool: Option<BasePool>)
      ensures pool.Some? <==> poolId in basePools.entries
      ensures pool.Some? ==> pool.value == basePools.entries[poolId]
    {
      pool := basePools.Find(poolId);
    }

    /** `getPool`: a lookup in the cache, which it leaves as it is. */
    method GetPool(poolId: string) returns (pool: Option<DlmmPool>)
      ensures pool.Some? <==> poolId in dlmmPools.entries
      ensures pool.Some? ==> pool.value == dlmmPools.entries[poolId]
    {
      pool := dlmmPools.Find(poolId);
    }
  }
}
