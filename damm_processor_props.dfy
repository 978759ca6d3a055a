/**
 * What the DAMM handlers of src/damm/processor.ts promise, stated on the
 * pure steps the `DammProcessor.Processor` methods are proved against:
 * every step keeps the stores well formed, and each handler's sign guard,
 * recorded amounts and reserve update are as the source writes them.
 */
module DammProcessorProps {
  import opened Wrappers
  import opened Entities
  import opened Store
  import opened Utils
  import opened Transfers
  import opened NetFlow
  import SwapIndex
  import opened DammPoolService
  import opened DammSwapService
  import opened DammLiquidityService
  import opened DammFeeService
  import opened DammProcessor

  // ---------------------------------------------------------------------
  // Each service call keeps the stores well formed
  // ---------------------------------------------------------------------

  /** A pool `find` yields sits under the address asked for. */
  lemma FindStepValid(s: DammState, db: Durable, poolAddress: string)
    requires s.Valid() && db.Keyed()
    ensures FindStep(s, db, poolAddress).0.Valid()
    ensures FindStep(s, db, poolAddress).1.Some? ==> FindStep(s, db, poolAddress).1.value.id == poolAddress
    ensures FindStep(s, db, poolAddress).1.None? ==> FindStep(s, db, poolAddress).0 == s
  {
    if poolAddress !in s.basePools.entries && poolAddress in db.basePools {
      SaveKeepsValid(s.basePools, poolAddress, db.basePools[poolAddress]);
    }
  }

  /** The DAMM pool `getOrCreateDammPool` yields sits under the address and can be found there afterwards. */
  lemma DammPoolStepValid(s: DammState, db: Durable, poolAddress: string, bp: BasePool, lpMint: string, aVault: string,
                          bVault: string, aVaultLpMint: string, bVaultLpMint: string)
    requires s.Valid() && db.Keyed()
    ensures var (s', p) := DammPoolStep(s, db, poolAddress, bp, lpMint, aVault, bVault, aVaultLpMint, bVaultLpMint);
      && s'.Valid() && p.id == poolAddress && s'.dammPools.Find(poolAddress) == Some(p)
      && s'.basePools == s.basePools && s'.positions == s.positions && s'.changes == s.changes
      && s'.swaps == s.swaps && s'.swapIndices == s.swapIndices && s'.fees == s.fees
  {
    if poolAddress !in s.dammPools.entries {
      if poolAddress in db.dammPools {
        SaveKeepsValid(s.dammPools, poolAddress, db.dammPools[poolAddress]);
      } else {
        SaveKeepsValid(s.dammPools, poolAddress, NewDammPool(poolAddress, bp, aVault, bVault, aVaultLpMint, bVaultLpMint));
      }
    }
  }

  /** `updateBasePool` writes the pool back under its id; only the base-pool store changes. */
  lemma PoolUpdateStepValid(s: DammState, bp: BasePool, reserveX: int, reserveY: int, totalLiquidity: int,
                            status: bool, timestamp: nat)
    requires s.Valid()
    ensures var s' := PoolUpdateStep(s, bp, reserveX, reserveY, totalLiquidity, status, timestamp);
      && s'.Valid()
      && s'.basePools.Find(bp.id) == Some(UpdatedBasePool(bp, reserveX, reserveY, totalLiquidity, status, timestamp))
  {
    SaveKeepsValid(s.basePools, bp.id, UpdatedBasePool(bp, reserveX, reserveY, totalLiquidity, status, timestamp));
  }

  lemma PositionChangeStepValid(s: DammState, dammPool: DammPool, user: string, changeType: DammChangeType,
                                recordX: int, recordY: int, positionLp: int, timestamp: nat)
    requires s.Valid()
    ensures PositionChangeStep(s, dammPool, user, changeType, recordX, recordY, positionLp, timestamp).Valid()
  {
    RecordThenSetLpSpec(LiquidityState(s.positions, s.changes), dammPool, user, changeType, recordX, recordY,
                        positionLp, timestamp);
  }

  lemma BootstrapChangeStepValid(s: DammState, dammPool: DammPool, user: string, recordX: int, recordY: int, timestamp: nat)
    requires s.Valid()
    ensures BootstrapChangeStep(s, dammPool, user, recordX, recordY, timestamp).Valid()
  {
    var positionId := CreatePositionId(dammPool.id, user);
    var (positions', position) := GetOrCreatePositionIn(s.positions, dammPool, user, timestamp);
    SaveKeepsValid(s.positions, positionId, position);
    var change := ChangeRecord(dammPool, position, Bootstrap, recordX, recordY, 0, timestamp);
    SaveKeepsValid(s.changes, change.id, change);
  }

  lemma FeeStepValid(s: DammState, txId: string, dammPool: DammPool, owner: string, feeX: int, feeY: int, timestamp: nat)
    requires s.Valid()
    ensures FeeStep(s, txId, dammPool, owner, feeX, feeY, timestamp).Valid()
  {
    var fee := FeeRecord(txId, dammPool, owner, feeX, feeY, timestamp);
    SaveKeepsValid(s.fees, fee.id, fee);
  }

  // ---------------------------------------------------------------------
  // The handlers' effects
  // ---------------------------------------------------------------------

  /**
   * The store kinds (only swaps are events) and the pool caches keyed by
   * id: all the handler lemmas below need of `Valid`.
   */
  predicate Shaped(s: DammState) {
    && !s.basePools.isEvent && BasePoolsKeyed(s.basePools.entries)
    && !s.dammPools.isEvent && DammPoolsKeyed(s.dammPools.entries)
    && !s.positions.isEvent && PositionsKeyed(s.positions.entries)
    && !s.changes.isEvent && s.swaps.isEvent && !s.fees.isEvent
  }

  /**
   * `find` keeps the shape and yields the pool under the address asked for,
   * which the cache then holds; at most that cache entry is written, and
   * only when the database supplied it.
   */
  lemma FindStepSpec(s: DammState, db: Durable, poolAddress: string)
    requires Shaped(s) && db.Keyed()
    ensures var (s', found) := FindStep(s, db, poolAddress);
      && Shaped(s')
      && (found.None? <==> poolAddress !in s.basePools.entries && poolAddress !in db.basePools)
      && (found.None? || poolAddress in s.basePools.entries ==> s' == s)
      && (found.Some? ==> found.value.id == poolAddress && s'.basePools.Find(poolAddress) == found)
      && s'.dammPools == s.dammPools && s'.positions == s.positions && s'.changes == s.changes
      && s'.swaps == s.swaps && s'.swapIndices == s.swapIndices && s'.fees == s.fees
      && KeptOutside(s.basePools, s'.basePools, {poolAddress})
  {
  }

  /**
   * `getOrCreateDammPool` keeps the shape and yields the pool under the
   * address; only that entry of that cache can change, and a cached pool is
   * left as it was.
   */
  lemma DammPoolStepSpec(s: DammState, db: Durable, poolAddress: string, bp: BasePool, lpMint: string, aVault: string,
                         bVault: string, aVaultLpMint: string, bVaultLpMint: string)
    requires Shaped(s) && db.Keyed()
    ensures var (s', p) := DammPoolStep(s, db, poolAddress, bp, lpMint, aVault, bVault, aVaultLpMint, bVaultLpMint);
      && Shaped(s') && p.id == poolAddress && s'.dammPools.Find(poolAddress) == Some(p)
      && KeptOutside(s.dammPools, s'.dammPools, {poolAddress})
      && (poolAddress in s.dammPools.entries ==> s'.dammPools == s.dammPools)
      && s'.basePools == s.basePools && s'.positions == s.positions && s'.changes == s.changes
      && s'.swaps == s.swaps && s'.swapIndices == s.swapIndices && s'.fees == s.fees
  {
  }

  // ---------------------------------------------------------------------
  // Swap
  // ---------------------------------------------------------------------

  /** The net flows have strictly opposite signs: the only pattern the swap handler records. */
  predicate OppositeSigns(netX: int, netY: int) {
    (netX > 0 && netY < 0) || (netY > 0 && netX < 0)
  }

  /**
   * The swap record of a swap with net flows (`netX`, `netY`): the side that
   * flowed in is the input, its net flow the amount in, and the other side's
   * outflow the amount out.
   */
  predicate SwapRecordedAs(w: DammSwap, poolAddress: string, user: string, bp: BasePool, netX: int, netY: int, timestamp: nat) {
    && w.pool == poolAddress && w.userAddress == user && w.timestamp == timestamp * 1000
    && (netX > 0 ==> w.tokenInMint == bp.tokenX && w.tokenOutMint == bp.tokenY && w.amountIn == netX && w.amountOut == -netY)
    && (netY > 0 ==> w.tokenInMint == bp.tokenY && w.tokenOutMint == bp.tokenX && w.amountIn == netY && w.amountOut == -netX)
  }

  /**
   * `w` appended to the swap event store, its id carrying the transaction's
   * next swap index; only that transaction's counter moves on.
   */
  ghost predicate SwapAppended(before: DammState, after: DammState, txId: string, w: DammSwap) {
    && after.swaps.events == before.swaps.events + [w]
    && ParseIndexedId(w.id) == Some((txId, SwapIndex.Current(before.swapIndices, txId)))
    && SwapIndex.Current(after.swapIndices, txId) == SwapIndex.Current(before.swapIndices, txId) + 1
    && forall other :: other != txId ==>
         SwapIndex.Current(after.swapIndices, other) == SwapIndex.Current(before.swapIndices, other)
  }

  /**
   * What the swap handler does once `find` has yielded `bp`: the DAMM pool is
   * got or created whatever the flows; a swap is appended, numbered within
   * its transaction, and the reserves move by the net flows exactly when the
   * signs are opposite; otherwise no swap is recorded and no reserve moves.
   * No other pool moves, and positions, changes and fees are never touched.
   */
  ghost predicate SwapOutcome(before: DammState, after: DammState, a: SwapAccounts, bp: BasePool, netX: int, netY: int,
                        txId: string, timestamp: nat)
  {
    && after.dammPools.Find(a.pool).Some? && KeptOutside(before.dammPools, after.dammPools, {a.pool})
    && after.positions == before.positions && after.changes == before.changes && after.fees == before.fees
    && (!OppositeSigns(netX, netY) ==>
          after.basePools == before.basePools && after.swaps == before.swaps && after.swapIndices == before.swapIndices)
    && (OppositeSigns(netX, netY) ==>
          && after.basePools.Find(bp.id)
               == Some(UpdatedBasePool(bp, bp.reserveX + netX, bp.reserveY + netY, bp.totalLiquidity, bp.status, timestamp))
          && KeptOutside(before.basePools, after.basePools, {bp.id})
          && |after.swaps.events| > 0
          && var w := after.swaps.events[|after.swaps.events| - 1];
             SwapAppended(before, after, txId, w) && SwapRecordedAs(w, a.pool, a.user, bp, netX, netY, timestamp))
  }

  /** A classified swap: appended as `SwapRecordedAs` says, and the pool's reserves moved by the net flows. */
  lemma SwapApplySpec(s: DammState, bp: BasePool, dammPool: DammPool, user: string, f: Flows, txId: string, timestamp: nat)
    requires Shaped(s) && DammSwapLeg(f.NetX(), f.NetY()).Some?
    ensures var s' := SwapApply(s, bp, dammPool, user, DammSwapLeg(f.NetX(), f.NetY()).value, f, txId, timestamp);
      && s'.dammPools == s.dammPools && s'.positions == s.positions && s'.changes == s.changes && s'.fees == s.fees
      && s'.basePools.Find(bp.id)
           == Some(UpdatedBasePool(bp, bp.reserveX + f.NetX(), bp.reserveY + f.NetY(), bp.totalLiquidity, bp.status, timestamp))
      && KeptOutside(s.basePools, s'.basePools, {bp.id})
      && |s'.swaps.events| > 0
      && var w := s'.swaps.events[|s'.swaps.events| - 1];
         SwapAppended(s, s', txId, w) && SwapRecordedAs(w, dammPool.id, user, bp, f.NetX(), f.NetY(), timestamp)
  {
    SwapIdRoundTrip(txId, SwapIndex.Current(s.swapIndices, txId));
  }

  lemma SwapOnPoolSpec(s: DammState, db: Durable, a: SwapAccounts, bp: BasePool, transfers: seq<Transfer>, txId: string,
                       timestamp: nat)
    requires Shaped(s) && db.Keyed() && bp.id == a.pool
    ensures var f := FlowsOf(transfers, bp.tokenXVault, bp.tokenYVault);
      SwapOutcome(s, SwapOnPool(s, db, a, bp, transfers, txId, timestamp), a, bp, f.NetX(), f.NetY(), txId, timestamp)
  {
    DammPoolStepSpec(s, db, a.pool, bp, a.lpMint, a.aVault, a.bVault, a.aVaultLpMint, a.bVaultLpMint);
    var (s1, dammPool) := DammPoolStep(s, db, a.pool, bp, a.lpMint, a.aVault, a.bVault, a.aVaultLpMint, a.bVaultLpMint);
    GuardedSwapOutcome(s, s1, a, bp, dammPool, FlowsOf(transfers, bp.tokenXVault, bp.tokenYVault), txId, timestamp);
  }

  /**
   * The swap branch taken once the DAMM pool is in place in `s1`, which
   * differs from `s` in that store only: `SwapOutcome` holds whether or not
   * the flows classify as a swap.
   */
  lemma GuardedSwapOutcome(s: DammState, s1: DammState, a: SwapAccounts, bp: BasePool, dammPool: DammPool, f: Flows,
                           txId: string, timestamp: nat)
    requires Shaped(s1) && dammPool.id == a.pool && s1.dammPools.Find(a.pool) == Some(dammPool)
    requires KeptOutside(s.dammPools, s1.dammPools, {a.pool})
    requires s1.basePools == s.basePools && s1.positions == s.positions && s1.changes == s.changes
    requires s1.swaps == s.swaps && s1.swapIndices == s.swapIndices && s1.fees == s.fees
    ensures SwapOutcome(s, match DammSwapLeg(f.NetX(), f.NetY())
                           case None => s1
                           case Some(leg) => SwapApply(s1, bp, dammPool, a.user, leg, f, txId, timestamp),
                        a, bp, f.NetX(), f.NetY(), txId, timestamp)
  {
    if DammSwapLeg(f.NetX(), f.NetY()).Some? {
      SwapApplySpec(s1, bp, dammPool, a.user, f, txId, timestamp);
    }
  }

  /**
   * The swap handler: missing pool or user accounts, or a pool neither the
   * cache nor the database holds, change nothing; otherwise `SwapOutcome`
   * holds of the state after the lookup, against the vaults the pool stores.
   */
  lemma SwapSpec(s: DammState, db: Durable, a: SwapAccounts, transfers: seq<Transfer>, txId: string, timestamp: nat)
    requires Shaped(s) && db.Keyed()
    ensures var s' := SwapStep(s, db, a, transfers, txId, timestamp);
      var (s1, found) := FindStep(s, db, a.pool);
      && (!a.HasRequired() || found.None? ==> s' == s)
      && (a.HasRequired() && found.Some? ==>
            var f := FlowsOf(transfers, found.value.tokenXVault, found.value.tokenYVault);
            SwapOutcome(s1, s', a, found.value, f.NetX(), f.NetY(), txId, timestamp))
  {
    FindStepSpec(s, db, a.pool);
    var (s1, found) := FindStep(s, db, a.pool);
    if a.HasRequired() && found.Some? {
      SwapOnPoolSpec(s1, db, a, found.value, transfers, txId, timestamp);
    }
  }

  // ---------------------------------------------------------------------
  // Liquidity
  // ---------------------------------------------------------------------

  /**
   * The change of `user` in pool `poolId` at `timestamp` is stored under the
   * pool/owner/time key with the given type and amounts and LP 0 (the
   * handlers pass 0n), pointing at the position, which exists.
   */
  predicate ChangeStored(after: DammState, poolId: string, user: string, changeType: DammChangeType,
                         amountX: int, amountY: int, timestamp: nat)
  {
    var positionId := CreatePositionId(poolId, user);
    && after.positions.Find(positionId).Some?
    && var key := ChangeId(poolId, after.positions.Find(positionId).value.owner, timestamp);
       after.changes.Find(key) == Some(DammLiquidityChange(key, poolId, positionId, changeType, amountX, amountY, 0, timestamp * 1000))
  }

  /**
   * Of the positions and changes, only the position of `user` in `poolId`
   * and that owner's change at `timestamp` may differ.
   */
  ghost predicate OnlyOwnPositionAndChange(before: DammState, after: DammState, poolId: string, user: string, timestamp: nat) {
    var positionId := CreatePositionId(poolId, user);
    && KeptOutside(before.positions, after.positions, {positionId})
    && after.positions.Find(positionId).Some?
    && KeptOutside(before.changes, after.changes, {ChangeId(poolId, after.positions.Find(positionId).value.owner, timestamp)})
  }

  /**
   * What a liquidity handler does once `find` has yielded `bp`: the DAMM pool
   * is got or created whatever the flows.  When the handler's guard accepts
   * the net flows, the change is stored with the handler's amounts, the
   * position's LP amount is OVERWRITTEN with the signed instruction amount,
   * the reserves move by the raw net flows and the total liquidity by the
   * signed amount; otherwise no pool, position or change moves.  No other
   * pool, position or change moves, and swaps and fees are never touched.
   */
  ghost predicate LiquidityOutcome(before: DammState, after: DammState, kind: LiquidityKind, a: LiquidityAccounts, lpAmount: nat,
                             bp: BasePool, netX: int, netY: int, timestamp: nat)
  {
    && after.dammPools.Find(a.pool).Some? && KeptOutside(before.dammPools, after.dammPools, {a.pool})
    && after.swaps == before.swaps && after.swapIndices == before.swapIndices && after.fees == before.fees
    && (!LiquidityAccepted(kind, netX, netY) ==>
          after.basePools == before.basePools && after.positions == before.positions && after.changes == before.changes)
    && (LiquidityAccepted(kind, netX, netY) ==>
          && after.basePools.Find(bp.id)
               == Some(UpdatedBasePool(bp, bp.reserveX + netX, bp.reserveY + netY, bp.totalLiquidity + SignedLp(kind, lpAmount),
                                       bp.status, timestamp))
          && KeptOutside(before.basePools, after.basePools, {bp.id})
          && OnlyOwnPositionAndChange(before, after, a.pool, a.user, timestamp)
          && ChangeStored(after, a.pool, a.user, ChangeTypeOf(kind), RecordedAmounts(kind, netX, netY).0,
                          RecordedAmounts(kind, netX, netY).1, timestamp)
          && LpOf(after.positions, a.pool, a.user) == SignedLp(kind, lpAmount))
  }

  /** `getOrCreatePosition`, `recordLiquidityChange` with LP 0, then `updatePosition(positionLp)`. */
  lemma PositionChangeStepSpec(s: DammState, dammPool: DammPool, user: string, changeType: DammChangeType,
                               recordX: int, recordY: int, positionLp: int, timestamp: nat)
    requires Shaped(s)
    ensures var s' := PositionChangeStep(s, dammPool, user, changeType, recordX, recordY, positionLp, timestamp);
      && Shaped(s')
      && s' == s.(positions := s'.positions, changes := s'.changes)
      && OnlyOwnPositionAndChange(s, s', dammPool.id, user, timestamp)
      && ChangeStored(s', dammPool.id, user, changeType, recordX, recordY, timestamp)
      && LpOf(s'.positions, dammPool.id, user) == positionLp
  {
  }

  lemma LiquidityApplySpec(s: DammState, kind: LiquidityKind, bp: BasePool, dammPool: DammPool, user: string,
                           lpAmount: nat, f: Flows, timestamp: nat)
    requires Shaped(s)
    ensures var s' := LiquidityApply(s, kind, bp, dammPool, user, lpAmount, f, timestamp);
      && s'.dammPools == s.dammPools && s'.swaps == s.swaps && s'.swapIndices == s.swapIndices && s'.fees == s.fees
      && s'.basePools.Find(bp.id)
           == Some(UpdatedBasePool(bp, bp.reserveX + f.NetX(), bp.reserveY + f.NetY(), bp.totalLiquidity + SignedLp(kind, lpAmount),
                                   bp.status, timestamp))
      && KeptOutside(s.basePools, s'.basePools, {bp.id})
      && OnlyOwnPositionAndChange(s, s', dammPool.id, user, timestamp)
      && ChangeStored(s', dammPool.id, user, ChangeTypeOf(kind), RecordedAmounts(kind, f.NetX(), f.NetY()).0,
                      RecordedAmounts(kind, f.NetX(), f.NetY()).1, timestamp)
      && LpOf(s'.positions, dammPool.id, user) == SignedLp(kind, lpAmount)
  {
    var (recordX, recordY) := RecordedAmounts(kind, f.NetX(), f.NetY());
    PositionChangeStepSpec(s, dammPool, user, ChangeTypeOf(kind), recordX, recordY, SignedLp(kind, lpAmount), timestamp);
  }

  lemma LiquidityOnPoolSpec(s: DammState, db: Durable, kind: LiquidityKind, a: LiquidityAccounts, lpAmount: nat,
                            bp: BasePool, transfers: seq<Transfer>, timestamp: nat)
    requires Shaped(s) && db.Keyed() && bp.id == a.pool
    ensures var f := FlowsOf(transfers, bp.tokenXVault, bp.tokenYVault);
      LiquidityOutcome(s, LiquidityOnPool(s, db, kind, a, lpAmount, bp, transfers, timestamp), kind, a, lpAmount, bp,
                       f.NetX(), f.NetY(), timestamp)
  {
    DammPoolStepSpec(s, db, a.pool, bp, a.lpMint, a.aTokenVault, a.bTokenVault, a.aVaultLpMint, a.bVaultLpMint);
    var (s1, dammPool) := DammPoolStep(s, db, a.pool, bp, a.lpMint, a.aTokenVault, a.bTokenVault, a.aVaultLpMint, a.bVaultLpMint);
    GuardedLiquidityOutcome(s, s1, kind, a, lpAmount, bp, dammPool, FlowsOf(transfers, bp.tokenXVault, bp.tokenYVault), timestamp);
  }

  /**
   * The guard step of a liquidity handler, once the DAMM pool is in hand:
   * `s1` differs from `s` only in the DAMM pools, and the handler either
   * stops there or applies the change.
   */
  lemma GuardedLiquidityOutcome(s: DammState, s1: DammState, kind: LiquidityKind, a: LiquidityAccounts, lpAmount: nat,
                                bp: BasePool, dammPool: DammPool, f: Flows, timestamp: nat)
    requires Shaped(s1) && bp.id == a.pool && dammPool.id == a.pool && s1.dammPools.Find(a.pool) == Some(dammPool)
    requires KeptOutside(s.dammPools, s1.dammPools, {a.pool})
    requires s1.basePools == s.basePools && s1.positions == s.positions && s1.changes == s.changes
    requires s1.swaps == s.swaps && s1.swapIndices == s.swapIndices && s1.fees == s.fees
    ensures LiquidityOutcome(s, if LiquidityAccepted(kind, f.NetX(), f.NetY())
                                then LiquidityApply(s1, kind, bp, dammPool, a.user, lpAmount, f, timestamp) else s1,
                             kind, a, lpAmount, bp, f.NetX(), f.NetY(), timestamp)
  {
    if LiquidityAccepted(kind, f.NetX(), f.NetY()) {
      LiquidityApplySpec(s1, kind, bp, dammPool, a.user, lpAmount, f, timestamp);
    }
  }

  /**
   * The four liquidity handlers: missing accounts or an unknown pool change
   * nothing; otherwise `LiquidityOutcome` holds after the lookup.  The
   * balanced add accepts only when both net flows are positive, the
   * balanced remove only when both are negative, the other two always.
   */
  lemma LiquiditySpec(s: DammState, db: Durable, kind: LiquidityKind, a: LiquidityAccounts, lpAmount: nat,
                      transfers: seq<Transfer>, timestamp: nat)
    requires Shaped(s) && db.Keyed()
    ensures var s' := LiquidityStep(s, db, kind, a, lpAmount, transfers, timestamp);
      var (s1, found) := FindStep(s, db, a.pool);
      && (!a.HasRequired() || found.None? ==> s' == s)
      && (a.HasRequired() && found.Some? ==>
            var f := FlowsOf(transfers, found.value.tokenXVault, found.value.tokenYVault);
            LiquidityOutcome(s1, s', kind, a, lpAmount, found.value, f.NetX(), f.NetY(), timestamp))
    ensures forall netX: int, netY: int {:trigger LiquidityAccepted(kind, netX, netY)} ::
      LiquidityAccepted(kind, netX, netY) <==>
        (kind.BalancedAdd? ==> netX > 0 && netY > 0) && (kind.BalancedRemove? ==> netX < 0 && netY < 0)
  {
    FindStepSpec(s, db, a.pool);
    var (s1, found) := FindStep(s, db, a.pool);
    if a.HasRequired() && found.Some? {
      LiquidityOnPoolSpec(s1, db, kind, a, lpAmount, found.value, transfers, timestamp);
    }
  }

  // ---------------------------------------------------------------------
  // Bootstrap, enable/disable, override, claim fee, initialize
  // ---------------------------------------------------------------------

  /**
   * The bootstrap handler: missing accounts or an unknown pool change
   * nothing; a pool with a non-zero reserve is left alone (only the lookup's
   * caching remains); otherwise the change is stored with the positive parts
   * of the net flows and LP 0, the position's LP does not move, the reserves
   * move by the net flows and the total liquidity is set to 0.
   */
  lemma BootstrapSpec(s: DammState, db: Durable, a: BootstrapAccounts, transfers: seq<Transfer>, timestamp: nat)
    requires Shaped(s) && db.Keyed()
    ensures var s' := BootstrapStep(s, db, a, transfers, timestamp);
      var (s1, found) := FindStep(s, db, a.pool);
      && (!a.HasRequired() || found.None? ==> s' == s)
      && (a.HasRequired() && found.Some? && (found.value.reserveX != 0 || found.value.reserveY != 0) ==> s' == s1)
      && (a.HasRequired() && found.Some? && found.value.reserveX == 0 && found.value.reserveY == 0 ==>
            var f := FlowsOf(transfers, found.value.tokenXVault, found.value.tokenYVault);
            BootstrapOutcome(s1, s', a, found.value, f.NetX(), f.NetY(), timestamp))
  {
    FindStepSpec(s, db, a.pool);
    var (s1, found) := FindStep(s, db, a.pool);
    if a.HasRequired() && found.Some? && found.value.reserveX == 0 && found.value.reserveY == 0 {
      BootstrapOnPoolSpec(s1, db, a, found.value, transfers, timestamp);
    }
  }

  /**
   * An accepted bootstrap: the DAMM pool exists, the change carries the
   * positive parts of the net flows, the position's LP does not move, the
   * reserves become the net flows (from zero) and the total liquidity 0.
   * No other pool, position or change moves.
   */
  ghost predicate BootstrapOutcome(before: DammState, after: DammState, a: BootstrapAccounts, bp: BasePool, netX: int, netY: int,
                             timestamp: nat)
  {
    && after.dammPools.Find(a.pool).Some? && KeptOutside(before.dammPools, after.dammPools, {a.pool})
    && after.swaps == before.swaps && after.swapIndices == before.swapIndices && after.fees == before.fees
    && after.basePools.Find(a.pool) == Some(UpdatedBasePool(bp, netX, netY, 0, bp.status, timestamp))
    && KeptOutside(before.basePools, after.basePools, {a.pool})
    && OnlyOwnPositionAndChange(before, after, a.pool, a.user, timestamp)
    && ChangeStored(after, a.pool, a.user, Bootstrap, Inflow(netX), Inflow(netY), timestamp)
    && LpOf(after.positions, a.pool, a.user) == LpOf(before.positions, a.pool, a.user)
  }

  lemma BootstrapOnPoolSpec(s: DammState, db: Durable, a: BootstrapAccounts, bp: BasePool, transfers: seq<Transfer>, timestamp: nat)
    requires Shaped(s) && db.Keyed() && bp.id == a.pool && bp.reserveX == 0 && bp.reserveY == 0
    ensures var f := FlowsOf(transfers, bp.tokenXVault, bp.tokenYVault);
      BootstrapOutcome(s, BootstrapOnPool(s, db, a, bp, transfers, timestamp), a, bp, f.NetX(), f.NetY(), timestamp)
  {
    DammPoolStepSpec(s, db, a.pool, bp, a.lpMint, a.aVault, a.bVault, a.aVaultLpMint, a.bVaultLpMint);
    var (s1, dammPool) := DammPoolStep(s, db, a.pool, bp, a.lpMint, a.aVault, a.bVault, a.aVaultLpMint, a.bVaultLpMint);
    var f := FlowsOf(transfers, bp.tokenXVault, bp.tokenYVault);
    BootstrapChangeStepShaped(s1, dammPool, a.user, Inflow(f.NetX()), Inflow(f.NetY()), timestamp);
  }

  /** `getOrCreatePosition` and the bootstrap change; the position is created if need be but its LP is not set. */
  lemma BootstrapChangeStepShaped(s: DammState, dammPool: DammPool, user: string, recordX: int, recordY: int, timestamp: nat)
    requires Shaped(s)
    ensures var s' := BootstrapChangeStep(s, dammPool, user, recordX, recordY, timestamp);
      && Shaped(s')
      && s' == s.(positions := s'.positions, changes := s'.changes)
      && OnlyOwnPositionAndChange(s, s', dammPool.id, user, timestamp)
      && ChangeStored(s', dammPool.id, user, Bootstrap, recordX, recordY, timestamp)
      && LpOf(s'.positions, dammPool.id, user) == LpOf(s.positions, dammPool.id, user)
  {
  }

  /**
   * Enable/disable: a found pool gets the instruction's status and a new
   * update time, nothing else of it changes; no other pool and no other
   * store changes.
   */
  lemma EnableSpec(s: DammState, db: Durable, poolAddress: string, enable: bool, timestamp: nat)
    requires Shaped(s) && db.Keyed()
    ensures var s' := EnableStep(s, db, poolAddress, enable, timestamp);
      var (s1, found) := FindStep(s, db, poolAddress);
      && (!Present(poolAddress) || found.None? ==> s' == s)
      && (Present(poolAddress) && found.Some? ==>
            && s' == s1.(basePools := s'.basePools)
            && s'.basePools.Find(poolAddress) == Some(found.value.(status := enable, updatedAt := timestamp * 1000))
            && KeptOutside(s.basePools, s'.basePools, {poolAddress}))
  {
    FindStepSpec(s, db, poolAddress);
  }

  /** Override-curve-parameters: a found pool only has its update time moved; no other pool changes. */
  lemma OverrideSpec(s: DammState, db: Durable, poolAddress: string, timestamp: nat)
    requires Shaped(s) && db.Keyed()
    ensures var s' := OverrideStep(s, db, poolAddress, timestamp);
      var (s1, found) := FindStep(s, db, poolAddress);
      && (!Present(poolAddress) || found.None? ==> s' == s)
      && (Present(poolAddress) && found.Some? ==>
            && s' == s1.(basePools := s'.basePools)
            && s'.basePools.Find(poolAddress) == Some(found.value.(updatedAt := timestamp * 1000))
            && KeptOutside(s.basePools, s'.basePools, {poolAddress}))
  {
    FindStepSpec(s, db, poolAddress);
  }

  /**
   * Claim fee: the fee is the GROSS withdrawals from the two vaults, stored
   * under the pool/transaction key only when either is positive; the
   * reserves move by the net flows whatever the fee.  No other pool or fee
   * entry changes.
   */
  lemma ClaimFeeSpec(s: DammState, db: Durable, a: ClaimFeeAccounts, transfers: seq<Transfer>, txId: string, timestamp: nat)
    requires Shaped(s) && db.Keyed()
    ensures var s' := ClaimFeeStep(s, db, a, transfers, txId, timestamp);
      var (s1, found) := FindStep(s, db, a.pool);
      && (!a.HasRequired() || found.None? ==> s' == s)
      && (a.HasRequired() && found.Some? ==>
            var bp := found.value;
            var f := FlowsOf(transfers, bp.tokenXVault, bp.tokenYVault);
            && s'.dammPools.Find(a.pool).Some? && KeptOutside(s.dammPools, s'.dammPools, {a.pool})
            && KeptOutside(s.basePools, s'.basePools, {a.pool}) && KeptOutside(s.fees, s'.fees, {FeeId(a.pool, txId)})
            && s'.positions == s.positions && s'.changes == s.changes
            && s'.swaps == s.swaps && s'.swapIndices == s.swapIndices
            && s'.basePools.Find(a.pool)
                 == Some(UpdatedBasePool(bp, bp.reserveX + f.NetX(), bp.reserveY + f.NetY(), bp.totalLiquidity, bp.status, timestamp))
            && (f.withdrawX == 0 && f.withdrawY == 0 ==> s'.fees == s.fees)
            && (f.withdrawX > 0 || f.withdrawY > 0 ==>
                  s'.fees.Find(FeeId(a.pool, txId))
                    == Some(DammFee(FeeId(a.pool, txId), a.pool, a.owner, f.withdrawX, f.withdrawY, timestamp * 1000))))
  {
    FindStepSpec(s, db, a.pool);
    var (s1, found) := FindStep(s, db, a.pool);
    if a.HasRequired() && found.Some? {
      ClaimFeeOnPoolSpec(s1, db, a, found.value, FlowsOf(transfers, found.value.tokenXVault, found.value.tokenYVault),
                         transfers, txId, timestamp);
    }
  }

  /** The claim once `find` has yielded `bp`, stated against the state after the lookup. */
  lemma ClaimFeeOnPoolSpec(s: DammState, db: Durable, a: ClaimFeeAccounts, bp: BasePool, f: Flows, transfers: seq<Transfer>,
                           txId: string, timestamp: nat)
    requires Shaped(s) && db.Keyed() && bp.id == a.pool && f == FlowsOf(transfers, bp.tokenXVault, bp.tokenYVault)
    ensures var s' := ClaimFeeOnPool(s, db, a, bp, transfers, txId, timestamp);
      && s'.dammPools.Find(a.pool).Some? && KeptOutside(s.dammPools, s'.dammPools, {a.pool})
      && KeptOutside(s.basePools, s'.basePools, {a.pool}) && KeptOutside(s.fees, s'.fees, {FeeId(a.pool, txId)})
      && s'.positions == s.positions && s'.changes == s.changes
      && s'.swaps == s.swaps && s'.swapIndices == s.swapIndices
      && s'.basePools.Find(a.pool)
           == Some(UpdatedBasePool(bp, bp.reserveX + f.NetX(), bp.reserveY + f.NetY(), bp.totalLiquidity, bp.status, timestamp))
      && (f.withdrawX == 0 && f.withdrawY == 0 ==> s'.fees == s.fees)
      && (f.withdrawX > 0 || f.withdrawY > 0 ==>
            s'.fees.Find(FeeId(a.pool, txId))
              == Some(DammFee(FeeId(a.pool, txId), a.pool, a.owner, f.withdrawX, f.withdrawY, timestamp * 1000)))
  {
    DammPoolStepSpec(s, db, a.pool, bp, a.lpMint, a.aVault, a.bVault, a.aVaultLp, a.bVaultLp);
    var (s1, dammPool) := DammPoolStep(s, db, a.pool, bp, a.lpMint, a.aVault, a.bVault, a.aVaultLp, a.bVaultLp);
    ClaimFeeApplySpec(s1, bp, dammPool, a.owner, f, txId, timestamp);
  }

  /**
   * The claim once the DAMM pool is in hand: the fee entry under the
   * pool/transaction key when anything was withdrawn, then the reserves
   * moved by the net flows; no other pool or fee entry and no other store.
   */
  lemma ClaimFeeApplySpec(s: DammState, bp: BasePool, dammPool: DammPool, owner: string, f: Flows, txId: string,
                          timestamp: nat)
    requires Shaped(s)
    ensures var s' := PoolUpdateStep(FeeIfWithdrawn(s, txId, dammPool, owner, f, timestamp), bp,
                                     bp.reserveX + f.NetX(), bp.reserveY + f.NetY(), bp.totalLiquidity, bp.status, timestamp);
      && s'.dammPools == s.dammPools && s'.positions == s.positions && s'.changes == s.changes
      && s'.swaps == s.swaps && s'.swapIndices == s.swapIndices
      && s'.basePools.Find(bp.id)
           == Some(UpdatedBasePool(bp, bp.reserveX + f.NetX(), bp.reserveY + f.NetY(), bp.totalLiquidity, bp.status, timestamp))
      && KeptOutside(s.basePools, s'.basePools, {bp.id})
      && KeptOutside(s.fees, s'.fees, {FeeId(dammPool.id, txId)})
      && (f.withdrawX == 0 && f.withdrawY == 0 ==> s'.fees == s.fees)
      && (f.withdrawX > 0 || f.withdrawY > 0 ==>
            s'.fees.Find(FeeId(dammPool.id, txId))
              == Some(DammFee(FeeId(dammPool.id, txId), dammPool.id, owner, f.withdrawX, f.withdrawY, timestamp * 1000)))
  {
  }

  /**
   * Initialize: with the required accounts the pool exists afterwards, and
   * when neither tier held it, it is a new pool with the instruction's
   * tokens, vaults and amounts; a cached pool is left as it was, a stored
   * one is cached as stored; no other pool and no other store changes.
   */
  lemma InitializeSpec(s: DammState, db: Durable, a: InitAccounts, d: InitData, timestamp: nat)
    requires Shaped(s) && db.Keyed()
    ensures var s' := InitializeStep(s, db, a, d, timestamp);
      && Shaped(s')
      && s' == s.(basePools := s'.basePools)
      && (!a.HasRequired() ==> s' == s)
      && KeptOutside(s.basePools, s'.basePools, {a.pool})
      && (a.HasRequired() ==> s'.basePools.Find(a.pool).Some?)
      && (a.pool in s.basePools.entries ==> s' == s)
      && (a.HasRequired() && a.pool !in s.basePools.entries && a.pool in db.basePools ==>
            s'.basePools.Find(a.pool) == Some(db.basePools[a.pool]))
      && (a.HasRequired() && a.pool !in s.basePools.entries && a.pool !in db.basePools ==>
            s'.basePools.Find(a.pool) == Some(NewBasePool(a.pool, a.tokenAMint, a.tokenBMint, a.aTokenVault, a.bTokenVault,
                                                          d.tokenAAmount, d.tokenBAmount, timestamp)))
  {
  }

  // ---------------------------------------------------------------------
  // Every handler keeps the stores well formed
  // ---------------------------------------------------------------------

  lemma SwapRecordStepValid(s: DammState, txId: string, dammPool: DammPool, user: string, inMint: string, outMint: string,
                            amountIn: int, amountOut: int, timestamp: nat)
    requires s.Valid()
    ensures SwapRecordStep(s, txId, dammPool, user, inMint, outMint, amountIn, amountOut, timestamp).Valid()
  {
    CreateSwapAppends(s.swaps, s.swapIndices, txId, dammPool, user, inMint, outMint, amountIn, amountOut, timestamp);
  }

  lemma SwapApplyValid(s: DammState, bp: BasePool, dammPool: DammPool, user: string, leg: SwapLeg, f: Flows,
                       txId: string, timestamp: nat)
    requires s.Valid()
    ensures SwapApply(s, bp, dammPool, user, leg, f, txId, timestamp).Valid()
  {
    var inMint := if leg.inputIsX then bp.tokenX else bp.tokenY;
    var outMint := if leg.inputIsX then bp.tokenY else bp.tokenX;
    SwapRecordStepValid(s, txId, dammPool, user, inMint, outMint, leg.amountIn, leg.amountOut, timestamp);
    var s1 := SwapRecordStep(s, txId, dammPool, user, inMint, outMint, leg.amountIn, leg.amountOut, timestamp);
    PoolUpdateStepValid(s1, bp, bp.reserveX + f.NetX(), bp.reserveY + f.NetY(), bp.totalLiquidity, bp.status, timestamp);
  }

  lemma SwapStepValid(s: DammState, db: Durable, a: SwapAccounts, transfers: seq<Transfer>, txId: string, timestamp: nat)
    requires s.Valid() && db.Keyed()
    ensures SwapStep(s, db, a, transfers, txId, timestamp).Valid()
  {
    FindStepValid(s, db, a.pool);
    var (s1, found) := FindStep(s, db, a.pool);
    if a.HasRequired() && found.Some? {
      var bp := found.value;
      DammPoolStepValid(s1, db, a.pool, bp, a.lpMint, a.aVault, a.bVault, a.aVaultLpMint, a.bVaultLpMint);
      var (s2, dammPool) := DammPoolStep(s1, db, a.pool, bp, a.lpMint, a.aVault, a.bVault, a.aVaultLpMint, a.bVaultLpMint);
      var f := FlowsOf(transfers, bp.tokenXVault, bp.tokenYVault);
      if DammSwapLeg(f.NetX(), f.NetY()).Some? {
        SwapApplyValid(s2, bp, dammPool, a.user, DammSwapLeg(f.NetX(), f.NetY()).value, f, txId, timestamp);
      }
    }
  }

  lemma LiquidityApplyValid(s: DammState, kind: LiquidityKind, bp: BasePool, dammPool: DammPool, user: string,
                            lpAmount: nat, f: Flows, timestamp: nat)
    requires s.Valid()
    ensures LiquidityApply(s, kind, bp, dammPool, user, lpAmount, f, timestamp).Valid()
  {
    var (recordX, recordY) := RecordedAmounts(kind, f.NetX(), f.NetY());
    PositionChangeStepValid(s, dammPool, user, ChangeTypeOf(kind), recordX, recordY, SignedLp(kind, lpAmount), timestamp);
    var s1 := PositionChangeStep(s, dammPool, user, ChangeTypeOf(kind), recordX, recordY, SignedLp(kind, lpAmount), timestamp);
    PoolUpdateStepValid(s1, bp, bp.reserveX + f.NetX(), bp.reserveY + f.NetY(), bp.totalLiquidity + SignedLp(kind, lpAmount),
                        bp.status, timestamp);
  }

  lemma LiquidityStepValid(s: DammState, db: Durable, kind: LiquidityKind, a: LiquidityAccounts, lpAmount: nat,
                           transfers: seq<Transfer>, timestamp: nat)
    requires s.Valid() && db.Keyed()
    ensures LiquidityStep(s, db, kind, a, lpAmount, transfers, timestamp).Valid()
  {
    FindStepValid(s, db, a.pool);
    var (s1, found) := FindStep(s, db, a.pool);
    if a.HasRequired() && found.Some? {
      var bp := found.value;
      DammPoolStepValid(s1, db, a.pool, bp, a.lpMint, a.aTokenVault, a.bTokenVault, a.aVaultLpMint, a.bVaultLpMint);
      var (s2, dammPool) := DammPoolStep(s1, db, a.pool, bp, a.lpMint, a.aTokenVault, a.bTokenVault, a.aVaultLpMint, a.bVaultLpMint);
      var f := FlowsOf(transfers, bp.tokenXVault, bp.tokenYVault);
      if LiquidityAccepted(kind, f.NetX(), f.NetY()) {
        LiquidityApplyValid(s2, kind, bp, dammPool, a.user, lpAmount, f, timestamp);
      }
    }
  }

  /** The bootstrap once the pool is found with empty reserves. */
  lemma BootstrapOnPoolValid(s: DammState, db: Durable, a: BootstrapAccounts, bp: BasePool, transfers: seq<Transfer>, timestamp: nat)
    requires s.Valid() && db.Keyed()
    ensures BootstrapOnPool(s, db, a, bp, transfers, timestamp).Valid()
  {
    DammPoolStepValid(s, db, a.pool, bp, a.lpMint, a.aVault, a.bVault, a.aVaultLpMint, a.bVaultLpMint);
    var (s1, dammPool) := DammPoolStep(s, db, a.pool, bp, a.lpMint, a.aVault, a.bVault, a.aVaultLpMint, a.bVaultLpMint);
    BootstrapApplyValid(s1, bp, dammPool, a.user, FlowsOf(transfers, bp.tokenXVault, bp.tokenYVault), timestamp);
  }

  lemma BootstrapApplyValid(s: DammState, bp: BasePool, dammPool: DammPool, user: string, f: Flows, timestamp: nat)
    requires s.Valid()
    ensures BootstrapApply(s, bp, dammPool, user, f, timestamp).Valid()
  {
    BootstrapChangeStepValid(s, dammPool, user, Inflow(f.NetX()), Inflow(f.NetY()), timestamp);
    var s1 := BootstrapChangeStep(s, dammPool, user, Inflow(f.NetX()), Inflow(f.NetY()), timestamp);
    PoolUpdateStepValid(s1, bp, bp.reserveX + f.NetX(), bp.reserveY + f.NetY(), 0, bp.status, timestamp);
  }

  lemma BootstrapStepValid(s: DammState, db: Durable, a: BootstrapAccounts, transfers: seq<Transfer>, timestamp: nat)
    requires s.Valid() && db.Keyed()
    ensures BootstrapStep(s, db, a, transfers, timestamp).Valid()
  {
    FindStepValid(s, db, a.pool);
    var (s1, found) := FindStep(s, db, a.pool);
    if a.HasRequired() && found.Some? && found.value.reserveX == 0 && found.value.reserveY == 0 {
      BootstrapOnPoolValid(s1, db, a, found.value, transfers, timestamp);
    }
  }

  /** The fee claim once the pool is found. */
  lemma ClaimFeeOnPoolValid(s: DammState, db: Durable, a: ClaimFeeAccounts, bp: BasePool, transfers: seq<Transfer>,
                            txId: string, timestamp: nat)
    requires s.Valid() && db.Keyed()
    ensures ClaimFeeOnPool(s, db, a, bp, transfers, txId, timestamp).Valid()
  {
    DammPoolStepValid(s, db, a.pool, bp, a.lpMint, a.aVault, a.bVault, a.aVaultLp, a.bVaultLp);
    var (s1, dammPool) := DammPoolStep(s, db, a.pool, bp, a.lpMint, a.aVault, a.bVault, a.aVaultLp, a.bVaultLp);
    var f := FlowsOf(transfers, bp.tokenXVault, bp.tokenYVault);
    FeeStepValid(s1, txId, dammPool, a.owner, f.withdrawX, f.withdrawY, timestamp);
    var s2 := FeeIfWithdrawn(s1, txId, dammPool, a.owner, f, timestamp);
    PoolUpdateStepValid(s2, bp, bp.reserveX + f.NetX(), bp.reserveY + f.NetY(), bp.totalLiquidity, bp.status, timestamp);
  }

  lemma ClaimFeeStepValid(s: DammState, db: Durable, a: ClaimFeeAccounts, transfers: seq<Transfer>, txId: string, timestamp: nat)
    requires s.Valid() && db.Keyed()
    ensures ClaimFeeStep(s, db, a, transfers, txId, timestamp).Valid()
  {
    FindStepValid(s, db, a.pool);
    var (s1, found) := FindStep(s, db, a.pool);
    if a.HasRequired() && found.Some? {
      ClaimFeeOnPoolValid(s1, db, a, found.value, transfers, txId, timestamp);
    }
  }

  lemma PoolStatusStepsValid(s: DammState, db: Durable, poolAddress: string, enable: bool, timestamp: nat)
    requires s.Valid() && db.Keyed()
    ensures EnableStep(s, db, poolAddress, enable, timestamp).Valid()
    ensures OverrideStep(s, db, poolAddress, timestamp).Valid()
  {
    FindStepValid(s, db, poolAddress);
    var (s1, found) := FindStep(s, db, poolAddress);
    if Present(poolAddress) && found.Some? {
      var bp := found.value;
      PoolUpdateStepValid(s1, bp, bp.reserveX, bp.reserveY, bp.totalLiquidity, enable, timestamp);
      PoolUpdateStepValid(s1, bp, bp.reserveX, bp.reserveY, bp.totalLiquidity, bp.status, timestamp);
    }
  }

  lemma InitializeStepValid(s: DammState, db: Durable, a: InitAccounts, d: InitData, timestamp: nat)
    requires s.Valid() && db.Keyed()
    ensures InitializeStep(s, db, a, d, timestamp).Valid()
  {
    if a.HasRequired() {
      FindStepValid(s, db, a.pool);
      var (s1, found) := FindStep(s, db, a.pool);
      if found.None? {
        var p := NewBasePool(a.pool, a.tokenAMint, a.tokenBMint, a.aTokenVault, a.bTokenVault, d.tokenAAmount, d.tokenBAmount, timestamp);
        SaveKeepsValid(s1.basePools, p.id, p);
      }
    }
  }

  /**
   * Processing any instruction, whatever its layout and whether or not it
   * decodes, keeps every store well formed: entity stores keyed by id in
   * insertion order, the swap store append-only.
   */
  lemma ProcessPreservesValid(s: DammState, db: Durable, codecs: DammCodecs, ins: Instruction, timestamp: nat)
    requires s.Valid() && db.Keyed()
    ensures Process(s, db, codecs, ins, timestamp).Valid()
  {
    var transfers := TokenTransfers(ins.inner, codecs.tokens);
    match codecs.layoutOf(ins.d8)
    case None =>
    case Some(kind) =>
      if kind.IsInitialize() {
        if codecs.decodeInit(ins).Some? {
          InitializeStepValid(s, db, codecs.decodeInit(ins).value.0, codecs.decodeInit(ins).value.1, timestamp);
        }
      } else if LiquidityKindOf(kind).Some? {
        if codecs.decodeLiquidity(ins).Some? {
          var (a, lp) := codecs.decodeLiquidity(ins).value;
          LiquidityStepValid(s, db, LiquidityKindOf(kind).value, a, lp, transfers, timestamp);
        }
      } else if kind.SwapInstruction? {
        if codecs.decodeSwap(ins).Some? {
          SwapStepValid(s, db, codecs.decodeSwap(ins).value, transfers, ins.transactionId, timestamp);
        }
      } else if kind.BootstrapLiquidity? {
        if codecs.decodeBootstrap(ins).Some? {
          BootstrapStepValid(s, db, codecs.decodeBootstrap(ins).value, transfers, timestamp);
        }
      } else if kind.EnableOrDisablePool? {
        if codecs.decodeEnable(ins).Some? {
          var (pool, enable) := codecs.decodeEnable(ins).value;
          PoolStatusStepsValid(s, db, pool, enable, timestamp);
        }
      } else if kind.OverrideCurveParam? {
        if codecs.decodeOverride(ins).Some? {
          PoolStatusStepsValid(s, db, codecs.decodeOverride(ins).value, true, timestamp);
        }
      } else if kind.ClaimFee? {
        if codecs.decodeClaimFee(ins).Some? {
          ClaimFeeStepValid(s, db, codecs.decodeClaimFee(ins).value, transfers, ins.transactionId, timestamp);
        }
      }
  }

  /** An unknown layout and the dispatch's default case leave every store as it was. */
  lemma ProcessIgnoresUnknownLayouts(s: DammState, db: Durable, codecs: DammCodecs, ins: Instruction, timestamp: nat)
    requires codecs.layoutOf(ins.d8).None? || codecs.layoutOf(ins.d8) == Some(OtherDammInstruction)
    ensures Process(s, db, codecs, ins, timestamp) == s
  {
  }

  /** A layout whose decoder fails (the error is swallowed by the catch) leaves every store as it was. */
  lemma ProcessIgnoresDecodeFailures(s: DammState, db: Durable, codecs: DammCodecs, ins: Instruction, timestamp: nat)
    requires codecs.layoutOf(ins.d8).Some?
    requires var kind := codecs.layoutOf(ins.d8).value;
      || (kind.IsInitialize() && codecs.decodeInit(ins).None?)
      || (LiquidityKindOf(kind).Some? && codecs.decodeLiquidity(ins).None?)
      || (kind.SwapInstruction? && codecs.decodeSwap(ins).None?)
      || (kind.BootstrapLiquidity? && codecs.decodeBootstrap(ins).None?)
      || (kind.EnableOrDisablePool? && codecs.decodeEnable(ins).None?)
      || (kind.OverrideCurveParam? && codecs.decodeOverride(ins).None?)
      || (kind.ClaimFee? && codecs.decodeClaimFee(ins).None?)
    ensures Process(s, db, codecs, ins, timestamp) == s
  {
  }
}
