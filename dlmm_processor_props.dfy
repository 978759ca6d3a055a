/**
 * What the DLMM handlers of src/dlmm/processor.ts promise, stated on the
 * pure steps the `DlmmProcessor.Processor` methods are proved against, and
 * what follows for a whole batch as src/main.ts drives it.
 */
module DlmmProcessorProps {
  import opened Wrappers
  import opened Entities
  import opened Store
  import opened Utils
  import opened Transfers
  import opened NetFlow
  import SwapIndex
  import DammPoolService
  import opened DlmmPoolService
  import opened DlmmSwapService
  import opened DlmmLiquidityService
  import opened DlmmPositionService
  import opened DlmmRewardService
  import opened DlmmFeeService
  import opened DlmmProcessor

  /**
   * The store kinds (only swaps are events) and the caches keyed by id: all
   * the handler lemmas below need of `Valid`.
   */
  predicate Shaped(s: DlmmState) {
    && !s.basePools.isEvent && DammPoolService.BasePoolsKeyed(s.basePools.entries)
    && !s.dlmmPools.isEvent && DlmmPoolsKeyed(s.dlmmPools.entries)
    && !s.positions.isEvent && !s.changes.isEvent && s.swaps.isEvent
    && !s.rewards.isEvent && RewardsKeyed(s.rewards.entries) && !s.fees.isEvent
  }

  // ---------------------------------------------------------------------
  // `transfers.find`
  // ---------------------------------------------------------------------

  /** Only the first matching transfer counts: transfers after it never change what `find` returns. */
  lemma FirstMatchIgnoresLater(a: seq<Transfer>, b: seq<Transfer>, account: string, fromAccount: bool)
    requires FirstMatch(a, account, fromAccount).Some?
    ensures FirstMatch(a + b, account, fromAccount) == FirstMatch(a, account, fromAccount)
  {
    var i := FirstMatch(a, account, fromAccount).value;
    assert forall j :: 0 <= j <= i ==> (a + b)[j] == a[j];
  }

  // ---------------------------------------------------------------------
  // Initialize
  // ---------------------------------------------------------------------

  /**
   * With the required accounts, the pair and its base pool exist afterwards;
   * a base pool new to the cache takes the reserve accounts as vaults and
   * the initial reserve amounts read off the created accounts; a pair new
   * to the cache carries the instruction's bin step and active bin and no
   * activation fields; a cached base pool or pair is left as it was.  Only
   * the pair's entries in the two pool caches can change.
   */
  lemma InitializeSpec(s: DlmmState, a: InitAccounts, d: InitData, created: seq<CreateAccount>, timestamp: nat)
    requires Shaped(s)
    ensures var s' := InitializeStep(s, a, d, created, timestamp);
      && Shaped(s')
      && s' == s.(basePools := s'.basePools, dlmmPools := s'.dlmmPools)
      && (!a.HasRequired() ==> s' == s)
      && (a.HasRequired() ==> s'.basePools.Find(a.lbPair).Some? && s'.dlmmPools.Find(a.lbPair).Some?)
      && (a.HasRequired() && a.lbPair !in s.basePools.entries ==>
            var amounts := InitialReserves(created, a.reserveX, a.reserveY);
            s'.basePools.Find(a.lbPair)
              == Some(NewBasePool(a.lbPair, a.tokenMintX, a.tokenMintY, a.reserveX, a.reserveY, amounts.0, amounts.1,
                                  timestamp)))
      && (a.HasRequired() && a.lbPair !in s.dlmmPools.entries ==>
            s'.dlmmPools.Find(a.lbPair) == Some(DlmmPool(a.lbPair, a.lbPair, d.binStep, d.activeId, None, None, None)))
      && (a.HasRequired() && a.lbPair in s.dlmmPools.entries ==> s'.dlmmPools == s.dlmmPools)
      && (a.lbPair in s.basePools.entries ==> s'.basePools == s.basePools)
      && KeptOutside(s.basePools, s'.basePools, {a.lbPair}) && KeptOutside(s.dlmmPools, s'.dlmmPools, {a.lbPair})
  {
    if a.HasRequired() {
      var amounts := InitialReserves(created, a.reserveX, a.reserveY);
      GetOrCreateBasePoolSpec(s.basePools, a.lbPair, a.tokenMintX, a.tokenMintY, a.reserveX, a.reserveY, amounts.0,
                              amounts.1, timestamp);
      var (basePools', bp) := GetOrCreateBasePoolIn(s.basePools, a.lbPair, a.tokenMintX, a.tokenMintY, a.reserveX,
                                                    a.reserveY, amounts.0, amounts.1, timestamp);
      assert bp.id == a.lbPair;
      GetOrCreateDlmmPoolSpec(s.dlmmPools, a.lbPair, bp, d.binStep, d.activeId, None, None, None);
    }
  }

  // ---------------------------------------------------------------------
  // Swap
  // ---------------------------------------------------------------------

  /** The net flows have strictly opposite signs: the only pattern the swap handler records. */
  predicate OppositeSigns(netX: int, netY: int) {
    (netX < 0 && netY > 0) || (netY < 0 && netX > 0)
  }

  /**
   * The swap record of a swap with net flows (`netX`, `netY`) on the reserve
   * accounts: the side whose reserve LOST tokens is recorded as the input,
   * with that loss as the amount in and the other side's gain as the amount
   * out; no price impact is recorded.
   */
  predicate SwapRecordedAs(w: DlmmSwap, a: SwapAccounts, netX: int, netY: int, timestamp: nat) {
    && w.pool == a.lbPair && w.userAddress == a.user && w.priceImpactBps.None? && w.timestamp == timestamp * 1000
    && (netX < 0 ==> && w.tokenInAddress == a.tokenXMint && w.tokenOutAddress == a.tokenYMint
                     && w.amountIn == -netX && w.amountOut == netY)
    && (netY < 0 ==> && w.tokenInAddress == a.tokenYMint && w.tokenOutAddress == a.tokenXMint
                     && w.amountIn == -netY && w.amountOut == netX)
  }

  /**
   * `w` appended to the swap event store, its id carrying the transaction's
   * next swap index; only that transaction's counter moves on.
   */
  ghost predicate SwapAppended(before: DlmmState, after: DlmmState, txId: string, w: DlmmSwap) {
    && after.swaps.events == before.swaps.events + [w]
    && ParseIndexedId(w.id) == Some((txId, SwapIndex.Current(before.swapIndices, txId)))
    && SwapIndex.Current(after.swapIndices, txId) == SwapIndex.Current(before.swapIndices, txId) + 1
    && forall other :: other != txId ==>
         SwapIndex.Current(after.swapIndices, other) == SwapIndex.Current(before.swapIndices, other)
  }

  /**
   * What the swap handler does once both pool records were found: a swap is
   * appended and the reserves move by the net flows exactly when the signs
   * are opposite; otherwise nothing changes.  No other base pool moves, and
   * pairs, positions, changes, rewards and fees are never touched.
   */
  ghost predicate SwapOutcome(before: DlmmState, after: DlmmState, a: SwapAccounts, bp: BasePool, netX: int, netY: int,
                        txId: string, timestamp: nat)
  {
    && after.dlmmPools == before.dlmmPools && after.positions == before.positions && after.changes == before.changes
    && after.rewards == before.rewards && after.fees == before.fees
    && (!OppositeSigns(netX, netY) ==>
          after.basePools == before.basePools && after.swaps == before.swaps && after.swapIndices == before.swapIndices)
    && (OppositeSigns(netX, netY) ==>
          && after.basePools.Find(bp.id)
               == Some(DammPoolService.UpdatedBasePool(bp, bp.reserveX + netX, bp.reserveY + netY, bp.totalLiquidity,
                                                       bp.status, timestamp))
          && KeptOutside(before.basePools, after.basePools, {bp.id})
          && |after.swaps.events| > 0
          && var w := after.swaps.events[|after.swaps.events| - 1];
             SwapAppended(before, after, txId, w) && SwapRecordedAs(w, a, netX, netY, timestamp))
  }

  /** A classified swap: appended as `SwapRecordedAs` says, and the pool's reserves moved by the net flows. */
  lemma SwapApplySpec(s: DlmmState, a: SwapAccounts, bp: BasePool, dlmmPool: DlmmPool, f: Flows, txId: string,
                      timestamp: nat)
    requires Shaped(s) && dlmmPool.id == a.lbPair && DlmmSwapLeg(f.NetX(), f.NetY()).Some?
    ensures var s' := SwapApply(s, a, bp, dlmmPool, DlmmSwapLeg(f.NetX(), f.NetY()).value, f, txId, timestamp);
      && s'.dlmmPools == s.dlmmPools && s'.positions == s.positions && s'.changes == s.changes
      && s'.rewards == s.rewards && s'.fees == s.fees
      && s'.basePools.Find(bp.id)
           == Some(DammPoolService.UpdatedBasePool(bp, bp.reserveX + f.NetX(), bp.reserveY + f.NetY(),
                                                   bp.totalLiquidity, bp.status, timestamp))
      && KeptOutside(s.basePools, s'.basePools, {bp.id})
      && |s'.swaps.events| > 0
      && var w := s'.swaps.events[|s'.swaps.events| - 1];
         SwapAppended(s, s', txId, w) && SwapRecordedAs(w, a, f.NetX(), f.NetY(), timestamp)
  {
    SwapIdRoundTrip(txId, SwapIndex.Current(s.swapIndices, txId));
  }

  lemma SwapOnPoolSpec(s: DlmmState, a: SwapAccounts, bp: BasePool, dlmmPool: DlmmPool, f: Flows, txId: string,
                       timestamp: nat)
    requires Shaped(s) && dlmmPool.id == a.lbPair
    ensures SwapOutcome(s, SwapOnPool(s, a, bp, dlmmPool, f, txId, timestamp), a, bp, f.NetX(), f.NetY(), txId, timestamp)
  {
    if DlmmSwapLeg(f.NetX(), f.NetY()).Some? {
      SwapApplySpec(s, a, bp, dlmmPool, f, txId, timestamp);
    }
  }

  /**
   * The swap handler: missing accounts, or a pair whose base pool or DLMM
   * record is not in the cache, change nothing; otherwise `SwapOutcome`
   * holds for the flows on the instruction's reserve accounts.
   */
  lemma SwapSpec(s: DlmmState, a: SwapAccounts, transfers: seq<Transfer>, txId: string, timestamp: nat)
    requires Shaped(s)
    ensures var s' := SwapStep(s, a, transfers, txId, timestamp);
      && (!a.HasRequired() || a.lbPair !in s.basePools.entries || a.lbPair !in s.dlmmPools.entries ==> s' == s)
      && (a.HasRequired() && a.lbPair in s.basePools.entries && a.lbPair in s.dlmmPools.entries ==>
            var f := FlowsOf(transfers, a.reserveX, a.reserveY);
            SwapOutcome(s, s', a, s.basePools.entries[a.lbPair], f.NetX(), f.NetY(), txId, timestamp))
  {
    if a.HasRequired() && a.lbPair in s.basePools.entries && a.lbPair in s.dlmmPools.entries {
      SwapOnPoolSpec(s, a, s.basePools.entries[a.lbPair], s.dlmmPools.entries[a.lbPair],
                     FlowsOf(transfers, a.reserveX, a.reserveY), txId, timestamp);
    }
  }

  // ---------------------------------------------------------------------
  // Add and remove liquidity
  // ---------------------------------------------------------------------

  /**
   * What an add or remove does once the pair was found.  Only when the
   * guard accepts the net flows AND a position is stored under the bare
   * position account is anything written: the change, under the
   * pool/owner/time key with the inflows (add) or outflows (remove), and,
   * if the base pool is cached, its reserves moved by the net flows.  No
   * other change or base pool moves, and pairs, positions, swaps, rewards
   * and fees are never touched.
   */
  ghost predicate LiquidityOutcome(before: DlmmState, after: DlmmState, changeType: DlmmChangeType, a: LiquidityAccounts,
                             netX: int, netY: int, timestamp: nat)
  {
    && after.dlmmPools == before.dlmmPools && after.positions == before.positions && after.swaps == before.swaps
    && after.swapIndices == before.swapIndices && after.rewards == before.rewards && after.fees == before.fees
    && (!LiquidityAccepted(changeType, netX, netY) || a.position !in before.positions.entries ==>
          after.basePools == before.basePools && after.changes == before.changes)
    && (LiquidityAccepted(changeType, netX, netY) && a.position in before.positions.entries ==>
          var position := before.positions.entries[a.position];
          var key := ChangeId(a.lbPair, position.owner, timestamp);
          var amounts := RecordedAmounts(changeType, netX, netY);
          && after.changes.Find(key)
               == Some(DlmmLiquidityChange(key, a.lbPair, position.id, changeType, amounts.0, amounts.1, timestamp * 1000))
          && KeptOutside(before.changes, after.changes, {key})
          && KeptOutside(before.basePools, after.basePools, {a.lbPair})
          && (a.lbPair !in before.basePools.entries ==> after.basePools == before.basePools)
          && (a.lbPair in before.basePools.entries ==>
                var bp := before.basePools.entries[a.lbPair];
                after.basePools.Find(a.lbPair)
                  == Some(DammPoolService.UpdatedBasePool(bp, bp.reserveX + netX, bp.reserveY + netY, bp.totalLiquidity,
                                                          bp.status, timestamp))))
  }

  lemma LiquidityOnPoolSpec(s: DlmmState, changeType: DlmmChangeType, a: LiquidityAccounts, dlmmPool: DlmmPool, f: Flows,
                            timestamp: nat)
    requires Shaped(s) && dlmmPool.id == a.lbPair
    ensures LiquidityOutcome(s, LiquidityOnPool(s, changeType, a, dlmmPool, f, timestamp), changeType, a, f.NetX(),
                             f.NetY(), timestamp)
  {
  }

  /**
   * The add and remove handlers: missing accounts or an uncached pair change
   * nothing; otherwise `LiquidityOutcome` holds for the flows on the
   * instruction's reserve accounts.  An add is refused only when neither
   * net flow is positive, a remove only when neither is negative.
   */
  lemma LiquiditySpec(s: DlmmState, changeType: DlmmChangeType, a: LiquidityAccounts, transfers: seq<Transfer>,
                      timestamp: nat)
    requires Shaped(s)
    ensures var s' := LiquidityStep(s, changeType, a, transfers, timestamp);
      && (!a.HasRequired() || a.lbPair !in s.dlmmPools.entries ==> s' == s)
      && (a.HasRequired() && a.lbPair in s.dlmmPools.entries ==>
            var f := FlowsOf(transfers, a.reserveX, a.reserveY);
            LiquidityOutcome(s, s', changeType, a, f.NetX(), f.NetY(), timestamp))
    ensures forall netX: int, netY: int {:trigger LiquidityAccepted(changeType, netX, netY)} ::
      LiquidityAccepted(changeType, netX, netY) <==>
        (changeType.DlmmAdd? ==> netX > 0 || netY > 0) && (changeType.DlmmRemove? ==> netX < 0 || netY < 0)
  {
    if a.HasRequired() && a.lbPair in s.dlmmPools.entries {
      LiquidityOnPoolSpec(s, changeType, a, s.dlmmPools.entries[a.lbPair], FlowsOf(transfers, a.reserveX, a.reserveY),
                          timestamp);
    }
  }

  // ---------------------------------------------------------------------
  // Rewards
  // ---------------------------------------------------------------------

  /**
   * Claim reward: without the accounts, without both a transfer out of the
   * reward vault and one into the user's account, or with an uncached pair,
   * nothing changes.  Otherwise reward 0 of the pair is (re)created twice,
   * so what remains is the reward with the amount RECEIVED by the user,
   * funded by the user, with duration 0; no other reward and no other store
   * changes.
   */
  lemma ClaimRewardSpec(s: DlmmState, a: ClaimRewardAccounts, transfers: seq<Transfer>, timestamp: nat, other: string)
    requires Shaped(s)
    ensures var s' := ClaimRewardStep(s, a, transfers, timestamp);
      var sent := FirstAmount(transfers, a.rewardVault, true);
      var received := FirstAmount(transfers, a.userRewardToken, false);
      && s' == s.(rewards := s'.rewards)
      && (!a.HasRequired() || sent.None? || received.None? || a.lbPair !in s.dlmmPools.entries ==> s' == s)
      && (a.HasRequired() && sent.Some? && received.Some? && a.lbPair in s.dlmmPools.entries ==>
            var key := CreateRewardId(a.lbPair, 0);
            && s'.rewards.Find(key)
                 == Some(DlmmReward(key, a.lbPair, 0, 0, a.user, received.value, timestamp * 1000, timestamp * 1000))
            && (other != key ==> s'.rewards.Find(other) == s.rewards.Find(other)))
  {
  }

  /**
   * Fund reward (a handler the dispatch never reaches): the reward of the
   * given pair and index, when both are cached, has the funded amount added
   * and a new update time; no other reward and no other store changes.
   */
  lemma FundRewardSpec(s: DlmmState, r: FundRewardRequest, timestamp: nat)
    requires Shaped(s)
    ensures var s' := FundRewardStep(s, r, timestamp);
      var key := CreateRewardId(r.lbPair, r.rewardIndex);
      && s' == s.(rewards := s'.rewards)
      && (!Present(r.lbPair) || r.lbPair !in s.dlmmPools.entries || key !in s.rewards.entries ==> s' == s)
      && (Present(r.lbPair) && r.lbPair in s.dlmmPools.entries && key in s.rewards.entries ==>
            var reward := s.rewards.entries[key];
            s'.rewards.Find(key) == Some(reward.(amount := reward.amount + r.amount, lastUpdateTime := timestamp * 1000)))
      && KeptOutside(s.rewards, s'.rewards, {key})
  {
  }

  /** Two fundings of one reward add up: the amount grows by both, everything else but the update time stays. */
  lemma FundRewardAccumulates(s: DlmmState, r1: FundRewardRequest, r2: FundRewardRequest, t1: nat, t2: nat)
    requires Shaped(s)
    requires r1.lbPair == r2.lbPair && r1.rewardIndex == r2.rewardIndex
    requires Present(r1.lbPair) && r1.lbPair in s.dlmmPools.entries
    requires CreateRewardId(r1.lbPair, r1.rewardIndex) in s.rewards.entries
    ensures var key := CreateRewardId(r1.lbPair, r1.rewardIndex);
      var reward := s.rewards.entries[key];
      FundRewardStep(FundRewardStep(s, r1, t1), r2, t2).rewards.Find(key)
        == Some(reward.(amount := reward.amount + r1.amount + r2.amount, lastUpdateTime := t2 * 1000))
  {
    var key := CreateRewardId(r1.lbPair, r1.rewardIndex);
    FundRewardSpec(s, r1, t1);
    var s1 := FundRewardStep(s, r1, t1);
    assert Shaped(s1);
    FundRewardSpec(s1, r2, t2);
  }

  // ---------------------------------------------------------------------
  // Fee claims
  // ---------------------------------------------------------------------

  /**
   * What one direction's two claims leave under that direction's key: the
   * Y claim (amount on Y, 0 on X) replaces the X claim when both exist.
   */
  function LastClaim(onX: Option<nat>, onY: Option<nat>): Option<(nat, nat)> {
    if onY.Some? then Some((0, onY.value))
    else if onX.Some? then Some((onX.value, 0))
    else None
  }

  /** The fee entry under `key` after a claim in `direction`, or untouched when there was no claim. */
  predicate FeeSlot(before: StoreState<DlmmFee>, after: StoreState<DlmmFee>, key: string, a: ClaimFeeAccounts,
                    direction: FeeDirection, claim: Option<(nat, nat)>, timestamp: nat)
  {
    && (claim.None? ==> after.Find(key) == before.Find(key))
    && (claim.Some? ==>
          after.Find(key) == Some(DlmmFee(key, a.lbPair, a.position, a.user, claim.value.0, claim.value.1, direction,
                                          timestamp)))
  }

  /**
   * One direction's X then Y claim: the direction's key holds the last
   * claim made, every other key reads as before, and only the fee store
   * changes.
   */
  lemma ClaimDirectionSpec(s: DlmmState, a: ClaimFeeAccounts, dlmmPool: DlmmPool, onX: Option<nat>, onY: Option<nat>,
                           txId: string, direction: FeeDirection, timestamp: nat)
    requires !s.fees.isEvent && dlmmPool.id == a.lbPair
    ensures var s1 := ClaimIfFound(s, txId, dlmmPool, a, onX, true, direction, timestamp);
      var s2 := ClaimIfFound(s1, txId, dlmmPool, a, onY, false, direction, timestamp);
      var key := FeeClaimId(txId, direction, a.position);
      && s2 == s.(fees := s2.fees) && !s2.fees.isEvent
      && FeeSlot(s.fees, s2.fees, key, a, direction, LastClaim(onX, onY), timestamp)
      && KeptOutside(s.fees, s2.fees, {key})
  {
  }

  lemma ClaimFeeOnPoolSpec(s: DlmmState, a: ClaimFeeAccounts, dlmmPool: DlmmPool, transfers: seq<Transfer>,
                           txId: string, timestamp: nat)
    requires Shaped(s) && dlmmPool.id == a.lbPair
    ensures var s' := ClaimFeeOnPool(s, a, dlmmPool, transfers, txId, timestamp);
      && s' == s.(fees := s'.fees)
      && FeeSlot(s.fees, s'.fees, FeeClaimId(txId, Out, a.position), a, Out,
                 LastClaim(FirstAmount(transfers, a.reserveX, true), FirstAmount(transfers, a.reserveY, true)), timestamp)
      && FeeSlot(s.fees, s'.fees, FeeClaimId(txId, In, a.position), a, In,
                 LastClaim(FirstAmount(transfers, a.userTokenX, false), FirstAmount(transfers, a.userTokenY, false)),
                 timestamp)
      && KeptOutside(s.fees, s'.fees, {FeeClaimId(txId, Out, a.position), FeeClaimId(txId, In, a.position)})
  {
    var outX, outY := FirstAmount(transfers, a.reserveX, true), FirstAmount(transfers, a.reserveY, true);
    var inX, inY := FirstAmount(transfers, a.userTokenX, false), FirstAmount(transfers, a.userTokenY, false);
    var outKey, inKey := FeeClaimId(txId, Out, a.position), FeeClaimId(txId, In, a.position);
    DirectionsKeptApart(txId, a.position);
    ClaimDirectionSpec(s, a, dlmmPool, outX, outY, txId, Out, timestamp);
    var s2 := ClaimIfFound(ClaimIfFound(s, txId, dlmmPool, a, outX, true, Out, timestamp),
                           txId, dlmmPool, a, outY, false, Out, timestamp);
    ClaimDirectionSpec(s2, a, dlmmPool, inX, inY, txId, In, timestamp);
  }

  /**
   * Claim fee: missing accounts or an uncached pair change nothing.
   * Otherwise at most two fee entries result, one per direction, keyed by
   * transaction, direction and position: the outgoing one from the first
   * transfers out of the reserves, the incoming one from the first
   * transfers into the user's accounts, each keeping only its Y claim when
   * both sides moved.  The timestamp is stored as passed, and no other store
   * changes.
   */
  lemma ClaimFeeSpec(s: DlmmState, a: ClaimFeeAccounts, transfers: seq<Transfer>, txId: string, timestamp: nat)
    requires Shaped(s)
    ensures var s' := ClaimFeeStep(s, a, transfers, txId, timestamp);
      && s' == s.(fees := s'.fees)
      && (!a.HasRequired() || a.lbPair !in s.dlmmPools.entries ==> s' == s)
      && (a.HasRequired() && a.lbPair in s.dlmmPools.entries ==>
            && FeeSlot(s.fees, s'.fees, FeeClaimId(txId, Out, a.position), a, Out,
                       LastClaim(FirstAmount(transfers, a.reserveX, true), FirstAmount(transfers, a.reserveY, true)),
                       timestamp)
            && FeeSlot(s.fees, s'.fees, FeeClaimId(txId, In, a.position), a, In,
                       LastClaim(FirstAmount(transfers, a.userTokenX, false), FirstAmount(transfers, a.userTokenY, false)),
                       timestamp)
            && KeptOutside(s.fees, s'.fees, {FeeClaimId(txId, Out, a.position), FeeClaimId(txId, In, a.position)}))
  {
    if a.HasRequired() && a.lbPair in s.dlmmPools.entries {
      ClaimFeeOnPoolSpec(s, a, s.dlmmPools.entries[a.lbPair], transfers, txId, timestamp);
    }
  }

  // ---------------------------------------------------------------------
  // Toggle pair status
  // ---------------------------------------------------------------------

  /**
   * The pair named by the instruction's first account, when cached, has its
   * status flipped and a new update time, nothing else of it changing; no
   * other pool or store changes.
   */
  lemma ToggleSpec(s: DlmmState, accounts: seq<string>, timestamp: nat)
    requires Shaped(s)
    ensures var s' := ToggleStep(s, accounts, timestamp);
      && s' == s.(basePools := s'.basePools)
      && (|accounts| == 0 || accounts[0] !in s.basePools.entries ==> s' == s)
      && (|accounts| > 0 && accounts[0] in s.basePools.entries ==>
            var bp := s.basePools.entries[accounts[0]];
            && s'.basePools.Find(accounts[0]) == Some(bp.(status := !bp.status, updatedAt := timestamp * 1000))
            && forall other :: other != accounts[0] ==> s'.basePools.Find(other) == s.basePools.Find(other))
  {
  }

  /** Toggling twice restores the status; only the update time moves. */
  lemma ToggleTwiceRestoresStatus(s: DlmmState, accounts: seq<string>, t1: nat, t2: nat)
    requires Shaped(s) && |accounts| > 0 && accounts[0] in s.basePools.entries
    ensures ToggleStep(ToggleStep(s, accounts, t1), accounts, t2).basePools.Find(accounts[0])
      == Some(s.basePools.entries[accounts[0]].(updatedAt := t2 * 1000))
  {
    ToggleSpec(s, accounts, t1);
    var s1 := ToggleStep(s, accounts, t1);
    var key := accounts[0];
    assert Shaped(s1);
    ToggleSpec(s1, accounts, t2);
  }

  // ---------------------------------------------------------------------
  // Dispatch
  // ---------------------------------------------------------------------

  /** No handler the dispatch reaches writes a position. */
  lemma ProcessKeepsPositions(s: DlmmState, codecs: DlmmCodecs, ins: Instruction, timestamp: nat)
    ensures Process(s, codecs, ins, timestamp).positions == s.positions
  {
    var transfers := TokenTransfersChecked(ins.inner, codecs.tokens);
    match codecs.layoutOf(ins.d8)
    case None =>
    case Some(kind) =>
      if kind.IsInitialize() {
        if codecs.decodeInit(ins).Some? {
          var (a, d) := codecs.decodeInit(ins).value;
          assert InitializeStep(s, a, d, SystemCreateAccounts(ins.inner, codecs.tokens), timestamp).positions == s.positions;
        }
      } else if kind.IsSwap() {
        if codecs.decodeSwap(ins).Some? {
          SwapStepKeepsPositions(s, codecs.decodeSwap(ins).value, transfers, ins.transactionId, timestamp);
        }
      } else if kind.IsAdd() || kind.IsRemove() {
        if codecs.decodeLiquidity(ins).Some? {
          var changeType := if kind.IsAdd() then DlmmAdd else DlmmRemove;
          LiquidityStepKeepsPositions(s, changeType, codecs.decodeLiquidity(ins).value, transfers, timestamp);
        }
      } else if kind.ClaimReward? {
        if codecs.decodeClaimReward(ins).Some? {
          assert ClaimRewardStep(s, codecs.decodeClaimReward(ins).value, transfers, timestamp).positions == s.positions;
        }
      } else if kind.ClaimFee? {
        if codecs.decodeClaimFee(ins).Some? {
          var a := codecs.decodeClaimFee(ins).value;
          assert ClaimFeeStep(s, a, transfers, ins.transactionId, timestamp).positions == s.positions;
        }
      }
  }

  lemma SwapStepKeepsPositions(s: DlmmState, a: SwapAccounts, transfers: seq<Transfer>, txId: string, timestamp: nat)
    ensures SwapStep(s, a, transfers, txId, timestamp).positions == s.positions
  {
  }

  /** An add or remove keeps the positions; with none stored it records no change either. */
  lemma LiquidityStepKeepsPositions(s: DlmmState, changeType: DlmmChangeType, a: LiquidityAccounts,
                                    transfers: seq<Transfer>, timestamp: nat)
    ensures LiquidityStep(s, changeType, a, transfers, timestamp).positions == s.positions
    ensures s.positions.entries == map[] ==> LiquidityStep(s, changeType, a, transfers, timestamp).changes == s.changes
  {
  }

  /**
   * With no position stored, no instruction records a liquidity change:
   * add and remove look the position up under the bare position account and
   * stop when it is missing.
   */
  lemma ProcessWithoutPositionsKeepsChanges(s: DlmmState, codecs: DlmmCodecs, ins: Instruction, timestamp: nat)
    requires s.positions.entries == map[]
    ensures Process(s, codecs, ins, timestamp).changes == s.changes
  {
    var transfers := TokenTransfersChecked(ins.inner, codecs.tokens);
    match codecs.layoutOf(ins.d8)
    case None =>
    case Some(kind) =>
      if kind.IsInitialize() {
        if codecs.decodeInit(ins).Some? {
          var (a, d) := codecs.decodeInit(ins).value;
          assert InitializeStep(s, a, d, SystemCreateAccounts(ins.inner, codecs.tokens), timestamp).changes == s.changes;
        }
      } else if kind.IsSwap() {
        if codecs.decodeSwap(ins).Some? {
          SwapStepKeepsChanges(s, codecs.decodeSwap(ins).value, transfers, ins.transactionId, timestamp);
        }
      } else if kind.IsAdd() || kind.IsRemove() {
        if codecs.decodeLiquidity(ins).Some? {
          var changeType := if kind.IsAdd() then DlmmAdd else DlmmRemove;
          LiquidityStepKeepsPositions(s, changeType, codecs.decodeLiquidity(ins).value, transfers, timestamp);
        }
      } else if kind.ClaimReward? {
        if codecs.decodeClaimReward(ins).Some? {
          assert ClaimRewardStep(s, codecs.decodeClaimReward(ins).value, transfers, timestamp).changes == s.changes;
        }
      } else if kind.ClaimFee? {
        if codecs.decodeClaimFee(ins).Some? {
          var a := codecs.decodeClaimFee(ins).value;
          assert ClaimFeeStep(s, a, transfers, ins.transactionId, timestamp).changes == s.changes;
        }
      }
  }

  lemma SwapStepKeepsChanges(s: DlmmState, a: SwapAccounts, transfers: seq<Transfer>, txId: string, timestamp: nat)
    ensures SwapStep(s, a, transfers, txId, timestamp).changes == s.changes
  {
  }

  /** src/main.ts: a fresh processor runs every DLMM instruction of the batch in order, with its block's time. */
  function ProcessBatch(s: DlmmState, codecs: DlmmCodecs, batch: seq<(Instruction, nat)>): DlmmState
    decreases |batch|
  {
    if |batch| == 0 then s
    else ProcessBatch(Process(s, codecs, batch[0].0, batch[0].1), codecs, batch[1..])
  }

  /**
   * Nothing in the DLMM processor creates a position, so a batch that
   * starts with no positions ends with none and records no liquidity
   * change at all, whatever its add and remove instructions.
   */
  lemma {:induction false} BatchRecordsNoLiquidityChanges(s: DlmmState, codecs: DlmmCodecs, batch: seq<(Instruction, nat)>)
    requires s.positions.entries == map[]
    ensures ProcessBatch(s, codecs, batch).positions == s.positions
    ensures ProcessBatch(s, codecs, batch).changes == s.changes
    decreases |batch|
  {
    if |batch| > 0 {
      ProcessKeepsPositions(s, codecs, batch[0].0, batch[0].1);
      ProcessWithoutPositionsKeepsChanges(s, codecs, batch[0].0, batch[0].1);
      BatchRecordsNoLiquidityChanges(Process(s, codecs, batch[0].0, batch[0].1), codecs, batch[1..]);
    }
  }

  /** A batch run by a new processor leaves the liquidity-change store empty. */
  lemma FreshBatchRecordsNoLiquidityChanges(codecs: DlmmCodecs, batch: seq<(Instruction, nat)>)
    ensures ProcessBatch(EmptyState(), codecs, batch).changes.entries == map[]
    ensures ProcessBatch(EmptyState(), codecs, batch).positions.entries == map[]
  {
    BatchRecordsNoLiquidityChanges(EmptyState(), codecs, batch);
  }

  /** An unknown layout and the dispatch's default case leave every store as it was. */
  lemma ProcessIgnoresUnknownLayouts(s: DlmmState, codecs: DlmmCodecs, ins: Instruction, timestamp: nat)
    requires codecs.layoutOf(ins.d8).None? || codecs.layoutOf(ins.d8) == Some(OtherDlmmInstruction)
    ensures Process(s, codecs, ins, timestamp) == s
  {
  }

  /** A layout whose decoder fails (the error is swallowed by the catch) leaves every store as it was. */
  lemma ProcessIgnoresDecodeFailures(s: DlmmState, codecs: DlmmCodecs, ins: Instruction, timestamp: nat)
    requires codecs.layoutOf(ins.d8).Some?
    requires var kind := codecs.layoutOf(ins.d8).value;
      || (kind.IsInitialize() && codecs.decodeInit(ins).None?)
      || (kind.IsSwap() && codecs.decodeSwap(ins).None?)
      || ((kind.IsAdd() || kind.IsRemove()) && codecs.decodeLiquidity(ins).None?)
      || (kind.ClaimReward? && codecs.decodeClaimReward(ins).None?)
      || (kind.ClaimFee? && codecs.decodeClaimFee(ins).None?)
    ensures Process(s, codecs, ins, timestamp) == s
  {
    var kind := codecs.layoutOf(ins.d8).value;
    if kind.IsInitialize() {
      assert codecs.decodeInit(ins).None?;
    } else if kind.IsSwap() {
      assert codecs.decodeSwap(ins).None?;
    } else if kind.IsAdd() || kind.IsRemove() {
      assert codecs.decodeLiquidity(ins).None?;
    }
  }

  // ---------------------------------------------------------------------
  // Every handler keeps the stores well formed
  // ---------------------------------------------------------------------

  lemma PoolUpdateStepValid(s: DlmmState, bp: BasePool, reserveX: int, reserveY: int, totalLiquidity: int,
                            status: bool, timestamp: nat)
    requires s.Valid()
    ensures PoolUpdateStep(s, bp, reserveX, reserveY, totalLiquidity, status, timestamp).Valid()
  {
    SaveKeepsValid(s.basePools, bp.id,
                   DammPoolService.UpdatedBasePool(bp, reserveX, reserveY, totalLiquidity, status, timestamp));
  }

  lemma InitializeStepValid(s: DlmmState, a: InitAccounts, d: InitData, created: seq<CreateAccount>, timestamp: nat)
    requires s.Valid()
    ensures InitializeStep(s, a, d, created, timestamp).Valid()
  {
    if a.HasRequired() {
      var amounts := InitialReserves(created, a.reserveX, a.reserveY);
      var p := NewBasePool(a.lbPair, a.tokenMintX, a.tokenMintY, a.reserveX, a.reserveY, amounts.0, amounts.1, timestamp);
      SaveKeepsValid(s.basePools, a.lbPair, p);
      var (_, bp) := GetOrCreateBasePoolIn(s.basePools, a.lbPair, a.tokenMintX, a.tokenMintY, a.reserveX, a.reserveY,
                                           amounts.0, amounts.1, timestamp);
      SaveKeepsValid(s.dlmmPools, a.lbPair, NewDlmmPool(a.lbPair, bp, d.binStep, d.activeId, None, None, None));
    }
  }

  lemma SwapStepValid(s: DlmmState, a: SwapAccounts, transfers: seq<Transfer>, txId: string, timestamp: nat)
    requires s.Valid()
    ensures SwapStep(s, a, transfers, txId, timestamp).Valid()
  {
    if a.HasRequired() && s.basePools.Find(a.lbPair).Some? && s.dlmmPools.Find(a.lbPair).Some? {
      SwapOnPoolValid(s, a, s.basePools.entries[a.lbPair], s.dlmmPools.entries[a.lbPair],
                      FlowsOf(transfers, a.reserveX, a.reserveY), txId, timestamp);
    }
  }

  lemma SwapOnPoolValid(s: DlmmState, a: SwapAccounts, bp: BasePool, dlmmPool: DlmmPool, f: Flows, txId: string,
                        timestamp: nat)
    requires s.Valid()
    ensures SwapOnPool(s, a, bp, dlmmPool, f, txId, timestamp).Valid()
  {
    match DlmmSwapLeg(f.NetX(), f.NetY())
    case None =>
    case Some(leg) => SwapApplyValid(s, a, bp, dlmmPool, leg, f, txId, timestamp);
  }

  lemma SwapApplyValid(s: DlmmState, a: SwapAccounts, bp: BasePool, dlmmPool: DlmmPool, leg: SwapLeg, f: Flows,
                       txId: string, timestamp: nat)
    requires s.Valid()
    ensures SwapApply(s, a, bp, dlmmPool, leg, f, txId, timestamp).Valid()
  {
    var inMint := if leg.inputIsX then a.tokenXMint else a.tokenYMint;
    var outMint := if leg.inputIsX then a.tokenYMint else a.tokenXMint;
    SwapRecordStepValid(s, txId, dlmmPool, a.user, inMint, outMint, leg.amountIn, leg.amountOut, timestamp);
    var s1 := SwapRecordStep(s, txId, dlmmPool, a.user, inMint, outMint, leg.amountIn, leg.amountOut, timestamp);
    PoolUpdateStepValid(s1, bp, bp.reserveX + f.NetX(), bp.reserveY + f.NetY(), bp.totalLiquidity, bp.status, timestamp);
  }

  lemma SwapRecordStepValid(s: DlmmState, txId: string, dlmmPool: DlmmPool, user: string, inMint: string,
                            outMint: string, amountIn: int, amountOut: int, timestamp: nat)
    requires s.Valid()
    ensures SwapRecordStep(s, txId, dlmmPool, user, inMint, outMint, amountIn, amountOut, timestamp).Valid()
  {
    CreateSwapAppends(s.swaps, s.swapIndices, txId, dlmmPool, user, inMint, outMint, amountIn, amountOut, timestamp);
  }

  lemma LiquidityApplyValid(s: DlmmState, changeType: DlmmChangeType, a: LiquidityAccounts, dlmmPool: DlmmPool,
                            position: DlmmPosition, f: Flows, timestamp: nat)
    requires s.Valid()
    ensures LiquidityApply(s, changeType, a, dlmmPool, position, f, timestamp).Valid()
  {
    var (recordX, recordY) := RecordedAmounts(changeType, f.NetX(), f.NetY());
    var change := ChangeRecord(dlmmPool, position, changeType, recordX, recordY, timestamp);
    SaveKeepsValid(s.changes, change.id, change);
    var s1 := ChangeStep(s, dlmmPool, position, changeType, recordX, recordY, timestamp);
    if s1.basePools.Find(a.lbPair).Some? {
      var bp := s1.basePools.Find(a.lbPair).value;
      PoolUpdateStepValid(s1, bp, bp.reserveX + f.NetX(), bp.reserveY + f.NetY(), bp.totalLiquidity, bp.status,
                          timestamp);
    }
  }

  lemma LiquidityStepValid(s: DlmmState, changeType: DlmmChangeType, a: LiquidityAccounts, transfers: seq<Transfer>,
                           timestamp: nat)
    requires s.Valid()
    ensures LiquidityStep(s, changeType, a, transfers, timestamp).Valid()
  {
    if a.HasRequired() && s.dlmmPools.Find(a.lbPair).Some? {
      var dlmmPool := s.dlmmPools.Find(a.lbPair).value;
      var f := FlowsOf(transfers, a.reserveX, a.reserveY);
      if LiquidityAccepted(changeType, f.NetX(), f.NetY()) && s.positions.Find(a.position).Some? {
        LiquidityApplyValid(s, changeType, a, dlmmPool, s.positions.Find(a.position).value, f, timestamp);
      }
    }
  }

  lemma RewardStepValid(s: DlmmState, dlmmPool: DlmmPool, rewardIndex: nat, rewardDuration: int, funder: string,
                        amount: int, timestamp: nat)
    requires s.Valid()
    ensures RewardStep(s, dlmmPool, rewardIndex, rewardDuration, funder, amount, timestamp).Valid()
  {
    var reward := RewardRecord(dlmmPool, rewardIndex, rewardDuration, funder, amount, timestamp);
    SaveKeepsValid(s.rewards, reward.id, reward);
  }

  lemma ClaimRewardStepValid(s: DlmmState, a: ClaimRewardAccounts, transfers: seq<Transfer>, timestamp: nat)
    requires s.Valid()
    ensures ClaimRewardStep(s, a, transfers, timestamp).Valid()
  {
    var sent := FirstAmount(transfers, a.rewardVault, true);
    var received := FirstAmount(transfers, a.userRewardToken, false);
    if a.HasRequired() && sent.Some? && received.Some? && s.dlmmPools.Find(a.lbPair).Some? {
      var dlmmPool := s.dlmmPools.Find(a.lbPair).value;
      RewardStepValid(s, dlmmPool, 0, 0, a.user, sent.value, timestamp);
      RewardStepValid(RewardStep(s, dlmmPool, 0, 0, a.user, sent.value, timestamp), dlmmPool, 0, 0, a.user,
                      received.value, timestamp);
    }
  }

  lemma ClaimIfFoundValid(s: DlmmState, txId: string, dlmmPool: DlmmPool, a: ClaimFeeAccounts, amount: Option<nat>,
                          onX: bool, direction: FeeDirection, timestamp: nat)
    requires s.Valid()
    ensures ClaimIfFound(s, txId, dlmmPool, a, amount, onX, direction, timestamp).Valid()
  {
    if amount.Some? {
      var v := amount.value;
      var fee := FeeClaimRecord(txId, dlmmPool, a.position, a.user, if onX then v else 0, if onX then 0 else v,
                                timestamp, direction);
      SaveKeepsValid(s.fees, fee.id, fee);
    }
  }

  lemma ClaimFeeStepValid(s: DlmmState, a: ClaimFeeAccounts, transfers: seq<Transfer>, txId: string, timestamp: nat)
    requires s.Valid()
    ensures ClaimFeeStep(s, a, transfers, txId, timestamp).Valid()
  {
    if a.HasRequired() && s.dlmmPools.Find(a.lbPair).Some? {
      var p := s.dlmmPools.Find(a.lbPair).value;
      var s1 := ClaimIfFound(s, txId, p, a, FirstAmount(transfers, a.reserveX, true), true, Out, timestamp);
      var s2 := ClaimIfFound(s1, txId, p, a, FirstAmount(transfers, a.reserveY, true), false, Out, timestamp);
      var s3 := ClaimIfFound(s2, txId, p, a, FirstAmount(transfers, a.userTokenX, false), true, In, timestamp);
      ClaimIfFoundValid(s, txId, p, a, FirstAmount(transfers, a.reserveX, true), true, Out, timestamp);
      ClaimIfFoundValid(s1, txId, p, a, FirstAmount(transfers, a.reserveY, true), false, Out, timestamp);
      ClaimIfFoundValid(s2, txId, p, a, FirstAmount(transfers, a.userTokenX, false), true, In, timestamp);
      ClaimIfFoundValid(s3, txId, p, a, FirstAmount(transfers, a.userTokenY, false), false, In, timestamp);
    }
  }

  lemma ToggleStepValid(s: DlmmState, accounts: seq<string>, timestamp: nat)
    requires s.Valid()
    ensures ToggleStep(s, accounts, timestamp).Valid()
  {
    if |accounts| > 0 && s.basePools.Find(accounts[0]).Some? {
      var bp := s.basePools.Find(accounts[0]).value;
      PoolUpdateStepValid(s, bp, bp.reserveX, bp.reserveY, bp.totalLiquidity, !bp.status, timestamp);
    }
  }

  lemma FundRewardStepValid(s: DlmmState, r: FundRewardRequest, timestamp: nat)
    requires s.Valid()
    ensures FundRewardStep(s, r, timestamp).Valid()
  {
    if Present(r.lbPair) && s.dlmmPools.Find(r.lbPair).Some? {
      var p := s.dlmmPools.Find(r.lbPair).value;
      var reward := GetRewardIn(s.rewards, p.id, r.rewardIndex);
      if reward.Some? {
        SaveKeepsValid(s.rewards, reward.value.id, WithAmount(reward.value, reward.value.amount + r.amount, timestamp));
      }
    }
  }

  /**
   * Processing any instruction, whatever its layout and whether or not it
   * decodes, keeps every store well formed: entity stores keyed by id in
   * insertion order, the swap store append-only.
   */
  lemma ProcessPreservesValid(s: DlmmState, codecs: DlmmCodecs, ins: Instruction, timestamp: nat)
    requires s.Valid()
    ensures Process(s, codecs, ins, timestamp).Valid()
  {
    var transfers := TokenTransfersChecked(ins.inner, codecs.tokens);
    match codecs.layoutOf(ins.d8)
    case None =>
    case Some(kind) =>
      if kind.IsInitialize() {
        if codecs.decodeInit(ins).Some? {
          var (a, d) := codecs.decodeInit(ins).value;
          InitializeStepValid(s, a, d, SystemCreateAccounts(ins.inner, codecs.tokens), timestamp);
        }
      } else if kind.IsSwap() {
        if codecs.decodeSwap(ins).Some? {
          SwapStepValid(s, codecs.decodeSwap(ins).value, transfers, ins.transactionId, timestamp);
        }
      } else if kind.IsAdd() || kind.IsRemove() {
        if codecs.decodeLiquidity(ins).Some? {
          LiquidityStepValid(s, if kind.IsAdd() then DlmmAdd else DlmmRemove, codecs.decodeLiquidity(ins).value,
                             transfers, timestamp);
        }
      } else if kind.ClaimReward? {
        if codecs.decodeClaimReward(ins).Some? {
          ClaimRewardStepValid(s, codecs.decodeClaimReward(ins).value, transfers, timestamp);
        }
      } else if kind.ClaimFee? {
        if codecs.decodeClaimFee(ins).Some? {
          ClaimFeeStepValid(s, codecs.decodeClaimFee(ins).value, transfers, ins.transactionId, timestamp);
        }
      } else if kind.TogglePairStatus? {
        ToggleStepValid(s, ins.accounts, timestamp);
      }
  }

  /** A whole batch keeps every store well formed. */
  lemma {:induction false} ProcessBatchPreservesValid(s: DlmmState, codecs: DlmmCodecs, batch: seq<(Instruction, nat)>)
    requires s.Valid()
    ensures ProcessBatch(s, codecs, batch).Valid()
    decreases |batch|
  {
    if |batch| > 0 {
      ProcessPreservesValid(s, codecs, batch[0].0, batch[0].1);
      ProcessBatchPreservesValid(Process(s, codecs, batch[0].0, batch[0].1), codecs, batch[1..]);
    }
  }
}
