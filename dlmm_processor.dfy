/**
 * src/dlmm/processor.ts: dispatches each DLMM instruction to its handler.
 * The handlers sum the instruction's checked token transfers into net
 * flows on the instruction's own `reserveX`/`reserveY` accounts and update
 * pairs, swaps, liquidity changes, rewards and fee claims accordingly; every
 * pool lookup is a lookup in the in-batch cache.
 *
 * Each handler is specified by a pure step on `DlmmState`, the contents of
 * all the stores it touches.
 */
module DlmmProcessor {
  import opened Wrappers
  import opened Entities
  import opened Store
  import opened Utils
  import opened Transfers
  import opened NetFlow
  import SwapIndex
  import DammPoolService
  import opened DlmmPoolService
  import opened DlmmSwapService
  import opened DlmmLiquidityService
  import opened DlmmPositionService
  import opened DlmmRewardService
  import opened DlmmFeeService

  /** The instruction layouts of the DLMM program the dispatch distinguishes. */
  datatype DlmmKind =
    | InitializeLbPair
    | InitializePermissionLbPair
    | InitializeCustomizablePermissionlessLbPair
    | Swap
    | SwapExactOut
    | SwapWithPriceImpact
    | AddLiquidity
    | AddLiquidityByWeight
    | AddLiquidityByStrategy
    | AddLiquidityByStrategyOneSide
    | AddLiquidityOneSide
    | AddLiquidityOneSidePrecise
    | RemoveLiquidity
    | RemoveAllLiquidity
    | RemoveLiquidityByRange
    | ClaimReward
    | ClaimFee
    | TogglePairStatus
    /** Any other layout of the program (`initializeReward` and `fundReward` among them): the `default` case. */
    | OtherDlmmInstruction
  {
    predicate IsInitialize() {
      InitializeLbPair? || InitializePermissionLbPair? || InitializeCustomizablePermissionlessLbPair?
    }
    predicate IsSwap() {
      Swap? || SwapExactOut? || SwapWithPriceImpact?
    }
    predicate IsAdd() {
      || AddLiquidity? || AddLiquidityByWeight? || AddLiquidityByStrategy? || AddLiquidityByStrategyOneSide?
      || AddLiquidityOneSide? || AddLiquidityOneSidePrecise?
    }
    predicate IsRemove() {
      RemoveLiquidity? || RemoveAllLiquidity? || RemoveLiquidityByRange?
    }
  }

  // Decoded accounts and data; an absent account is "".
  datatype InitAccounts = InitAccounts(lbPair: string, tokenMintX: string, tokenMintY: string, reserveX: string,
                                       reserveY: string, oracle: string, funder: string)
  {
    /** The accounts the handler returns early without. */
    predicate HasRequired() {
      Present(lbPair) && Present(tokenMintX) && Present(tokenMintY) && Present(reserveX) && Present(reserveY)
      && Present(oracle) && Present(funder)
    }
  }
  datatype InitData = InitData(activeId: int, binStep: int)
  datatype SwapAccounts = SwapAccounts(lbPair: string, reserveX: string, reserveY: string, userTokenIn: string,
                                       userTokenOut: string, tokenXMint: string, tokenYMint: string, user: string)
  {
    predicate HasRequired() {
      Present(lbPair) && Present(reserveX) && Present(reserveY) && Present(userTokenIn) && Present(userTokenOut)
      && Present(user)
    }
  }
  /** The accounts of the add and remove instructions. */
  datatype LiquidityAccounts = LiquidityAccounts(lbPair: string, reserveX: string, reserveY: string,
                                                 userTokenX: string, userTokenY: string, user: string, position: string)
  {
    predicate HasRequired() {
      Present(lbPair) && Present(reserveX) && Present(reserveY) && Present(userTokenX) && Present(userTokenY)
      && Present(user) && Present(position)
    }
  }
  datatype ClaimRewardAccounts = ClaimRewardAccounts(lbPair: string, position: string, user: string,
                                                     rewardVault: string, userRewardToken: string)
  {
    predicate HasRequired() {
      Present(lbPair) && Present(position) && Present(user) && Present(rewardVault) && Present(userRewardToken)
    }
  }
  datatype ClaimFeeAccounts = ClaimFeeAccounts(lbPair: string, position: string, user: string, reserveX: string,
                                               reserveY: string, feeOwner: string, userTokenX: string,
                                               userTokenY: string)
  {
    predicate HasRequired() {
      Present(lbPair) && Present(position) && Present(user) && Present(reserveX) && Present(reserveY)
      && Present(feeOwner) && Present(userTokenX) && Present(userTokenY)
    }
  }
  datatype FundRewardRequest = FundRewardRequest(lbPair: string, rewardIndex: nat, amount: int)

  /** The program's layouts: the discriminator lookup and one decoder per handler (failing where `decode` throws). */
  datatype DlmmCodecs = DlmmCodecs(
    layoutOf: seq<bv8> -> Option<DlmmKind>,
    decodeInit: Instruction -> Option<(InitAccounts, InitData)>,
    decodeSwap: Instruction -> Option<SwapAccounts>,
    decodeLiquidity: Instruction -> Option<LiquidityAccounts>,
    decodeClaimReward: Instruction -> Option<ClaimRewardAccounts>,
    decodeClaimFee: Instruction -> Option<ClaimFeeAccounts>,
    decodeFundReward: Instruction -> Option<FundRewardRequest>,
    tokens: Transfers.Codecs)

  /** The contents of every store the processor writes. */
  datatype DlmmState = DlmmState(
    basePools: StoreState<BasePool>,
    dlmmPools: StoreState<DlmmPool>,
    positions: StoreState<DlmmPosition>,
    changes: StoreState<DlmmLiquidityChange>,
    swaps: StoreState<DlmmSwap>,
    swapIndices: map<string, nat>,
    rewards: StoreState<DlmmReward>,
    fees: StoreState<DlmmFee>)
  {
    ghost predicate Valid() {
      && basePools.Valid() && !basePools.isEvent && DammPoolService.BasePoolsKeyed(basePools.entries)
      && dlmmPools.Valid() && !dlmmPools.isEvent && DlmmPoolsKeyed(dlmmPools.entries)
      && positions.Valid() && !positions.isEvent && PositionsKeyed(positions.entries)
      && changes.Valid() && !changes.isEvent
      && swaps.Valid() && swaps.isEvent
      && rewards.Valid() && !rewards.isEvent && RewardsKeyed(rewards.entries)
      && fees.Valid() && !fees.isEvent
    }
  }

  function EmptyState(): DlmmState {
    DlmmState(Empty(false), Empty(false), Empty(false), Empty(false), Empty(true), map[], Empty(false), Empty(false))
  }

  // ---------------------------------------------------------------------
  // `transfers.find`
  // ---------------------------------------------------------------------

  /** `t.source === account` when `fromAccount`, else `t.destination === account`. */
  predicate Touches(t: Transfer, account: string, fromAccount: bool) {
    if fromAccount then t.source == account else t.destination == account
  }

  /** The position of the first transfer out of (or into) `account`, as `Array.prototype.find` picks it. */
  function FirstMatch(transfers: seq<Transfer>, account: string, fromAccount: bool): (r: Option<nat>)
    ensures r.None? <==> forall i :: 0 <= i < |transfers| ==> !Touches(transfers[i], account, fromAccount)
    ensures r.Some? ==> r.value < |transfers| && Touches(transfers[r.value], account, fromAccount)
    ensures r.Some? ==> forall j :: 0 <= j < r.value ==> !Touches(transfers[j], account, fromAccount)
    decreases |transfers|
  {
    if |transfers| == 0 then None
    else if Touches(transfers[0], account, fromAccount) then Some(0)
    else
      match FirstMatch(transfers[1..], account, fromAccount)
      case None => None
      case Some(i) => Some(i + 1)
  }

  /** The amount of that first transfer, if there is one. */
  function FirstAmount(transfers: seq<Transfer>, account: string, fromAccount: bool): Option<nat> {
    match FirstMatch(transfers, account, fromAccount)
    case None => None
    case Some(i) => Some(transfers[i].amount)
  }

  // ---------------------------------------------------------------------
  // One service call each, on the whole state
  // ---------------------------------------------------------------------

  /** `poolService.updateBasePool`. */
  function PoolUpdateStep(s: DlmmState, bp: BasePool, reserveX: int, reserveY: int, totalLiquidity: int,
                          status: bool, timestamp: nat): DlmmState
  {
    s.(basePools := UpdateBasePoolIn(s.basePools, bp, reserveX, reserveY, totalLiquidity, status, timestamp))
  }

  /** `swapService.createSwap`. */
  function SwapRecordStep(s: DlmmState, txId: string, dlmmPool: DlmmPool, user: string, inMint: string,
                          outMint: string, amountIn: int, amountOut: int, timestamp: nat): DlmmState
  {
    var (swaps', swapIndices', _) := CreateSwapIn(s.swaps, s.swapIndices, txId, dlmmPool, user, inMint, outMint,
                                                  amountIn, amountOut, timestamp);
    s.(swaps := swaps', swapIndices := swapIndices')
  }

  /** `liquidityService.recordLiquidityChange`. */
  function ChangeStep(s: DlmmState, dlmmPool: DlmmPool, position: DlmmPosition, changeType: DlmmChangeType,
                      tokenXAmount: int, tokenYAmount: int, timestamp: nat): DlmmState
  {
    s.(changes := RecordChangeIn(s.changes, dlmmPool, position, changeType, tokenXAmount, tokenYAmount, timestamp))
  }

  /** `rewardService.createReward`. */
  function RewardStep(s: DlmmState, dlmmPool: DlmmPool, rewardIndex: nat, rewardDuration: int, funder: string,
                      amount: int, timestamp: nat): DlmmState
  {
    s.(rewards := CreateRewardIn(s.rewards, dlmmPool, rewardIndex, rewardDuration, funder, amount, timestamp))
  }

  /** `feeService.createFeeClaim`. */
  function FeeClaimStep(s: DlmmState, txId: string, dlmmPool: DlmmPool, position: string, user: string,
                        amountX: int, amountY: int, timestamp: nat, direction: FeeDirection): DlmmState
  {
    s.(fees := CreateFeeClaimIn(s.fees, txId, dlmmPool, position, user, amountX, amountY, timestamp, direction))
  }

  // ---------------------------------------------------------------------
  // Handlers as pure steps
  // ---------------------------------------------------------------------

  function InitializeStep(s: DlmmState, a: InitAccounts, d: InitData, created: seq<CreateAccount>, timestamp: nat)
    : DlmmState
  {
    if !a.HasRequired() then s
    else InitializeWithReserves(s, a, d, InitialReserves(created, a.reserveX, a.reserveY), timestamp)
  }

  /** The pair's base pool (with the initial reserve amounts) and the pair itself, each created only if missing. */
  function InitializeWithReserves(s: DlmmState, a: InitAccounts, d: InitData, amounts: (int, int), timestamp: nat)
    : DlmmState
  {
    var (basePools', bp) := GetOrCreateBasePoolIn(s.basePools, a.lbPair, a.tokenMintX, a.tokenMintY, a.reserveX,
                                                  a.reserveY, amounts.0, amounts.1, timestamp);
    var (dlmmPools', _) := GetOrCreateDlmmPoolIn(s.dlmmPools, a.lbPair, bp, d.binStep, d.activeId, None, None, None);
    s.(basePools := basePools', dlmmPools := dlmmPools')
  }

  function SwapStep(s: DlmmState, a: SwapAccounts, transfers: seq<Transfer>, txId: string, timestamp: nat): DlmmState {
    if !a.HasRequired() then s
    else
      match s.basePools.Find(a.lbPair)
      case None => s
      case Some(bp) =>
        match s.dlmmPools.Find(a.lbPair)
        case None => s
        case Some(dlmmPool) => SwapOnPool(s, a, bp, dlmmPool, FlowsOf(transfers, a.reserveX, a.reserveY), txId, timestamp)
  }

  /** The swap once both pool records were found, on the net flows of the reserve accounts. */
  function SwapOnPool(s: DlmmState, a: SwapAccounts, bp: BasePool, dlmmPool: DlmmPool, f: Flows, txId: string,
                      timestamp: nat): DlmmState
  {
    match DlmmSwapLeg(f.NetX(), f.NetY())
    case None => s
    case Some(leg) => SwapApply(s, a, bp, dlmmPool, leg, f, txId, timestamp)
  }

  /** A classified swap: the swap recorded with the mints of its legs, then the reserves moved by the net flows. */
  function SwapApply(s: DlmmState, a: SwapAccounts, bp: BasePool, dlmmPool: DlmmPool, leg: SwapLeg, f: Flows,
                     txId: string, timestamp: nat): DlmmState
  {
    var inMint := if leg.inputIsX then a.tokenXMint else a.tokenYMint;
    var outMint := if leg.inputIsX then a.tokenYMint else a.tokenXMint;
    var s1 := SwapRecordStep(s, txId, dlmmPool, a.user, inMint, outMint, leg.amountIn, leg.amountOut, timestamp);
    PoolUpdateStep(s1, bp, bp.reserveX + f.NetX(), bp.reserveY + f.NetY(), bp.totalLiquidity, bp.status, timestamp)
  }

  /** The guard of the add and remove handlers: rejected only when neither side moved the right way. */
  predicate LiquidityAccepted(changeType: DlmmChangeType, netX: int, netY: int) {
    if changeType.DlmmAdd? then DlmmAddAccepted(netX, netY) else DlmmRemoveAccepted(netX, netY)
  }

  /** The amounts recorded: the inflows of an add, the outflows of a remove. */
  function RecordedAmounts(changeType: DlmmChangeType, netX: int, netY: int): (nat, nat) {
    if changeType.DlmmAdd? then (Inflow(netX), Inflow(netY)) else (Outflow(netX), Outflow(netY))
  }

  function LiquidityStep(s: DlmmState, changeType: DlmmChangeType, a: LiquidityAccounts, transfers: seq<Transfer>,
                         timestamp: nat): DlmmState
  {
    if !a.HasRequired() then s
    else
      match s.dlmmPools.Find(a.lbPair)
      case None => s
      case Some(dlmmPool) =>
        LiquidityOnPool(s, changeType, a, dlmmPool, FlowsOf(transfers, a.reserveX, a.reserveY), timestamp)
  }

  /** The guard, then the position looked up under the bare position account. */
  function LiquidityOnPool(s: DlmmState, changeType: DlmmChangeType, a: LiquidityAccounts, dlmmPool: DlmmPool,
                           f: Flows, timestamp: nat): DlmmState
  {
    if !LiquidityAccepted(changeType, f.NetX(), f.NetY()) then s
    else
      match s.positions.Find(a.position)
      case None => s
      case Some(position) => LiquidityApply(s, changeType, a, dlmmPool, position, f, timestamp)
  }

  /** The change is recorded, then the reserves move by the net flows if the base pool is cached. */
  function LiquidityApply(s: DlmmState, changeType: DlmmChangeType, a: LiquidityAccounts, dlmmPool: DlmmPool,
                          position: DlmmPosition, f: Flows, timestamp: nat): DlmmState
  {
    var (recordX, recordY) := RecordedAmounts(changeType, f.NetX(), f.NetY());
    var s1 := ChangeStep(s, dlmmPool, position, changeType, recordX, recordY, timestamp);
    match s1.basePools.Find(a.lbPair)
    case None => s1
    case Some(bp) =>
      PoolUpdateStep(s1, bp, bp.reserveX + f.NetX(), bp.reserveY + f.NetY(), bp.totalLiquidity, bp.status, timestamp)
  }

  function ClaimRewardStep(s: DlmmState, a: ClaimRewardAccounts, transfers: seq<Transfer>, timestamp: nat): DlmmState {
    if !a.HasRequired() then s
    else
      var sent := FirstAmount(transfers, a.rewardVault, true);
      var received := FirstAmount(transfers, a.userRewardToken, false);
      if sent.None? || received.None? then s
      else
        match s.dlmmPools.Find(a.lbPair)
        case None => s
        case Some(dlmmPool) => ClaimRewardOnPool(s, dlmmPool, a.user, sent.value, received.value, timestamp)
  }

  /** Reward 0 of the pair is created twice, with the amount sent and then with the amount received. */
  function ClaimRewardOnPool(s: DlmmState, dlmmPool: DlmmPool, user: string, sent: nat, received: nat, timestamp: nat)
    : DlmmState
  {
    var s1 := RewardStep(s, dlmmPool, 0, 0, user, sent, timestamp);
    RewardStep(s1, dlmmPool, 0, 0, user, received, timestamp)
  }

  function ClaimFeeStep(s: DlmmState, a: ClaimFeeAccounts, transfers: seq<Transfer>, txId: string, timestamp: nat)
    : DlmmState
  {
    if !a.HasRequired() then s
    else
      match s.dlmmPools.Find(a.lbPair)
      case None => s
      case Some(dlmmPool) => ClaimFeeOnPool(s, a, dlmmPool, transfers, txId, timestamp)
  }

  /** Up to four claims: the first transfer out of each reserve, then the first into each user account. */
  function ClaimFeeOnPool(s: DlmmState, a: ClaimFeeAccounts, dlmmPool: DlmmPool, transfers: seq<Transfer>,
                          txId: string, timestamp: nat): DlmmState
  {
    var s1 := ClaimIfFound(s, txId, dlmmPool, a, FirstAmount(transfers, a.reserveX, true), true, Out, timestamp);
    var s2 := ClaimIfFound(s1, txId, dlmmPool, a, FirstAmount(transfers, a.reserveY, true), false, Out, timestamp);
    var s3 := ClaimIfFound(s2, txId, dlmmPool, a, FirstAmount(transfers, a.userTokenX, false), true, In, timestamp);
    ClaimIfFound(s3, txId, dlmmPool, a, FirstAmount(transfers, a.userTokenY, false), false, In, timestamp)
  }

  /** One `if (xOut) createFeeClaim(...)`: the amount on the X or the Y side, 0 on the other. */
  function ClaimIfFound(s: DlmmState, txId: string, dlmmPool: DlmmPool, a: ClaimFeeAccounts, amount: Option<nat>,
                        onX: bool, direction: FeeDirection, timestamp: nat): DlmmState
  {
    match amount
    case None => s
    case Some(v) =>
      FeeClaimStep(s, txId, dlmmPool, a.position, a.user, if onX then v else 0, if onX then 0 else v, timestamp, direction)
  }

  /** The pair is the instruction's first account; its status is flipped, everything else kept. */
  function ToggleStep(s: DlmmState, accounts: seq<string>, timestamp: nat): DlmmState {
    if |accounts| == 0 then s
    else
      match s.basePools.Find(accounts[0])
      case None => s
      case Some(bp) => PoolUpdateStep(s, bp, bp.reserveX, bp.reserveY, bp.totalLiquidity, !bp.status, timestamp)
  }

  /** `handleFundReward`: the reward of the given index gets the funded amount added. */
  function FundRewardStep(s: DlmmState, r: FundRewardRequest, timestamp: nat): DlmmState {
    if !Present(r.lbPair) then s
    else
      match s.dlmmPools.Find(r.lbPair)
      case None => s
      case Some(dlmmPool) =>
        match GetRewardIn(s.rewards, dlmmPool.id, r.rewardIndex)
        case None => s
        case Some(reward) => s.(rewards := UpdateRewardIn(s.rewards, reward, reward.amount + r.amount, timestamp))
  }

  // ---------------------------------------------------------------------
  // Decoding and dispatch
  // ---------------------------------------------------------------------

  /** `processInstruction`: a decode failure is caught and, like an unknown layout, changes nothing. */
  function Process(s: DlmmState, codecs: DlmmCodecs, ins: Instruction, timestamp: nat): DlmmState {
    match codecs.layoutOf(ins.d8)
    case None => s
    case Some(kind) =>
      var transfers := TokenTransfersChecked(ins.inner, codecs.tokens);
      if kind.IsInitialize() then
        match codecs.decodeInit(ins)
        case None => s
        case Some((a, d)) => InitializeStep(s, a, d, SystemCreateAccounts(ins.inner, codecs.tokens), timestamp)
      else if kind.IsSwap() then
        match codecs.decodeSwap(ins)
        case None => s
        case Some(a) => SwapStep(s, a, transfers, ins.transactionId, timestamp)
      else if kind.IsAdd() || kind.IsRemove() then
        match codecs.decodeLiquidity(ins)
        case None => s
        case Some(a) => LiquidityStep(s, if kind.IsAdd() then DlmmAdd else DlmmRemove, a, transfers, timestamp)
      else
        match kind
        case ClaimReward =>
          (match codecs.decodeClaimReward(ins)
           case None => s
           case Some(a) => ClaimRewardStep(s, a, transfers, timestamp))
        case ClaimFee =>
          (match codecs.decodeClaimFee(ins)
           case None => s
           case Some(a) => ClaimFeeStep(s, a, transfers, ins.transactionId, timestamp))
        case TogglePairStatus => ToggleStep(s, ins.accounts, timestamp)
        case _ => s
  }

  // ---------------------------------------------------------------------
  // The processor
  // ---------------------------------------------------------------------

  /**
   * `DlmmProcessor`.  Its state is the contents of the stores its services
   * write; each service call is one of the steps above, and each handler
   * decodes its transfers and sums them with the same loops as the source.
   */
  class Processor {
    var state: DlmmState
    const codecs: DlmmCodecs

    ghost predicate Valid()
      reads this
    {
      state.Valid()
    }

    constructor(codecs: DlmmCodecs)
      ensures Valid() && this.codecs == codecs && state == EmptyState()
    {
      state := EmptyState();
      this.codecs := codecs;
    }

    method UpdateBasePool(bp: BasePool, reserveX: int, reserveY: int, totalLiquidity: int, status: bool, timestamp: nat)
      modifies this
      ensures state == PoolUpdateStep(old(state), bp, reserveX, reserveY, totalLiquidity, status, timestamp)
    {
      state := PoolUpdateStep(state, bp, reserveX, reserveY, totalLiquidity, status, timestamp);
    }

    method HandleInitializePool(a: InitAccounts, d: InitData, ins: Instruction, timestamp: nat)
      modifies this
      ensures state == InitializeStep(old(state), a, d, SystemCreateAccounts(ins.inner, codecs.tokens), timestamp)
    {
      if !a.HasRequired() {
        return;
      }
      var createAccounts := DecodeSystemCreateAccounts(ins.inner, codecs.tokens);
      var reserveXAmount, reserveYAmount := ScanInitialReserves(createAccounts, a.reserveX, a.reserveY);
      var (basePools', basePool) := GetOrCreateBasePoolIn(state.basePools, a.lbPair, a.tokenMintX, a.tokenMintY,
                                                          a.reserveX, a.reserveY, reserveXAmount, reserveYAmount, timestamp);
      state := state.(basePools := basePools');
      var (dlmmPools', _) := GetOrCreateDlmmPoolIn(state.dlmmPools, a.lbPair, basePool, d.binStep, d.activeId,
                                                   None, None, None);
      state := state.(dlmmPools := dlmmPools');
    }

    method HandleSwap(a: SwapAccounts, ins: Instruction, timestamp: nat)
      modifies this
      ensures state == SwapStep(old(state), a, TokenTransfersChecked(ins.inner, codecs.tokens), ins.transactionId, timestamp)
    {
      if !a.HasRequired() {
        return;
      }
      var basePool := state.basePools.Find(a.lbPair);
      if basePool.None? {
        return;
      }
      var dlmmPool := state.dlmmPools.Find(a.lbPair);
      if dlmmPool.None? {
        return;
      }
      var transfers := DecodeTokenTransfersChecked(ins.inner, codecs.tokens);
      var f := AccumulateFlows(transfers, a.reserveX, a.reserveY);
      SwapWithPools(a, basePool.value, dlmmPool.value, f, ins.transactionId, timestamp);
    }

    method SwapWithPools(a: SwapAccounts, bp: BasePool, dlmmPool: DlmmPool, f: Flows, txId: string, timestamp: nat)
      modifies this
      ensures state == SwapOnPool(old(state), a, bp, dlmmPool, f, txId, timestamp)
    {
      var netFlowX, netFlowY := f.NetX(), f.NetY();
      var amountIn, amountOut, inputMint, outputMint;
      if netFlowX < 0 && netFlowY > 0 {
        amountIn, amountOut, inputMint, outputMint := -netFlowX, netFlowY, a.tokenXMint, a.tokenYMint;
      } else if netFlowY < 0 && netFlowX > 0 {
        amountIn, amountOut, inputMint, outputMint := -netFlowY, netFlowX, a.tokenYMint, a.tokenXMint;
      } else {
        return;
      }
      state := SwapRecordStep(state, txId, dlmmPool, a.user, inputMint, outputMint, amountIn, amountOut, timestamp);
      UpdateBasePool(bp, bp.reserveX + netFlowX, bp.reserveY + netFlowY, bp.totalLiquidity, bp.status, timestamp);
    }

    /** The body the add and remove handlers share; they differ in guard, recorded amounts and change type. */
    method HandleLiquidity(changeType: DlmmChangeType, a: LiquidityAccounts, ins: Instruction, timestamp: nat)
      modifies this
      ensures state == LiquidityStep(old(state), changeType, a, TokenTransfersChecked(ins.inner, codecs.tokens), timestamp)
    {
      if !a.HasRequired() {
        return;
      }
      var dlmmPool := state.dlmmPools.Find(a.lbPair);
      if dlmmPool.None? {
        return;
      }
      var transfers := DecodeTokenTransfersChecked(ins.inner, codecs.tokens);
      var f := AccumulateFlows(transfers, a.reserveX, a.reserveY);
      LiquidityWithPool(changeType, a, dlmmPool.value, f, timestamp);
    }

    method LiquidityWithPool(changeType: DlmmChangeType, a: LiquidityAccounts, dlmmPool: DlmmPool, f: Flows, timestamp: nat)
      modifies this
      ensures state == LiquidityOnPool(old(state), changeType, a, dlmmPool, f, timestamp)
    {
      var netFlowX, netFlowY := f.NetX(), f.NetY();
      if changeType.DlmmAdd? && netFlowX <= 0 && netFlowY <= 0 {
        return;
      }
      if changeType.DlmmRemove? && netFlowX >= 0 && netFlowY >= 0 {
        return;
      }
      var position := state.positions.Find(a.position);
      if position.None? {
        return;
      }
      var recordX := if changeType.DlmmAdd? then (if netFlowX > 0 then netFlowX else 0)
                     else (if netFlowX < 0 then -netFlowX else 0);
      var recordY := if changeType.DlmmAdd? then (if netFlowY > 0 then netFlowY else 0)
                     else (if netFlowY < 0 then -netFlowY else 0);
      state := ChangeStep(state, dlmmPool, position.value, changeType, recordX, recordY, timestamp);
      var basePool := state.basePools.Find(a.lbPair);
      if basePool.None? {
        return;
      }
      var bp := basePool.value;
      UpdateBasePool(bp, bp.reserveX + netFlowX, bp.reserveY + netFlowY, bp.totalLiquidity, bp.status, timestamp);
    }

    method HandleClaimReward(a: ClaimRewardAccounts, ins: Instruction, timestamp: nat)
      modifies this
      ensures state == ClaimRewardStep(old(state), a, TokenTransfersChecked(ins.inner, codecs.tokens), timestamp)
    {
      if !a.HasRequired() {
        return;
      }
      var transfers := DecodeTokenTransfersChecked(ins.inner, codecs.tokens);
      var rewardOut := FirstMatch(transfers, a.rewardVault, true);
      var rewardIn := FirstMatch(transfers, a.userRewardToken, false);
      if rewardOut.None? || rewardIn.None? {
        return;
      }
      var pool := state.dlmmPools.Find(a.lbPair);
      if pool.None? {
        return;
      }
      state := RewardStep(state, pool.value, 0, 0, a.user, transfers[rewardOut.value].amount, timestamp);
      state := RewardStep(state, pool.value, 0, 0, a.user, transfers[rewardIn.value].amount, timestamp);
    }

    method HandleClaimFee(a: ClaimFeeAccounts, ins: Instruction, timestamp: nat)
      modifies this
      ensures state == ClaimFeeStep(old(state), a, TokenTransfersChecked(ins.inner, codecs.tokens), ins.transactionId,
                                    timestamp)
    {
      if !a.HasRequired() {
        return;
      }
      var pool := state.dlmmPools.Find(a.lbPair);
      if pool.None? {
        return;
      }
      var transfers := DecodeTokenTransfersChecked(ins.inner, codecs.tokens);
      ClaimFeeWithPool(a, pool.value, transfers, ins.transactionId, timestamp);
    }

    method ClaimFeeWithPool(a: ClaimFeeAccounts, pool: DlmmPool, transfers: seq<Transfer>, txId: string, timestamp: nat)
      modifies this
      ensures state == ClaimFeeOnPool(old(state), a, pool, transfers, txId, timestamp)
    {
      var xOut := FirstAmount(transfers, a.reserveX, true);
      var yOut := FirstAmount(transfers, a.reserveY, true);
      var xIn := FirstAmount(transfers, a.userTokenX, false);
      var yIn := FirstAmount(transfers, a.userTokenY, false);
      if xOut.Some? {
        state := FeeClaimStep(state, txId, pool, a.position, a.user, xOut.value, 0, timestamp, Out);
      }
      if yOut.Some? {
        state := FeeClaimStep(state, txId, pool, a.position, a.user, 0, yOut.value, timestamp, Out);
      }
      if xIn.Some? {
        state := FeeClaimStep(state, txId, pool, a.position, a.user, xIn.value, 0, timestamp, In);
      }
      if yIn.Some? {
        state := FeeClaimStep(state, txId, pool, a.position, a.user, 0, yIn.value, timestamp, In);
      }
    }

    method HandleTogglePairStatus(ins: Instruction, timestamp: nat)
      modifies this
      ensures state == ToggleStep(old(state), ins.accounts, timestamp)
    {
      if |ins.accounts| == 0 {
        return;
      }
      var basePool := state.basePools.Find(ins.accounts[0]);
      if basePool.None? {
        return;
      }
      var bp := basePool.value;
      UpdateBasePool(bp, bp.reserveX, bp.reserveY, bp.totalLiquidity, !bp.status, timestamp);
    }

    /** Not reached from the dispatch, which has no case for the fund-reward layout. */
    method HandleFundReward(r: FundRewardRequest, timestamp: nat)
      modifies this
      ensures state == FundRewardStep(old(state), r, timestamp)
    {
      if !Present(r.lbPair) {
        return;
      }
      var pool := state.dlmmPools.Find(r.lbPair);
      if pool.None? {
        return;
      }
      var reward := GetRewardIn(state.rewards, pool.value.id, r.rewardIndex);
      if reward.None? {
        return;
      }
      var updated := reward.value.(amount := reward.value.amount + r.amount, lastUpdateTime := timestamp * 1000);
      state := state.(rewards := state.rewards.Save(reward.value.id, updated));
    }

    /** Looks the layout up by discriminator, decodes and dispatches; a decode failure is swallowed. */
    method ProcessInstruction(ins: Instruction, timestamp: nat)
      modifies this
      ensures state == Process(old(state), codecs, ins, timestamp)
    {
      var layout := codecs.layoutOf(ins.d8);
      if layout.None? {
        return;
      }
      var kind := layout.value;
      if kind.IsInitialize() {
        var decoded := codecs.decodeInit(ins);
        if decoded.Some? {
          HandleInitializePool(decoded.value.0, decoded.value.1, ins, timestamp);
        }
      } else if kind.IsSwap() {
        var decoded := codecs.decodeSwap(ins);
        if decoded.Some? {
          HandleSwap(decoded.value, ins, timestamp);
        }
      } else if kind.IsAdd() || kind.IsRemove() {
        var decoded := codecs.decodeLiquidity(ins);
        if decoded.Some? {
          HandleLiquidity(if kind.IsAdd() then DlmmAdd else DlmmRemove, decoded.value, ins, timestamp);
        }
      } else {
        match kind {
          case ClaimReward =>
            var decoded := codecs.decodeClaimReward(ins);
            if decoded.Some? {
              HandleClaimReward(decoded.value, ins, timestamp);
            }
          case ClaimFee =>
            var decoded := codecs.decodeClaimFee(ins);
            if decoded.Some? {
              HandleClaimFee(decoded.value, ins, timestamp);
            }
          case TogglePairStatus =>
            HandleTogglePairStatus(ins, timestamp);
          case _ =>
        }
      }
    }
  }
}
