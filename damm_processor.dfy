/**
 * src/damm/processor.ts: dispatches each DAMM instruction to its handler;
 * the handlers turn the instruction's token transfers into net flows on the
 * pool's two vaults and update pools, positions, swaps, liquidity changes
 * and fees accordingly.
 *
 * Each handler is specified by a pure step on `DammState`, the contents of
 * all the stores it touches.
 */
module DammProcessor {
  import opened Wrappers
  import opened Entities
  import opened Store
  import opened Utils
  import opened Transfers
  import opened NetFlow
  import SwapIndex
  import opened DammPoolService
  import opened DammSwapService
  import opened DammLiquidityService
  import opened DammFeeService
  import DammLockService

  /** The instruction layouts of the DAMM program the dispatch distinguishes. */
  datatype DammKind =
    | InitializePermissionedPool
    | InitializePermissionlessPool
    | InitializePermissionlessPoolWithFeeTier
    | InitializePermissionlessConstantProductPoolWithConfig
    | InitializePermissionlessConstantProductPoolWithConfig2
    | InitializeCustomizablePermissionlessConstantProductPool
    | SwapInstruction
    | AddBalanceLiquidity
    | RemoveBalanceLiquidity
    | AddImbalanceLiquidity
    | RemoveLiquiditySingleSide
    | BootstrapLiquidity
    | EnableOrDisablePool
    | OverrideCurveParam
    | ClaimFee
    /** Any other layout of the program: the dispatch's `default` case. */
    | OtherDammInstruction
  {
    predicate IsInitialize() {
      || InitializePermissionedPool? || InitializePermissionlessPool? || InitializePermissionlessPoolWithFeeTier?
      || InitializePermissionlessConstantProductPoolWithConfig? || InitializePermissionlessConstantProductPoolWithConfig2?
      || InitializeCustomizablePermissionlessConstantProductPool?
    }
  }

  // Decoded accounts and data; an absent account is "".
  datatype InitAccounts = InitAccounts(pool: string, lpMint: string, tokenAMint: string, tokenBMint: string,
                                       aTokenVault: string, bTokenVault: string, aVaultLpMint: string, bVaultLpMint: string)
  {
    /** The accounts the handler returns early without. */
    predicate HasRequired() {
      Present(pool) && Present(lpMint) && Present(aTokenVault) && Present(bTokenVault)
      && Present(aVaultLpMint) && Present(bVaultLpMint)
    }
  }
  datatype InitData = InitData(tokenAAmount: int, tokenBAmount: int)
  datatype SwapAccounts = SwapAccounts(pool: string, user: string, aVault: string, bVault: string, lpMint: string,
                                       aVaultLpMint: string, bVaultLpMint: string)
  {
    predicate HasRequired() {
      Present(pool) && Present(user)
    }
  }
  /** The accounts of the four liquidity instructions. */
  datatype LiquidityAccounts = LiquidityAccounts(pool: string, lpMint: string, user: string, aTokenVault: string,
                                                 bTokenVault: string, aVaultLpMint: string, bVaultLpMint: string)
  {
    predicate HasRequired() {
      Present(pool) && Present(lpMint) && Present(aTokenVault) && Present(bTokenVault) && Present(user)
    }
  }
  datatype BootstrapAccounts = BootstrapAccounts(pool: string, lpMint: string, aTokenVault: string, bTokenVault: string,
                                                 aVault: string, bVault: string, aVaultLpMint: string, bVaultLpMint: string,
                                                 user: string)
  {
    predicate HasRequired() {
      Present(pool) && Present(lpMint) && Present(aTokenVault) && Present(bTokenVault)
      && Present(aVault) && Present(bVault) && Present(user)
    }
  }
  datatype ClaimFeeAccounts = ClaimFeeAccounts(pool: string, lpMint: string, owner: string, aTokenVault: string,
                                               bTokenVault: string, aVault: string, bVault: string, aVaultLp: string,
                                               bVaultLp: string)
  {
    predicate HasRequired() {
      Present(pool) && Present(lpMint) && Present(owner) && Present(aTokenVault) && Present(bTokenVault)
    }
  }

  /**
   * The program's layouts: the discriminator lookup and one decoder per
   * handler (failing where `decode` throws).  The liquidity decoder yields
   * the LP amount the handler reads: `poolTokenAmount`, or
   * `minimumPoolTokenAmount` for an imbalanced add.
   */
  datatype DammCodecs = DammCodecs(
    layoutOf: seq<bv8> -> Option<DammKind>,
    decodeInit: Instruction -> Option<(InitAccounts, InitData)>,
    decodeSwap: Instruction -> Option<SwapAccounts>,
    decodeLiquidity: Instruction -> Option<(LiquidityAccounts, nat)>,
    decodeBootstrap: Instruction -> Option<BootstrapAccounts>,
    decodeEnable: Instruction -> Option<(string, bool)>,
    decodeOverride: Instruction -> Option<string>,
    decodeClaimFee: Instruction -> Option<ClaimFeeAccounts>,
    tokens: Transfers.Codecs)

  /** The durable tier of the pool lookups. */
  datatype Durable = Durable(basePools: map<string, BasePool>, dammPools: map<string, DammPool>) {
    predicate Keyed() {
      BasePoolsKeyed(basePools) && DammPoolsKeyed(dammPools)
    }
  }

  /** The contents of every store the processor writes. */
  datatype DammState = DammState(
    basePools: StoreState<BasePool>,
    dammPools: StoreState<DammPool>,
    positions: StoreState<DammPosition>,
    changes: StoreState<DammLiquidityChange>,
    swaps: StoreState<DammSwap>,
    swapIndices: map<string, nat>,
    fees: StoreState<DammFee>)
  {
    ghost predicate Valid() {
      && basePools.Valid() && !basePools.isEvent && BasePoolsKeyed(basePools.entries)
      && dammPools.Valid() && !dammPools.isEvent && DammPoolsKeyed(dammPools.entries)
      && LiquidityState(positions, changes).Valid()
      && swaps.Valid() && swaps.isEvent
      && fees.Valid() && !fees.isEvent
    }
  }

  // ---------------------------------------------------------------------
  // One service call each, on the whole state
  // ---------------------------------------------------------------------

  /** `poolService.find`: the cache, else the database (caching what it finds). */
  function FindStep(s: DammState, db: Durable, poolAddress: string): (DammState, Option<BasePool>) {
    var (basePools', found) := CachedFind(s.basePools, db.basePools, poolAddress);
    (s.(basePools := basePools'), found)
  }

  /** `poolService.getOrCreateDammPool`. */
  function DammPoolStep(s: DammState, db: Durable, poolAddress: string, bp: BasePool, lpMint: string, aVault: string,
                        bVault: string, aVaultLpMint: string, bVaultLpMint: string): (DammState, DammPool)
  {
    var (dammPools', dammPool) := GetOrCreateDammPoolIn(s.dammPools, db.dammPools, poolAddress, bp, lpMint,
                                                        aVault, bVault, aVaultLpMint, bVaultLpMint);
    (s.(dammPools := dammPools'), dammPool)
  }

  /** `poolService.updateBasePool`: the pool's new values written back under its id. */
  function PoolUpdateStep(s: DammState, bp: BasePool, reserveX: int, reserveY: int, totalLiquidity: int,
                          status: bool, timestamp: nat): DammState
  {
    s.(basePools := s.basePools.Save(bp.id, UpdatedBasePool(bp, reserveX, reserveY, totalLiquidity, status, timestamp)))
  }

  /** `swapService.createSwap`. */
  function SwapRecordStep(s: DammState, txId: string, dammPool: DammPool, user: string, inMint: string, outMint: string,
                          amountIn: int, amountOut: int, timestamp: nat): DammState
  {
    var (swaps', swapIndices', _) := CreateSwapIn(s.swaps, s.swapIndices, txId, dammPool, user, inMint, outMint,
                                                  amountIn, amountOut, timestamp);
    s.(swaps := swaps', swapIndices := swapIndices')
  }

  /** `getOrCreatePosition`, `recordLiquidityChange` (LP 0), `updatePosition(positionLp)`. */
  function PositionChangeStep(s: DammState, dammPool: DammPool, user: string, changeType: DammChangeType,
                              recordX: int, recordY: int, positionLp: int, timestamp: nat): DammState
  {
    var st := RecordThenSetLp(LiquidityState(s.positions, s.changes), dammPool, user, changeType, recordX, recordY,
                              positionLp, timestamp);
    s.(positions := st.positions, changes := st.changes)
  }

  /** `getOrCreatePosition` and `recordLiquidityChange('bootstrap', ..., 0n)`, no LP update. */
  function BootstrapChangeStep(s: DammState, dammPool: DammPool, user: string, recordX: int, recordY: int,
                               timestamp: nat): DammState
  {
    var (positions', position) := GetOrCreatePositionIn(s.positions, dammPool, user, timestamp);
    var change := ChangeRecord(dammPool, position, Bootstrap, recordX, recordY, 0, timestamp);
    s.(positions := positions', changes := s.changes.Save(change.id, change))
  }

  /** `feeService.createFee`. */
  function FeeStep(s: DammState, txId: string, dammPool: DammPool, owner: string, feeX: int, feeY: int,
                   timestamp: nat): DammState
  {
    var fee := FeeRecord(txId, dammPool, owner, feeX, feeY, timestamp);
    s.(fees := s.fees.Save(fee.id, fee))
  }

  // ---------------------------------------------------------------------
  // Handlers as pure steps
  // ---------------------------------------------------------------------

  function InitializeStep(s: DammState, db: Durable, a: InitAccounts, d: InitData, timestamp: nat): DammState {
    if !a.HasRequired() then s
    else
      var (basePools', _) := GetOrCreateBasePoolIn(s.basePools, db.basePools, a.pool, a.tokenAMint, a.tokenBMint,
                                                   a.aTokenVault, a.bTokenVault, d.tokenAAmount, d.tokenBAmount, timestamp);
      s.(basePools := basePools')
  }

  function SwapStep(s: DammState, db: Durable, a: SwapAccounts, transfers: seq<Transfer>, txId: string, timestamp: nat): DammState {
    if !a.HasRequired() then s
    else
      var (s1, found) := FindStep(s, db, a.pool);
      if found.None? then s1
      else SwapOnPool(s1, db, a, found.value, transfers, txId, timestamp)
  }

  /** The swap handler once `find` has yielded the base pool. */
  function SwapOnPool(s: DammState, db: Durable, a: SwapAccounts, bp: BasePool, transfers: seq<Transfer>, txId: string,
                      timestamp: nat): DammState
  {
    var (s1, dammPool) := DammPoolStep(s, db, a.pool, bp, a.lpMint, a.aVault, a.bVault, a.aVaultLpMint, a.bVaultLpMint);
    var f := FlowsOf(transfers, bp.tokenXVault, bp.tokenYVault);
    match DammSwapLeg(f.NetX(), f.NetY())
    case None => s1
    case Some(leg) => SwapApply(s1, bp, dammPool, a.user, leg, f, txId, timestamp)
  }

  /** A recognised swap: record it, then move the reserves by the net flows. */
  function SwapApply(s: DammState, bp: BasePool, dammPool: DammPool, user: string, leg: SwapLeg, f: Flows,
                     txId: string, timestamp: nat): DammState
  {
    var inMint := if leg.inputIsX then bp.tokenX else bp.tokenY;
    var outMint := if leg.inputIsX then bp.tokenY else bp.tokenX;
    var s1 := SwapRecordStep(s, txId, dammPool, user, inMint, outMint, leg.amountIn, leg.amountOut, timestamp);
    PoolUpdateStep(s1, bp, bp.reserveX + f.NetX(), bp.reserveY + f.NetY(), bp.totalLiquidity, bp.status, timestamp)
  }

  /** Which liquidity handler runs. */
  datatype LiquidityKind = BalancedAdd | BalancedRemove | ImbalancedAdd | SingleSideRemove

  /** The guard each liquidity handler applies to the net flows (the imbalanced and single-side ones have none). */
  predicate LiquidityAccepted(kind: LiquidityKind, netX: int, netY: int) {
    match kind
    case BalancedAdd => DammBalancedAddAccepted(netX, netY)
    case BalancedRemove => DammBalancedRemoveAccepted(netX, netY)
    case _ => true
  }

  /** The token amounts each liquidity handler records. */
  function RecordedAmounts(kind: LiquidityKind, netX: int, netY: int): (int, int) {
    match kind
    case BalancedAdd => (netX, netY)
    case BalancedRemove => (-netX, -netY)
    case ImbalancedAdd => (Inflow(netX), Inflow(netY))
    case SingleSideRemove => (Outflow(netX), Outflow(netY))
  }

  /** Adds mint LP tokens, removes burn them. */
  function SignedLp(kind: LiquidityKind, lpAmount: nat): int {
    if kind.BalancedAdd? || kind.ImbalancedAdd? then lpAmount else -(lpAmount as int)
  }

  function ChangeTypeOf(kind: LiquidityKind): DammChangeType {
    match kind
    case BalancedAdd => Add
    case BalancedRemove => Remove
    case ImbalancedAdd => Add
    case SingleSideRemove => SingleSide
  }

  function LiquidityStep(s: DammState, db: Durable, kind: LiquidityKind, a: LiquidityAccounts, lpAmount: nat,
                         transfers: seq<Transfer>, timestamp: nat): DammState
  {
    if !a.HasRequired() then s
    else
      var (s1, found) := FindStep(s, db, a.pool);
      if found.None? then s1
      else LiquidityOnPool(s1, db, kind, a, lpAmount, found.value, transfers, timestamp)
  }

  /** A liquidity handler once `find` has yielded the base pool. */
  function LiquidityOnPool(s: DammState, db: Durable, kind: LiquidityKind, a: LiquidityAccounts, lpAmount: nat,
                           bp: BasePool, transfers: seq<Transfer>, timestamp: nat): DammState
  {
    var (s1, dammPool) := DammPoolStep(s, db, a.pool, bp, a.lpMint, a.aTokenVault, a.bTokenVault,
                                       a.aVaultLpMint, a.bVaultLpMint);
    var f := FlowsOf(transfers, bp.tokenXVault, bp.tokenYVault);
    if !LiquidityAccepted(kind, f.NetX(), f.NetY()) then s1
    else LiquidityApply(s1, kind, bp, dammPool, a.user, lpAmount, f, timestamp)
  }

  /** An accepted liquidity change: position and change record, then the pool's reserves and liquidity. */
  function LiquidityApply(s: DammState, kind: LiquidityKind, bp: BasePool, dammPool: DammPool, user: string,
                          lpAmount: nat, f: Flows, timestamp: nat): DammState
  {
    var (recordX, recordY) := RecordedAmounts(kind, f.NetX(), f.NetY());
    var s1 := PositionChangeStep(s, dammPool, user, ChangeTypeOf(kind), recordX, recordY, SignedLp(kind, lpAmount), timestamp);
    PoolUpdateStep(s1, bp, bp.reserveX + f.NetX(), bp.reserveY + f.NetY(),
                   bp.totalLiquidity + SignedLp(kind, lpAmount), bp.status, timestamp)
  }

  function BootstrapStep(s: DammState, db: Durable, a: BootstrapAccounts, transfers: seq<Transfer>, timestamp: nat): DammState {
    if !a.HasRequired() then s
    else
      var (s1, found) := FindStep(s, db, a.pool);
      if found.None? then s1
      else if found.value.reserveX != 0 || found.value.reserveY != 0 then s1
      else BootstrapOnPool(s1, db, a, found.value, transfers, timestamp)
  }

  /** The bootstrap once `find` has yielded a pool with empty reserves. */
  function BootstrapOnPool(s: DammState, db: Durable, a: BootstrapAccounts, bp: BasePool, transfers: seq<Transfer>,
                           timestamp: nat): DammState
  {
    var (s1, dammPool) := DammPoolStep(s, db, a.pool, bp, a.lpMint, a.aVault, a.bVault, a.aVaultLpMint, a.bVaultLpMint);
    BootstrapApply(s1, bp, dammPool, a.user, FlowsOf(transfers, bp.tokenXVault, bp.tokenYVault), timestamp)
  }

  /** The change with the positive parts of the net flows, then the reserves moved and the total liquidity set to 0. */
  function BootstrapApply(s: DammState, bp: BasePool, dammPool: DammPool, user: string, f: Flows, timestamp: nat): DammState {
    var s1 := BootstrapChangeStep(s, dammPool, user, Inflow(f.NetX()), Inflow(f.NetY()), timestamp);
    PoolUpdateStep(s1, bp, bp.reserveX + f.NetX(), bp.reserveY + f.NetY(), 0, bp.status, timestamp)
  }

  function EnableStep(s: DammState, db: Durable, poolAddress: string, enable: bool, timestamp: nat): DammState {
    if !Present(poolAddress) then s
    else
      var (s1, found) := FindStep(s, db, poolAddress);
      if found.None? then s1
      else
        var bp := found.value;
        PoolUpdateStep(s1, bp, bp.reserveX, bp.reserveY, bp.totalLiquidity, enable, timestamp)
  }

  function OverrideStep(s: DammState, db: Durable, poolAddress: string, timestamp: nat): DammState {
    if !Present(poolAddress) then s
    else
      var (s1, found) := FindStep(s, db, poolAddress);
      if found.None? then s1
      else
        var bp := found.value;
        PoolUpdateStep(s1, bp, bp.reserveX, bp.reserveY, bp.totalLiquidity, bp.status, timestamp)
  }

  function ClaimFeeStep(s: DammState, db: Durable, a: ClaimFeeAccounts, transfers: seq<Transfer>, txId: string, timestamp: nat): DammState {
    if !a.HasRequired() then s
    else
      var (s1, found) := FindStep(s, db, a.pool);
      if found.None? then s1
      else ClaimFeeOnPool(s1, db, a, found.value, transfers, txId, timestamp)
  }

  /** The fee claim once `find` has yielded the base pool: the fee is the gross withdrawals. */
  function ClaimFeeOnPool(s: DammState, db: Durable, a: ClaimFeeAccounts, bp: BasePool, transfers: seq<Transfer>,
                          txId: string, timestamp: nat): DammState
  {
    var (s1, dammPool) := DammPoolStep(s, db, a.pool, bp, a.lpMint, a.aVault, a.bVault, a.aVaultLp, a.bVaultLp);
    var f := FlowsOf(transfers, bp.tokenXVault, bp.tokenYVault);
    var s2 := FeeIfWithdrawn(s1, txId, dammPool, a.owner, f, timestamp);
    PoolUpdateStep(s2, bp, bp.reserveX + f.NetX(), bp.reserveY + f.NetY(), bp.totalLiquidity, bp.status, timestamp)
  }

  /** `createFee` with the gross withdrawals, only when either is positive. */
  function FeeIfWithdrawn(s: DammState, txId: string, dammPool: DammPool, owner: string, f: Flows, timestamp: nat): DammState {
    if f.withdrawX > 0 || f.withdrawY > 0 then FeeStep(s, txId, dammPool, owner, f.withdrawX, f.withdrawY, timestamp)
    else s
  }

  // ---------------------------------------------------------------------
  // Decoding and dispatch
  // ---------------------------------------------------------------------

  function LiquidityKindOf(kind: DammKind): Option<LiquidityKind> {
    match kind
    case AddBalanceLiquidity => Some(BalancedAdd)
    case RemoveBalanceLiquidity => Some(BalancedRemove)
    case AddImbalanceLiquidity => Some(ImbalancedAdd)
    case RemoveLiquiditySingleSide => Some(SingleSideRemove)
    case _ => None
  }

  /** `processInstruction`: a decode failure is caught and, like an unknown layout, changes nothing. */
  function Process(s: DammState, db: Durable, codecs: DammCodecs, ins: Instruction, timestamp: nat): DammState {
    var transfers := TokenTransfers(ins.inner, codecs.tokens);
    match codecs.layoutOf(ins.d8)
    case None => s
    case Some(kind) =>
      if kind.IsInitialize() then
        match codecs.decodeInit(ins)
        case None => s
        case Some((a, d)) => InitializeStep(s, db, a, d, timestamp)
      else if LiquidityKindOf(kind).Some? then
        match codecs.decodeLiquidity(ins)
        case None => s
        case Some((a, lp)) => LiquidityStep(s, db, LiquidityKindOf(kind).value, a, lp, transfers, timestamp)
      else
        match kind
        case SwapInstruction =>
          (match codecs.decodeSwap(ins)
           case None => s
           case Some(a) => SwapStep(s, db, a, transfers, ins.transactionId, timestamp))
        case BootstrapLiquidity =>
          (match codecs.decodeBootstrap(ins)
           case None => s
           case Some(a) => BootstrapStep(s, db, a, transfers, timestamp))
        case EnableOrDisablePool =>
          (match codecs.decodeEnable(ins)
           case None => s
           case Some((pool, enable)) => EnableStep(s, db, pool, enable, timestamp))
        case OverrideCurveParam =>
          (match codecs.decodeOverride(ins)
           case None => s
           case Some(pool) => OverrideStep(s, db, pool, timestamp))
        case ClaimFee =>
          (match codecs.decodeClaimFee(ins)
           case None => s
           case Some(a) => ClaimFeeStep(s, db, a, transfers, ins.transactionId, timestamp))
        case _ => s
  }

  // ---------------------------------------------------------------------
  // The processor
  // ---------------------------------------------------------------------

  /**
   * `DammProcessor`.  Its state is the contents of the stores its services
   * write; each service call is one of the steps above, and each handler
   * sums the transfers with the same loop as the source.
   */
  class Processor {
    var state: DammState
    const db: Durable
    const codecs: DammCodecs

    ghost predicate Valid()
      reads this
    {
      state.Valid() && db.Keyed()
    }

    constructor(db: Durable, codecs: DammCodecs)
      requires db.Keyed()
      ensures Valid() && this.db == db && this.codecs == codecs
      ensures state == DammState(Empty(false), Empty(false), Empty(false), Empty(false), Empty(true), map[], Empty(false))
    {
      state := DammState(Empty(false), Empty(false), Empty(false), Empty(false), Empty(true), map[], Empty(false));
      this.db := db;
      this.codecs := codecs;
    }

    method FindPool(poolAddress: string) returns (pool: Option<BasePool>)
      modifies this
      ensures (state, pool) == FindStep(old(state), db, poolAddress)
    {
      state, pool := FindStep(state, db, poolAddress).0, FindStep(state, db, poolAddress).1;
    }

    method GetOrCreateDammPool(poolAddress: string, bp: BasePool, lpMint: string, aVault: string, bVault: string,
                               aVaultLpMint: string, bVaultLpMint: string) returns (pool: DammPool)
      modifies this
      ensures (state, pool) == DammPoolStep(old(state), db, poolAddress, bp, lpMint, aVault, bVault, aVaultLpMint, bVaultLpMint)
    {
      var r := DammPoolStep(state, db, poolAddress, bp, lpMint, aVault, bVault, aVaultLpMint, bVaultLpMint);
      state, pool := r.0, r.1;
    }

    method UpdateBasePool(bp: BasePool, reserveX: int, reserveY: int, totalLiquidity: int, status: bool, timestamp: nat)
      modifies this
      ensures state == PoolUpdateStep(old(state), bp, reserveX, reserveY, totalLiquidity, status, timestamp)
    {
      state := PoolUpdateStep(state, bp, reserveX, reserveY, totalLiquidity, status, timestamp);
    }

    method HandleInitializePool(a: InitAccounts, d: InitData, timestamp: nat)
      modifies this
      ensures state == InitializeStep(old(state), db, a, d, timestamp)
    {
      if !a.HasRequired() {
        return;
      }
      var (basePools', _) := GetOrCreateBasePoolIn(state.basePools, db.basePools, a.pool, a.tokenAMint, a.tokenBMint,
                                                   a.aTokenVault, a.bTokenVault, d.tokenAAmount, d.tokenBAmount, timestamp);
      state := state.(basePools := basePools');
    }

    method HandleSwap(a: SwapAccounts, ins: Instruction, transfers: seq<Transfer>, timestamp: nat)
      modifies this
      ensures state == SwapStep(old(state), db, a, transfers, ins.transactionId, timestamp)
    {
      if !a.HasRequired() {
        return;
      }
      var found := FindPool(a.pool);
      if found.None? {
        return;
      }
      SwapWithPool(a, found.value, transfers, ins.transactionId, timestamp);
    }

    method SwapWithPool(a: SwapAccounts, bp: BasePool, transfers: seq<Transfer>, txId: string, timestamp: nat)
      modifies this
      ensures state == SwapOnPool(old(state), db, a, bp, transfers, txId, timestamp)
    {
      var dammPool := GetOrCreateDammPool(a.pool, bp, a.lpMint, a.aVault, a.bVault, a.aVaultLpMint, a.bVaultLpMint);
      var f := AccumulateFlows(transfers, bp.tokenXVault, bp.tokenYVault);
      var netFlowX, netFlowY := f.NetX(), f.NetY();
      var amountIn, amountOut, inputIsX;
      if netFlowX > 0 && netFlowY < 0 {
        amountIn, amountOut, inputIsX := netFlowX, -netFlowY, true;
      } else if netFlowY > 0 && netFlowX < 0 {
        amountIn, amountOut, inputIsX := netFlowY, -netFlowX, false;
      } else {
        return;
      }
      RecordSwap(bp, dammPool, a.user, SwapLeg(inputIsX, amountIn, amountOut), f, txId, timestamp);
    }

    method RecordSwap(bp: BasePool, dammPool: DammPool, user: string, leg: SwapLeg, f: Flows, txId: string, timestamp: nat)
      modifies this
      ensures state == SwapApply(old(state), bp, dammPool, user, leg, f, txId, timestamp)
    {
      var inMint := if leg.inputIsX then bp.tokenX else bp.tokenY;
      var outMint := if leg.inputIsX then bp.tokenY else bp.tokenX;
      state := SwapRecordStep(state, txId, dammPool, user, inMint, outMint, leg.amountIn, leg.amountOut, timestamp);
      UpdateBasePool(bp, bp.reserveX + f.NetX(), bp.reserveY + f.NetY(), bp.totalLiquidity, bp.status, timestamp);
    }

    /** The body the four liquidity handlers share; they differ in guard, recorded amounts and LP sign. */
    method HandleLiquidity(kind: LiquidityKind, a: LiquidityAccounts, lpAmount: nat, transfers: seq<Transfer>, timestamp: nat)
      modifies this
      ensures state == LiquidityStep(old(state), db, kind, a, lpAmount, transfers, timestamp)
    {
      if !a.HasRequired() {
        return;
      }
      var found := FindPool(a.pool);
      if found.None? {
        return;
      }
      LiquidityWithPool(kind, a, lpAmount, found.value, transfers, timestamp);
    }

    method LiquidityWithPool(kind: LiquidityKind, a: LiquidityAccounts, lpAmount: nat, bp: BasePool,
                           transfers: seq<Transfer>, timestamp: nat)
      modifies this
      ensures state == LiquidityOnPool(old(state), db, kind, a, lpAmount, bp, transfers, timestamp)
    {
      var dammPool := GetOrCreateDammPool(a.pool, bp, a.lpMint, a.aTokenVault, a.bTokenVault, a.aVaultLpMint, a.bVaultLpMint);
      var f := AccumulateFlows(transfers, bp.tokenXVault, bp.tokenYVault);
      if !LiquidityAccepted(kind, f.NetX(), f.NetY()) {
        return;
      }
      RecordLiquidity(kind, bp, dammPool, a.user, lpAmount, f, timestamp);
    }

    method RecordLiquidity(kind: LiquidityKind, bp: BasePool, dammPool: DammPool, user: string, lpAmount: nat,
                          f: Flows, timestamp: nat)
      modifies this
      ensures state == LiquidityApply(old(state), kind, bp, dammPool, user, lpAmount, f, timestamp)
    {
      var (recordX, recordY) := RecordedAmounts(kind, f.NetX(), f.NetY());
      state := PositionChangeStep(state, dammPool, user, ChangeTypeOf(kind), recordX, recordY, SignedLp(kind, lpAmount), timestamp);
      UpdateBasePool(bp, bp.reserveX + f.NetX(), bp.reserveY + f.NetY(), bp.totalLiquidity + SignedLp(kind, lpAmount),
                     bp.status, timestamp);
    }

    method HandleBootstrapLiquidity(a: BootstrapAccounts, transfers: seq<Transfer>, timestamp: nat)
      modifies this
      ensures state == BootstrapStep(old(state), db, a, transfers, timestamp)
    {
      if !a.HasRequired() {
        return;
      }
      var found := FindPool(a.pool);
      if found.None? {
        return;
      }
      var bp := found.value;
      if bp.reserveX != 0 || bp.reserveY != 0 {
        return;
      }
      BootstrapWithPool(a, bp, transfers, timestamp);
    }

    method BootstrapWithPool(a: BootstrapAccounts, bp: BasePool, transfers: seq<Transfer>, timestamp: nat)
      modifies this
      ensures state == BootstrapOnPool(old(state), db, a, bp, transfers, timestamp)
    {
      var dammPool := GetOrCreateDammPool(a.pool, bp, a.lpMint, a.aVault, a.bVault, a.aVaultLpMint, a.bVaultLpMint);
      var f := AccumulateFlows(transfers, bp.tokenXVault, bp.tokenYVault);
      state := BootstrapChangeStep(state, dammPool, a.user, if f.NetX() > 0 then f.NetX() else 0,
                                   if f.NetY() > 0 then f.NetY() else 0, timestamp);
      UpdateBasePool(bp, bp.reserveX + f.NetX(), bp.reserveY + f.NetY(), 0, bp.status, timestamp);
    }

    method HandleEnableOrDisablePool(poolAddress: string, enable: bool, timestamp: nat)
      modifies this
      ensures state == EnableStep(old(state), db, poolAddress, enable, timestamp)
    {
      if !Present(poolAddress) {
        return;
      }
      var found := FindPool(poolAddress);
      if found.None? {
        return;
      }
      var bp := found.value;
      UpdateBasePool(bp, bp.reserveX, bp.reserveY, bp.totalLiquidity, enable, timestamp);
    }

    method HandleOverrideCurveParam(poolAddress: string, timestamp: nat)
      modifies this
      ensures state == OverrideStep(old(state), db, poolAddress, timestamp)
    {
      if !Present(poolAddress) {
        return;
      }
      var found := FindPool(poolAddress);
      if found.None? {
        return;
      }
      var pool := found.value;
      UpdateBasePool(pool, pool.reserveX, pool.reserveY, pool.totalLiquidity, pool.status, timestamp);
    }

    method HandleClaimFee(a: ClaimFeeAccounts, ins: Instruction, transfers: seq<Transfer>, timestamp: nat)
      modifies this
      ensures state == ClaimFeeStep(old(state), db, a, transfers, ins.transactionId, timestamp)
    {
      if !a.HasRequired() {
        return;
      }
      var found := FindPool(a.pool);
      if found.None? {
        return;
      }
      ClaimFeeWithPool(a, found.value, transfers, ins.transactionId, timestamp);
    }

    method ClaimFeeWithPool(a: ClaimFeeAccounts, bp: BasePool, transfers: seq<Transfer>, txId: string, timestamp: nat)
      modifies this
      ensures state == ClaimFeeOnPool(old(state), db, a, bp, transfers, txId, timestamp)
    {
      var dammPool := GetOrCreateDammPool(a.pool, bp, a.lpMint, a.aVault, a.bVault, a.aVaultLp, a.bVaultLp);
      var f := AccumulateFlows(transfers, bp.tokenXVault, bp.tokenYVault);
      var feeX := if f.withdrawX > 0 then f.withdrawX else 0;
      var feeY := if f.withdrawY > 0 then f.withdrawY else 0;
      if feeX > 0 || feeY > 0 {
        state := FeeStep(state, txId, dammPool, a.owner, feeX, feeY, timestamp);
      }
      UpdateBasePool(bp, bp.reserveX + f.NetX(), bp.reserveY + f.NetY(), bp.totalLiquidity, bp.status, timestamp);
    }

    /**
     * Looks the layout up by discriminator, decodes and dispatches; a decode
     * failure is swallowed.  The token transfers are decoded here once and
     * handed to the handler (the source decodes them inside each handler;
     * decoding has no effect, so the result is the same).
     */
    method ProcessInstruction(ins: Instruction, timestamp: nat)
      modifies this
      ensures state == Process(old(state), db, codecs, ins, timestamp)
    {
      var transfers := DecodeTokenTransfers(ins.inner, codecs.tokens);
      var layout := codecs.layoutOf(ins.d8);
      if layout.None? {
        return;
      }
      var kind := layout.value;
      if kind.IsInitialize() {
        var decoded := codecs.decodeInit(ins);
        if decoded.Some? {
          HandleInitializePool(decoded.value.0, decoded.value.1, timestamp);
        }
        return;
      }
      var liquidityKind := LiquidityKindOf(kind);
      if liquidityKind.Some? {
        var decoded := codecs.decodeLiquidity(ins);
        if decoded.Some? {
          HandleLiquidity(liquidityKind.value, decoded.value.0, decoded.value.1, transfers, timestamp);
        }
        return;
      }
      match kind {
        case SwapInstruction =>
          var decoded := codecs.decodeSwap(ins);
          if decoded.Some? {
            HandleSwap(decoded.value, ins, transfers, timestamp);
          }
        case BootstrapLiquidity =>
          var decoded := codecs.decodeBootstrap(ins);
          if decoded.Some? {
            HandleBootstrapLiquidity(decoded.value, transfers, timestamp);
          }
        case EnableOrDisablePool =>
          var decoded := codecs.decodeEnable(ins);
          if decoded.Some? {
            HandleEnableOrDisablePool(decoded.value.0, decoded.value.1, timestamp);
          }
        case OverrideCurveParam =>
          var decoded := codecs.decodeOverride(ins);
          if decoded.Some? {
            HandleOverrideCurveParam(decoded.value, timestamp);
          }
        case ClaimFee =>
          var decoded := codecs.decodeClaimFee(ins);
          if decoded.Some? {
            HandleClaimFee(decoded.value, ins, transfers, timestamp);
          }
        case _ =>
      }
    }
  }
}
