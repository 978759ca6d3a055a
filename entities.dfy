/**
 * The persisted entities the indexer builds (the generated ORM classes of
 * src/model/generated), as plain records.  A reference to another entity is
 * kept as that entity's id.  Amounts are the source's BigInts (unbounded
 * integers, possibly negative once a net flow has been applied); timestamps
 * are integers in the unit the source stores (milliseconds for `Date`
 * columns, raw block seconds for the DLMM fee's numeric column).
 */
module Entities {
  import opened Wrappers

  /** The pool record shared by both DEX variants. */
  datatype BasePool = BasePool(
    id: string,
    tokenX: string,
    tokenY: string,
    tokenXVault: string,
    tokenYVault: string,
    reserveX: int,
    reserveY: int,
    totalLiquidity: int,
    status: bool,
    createdAt: int,
    updatedAt: int)

  /** The constant-product (DAMM) extension of a base pool. */
  datatype DammPool = DammPool(
    id: string,
    basePool: string,
    aVault: string,
    bVault: string,
    aVaultLpMint: string,
    bVaultLpMint: string,
    curveType: string)

  /** One owner's LP balance in a DAMM pool. */
  datatype DammPosition = DammPosition(
    id: string,
    pool: string,
    owner: string,
    lpTokenAmount: int,
    createdAt: int,
    updatedAt: int)

  /** The `type` column of a DAMM liquidity change. */
  datatype DammChangeType = Add | Remove | Bootstrap | SingleSide

  datatype DammLiquidityChange = DammLiquidityChange(
    id: string,
    pool: string,
    position: string,
    changeType: DammChangeType,
    tokenXAmount: int,
    tokenYAmount: int,
    lpTokenAmount: int,
    timestamp: int)

  datatype DammSwap = DammSwap(
    id: string,
    pool: string,
    userAddress: string,
    tokenInMint: string,
    tokenOutMint: string,
    amountIn: int,
    amountOut: int,
    timestamp: int)

  datatype DammFee = DammFee(
    id: string,
    pool: string,
    owner: string,
    tokenXAmount: int,
    tokenYAmount: int,
    timestamp: int)

  datatype DammLock = DammLock(
    id: string,
    pool: string,
    owner: string,
    amount: int,
    createdAt: int,
    updatedAt: int)

  /** The bin-liquidity (DLMM) extension of a base pool. */
  datatype DlmmPool = DlmmPool(
    id: string,
    basePool: string,
    binStep: int,
    activeId: int,
    activationPoint: Option<int>,
    preActivationDuration: Option<int>,
    preActivationSwapAddress: Option<string>)

  datatype DlmmPosition = DlmmPosition(
    id: string,
    pool: string,
    owner: string,
    operator: Option<string>,
    lowerBinId: int,
    upperBinId: int,
    liquidity: int,
    tokenXAmount: int,
    tokenYAmount: int,
    feeOwner: Option<string>,
    lockReleasePoint: Option<int>,
    createdAt: int,
    updatedAt: int)

  datatype DlmmSwap = DlmmSwap(
    id: string,
    pool: string,
    userAddress: string,
    tokenInAddress: string,
    tokenOutAddress: string,
    amountIn: int,
    amountOut: int,
    priceImpactBps: Option<int>,
    timestamp: int)

  /** The `type` column of a DLMM liquidity change: only 'add' or 'remove'. */
  datatype DlmmChangeType = DlmmAdd | DlmmRemove

  datatype DlmmLiquidityChange = DlmmLiquidityChange(
    id: string,
    pool: string,
    position: string,
    changeType: DlmmChangeType,
    tokenXAmount: int,
    tokenYAmount: int,
    timestamp: int)

  datatype DlmmReward = DlmmReward(
    id: string,
    pool: string,
    rewardIndex: nat,
    rewardDuration: int,
    funder: string,
    amount: int,
    lastUpdateTime: int,
    createdAt: int)

  /** The `type` column of a DLMM fee claim: 'in' or 'out'. */
  datatype FeeDirection = In | Out

  datatype DlmmFee = DlmmFee(
    id: string,
    pool: string,
    position: string,
    user: string,
    amountX: int,
    amountY: int,
    feeType: FeeDirection,
    timestamp: int)
}
