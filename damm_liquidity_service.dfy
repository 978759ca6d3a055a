/**
 * src/damm/liquidity.service.ts: one LP position per (pool, owner) and a
 * record per liquidity change, both in entity stores keyed by id.
 */
module DammLiquidityService {
  import opened Wrappers
  import opened Entities
  import opened Store
  import opened Utils

  predicate PositionsKeyed(entries: map<string, DammPosition>) {
    forall k :: k in entries ==> entries[k].id == k
  }

  /** `${pool.id}-${owner}-${timestamp}`. */
  function ChangeId(poolId: string, owner: string, timestamp: nat): string {
    poolId + "-" + owner + "-" + NatToString(timestamp)
  }

  /** A change id reads back to its pool/owner prefix and its timestamp. */
  lemma ChangeIdRoundTrip(poolId: string, owner: string, timestamp: nat)
    ensures ParseIndexedId(ChangeId(poolId, owner, timestamp)) == Some((poolId + "-" + owner, timestamp))
  {
    IndexedIdRoundTrip(poolId + "-" + owner, timestamp);
  }

  function NewPosition(pool: DammPool, owner: string, timestamp: nat): DammPosition {
    DammPosition(CreatePositionId(pool.id, owner), pool.id, owner, 0, timestamp * 1000, timestamp * 1000)
  }

  /** `getOrCreatePosition`: the cached position of `owner` in `pool`, else a new empty one. */
  function GetOrCreatePositionIn(positions: StoreState<DammPosition>, pool: DammPool, owner: string, timestamp: nat)
    : (StoreState<DammPosition>, DammPosition)
  {
    var id := CreatePositionId(pool.id, owner);
    match positions.Find(id)
    case Some(p) => (positions, p)
    case None =>
      var p := NewPosition(pool, owner, timestamp);
      (positions.Save(p.id, p), p)
  }

  /** `updatePosition`: the LP amount is replaced, not accumulated, and the update time moves. */
  function WithLpAmount(position: DammPosition, lpTokenAmount: int, timestamp: nat): (p: DammPosition)
    ensures p.lpTokenAmount == lpTokenAmount && p.updatedAt == timestamp * 1000
    ensures p.id == position.id && p.pool == position.pool && p.owner == position.owner
    ensures p.createdAt == position.createdAt
  {
    position.(lpTokenAmount := lpTokenAmount, updatedAt := timestamp * 1000)
  }

  function ChangeRecord(pool: DammPool, position: DammPosition, changeType: DammChangeType,
                        tokenXAmount: int, tokenYAmount: int, lpTokenAmount: int, timestamp: nat): DammLiquidityChange
  {
    DammLiquidityChange(ChangeId(pool.id, position.owner, timestamp), pool.id, position.id, changeType,
                        tokenXAmount, tokenYAmount, lpTokenAmount, timestamp * 1000)
  }

  /** The stores of the service. */
  datatype LiquidityState = LiquidityState(positions: StoreState<DammPosition>, changes: StoreState<DammLiquidityChange>) {
    ghost predicate Valid() {
      positions.Valid() && !positions.isEvent && PositionsKeyed(positions.entries)
      && changes.Valid() && !changes.isEvent
    }
  }

  /** `getOrCreatePosition` on the service's stores. */
  function PositionStep(st: LiquidityState, pool: DammPool, owner: string, timestamp: nat): (LiquidityState, DammPosition) {
    var (positions', position) := GetOrCreatePositionIn(st.positions, pool, owner, timestamp);
    (st.(positions := positions'), position)
  }

  /** `updatePosition`: the updated position written back under its id. */
  function SetLpStep(st: LiquidityState, position: DammPosition, lpTokenAmount: int, timestamp: nat): (LiquidityState, DammPosition) {
    var updated := WithLpAmount(position, lpTokenAmount, timestamp);
    (st.(positions := st.positions.Save(position.id, updated)), updated)
  }

  /** `recordLiquidityChange`. */
  function ChangeStep(st: LiquidityState, pool: DammPool, position: DammPosition, changeType: DammChangeType,
                      tokenXAmount: int, tokenYAmount: int, lpTokenAmount: int, timestamp: nat): LiquidityState
  {
    var change := ChangeRecord(pool, position, changeType, tokenXAmount, tokenYAmount, lpTokenAmount, timestamp);
    st.(changes := st.changes.Save(change.id, change))
  }

  /**
   * The five `handle*Liquidity` helpers: get or create the position, move
   * its LP amount by `lpDelta`, record the change with `lpTokenAmount`
   * (keyed by the position's own owner).
   */
  function AdjustAndRecord(st: LiquidityState, pool: DammPool, owner: string, changeType: DammChangeType,
                           tokenXAmount: int, tokenYAmount: int, lpDelta: int, lpTokenAmount: int, timestamp: nat): LiquidityState
  {
    var (st1, position) := PositionStep(st, pool, owner, timestamp);
    var (st2, updated) := SetLpStep(st1, position, position.lpTokenAmount + lpDelta, timestamp);
    ChangeStep(st2, pool, updated, changeType, tokenXAmount, tokenYAmount, lpTokenAmount, timestamp)
  }

  /**
   * What the DAMM processor's liquidity handlers do with the service: get or
   * create the position, record the change with LP 0, then set the
   * position's LP amount to `positionLp`.
   */
  function RecordThenSetLp(st: LiquidityState, pool: DammPool, owner: string, changeType: DammChangeType,
                           tokenXAmount: int, tokenYAmount: int, positionLp: int, timestamp: nat): LiquidityState
  {
    var (st1, position) := PositionStep(st, pool, owner, timestamp);
    var st2 := ChangeStep(st1, pool, position, changeType, tokenXAmount, tokenYAmount, 0, timestamp);
    SetLpStep(st2, position, positionLp, timestamp).0
  }

  /** The LP amount `owner` holds in `pool` (0 before any position exists). */
  function LpOf(positions: StoreState<DammPosition>, poolId: string, owner: string): int {
    match positions.Find(CreatePositionId(poolId, owner))
    case Some(p) => p.lpTokenAmount
    case None => 0
  }

  /** The position-creation rules: first call wins, a new position starts empty with equal times. */
  lemma GetOrCreatePositionSpec(positions: StoreState<DammPosition>, pool: DammPool, owner: string, timestamp: nat, timestamp2: nat)
    requires positions.Valid() && !positions.isEvent && PositionsKeyed(positions.entries)
    ensures var (after, p) := GetOrCreatePositionIn(positions, pool, owner, timestamp);
      && p.id == CreatePositionId(pool.id, owner)
      && after.Find(p.id) == Some(p)
      && (CreatePositionId(pool.id, owner) !in positions.entries ==>
            p.lpTokenAmount == 0 && p.createdAt == p.updatedAt == timestamp * 1000 && p.owner == owner && p.pool == pool.id)
      && GetOrCreatePositionIn(after, pool, owner, timestamp2) == (after, p)
  {
  }

  /**
   * The helpers move the position by `lpDelta` from what it held (0 for a
   * new position) and store one change under the pool/owner/time key,
   * replacing any earlier change with the same key.
   */
  lemma AdjustAndRecordSpec(st: LiquidityState, pool: DammPool, owner: string, changeType: DammChangeType,
                            tokenXAmount: int, tokenYAmount: int, lpDelta: int, lpTokenAmount: int, timestamp: nat)
    requires st.Valid()
    ensures var st' := AdjustAndRecord(st, pool, owner, changeType, tokenXAmount, tokenYAmount, lpDelta, lpTokenAmount, timestamp);
      var key := ChangeId(pool.id, GetOrCreatePositionIn(st.positions, pool, owner, timestamp).1.owner, timestamp);
      && st'.Valid()
      && LpOf(st'.positions, pool.id, owner) == LpOf(st.positions, pool.id, owner) + lpDelta
      && st'.changes.Find(key).Some?
      && st'.changes.Find(key).value.changeType == changeType
      && st'.changes.Find(key).value.tokenXAmount == tokenXAmount
      && st'.changes.Find(key).value.tokenYAmount == tokenYAmount
      && st'.changes.Find(key).value.lpTokenAmount == lpTokenAmount
      && st'.changes.Find(key).value.timestamp == timestamp * 1000
  {
    var id := CreatePositionId(pool.id, owner);
    var (positions', position) := GetOrCreatePositionIn(st.positions, pool, owner, timestamp);
    assert position.id == id;
    assert LpOf(st.positions, pool.id, owner) == position.lpTokenAmount;
    SaveKeepsValid(st.positions, id, position);
    var updated := WithLpAmount(position, position.lpTokenAmount + lpDelta, timestamp);
    SaveKeepsValid(positions', id, updated);
    var change := ChangeRecord(pool, updated, changeType, tokenXAmount, tokenYAmount, lpTokenAmount, timestamp);
    assert change.id == ChangeId(pool.id, position.owner, timestamp);
    SaveKeepsValid(st.changes, change.id, change);
  }

  /**
   * As the DAMM processor uses the service: the position ends up holding
   * exactly `positionLp` (overwritten, whatever it held before), and the
   * change under the pool/owner/time key carries the amounts passed and LP 0.
   */
  lemma RecordThenSetLpSpec(st: LiquidityState, pool: DammPool, owner: string, changeType: DammChangeType,
                            tokenXAmount: int, tokenYAmount: int, positionLp: int, timestamp: nat)
    requires st.Valid()
    ensures var st' := RecordThenSetLp(st, pool, owner, changeType, tokenXAmount, tokenYAmount, positionLp, timestamp);
      var key := ChangeId(pool.id, GetOrCreatePositionIn(st.positions, pool, owner, timestamp).1.owner, timestamp);
      && st'.Valid()
      && st'.positions.Find(CreatePositionId(pool.id, owner))
           == Some(WithLpAmount(GetOrCreatePositionIn(st.positions, pool, owner, timestamp).1, positionLp, timestamp))
      && LpOf(st'.positions, pool.id, owner) == positionLp
      && st'.changes.Find(key) == Some(DammLiquidityChange(key, pool.id, CreatePositionId(pool.id, owner), changeType,
                                                          tokenXAmount, tokenYAmount, 0, timestamp * 1000))
  {
    var id := CreatePositionId(pool.id, owner);
    var (positions', position) := GetOrCreatePositionIn(st.positions, pool, owner, timestamp);
    assert position.id == id;
    SaveKeepsValid(st.positions, id, position);
    var change := ChangeRecord(pool, position, changeType, tokenXAmount, tokenYAmount, 0, timestamp);
    SaveKeepsValid(st.changes, change.id, change);
    SaveKeepsValid(positions', id, WithLpAmount(position, positionLp, timestamp));
  }

  class LiquidityService {
    var positions: StoreState<DammPosition>
    var changes: StoreState<DammLiquidityChange>

    function State(): LiquidityState
      reads this
    {
      LiquidityState(positions, changes)
    }

    ghost predicate Valid()
      reads this
    {
      State().Valid()
    }

    constructor()
      ensures Valid() && positions == Empty(false) && changes == Empty(false)
    {
      positions := Empty(false);
      changes := Empty(false);
    }

    method GetOrCreatePosition(pool: DammPool, owner: string, timestamp: nat) returns (position: DammPosition)
      modifies this
      ensures (State(), position) == PositionStep(old(State()), pool, owner, timestamp)
    {
      var id := pool.id + "-" + owner;
      if id in positions.entries {
        return positions.entries[id];
      }
      position := DammPosition(id, pool.id, owner, 0, timestamp * 1000, timestamp * 1000);
      positions := positions.Save(position.id, position);
    }

    /** Sets the LP amount (the caller's object changes in place; the updated value is returned). */
    method UpdatePosition(position: DammPosition, lpTokenAmount: int, timestamp: nat) returns (updated: DammPosition)
      modifies this
      ensures (State(), updated) == SetLpStep(old(State()), position, lpTokenAmount, timestamp)
    {
      updated := position.(lpTokenAmount := lpTokenAmount, updatedAt := timestamp * 1000);
      positions := positions.Save(updated.id, updated);
    }

    method RecordLiquidityChange(pool: DammPool, position: DammPosition, changeType: DammChangeType,
                                 tokenXAmount: int, tokenYAmount: int, lpTokenAmount: int, timestamp: nat)
      modifies this
      ensures State() == ChangeStep(old(State()), pool, position, changeType, tokenXAmount, tokenYAmount, lpTokenAmount, timestamp)
    {
      var change := DammLiquidityChange(pool.id + "-" + position.owner + "-" + NatToString(timestamp), pool.id, position.id,
                                        changeType, tokenXAmount, tokenYAmount, lpTokenAmount, timestamp * 1000);
      changes := changes.Save(change.id, change);
    }

    method HandleAddBalancedLiquidity(pool: DammPool, owner: string, tokenXAmount: int, tokenYAmount: int,
                                      lpTokenAmount: int, timestamp: nat)
      modifies this
      ensures State() == AdjustAndRecord(old(State()), pool, owner, Add, tokenXAmount, tokenYAmount, lpTokenAmount, lpTokenAmount, timestamp)
    {
      var position := GetOrCreatePosition(pool, owner, timestamp);
      position := UpdatePosition(position, position.lpTokenAmount + lpTokenAmount, timestamp);
      RecordLiquidityChange(pool, position, Add, tokenXAmount, tokenYAmount, lpTokenAmount, timestamp);
    }

    method HandleRemoveBalancedLiquidity(pool: DammPool, owner: string, tokenXAmount: int, tokenYAmount: int,
                                         lpTokenAmount: int, timestamp: nat)
      modifies this
      ensures State() == AdjustAndRecord(old(State()), pool, owner, Remove, tokenXAmount, tokenYAmount, -lpTokenAmount, lpTokenAmount, timestamp)
    {
      var position := GetOrCreatePosition(pool, owner, timestamp);
      position := UpdatePosition(position, position.lpTokenAmount - lpTokenAmount, timestamp);
      RecordLiquidityChange(pool, position, Remove, tokenXAmount, tokenYAmount, lpTokenAmount, timestamp);
    }

    method HandleAddImbalancedLiquidity(pool: DammPool, owner: string, tokenXAmount: int, tokenYAmount: int,
                                        lpTokenAmount: int, timestamp: nat)
      modifies this
      ensures State() == AdjustAndRecord(old(State()), pool, owner, Add, tokenXAmount, tokenYAmount, lpTokenAmount, lpTokenAmount, timestamp)
    {
      var position := GetOrCreatePosition(pool, owner, timestamp);
      position := UpdatePosition(position, position.lpTokenAmount + lpTokenAmount, timestamp);
      RecordLiquidityChange(pool, position, Add, tokenXAmount, tokenYAmount, lpTokenAmount, timestamp);
    }

    /** The token amount goes on the X side exactly when `isTokenX`; the other side is 0. */
    method HandleRemoveSingleSideLiquidity(pool: DammPool, owner: string, tokenAmount: int, lpTokenAmount: int,
                                           isTokenX: bool, timestamp: nat)
      modifies this
      ensures State() == AdjustAndRecord(old(State()), pool, owner, SingleSide,
                                         if isTokenX then tokenAmount else 0, if isTokenX then 0 else tokenAmount,
                                         -lpTokenAmount, lpTokenAmount, timestamp)
    {
      var position := GetOrCreatePosition(pool, owner, timestamp);
      position := UpdatePosition(position, position.lpTokenAmount - lpTokenAmount, timestamp);
      RecordLiquidityChange(pool, position, SingleSide,
                            if isTokenX then tokenAmount else 0, if isTokenX then 0 else tokenAmount,
                            lpTokenAmount, timestamp);
    }

    method HandleBootstrapLiquidity(pool: DammPool, owner: string, tokenXAmount: int, tokenYAmount: int,
                                    lpTokenAmount: int, timestamp: nat)
      modifies this
      ensures State() == AdjustAndRecord(old(State()), pool, owner, Bootstrap, tokenXAmount, tokenYAmount, lpTokenAmount, lpTokenAmount, timestamp)
    {
      var position := GetOrCreatePosition(pool, owner, timestamp);
      position := UpdatePosition(position, position.lpTokenAmount + lpTokenAmount, timestamp);
      RecordLiquidityChange(pool, position, Bootstrap, tokenXAmount, tokenYAmount, lpTokenAmount, timestamp);
    }
  }
}
