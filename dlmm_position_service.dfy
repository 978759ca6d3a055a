/**
 * src/dlmm/position.service.ts: DLMM positions in the 'DLMMPosition' entity
 * store, keyed by `${positionAddress}-${owner}`.
 *
 * The optional timestamp is JavaScript-truthy only when given and non-zero;
 * without it the source reads the wall clock, which is the parameter `now`
 * (milliseconds) here.
 */
module DlmmPositionService {
  import opened Wrappers
  import opened Entities
  import opened Store
  import opened Utils

  predicate PositionsKeyed(entries: map<string, DlmmPosition>) {
    forall k :: k in entries ==> entries[k].id == k
  }

  /** `if (timestamp)`: a given, non-zero time. */
  predicate HasTime(timestamp: Option<nat>) {
    timestamp.Some? && timestamp.value != 0
  }

  /** `timestamp ? new Date(timestamp * 1000) : new Date()`. */
  function CreationTime(timestamp: Option<nat>, now: int): int {
    if HasTime(timestamp) then timestamp.value * 1000 else now
  }

  function NewPosition(positionAddress: string, pool: DlmmPool, owner: string, lowerBinId: int, upperBinId: int,
                       operator: Option<string>, feeOwner: Option<string>, lockReleasePoint: Option<int>,
                       createdAt: int): DlmmPosition
  {
    DlmmPosition(CreatePositionId(positionAddress, owner), pool.id, owner, operator, lowerBinId, upperBinId,
                 0, 0, 0, feeOwner, lockReleasePoint, createdAt, createdAt)
  }

  /** `getOrCreatePosition`: the cached position under `${positionAddress}-${owner}`, else a new empty one. */
  function GetOrCreatePositionIn(positions: StoreState<DlmmPosition>, positionAddress: string, pool: DlmmPool,
                                 owner: string, lowerBinId: int, upperBinId: int, operator: Option<string>,
                                 feeOwner: Option<string>, lockReleasePoint: Option<int>, timestamp: Option<nat>,
                                 now: int): (StoreState<DlmmPosition>, DlmmPosition)
  {
    match positions.Find(CreatePositionId(positionAddress, owner))
    case Some(p) => (positions, p)
    case None =>
      var p := NewPosition(positionAddress, pool, owner, lowerBinId, upperBinId, operator, feeOwner, lockReleasePoint,
                           CreationTime(timestamp, now));
      (positions.Save(p.id, p), p)
  }

  /**
   * The id is the address and owner joined by '-'; an existing position is
   * returned unchanged whatever the bin range and other arguments; a new one
   * holds no liquidity and no tokens and was created when it was last
   * updated.
   */
  lemma GetOrCreatePositionSpec(positions: StoreState<DlmmPosition>, positionAddress: string, pool: DlmmPool,
                                owner: string, lowerBinId: int, upperBinId: int, operator: Option<string>,
                                feeOwner: Option<string>, lockReleasePoint: Option<int>, timestamp: Option<nat>, now: int)
    requires !positions.isEvent && PositionsKeyed(positions.entries)
    ensures var (after, p) := GetOrCreatePositionIn(positions, positionAddress, pool, owner, lowerBinId, upperBinId,
                                                    operator, feeOwner, lockReleasePoint, timestamp, now);
      && p.id == CreatePositionId(positionAddress, owner)
      && after.Find(p.id) == Some(p)
      && (p.id in positions.entries ==> after == positions && p == positions.entries[p.id])
      && (p.id !in positions.entries ==>
            p.liquidity == 0 && p.tokenXAmount == 0 && p.tokenYAmount == 0
            && p.createdAt == p.updatedAt == CreationTime(timestamp, now)
            && p.owner == owner && p.pool == pool.id && p.lowerBinId == lowerBinId && p.upperBinId == upperBinId)
  {
  }

  /** `updatePosition`: new liquidity and amounts; the operator only if given, the update time only if truthy. */
  function WithHoldings(position: DlmmPosition, liquidity: int, tokenXAmount: int, tokenYAmount: int,
                        operator: Option<string>, timestamp: Option<nat>): DlmmPosition
  {
    position.(liquidity := liquidity, tokenXAmount := tokenXAmount, tokenYAmount := tokenYAmount,
              operator := if operator.Some? then operator else position.operator,
              updatedAt := if HasTime(timestamp) then timestamp.value * 1000 else position.updatedAt)
  }

  /** `updatePosition` on the store: the updated position written back under its id. */
  function UpdatePositionIn(positions: StoreState<DlmmPosition>, position: DlmmPosition, liquidity: int,
                            tokenXAmount: int, tokenYAmount: int, operator: Option<string>, timestamp: Option<nat>)
    : StoreState<DlmmPosition>
  {
    positions.Save(position.id, WithHoldings(position, liquidity, tokenXAmount, tokenYAmount, operator, timestamp))
  }

  /**
   * The holdings are overwritten; the operator changes only when one is
   * passed and the update time only when a non-zero time is; identity,
   * bins and creation time never change.
   */
  lemma UpdatePositionSpec(positions: StoreState<DlmmPosition>, position: DlmmPosition, liquidity: int,
                           tokenXAmount: int, tokenYAmount: int, operator: Option<string>, timestamp: Option<nat>)
    requires !positions.isEvent
    ensures var after := UpdatePositionIn(positions, position, liquidity, tokenXAmount, tokenYAmount, operator, timestamp);
      && after.Find(position.id).Some?
      && var p := after.Find(position.id).value;
      && p.liquidity == liquidity && p.tokenXAmount == tokenXAmount && p.tokenYAmount == tokenYAmount
      && (operator.Some? ==> p.operator == operator) && (operator.None? ==> p.operator == position.operator)
      && (HasTime(timestamp) ==> p.updatedAt == timestamp.value * 1000)
      && (!HasTime(timestamp) ==> p.updatedAt == position.updatedAt)
      && p.id == position.id && p.pool == position.pool && p.owner == position.owner
      && p.lowerBinId == position.lowerBinId && p.upperBinId == position.upperBinId
      && p.createdAt == position.createdAt
  {
  }

  /**
   * `getPosition` looks up exactly the key it is given: a position created
   * for an address and owner is found under the joined key, never under the
   * bare address.
   */
  lemma BareAddressMissesPosition(positionAddress: string, pool: DlmmPool, owner: string, lowerBinId: int,
                                  upperBinId: int, operator: Option<string>, feeOwner: Option<string>,
                                  lockReleasePoint: Option<int>, timestamp: Option<nat>, now: int)
    ensures var (after, p) := GetOrCreatePositionIn(Empty(false), positionAddress, pool, owner, lowerBinId, upperBinId,
                                                    operator, feeOwner, lockReleasePoint, timestamp, now);
      && after.Find(CreatePositionId(positionAddress, owner)) == Some(p)
      && after.Find(positionAddress) == None
  {
    assert |CreatePositionId(positionAddress, owner)| > |positionAddress|;
  }

  class PositionService {
    var positions: StoreState<DlmmPosition>

    ghost predicate Valid()
      reads this
    {
      positions.Valid() && !positions.isEvent && PositionsKeyed(positions.entries)
    }

    constructor()
      ensures Valid() && positions == Empty(false)
    {
      positions := Empty(false);
    }

    /** `now` stands for the wall-clock time the source reads when no timestamp is given. */
    method GetOrCreatePosition(positionAddress: string, pool: DlmmPool, owner: string, lowerBinId: int, upperBinId: int,
                               operator: Option<string>, feeOwner: Option<string>, lockReleasePoint: Option<int>,
                               timestamp: Option<nat>, now: int) returns (position: DlmmPosition)
      requires Valid()
      modifies this
      ensures Valid()
      ensures (positions, position) == GetOrCreatePositionIn(old(positions), positionAddress, pool, owner, lowerBinId,
                                                             upperBinId, operator, feeOwner, lockReleasePoint, timestamp, now)
    {
      var positionId := positionAddress + "-" + owner;
      var existing := positions.Find(positionId);
      if existing.Some? {
        return existing.value;
      }
      var currentDate := if timestamp.Some? && timestamp.value != 0 then timestamp.value * 1000 else now;
      position := DlmmPosition(positionId, pool.id, owner, operator, lowerBinId, upperBinId, 0, 0, 0, feeOwner,
                               lockReleasePoint, currentDate, currentDate);
      positions := positions.Save(position.id, position);
    }

    /** Writes the updated position back under its id (`positionStore.update`, an upsert on an entity store). */
    method UpdatePosition(position: DlmmPosition, liquidity: int, tokenXAmount: int, tokenYAmount: int,
                          operator: Option<string>, timestamp: Option<nat>)
      requires Valid()
      modifies this
      ensures Valid()
      ensures positions == UpdatePositionIn(old(positions), position, liquidity, tokenXAmount, tokenYAmount, operator, timestamp)
    {
      var updated := position.(liquidity := liquidity, tokenXAmount := tokenXAmount, tokenYAmount := tokenYAmount);
      if operator.Some? {
        updated := updated.(operator := operator);
      }
      if timestamp.Some? && timestamp.value != 0 {
        updated := updated.(updatedAt := timestamp.value * 1000);
      }
      positions := positions.Save(position.id, updated);
    }

    /** `getPosition`: a lookup of exactly `positionId`. */
    method GetPosition(positionId: string) returns (position: Option<DlmmPosition>)
      ensures position.Some? <==> positionId in positions.entries
      ensures position.Some? ==> position.value == positions.entries[positionId]
    {
      position := positions.Find(positionId);
    }
  }
}
