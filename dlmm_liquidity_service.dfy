/**
 * src/dlmm/liquidity.service.ts: one record per liquidity change in the
 * 'DLMMLiquidityChange' entity store, keyed by pool, position owner and
 * time.
 */
module DlmmLiquidityService {
  import opened Wrappers
  import opened Entities
  import opened Store
  import opened Utils

  /** `${pool.id}-${position.owner}-${timestamp}`. */
  function ChangeId(poolId: string, owner: string, timestamp: nat): string {
    poolId + "-" + owner + "-" + NatToString(timestamp)
  }

  /** The change `recordLiquidityChange` builds: amounts as passed, time in milliseconds. */
  function ChangeRecord(pool: DlmmPool, position: DlmmPosition, changeType: DlmmChangeType,
                        tokenXAmount: int, tokenYAmount: int, timestamp: nat): DlmmLiquidityChange
  {
    DlmmLiquidityChange(ChangeId(pool.id, position.owner, timestamp), pool.id, position.id, changeType,
                        tokenXAmount, tokenYAmount, timestamp * 1000)
  }

  /** `recordLiquidityChange` on the store. */
  function RecordChangeIn(changes: StoreState<DlmmLiquidityChange>, pool: DlmmPool, position: DlmmPosition,
                          changeType: DlmmChangeType, tokenXAmount: int, tokenYAmount: int, timestamp: nat)
    : StoreState<DlmmLiquidityChange>
  {
    var change := ChangeRecord(pool, position, changeType, tokenXAmount, tokenYAmount, timestamp);
    changes.Save(change.id, change)
  }

  /**
   * The change reads back under its pool/owner/time key with the amounts
   * and type passed and the time in milliseconds; the key reads back to its
   * time; a second change of the same owner in the same pool and second
   * replaces the first instead of adding a record; other keys are untouched.
   */
  lemma RecordChangeSpec(changes: StoreState<DlmmLiquidityChange>, pool: DlmmPool, position: DlmmPosition,
                         changeType: DlmmChangeType, tokenXAmount: int, tokenYAmount: int, timestamp: nat,
                         position2: DlmmPosition, changeType2: DlmmChangeType, tokenXAmount2: int, tokenYAmount2: int,
                         other: string)
    requires changes.Valid() && !changes.isEvent
    requires position2.owner == position.owner
    ensures var once := RecordChangeIn(changes, pool, position, changeType, tokenXAmount, tokenYAmount, timestamp);
      var twice := RecordChangeIn(once, pool, position2, changeType2, tokenXAmount2, tokenYAmount2, timestamp);
      var key := ChangeId(pool.id, position.owner, timestamp);
      && once.Valid() && twice.Valid()
      && once.Find(key) == Some(DlmmLiquidityChange(key, pool.id, position.id, changeType, tokenXAmount, tokenYAmount,
                                                    timestamp * 1000))
      && ParseIndexedId(key) == Some((pool.id + "-" + position.owner, timestamp))
      && (other != key ==> once.Find(other) == changes.Find(other))
      && twice.Find(key) == Some(ChangeRecord(pool, position2, changeType2, tokenXAmount2, tokenYAmount2, timestamp))
      && |twice.All()| == |once.All()|
  {
    var change := ChangeRecord(pool, position, changeType, tokenXAmount, tokenYAmount, timestamp);
    SaveKeepsValid(changes, change.id, change);
    SaveUpserts(changes.Save(change.id, change), change.id,
                ChangeRecord(pool, position2, changeType2, tokenXAmount2, tokenYAmount2, timestamp));
    IndexedIdRoundTrip(pool.id + "-" + position.owner, timestamp);
  }

  class LiquidityService {
    var changes: StoreState<DlmmLiquidityChange>

    ghost predicate Valid()
      reads this
    {
      changes.Valid() && !changes.isEvent
    }

    constructor()
      ensures Valid() && changes == Empty(false)
    {
      changes := Empty(false);
    }

    method RecordLiquidityChange(pool: DlmmPool, position: DlmmPosition, changeType: DlmmChangeType,
                                 tokenXAmount: int, tokenYAmount: int, timestamp: nat)
      requires Valid()
      modifies this
      ensures Valid()
      ensures changes == RecordChangeIn(old(changes), pool, position, changeType, tokenXAmount, tokenYAmount, timestamp)
    {
      var change := DlmmLiquidityChange(pool.id + "-" + position.owner + "-" + NatToString(timestamp), pool.id,
                                        position.id, changeType, tokenXAmount, tokenYAmount, timestamp * 1000);
      changes := changes.Save(change.id, change);
    }

    /** `getAllLiquidityChanges`: one record per key, in first-insertion order. */
    method GetAllLiquidityChanges() returns (all: seq<DlmmLiquidityChange>)
      requires Valid()
      ensures |all| == |changes.keys|
      ensures forall i :: 0 <= i < |all| ==> all[i] == changes.entries[changes.keys[i]]
    {
      all := changes.All();
    }
  }
}
