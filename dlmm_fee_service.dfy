/**
 * src/dlmm/fee.service.ts: fee claims in the 'DlmmFee' entity store, keyed
 * by transaction, direction and position.  The timestamp column is a plain
 * number holding the block time in seconds, as passed.
 */
module DlmmFeeService {
  import opened Wrappers
  import opened Entities
  import opened Store

  /** The `type` column as written into the id. */
  function DirectionName(direction: FeeDirection): string {
    match direction
    case In => "in"
    case Out => "out"
  }

  /** `${txId}-${type}-${position}`. */
  function FeeClaimId(txId: string, direction: FeeDirection, position: string): string {
    txId + "-" + DirectionName(direction) + "-" + position
  }

  function FeeClaimRecord(txId: string, pool: DlmmPool, position: string, user: string, amountX: int, amountY: int,
                          timestamp: int, direction: FeeDirection): DlmmFee
  {
    DlmmFee(FeeClaimId(txId, direction, position), pool.id, position, user, amountX, amountY, direction, timestamp)
  }

  /** `createFeeClaim` on the store. */
  function CreateFeeClaimIn(fees: StoreState<DlmmFee>, txId: string, pool: DlmmPool, position: string, user: string,
                            amountX: int, amountY: int, timestamp: int, direction: FeeDirection): StoreState<DlmmFee>
  {
    var fee := FeeClaimRecord(txId, pool, position, user, amountX, amountY, timestamp, direction);
    fees.Save(fee.id, fee)
  }

  /** An 'in' and an 'out' claim of one transaction and position never share a key. */
  lemma DirectionsKeptApart(txId: string, position: string)
    ensures FeeClaimId(txId, In, position) != FeeClaimId(txId, Out, position)
  {
    assert FeeClaimId(txId, In, position)[|txId| + 1] == 'i';
    assert FeeClaimId(txId, Out, position)[|txId| + 1] == 'o';
  }

  /**
   * The claim is stored as passed, with the raw timestamp, under its key;
   * a second claim with the same transaction, direction and position (the
   * X and the Y claim of one direction, say) replaces the first.
   */
  lemma CreateFeeClaimSpec(fees: StoreState<DlmmFee>, txId: string, pool: DlmmPool, position: string, user: string,
                           amountX: int, amountY: int, timestamp: int, direction: FeeDirection,
                           amountX2: int, amountY2: int)
    requires fees.Valid() && !fees.isEvent
    ensures var once := CreateFeeClaimIn(fees, txId, pool, position, user, amountX, amountY, timestamp, direction);
      var twice := CreateFeeClaimIn(once, txId, pool, position, user, amountX2, amountY2, timestamp, direction);
      var key := FeeClaimId(txId, direction, position);
      && once.Find(key) == Some(DlmmFee(key, pool.id, position, user, amountX, amountY, direction, timestamp))
      && twice.Find(key).Some? && twice.Find(key).value.amountX == amountX2 && twice.Find(key).value.amountY == amountY2
      && |twice.All()| == |once.All()|
  {
    var fee := FeeClaimRecord(txId, pool, position, user, amountX, amountY, timestamp, direction);
    SaveKeepsValid(fees, fee.id, fee);
    SaveUpserts(fees.Save(fee.id, fee), fee.id,
                FeeClaimRecord(txId, pool, position, user, amountX2, amountY2, timestamp, direction));
  }

  class FeeService {
    var fees: StoreState<DlmmFee>

    ghost predicate Valid()
      reads this
    {
      fees.Valid() && !fees.isEvent
    }

    constructor()
      ensures Valid() && fees == Empty(false)
    {
      fees := Empty(false);
    }

    method CreateFeeClaim(txId: string, pool: DlmmPool, position: string, user: string, amountX: int, amountY: int,
                          timestamp: int, direction: FeeDirection) returns (fee: DlmmFee)
      requires Valid()
      modifies this
      ensures Valid()
      ensures fee == FeeClaimRecord(txId, pool, position, user, amountX, amountY, timestamp, direction)
      ensures fees == CreateFeeClaimIn(old(fees), txId, pool, position, user, amountX, amountY, timestamp, direction)
    {
      var typeName := if direction.In? then "in" else "out";
      fee := DlmmFee(txId + "-" + typeName + "-" + position, pool.id, position, user, amountX, amountY, direction, timestamp);
      fees := fees.Save(fee.id, fee);
    }
  }
}
