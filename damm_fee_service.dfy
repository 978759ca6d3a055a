/** src/damm/fee.service.ts: one fee record per (pool, transaction) in the 'DAMMFee' entity store. */
module DammFeeService {
  import opened Wrappers
  import opened Entities
  import opened Store

  /** `${pool.id}:${transactionId}`. */
  function FeeId(poolId: string, transactionId: string): string {
    poolId + ":" + transactionId
  }

  function FeeRecord(transactionId: string, pool: DammPool, owner: string, tokenXAmount: int, tokenYAmount: int, timestamp: nat): DammFee {
    DammFee(FeeId(pool.id, transactionId), pool.id, owner, tokenXAmount, tokenYAmount, timestamp * 1000)
  }

  /**
   * The fee is stored as passed, under the pool/transaction key; a second fee
   * of the same pool and transaction replaces the first rather than adding one.
   */
  lemma CreateFeeReplacesSameKey(fees: StoreState<DammFee>, transactionId: string, pool: DammPool,
                                 owner: string, x: int, y: int, owner2: string, x2: int, y2: int, timestamp: nat)
    requires fees.Valid() && !fees.isEvent
    ensures var f1 := FeeRecord(transactionId, pool, owner, x, y, timestamp);
      var f2 := FeeRecord(transactionId, pool, owner2, x2, y2, timestamp);
      var once := fees.Save(f1.id, f1);
      var twice := once.Save(f2.id, f2);
      && once.Find(FeeId(pool.id, transactionId)) == Some(f1)
      && f1.tokenXAmount == x && f1.tokenYAmount == y && f1.timestamp == timestamp * 1000
      && twice.Find(FeeId(pool.id, transactionId)) == Some(f2)
      && |twice.All()| == |once.All()|
  {
    var f1 := FeeRecord(transactionId, pool, owner, x, y, timestamp);
    var once := fees.Save(f1.id, f1);
    SaveKeepsValid(fees, f1.id, f1);
    SaveUpserts(once, f1.id, FeeRecord(transactionId, pool, owner2, x2, y2, timestamp));
  }

  class FeeService {
    var fees: StoreState<DammFee>

    ghost predicate Valid()
      reads this
    {
      fees.Valid() && !fees.isEvent
    }

    constructor()
      ensures Valid() && fees == Empty(false)
    {
      fees := Empty(false);
    }

    method CreateFee(transactionId: string, pool: DammPool, owner: string, tokenXAmount: int, tokenYAmount: int, timestamp: nat)
      requires Valid()
      modifies this
      ensures Valid()
      ensures var f := FeeRecord(transactionId, pool, owner, tokenXAmount, tokenYAmount, timestamp);
        fees == old(fees).Save(f.id, f)
    {
      var fee := DammFee(pool.id + ":" + transactionId, pool.id, owner, tokenXAmount, tokenYAmount, timestamp * 1000);
      fees := fees.Save(fee.id, fee);
    }
  }
}
