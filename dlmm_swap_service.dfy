/**
 * src/dlmm/swap.service.ts: numbers the swaps of each transaction and
 * appends each swap to the 'DLMMSwap' event store.
 */
module DlmmSwapService {
  import opened Wrappers
  import opened Entities
  import opened Store
  import opened Utils
  import SwapIndex

  /** The swap `createSwap` builds for the `index`-th swap of `txId`; no price impact is recorded. */
  function SwapRecord(txId: string, index: nat, pool: DlmmPool, userAddress: string, tokenInMint: string,
                      tokenOutMint: string, inAmount: int, outAmount: int, timestamp: nat): DlmmSwap
  {
    DlmmSwap(CreateSwapId(txId, index), pool.id, userAddress, tokenInMint, tokenOutMint, inAmount, outAmount, None,
             timestamp * 1000)
  }

  /** `createSwap` on the store and counters: the store after it, the counters after it and the swap. */
  function CreateSwapIn(swaps: StoreState<DlmmSwap>, counters: map<string, nat>, txId: string, pool: DlmmPool,
                        userAddress: string, tokenInMint: string, tokenOutMint: string,
                        inAmount: int, outAmount: int, timestamp: nat): (StoreState<DlmmSwap>, map<string, nat>, DlmmSwap)
  {
    var swap := SwapRecord(txId, SwapIndex.Current(counters, txId), pool, userAddress, tokenInMint, tokenOutMint,
                           inAmount, outAmount, timestamp);
    (swaps.Save(swap.id, swap), SwapIndex.Advance(counters, txId), swap)
  }

  /**
   * Each swap is appended, never replacing an earlier one; its id reads back
   * to the transaction and the index it was given (0 for the first swap of a
   * transaction); the token addresses and amounts are the arguments; only
   * this transaction's counter moves, by one.
   */
  lemma CreateSwapAppends(swaps: StoreState<DlmmSwap>, counters: map<string, nat>, txId: string, pool: DlmmPool,
                          userAddress: string, tokenInMint: string, tokenOutMint: string,
                          inAmount: int, outAmount: int, timestamp: nat)
    requires swaps.Valid() && swaps.isEvent
    ensures var (swaps', counters', swap) := CreateSwapIn(swaps, counters, txId, pool, userAddress, tokenInMint,
                                                           tokenOutMint, inAmount, outAmount, timestamp);
      && swaps'.Valid() && swaps'.All() == swaps.All() + [swap]
      && ParseIndexedId(swap.id) == Some((txId, SwapIndex.Current(counters, txId)))
      && (txId !in counters ==> ParseIndexedId(swap.id) == Some((txId, 0)))
      && swap.pool == pool.id && swap.userAddress == userAddress
      && swap.tokenInAddress == tokenInMint && swap.tokenOutAddress == tokenOutMint
      && swap.amountIn == inAmount && swap.amountOut == outAmount && swap.timestamp == timestamp * 1000
      && SwapIndex.Current(counters', txId) == SwapIndex.Current(counters, txId) + 1
      && (forall other :: other != txId ==> SwapIndex.Current(counters', other) == SwapIndex.Current(counters, other))
  {
    SwapIdRoundTrip(txId, SwapIndex.Current(counters, txId));
  }

  class SwapService {
    var swaps: StoreState<DlmmSwap>
    var swapIndices: map<string, nat>

    ghost predicate Valid()
      reads this
    {
      swaps.Valid() && swaps.isEvent
    }

    constructor()
      ensures Valid() && swaps == Empty(true) && swapIndices == map[]
    {
      swaps := Empty(true);
      swapIndices := map[];
    }

    /** `swapIndices.get(txId) || 0`, then that counter is set one higher. */
    method GetNextSwapIndex(txId: string) returns (index: nat)
      modifies this
      ensures index == SwapIndex.Current(old(swapIndices), txId)
      ensures swapIndices == SwapIndex.Advance(old(swapIndices), txId) && swaps == old(swaps)
    {
      index := if txId in swapIndices then swapIndices[txId] else 0;
      swapIndices := swapIndices[txId := index + 1];
    }

    method CreateSwap(txId: string, pool: DlmmPool, userAddress: string, tokenInMint: string, tokenOutMint: string,
                      inAmount: int, outAmount: int, timestamp: nat) returns (swap: DlmmSwap)
      requires Valid()
      modifies this
      ensures Valid()
      ensures (swaps, swapIndices, swap) == CreateSwapIn(old(swaps), old(swapIndices), txId, pool, userAddress,
                                                         tokenInMint, tokenOutMint, inAmount, outAmount, timestamp)
    {
      var swapIndex := GetNextSwapIndex(txId);
      swap := DlmmSwap(CreateSwapId(txId, swapIndex), pool.id, userAddress, tokenInMint, tokenOutMint,
                       inAmount, outAmount, None, timestamp * 1000);
      swaps := swaps.Save(swap.id, swap);
    }

    method GetAllSwaps() returns (all: seq<DlmmSwap>)
      requires Valid()
      ensures all == swaps.events
    {
      all := swaps.All();
    }
  }
}
