/**
 * src/damm/swap.service.ts: numbers the swaps of each transaction and
 * appends each swap to the 'DAMMSwap' event store.
 */
module DammSwapService {
  import opened Wrappers
  import opened Entities
  import opened Store
  import opened Utils
  import SwapIndex

  /** The swap `createSwap` builds for the `index`-th swap of `txId` (timestamps in milliseconds). */
  function SwapRecord(txId: string, index: nat, pool: DammPool, userAddress: string, tokenInMint: string,
                      tokenOutMint: string, amountIn: int, amountOut: int, timestamp: nat): DammSwap
  {
    DammSwap(CreateSwapId(txId, index), pool.id, userAddress, tokenInMint, tokenOutMint, amountIn, amountOut, timestamp * 1000)
  }

  /** `createSwap` on the store and counters: the swap, the store after it and the counters after it. */
  function CreateSwapIn(swaps: StoreState<DammSwap>, counters: map<string, nat>, txId: string, pool: DammPool,
                        userAddress: string, tokenInMint: string, tokenOutMint: string,
                        amountIn: int, amountOut: int, timestamp: nat): (StoreState<DammSwap>, map<string, nat>, DammSwap)
  {
    var swap := SwapRecord(txId, SwapIndex.Current(counters, txId), pool, userAddress, tokenInMint, tokenOutMint,
                           amountIn, amountOut, timestamp);
    (swaps.Save(swap.id, swap), SwapIndex.Advance(counters, txId), swap)
  }

  /**
   * Each swap is appended, never replacing an earlier one; its id reads back
   * to the transaction and the index it was given; it carries the mints and
   * amounts passed in; only this transaction's counter moves.
   */
  lemma CreateSwapAppends(swaps: StoreState<DammSwap>, counters: map<string, nat>, txId: string, pool: DammPool,
                          userAddress: string, tokenInMint: string, tokenOutMint: string,
                          amountIn: int, amountOut: int, timestamp: nat)
    requires swaps.Valid() && swaps.isEvent
    ensures var (swaps', counters', swap) := CreateSwapIn(swaps, counters, txId, pool, userAddress, tokenInMint,
                                                           tokenOutMint, amountIn, amountOut, timestamp);
      && swaps'.Valid() && swaps'.All() == swaps.All() + [swap]
      && ParseIndexedId(swap.id) == Some((txId, SwapIndex.Current(counters, txId)))
      && swap.pool == pool.id && swap.userAddress == userAddress
      && swap.tokenInMint == tokenInMint && swap.tokenOutMint == tokenOutMint
      && swap.amountIn == amountIn && swap.amountOut == amountOut && swap.timestamp == timestamp * 1000
      && SwapIndex.Current(counters', txId) == SwapIndex.Current(counters, txId) + 1
      && (forall other :: other != txId ==> SwapIndex.Current(counters', other) == SwapIndex.Current(counters, other))
  {
    SwapIdRoundTrip(txId, SwapIndex.Current(counters, txId));
  }

  class SwapService {
    var swaps: StoreState<DammSwap>
    var swapIndices: map<string, nat>

    ghost predicate Valid()
      reads this
    {
      swaps.Valid() && swaps.isEvent
    }

    constructor()
      ensures Valid() && swaps == Empty(true) && swapIndices == map[]
    {
      swaps := Empty(true);
      swapIndices := map[];
    }

    /** `swapIndices.get(txId) || 0`, then that counter is set one higher. */
    method GetNextSwapIndex(txId: string) returns (index: nat)
      modifies this
      ensures index == SwapIndex.Current(old(swapIndices), txId)
      ensures swapIndices == SwapIndex.Advance(old(swapIndices), txId) && swaps == old(swaps)
    {
      index := if txId in swapIndices then swapIndices[txId] else 0;
      swapIndices := swapIndices[txId := index + 1];
    }

    method CreateSwap(txId: string, pool: DammPool, userAddress: string, tokenInMint: string, tokenOutMint: string,
                      amountIn: int, amountOut: int, timestamp: nat) returns (swap: DammSwap)
      requires Valid()
      modifies this
      ensures Valid()
      ensures (swaps, swapIndices, swap) == CreateSwapIn(old(swaps), old(swapIndices), txId, pool, userAddress,
                                                         tokenInMint, tokenOutMint, amountIn, amountOut, timestamp)
    {
      var swapIndex := GetNextSwapIndex(txId);
      swap := DammSwap(CreateSwapId(txId, swapIndex), pool.id, userAddress, tokenInMint, tokenOutMint,
                       amountIn, amountOut, timestamp * 1000);
      swaps := swaps.Save(swap.id, swap);
    }
  }
}
