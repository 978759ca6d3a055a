/**
 * The per-transaction swap counter both swap services keep
 * (`getNextSwapIndex` in src/damm/swap.service.ts and
 * src/dlmm/swap.service.ts): `swapIndices.get(tx) || 0` is handed out and the
 * counter of that transaction is set one higher.
 */
module SwapIndex {

  /** The index the next swap of `txId` receives. */
  function Current(counters: map<string, nat>, txId: string): nat {
    if txId in counters then counters[txId] else 0
  }

  /** The counters after one swap of `txId` was numbered. */
  function Advance(counters: map<string, nat>, txId: string): (after: map<string, nat>)
    ensures Current(after, txId) == Current(counters, txId) + 1
    ensures forall other :: other != txId ==> Current(after, other) == Current(counters, other)
  {
    counters[txId := Current(counters, txId) + 1]
  }

  /** The indices handed out to a run of swaps, in order. */
  function IndicesFor(counters: map<string, nat>, txIds: seq<string>): (r: seq<nat>)
    ensures |r| == |txIds|
    decreases |txIds|
  {
    if |txIds| == 0 then []
    else [Current(counters, txIds[0])] + IndicesFor(Advance(counters, txIds[0]), txIds[1..])
  }

  /** The counters after a run of swaps. */
  function AdvanceAll(counters: map<string, nat>, txIds: seq<string>): map<string, nat>
    decreases |txIds|
  {
    if |txIds| == 0 then counters else AdvanceAll(Advance(counters, txIds[0]), txIds[1..])
  }

  function Occurrences(txIds: seq<string>, txId: string): nat
    decreases |txIds|
  {
    if |txIds| == 0 then 0 else (if txIds[0] == txId then 1 else 0) + Occurrences(txIds[1..], txId)
  }

  /** Swaps of one transaction are numbered on from its counter: 0, 1, 2, … for a new one. */
  lemma {:induction false} ConsecutiveWithinTransaction(counters: map<string, nat>, txIds: seq<string>, txId: string)
    requires forall i :: 0 <= i < |txIds| ==> txIds[i] == txId
    ensures forall k :: 0 <= k < |txIds| ==> IndicesFor(counters, txIds)[k] == Current(counters, txId) + k
    decreases |txIds|
  {
    if |txIds| > 0 {
      var after := Advance(counters, txId);
      ConsecutiveWithinTransaction(after, txIds[1..], txId);
      forall k | 0 < k < |txIds|
        ensures IndicesFor(counters, txIds)[k] == Current(counters, txId) + k
      {
        assert IndicesFor(counters, txIds)[k] == IndicesFor(after, txIds[1..])[k - 1];
      }
    }
  }

  /** A counter moves only with its own transaction's swaps, by one per swap. */
  lemma {:induction false} CounterCountsOwnSwaps(counters: map<string, nat>, txIds: seq<string>, txId: string)
    ensures Current(AdvanceAll(counters, txIds), txId) == Current(counters, txId) + Occurrences(txIds, txId)
    decreases |txIds|
  {
    if |txIds| > 0 {
      CounterCountsOwnSwaps(Advance(counters, txIds[0]), txIds[1..], txId);
    }
  }

  /** No two swaps of one transaction receive the same index, whatever is interleaved. */
  lemma {:induction false} IndicesDistinctWithinTransaction(counters: map<string, nat>, txIds: seq<string>, i: nat, j: nat)
    requires i < j < |txIds| && txIds[i] == txIds[j]
    ensures IndicesFor(counters, txIds)[i] < IndicesFor(counters, txIds)[j]
    decreases |txIds|
  {
    if i == 0 {
      IndexIsAtLeastCurrent(Advance(counters, txIds[0]), txIds[1..], j - 1, txIds[0]);
    } else {
      IndicesDistinctWithinTransaction(Advance(counters, txIds[0]), txIds[1..], i - 1, j - 1);
    }
  }

  lemma {:induction false} IndexIsAtLeastCurrent(counters: map<string, nat>, txIds: seq<string>, k: nat, txId: string)
    requires k < |txIds| && txIds[k] == txId
    ensures IndicesFor(counters, txIds)[k] >= Current(counters, txId)
    decreases |txIds|
  {
    if k > 0 {
      IndexIsAtLeastCurrent(Advance(counters, txIds[0]), txIds[1..], k - 1, txId);
    }
  }
}
