# Meteora DAMM / DLMM event reconstruction in Dafny

This project models the core of the two Meteora pool indexers. One indexer
serves the dynamic AMM (DAMM) and the other the liquidity-book pools (DLMM).
For each program instruction that touches a pool, the indexer does four things:

- it reads the instruction's inner token transfers;
- it sums what went into and out of the pool's two reserve vaults, giving the
  signed net flows `netX` and `netY`;
- a sign rule decides whether the instruction is a swap, an add, a remove, a
  bootstrap or a fee claim, or whether it is dropped;
- the result is written into an in-batch cache of entities: base pools, DAMM
  and DLMM pools, positions, liquidity changes, swaps, fees and rewards.

The DAMM processor also holds a lock service, but no handler writes locks.
`DammLockService` models that service on its own, and the DAMM cache state
has no lock store.

The model has four layers, following the program:

- **Cache** (`memory_store.dfy`).
  - `Store.StoreState` defines the semantics once. Entity stores are a map
    with insertion-ordered keys and upsert on save. Event stores are an
    append-only sequence, and update on them fails.
  - `Store.MemoryStore` is the mutable class proved against that state.
  - `Store.StoreManager` hands out one store per name.
- **Services** (`damm_*_service.dfy`, `dlmm_*_service.dfy`).
  - Each service is a class whose store fields are `StoreState` values.
  - Each method is proved equal to a pure `...In` function.
  - Lemmas state what the source promises: get-or-create returns an existing
    entity unchanged whatever the new arguments, updates touch only the named
    fields, ids are built deterministically, and the per-transaction swap
    counter numbers swaps 0, 1, 2, …
- **Utilities** (`utils.dfy`, `transfers.dfy`, `netflow.dfy`, `swap_index.dfy`).
  - The id builders, with parse-back round trips that show distinct inputs
    give distinct ids.
  - The account lookup.
  - The three transfer extractors, as loops proved against filter-and-decode
    functions.
  - The net-flow accumulation loop, the two swap-direction rules, the
    liquidity sign guards, and the initial-reserve scan.
- **Processors** (`damm_processor.dfy`, `dlmm_processor.dfy`).
  - Each processor is a class holding its whole cache state in one field.
  - Every handler method ensures `state == XStep(old(state), …)`, where
    `XStep` is a pure function that follows the handler branch by branch.
  - The `*_props.dfy` modules prove what each handler does: when it is a
    no-op, which entity is written with which fields, and that nothing else
    changes. They also prove that every instruction keeps the cache
    well-formed.

Conventions:

- A missing account or `undefined` is the empty string, and `Present(a)` is
  `a != ""`.
- Timestamps are integer seconds. The entities store `timestamp * 1000`
  (milliseconds), except DLMM fee claims, which store the raw value, as
  `src/dlmm/fee.service.ts:30` does.
- The borsh decoders and the discriminator table are abstract functions that
  return `Option`. The discriminator table maps to a closed enum of kinds.
- The durable database behind the DAMM pool lookups is a read-only map.

Behaviour of the code as written that the lemmas make explicit:

- **DLMM swap direction is the mirror of DAMM's.**
  - DAMM reads `netX > 0, netY < 0` as "X in" (`src/damm/processor.ts:236-251`).
  - DLMM reads `netX < 0, netY > 0` as "X in" (`src/dlmm/processor.ts:259-274`).
  - `NetFlow.DlmmSwapLegMirrorsDamm` and `NetFlow.DlmmSwapLegReversesFlows`
    state the relation.
  - Reserves still move by `+netX`, `+netY` in both.
- **DLMM add and remove look up the position under the bare position
  address** (`src/dlmm/processor.ts:371-374`).
  - Positions are only ever stored under `address-owner`
    (`src/dlmm/position.service.ts:23`).
  - The processor never creates positions, so in a batch that starts empty no
    liquidity change is ever recorded (`DlmmProcessorProps.FreshBatchRecordsNoLiquidityChanges`).
- **The DLMM liquidity guards reject only when both sides have the wrong
  sign.** The DAMM balanced guards reject when either side does
  (`NetFlow.DammGuardsStricter`).
- **The DAMM position LP amount is overwritten, not accumulated.**
  - The processor writes the instruction's amount, which is negative for
    removes (`DammProcessorProps.LiquiditySpec`).
  - The liquidity service's `handle*Liquidity` helpers accumulate instead
    (`DammLiquidityService.AdjustAndRecordSpec`).
- **DLMM fee claims in one direction share one id** (`txId-out-position`).
  When both an X and a Y claim exist, only the Y claim survives
  (`DlmmProcessorProps.ClaimFeeSpec`, through `LastClaim`).
- **A DLMM reward claim creates reward index 0 twice** (`src/dlmm/processor.ts:560-614`).
  The second write, with the received amount, wins
  (`DlmmProcessorProps.ClaimRewardSpec`).

## Model

| member | source | states |
|---|---|---|
| Store.Empty | src/store/memory.store.ts:5-6 | a fresh store is well formed: no entries, no keys, no events |
| Store.SaveKeepsValid | src/store/memory.store.ts:17-25 | save keeps the map and key order in step (each key once, every key stored) |
| Store.FindAfterSave | src/store/memory.store.ts:13-24 | on an entity store, find after save returns the saved item; other ids are unaffected |
| Store.SaveUpserts | src/store/memory.store.ts:22-23 | an entity save appends a new id at the end of the listing or replaces the existing id in place; the count grows only for a new id |
| Store.EventSaveAppends | src/store/memory.store.ts:18-20 | an event save always appends, even for a repeated id, and find on an event store finds nothing |
| Store.UpdateRefusedOnEvents | src/store/memory.store.ts:27-31 | update fails exactly on event stores; otherwise the item is then found under its id |
| Store.MemoryStore.constructor | src/store/memory.store.ts:8-11 | a new store is empty, of the requested kind |
| Store.MemoryStore.Find | src/store/memory.store.ts:13-15 | returns the entry stored under the id; always nothing on an event store |
| Store.MemoryStore.Save | src/store/memory.store.ts:17-25 | appends on an event store, upserts under `item.id` otherwise, keeping the store well formed |
| Store.MemoryStore.Update | src/store/memory.store.ts:27-33 | fails, changing nothing, exactly on an event store; otherwise writes the item under its id |
| Store.MemoryStore.GetAll | src/store/memory.store.ts:35-39 | the events in insertion order, or the entity values in first-insertion order |
| Store.MemoryStore.GetAllValues | src/store/memory.store.ts:41-47 | the same listing as `GetAll` |
| Store.MemoryStore.ValuesInOrder | src/store/memory.store.ts:38 | the loop that collects the entity values in key order yields exactly the listing |
| Store.StoreManager.GetStore | src/store/memory.store.ts:71-81 | the first call for a name creates an empty store of the requested kind; later calls return the same instance and ignore the kind |
| Store.StoreManager.GetAllStores | src/store/memory.store.ts:83-85 | returns the registry of stores by name |
| Utils.NatToString | src/utils.ts:16 | the decimal rendering of an index is a non-empty digit string without a leading zero |
| Utils.ParseNatToString | src/utils.ts:16 | parsing the decimal rendering gives the number back |
| Utils.NatToStringInjective | src/utils.ts:16 | distinct numbers render differently |
| Utils.SplitJoin | src/utils.ts:20 | splitting `a-b` at the last dash gives back `a` and `b` when `b` has no dash |
| Utils.IndexedIdRoundTrip | src/utils.ts:15-17 | an id `prefix-n` parses back to the prefix and the number |
| Utils.SwapIdRoundTrip | src/utils.ts:15-17 | a swap id parses back to its transaction id and index |
| Utils.FeeIdRoundTrip | src/utils.ts:23-25 | a fee id parses back to its transaction id and log index |
| Utils.RewardIdRoundTrip | src/utils.ts:35-37 | a reward id parses back to its pool id and reward index |
| Utils.PositionIdRoundTrip | src/utils.ts:19-21 | a position id splits back into pool and owner when the owner has no dash |
| Utils.LockIdRoundTrip | src/utils.ts:27-29 | a lock id splits back into pool and owner when the owner has no dash |
| Utils.SwapIdsDistinct | src/utils.ts:15-17 | two swaps differing in transaction or index get different ids |
| Utils.PositionIdsDistinct | src/utils.ts:19-21 | dash-free owners in different pools, or different dash-free owners, get different position ids |
| Utils.PositionIdCollidesWithDashedOwner | src/utils.ts:19-21 | without that condition two different (pool, owner) pairs can share a position id |
| Utils.GetAccountByIndex | src/utils.ts:89-94 | fails exactly when the index is past the end; otherwise returns the account at the index |
| Utils.ToLower | src/utils.ts:216 | lower-cases each ASCII capital and keeps the length and every other character |
| Utils.ProgramMatchIgnoresCase | src/utils.ts:215-217 | the program filter compares case-insensitively on both sides |
| Utils.TokenAndSystemProgramsDiffer | src/utils.ts:216 | the token-program filter and the system-program filter select disjoint programs |
| Utils.UpdateBasePool | src/utils.ts:64-75 | overwrites reserves, total liquidity and updatedAt; id, tokens, vaults, status and createdAt are kept |
| Transfers.ProgramInstructions | src/utils.ts:215-217 | keeps only inner instructions of the given program, compared case-insensitively |
| Transfers.DecodedTransfers | src/utils.ts:219-242 | every kept transfer has a source and a destination and no mint |
| Transfers.DecodedCheckedTransfers | src/utils.ts:265-294 | every kept checked transfer has a source, a destination and a mint |
| Transfers.DecodedCreateAccounts | src/utils.ts:312-327 | every kept account creation has a source and a new account |
| Transfers.FilterProgram | src/utils.ts:215-217 | the filtering loop selects exactly the instructions of the program, in order |
| Transfers.DecodeTokenTransfers | src/utils.ts:203-245 | the loop returns the decodable token-program transfers that have both ends, in inner-instruction order |
| Transfers.DecodeTokenTransfersChecked | src/utils.ts:247-297 | the same for checked transfers, which must also name a mint |
| Transfers.DecodeSystemCreateAccounts | src/utils.ts:299-330 | the loop returns the system-program account creations that have a source and a new account, in order |
| Transfers.ProgramInstructionsAppend | src/utils.ts:215-217 | filtering distributes over concatenation (order is preserved) |
| Transfers.DecodedTransfersAppend | src/utils.ts:219-242 | decoding distributes over concatenation |
| Transfers.TokenTransfersAppend | src/utils.ts:203-245 | the transfers of `a + b` are those of `a` followed by those of `b` |
| Transfers.SingleTokenTransfer | src/utils.ts:219-236 | one inner instruction yields a transfer exactly when it is the token program, decodes, and has both ends; the amount is the decoded one |
| Transfers.ForeignProgramsIgnored | src/utils.ts:215-217 | inner instructions of other programs yield no transfers of either kind |
| NetFlow.AccumulateFlows | src/damm/processor.ts:210-227 | the accumulation loop yields the gross deposits into and withdrawals out of each vault |
| NetFlow.DepositsAppend | src/damm/processor.ts:210-227 | deposits and withdrawals add up over concatenated transfer lists |
| NetFlow.FlowsAppend | src/damm/processor.ts:226-227 | net flows add up over concatenated transfer lists |
| NetFlow.VaultToVaultCountsTwice | src/damm/processor.ts:214-225 | a transfer from vault X to vault Y counts as a withdrawal from X and a deposit into Y |
| NetFlow.UnrelatedTransfersIgnored | src/damm/processor.ts:210-227 | transfers touching neither vault leave all flows zero |
| NetFlow.DammSwapLeg | src/damm/processor.ts:236-251 | a swap exists exactly when the net flows have strictly opposite signs, with positive amounts in and out |
| NetFlow.DammSwapLegMatchesFlows | src/damm/processor.ts:236-251 | the recorded leg, read back as pool flows, is exactly `(netX, netY)` |
| NetFlow.DammSwapLegRoundTrip | src/damm/processor.ts:236-251 | every leg with positive amounts is recognised from its own pool flows |
| NetFlow.DlmmSwapLeg | src/dlmm/processor.ts:259-274 | a DLMM swap exists exactly when the signs are strictly opposite, with positive amounts |
| NetFlow.DlmmSwapLegMirrorsDamm | src/dlmm/processor.ts:259-274 | the DLMM rule fires on the same flows as the DAMM rule, with input and output swapped |
| NetFlow.DlmmSwapLegReversesFlows | src/dlmm/processor.ts:259-274 | read back as pool flows, a DLMM leg gives `(-netX, -netY)` |
| NetFlow.DammGuardsStricter | src/dlmm/processor.ts:365-368 | every flow pair the DAMM balanced add or remove accepts, the DLMM add or remove accepts too, and not the other way round |
| NetFlow.GuardOverlap | src/damm/processor.ts:345-348 | no flows pass both DAMM balanced guards; flows pass both DLMM guards exactly when they are a swap |
| NetFlow.Inflow | src/damm/processor.ts:566-574 | the clamped positive part of a net flow |
| NetFlow.Outflow | src/damm/processor.ts:670-680 | the clamped negative part of a net flow, as a positive amount |
| NetFlow.InflowOutflowSplit | src/damm/processor.ts:566-574 | inflow minus outflow is the net flow, and one of them is zero |
| NetFlow.ScanInitialReserves | src/dlmm/processor.ts:142-156 | the scanning loop yields the reserve amounts of the specification function |
| NetFlow.InitialReservesLastWins | src/dlmm/processor.ts:145-153 | a later token-owned creation of a reserve account overwrites the earlier amount; other creations change nothing |
| NetFlow.InitialReservesDefault | src/dlmm/processor.ts:142-143 | with no matching creation both reserves start at 0 |
| SwapIndex.Advance | src/damm/swap.service.ts:13-17 | the transaction's counter moves up by one and no other counter moves |
| SwapIndex.IndicesFor | src/damm/swap.service.ts:13-17 | one index per swap |
| SwapIndex.ConsecutiveWithinTransaction | src/damm/swap.service.ts:13-17 | the swaps of one transaction get consecutive indices starting at the counter |
| SwapIndex.CounterCountsOwnSwaps | src/damm/swap.service.ts:15 | after a run of swaps, a counter has grown by exactly the number of its own transaction's swaps |
| SwapIndex.IndicesDistinctWithinTransaction | src/damm/swap.service.ts:13-17 | two swaps of one transaction get strictly increasing indices |
| SwapIndex.IndexIsAtLeastCurrent | src/damm/swap.service.ts:14 | an index is never below the counter at the start |
| DammPoolService.CachedFindTiers | src/damm/pool.service.ts:14-30 | the lookup misses exactly when neither tier has the id; a cache hit changes nothing; a durable hit is promoted into the cache |
| DammPoolService.CachedFindIdempotent | src/damm/pool.service.ts:14-30 | a second lookup of the same id returns the same answer and changes nothing |
| DammPoolService.GetOrCreateBasePoolNew | src/damm/pool.service.ts:65-81 | a new base pool carries the given tokens, vaults and reserves, liquidity 0, status true, createdAt == updatedAt, and is cached |
| DammPoolService.GetOrCreateBasePoolIdempotent | src/damm/pool.service.ts:60-63 | a second get-or-create returns the first result unchanged whatever its arguments |
| DammPoolService.GetOrCreateDammPoolSpec | src/damm/pool.service.ts:84-112 | the pool is cached afterwards; a new pool has curve type "0" and the given vaults; a second call returns it unchanged |
| DammPoolService.UpdatedBasePool | src/damm/pool.service.ts:114-129 | overwrites reserves, liquidity, status and updatedAt (in milliseconds) only |
| DammPoolService.PoolService.constructor | src/damm/pool.service.ts:9-12 | both caches start empty, backed by the given durable maps |
| DammPoolService.PoolService.Find | src/damm/pool.service.ts:14-30 | the two-tier lookup of base pools, promoting durable hits |
| DammPoolService.PoolService.FindDammPool | src/damm/pool.service.ts:32-48 | the same two-tier lookup for DAMM pools |
| DammPoolService.PoolService.GetOrCreateBasePool | src/damm/pool.service.ts:50-82 | the base-pool get-or-create, leaving the DAMM pools alone |
| DammPoolService.PoolService.GetOrCreateDammPool | src/damm/pool.service.ts:84-112 | the DAMM-pool get-or-create, leaving the base pools alone |
| DammPoolService.PoolService.UpdateBasePool | src/damm/pool.service.ts:114-129 | writes the updated pool back under its id |
| DammSwapService.CreateSwapAppends | src/damm/swap.service.ts:19-46 | the swap is appended; its id parses back to (transaction, counter); its fields are the arguments; only that transaction's counter moves |
| DammSwapService.SwapService.constructor | src/damm/swap.service.ts:9-11 | an empty event store and no counters |
| DammSwapService.SwapService.GetNextSwapIndex | src/damm/swap.service.ts:13-17 | returns the counter (0 the first time) and advances only that transaction's counter |
| DammSwapService.SwapService.CreateSwap | src/damm/swap.service.ts:19-46 | numbers, builds and appends the swap |
| DammFeeService.CreateFeeReplacesSameKey | src/damm/fee.service.ts:11-30 | the fee is found under `pool:tx` with the given amounts and time in milliseconds; a second fee for the same pool and transaction replaces it |
| DammFeeService.FeeService.CreateFee | src/damm/fee.service.ts:11-30 | upserts the fee record under its id |
| DammLockService.WithAmount | src/damm/lock.service.ts:34-42 | overwrites amount and updatedAt only |
| DammLockService.GetOrCreateLockSpec | src/damm/lock.service.ts:11-32 | the lock is stored under `pool-owner`; a new one has amount 0 and createdAt == updatedAt; a second call returns it unchanged |
| DammLockService.LockService.GetOrCreateLock | src/damm/lock.service.ts:11-32 | the lock get-or-create |
| DammLockService.LockService.UpdateLock | src/damm/lock.service.ts:34-42 | writes the updated lock back under its id |
| DammLiquidityService.ChangeIdRoundTrip | src/damm/liquidity.service.ts:58 | a change id parses back to `pool-owner` and the timestamp |
| DammLiquidityService.WithLpAmount | src/damm/liquidity.service.ts:38-46 | sets (not adds) the LP amount and bumps updatedAt |
| DammLiquidityService.GetOrCreatePositionSpec | src/damm/liquidity.service.ts:13-36 | the position is stored under `pool-owner`; a new one has LP 0; a second call returns it unchanged |
| DammLiquidityService.AdjustAndRecordSpec | src/damm/liquidity.service.ts:71-142 | a helper moves the position's LP by the signed amount and stores the change with its type, amounts and time |
| DammLiquidityService.RecordThenSetLpSpec | src/damm/processor.ts:354-369 | the processor's sequence stores the change with LP 0 and then overwrites the position's LP with the given amount |
| DammLiquidityService.LiquidityService.constructor | src/damm/liquidity.service.ts:9-11 | empty position and change stores |
| DammLiquidityService.LiquidityService.GetOrCreatePosition | src/damm/liquidity.service.ts:13-36 | the position get-or-create |
| DammLiquidityService.LiquidityService.UpdatePosition | src/damm/liquidity.service.ts:38-46 | writes the position back with the new LP amount |
| DammLiquidityService.LiquidityService.RecordLiquidityChange | src/damm/liquidity.service.ts:48-69 | upserts the change under `pool-owner-timestamp` |
| DammLiquidityService.LiquidityService.HandleAddBalancedLiquidity | src/damm/liquidity.service.ts:71-82 | adds the LP amount to the position and records an add |
| DammLiquidityService.LiquidityService.HandleRemoveBalancedLiquidity | src/damm/liquidity.service.ts:84-95 | subtracts the LP amount and records a remove |
| DammLiquidityService.LiquidityService.HandleAddImbalancedLiquidity | src/damm/liquidity.service.ts:97-108 | adds the LP amount and records an add |
| DammLiquidityService.LiquidityService.HandleRemoveSingleSideLiquidity | src/damm/liquidity.service.ts:110-129 | subtracts the LP amount and records the token amount on X exactly when `isTokenX`, 0 on the other side |
| DammLiquidityService.LiquidityService.HandleBootstrapLiquidity | src/damm/liquidity.service.ts:131-142 | adds the LP amount and records a bootstrap |
| DammProcessor.Processor.constructor | src/damm/processor.ts:22-29 | every store starts empty; swaps are an event store |
| DammProcessor.Processor.FindPool | src/damm/processor.ts:192-193 | the base-pool lookup through the cache and the durable map |
| DammProcessor.Processor.GetOrCreateDammPool | src/damm/processor.ts:196-205 | the DAMM-pool get-or-create on the processor's state |
| DammProcessor.Processor.UpdateBasePool | src/damm/processor.ts:266-276 | writes the updated base pool back |
| DammProcessor.Processor.HandleInitializePool | src/damm/processor.ts:122-166 | the initialize handler, as `InitializeStep` |
| DammProcessor.Processor.HandleSwap | src/damm/processor.ts:171-281 | the swap handler, as `SwapStep` |
| DammProcessor.Processor.SwapWithPool | src/damm/processor.ts:196-276 | the swap handler once the pool is found |
| DammProcessor.Processor.RecordSwap | src/damm/processor.ts:254-276 | records the swap and moves the reserves |
| DammProcessor.Processor.HandleLiquidity | src/damm/processor.ts:286-704 | the four liquidity handlers, as `LiquidityStep` |
| DammProcessor.Processor.LiquidityWithPool | src/damm/processor.ts:319-383 | a liquidity handler once the pool is found |
| DammProcessor.Processor.RecordLiquidity | src/damm/processor.ts:354-383 | records the change, overwrites the LP amount, moves reserves and liquidity |
| DammProcessor.Processor.HandleBootstrapLiquidity | src/damm/processor.ts:709-804 | the bootstrap handler, as `BootstrapStep` |
| DammProcessor.Processor.BootstrapWithPool | src/damm/processor.ts:749-799 | the bootstrap handler once an empty pool is found |
| DammProcessor.Processor.HandleEnableOrDisablePool | src/damm/processor.ts:809-841 | the enable/disable handler, as `EnableStep` |
| DammProcessor.Processor.HandleOverrideCurveParam | src/damm/processor.ts:846-880 | the override handler, as `OverrideStep` |
| DammProcessor.Processor.HandleClaimFee | src/damm/processor.ts:885-982 | the claim-fee handler, as `ClaimFeeStep` |
| DammProcessor.Processor.ClaimFeeWithPool | src/damm/processor.ts:925-977 | the claim-fee handler once the pool is found |
| DammProcessor.Processor.ProcessInstruction | src/damm/processor.ts:59-117 | dispatch by discriminator, as `Process` |
| DammProcessorProps.FindStepValid | src/damm/pool.service.ts:14-30 | the lookup keeps the cache well formed and returns a pool with the requested id |
| DammProcessorProps.DammPoolStepValid | src/damm/pool.service.ts:84-112 | the DAMM-pool get-or-create keeps the cache well formed and touches only the DAMM pools |
| DammProcessorProps.PoolUpdateStepValid | src/damm/pool.service.ts:114-129 | the base-pool update keeps the cache well formed and stores the updated pool |
| DammProcessorProps.PositionChangeStepValid | src/damm/processor.ts:354-369 | recording a change keeps the cache well formed |
| DammProcessorProps.BootstrapChangeStepValid | src/damm/processor.ts:778-786 | recording a bootstrap keeps the cache well formed |
| DammProcessorProps.FeeStepValid | src/damm/processor.ts:951-964 | recording a fee keeps the cache well formed |
| DammProcessorProps.FindStepSpec | src/damm/processor.ts:192-193 | the lookup misses exactly when neither tier has the pool, and a miss or a cache hit changes nothing; a hit is cached under the address, and no other entry or store changes |
| DammProcessorProps.DammPoolStepSpec | src/damm/processor.ts:196-205 | the DAMM pool is cached under the address afterwards; a cached one is kept, no other DAMM pool and no other store changes |
| DammProcessorProps.SwapApplySpec | src/damm/processor.ts:254-276 | an accepted swap is appended with the leg's mints and amounts and only its transaction's counter advances; the pool's reserves move by the net flows, liquidity and status are kept; no other base pool and no other store changes |
| DammProcessorProps.SwapOnPoolSpec | src/damm/processor.ts:196-276 | with the pool found: a swap is recorded and the reserves move exactly when the signs are opposite; only the pool's own DAMM and base entries and its transaction's counter can change |
| DammProcessorProps.GuardedSwapOutcome | src/damm/processor.ts:236-276 | once the DAMM pool is in place: a swap is recorded and reserves move exactly when the net flows have opposite signs, touching no other pool, counter or store; otherwise only the DAMM pool differs |
| DammProcessorProps.SwapSpec | src/damm/processor.ts:171-281 | missing accounts or an unknown pool are a no-op; otherwise the swap outcome above, with no other pool, counter or store changed |
| DammProcessorProps.PositionChangeStepSpec | src/damm/processor.ts:354-369 | the change is stored and the position's LP is set to the given amount; no other position or change and no other store moves |
| DammProcessorProps.LiquidityApplySpec | src/damm/processor.ts:354-383 | reserves move by the raw net flows, liquidity by the signed amount, the change carries the handler's amounts, and the LP is overwritten; no other pool, position or change moves |
| DammProcessorProps.LiquidityOnPoolSpec | src/damm/processor.ts:319-383 | with the pool found: the guard decides between the liquidity outcome and no change except the DAMM pool; no other pool, position or change moves |
| DammProcessorProps.GuardedLiquidityOutcome | src/damm/processor.ts:345-383 | once the DAMM pool is in place: an accepted guard yields the liquidity outcome, a rejected one leaves everything but the DAMM pool as it was; other keys never move |
| DammProcessorProps.LiquiditySpec | src/damm/processor.ts:286-704 | balanced add needs both net flows > 0, balanced remove both < 0, the others have no guard (an if-and-only-if); missing accounts or pool are a no-op; only the pool's entries, the user's position and its change can move |
| DammProcessorProps.BootstrapSpec | src/damm/processor.ts:709-804 | a bootstrap is ignored unless both reserves are 0; otherwise it records the clamped inflows, moves the reserves and sets liquidity to 0, with no other pool, position or change moved |
| DammProcessorProps.BootstrapOnPoolSpec | src/damm/processor.ts:749-799 | the bootstrap outcome on an empty pool, other keys unchanged |
| DammProcessorProps.BootstrapChangeStepShaped | src/damm/processor.ts:778-786 | a bootstrap change is stored and leaves the position's LP as it was; no other position or change moves |
| DammProcessorProps.EnableSpec | src/damm/processor.ts:809-841 | sets status to the decoded flag and bumps updatedAt, leaving reserves and liquidity; no other pool or store changes; a no-op without a known pool |
| DammProcessorProps.OverrideSpec | src/damm/processor.ts:846-880 | only bumps updatedAt of a known pool; no other pool or store changes |
| DammProcessorProps.ClaimFeeSpec | src/damm/processor.ts:885-982 | the fee is the gross withdrawals, recorded only when one is positive; reserves move by the net flows regardless; no other pool, fee entry or store changes |
| DammProcessorProps.ClaimFeeOnPoolSpec | src/damm/processor.ts:925-975 | once `find` has yielded the pool: the same claim outcome, stated against the state after the lookup |
| DammProcessorProps.ClaimFeeApplySpec | src/damm/processor.ts:955-975 | with the DAMM pool in hand: the fee entry holds the gross withdrawals when one is positive, the reserves move by the net flows, and no other pool, fee entry or store changes |
| DammProcessorProps.InitializeSpec | src/damm/processor.ts:122-166 | with all accounts present the base pool exists afterwards: a cached one is kept, a stored one is cached as stored, a new one takes the decoded amounts; no other pool or store moves |
| DammProcessorProps.SwapRecordStepValid | src/damm/processor.ts:254-263 | recording a swap keeps the cache well formed |
| DammProcessorProps.SwapApplyValid | src/damm/processor.ts:254-276 | an accepted swap keeps the cache well formed |
| DammProcessorProps.SwapStepValid | src/damm/processor.ts:171-281 | the swap handler keeps the cache well formed |
| DammProcessorProps.LiquidityApplyValid | src/damm/processor.ts:354-383 | an accepted liquidity change keeps the cache well formed |
| DammProcessorProps.LiquidityStepValid | src/damm/processor.ts:286-704 | the liquidity handlers keep the cache well formed |
| DammProcessorProps.BootstrapOnPoolValid | src/damm/processor.ts:749-799 | a bootstrap on a found pool keeps the cache well formed |
| DammProcessorProps.BootstrapApplyValid | src/damm/processor.ts:778-799 | an applied bootstrap keeps the cache well formed |
| DammProcessorProps.BootstrapStepValid | src/damm/processor.ts:709-804 | the bootstrap handler keeps the cache well formed |
| DammProcessorProps.ClaimFeeOnPoolValid | src/damm/processor.ts:925-977 | a fee claim on a found pool keeps the cache well formed |
| DammProcessorProps.ClaimFeeStepValid | src/damm/processor.ts:885-982 | the claim-fee handler keeps the cache well formed |
| DammProcessorProps.PoolStatusStepsValid | src/damm/processor.ts:809-880 | enable/disable and override keep the cache well formed |
| DammProcessorProps.InitializeStepValid | src/damm/processor.ts:122-166 | initialize keeps the cache well formed |
| DammProcessorProps.ProcessPreservesValid | src/damm/processor.ts:59-117 | every instruction keeps the cache well formed |
| DammProcessorProps.ProcessIgnoresUnknownLayouts | src/damm/processor.ts:62-66 | an unknown or unhandled discriminator changes nothing |
| DammProcessorProps.ProcessIgnoresDecodeFailures | src/damm/processor.ts:109-112 | an instruction that fails to decode changes nothing |
| DlmmPoolService.GetOrCreateBasePoolSpec | src/dlmm/pool.service.ts:14-46 | an existing pool is returned with the cache unchanged; a new one takes its vaults from the reserve accounts and its reserves from the amounts, liquidity 0, status true |
| DlmmPoolService.GetOrCreateBasePoolIdempotent | src/dlmm/pool.service.ts:24-27 | a second call returns the first result unchanged whatever its arguments |
| DlmmPoolService.GetOrCreateDlmmPoolSpec | src/dlmm/pool.service.ts:48-74 | an existing pool is returned unchanged, ignoring bin step and active id; a new one carries the arguments |
| DlmmPoolService.UpdateBasePoolSpec | src/dlmm/pool.service.ts:76-90 | overwrites reserves, liquidity, status and updatedAt only; other pools are unaffected |
| DlmmPoolService.UpdateDlmmPoolSpec | src/dlmm/pool.service.ts:92-104 | always sets the active id and each activation field only when given |
| DlmmPoolService.PoolService.constructor | src/dlmm/pool.service.ts:9-12 | both caches start empty |
| DlmmPoolService.PoolService.GetOrCreateBasePool | src/dlmm/pool.service.ts:14-46 | the base-pool get-or-create |
| DlmmPoolService.PoolService.GetOrCreateDlmmPool | src/dlmm/pool.service.ts:48-74 | the DLMM-pool get-or-create |
| DlmmPoolService.PoolService.UpdateBasePool | src/dlmm/pool.service.ts:76-90 | writes the updated base pool back |
| DlmmPoolService.PoolService.UpdateDlmmPool | src/dlmm/pool.service.ts:92-104 | writes the updated DLMM pool back |
| DlmmPoolService.PoolService.GetBasePool | src/dlmm/pool.service.ts:106-108 | finds a base pool exactly when it is cached |
| DlmmPoolService.PoolService.GetPool | src/dlmm/pool.service.ts:110-112 | finds a DLMM pool exactly when it is cached |
| DlmmSwapService.CreateSwapAppends | src/dlmm/swap.service.ts:19-45 | the swap is appended; its id parses back to (transaction, counter), index 0 for a new transaction; the mints and amounts are the arguments; only that counter moves |
| DlmmSwapService.SwapService.constructor | src/dlmm/swap.service.ts:9-11 | an empty event store and no counters |
| DlmmSwapService.SwapService.GetNextSwapIndex | src/dlmm/swap.service.ts:13-17 | returns the counter and advances only that transaction's counter |
| DlmmSwapService.SwapService.CreateSwap | src/dlmm/swap.service.ts:19-45 | numbers, builds and appends the swap |
| DlmmSwapService.SwapService.GetAllSwaps | src/dlmm/swap.service.ts:47-49 | all swaps in insertion order |
| DlmmLiquidityService.RecordChangeSpec | src/dlmm/liquidity.service.ts:11-30 | the store stays valid; the change is found under `pool-owner-timestamp` with the amounts as passed; other keys are unaffected; a second change with the same key replaces it |
| DlmmLiquidityService.LiquidityService.constructor | src/dlmm/liquidity.service.ts:7-9 | an empty change store |
| DlmmLiquidityService.LiquidityService.RecordLiquidityChange | src/dlmm/liquidity.service.ts:11-30 | upserts the change |
| DlmmLiquidityService.LiquidityService.GetAllLiquidityChanges | src/dlmm/liquidity.service.ts:32-34 | the stored changes in key order |
| DlmmPositionService.GetOrCreatePositionSpec | src/dlmm/position.service.ts:12-47 | the id is `address-owner`; an existing position is returned unchanged; a new one has zero liquidity and amounts and createdAt == updatedAt |
| DlmmPositionService.UpdatePositionSpec | src/dlmm/position.service.ts:49-63 | overwrites liquidity and amounts; the operator only when given; updatedAt only when a timestamp is given |
| DlmmPositionService.BareAddressMissesPosition | src/dlmm/position.service.ts:65-67 | a freshly created position is not found under its bare address |
| DlmmPositionService.PositionService.constructor | src/dlmm/position.service.ts:8-10 | an empty position store |
| DlmmPositionService.PositionService.GetOrCreatePosition | src/dlmm/position.service.ts:12-47 | the position get-or-create |
| DlmmPositionService.PositionService.UpdatePosition | src/dlmm/position.service.ts:49-63 | writes the updated position back |
| DlmmPositionService.PositionService.GetPosition | src/dlmm/position.service.ts:65-67 | finds a position exactly under the key given |
| DlmmRewardService.CreateRewardSpec | src/dlmm/reward.service.ts:12-33 | `getReward` after `createReward` returns that reward, with lastUpdateTime == createdAt; a second create with the same index replaces it |
| DlmmRewardService.RewardIdsDistinct | src/dlmm/reward.service.ts:20 | different indices of one pool get different ids |
| DlmmRewardService.UpdateRewardSpec | src/dlmm/reward.service.ts:35-43 | only amount and lastUpdateTime change; other rewards are unaffected |
| DlmmRewardService.RewardService.constructor | src/dlmm/reward.service.ts:8-10 | an empty reward store |
| DlmmRewardService.RewardService.CreateReward | src/dlmm/reward.service.ts:12-33 | builds and upserts the reward |
| DlmmRewardService.RewardService.UpdateReward | src/dlmm/reward.service.ts:35-43 | writes the updated reward back |
| DlmmRewardService.RewardService.GetReward | src/dlmm/reward.service.ts:45-48 | finds the reward exactly when one is stored under `pool-index` |
| DlmmFeeService.DirectionsKeptApart | src/dlmm/fee.service.ts:23 | an in-claim and an out-claim of the same transaction and position get different ids |
| DlmmFeeService.CreateFeeClaimSpec | src/dlmm/fee.service.ts:12-35 | the claim is found under `tx-type-position` with the amounts as passed and the raw timestamp; a second claim with the same key replaces it |
| DlmmFeeService.FeeService.constructor | src/dlmm/fee.service.ts:8-10 | an empty fee store |
| DlmmFeeService.FeeService.CreateFeeClaim | src/dlmm/fee.service.ts:12-35 | builds and upserts the claim |
| DlmmProcessor.FirstMatch | src/dlmm/processor.ts:645-650 | the index of the first transfer from (or to) the account, or none when no transfer touches it |
| DlmmProcessor.Processor.constructor | src/dlmm/processor.ts:26-34 | every store starts empty; swaps are an event store |
| DlmmProcessor.Processor.UpdateBasePool | src/dlmm/pool.service.ts:76-90 | writes the updated base pool back |
| DlmmProcessor.Processor.HandleInitializePool | src/dlmm/processor.ts:119-185 | the initialize handler, as `InitializeStep` |
| DlmmProcessor.Processor.HandleSwap | src/dlmm/processor.ts:193-303 | the swap handler, as `SwapStep` |
| DlmmProcessor.Processor.SwapWithPools | src/dlmm/processor.ts:228-299 | the swap handler once both pools are found |
| DlmmProcessor.Processor.HandleLiquidity | src/dlmm/processor.ts:310-502 | the add and remove handlers, as `LiquidityStep` |
| DlmmProcessor.Processor.LiquidityWithPool | src/dlmm/processor.ts:338-400 | an add or remove once the pair is found |
| DlmmProcessor.Processor.HandleClaimReward | src/dlmm/processor.ts:560-614 | the claim-reward handler, as `ClaimRewardStep` |
| DlmmProcessor.Processor.HandleClaimFee | src/dlmm/processor.ts:616-704 | the claim-fee handler, as `ClaimFeeStep` |
| DlmmProcessor.Processor.ClaimFeeWithPool | src/dlmm/processor.ts:642-700 | the claims once the pair is found |
| DlmmProcessor.Processor.HandleTogglePairStatus | src/dlmm/processor.ts:706-723 | the toggle handler, as `ToggleStep` |
| DlmmProcessor.Processor.HandleFundReward | src/dlmm/processor.ts:533-558 | the fund-reward handler, as `FundRewardStep` |
| DlmmProcessor.Processor.ProcessInstruction | src/dlmm/processor.ts:64-117 | dispatch by discriminator, as `Process` |
| DlmmProcessorProps.FirstMatchIgnoresLater | src/dlmm/processor.ts:645-650 | transfers after the first match never change which one is used |
| DlmmProcessorProps.InitializeSpec | src/dlmm/processor.ts:119-185 | with all accounts present both pools exist afterwards; a new base pool takes the scanned reserves; cached pools are kept; only the pair's two entries can change |
| DlmmProcessorProps.SwapOnPoolSpec | src/dlmm/processor.ts:228-299 | with both pools found: a swap is recorded exactly when the signs are opposite, with the mirrored direction, and reserves move by the net flows; no other base pool, counter or store changes |
| DlmmProcessorProps.SwapApplySpec | src/dlmm/processor.ts:259-299 | a classified swap is appended with the side whose reserve shrank as input and only its transaction's counter advances; reserves move by the net flows; no other base pool and no pair, position, change, reward or fee changes |
| DlmmProcessorProps.SwapSpec | src/dlmm/processor.ts:193-303 | missing accounts or either pool missing is a no-op; otherwise the outcome above, with flows taken against the instruction's reserve accounts |
| DlmmProcessorProps.LiquidityOnPoolSpec | src/dlmm/processor.ts:338-400 | with the pair found, a change is recorded only when the guard accepts and a position is stored under the bare address; reserves then move only if the base pool is cached; no other change or pool moves |
| DlmmProcessorProps.LiquiditySpec | src/dlmm/processor.ts:310-502 | add is accepted exactly when some net flow is > 0, remove exactly when some is < 0; missing accounts or pair are a no-op; only the owner's change and the pair's base pool can move |
| DlmmProcessorProps.ClaimRewardSpec | src/dlmm/processor.ts:560-614 | with both transfers found, reward 0 of the pair is left holding the received amount; otherwise a no-op; other rewards are unaffected |
| DlmmProcessorProps.FundRewardSpec | src/dlmm/processor.ts:533-558 | a stored reward's amount grows by the funded amount and lastUpdateTime moves; no other reward or store changes; otherwise a no-op |
| DlmmProcessorProps.FundRewardAccumulates | src/dlmm/processor.ts:550-553 | two fundings add up |
| DlmmProcessorProps.ClaimFeeOnPoolSpec | src/dlmm/processor.ts:642-700 | each direction's slot holds the first matching transfer's amount, the Y claim replacing the X claim; no other fee entry and no other store changes |
| DlmmProcessorProps.ClaimDirectionSpec | src/dlmm/processor.ts:653-676 | one direction's X then Y claim: that direction's key holds the last claim made, every other key and every other store is unchanged |
| DlmmProcessorProps.ClaimFeeSpec | src/dlmm/processor.ts:616-704 | missing accounts or pair are a no-op; otherwise the two claim slots above, no other fee entry, and nothing but fees moves |
| DlmmProcessorProps.ToggleSpec | src/dlmm/processor.ts:706-723 | flips the status of the pool named by the first account and bumps updatedAt; other pools are unaffected; no such pool is a no-op |
| DlmmProcessorProps.ToggleTwiceRestoresStatus | src/dlmm/processor.ts:706-723 | toggling twice restores the status |
| DlmmProcessorProps.ProcessKeepsPositions | src/dlmm/processor.ts:64-117 | no instruction ever writes a position |
| DlmmProcessorProps.SwapStepKeepsPositions | src/dlmm/processor.ts:193-303 | a swap never writes a position |
| DlmmProcessorProps.LiquidityStepKeepsPositions | src/dlmm/processor.ts:371-374 | add and remove never write a position, and with no positions they record no change |
| DlmmProcessorProps.ProcessWithoutPositionsKeepsChanges | src/dlmm/processor.ts:371-374 | with no stored positions no instruction records a liquidity change |
| DlmmProcessorProps.SwapStepKeepsChanges | src/dlmm/processor.ts:193-303 | a swap never records a liquidity change |
| DlmmProcessorProps.BatchRecordsNoLiquidityChanges | src/dlmm/processor.ts:371-374 | over a whole batch starting without positions, positions and changes stay as they were |
| DlmmProcessorProps.FreshBatchRecordsNoLiquidityChanges | src/dlmm/processor.ts:371-374 | a batch from an empty cache ends with no positions and no liquidity changes |
| DlmmProcessorProps.ProcessIgnoresUnknownLayouts | src/dlmm/processor.ts:64-117 | an unknown or unhandled discriminator changes nothing |
| DlmmProcessorProps.ProcessIgnoresDecodeFailures | src/dlmm/processor.ts:64-117 | an instruction that fails to decode changes nothing |
| DlmmProcessorProps.PoolUpdateStepValid | src/dlmm/pool.service.ts:76-90 | a base-pool update keeps the cache well formed |
| DlmmProcessorProps.InitializeStepValid | src/dlmm/processor.ts:119-185 | initialize keeps the cache well formed |
| DlmmProcessorProps.SwapStepValid | src/dlmm/processor.ts:193-303 | the swap handler keeps the cache well formed |
| DlmmProcessorProps.SwapOnPoolValid | src/dlmm/processor.ts:228-299 | a swap on found pools keeps the cache well formed |
| DlmmProcessorProps.SwapApplyValid | src/dlmm/processor.ts:277-299 | an accepted swap keeps the cache well formed |
| DlmmProcessorProps.SwapRecordStepValid | src/dlmm/swap.service.ts:19-45 | recording a swap keeps the cache well formed |
| DlmmProcessorProps.LiquidityApplyValid | src/dlmm/processor.ts:377-400 | an accepted change keeps the cache well formed |
| DlmmProcessorProps.LiquidityStepValid | src/dlmm/processor.ts:310-502 | add and remove keep the cache well formed |
| DlmmProcessorProps.RewardStepValid | src/dlmm/reward.service.ts:12-33 | creating a reward keeps the cache well formed |
| DlmmProcessorProps.ClaimRewardStepValid | src/dlmm/processor.ts:560-614 | a reward claim keeps the cache well formed |
| DlmmProcessorProps.ClaimIfFoundValid | src/dlmm/processor.ts:653-700 | one fee claim keeps the cache well formed |
| DlmmProcessorProps.ClaimFeeStepValid | src/dlmm/processor.ts:616-704 | the claim-fee handler keeps the cache well formed |
| DlmmProcessorProps.ToggleStepValid | src/dlmm/processor.ts:706-723 | a toggle keeps the cache well formed |
| DlmmProcessorProps.FundRewardStepValid | src/dlmm/processor.ts:533-558 | funding keeps the cache well formed |
| DlmmProcessorProps.ProcessPreservesValid | src/dlmm/processor.ts:64-117 | every instruction keeps the cache well formed |
| DlmmProcessorProps.ProcessBatchPreservesValid | src/dlmm/processor.ts:64-117 | a whole batch keeps the cache well formed |

## Left out

- The generated layouts under `src/abi/` and the entity classes under `src/model/generated/` are not modelled as code. Decoding is an abstract function returning `Option`, the discriminator table is an abstract map to a closed enum, and the entities are datatypes.
- `src/main.ts` is not part of this model: the data source, the batch runner, the per-instruction try/catch and the flush to the database are I/O orchestration.
- The durable database (`ctx.store.findOneBy`) is a read-only map assumed to be keyed by id. The model does not write to it.
- The token-balance enrichment in the transfer decoders (`preMint`, `postOwner` and the like) is dropped, because no classification reads it.
- `bpsToDecimal` and `lamportsToSol` work on floats. `writeLog`, `writeLayoutLog` and `convertBigIntToString` write log files. Neither group is modelled.
- `createLiquidityChangeId` depends on the clock and randomness, and no core path uses it.
- `parseInstructionData` is a buffer wrapper around the abstract decoders.
- The `getOrCreateBasePool` in `src/utils.ts` does direct database I/O and the processors never call it.
- Utils.ToLower: lower-cases ASCII capitals only, where `String.prototype.toLowerCase` also maps non-ASCII letters (U+212A KELVIN SIGN becomes `k`, for example). It is used only to compare program ids with the token and system program constants, and program ids are base58, whose alphabet is ASCII. For such ids the two agree; an id carrying a non-ASCII letter that lower-cases to ASCII would match in the source and not here.
- `createPoolId` normalises base58 addresses. It is the identity here: addresses are taken to be canonical.
- `handleInitializeReward` in `src/dlmm/processor.ts` is not modelled. Like `handleFundReward`, it is unreachable from the dispatch.
- `handleFundReward` is modelled (`FundRewardStep`), but it is reached only by calling the handler directly, never through `Process`.
- Async/await ordering, `console` logging and the debug dump in the DLMM initialize handler are not modelled.
- `Date` objects are integer timestamps. The wall-clock default for a DLMM position created without a timestamp is a `now` parameter.
- Object aliasing is not modelled. The source mutates entity objects that other entities may still reference; here an update writes a new record value under the entity's id, and references between entities are ids.
- Amounts are unbounded integers. The 64-bit range of on-chain token amounts is not enforced, as the source's `bigint` does not enforce it either.
- Errors a handler throws after partly writing the cache (for example a missing account index) are not modelled beyond the decode and lookup failures. Every modelled branch completes.
- `getAllBasePools`, `getAllDammPools`, `getAllPositions`, `getAllLocks`, `getAllFees` and `getAllRewards` are one-line wrappers of the store's `getAll`. They are not repeated per service: `Store.MemoryStore.GetAll` states them once, and the DLMM swap and liquidity listings are modelled.
