/**
 * src/dlmm/reward.service.ts: pool rewards in the 'DLMMReward' entity
 * store, keyed by `${poolId}-${rewardIndex}`.
 */
module DlmmRewardService {
  import opened Wrappers
  import opened Entities
  import opened Store
  import opened Utils

  predicate RewardsKeyed(entries: map<string, DlmmReward>) {
    forall k :: k in entries ==> entries[k].id == k
  }

  /** The reward `createReward` builds: last update and creation both at the given time, in milliseconds. */
  function RewardRecord(pool: DlmmPool, rewardIndex: nat, rewardDuration: int, funder: string, amount: int,
                        timestamp: nat): DlmmReward
  {
    DlmmReward(CreateRewardId(pool.id, rewardIndex), pool.id, rewardIndex, rewardDuration, funder, amount,
               timestamp * 1000, timestamp * 1000)
  }

  /** `createReward` on the store: a save, so an existing reward of the same pool and index is replaced. */
  function CreateRewardIn(rewards: StoreState<DlmmReward>, pool: DlmmPool, rewardIndex: nat, rewardDuration: int,
                          funder: string, amount: int, timestamp: nat): StoreState<DlmmReward>
  {
    var reward := RewardRecord(pool, rewardIndex, rewardDuration, funder, amount, timestamp);
    rewards.Save(reward.id, reward)
  }

  /** `getReward(poolId, rewardIndex)`. */
  function GetRewardIn(rewards: StoreState<DlmmReward>, poolId: string, rewardIndex: nat): Option<DlmmReward> {
    rewards.Find(CreateRewardId(poolId, rewardIndex))
  }

  /** `updateReward`: a new amount and last update time, nothing else. */
  function WithAmount(reward: DlmmReward, amount: int, timestamp: nat): DlmmReward {
    reward.(amount := amount, lastUpdateTime := timestamp * 1000)
  }

  function UpdateRewardIn(rewards: StoreState<DlmmReward>, reward: DlmmReward, amount: int, timestamp: nat)
    : StoreState<DlmmReward>
  {
    rewards.Save(reward.id, WithAmount(reward, amount, timestamp))
  }

  /**
   * `getReward(pool.id, i)` after `createReward(pool, i, ...)` yields that
   * reward, whose last update and creation times are equal; creating it
   * again for the same pool and index replaces it instead of adding one.
   */
  lemma CreateRewardSpec(rewards: StoreState<DlmmReward>, pool: DlmmPool, rewardIndex: nat, rewardDuration: int,
                         funder: string, amount: int, timestamp: nat,
                         rewardDuration2: int, funder2: string, amount2: int, timestamp2: nat)
    requires rewards.Valid() && !rewards.isEvent
    ensures var once := CreateRewardIn(rewards, pool, rewardIndex, rewardDuration, funder, amount, timestamp);
      var twice := CreateRewardIn(once, pool, rewardIndex, rewardDuration2, funder2, amount2, timestamp2);
      && GetRewardIn(once, pool.id, rewardIndex) == Some(RewardRecord(pool, rewardIndex, rewardDuration, funder, amount, timestamp))
      && once.Find(CreateRewardId(pool.id, rewardIndex)).value.lastUpdateTime == timestamp * 1000
      && once.Find(CreateRewardId(pool.id, rewardIndex)).value.createdAt == timestamp * 1000
      && GetRewardIn(twice, pool.id, rewardIndex).Some?
      && GetRewardIn(twice, pool.id, rewardIndex).value.amount == amount2
      && |twice.All()| == |once.All()|
  {
    var reward := RewardRecord(pool, rewardIndex, rewardDuration, funder, amount, timestamp);
    SaveKeepsValid(rewards, reward.id, reward);
    SaveUpserts(rewards.Save(reward.id, reward), reward.id,
                RewardRecord(pool, rewardIndex, rewardDuration2, funder2, amount2, timestamp2));
  }

  /** Rewards of different indices of one pool live under different keys. */
  lemma RewardIdsDistinct(poolId: string, i: nat, j: nat)
    requires i != j
    ensures CreateRewardId(poolId, i) != CreateRewardId(poolId, j)
  {
    RewardIdRoundTrip(poolId, i);
    RewardIdRoundTrip(poolId, j);
  }

  /** The update touches only the amount and the last update time of the reward it is given. */
  lemma UpdateRewardSpec(rewards: StoreState<DlmmReward>, reward: DlmmReward, amount: int, timestamp: nat, other: string)
    requires !rewards.isEvent
    ensures var after := UpdateRewardIn(rewards, reward, amount, timestamp);
      && after.Find(reward.id) == Some(reward.(amount := amount, lastUpdateTime := timestamp * 1000))
      && after.Find(reward.id).value.createdAt == reward.createdAt
      && after.Find(reward.id).value.funder == reward.funder
      && (other != reward.id ==> after.Find(other) == rewards.Find(other))
  {
  }

  class RewardService {
    var rewards: StoreState<DlmmReward>

    ghost predicate Valid()
      reads this
    {
      rewards.Valid() && !rewards.isEvent && RewardsKeyed(rewards.entries)
    }

    constructor()
      ensures Valid() && rewards == Empty(false)
    {
      rewards := Empty(false);
    }

    method CreateReward(pool: DlmmPool, rewardIndex: nat, rewardDuration: int, funder: string, amount: int,
                        timestamp: nat) returns (reward: DlmmReward)
      requires Valid()
      modifies this
      ensures Valid()
      ensures reward == RewardRecord(pool, rewardIndex, rewardDuration, funder, amount, timestamp)
      ensures rewards == CreateRewardIn(old(rewards), pool, rewardIndex, rewardDuration, funder, amount, timestamp)
    {
      reward := DlmmReward(CreateRewardId(pool.id, rewardIndex), pool.id, rewardIndex, rewardDuration, funder, amount,
                           timestamp * 1000, timestamp * 1000);
      rewards := rewards.Save(reward.id, reward);
    }

    method UpdateReward(reward: DlmmReward, amount: int, timestamp: nat)
      requires Valid()
      modifies this
      ensures Valid()
      ensures rewards == UpdateRewardIn(old(rewards), reward, amount, timestamp)
    {
      var updated := reward.(amount := amount, lastUpdateTime := timestamp * 1000);
      rewards := rewards.Save(reward.id, updated);
    }

    method GetReward(poolId: string, rewardIndex: nat) returns (reward: Option<DlmmReward>)
      requires Valid()
      ensures reward.Some? <==> CreateRewardId(poolId, rewardIndex) in rewards.entries
      ensures reward.Some? ==> reward.value.id == CreateRewardId(poolId, rewardIndex)
      ensures reward.Some? ==> reward.value == rewards.entries[CreateRewardId(poolId, rewardIndex)]
    {
      reward := rewards.Find(CreateRewardId(poolId, rewardIndex));
    }
  }
}
