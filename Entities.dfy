/**
 * The values the staking indexer reads and stores: the decoded events of the
 * staking contract, the aggregate entities (User, StakePosition,
 * ProtocolMetrics) and the write-once record kept for every event.
 *
 * Entities carry no id field of their own: every entity table of the store is
 * a map, and an entity's id is the key it is saved under. Amounts, rates and
 * timestamps are unbounded naturals (the source uses arbitrary-precision
 * integers); addresses, hashes and token references are byte strings.
 */
module Entities {

  datatype Option<T> = None | Some(value: T)

  type Bytes = seq<bv8>

  /** An account address, the key of a User. */
  type Addr = Bytes

  /**
   * The (transaction hash, log index) pair that identifies one emitted event.
   * Stake positions and event records are both keyed by it, in separate
   * tables; the two textual/binary encodings of this pair are not modelled.
   */
  datatype LogId = LogId(txHash: Bytes, logIndex: nat)

  /** One year in seconds, the annualisation factor of the APR. */
  const SECONDS_PER_YEAR: nat := 365 * 24 * 60 * 60

  /** The APR is a whole percentage: yearly rewards over stake, times 100 (5 means 5%). */
  const PERCENT: nat := 100

  /** The lock assumed for every stake position: 30 days in seconds. */
  const LOCK_PERIOD: nat := 30 * 24 * 60 * 60

  // ---------------------------------------------------------------------------
  // Aggregates

  datatype User = User(
    totalStaked: nat,
    totalWithdrawn: nat,
    totalRewardsClaimed: nat,
    pendingRewards: nat,
    lastUpdateTimestamp: nat)

  datatype StakePosition = StakePosition(
    user: Addr,
    amount: nat,
    timestamp: nat,
    unlockTime: nat,
    isWithdrawn: bool,
    rewardsClaimed: nat,
    pendingRewards: nat)

  datatype ProtocolMetrics = ProtocolMetrics(
    totalStaked: nat,
    totalUsers: nat,
    totalStakePositions: nat,
    currentRewardRate: nat,
    totalRewardsClaimed: nat,
    totalWithdrawn: nat,
    apr: nat,
    lastUpdateTimestamp: nat,
    stakingToken: Bytes)

  // ---------------------------------------------------------------------------
  // Decoded events: the block and transaction they come from, then the
  // parameters the contract emitted.

  datatype EventMeta = EventMeta(txHash: Bytes, logIndex: nat, blockNumber: nat, blockTimestamp: nat)

  /** The id of the event that `meta` describes. */
  function EventId(meta: EventMeta): LogId {
    LogId(meta.txHash, meta.logIndex)
  }

  datatype EmergencyWithdrawnEvent = EmergencyWithdrawnEvent(
    meta: EventMeta, user: Addr, amount: nat, penalty: nat, timestamp: nat, newTotalStaked: nat)

  datatype RewardRateUpdatedEvent = RewardRateUpdatedEvent(
    meta: EventMeta, oldRate: nat, newRate: nat, timestamp: nat, totalStaked: nat)

  datatype RewardsClaimedEvent = RewardsClaimedEvent(
    meta: EventMeta, user: Addr, amount: nat, timestamp: nat, newPendingRewards: nat, totalStaked: nat)

  datatype StakedEvent = StakedEvent(
    meta: EventMeta, user: Addr, amount: nat, timestamp: nat, newTotalStaked: nat, currentRewardRate: nat)

  datatype StakingInitializedEvent = StakingInitializedEvent(
    meta: EventMeta, stakingToken: Bytes, initialRewardRate: nat, timestamp: nat)

  datatype WithdrawnEvent = WithdrawnEvent(
    meta: EventMeta, user: Addr, amount: nat, timestamp: nat, newTotalStaked: nat,
    currentRewardRate: nat, rewardsAccrued: nat)

  // ---------------------------------------------------------------------------
  // Write-once event records: every parameter of the event, the block number
  // and timestamp, and the transaction hash.

  datatype EmergencyWithdrawnRecord = EmergencyWithdrawnRecord(
    user: Addr, amount: nat, penalty: nat, timestamp: nat, newTotalStaked: nat,
    blockNumber: nat, blockTimestamp: nat, transactionHash: Bytes)

  datatype RewardRateUpdatedRecord = RewardRateUpdatedRecord(
    oldRate: nat, newRate: nat, timestamp: nat, totalStaked: nat,
    blockNumber: nat, blockTimestamp: nat, transactionHash: Bytes)

  datatype RewardsClaimedRecord = RewardsClaimedRecord(
    user: Addr, amount: nat, timestamp: nat, newPendingRewards: nat, totalStaked: nat,
    blockNumber: nat, blockTimestamp: nat, transactionHash: Bytes)

  datatype StakedRecord = StakedRecord(
    user: Addr, amount: nat, timestamp: nat, newTotalStaked: nat, currentRewardRate: nat,
    blockNumber: nat, blockTimestamp: nat, transactionHash: Bytes)

  datatype StakingInitializedRecord = StakingInitializedRecord(
    stakingToken: Bytes, initialRewardRate: nat, timestamp: nat,
    blockNumber: nat, blockTimestamp: nat, transactionHash: Bytes)

  datatype WithdrawnRecord = WithdrawnRecord(
    user: Addr, amount: nat, timestamp: nat, newTotalStaked: nat, currentRewardRate: nat,
    rewardsAccrued: nat, blockNumber: nat, blockTimestamp: nat, transactionHash: Bytes)

  // The record each handler saves, copied field for field from its event.

  function EmergencyWithdrawnRecordOf(e: EmergencyWithdrawnEvent): EmergencyWithdrawnRecord {
    EmergencyWithdrawnRecord(e.user, e.amount, e.penalty, e.timestamp, e.newTotalStaked,
                             e.meta.blockNumber, e.meta.blockTimestamp, e.meta.txHash)
  }

  function RewardRateUpdatedRecordOf(e: RewardRateUpdatedEvent): RewardRateUpdatedRecord {
    RewardRateUpdatedRecord(e.oldRate, e.newRate, e.timestamp, e.totalStaked,
                            e.meta.blockNumber, e.meta.blockTimestamp, e.meta.txHash)
  }

  function RewardsClaimedRecordOf(e: RewardsClaimedEvent): RewardsClaimedRecord {
    RewardsClaimedRecord(e.user, e.amount, e.timestamp, e.newPendingRewards, e.totalStaked,
                         e.meta.blockNumber, e.meta.blockTimestamp, e.meta.txHash)
  }

  function StakedRecordOf(e: StakedEvent): StakedRecord {
    StakedRecord(e.user, e.amount, e.timestamp, e.newTotalStaked, e.currentRewardRate,
                 e.meta.blockNumber, e.meta.blockTimestamp, e.meta.txHash)
  }

  function StakingInitializedRecordOf(e: StakingInitializedEvent): StakingInitializedRecord {
    StakingInitializedRecord(e.stakingToken, e.initialRewardRate, e.timestamp,
                             e.meta.blockNumber, e.meta.blockTimestamp, e.meta.txHash)
  }

  function WithdrawnRecordOf(e: WithdrawnEvent): WithdrawnRecord {
    WithdrawnRecord(e.user, e.amount, e.timestamp, e.newTotalStaked, e.currentRewardRate,
                    e.rewardsAccrued, e.meta.blockNumber, e.meta.blockTimestamp, e.meta.txHash)
  }
}
