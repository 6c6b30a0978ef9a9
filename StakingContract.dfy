/**
 * The staking mapping as the source runs it: every handler loads entities
 * from the shared store, assigns their fields and saves them back. Loading
 * yields a copy (entities are values); saving is an upsert under the entity's
 * id, with no duplicate check.
 *
 * Each method is proved to leave the store exactly as the matching function of
 * StoreSpec says, so the properties proved there hold of these methods.
 */
module StakingContract {
  import opened Entities
  import opened Apr
  import opened StoreSpec

  class Store {
    var users: map<Addr, User>
    var positions: map<LogId, StakePosition>
    /** The single ProtocolMetrics row, stored under the fixed id "protocol-metrics", if saved yet. */
    var metrics: Option<ProtocolMetrics>
    var emergencyWithdrawns: map<LogId, EmergencyWithdrawnRecord>
    var rewardRateUpdates: map<LogId, RewardRateUpdatedRecord>
    var rewardsClaims: map<LogId, RewardsClaimedRecord>
    var stakes: map<LogId, StakedRecord>
    var stakingInitializations: map<LogId, StakingInitializedRecord>
    var withdrawals: map<LogId, WithdrawnRecord>

    /** The whole store as a value. */
    function Snapshot(): StoreState
      reads this
    {
      StoreState(users, positions, metrics,
                 EventRecords(emergencyWithdrawns, rewardRateUpdates, rewardsClaims,
                              stakes, stakingInitializations, withdrawals))
    }

    /** A store in which nothing has been saved. */
    constructor ()
      ensures Snapshot() == EMPTY_STORE
    {
      users, positions, metrics := map[], map[], None;
      emergencyWithdrawns, rewardRateUpdates, rewardsClaims := map[], map[], map[];
      stakes, stakingInitializations, withdrawals := map[], map[], map[];
    }

    /**
     * The stored metrics, or fresh ones with every number 0 and an empty
     * staking token. Saves nothing: the caller saves what it changes.
     */
    method GetOrCreateProtocolMetrics() returns (m: ProtocolMetrics)
      ensures metrics.Some? ==> m == metrics.value
      ensures metrics.None? ==> m == DEFAULT_METRICS
    {
      var loaded := metrics;
      if loaded.None? {
        m := DEFAULT_METRICS;
      } else {
        m := loaded.value;
      }
    }

    /**
     * The stored user of `address`; a new address is saved with every field 0
     * and counted in the metrics' totalUsers.
     */
    method GetOrCreateUser(address: Addr) returns (user: User)
      modifies this
      ensures Snapshot() == ResolveUser(old(Snapshot()), address)
      ensures user == LoadUser(old(Snapshot()), address)
      ensures address in users && users[address] == user
    {
      var loaded := if address in users then Some(users[address]) else None;
      if loaded.None? {
        user := NEW_USER;
        users := users[address := user];
        var m := GetOrCreateProtocolMetrics();
        m := m.(totalUsers := m.totalUsers + 1);
        metrics := Some(m);
      } else {
        user := loaded.value;
      }
    }

    /** Saves the position opened by stake event `e` and counts it in the metrics. */
    method CreateStakePosition(e: StakedEvent) returns (position: StakePosition)
      modifies this
      ensures Snapshot() == CreateStakePositionStep(old(Snapshot()), e)
      ensures EventId(e.meta) in positions && positions[EventId(e.meta)] == position
    {
      var id := EventId(e.meta);
      var user := GetOrCreateUser(e.user);
      // The position refers to its user by the user's id, which is its address.
      position := StakePosition(e.user, e.amount, e.timestamp, e.timestamp + LOCK_PERIOD, false, 0, 0);
      positions := positions[id := position];

      var m := GetOrCreateProtocolMetrics();
      m := m.(totalStakePositions := m.totalStakePositions + 1);
      metrics := Some(m);
    }

    method HandleEmergencyWithdrawn(e: EmergencyWithdrawnEvent)
      modifies this
      ensures Snapshot() == EmergencyWithdrawnStep(old(Snapshot()), e)
    {
      // Resolved so that the record's user exists; the user itself is not changed.
      var user := GetOrCreateUser(e.user);
      emergencyWithdrawns := emergencyWithdrawns[EventId(e.meta) := EmergencyWithdrawnRecordOf(e)];
    }

    method HandleRewardRateUpdated(e: RewardRateUpdatedEvent)
      modifies this
      ensures Snapshot() == RewardRateUpdatedStep(old(Snapshot()), e)
    {
      rewardRateUpdates := rewardRateUpdates[EventId(e.meta) := RewardRateUpdatedRecordOf(e)];

      var m := GetOrCreateProtocolMetrics();
      m := m.(currentRewardRate := e.newRate);
      m := m.(totalStaked := e.totalStaked);
      m := m.(lastUpdateTimestamp := e.timestamp);
      m := m.(apr := CalculateApr(e.newRate, e.totalStaked));
      metrics := Some(m);
    }

    method HandleRewardsClaimed(e: RewardsClaimedEvent)
      modifies this
      ensures Snapshot() == RewardsClaimedStep(old(Snapshot()), e)
    {
      var user := GetOrCreateUser(e.user);
      rewardsClaims := rewardsClaims[EventId(e.meta) := RewardsClaimedRecordOf(e)];

      user := user.(totalRewardsClaimed := user.totalRewardsClaimed + e.amount);
      user := user.(pendingRewards := e.newPendingRewards);
      user := user.(lastUpdateTimestamp := e.timestamp);
      users := users[e.user := user];

      var m := GetOrCreateProtocolMetrics();
      m := m.(totalRewardsClaimed := m.totalRewardsClaimed + e.amount);
      m := m.(totalStaked := e.totalStaked);
      m := m.(lastUpdateTimestamp := e.timestamp);
      metrics := Some(m);
    }

    method HandleStaked(e: StakedEvent)
      modifies this
      ensures Snapshot() == StakedStep(old(Snapshot()), e)
    {
      var user := GetOrCreateUser(e.user);
      stakes := stakes[EventId(e.meta) := StakedRecordOf(e)];

      user := user.(totalStaked := user.totalStaked + e.amount);
      user := user.(lastUpdateTimestamp := e.timestamp);
      users := users[e.user := user];

      var position := CreateStakePosition(e);

      var m := GetOrCreateProtocolMetrics();
      m := m.(totalStaked := e.newTotalStaked);
      m := m.(currentRewardRate := e.currentRewardRate);
      m := m.(lastUpdateTimestamp := e.timestamp);
      m := m.(apr := CalculateApr(e.currentRewardRate, e.newTotalStaked));
      metrics := Some(m);
    }

    method HandleStakingInitialized(e: StakingInitializedEvent)
      modifies this
      ensures Snapshot() == StakingInitializedStep(old(Snapshot()), e)
    {
      stakingInitializations := stakingInitializations[EventId(e.meta) := StakingInitializedRecordOf(e)];

      var m := GetOrCreateProtocolMetrics();
      m := m.(stakingToken := e.stakingToken);
      m := m.(currentRewardRate := e.initialRewardRate);
      m := m.(lastUpdateTimestamp := e.timestamp);
      metrics := Some(m);
    }

    method HandleWithdrawn(e: WithdrawnEvent)
      modifies this
      ensures Snapshot() == WithdrawnStep(old(Snapshot()), e)
    {
      var user := GetOrCreateUser(e.user);
      withdrawals := withdrawals[EventId(e.meta) := WithdrawnRecordOf(e)];

      user := user.(totalWithdrawn := user.totalWithdrawn + e.amount);
      user := user.(lastUpdateTimestamp := e.timestamp);
      users := users[e.user := user];

      var m := GetOrCreateProtocolMetrics();
      m := m.(totalWithdrawn := m.totalWithdrawn + e.amount);
      m := m.(totalStaked := e.newTotalStaked);
      m := m.(currentRewardRate := e.currentRewardRate);
      m := m.(lastUpdateTimestamp := e.timestamp);
      metrics := Some(m);
    }
  }
}
