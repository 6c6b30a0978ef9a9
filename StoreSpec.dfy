/**
 * The entity store as a value, and the effect of every operation of the
 * staking mapping as a function from the store before to the store after.
 *
 * Each function follows the source's own load / assign / save sequence; its
 * contract states the net effect field by field: which running sums grow, which
 * snapshots are overwritten with the event's value, and what is left alone.
 * The class in StakingContract.dfy is proved to perform exactly these steps.
 */
module StoreSpec {
  import opened Entities
  import opened Apr

  /** The write-once record tables, one per event kind, keyed by event id. */
  datatype EventRecords = EventRecords(
    emergencyWithdrawns: map<LogId, EmergencyWithdrawnRecord>,
    rewardRateUpdates: map<LogId, RewardRateUpdatedRecord>,
    rewardsClaims: map<LogId, RewardsClaimedRecord>,
    stakes: map<LogId, StakedRecord>,
    stakingInitializations: map<LogId, StakingInitializedRecord>,
    withdrawals: map<LogId, WithdrawnRecord>)

  /**
   * Every table of the store. `metrics` is the one row stored under the
   * fixed id "protocol-metrics", absent until some operation first saves it.
   */
  datatype StoreState = StoreState(
    users: map<Addr, User>,
    positions: map<LogId, StakePosition>,
    metrics: Option<ProtocolMetrics>,
    records: EventRecords)

  const NO_RECORDS := EventRecords(map[], map[], map[], map[], map[], map[])

  const EMPTY_STORE := StoreState(map[], map[], None, NO_RECORDS)

  /** A user seen for the first time: every total and the timestamp are 0. */
  const NEW_USER := User(0, 0, 0, 0, 0)

  /** The metrics used while none is stored: every number 0, no staking token. */
  const DEFAULT_METRICS := ProtocolMetrics(0, 0, 0, 0, 0, 0, 0, 0, [])

  // ---------------------------------------------------------------------------
  // Reading the store

  /** What getOrCreateProtocolMetrics returns: the stored singleton, or the default. */
  function LoadMetrics(s: StoreState): ProtocolMetrics {
    if s.metrics.Some? then s.metrics.value else DEFAULT_METRICS
  }

  /** The user getOrCreateUser returns for `address`: the stored one, or a new one. */
  function LoadUser(s: StoreState, address: Addr): User {
    if address in s.users then s.users[address] else NEW_USER
  }

  /** 1 when resolving `address` creates its User, 0 when it is already stored. */
  function UsersAdded(s: StoreState, address: Addr): nat {
    if address in s.users then 0 else 1
  }

  /** Referential integrity: every position and every record names a stored User. */
  ghost predicate Valid(s: StoreState) {
    && (forall id | id in s.positions :: s.positions[id].user in s.users)
    && (forall id | id in s.records.emergencyWithdrawns :: s.records.emergencyWithdrawns[id].user in s.users)
    && (forall id | id in s.records.rewardsClaims :: s.records.rewardsClaims[id].user in s.users)
    && (forall id | id in s.records.stakes :: s.records.stakes[id].user in s.users)
    && (forall id | id in s.records.withdrawals :: s.records.withdrawals[id].user in s.users)
  }

  /** The metrics' counters agree with the tables they count. */
  ghost predicate UsersCounted(s: StoreState) {
    LoadMetrics(s).totalUsers == |s.users|
  }

  ghost predicate PositionsCounted(s: StoreState) {
    LoadMetrics(s).totalStakePositions == |s.positions|
  }

  /**
   * `after` is `before` with the position of stake event `e` saved under the
   * event's id: locked for LOCK_PERIOD from the stake time, open, nothing
   * claimed or pending.
   */
  ghost predicate OpensPosition(before: map<LogId, StakePosition>, after: map<LogId, StakePosition>, e: StakedEvent) {
    var id := EventId(e.meta);
    && id in after
    && after == before[id := after[id]]
    && after[id].user == e.user
    && after[id].amount == e.amount
    && after[id].timestamp == e.timestamp
    && after[id].unlockTime == e.timestamp + LOCK_PERIOD
    && !after[id].isWithdrawn
    && after[id].rewardsClaimed == 0
    && after[id].pendingRewards == 0
  }

  // ---------------------------------------------------------------------------
  // Resolvers and the position factory

  /**
   * getOrCreateUser: a stored address changes nothing; a new one is saved as
   * NEW_USER and bumps totalUsers by one, leaving every other metric as it was.
   */
  function ResolveUser(s: StoreState, address: Addr): (r: StoreState)
    ensures r.users == s.users[address := LoadUser(s, address)]
    ensures LoadMetrics(r) == LoadMetrics(s).(totalUsers := LoadMetrics(s).totalUsers + UsersAdded(s, address))
    ensures address in s.users ==> r == s
    ensures address !in s.users ==> r.metrics.Some?
    ensures r.positions == s.positions && r.records == s.records
  {
    if address in s.users then s
    else
      var saved := s.(users := s.users[address := NEW_USER]);
      var m := LoadMetrics(saved);
      saved.(metrics := Some(m.(totalUsers := m.totalUsers + 1)))
  }

  /**
   * createStakePosition: resolves the staker, saves the new position under the
   * event's id and bumps totalStakePositions by one.
   */
  function CreateStakePositionStep(s: StoreState, e: StakedEvent): (r: StoreState)
    ensures r.users == s.users[e.user := LoadUser(s, e.user)]
    ensures OpensPosition(s.positions, r.positions, e)
    ensures LoadMetrics(r) == LoadMetrics(s).(
      totalUsers := LoadMetrics(s).totalUsers + UsersAdded(s, e.user),
      totalStakePositions := LoadMetrics(s).totalStakePositions + 1)
    ensures r.metrics.Some?
    ensures r.records == s.records
  {
    var id := EventId(e.meta);
    var s1 := ResolveUser(s, e.user);
    var position := StakePosition(e.user, e.amount, e.timestamp, e.timestamp + LOCK_PERIOD, false, 0, 0);
    var s2 := s1.(positions := s1.positions[id := position]);
    var m := LoadMetrics(s2);
    s2.(metrics := Some(m.(totalStakePositions := m.totalStakePositions + 1)))
  }

  // ---------------------------------------------------------------------------
  // Handlers

  /** handleEmergencyWithdrawn: the record, and the staker resolved; no totals change. */
  function EmergencyWithdrawnStep(s: StoreState, e: EmergencyWithdrawnEvent): (r: StoreState)
    ensures r.users == s.users[e.user := LoadUser(s, e.user)]
    ensures r.positions == s.positions
    ensures LoadMetrics(r) == LoadMetrics(s).(totalUsers := LoadMetrics(s).totalUsers + UsersAdded(s, e.user))
    ensures e.user in s.users ==> r.metrics == s.metrics
    ensures r.records == s.records.(emergencyWithdrawns :=
      s.records.emergencyWithdrawns[EventId(e.meta) := EmergencyWithdrawnRecordOf(e)])
  {
    var s1 := ResolveUser(s, e.user);
    s1.(records := s1.records.(emergencyWithdrawns :=
      s1.records.emergencyWithdrawns[EventId(e.meta) := EmergencyWithdrawnRecordOf(e)]))
  }

  /**
   * handleRewardRateUpdated: metrics only; the rate and the stake are the
   * event's, and the APR is recomputed from them.
   */
  function RewardRateUpdatedStep(s: StoreState, e: RewardRateUpdatedEvent): (r: StoreState)
    ensures r.users == s.users && r.positions == s.positions
    ensures r.metrics == Some(LoadMetrics(s).(
      currentRewardRate := e.newRate,
      totalStaked := e.totalStaked,
      lastUpdateTimestamp := e.timestamp,
      apr := CalculateApr(e.newRate, e.totalStaked)))
    ensures r.records == s.records.(rewardRateUpdates :=
      s.records.rewardRateUpdates[EventId(e.meta) := RewardRateUpdatedRecordOf(e)])
  {
    var s1 := s.(records := s.records.(rewardRateUpdates :=
      s.records.rewardRateUpdates[EventId(e.meta) := RewardRateUpdatedRecordOf(e)]));
    var m := LoadMetrics(s1);
    s1.(metrics := Some(m.(
      currentRewardRate := e.newRate,
      totalStaked := e.totalStaked,
      lastUpdateTimestamp := e.timestamp,
      apr := CalculateApr(e.newRate, e.totalStaked))))
  }

  /**
   * handleRewardsClaimed: the claimed amount is added to the user's and the
   * protocol's claimed totals; pending rewards and the protocol's stake are
   * overwritten with the event's; the APR and every position are left alone.
   */
  function RewardsClaimedStep(s: StoreState, e: RewardsClaimedEvent): (r: StoreState)
    ensures e.user in r.users && r.users == s.users[e.user := r.users[e.user]]
    ensures r.users[e.user] == LoadUser(s, e.user).(
      totalRewardsClaimed := LoadUser(s, e.user).totalRewardsClaimed + e.amount,
      pendingRewards := e.newPendingRewards,
      lastUpdateTimestamp := e.timestamp)
    ensures r.positions == s.positions
    ensures r.metrics == Some(LoadMetrics(s).(
      totalUsers := LoadMetrics(s).totalUsers + UsersAdded(s, e.user),
      totalRewardsClaimed := LoadMetrics(s).totalRewardsClaimed + e.amount,
      totalStaked := e.totalStaked,
      lastUpdateTimestamp := e.timestamp))
    ensures r.records == s.records.(rewardsClaims :=
      s.records.rewardsClaims[EventId(e.meta) := RewardsClaimedRecordOf(e)])
  {
    var s1 := ResolveUser(s, e.user);
    var user := s1.users[e.user];
    var s2 := s1.(records := s1.records.(rewardsClaims :=
      s1.records.rewardsClaims[EventId(e.meta) := RewardsClaimedRecordOf(e)]));
    var s3 := s2.(users := s2.users[e.user := user.(
      totalRewardsClaimed := user.totalRewardsClaimed + e.amount,
      pendingRewards := e.newPendingRewards,
      lastUpdateTimestamp := e.timestamp)]);
    var m := LoadMetrics(s3);
    s3.(metrics := Some(m.(
      totalRewardsClaimed := m.totalRewardsClaimed + e.amount,
      totalStaked := e.totalStaked,
      lastUpdateTimestamp := e.timestamp)))
  }

  /**
   * handleStaked: the user's stake grows by the amount, a position is opened,
   * and the metrics take the contract's stake and rate, with the APR derived
   * from them. The totalUsers and totalStakePositions increments made by the
   * resolver and the factory are kept, because metrics are loaded afresh.
   */
  function StakedStep(s: StoreState, e: StakedEvent): (r: StoreState)
    ensures e.user in r.users && r.users == s.users[e.user := r.users[e.user]]
    ensures r.users[e.user] == LoadUser(s, e.user).(
      totalStaked := LoadUser(s, e.user).totalStaked + e.amount,
      lastUpdateTimestamp := e.timestamp)
    ensures OpensPosition(s.positions, r.positions, e)
    ensures r.metrics == Some(LoadMetrics(s).(
      totalUsers := LoadMetrics(s).totalUsers + UsersAdded(s, e.user),
      totalStakePositions := LoadMetrics(s).totalStakePositions + 1,
      totalStaked := e.newTotalStaked,
      currentRewardRate := e.currentRewardRate,
      lastUpdateTimestamp := e.timestamp,
      apr := CalculateApr(e.currentRewardRate, e.newTotalStaked)))
    ensures r.records == s.records.(stakes := s.records.stakes[EventId(e.meta) := StakedRecordOf(e)])
  {
    var s1 := ResolveUser(s, e.user);
    var user := s1.users[e.user];
    var s2 := s1.(records := s1.records.(stakes := s1.records.stakes[EventId(e.meta) := StakedRecordOf(e)]));
    var s3 := s2.(users := s2.users[e.user := user.(
      totalStaked := user.totalStaked + e.amount,
      lastUpdateTimestamp := e.timestamp)]);
    var s4 := CreateStakePositionStep(s3, e);
    var m := LoadMetrics(s4);
    s4.(metrics := Some(m.(
      totalStaked := e.newTotalStaked,
      currentRewardRate := e.currentRewardRate,
      lastUpdateTimestamp := e.timestamp,
      apr := CalculateApr(e.currentRewardRate, e.newTotalStaked))))
  }

  /**
   * handleStakingInitialized: metrics only; the staking token, the initial
   * rate and the timestamp are set, every total and the APR are kept.
   */
  function StakingInitializedStep(s: StoreState, e: StakingInitializedEvent): (r: StoreState)
    ensures r.users == s.users && r.positions == s.positions
    ensures r.metrics == Some(LoadMetrics(s).(
      stakingToken := e.stakingToken,
      currentRewardRate := e.initialRewardRate,
      lastUpdateTimestamp := e.timestamp))
    ensures r.records == s.records.(stakingInitializations :=
      s.records.stakingInitializations[EventId(e.meta) := StakingInitializedRecordOf(e)])
  {
    var s1 := s.(records := s.records.(stakingInitializations :=
      s.records.stakingInitializations[EventId(e.meta) := StakingInitializedRecordOf(e)]));
    var m := LoadMetrics(s1);
    s1.(metrics := Some(m.(
      stakingToken := e.stakingToken,
      currentRewardRate := e.initialRewardRate,
      lastUpdateTimestamp := e.timestamp)))
  }

  /**
   * handleWithdrawn: the amount is added to the user's and the protocol's
   * withdrawn totals; the stake and rate are overwritten with the event's; the
   * APR is not recomputed and no position is closed.
   */
  function WithdrawnStep(s: StoreState, e: WithdrawnEvent): (r: StoreState)
    ensures e.user in r.users && r.users == s.users[e.user := r.users[e.user]]
    ensures r.users[e.user] == LoadUser(s, e.user).(
      totalWithdrawn := LoadUser(s, e.user).totalWithdrawn + e.amount,
      lastUpdateTimestamp := e.timestamp)
    ensures r.positions == s.positions
    ensures r.metrics == Some(LoadMetrics(s).(
      totalUsers := LoadMetrics(s).totalUsers + UsersAdded(s, e.user),
      totalWithdrawn := LoadMetrics(s).totalWithdrawn + e.amount,
      totalStaked := e.newTotalStaked,
      currentRewardRate := e.currentRewardRate,
      lastUpdateTimestamp := e.timestamp))
    ensures r.records == s.records.(withdrawals := s.records.withdrawals[EventId(e.meta) := WithdrawnRecordOf(e)])
  {
    var s1 := ResolveUser(s, e.user);
    var user := s1.users[e.user];
    var s2 := s1.(records := s1.records.(withdrawals := s1.records.withdrawals[EventId(e.meta) := WithdrawnRecordOf(e)]));
    var s3 := s2.(users := s2.users[e.user := user.(
      totalWithdrawn := user.totalWithdrawn + e.amount,
      lastUpdateTimestamp := e.timestamp)]);
    var m := LoadMetrics(s3);
    s3.(metrics := Some(m.(
      totalWithdrawn := m.totalWithdrawn + e.amount,
      totalStaked := e.newTotalStaked,
      currentRewardRate := e.currentRewardRate,
      lastUpdateTimestamp := e.timestamp)))
  }
}
