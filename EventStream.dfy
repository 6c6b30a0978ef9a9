/**
 * Handlers applied one at a time to an ordered stream of events, and what
 * holds of the store after any such stream: the integrity of references, and
 * the metrics' user and position counters against the tables they count.
 */
module EventStream {
  import opened Entities
  import opened Apr
  import opened StoreSpec

  /** One decoded event of any kind the mapping handles. */
  datatype Event =
    | EmergencyWithdrawn(emergencyWithdrawn: EmergencyWithdrawnEvent)
    | RewardRateUpdated(rewardRateUpdated: RewardRateUpdatedEvent)
    | RewardsClaimed(rewardsClaimed: RewardsClaimedEvent)
    | Staked(staked: StakedEvent)
    | StakingInitialized(stakingInitialized: StakingInitializedEvent)
    | Withdrawn(withdrawn: WithdrawnEvent)

  /** The handler the host invokes for `ev`. */
  function Step(s: StoreState, ev: Event): StoreState {
    match ev
    case EmergencyWithdrawn(e) => EmergencyWithdrawnStep(s, e)
    case RewardRateUpdated(e) => RewardRateUpdatedStep(s, e)
    case RewardsClaimed(e) => RewardsClaimedStep(s, e)
    case Staked(e) => StakedStep(s, e)
    case StakingInitialized(e) => StakingInitializedStep(s, e)
    case Withdrawn(e) => WithdrawnStep(s, e)
  }

  /** The store after handling `evs` in order, starting from `s`. */
  function Run(s: StoreState, evs: seq<Event>): StoreState
    decreases |evs|
  {
    if evs == [] then s else Run(Step(s, evs[0]), evs[1..])
  }

  /** The address an event carries, if it carries one. */
  function Participant(ev: Event): set<Addr> {
    match ev
    case EmergencyWithdrawn(e) => {e.user}
    case RewardsClaimed(e) => {e.user}
    case Staked(e) => {e.user}
    case Withdrawn(e) => {e.user}
    case _ => {}
  }

  /** Every distinct address carried by the events of `evs`. */
  function Participants(evs: seq<Event>): set<Addr>
    decreases |evs|
  {
    if evs == [] then {} else Participant(evs[0]) + Participants(evs[1..])
  }

  /** The position id a Staked event opens; none for other events. */
  function OpenedIds(ev: Event): set<LogId> {
    if ev.Staked? then {EventId(ev.staked.meta)} else {}
  }

  /** The number of Staked events in `evs`. */
  function StakedCount(evs: seq<Event>): nat
    decreases |evs|
  {
    if evs == [] then 0 else (if evs[0].Staked? then 1 else 0) + StakedCount(evs[1..])
  }

  /**
   * Every Staked event of `evs` has a position id that is neither in `taken`
   * nor used by an earlier Staked event of `evs`: the at-most-once delivery the
   * host promises.
   */
  ghost predicate FreshStakeIds(taken: set<LogId>, evs: seq<Event>)
    decreases |evs|
  {
    if evs == [] then true
    else
      && OpenedIds(evs[0]) !! taken
      && FreshStakeIds(taken + OpenedIds(evs[0]), evs[1..])
  }

  // ---------------------------------------------------------------------------
  // One event

  /** Every handler keeps every position and record pointing at a stored User. */
  lemma StepKeepsValid(s: StoreState, ev: Event)
    requires Valid(s)
    ensures Valid(Step(s, ev))
  {
    var r := Step(s, ev);
    assert s.users.Keys <= r.users.Keys;
  }

  /**
   * A handler adds to the user table exactly the address its event carries,
   * and counts it in totalUsers exactly when it is new.
   */
  lemma StepCountsUsers(s: StoreState, ev: Event)
    ensures Step(s, ev).users.Keys == s.users.Keys + Participant(ev)
    ensures LoadMetrics(Step(s, ev)).totalUsers == LoadMetrics(s).totalUsers + |Participant(ev) - s.users.Keys|
    ensures UsersCounted(s) ==> UsersCounted(Step(s, ev))
  {
    match ev
    case EmergencyWithdrawn(e) => UserResolved(s, EmergencyWithdrawnStep(s, e), e.user);
    case RewardRateUpdated(e) => assert Step(s, ev).users == s.users;
    case RewardsClaimed(e) => UserResolved(s, RewardsClaimedStep(s, e), e.user);
    case Staked(e) => UserResolved(s, StakedStep(s, e), e.user);
    case StakingInitialized(e) => assert Step(s, ev).users == s.users;
    case Withdrawn(e) => UserResolved(s, WithdrawnStep(s, e), e.user);
  }

  /** Resolving `address` into `r` counts it exactly when the table grows. */
  lemma UserResolved(s: StoreState, r: StoreState, address: Addr)
    requires address in r.users && r.users == s.users[address := r.users[address]]
    requires LoadMetrics(r).totalUsers == LoadMetrics(s).totalUsers + UsersAdded(s, address)
    ensures r.users.Keys == s.users.Keys + {address}
    ensures LoadMetrics(r).totalUsers == LoadMetrics(s).totalUsers + |{address} - s.users.Keys|
    ensures UsersCounted(s) ==> UsersCounted(r)
  {
    assert {address} - s.users.Keys == if address in s.users then {} else {address};
  }

  /**
   * Only a Staked event touches positions: it saves one under its id and
   * counts it, whether or not that id was already stored.
   */
  lemma StepCountsPositions(s: StoreState, ev: Event)
    ensures Step(s, ev).positions.Keys == s.positions.Keys + OpenedIds(ev)
    ensures LoadMetrics(Step(s, ev)).totalStakePositions
         == LoadMetrics(s).totalStakePositions + (if ev.Staked? then 1 else 0)
  {
  }

  // ---------------------------------------------------------------------------
  // Any number of events

  lemma {:induction false} RunKeepsValid(s: StoreState, evs: seq<Event>)
    requires Valid(s)
    ensures Valid(Run(s, evs))
    decreases |evs|
  {
    if evs != [] {
      StepKeepsValid(s, evs[0]);
      RunKeepsValid(Step(s, evs[0]), evs[1..]);
    }
  }

  /**
   * The user table grows by exactly the addresses the events carry, and
   * totalUsers keeps counting it.
   */
  lemma {:induction false} RunCountsUsers(s: StoreState, evs: seq<Event>)
    requires UsersCounted(s)
    ensures Run(s, evs).users.Keys == s.users.Keys + Participants(evs)
    ensures UsersCounted(Run(s, evs))
    decreases |evs|
  {
    if evs != [] {
      StepCountsUsers(s, evs[0]);
      RunCountsUsers(Step(s, evs[0]), evs[1..]);
      assert Participants(evs) == Participant(evs[0]) + Participants(evs[1..]);
    }
  }

  /** totalStakePositions grows by one per Staked event, fresh id or not. */
  lemma {:induction false} RunCountsStakes(s: StoreState, evs: seq<Event>)
    ensures LoadMetrics(Run(s, evs)).totalStakePositions == LoadMetrics(s).totalStakePositions + StakedCount(evs)
    decreases |evs|
  {
    if evs != [] {
      StepCountsPositions(s, evs[0]);
      RunCountsStakes(Step(s, evs[0]), evs[1..]);
    }
  }

  /** With fresh position ids, totalStakePositions keeps counting the position table. */
  lemma {:induction false} RunCountsPositions(s: StoreState, evs: seq<Event>)
    requires PositionsCounted(s)
    requires FreshStakeIds(s.positions.Keys, evs)
    ensures PositionsCounted(Run(s, evs))
    decreases |evs|
  {
    if evs != [] {
      var ev := evs[0];
      var next := Step(s, ev);
      StepCountsPositions(s, ev);
      if ev.Staked? {
        var id := EventId(ev.staked.meta);
        assert id !in s.positions;
        assert next.positions == s.positions[id := next.positions[id]];
      }
      RunCountsPositions(next, evs[1..]);
    }
  }

  /**
   * From an empty store: every reference is intact, totalUsers is the number
   * of distinct addresses seen, totalStakePositions the number of Staked
   * events, and with fresh ids also the number of stored positions.
   */
  lemma FromEmptyStore(evs: seq<Event>)
    ensures Valid(Run(EMPTY_STORE, evs))
    ensures Run(EMPTY_STORE, evs).users.Keys == Participants(evs)
    ensures LoadMetrics(Run(EMPTY_STORE, evs)).totalUsers == |Participants(evs)|
    ensures LoadMetrics(Run(EMPTY_STORE, evs)).totalStakePositions == StakedCount(evs)
    ensures FreshStakeIds({}, evs) ==> PositionsCounted(Run(EMPTY_STORE, evs))
  {
    var r := Run(EMPTY_STORE, evs);
    RunKeepsValid(EMPTY_STORE, evs);
    RunCountsUsers(EMPTY_STORE, evs);
    assert |r.users| == |r.users.Keys|;
    RunCountsStakes(EMPTY_STORE, evs);
    if FreshStakeIds({}, evs) {
      assert EMPTY_STORE.positions.Keys == {};
      RunCountsPositions(EMPTY_STORE, evs);
    }
  }

  /**
   * Saves are upserts: a Staked event delivered twice counts its position
   * twice but stores it once, and adds its amount to the user's stake twice.
   */
  lemma ReplayedStakeIsCountedTwice(s: StoreState, e: StakedEvent)
    requires PositionsCounted(s)
    requires EventId(e.meta) !in s.positions
    ensures var twice := StakedStep(StakedStep(s, e), e);
      && LoadMetrics(twice).totalStakePositions == |twice.positions| + 1
      && twice.users[e.user].totalStaked == LoadUser(s, e.user).totalStaked + 2 * e.amount
  {
    var once := StakedStep(s, e);
    var id := EventId(e.meta);
    assert once.positions == s.positions[id := once.positions[id]];
    assert |once.positions| == |s.positions| + 1;
    var twice := StakedStep(once, e);
    assert twice.positions == once.positions[id := twice.positions[id]];
    assert twice.positions.Keys == once.positions.Keys;
  }

  // ---------------------------------------------------------------------------
  // Worked scenarios

  /** A first stake into an empty store creates the user, its position and the metrics. */
  lemma FirstStakeScenario()
    ensures var a: Addr := [0x0a];
      var e := StakedEvent(EventMeta([0x01], 0, 1, 1000), a, 100, 1000, 100, 10);
      var r := Run(EMPTY_STORE, [Staked(e)]);
      && a in r.users && r.users[a].totalStaked == 100
      && LogId([0x01], 0) in r.positions && r.positions[LogId([0x01], 0)].unlockTime == 2593000
      && LoadMetrics(r).totalStaked == 100
      && LoadMetrics(r).totalStakePositions == 1
      && LoadMetrics(r).totalUsers == 1
      && LoadMetrics(r).apr == 315360000
  {
  }

  /**
   * After that stake, a claim overwrites pending rewards and adds to the claimed
   * totals; a withdrawal adds to the withdrawn totals and overwrites the stake.
   */
  lemma ClaimAndWithdrawScenario()
    ensures var a: Addr := [0x0a];
      var stake := StakedEvent(EventMeta([0x01], 0, 1, 1000), a, 100, 1000, 100, 10);
      var claim := RewardsClaimedEvent(EventMeta([0x02], 0, 2, 2000), a, 5, 2000, 0, 100);
      var withdraw := WithdrawnEvent(EventMeta([0x03], 0, 3, 3000), a, 50, 3000, 50, 10, 0);
      var afterClaim := Run(EMPTY_STORE, [Staked(stake), RewardsClaimed(claim)]);
      var afterWithdraw := Step(afterClaim, Withdrawn(withdraw));
      && a in afterClaim.users
      && afterClaim.users[a].totalRewardsClaimed == 5
      && afterClaim.users[a].pendingRewards == 0
      && LoadMetrics(afterClaim).totalRewardsClaimed == 5
      && a in afterWithdraw.users
      && afterWithdraw.users[a].totalWithdrawn == 50
      && LoadMetrics(afterWithdraw).totalStaked == 50
      && LoadMetrics(afterWithdraw).totalUsers == 1
  {
    var a: Addr := [0x0a];
    var stake := StakedEvent(EventMeta([0x01], 0, 1, 1000), a, 100, 1000, 100, 10);
    var claim := RewardsClaimedEvent(EventMeta([0x02], 0, 2, 2000), a, 5, 2000, 0, 100);
    var afterStake := Step(EMPTY_STORE, Staked(stake));
    assert Run(EMPTY_STORE, [Staked(stake), RewardsClaimed(claim)]) == Run(afterStake, [RewardsClaimed(claim)]);
    assert Run(afterStake, [RewardsClaimed(claim)]) == Step(afterStake, RewardsClaimed(claim));
  }

  /** Two stakes from one new address and one from a known address add one user. */
  lemma RepeatAddressScenario(s: StoreState, b1: StakedEvent, b2: StakedEvent, a: StakedEvent)
    requires a.user in s.users
    requires b1.user !in s.users && b2.user == b1.user
    ensures LoadMetrics(Run(s, [Staked(b1), Staked(b2), Staked(a)])).totalUsers == LoadMetrics(s).totalUsers + 1
  {
    var s1 := Step(s, Staked(b1));
    var s2 := Step(s1, Staked(b2));
    assert Run(s, [Staked(b1), Staked(b2), Staked(a)]) == Run(s1, [Staked(b2), Staked(a)]);
    assert Run(s1, [Staked(b2), Staked(a)]) == Run(s2, [Staked(a)]);
  }
}
