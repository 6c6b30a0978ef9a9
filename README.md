# Staking-contract indexer mapping, in Dafny

This project models the mapping of a staking-contract indexer. The mapping
takes the staking contract's decoded events one at a time. From them it keeps
an entity store:

- one `User` aggregate per address;
- one `StakePosition` per stake event;
- one write-once record per event;
- a single `ProtocolMetrics` entity, stored under the id `"protocol-metrics"`.

The model has five modules:

- `Entities` (Entities.dfy) holds the events, entities and records as datatypes, plus the constants. These are the year in seconds, the percent scale and the 30-day lock.
- `Apr` (Apr.dfy) is the pure APR calculator, with the bounds of its truncating division and its monotonicity. The APR is a whole percentage: one year of rewards over the stake, times 100, truncated (5 means 5%).
- `StoreSpec` (StoreSpec.dfy) gives the store as a value, with one function per operation of the mapping. Each function follows the source's load/assign/save order. Its contract states the net effect field by field: which running sums grow, which snapshot fields are overwritten with the event's value, and what is left unchanged.
- `StakingContract` (StakingContract.dfy) has the class `Store`, one map field per entity table. Its methods load an entity (a copy), assign fields and save it back (a map update), as the source does. Each method is proved to leave `Snapshot()` exactly as the matching `StoreSpec` function says.
- `EventStream` (EventStream.dfy) applies handlers to a sequence of events and proves the global invariants:
  - every position and record names a stored user;
  - `totalUsers` equals the number of distinct addresses seen;
  - `totalStakePositions` equals the number of stake events, and equals the number of stored positions when position ids are fresh.

Saving is an upsert with no duplicate check, as in the code. The system's intended design is different: a second delivery of the same (transaction, log index) should fail fast instead of overwriting. The model follows the code. `EventStream.ReplayedStakeIsCountedTwice` shows what a replayed stake does under this code:

- `totalStakePositions` ends one above the number of stored positions;
- the user's stake grows by the amount twice.

## Model

| member | source | states |
|---|---|---|
| `Apr.CalculateApr` | src/staking-contract.ts:66-77 | 0 when nothing is staked; otherwise the result q is the whole number of percent that one year of rewards (rate·31536000) makes of the stake: q·stake ≤ rate·31536000·100 < (q+1)·stake |
| `Apr.AprNonDecreasingInRate` | src/staking-contract.ts:66-77 | for a fixed stake, a higher reward rate never gives a lower APR |
| `Apr.AprNonIncreasingInStake` | src/staking-contract.ts:66-77 | for a fixed rate and positive stakes, a larger stake never gives a higher APR |
| `Apr.AprExample` | src/staking-contract.ts:66-77 | rate 20 on stake 100 gives 630720000; stake 0 gives 0; a stake equal to one year of rewards (31536000 at rate 1) gives 100; a stake of one hundred years of rewards gives 1 |
| `Apr.FivePercentIsFive` | src/staking-contract.ts:72-77 | a stake 20 times one year of rewards at rate 1 (a 5% yield) gives 5, not 500 |
| `StoreSpec.ResolveUser` | src/staking-contract.ts:32-48 | a stored address leaves the store unchanged; a new one is stored with all five fields 0, and `totalUsers` grows by exactly 1 with every other metric unchanged; positions and records are untouched |
| `StoreSpec.CreateStakePositionStep` | src/staking-contract.ts:80-102 | resolves the staker and stores, under the event id, a position with the event's user, amount and timestamp, `unlockTime = timestamp + 2592000`, not withdrawn, nothing claimed or pending; every other position is unchanged; `totalStakePositions` grows by 1 and `totalUsers` by 1 only for a new address |
| `StoreSpec.EmergencyWithdrawnStep` | src/staking-contract.ts:104-118 | saves only the record, and resolves the staker; no user total, position or metric changes, except the `totalUsers` bump for a new address |
| `StoreSpec.RewardRateUpdatedStep` | src/staking-contract.ts:120-142 | users and positions unchanged; metrics take the new rate, the event's total stake and timestamp, and `apr = CalculateApr(newRate, totalStaked)`; every other metric is kept |
| `StoreSpec.RewardsClaimedStep` | src/staking-contract.ts:144-171 | the user's and the protocol's `totalRewardsClaimed` grow by the amount; the user's `pendingRewards` and the protocol's `totalStaked` are overwritten; `apr` and every position are unchanged |
| `StoreSpec.StakedStep` | src/staking-contract.ts:173-206 | the user's `totalStaked` grows by the amount; a position is opened as in `CreateStakePositionStep`; metrics take `newTotalStaked` and the rate, with `apr = CalculateApr(rate, newTotalStaked)`, and keep the resolver's and the factory's increments of `totalUsers` and `totalStakePositions` |
| `StoreSpec.StakingInitializedStep` | src/staking-contract.ts:208-226 | users and positions unchanged; metrics take the staking token, the initial rate and the timestamp; `apr` and every total are kept |
| `StoreSpec.WithdrawnStep` | src/staking-contract.ts:228-256 | the user's and the protocol's `totalWithdrawn` grow by the amount; `totalStaked` and the rate are overwritten; `apr` and every position are unchanged |
| `StakingContract.Store.GetOrCreateProtocolMetrics` | src/staking-contract.ts:50-65 | returns the stored metrics, or metrics with every number 0 and an empty staking token; it has no modifies clause, so it writes nothing |
| `StakingContract.Store.GetOrCreateUser` | src/staking-contract.ts:32-48 | the new store is `ResolveUser` of the old one; the returned user is the stored one, or the new all-zero user |
| `StakingContract.Store.CreateStakePosition` | src/staking-contract.ts:80-102 | the new store is `CreateStakePositionStep` of the old one; the returned position is the one stored under the event id |
| `StakingContract.Store.HandleEmergencyWithdrawn` | src/staking-contract.ts:104-118 | the new store is `EmergencyWithdrawnStep` of the old one |
| `StakingContract.Store.HandleRewardRateUpdated` | src/staking-contract.ts:120-142 | the new store is `RewardRateUpdatedStep` of the old one |
| `StakingContract.Store.HandleRewardsClaimed` | src/staking-contract.ts:144-171 | the new store is `RewardsClaimedStep` of the old one |
| `StakingContract.Store.HandleStaked` | src/staking-contract.ts:173-206 | the new store is `StakedStep` of the old one |
| `StakingContract.Store.HandleStakingInitialized` | src/staking-contract.ts:208-226 | the new store is `StakingInitializedStep` of the old one |
| `StakingContract.Store.HandleWithdrawn` | src/staking-contract.ts:228-256 | the new store is `WithdrawnStep` of the old one |
| `EventStream.StepKeepsValid` | src/staking-contract.ts:104-256 | every handler keeps each position's and each record's `user` pointing at a stored User |
| `EventStream.StepCountsUsers` | src/staking-contract.ts:32-48 | a handler adds to the user table exactly the address its event carries, and raises `totalUsers` by 1 exactly when that address is new, so `totalUsers == number of users` is preserved |
| `EventStream.StepCountsPositions` | src/staking-contract.ts:93-99 | only a stake event adds a position id, and it raises `totalStakePositions` by exactly 1 |
| `EventStream.RunKeepsValid` | src/staking-contract.ts:104-256 | referential integrity holds after any sequence of events |
| `EventStream.RunCountsUsers` | src/staking-contract.ts:32-48 | after any sequence, the user table is the old one plus every address the events carry, and `totalUsers` still counts it |
| `EventStream.RunCountsStakes` | src/staking-contract.ts:97-99 | after any sequence, `totalStakePositions` has grown by the number of stake events |
| `EventStream.RunCountsPositions` | src/staking-contract.ts:95-99 | when the stake events' position ids are fresh and distinct, `totalStakePositions` keeps equal to the number of stored positions |
| `EventStream.FromEmptyStore` | src/staking-contract.ts:32-102 | from an empty store: references intact, `totalUsers` = number of distinct addresses, `totalStakePositions` = number of stake events, and with fresh ids = number of positions |
| `EventStream.ReplayedStakeIsCountedTwice` | src/staking-contract.ts:173-206 | a stake event delivered twice is stored once but counted twice, and adds its amount to the user's stake twice |
| `EventStream.FirstStakeScenario` | src/staking-contract.ts:173-206 | staking 100 at time 1000 into an empty store gives the user stake 100, unlock time 2593000, and metrics with stake 100, one position, one user and APR 315360000 |
| `EventStream.ClaimAndWithdrawScenario` | src/staking-contract.ts:144-171 | after that stake, claiming 5 sets claimed totals to 5 and pending rewards to 0; withdrawing 50 sets the withdrawn total to 50 and the protocol stake to 50 |
| `EventStream.RepeatAddressScenario` | src/staking-contract.ts:32-48 | two stakes from a new address and one from a known address raise `totalUsers` by exactly 1 |

## Left out

- Event, entity and record classes, and the arbitrary-precision `BigInt` and `Bytes` types of the indexing library, are not modelled. Amounts, rates and timestamps are `nat`, because every parameter comes from an unsigned contract value. Addresses, hashes and the staking token are byte sequences.
- The encodings of ids are not modelled. Event records use the transaction hash with the log index appended as a 32-bit integer; a log index beyond the 32-bit range is not modelled. Positions use the hex string of the hash, a dash and the decimal log index. Both are modelled as the pair (transaction hash, log index), in separate tables.
- The persistence engine behind `load` and `save` is not modelled. Load is a map lookup and save is a map update (an upsert).
- Events that are imported but never handled are not modelled: ownership transfer, pause/unpause, staking pause/unpause and token recovery. The mapping has no logic for them.
- Event delivery, ordering, chain reorganisation and concurrency are out of scope. Handlers run one at a time, in the order of the sequence given to `EventStream.Run`.
- Duplicate-id rejection and the closing of positions on withdrawal are not modelled, because the code does neither. `isWithdrawn` stays `false` and a repeated id is overwritten.

## Findings

| source | as written | input that shows it | evidently intended | confidence | as-written member | corrected member |
|---|---|---|---|---|---|---|
| src/staking-contract.ts:72-77 | the comment calls the APR a percentage with two decimal places (500 = 5.00%), but the formula multiplies by 100 only once, giving whole percent | rate 1, total staked 630720000 (a 5% yield) gives 5, not 500 | keep the formula, which defines every stored `apr`, and read the result as whole percent (5 = 5%) | not executed | `Apr.FivePercentIsFive` | `Apr.CalculateApr` |
