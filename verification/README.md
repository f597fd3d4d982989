# Nomination staking and ERC-20 fees of the Bifrost node, verified

A Dafny model of three parts of the Bifrost node and proofs about them.

1. **Nomination staking** (`pallets/bfc-staking`). Every validator candidate keeps two bounded lists of
   nominations sorted from greatest to least: *top*, which counts towards its voting power, and
   *bottom*, the overflow. The candidate caches facts about both lists and every operation chooses what
   to touch from those caches. Each nominator keeps its own ledger of the same nominations, with pending
   requests that become executable some rounds later. Money is reserved in the currency, and `Total`
   counts everything at stake. All calls of the pallet that move stake are steps of one state machine.
2. **The fifth storage migration** of that pallet, which folds bottom lists into top lists.
3. **ERC-20 fee payment** (`pallets/bifrost-evm-tx-payment`, `primitives/oracle`): conversion of a native
   fee at oracle prices, normalisation of prices, and the ABI words read and written on the way.

## Layout

| file | content |
|---|---|
| `Wrappers`, `Bonds`, `MapSums` | optional values; lists of bonds and stable sorting; sums over maps |
| `Candidates`, `CandidateLaws` | one candidate: the operations, its invariant, what each operation does |
| `CandidateHistory`, `ListLaws` | the lists depend on the amounts held and on nothing else; undoing; the lists after each operation, ties included |
| `NominationLists`, `CandidateObject`, `NominatorObject` | the loops and the objects updated in place, proved against the functions |
| `Nominators` | one nominator: operations and ledger |
| `Staking`, `StakingLaws` | the storage, every call, and what every call keeps |
| `Reference`, `Refinement` | what every call promises, stated without caches and second ledgers, and that the pallet keeps it |
| `Runs`, `CandidateRuns`, `Timelock`, `Cancels`, `Minimums`, `Limits`, `Issuance` | whole runs: the books, candidates, delays, cancelling, minimum stakes, limits, money |
| `Witnesses` | concrete runs on which a promise fails |
| `Migration`, `Fees`, `Abi` | the migration; fee conversion; ABI words |

## Main results

- **Every reachable storage is consistent** (`Runs.RunKeeps`). From an empty storage, after any sequence
  of calls, slashes included: the two ledgers agree entry by entry; every candidate's lists are sorted,
  bounded, owner-disjoint and correctly split; all its caches say what the lists say; every nominator's
  total, pending amounts and revocation counter are right; the pool holds exactly the active candidates
  with their voting power; and everything at stake is reserved.
- **The pallet refines a reference without caches** (`Refinement.CallVerdict`, `CallEffect`, `ReachableCall`).
  `Reference` says of every call why it is refused, with which error, and what every nominator records and
  requests and what every candidate is after it is accepted, for every account. In every reachable storage
  every call does exactly that. With the invariant these observations determine the rest of what is kept
  about candidates (`ObservationsDetermine`), and `ListLaws` says which bond is where.
- **Every call's effect on the books** (`StakingLaws.StepKeeps`, `FlowOf`). For every storage that satisfies
  the invariant, whatever `Total` is in it, an accepted call moves every reserve, `Total` and what is at
  stake by amounts read off the storage before the call.
- **Exact conservation, with its exact limits** (`Runs.ExactIff`, `RunExactIff`, `ReservesExactIff`). Reserves
  and `Total` stay equal to what is at stake through an accepted call if and only if the call is not
  *lossy*; over a run, reserves are exact if and only if no stale revocation was executed. Two calls can
  be lossy, and `Witnesses` gives a run for each:
  - executing a revocation after the nomination was increased. `nominator_bond_more` does not refuse an
    increase while a revocation is pending; the revocation then gives back only the amount recorded when
    it was scheduled. The difference stays reserved and counted (`RevokeAfterIncrease`), or, if the top
    list is full, the wrong list is searched and the revocation is refused (`RevokeRefused`).
  - the leaving of a candidate after a bottom nomination was decreased. `decrease_bottom_nomination` does
    not lower the recorded bottom total, and the leaving subtracts that total from `Total`
    (`LeaveAfterBottomDecrease`). `CandidateRuns.DriftRun` says how large the gap is after any run;
    `BottomTotalUnbounded` says that no bound holds for it.
- **Saturation** (`Runs.SaturatesIff`, `NoGapNoSaturation`, `NothingElseSaturates`). Of all saturating
  subtractions only those from `Total` can saturate. While `Total` covers what is at stake that happens
  exactly when a candidate leaves whose gap exceeds what `Total` counts besides it
  (`SoleLeaveSaturates`); in a run in which no candidate leaves with a gap it never happens.
- **Conservation of money** (`Issuance.WealthStep`, `WealthRun`, `BackingIsOwed`, `WithinIssuance`). No call
  changes what an account owns, free or reserved, except a deposit to it and the slash of its candidate; the candidates' lists and the nominators' ledgers hold the same
  sum; everything at stake and `Total` are within what is reserved, in every reachable storage.
- **Minimum stakes** (`Minimums.EnoughRun`, `NeitherWraps`, `RevokeAcceptedIff`). Every nomination keeps the
  smaller of the two minima. If a nomination must be at least the minimum stake, as in every runtime of
  the repository, the plain subtractions of the stake checks are exact wherever a call can be accepted;
  otherwise a run shows both wrapping (`StakeChecksWrap`).
- **Voting power is history independent** (`CandidateRuns.ReachableVotingPower`, `ReachableStandings`): it
  is the self-bond plus the largest `MaxTopNominationsPerCandidate` amounts, in every reachable storage.
- **Dispatch from caches refines direct lookup** (`CandidateLaws.RmRefinesLookup` and its companions).
- **Timelock** (`Timelock.TimelockHolds`): in every run, whatever is executed was scheduled by an accepted
  call at least its delay of rounds before and has been open ever since; two executions have two
  schedules (`EachScheduleOnce`), and nothing cancelled is executed unless it is scheduled anew
  (`Cancels.NothingCancelledExecutes`).
- **Self-bond floor** (`CandidateRuns.FloorStep`, `FloorRun`): a pending bond-less request stays affordable
  through every call, slashes included, unless a change of tier ignores it (`TierChangeBreaksFloor`).
- **Limits** (`Limits.LimitsRun`): in every run nobody is nominator and candidate at once, nobody has more
  nominations than allowed beside its first, and no more candidates are active than allowed.
- **Migration** (`Migration.MigrationIff`): no nomination is lost and the invariant holds under the new
  limits if and only if the nominations fit and a candidate without bottom list does not keep a capacity
  status of the old limits; `MigratedStale` says what such a candidate does to its next nominator.
- **Fee conversion** (`Fees.ConvertIs`): for every state of the registries a fee is converted or refused as
  documented, at the native price and the token's price that the registries name; the amount is additive up
  to one unit (`AmountOfSum`) and does not depend on the scale in which an aggregator quotes a price
  (`ConvertIgnoresScale`).

## Reading the model

- A call that returns an error leaves the storage unchanged, as the runtime's transactional layer does.
  A panic of the runtime is the error `Trap`.
- `Storage.candidates` joins the storage maps `CandidateInfo`, `TopNominations` and `BottomNominations`,
  whose entries are created together (`pallets/bfc-staking/src/pallet/mod.rs:1201-1207`) and removed
  together (`:1316-1319`).
- The currency is a pair of maps: `reserve` fails if the free balance is short, `unreserve` gives back at
  most what is reserved. `Deposit` stands for transfers and rewards; a reward that is restaked is a
  `Deposit` followed by a bond-more call.
- Errors that differ only in the call they are named after (the hints on counts) are one error.
- Configuration: at least one place in each list and minima of at least one unit, as in every runtime of
  the repository.
- Plain `-` on balances wraps at 128 bits, since the release profile does not switch overflow checks on.
  The comment that the net total is always at least the minimum stake
  (`pallets/bfc-staking/src/lib.rs:1770`) holds for a nomination without a request if a nomination must be
  at least the minimum stake (`Minimums.NeitherWraps`), and fails otherwise (`Witnesses.StakeChecksWrap`);
  `Nominators.DecreaseFloor` and `Minimums.RevokeAcceptedIff` say what the two checks then let through.
  With a request open for the same nomination the check of a decrease may wrap in any configuration; the
  call is refused all the same.
- Where code and comments disagree the model follows the code: a removal documents its answer as "voting
  power changed" but answers the opposite for a top nomination (`CandidateLaws.RmFlag`).

## Model

| member | source | states |
|---|---|---|
| `Bonds.InsertIsStable` | pallets/bfc-staking/src/lib.rs:490-507 | inserting into a sorted list is appending and sorting stably: earlier nominations stay ahead of equal later ones |
| `Bonds.StableSortIsStable` | pallets/bfc-staking/src/lib.rs:486-488 | the sort orders greatest to least, keeps every bond and the order of equal amounts |
| `Bonds.StableSortUnique` | pallets/bfc-staking/src/lib.rs:486-488 | there is only one stable sort of a list, so the library's algorithm does not matter |
| `NominationLists.BinarySearch` | pallets/bfc-staking/src/lib.rs:496-497 | the search answers some index of the amount, or the place where it belongs |
| `NominationLists.InsertionIndex` | pallets/bfc-staking/src/lib.rs:496-504 | for every legal answer of the search, the index found is past all bonds that are not smaller and before all smaller ones |
| `NominationLists.InsertSorted` | pallets/bfc-staking/src/lib.rs:493-507 | the list becomes the stable sort of the list with the nomination appended, and the total grows by the amount |
| `NominationLists.SortGreatestToLeast` | pallets/bfc-staking/src/lib.rs:486-488 | the result is the stable sort of the list |
| `NominationLists.TakeOwner` | pallets/bfc-staking/src/lib.rs:1134-1148 | the filter drops exactly the owner's bonds and remembers the amount it saw |
| `NominationLists.ShiftOwner` | pallets/bfc-staking/src/lib.rs:1251-1264 | the map moves exactly the owner's amount, stopping at zero, and remembers whether it saw the owner |
| `CandidateLaws.NewCandidateInv` | pallets/bfc-staking/src/lib.rs:650-681 | a new candidate satisfies the invariant, holds nothing and has no gap |
| `CandidateLaws.AddKeeps` | pallets/bfc-staking/src/lib.rs:936-1087 | a nomination is refused exactly when both lists are full and it does not beat the least; an accepted one keeps the invariant and joins the collection; eviction happens exactly when both lists were full, takes a least bond, strictly below the newcomer, reports its amount, and leaves the count unchanged |
| `CandidateLaws.RmTopKeeps` | pallets/bfc-staking/src/lib.rs:1121-1169 | removing a top nomination takes exactly it away, promotes the highest bottom one and keeps the invariant |
| `CandidateLaws.RmBottomKeeps` | pallets/bfc-staking/src/lib.rs:1171-1205 | removing a bottom nomination takes exactly it away and leaves voting power alone |
| `CandidateLaws.RmRefinesLookup` | pallets/bfc-staking/src/lib.rs:1089-1119 | removal decided from cached amounts acts on the list that holds the nomination and never misses an existing one |
| `CandidateLaws.RmWithStaleAmount` | pallets/bfc-staking/src/lib.rs:1092-1119 | called with less than the recorded amount, removal fails exactly when the top list is full, the claim is below its lowest amount and the nomination is in it; otherwise it removes as usual |
| `CandidateLaws.RmFlag` | pallets/bfc-staking/src/lib.rs:1091-1169 | the answered flag equals "voting power changed" exactly for a bottom nomination |
| `CandidateLaws.IncreaseTopKeeps` | pallets/bfc-staking/src/lib.rs:1240-1270 | increasing a top nomination changes exactly its amount and keeps the invariant |
| `CandidateLaws.IncreaseInBottom` | pallets/bfc-staking/src/lib.rs:1323-1345 | an increase that does not beat the lowest top stays in the bottom list and keeps the invariant |
| `CandidateLaws.IncreaseOutOfBottom` | pallets/bfc-staking/src/lib.rs:1286-1322 | an increase that beats the lowest top exchanges the two nominations and keeps the invariant |
| `CandidateLaws.IncreaseRefinesLookup` | pallets/bfc-staking/src/lib.rs:1207-1346 | increase decided from cached amounts acts on the right list, never misses, changes exactly one amount |
| `CandidateLaws.DecreaseInTop` | pallets/bfc-staking/src/lib.rs:1435-1458 | a decrease that stays at or above the highest bottom keeps the nomination on top and the invariant |
| `CandidateLaws.DecreaseOutOfTop` | pallets/bfc-staking/src/lib.rs:1392-1434 | a decrease below the highest bottom exchanges the two nominations and keeps the invariant |
| `CandidateLaws.DecreaseBottomKeeps` | pallets/bfc-staking/src/lib.rs:1460-1490 | a bottom decrease keeps the invariant and widens the gap between recorded total and sum by what it takes |
| `CandidateLaws.DecreaseRefinesLookup` | pallets/bfc-staking/src/lib.rs:1348-1490 | decrease decided from cached amounts acts on the right list, never misses, changes exactly one amount; the gap grows only for a bottom nomination |
| `CandidateLaws.AbsentIsDNE` | pallets/bfc-staking/src/lib.rs:1092-1379 | without a nomination, removal, increase and decrease answer NominationDNE whatever amounts are claimed |
| `CandidateLaws.AddFlag` | pallets/bfc-staking/src/lib.rs:936-1017 | the flag of an addition says whether the nomination is in the top list |
| `CandidateLaws.IncreaseFlag` | pallets/bfc-staking/src/lib.rs:1207-1346 | the flag of an increase says whether the nomination is in the top list afterwards |
| `CandidateLaws.DecreaseFlag` | pallets/bfc-staking/src/lib.rs:1348-1490 | the flag of a decrease says whether the nomination is in the top list afterwards |
| `ListLaws.AddedLists` | pallets/bfc-staking/src/lib.rs:936-1087 | both lists after an addition, by stable sorting: the pushed-down and the evicted bond included |
| `ListLaws.RemovedLists` | pallets/bfc-staking/src/lib.rs:1089-1205 | both lists after a removal, by direct lookup and stable sorting |
| `ListLaws.IncreasedLists` | pallets/bfc-staking/src/lib.rs:1207-1346 | both lists after an increase, by direct lookup and stable sorting |
| `ListLaws.DecreasedLists` | pallets/bfc-staking/src/lib.rs:1348-1490 | both lists after a decrease, by direct lookup and stable sorting |
| `CandidateHistory.HistoryIndependent` | pallets/bfc-staking/src/lib.rs:493-507 | same self-bond and same amounts give the same amounts in the same places, the same caches and the same voting power |
| `CandidateHistory.VotingPowerIs` | pallets/bfc-staking/src/lib.rs:900-921 | voting power is the self-bond plus the sum of the largest amounts that fit the top list |
| `CandidateHistory.AddThenRemove` | pallets/bfc-staking/src/lib.rs:940-1169 | a nomination that evicts nobody, followed by its removal, restores amounts, caches, voting power and count |
| `CandidateHistory.IncreaseThenDecrease` | pallets/bfc-staking/src/lib.rs:1208-1490 | an increase followed by a decrease of the same amount restores them too; through the bottom list it leaves the recorded bottom total larger by that amount |
| `CandidateObject.CandidateState.AddBottomNomination` | pallets/bfc-staking/src/lib.rs:1019-1087 | in place, what the function says, with the evicted bond as answer |
| `CandidateObject.CandidateState.AddTopNomination` | pallets/bfc-staking/src/lib.rs:981-1017 | in place, what the function says; an error changes nothing |
| `CandidateObject.CandidateState.AddNomination` | pallets/bfc-staking/src/lib.rs:936-979 | in place, what the function says; an error changes nothing |
| `CandidateObject.CandidateState.RmTopNomination` | pallets/bfc-staking/src/lib.rs:1121-1169 | in place, what the function says; an error changes nothing |
| `CandidateObject.CandidateState.RmBottomNomination` | pallets/bfc-staking/src/lib.rs:1171-1205 | in place, what the function says; an error changes nothing |
| `CandidateObject.CandidateState.RmNominationIfExists` | pallets/bfc-staking/src/lib.rs:1089-1119 | in place, what the function says: a failed top attempt has changed nothing when the bottom list is tried |
| `CandidateObject.CandidateState.IncreaseTopNomination` | pallets/bfc-staking/src/lib.rs:1239-1270 | in place, what the function says; an error changes nothing |
| `CandidateObject.CandidateState.IncreaseBottomNomination` | pallets/bfc-staking/src/lib.rs:1272-1346 | in place, what the function says; an error changes nothing |
| `CandidateObject.CandidateState.IncreaseNomination` | pallets/bfc-staking/src/lib.rs:1207-1237 | in place, what the function says; an error changes nothing |
| `CandidateObject.CandidateState.DecreaseTopNomination` | pallets/bfc-staking/src/lib.rs:1381-1458 | in place, what the function says; an error changes nothing |
| `CandidateObject.CandidateState.DecreaseBottomNomination` | pallets/bfc-staking/src/lib.rs:1460-1490 | in place, what the function says; the recorded total stays |
| `CandidateObject.CandidateState.DecreaseNomination` | pallets/bfc-staking/src/lib.rs:1348-1379 | in place, what the function says; an error changes nothing |
| `CandidateLaws.BondLessLifecycle` | pallets/bfc-staking/src/lib.rs:819-882 | a bond-less request bars a second one, can be executed exactly from its round on, and then takes exactly its amount, leaves the tier's minimum and every nomination, and keeps the invariant |
| `CandidateObject.CandidateState.ScheduleBondLess` | pallets/bfc-staking/src/lib.rs:819-847 | in place: accepted exactly without a pending request and within the tier's minimum; what is scheduled can be executed exactly from the answered round on and then leaves that minimum; keeps the invariant |
| `CandidateObject.CandidateState.ExecuteBondLess` | pallets/bfc-staking/src/lib.rs:849-882 | in place: accepted exactly when a request is due; under the invariant nothing saturates, something of the bond is left and voting power is again the bond plus the top total |
| `Nominators.PendingWithinTotal` | pallets/bfc-staking/src/lib.rs:1768-1769 | pending amounts never exceed the nominator's total, so the net total does not wrap |
| `Nominators.RemoveRequestOk` | pallets/bfc-staking/src/lib.rs:1982-1989 | closing a request keeps the ledger and subtracts exactly what opening it added |
| `Nominators.ScheduleKeeps` | pallets/bfc-staking/src/lib.rs:1754-1799 | scheduling a decrease or a revocation keeps the ledger: pending total, revocation count, affordability |
| `Nominators.ScheduleThenCancel` | pallets/bfc-staking/src/lib.rs:1754-1930 | cancelling what was just scheduled gives the nominator back unchanged |
| `Nominators.NetCovers` | pallets/bfc-staking/src/lib.rs:1768-1771 | the net total covers every nomination without a request |
| `Nominators.DecreaseFloor` | pallets/bfc-staking/src/lib.rs:1763-1779 | the floor check is exact while the net total reaches the minimum stake, and lets everything through below it |
| `NominatorObject.NominatorState.AddNomination` | pallets/bfc-staking/src/lib.rs:1677-1692 | in place: refuses a second nomination of a candidate, otherwise records it; keeps the ledger |
| `Nominators.RmThenAdd` | pallets/bfc-staking/src/lib.rs:1677-1706 | adding back a removed nomination gives the nominator back |
| `NominatorObject.NominatorState.RmNomination` | pallets/bfc-staking/src/lib.rs:1694-1706 | in place: exactly that nomination goes, the total falls by exactly its amount, adding it back restores the nominator, and without a request for it the ledger is kept |
| `NominatorObject.NominatorState.DropRequest` | pallets/bfc-staking/src/lib.rs:1982-1989 | in place: closes the request; keeps the ledger |
| `NominatorObject.NominatorState.ScheduleDecreaseNomination` | pallets/bfc-staking/src/lib.rs:1754-1779 | in place: all checks in order, at most one request per nomination; keeps the ledger |
| `NominatorObject.NominatorState.ScheduleRevokeNomination` | pallets/bfc-staking/src/lib.rs:1781-1799 | in place: a revocation of the whole recorded amount; keeps the ledger |
| `NominatorObject.NominatorState.CancelPendingRequest` | pallets/bfc-staking/src/lib.rs:1909-1930 | in place: closes the request and answers it; keeps the ledger |
| `StakingLaws.NominateKeeps` | pallets/bfc-staking/src/pallet/mod.rs:1586-1644 | a nomination, with or without an eviction that edits a third party's ledger, keeps the invariant; reserves, `Total` and what is at stake move by the amount less what is evicted |
| `StakingLaws.NominatorBondMoreKeeps` | pallets/bfc-staking/src/lib.rs:1708-1752 | an increase keeps the invariant and moves reserve, `Total` and what is at stake by its amount |
| `StakingLaws.ExecuteDecreaseKeeps` | pallets/bfc-staking/src/lib.rs:1858-1905 | executing a decrease keeps the invariant; reserve and stake fall by its amount, and `Total` by as much of it as is there |
| `StakingLaws.ExecuteRevokeKeeps` | pallets/bfc-staking/src/lib.rs:1808-1857 | executing a revocation keeps the invariant; exactly the recorded amount less the request stays behind in the reserve, and `Total` falls by the request only, or to zero |
| `StakingLaws.ExecuteLeaveNominatorsKeeps` | pallets/bfc-staking/src/pallet/mod.rs:1669-1689 | a nominator's leaving removes all its nominations from all candidates, none of the removals fails, and exactly its stake is given back |
| `StakingLaws.JoinKeeps` | pallets/bfc-staking/src/pallet/mod.rs:1157-1220 | joining keeps the invariant and moves reserve and `Total` by the bond |
| `StakingLaws.ExecuteLeaveCandidatesKeeps` | pallets/bfc-staking/src/pallet/mod.rs:1266-1332 | a candidate's leaving returns every nominator's stake and keeps the invariant; `Total` loses its backing and the gap of its bottom total, or all there is |
| `StakingLaws.CandidateBondMoreKeeps` | pallets/bfc-staking/src/pallet/mod.rs:1516-1529 | keeps the invariant; bond, voting power, pool, reserve and `Total` move together |
| `StakingLaws.SetValidatorTierKeeps` | pallets/bfc-staking/src/pallet/mod.rs:1056-1092 | keeps the invariant; bond, voting power, pool, reserve and `Total` move together |
| `StakingLaws.ExecuteBondLessKeeps` | pallets/bfc-staking/src/lib.rs:849-882 | keeps the invariant; the bond falls by exactly the request and something is left; voting power, pool, reserve and stake fall with it, and `Total` by as much of it as is there |
| `StakingLaws.SlashKeeps` | pallets/bfc-staking/src/pallet/impls.rs:871-924 | a kick-out with a slash keeps the invariant; bond, voting power, reserve and stake fall together, and `Total` by as much of it as is there |
| `StakingLaws.RequestCalls` | pallets/bfc-staking/src/pallet/mod.rs:1651-1795 | scheduling and cancelling requests and exits keeps the invariant and moves no money |
| `StakingLaws.SelfCalls` | pallets/bfc-staking/src/pallet/mod.rs:1227-1575 | scheduling and cancelling a leaving or a bond-less, going offline and online keep the invariant and move no money |
| `StakingLaws.ExecuteRequestKeeps` | pallets/bfc-staking/src/lib.rs:1801-1907 | executing any request keeps the invariant and moves what the request says |
| `StakingLaws.StepKeeps` | pallets/bfc-staking/src/pallet/mod.rs:1056-1796 | every accepted call keeps the invariant and moves reserves, `Total` and what is at stake by amounts fixed before the call; a refused call changes nothing |
| `Refinement.NominateVerdict` | pallets/bfc-staking/src/pallet/mod.rs:1586-1644 | a nomination is refused for exactly nine reasons, each with its error, the last of them being outbid by full lists; nothing behind the checks fails |
| `Refinement.ExecuteVerdict` | pallets/bfc-staking/src/lib.rs:1801-1907 | an execution is refused exactly when nothing is due, too little would be left, or the removal looks in the wrong list |
| `Refinement.JoinVerdict` | pallets/bfc-staking/src/pallet/mod.rs:1157-1220 | joining is refused for exactly the stated reasons, among them the minimum of the tier taken and a nominator's account |
| `Refinement.CallVerdict` | pallets/bfc-staking/src/pallet/mod.rs:1056-1796 | every call, in every storage that satisfies the invariant, is refused exactly with the error of the first unmet condition, and accepted otherwise |
| `Refinement.NominateLedgers` | pallets/bfc-staking/src/pallet/mod.rs:1586-1644 | after a nomination exactly the new entry is recorded, the evicted one is gone with its request, and no other ledger changed |
| `Refinement.ExecuteLedgers` | pallets/bfc-staking/src/lib.rs:1801-1907 | after an execution the request is closed and exactly its entry is lowered or gone |
| `Refinement.RequestLedgers` | pallets/bfc-staking/src/pallet/mod.rs:1651-1796 | scheduling opens and cancelling closes exactly one request, due after its delay, and nothing else changes |
| `Refinement.LeaveLedgers` | pallets/bfc-staking/src/pallet/mod.rs:1266-1332 | after a candidate's leaving every nominator has lost exactly its entry and request there |
| `Refinement.CallSelves` | pallets/bfc-staking/src/pallet/mod.rs:1056-1575 | after any call every candidate's stash, bond, request, status and tier are as promised, for the called one and all others |
| `Refinement.CallEffect` | pallets/bfc-staking/src/pallet/mod.rs:1056-1796 | an accepted call leaves exactly what the reference promises, for every nominator and candidate |
| `Refinement.ReachableCall` | pallets/bfc-staking/src/pallet/mod.rs:1056-1796 | both hold in every storage that a run reaches |
| `Refinement.ObservationsDetermine` | pallets/bfc-staking/src/lib.rs:586-606 | what is recorded and the candidates themselves determine lists up to ties, caches, voting powers, pool and stashes |
| `Runs.RunKeeps` | pallets/bfc-staking/src/pallet/mod.rs:1056-1796 | every storage a run reaches satisfies the invariant |
| `Runs.LeaveAcceptedIff` | pallets/bfc-staking/src/pallet/mod.rs:1266-1300 | a candidate's leaving depends on hint, status and round only: no nominator can block it |
| `Runs.ExactIff` | pallets/bfc-staking/src/pallet/impls.rs:255-276 | reserves and `Total` stay exact through an accepted call if and only if it is neither a stale revocation nor the leaving of a candidate with a gap while others have stake |
| `Runs.SaturatesIff` | pallets/bfc-staking/src/pallet/mod.rs:1304-1321 | `Total` follows what is at stake if and only if the call does not take more than there is; while `Total` covers what is at stake, only a leaving whose gap exceeds what `Total` counts besides that candidate does |
| `Runs.ExcessRun` | pallets/bfc-staking/src/pallet/impls.rs:255-276 | over any run, each account's reserve beyond its stake grows by exactly what its revocations left behind |
| `Runs.ReservesExactIff` | pallets/bfc-staking/src/pallet/impls.rs:255-276 | exact reserves stay exact over a run if and only if no stale revocation was executed |
| `Runs.RunTotal` | pallets/bfc-staking/src/pallet/mod.rs:573-575 | over a run that does not saturate it, `Total` differs from what is at stake by the stale amounts less the gaps taken |
| `Runs.NoGapNoSaturation` | pallets/bfc-staking/src/pallet/mod.rs:1304-1321 | a run in which no candidate leaves with a gap never saturates `Total` |
| `Runs.RunExactIff` | pallets/bfc-staking/src/pallet/mod.rs:573-575 | over a run that does not saturate `Total`, the books are exact at the end if and only if nothing stale was revoked and nobody left with a gap |
| `Runs.RunExact` | pallets/bfc-staking/src/pallet/impls.rs:255-276 | a run without lossy calls keeps every reserve and `Total` exactly at what is at stake |
| `Runs.NothingElseSaturates` | pallets/bfc-staking/src/lib.rs:849-1930 | whatever an operation subtracts with saturation from a nominator's total, a list's total, a count, a pending total, a bond, a voting power or a reserve is there |
| `CandidateRuns.DriftStep` | pallets/bfc-staking/src/lib.rs:1470-1489 | through any call the gap of a bottom total grows by exactly what the call takes from a bottom nomination |
| `CandidateRuns.DriftRun` | pallets/bfc-staking/src/lib.rs:1470-1489 | over a run the gap is what it was plus the sum of all bottom decreases |
| `CandidateRuns.FloorStep` | pallets/bfc-staking/src/lib.rs:819-879 | a pending bond-less request keeps leaving the tier's minimum through every call if and only if the call is not a change of tier it cannot afford |
| `CandidateRuns.FloorRun` | pallets/bfc-staking/src/pallet/impls.rs:897-924 | over a run without such a change every candidate's request leaves the minimum, slashes included |
| `CandidateRuns.ReachableVotingPower` | pallets/bfc-staking/src/pallet/impls.rs:137-145 | in every reachable storage voting power is the self-bond plus the largest nominations, and the pool says so for exactly the active candidates |
| `CandidateRuns.ReachableStandings` | pallets/bfc-staking/src/lib.rs:900-934 | candidates of any two reachable storages with the same bond and amounts stand the same |
| `Timelock.NominatorTickets` | pallets/bfc-staking/src/lib.rs:2009-2060 | a nominator's request or exit open after a call was open before or was scheduled by that call, due after its delay |
| `Timelock.CandidateTickets` | pallets/bfc-staking/src/lib.rs:695-847 | the same for a candidate's bond-less request or leaving |
| `Timelock.TimelockHolds` | pallets/bfc-staking/src/lib.rs:695-864 | in every run, an execution is matched by an accepted schedule at least its delay of rounds earlier, open ever since |
| `Timelock.ExecutionCloses` | pallets/bfc-staking/src/lib.rs:1801-1907 | an execution closes what it executes |
| `Timelock.EachScheduleOnce` | pallets/bfc-staking/src/lib.rs:1801-1907 | two executions of equal requests in a run have different schedules, the later one between the executions |
| `Cancels.RequestUndone` | pallets/bfc-staking/src/pallet/mod.rs:1782-1796 | scheduling a request and cancelling it gives the storage back |
| `Cancels.BondLessUndone` | pallets/bfc-staking/src/pallet/mod.rs:1551-1575 | the same for a bond-less request |
| `Cancels.ExitUndone` | pallets/bfc-staking/src/pallet/mod.rs:1651-1689 | the same for a nominator's leaving |
| `Cancels.LeavingUndone` | pallets/bfc-staking/src/pallet/mod.rs:1227-1262 | the same for a candidate's leaving, pool entry included; there is always room for it |
| `Cancels.CancelCloses` | pallets/bfc-staking/src/pallet/mod.rs:1782-1796 | an accepted cancelling closes what it cancels |
| `Cancels.NothingCancelledExecutes` | pallets/bfc-staking/src/pallet/mod.rs:1782-1796 | in every run, whatever is executed after it was cancelled was scheduled anew in between |
| `Minimums.EnoughStep` | pallets/bfc-staking/src/lib.rs:1754-1907 | every call keeps each nomination at the smaller minimum and each pending decrease at the minimum nomination |
| `Minimums.EnoughRun` | pallets/bfc-staking/src/lib.rs:1754-1907 | and so does every run |
| `Minimums.NeitherWraps` | pallets/bfc-staking/src/lib.rs:1763-1779 | where a nomination must be at least the minimum stake, every reachable nominator has that stake and the check of a decrease is exact |
| `Minimums.RevokeAcceptedIff` | pallets/bfc-staking/src/lib.rs:1808-1857 | exactly when a due revocation is accepted: last nomination, enough left, or a total already below the minimum, for which the subtraction wraps; and the removal looks in the right list |
| `Minimums.RevokeNeverShort` | pallets/bfc-staking/src/lib.rs:1822-1827 | where a nomination must be at least the minimum stake, no due revocation is refused for want of stake |
| `Limits.RolesStep` | pallets/bfc-staking/src/pallet/mod.rs:1615-1618 | no call makes anybody nominator and candidate at once |
| `Limits.FewStep` | pallets/bfc-staking/src/pallet/mod.rs:1596-1612 | no call gives a nominator more nominations than allowed, its first excepted |
| `Limits.PoolStep` | pallets/bfc-staking/src/pallet/mod.rs:1195-1211 | no call makes more candidates active than allowed |
| `Limits.LimitsRun` | pallets/bfc-staking/src/pallet/mod.rs:1056-1796 | no run exceeds these limits |
| `Limits.JoinsWithMinimum` | pallets/bfc-staking/src/pallet/mod.rs:1157-1220 | whoever joins has bonded the minimum of the tier it gets |
| `Issuance.WealthStep` | pallets/bfc-staking/src/pallet/mod.rs:1056-1796 | an accepted call leaves every account what it owns, free or reserved, except for a deposit to it and the slash of its candidate |
| `Issuance.WealthRun` | pallets/bfc-staking/src/pallet/mod.rs:1056-1796 | over a run an account owns what it owned, plus deposits, less slashes of its candidates |
| `Issuance.IssuedStep` | pallets/bfc-staking/src/pallet/mod.rs:1056-1796 | an accepted call changes the sum of all balances by what is deposited and what is slashed only |
| `Issuance.IssuedRun` | pallets/bfc-staking/src/pallet/mod.rs:1056-1796 | and so does a run |
| `Issuance.LedgersBalance` | pallets/bfc-staking/src/lib.rs:1524-1529 | the nominators' totals add up to all nominations in the candidates' lists |
| `Issuance.BackingIsOwed` | pallets/bfc-staking/src/lib.rs:1524-1529 | what is at stake counted by candidates is what is at stake counted by nominators and stashes |
| `Issuance.ReservesAddUp` | pallets/bfc-staking/src/pallet/mod.rs:573-575 | all reserves together are what is at stake and what exceeds it |
| `Issuance.ReservedRun` | pallets/bfc-staking/src/pallet/mod.rs:573-575 | over any run, reserves exceed what is at stake by the stale amounts more, and `Total` stays within the reserves |
| `Issuance.WithinIssuance` | pallets/bfc-staking/src/pallet/mod.rs:573-575 | in every reachable storage what is at stake and `Total` are within the reserves and these within the issuance |
| `Issuance.AmountsWithinIssuance` | pallets/bfc-staking/src/lib.rs:586-596 | and so are every bond, voting power, top total, nominator's total, pending total and nomination |
| `Witnesses.RevokeAfterIncrease` | pallets/bfc-staking/src/pallet/mod.rs:1733-1742 | a run after which a nominator is gone and its increase is still reserved and counted |
| `Witnesses.RevokeRefused` | pallets/bfc-staking/src/lib.rs:1101-1118 | a run after which an existing nomination cannot be revoked because the wrong list is searched |
| `Witnesses.LeaveAfterBottomDecrease` | pallets/bfc-staking/src/pallet/mod.rs:1304-1321 | a run whose books are exact until a candidate leaves, after which `Total` is too small and a slash saturates it |
| `Witnesses.SoleLeaveSaturates` | pallets/bfc-staking/src/pallet/mod.rs:1304-1321 | a run with exact books after which the last candidate's leaving takes more out of `Total` than there is |
| `Witnesses.BottomTotalUnbounded` | pallets/bfc-staking/src/lib.rs:1470-1489 | runs that end with the same balances and nominations and with a recorded bottom total beyond any bound |
| `Witnesses.StakeChecksWrap` | pallets/bfc-staking/src/lib.rs:1769-1827 | a run, with a smaller minimum for nominations than for nominators, after which both stake checks wrap and accept |
| `Witnesses.TierChangeBreaksFloor` | pallets/bfc-staking/src/pallet/mod.rs:1066-1090 | a run that leaves a full node with less than the minimum of its tier |
| `Migration.MigrateCandidate` | pallets/bfc-staking/src/migrations.rs:18-58 | the loop over the bottom list computes the migration of one candidate |
| `Migration.MigrationLosesNothing` | pallets/bfc-staking/src/migrations.rs:18-58 | no nomination of a candidate is lost exactly when there is nothing to fold, or all fit, or the top list already exceeds its limit |
| `Migration.MigratedFolded` | pallets/bfc-staking/src/migrations.rs:20-56 | with room for all, top becomes the sorted union, bottom is empty, count and voting power cover all nominations and the invariant holds under the new limits |
| `Migration.MigratedUntouched` | pallets/bfc-staking/src/migrations.rs:19-20 | a candidate without bottom list is left alone; the invariant holds under the new limits exactly when its capacity status is still right |
| `Migration.MigratedStale` | pallets/bfc-staking/src/migrations.rs:19-20 | otherwise its next small nomination goes to the bottom list although the top list has room |
| `Migration.MigrationIff` | pallets/bfc-staking/src/migrations.rs:18-58 | all nominations kept and invariant established, if and only if the candidate is migratable |
| `Migration.MigrateAllKeeps` | pallets/bfc-staking/src/migrations.rs:17-60 | if every candidate is migratable the whole storage satisfies the invariant under the new limits and no money moves |
| `Fees.FeeTokens.AddFeeToken` | pallets/bifrost-evm-tx-payment/src/lib.rs:222-242 | accepts exactly a new token with at most 18 decimals; keeps the bound on decimals |
| `Fees.FeeTokens.UpdateFeeToken` | pallets/bifrost-evm-tx-payment/src/lib.rs:266-281 | changes exactly a known token, with at most 18 decimals; keeps the bound |
| `Fees.FeeTokens.RemoveFeeToken` | pallets/bifrost-evm-tx-payment/src/lib.rs:249-259 | forgets exactly a known token; keeps the bound |
| `Fees.ScaleIs` | pallets/bifrost-evm-tx-payment/src/lib.rs:438-442 | for admitted decimals the 128-bit power of ten never wraps |
| `Fees.AmountIs` | pallets/bifrost-evm-tx-payment/src/lib.rs:432-443 | the conversion succeeds exactly when the product fits 256 bits and the token price is positive, and then equals the single documented quotient |
| `Fees.AmountOfSum` | pallets/bifrost-evm-tx-payment/src/lib.rs:435-443 | the amount for a sum of fees is the sum of the amounts or one more |
| `Fees.ConvertIs` | pallets/bifrost-evm-tx-payment/src/lib.rs:406-452 | for every state of the registries a fee is refused with the documented error or converted to the documented quotient of the native price and the token's price, both taken from where the registry says |
| `Fees.NormaliseScales` | pallets/bifrost-evm-tx-payment/src/oracle.rs:123-129 | an answer and the same price with more decimals normalise to the same price |
| `Fees.NormaliseTruncates` | pallets/bifrost-evm-tx-payment/src/oracle.rs:127-129 | above 18 decimals less than one unit is lost |
| `Fees.NormaliseIs` | pallets/bifrost-evm-tx-payment/src/oracle.rs:123-129 | normalising answers the largest 18-decimal price not above the quoted one, capped at the largest word |
| `Fees.OracleAccepts` | pallets/bifrost-evm-tx-payment/src/oracle.rs:36-85 | an oracle's price is accepted exactly if it is positive and not older than the limit, and is that price; each refusal has its error |
| `Fees.AggregatorAccepts` | pallets/bifrost-evm-tx-payment/src/oracle.rs:101-169 | an aggregator's price is accepted exactly for a positive int256 answer whose quoted price, rounded down to 18 decimals and capped, is positive and not older than the limit, and is that price; each refusal has its error |
| `Fees.TokenAccepts` | pallets/bifrost-evm-tx-payment/src/oracle.rs:185-198 | a token's price comes from its oracle, or from its aggregator if its oracle id is zero |
| `Fees.ConvertIgnoresScale` | pallets/bifrost-evm-tx-payment/src/oracle.rs:185-198 | a fee converts to the same amount whichever way the aggregator quotes the same price |
| `Abi.EncodeTransfer` | pallets/bifrost-evm-tx-payment/src/erc20.rs:281-297 | 68 bytes: selector, twelve zeros, address, and a word that decodes to the amount |
| `Abi.EncodeBalanceOf` | pallets/bifrost-evm-tx-payment/src/erc20.rs:267-279 | 36 bytes: selector, twelve zeros, address |
| `Abi.FrontWeighsMore` | pallets/bifrost-evm-tx-payment/src/erc20.rs:311-312 | the most significant byte comes first |
| `Abi.CheckBoolIs` | pallets/bifrost-evm-tx-payment/src/erc20.rs:303-331 | for every byte string, success is empty data or a decoded word equal to one |
| `Abi.WriteThenRead` | pallets/bifrost-evm-tx-payment/src/erc20.rs:292-312 | a number that fits survives writing and reading |
| `Abi.ReadThenWrite` | pallets/bifrost-evm-tx-payment/src/erc20.rs:303-313 | bytes survive reading and writing |
| `Abi.EncodeCalldata` | primitives/oracle/src/traits.rs:18-27 | the buffer holds the selector and the oracle id |
| `Abi.OracleInfoDecodes` | primitives/oracle/src/traits.rs:64-86 | for every byte string: six words give number, hash and four numbers modulo 2^64, whatever follows; fewer are refused |
| `Abi.OracleInfoRoundTrip` | primitives/oracle/src/traits.rs:64-86 | what is encoded within the bounds of the fields decodes to itself |
| `Abi.RoundDataDecodes` | primitives/oracle/src/traits.rs:109-131 | for every byte string: five words give the five numbers, whatever follows; fewer are refused |

## Left out

- Overflow of `saturating_add` and `+=` at 128 bits: balances are unbounded naturals. Every balance, bond, nomination, top total and `Total` is within the issuance (`Issuance.WithinIssuance`, `AmountsWithinIssuance`), so none of them overflows while the issuance fits; the recorded bottom total is not (`Witnesses.BottomTotalUnbounded`), and its overflow, in `+=` and when a candidate leaves, is not modelled.
- Replacement of controllers, delayed commissions and their checks in `join_candidates` and `schedule_leave_candidates`: field updates by another key.
- The candidate's other fields (commission, productivity, reward destination, awarded tokens, initial bonds): setters.
- Selection of validators, snapshots, reward computation and inflation: they read the state modelled here; reward computation rests on fixed-point fractions of another library.
- Slashing of nominators: `slash_nomination_amount` has no caller in the repository.
- How an offence is counted and how large the slash is: a slash of at most the self-bond is an input of the step.
- The relay manager: whether it lets a relayer join is an input of the call.
- Calls of the pallet are steps on values, not methods of an object; the candidate and the nominator they act on are also modelled as objects updated in place, without aliasing between them.
- The storage version test around the migration, weights, events and logs.
- The EVM calls behind balances, transfers and oracle answers: the returned bytes are arbitrary inputs.
