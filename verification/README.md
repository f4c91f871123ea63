# ECMP Governor: a verified model

ECMP Governor owns the assignment of hash buckets to equal-cost members and governs every change of it: who may change
a group, under which generations, with which upstream facts still current, and what survives a restart. This project
models that behaviour in Dafny and proves what the program is for. `dafny verify dfyconfig.toml` checks all of it.

## The layers

1. **The rebalance** (`Assignment`, `AssignmentProofs`, `Balance`). The loops of the program on arrays (retention, fill,
   move list) are proved equal to one closed-form owner vector. About that vector: exact canonical shares, minimum churn
   among the maps with those shares, exactly when the churn is minimal among all balanced maps, the exact extent of the
   tie-break claim, what moves when members leave or join, and that the map determines the active members.
2. **The governor** (`Lifecycle`, `Records`, `Sorting`, `Groups`, `Governor`). Each public mutation holds one exclusive
   lock, so a run is a sequence of atomic steps: thirteen requests, three notices, registration, fence, epoch advance
   and restart. `Governor` gives each step as a function of the state and of the upstream answers of that moment.
   `GroupMethods` and `EcmpGovernor` are the imperative form: loops, fields, reverse indexes updated in place. Every
   method is proved to do and answer what the step function says, and every index to be what a full scan would build.
3. **Single steps** (`Standing`, `Permission`, `Admission`, `Answers`, `MemberEffects`, `GroupEffects`, `Restoration`,
   `Lapses`, `NoticeEffects`, `Binding`). For every kind of step, exactly when it is carried out, with which answer it is
   refused otherwise, and exactly what it leaves, stated on members, proofs, map, lifecycle and causes rather than on the
   step functions: who may do what, which members are admitted, which come back after a revalidation, which groups a
   fence, an epoch advance, a restart or a notice invalidates and what of them, what the history tells.
4. **Runs** (`Runs`, `Plans`, `PlanRuns`, `Endings`, `Links`, `KeyRuns`, `Attempts`, `AttemptRuns`, `Refusals`,
   `Fencing`, `Recovery`, `Disturbance`, `OrderFree`, `Diff`). Invariants of every reachable state and theorems about
   whole runs: exactly when a pending plan is committed, a committed plan means steady members, closed groups never
   reopen, successor links end, keys stay unique, replays and refusals change nothing, fenced boots stay powerless,
   lapses of authority keep the map until a notice disturbs it.
5. **Durability** (`Bytes`, `Codecs`, `RecordCodecs`, `AssignmentPairs`, `StoreCodec`, `StorePayload`, `Layouts`,
   `StoreFile`, `Durable`, `DurableSteps`, `DurableRuns`, `Coordinator`). Codecs are values with laws that composition
   keeps; groups, payload and file are built from them, and the payload is spelled out as one flat list of fields. Every
   reachable state is read back from its own bytes exactly under a condition on the state, and the epochs of serving
   incarnations strictly increase over any history of crashes, exactly as long as no incarnation overlooks the file.
6. **The digest** (`Sha256`, `Sha256Vectors`). The buffered hasher refines the one-shot definition of FIPS 180-4,
   sections 5.1.1 and 6.2.2; its constants are the roots of primes the standard names, and one known digest is computed.
7. **Concrete runs** (`ExampleRuns`, `SpoiledRun`, `LapsedRun`, `PlannedRun`, `FenceRun`). Runs of four or five ordinary
   steps from an empty governor that reach the cases below.

Upstream views are arbitrary inputs of each step. Identities are 128-bit numbers in byte order. A digest stands for the
digested value wherever the governor compares digests; where bytes are written, digest functions are arbitrary and
collisions are named in the statement.

## Where the code is weaker than its documentation

Each case has its exact condition and a concrete input or run.

- The minimum churn of the source's `README.md:197-200` is minimal among the maps with the canonical shares, not among all
  balanced maps: `BalancedMapCanMove` gives an old map that is balanced already and still loses a bucket,
  `LeastOfAllBalancedExactly` the condition (the over-full members come first).
- The tie-break claim of `include/ecmp/assignment.hpp:82-85` fails when an over-quota survivor precedes a free bucket:
  `LexLeastCanFail` gives the input, `LexLeastExactly` the exact condition.
- A refused revalidation may leave adopted cost terms behind (`src/governor_mutate.cpp:1203-1233`;
  `RefusedRevalidationLeaves` says exactly what it leaves). If the first claim lacks its model or route class, the group
  can still be saved but no longer loaded: `SpoiledRunExists` gives a run, `SpoiledExactly` and `ReachableStatesReadBack`
  the exact conditions.
- A pending plan that gives buckets to members the group does not have yet is written but not read back
  (`src/store.cpp:479`); the same condition covers it, and `BoundPlanCommits` is a run through such a state.
- A plan made by a publisher the group is not bound to is accepted and can never be committed: `CommitsExactly` and
  `PlannedIsCurrentIffBound` give the exact conditions, `BoundPlanCommits` and `UnboundPlanRefused` a run for each side.
- The retained map of a lapsed group survives fences, epochs and restarts, but not the first notice that concerns it
  before revalidation: `NoticeAfterLapse`, `KeptIffUndisturbed` and `RevalidationRestoresExactly` give the exact
  conditions, `MapLostBeforeRevalidation` a run.
- A full fence table does not record a boot; that boot may register again: `FenceTakesHold` and `ComesBackUnlessFenced`
  give the exact conditions, `FencedBootComesBack` a run.
- The coordinator ignores an error of the test whether its store file exists (`app/coordinator_main.cpp:58-60`) and then
  serves under the first epoch again and overwrites the file: `ServingEpochsIncrease` gives the exact condition,
  `RestartCanRepeatEpoch` a history.

## Model

| member | source | states |
|---|---|---|
| Assignment.BalancedBucketCounts | src/assignment.cpp:67-80 | The loop returns, for every position, the share that dealing the buckets in rounds gives it |
| Assignment.ShareClosed | src/assignment.cpp:67-80 | Dealing in rounds is quotient plus one for the first remainder positions |
| Assignment.SharesCoverAllBuckets | src/assignment.cpp:67-80 | The canonical shares add up to the number of buckets, no more and no less |
| Assignment.RetentionPass | src/assignment.cpp:96-117 | The retention loop keeps exactly the lowest buckets of each member up to its share, counts them per member and notes why each other bucket is released |
| Assignment.FillPass | src/assignment.cpp:119-135 | The fill loop, with its moving cursor, yields the closed-form owner vector; every index it uses is in range |
| Assignment.ServeMember | src/assignment.cpp:123-134 | The inner loop hands out exactly the deficit of one member and advances the cursor over kept buckets only |
| Assignment.CursorInRange | src/assignment.cpp:125-134 | While a deficit is left there is a free bucket at or behind the cursor, so the cursor never leaves the vector |
| Assignment.MovePass | src/assignment.cpp:137-160 | The move loop lists one move per changed bucket, with its reason, and counts retained buckets |
| Assignment.ComputeRebalance | src/assignment.cpp:82-162 | The three passes together, for any previous map and any member list, equal one closed-form map with its moves and retained count |
| Assignment.ComputeInitialAssignment | src/assignment.cpp:164-170 | The first map is the rebalance of an all-free map |
| AssignmentProofs.InitialMapIsInBlocks | src/assignment.cpp:164-170 | A first map is laid out in blocks: member i owns exactly the buckets between the running sums of shares before and after it |
| AssignmentProofs.RebalancedHasShares | src/assignment.cpp:82-162 | Whatever the old map, every listed member ends with exactly its canonical share and every bucket has a listed owner |
| AssignmentProofs.ChurnIsClosedForm | src/assignment.cpp:172-184 | The churn of the computed map equals the oracle, bucket count minus what every member can retain |
| Assignment.MinimumPossibleChurn | src/assignment.cpp:172-184 | The oracle loop, reading the bucket count from its own field whatever the length of the vector, computes that count minus the sum of the smaller of old share and target share, which never wraps |
| AssignmentProofs.ChurnIsMinimal | src/assignment.cpp:91-94 | No map with the canonical shares changes fewer owners than the computed one |
| Balance.BalancedChurnBound | README.md:197-200 | No balanced map, whatever its shares, keeps more than the quotient of every member and one more bucket for each over-full member, as far as the remainder goes |
| Balance.BalancedBoundReached | README.md:197-200 | Some balanced map reaches that bound |
| Balance.LeastOfAllBalancedExactly | README.md:197-200 | The computed map has minimum churn among all balanced maps if and only if the over-full members come first: among the members that get one bucket more there are as many over-full ones as possible |
| Balance.BalancedMapCanMove | README.md:197-200 | A concrete old map that is balanced already and from which a bucket is moved |
| AssignmentProofs.LeastAmongSameRetention | src/assignment.cpp:119-135 | Among all maps with the shares that keep the same buckets, the computed one is lexicographically first |
| AssignmentProofs.LexLeastExactly | include/ecmp/assignment.hpp:82-85 | The documented tie-break (first among all minimum-churn maps) holds if and only if no over-quota member stands before a free bucket of an earlier one |
| AssignmentProofs.LexLeastWithinQuota | include/ecmp/assignment.hpp:82-85 | In particular it holds whenever no surviving member owned more than its share |
| AssignmentProofs.LexLeastCanFail | include/ecmp/assignment.hpp:82-85 | A concrete old map and member list for which the documented tie-break fails |
| AssignmentProofs.RemovalMovesOnlyOrphans | src/assignment.cpp:82-135 | From a map with canonical shares, removing any set of members moves exactly the buckets of the removed ones |
| AssignmentProofs.AdditionMovesOnlyToNewcomers | src/assignment.cpp:82-135 | From a map with canonical shares, adding any set of members moves buckets only to the added ones |
| AssignmentProofs.SettledIsFixed | src/assignment.cpp:82-135 | Rebalancing a map with canonical shares for the same members changes nothing |
| AssignmentProofs.MapDeterminesMembers | src/assignment.cpp:82-135 | The owner vector determines the active members: two lists settled on one map have the same members |
| AssignmentProofs.MovesReplay | src/assignment.cpp:137-160 | Replaying the moves over the old map gives the new map, prefix by prefix |
| Assignment.CheckAssignment | src/assignment.cpp:186-225 | The structural check passes exactly when the map is sized, the members distinct, the owners listed and the shares within one; each defect is reported under its exact condition, the first offending bucket deciding between a missing and an unknown owner |
| Assignment.OwnedBucketCount | src/assignment.cpp:47-55 | The counting loop returns the number of buckets with that owner |
| Lifecycle.ClosedOnlyDescends | src/lifecycle.cpp:136-197 | An accepted event in a closed lifecycle leads to a closed lifecycle of strictly lower rank |
| Lifecycle.EventTarget | src/lifecycle.cpp:136-197 | Where an accepted event leads: derived lifecycle, plan or closed lifecycle; terminal exactly for ending events |
| GroupMethods.RefreshGroup | src/governor_core.cpp:290-414 | The stepwise refresh (bind, derive states, count generations, recompute the map, move the lifecycle, push history) equals the specification |
| GroupProofs.RefreshFacts | src/governor_core.cpp:290-414 | A legal refresh yields derived member states, a settled map, generations that move by one exactly when what they count changed, and the lifecycle of the event |
| GroupProofs.RefusedRefreshFacts | src/governor_core.cpp:367-381 | A refresh whose event is not legal keeps the lifecycle but still updates everything before it |
| GroupProofs.EvictFacts | src/governor_mutate.cpp:365-379 | Eviction brings the list within its bound and keeps every declared and every active member |
| GroupMethods.EvictWithdrawn | src/governor_mutate.cpp:365-379 | The eviction loop equals dropping first undeclared entries until the list fits |
| GroupMethods.ApplyTargetSet | src/governor_mutate.cpp:1076-1115 | Withdrawing, renewing and appending in place, then sorting, equals retargeting every entry and adding the newcomers; also counts the added |
| TargetProofs.TargetFacts | src/governor_mutate.cpp:1076-1115 | After retargeting, the declared members are the target set in canonical order and the active ones its enabled members |
| GroupMethods.CountTargetChanges | src/governor_mutate.cpp:1045-1074 | The counting loops equal spec changes plus departures |
| GroupMethods.CheckShape | src/governor_mutate.cpp:1006-1043 | The nested loops report the first malformed or repeated spec |
| GroupMethods.Reprove | src/governor_mutate.cpp:1207-1233 | The update loop applies updates until one is refused and keeps what it applied |
| GroupMethods.ReobserveGroup | src/governor_mutate.cpp:333-363 | Observing every declared member anew, with the staleness bits left |
| GroupMethods.HearPath | src/governor_mutate.cpp:1559-1601 | One group under a path notice: flags, bit and refresh |
| GroupMethods.HearMultipath | src/governor_mutate.cpp:1640-1684 | One group under a multipath notice: flags, bit and refresh |
| GroupMethods.HearCost | src/governor_mutate.cpp:1730-1760 | One group under a cost notice: flags, bit and refresh |
| Invariants.NextOk | src/governor_mutate.cpp:528-1770 | Every request, notice, registration, fence and epoch advance keeps every group in order, never lets a generation fall, and gives a new plan only by an accepted plan request |
| Invariants.LoadOk | src/store.cpp:841-909 | Loading groups in order leaves every recovered group in order |
| Runs.RunInv | src/governor_mutate.cpp:528-1770 | Every state of every run, restarts included, satisfies the invariant |
| Runs.ReachableMapsAreSound | src/governor_query.cpp:632-661 | In every reachable state an active, degraded or rebalancing group passes the structural check; every active member owns exactly its canonical share, at least one bucket, and nobody else owns any |
| Runs.ReachableLifecyclesAreDerived | src/governor_core.cpp:367-381 | In every reachable state an open group is in its derived lifecycle, holds a plan exactly while rebalancing, and a terminal group has no active member and no owned bucket |
| Plans.CommitLandsOnPlan | src/governor_mutate.cpp:1347-1393 | A commit that passes the three generation checks is applied and lands on the planned owners, planned members and planned membership generation, whatever happened in between |
| Plans.CommitNeverInternal | src/governor_mutate.cpp:1376-1391 | The internal-error branch of commit is dead |
| PlanRuns.PlanOrigin | src/governor_mutate.cpp:1269-1345 | Whenever a group has a plan, an accepted plan request made it and nothing replaced it since |
| PlanRuns.PlanningEffect | src/governor_mutate.cpp:1292-1333 | What an accepted plan request leaves: the plan with the generations before the request, the same members, map, membership and assignment generation, and an authority generation that moves exactly when the group was not bound to the planner |
| PlanRuns.PlannedIsCurrentIffBound | src/governor_mutate.cpp:1320-1333 | An accepted plan passes the generation checks of its commit if and only if the group was bound to the planner already |
| PlanRuns.AppliedExactly | src/governor_mutate.cpp:1347-1393 | A commit that the common checks let through is applied if and only if it names the pending plan and all three generations are those the plan remembers |
| PlanRuns.CommitsExactly | src/governor_mutate.cpp:1363-1374 | In a run, a commit of a pending plan that the common checks let through is applied if and only if the group was bound to the planner when the plan was made and none of its generations moved since |
| PlanRuns.CommitRightAfter | src/governor_mutate.cpp:1363-1374 | A commit right after the plan request is applied if and only if the group was bound to the planner |
| PlanRuns.AdvancesOver | src/governor_core.cpp:315-348 | Over any stretch of a run without restart, generations never fall and an unchanged generation means an unchanged value |
| PlanRuns.CommitMeansSteadyMembers | src/governor_mutate.cpp:1363-1374 | Whenever a commit is applied, from its plan request to the commit the group never had other active members, not even for a moment, and the commit lands on the plan |
| PlannedRun.BoundPlanCommits | src/governor_mutate.cpp:1269-1393 | A concrete run in which the plan of the bound publisher is committed; while it waits with a newcomer, the state cannot be read back |
| PlannedRun.UnboundPlanRefused | src/governor_mutate.cpp:1269-1393 | A concrete run in which the plan of another registered publisher is accepted and its commit, past the common checks, is refused |
| PlanRuns.UnboundPlanNeverCommits | src/governor_mutate.cpp:1320-1333 | A plan made by a publisher the group was not bound to can never be committed |
| Endings.ClosedNeverReopens | src/governor_mutate.cpp:1418-1522 | Whatever the step, a closed group stays as it is, unless an accepted administrative request for it moves its lifecycle strictly closer to the end |
| Endings.EndRequestEffect | src/governor_mutate.cpp:1418-1522 | An administrative request changes nothing, or ends its own group only; a supersession also names itself in its open successor |
| Endings.OrdinaryKeepsClosed | src/governor_mutate.cpp:528-1416 | An ordinary request leaves every other group, and every closed group, exactly as it is and sets no successor |
| Endings.OtherStepsKeep | src/governor_mutate.cpp:1524-1770 | Notices, registrations, fences and epochs neither touch closed groups nor change links nor create groups |
| Links.ClosedForGood | src/lifecycle.cpp:136-197 | From any state on, until a restart, a closed group is unchanged or strictly further down |
| Links.RunRanked | src/governor_mutate.cpp:1488-1522 | In every reachable state successor links can be ranked: no cycle, no dangling link |
| Links.FollowingSuccessorsEnds | src/governor_mutate.cpp:1488-1522 | Following successor links never meets a group twice and ends after at most as many groups as there are |
| OrderFree.ApplyIsOrderFree | src/governor_mutate.cpp:828-981 | A member set that is carried out would have been carried out in any order of its members with the same outcome and the same groups |
| OrderFree.CreateIsOrderFree | src/governor_mutate.cpp:528-687 | A creation that is carried out would have been carried out in any order of its members and the created group is the same |
| Attempts.ServeAttempt | src/governor_mutate.cpp:112-145 | Every request remembers its attempt exactly when it was carried out, and touches no authority |
| Refusals.RefusedChangesNothing | src/governor_mutate.cpp:528-1522 | A request other than a revalidation that is refused or answered as a replay leaves the whole state as it was |
| Refusals.RefusedRevalidationLeaves | src/governor_mutate.cpp:1141-1247 | A refused revalidation leaves the whole state as it was until it begins to apply updates; from then on exactly the adopted terms and the updates up to the refused one stay, with no map, generation, plan, lifecycle or binding changed |
| AttemptRuns.ReachableAttemptsAgree | src/governor_core.cpp:222-239 | In every reachable state table and queue hold the same distinct ids within the bound |
| AttemptRuns.StillKnown | src/governor_core.cpp:222-239 | An attempt carried out is still remembered, at its exact place, until as many newer ones as the bound were carried out |
| AttemptRuns.KnownAttemptAnswer | src/governor_mutate.cpp:112-133 | A known attempt that reaches the attempt check changes nothing: idempotent with the remembered payload, a conflict with another |
| AttemptRuns.ReplayChangesNothing | src/governor_mutate.cpp:112-145 | Replaying an accepted attempt under live authority within the bound returns idempotent and changes nothing |
| EcmpGovernorClass.EcmpGovernor.RememberAttempt | src/governor_core.cpp:222-234 | The loop that drops the oldest attempts, on the fields of the governor |
| Fencing.FencedIsPowerless | src/governor_mutate.cpp:57-101 | No request, notice or registration signed by a fenced boot is accepted or changes anything |
| Fencing.FenceGrows | src/governor_query.cpp:117-221 | Within one epoch the fenced set only grows |
| Fencing.FencedStaysPowerless | src/governor_query.cpp:117-221 | A boot once fenced is powerless for the rest of the epoch, until a restart |
| Fencing.LateFenceChangesNothing | src/governor_query.cpp:167-221 | A late fence of a superseded boot leaves the fresh registration and every group untouched |
| Fencing.FreshBootFencesTheOld | src/governor_query.cpp:145-154 | Registering a new boot fences the old one and leaves the groups alone |
| Fencing.FenceTakesHold | src/governor_query.cpp:167-221 | A fence always removes the registration, and records the boot exactly as long as the table has room |
| Fencing.UnregisteredIsPowerless | src/governor_mutate.cpp:57-101 | Nothing of an unregistered publisher is accepted, so a fence bites even when its table is full |
| FenceRun.FencedBootComesBack | src/governor_query.cpp:167-221 | A concrete run in which a boot is fenced with success while the table is full and registers again at once with all its authority |
| Fencing.ComesBackUnlessFenced | src/governor_query.cpp:117-165 | A valid registration of an unregistered publisher succeeds if and only if its boot is not fenced and the table has room |
| Recovery.LapsesKeepTheMap | src/governor_query.cpp:69-115 | Any sequence of epoch advances, fences, registrations and restarts keeps every owner vector and its generation |
| Recovery.RevalidationEffect | src/governor_mutate.cpp:1251-1266 | What a revalidation that is carried out does to the map: the rebalance of the old map for the members active afterwards |
| Recovery.RevalidationRestoresTheMap | src/store.cpp:527-553 | After such a sequence a revalidation that restores the same active members changes neither map nor generation |
| Recovery.LapsesProveNothing | src/store.cpp:527-553 | After a fence, an epoch advance or a restart nothing about any member is proven |
| Disturbance.AffectedExactly | src/governor_mutate.cpp:1524-1770 | The groups a notice refreshes are exactly those it concerns, stated on its inputs: the group depends on it, its publisher is registered and covers the group, the group is open, and the notice brings news of a proof or of a cause of staleness |
| Disturbance.NoticeAfterLapse | src/governor_mutate.cpp:1588-1601 | A group without proofs keeps its map over a notice if and only if the notice does not concern it, or there is no map to lose; a notice that concerns it empties the map |
| Disturbance.KeptIffUndisturbed | src/store.cpp:527-553 | In a run, from the moment nothing about its members is proven, through notices, lapses, restarts and requests for other groups, a group that has a map keeps it and its assignment generation if and only if no admitted notice concerned it |
| Disturbance.RevalidationRestoresExactly | src/store.cpp:527-553 | A serving group that lapses and is later revalidated with the same active members keeps map and assignment generation if and only if no notice disturbed it in between |
| LapsedRun.MapLostBeforeRevalidation | src/governor_mutate.cpp:1588-1601 | A concrete run: register, create, fence, register a new boot, path notice; the map survives the fence and is empty after the notice |
| Diff.DiffMoves | src/group.cpp:150-173 | The comparison loop lists the changed buckets with reasons read off the later snapshot |
| Diff.RefreshRecordsTheDiff | src/governor_core.cpp:337-363 | Whenever a refresh changes the map, the moves it records are those of the two snapshots around it, reasons and generations included |
| Diff.RecordedMovesReplay | src/governor_core.cpp:337-363 | The recorded moves turn the old map into the new one and name each changed bucket once, in ascending order |
| EcmpGovernorClass.EcmpGovernor.constructor | src/governor_core.cpp:120-124 | A new governor has empty tables that agree |
| EcmpGovernorClass.EcmpGovernor.CreateGroup | src/governor_mutate.cpp:528-687 | In place, with every index kept exact, the method does and answers what step function Governor.Create says of the state before |
| EcmpGovernorClass.EcmpGovernor.AddMember | src/governor_mutate.cpp:689-741 | In place, with every index kept exact, the method does and answers what step function Governor.Add says of the state before |
| EcmpGovernorClass.EcmpGovernor.RemoveMember | src/governor_mutate.cpp:743-772 | In place, with every index kept exact, the method does and answers what step function Governor.Remove says of the state before |
| EcmpGovernorClass.EcmpGovernor.SetMemberEnabled | src/governor_mutate.cpp:774-826 | In place, with every index kept exact, the method does and answers what step function Governor.Enable says of the state before |
| EcmpGovernorClass.EcmpGovernor.ApplyMembershipSet | src/governor_mutate.cpp:828-981 | In place, with every index kept exact, the method does and answers what step function Governor.Apply says of the state before |
| EcmpGovernorClass.EcmpGovernor.RevalidateGroup | src/governor_mutate.cpp:1141-1267 | In place, with every index kept exact, the method does and answers what step function Governor.Revalidation says of the state before |
| EcmpGovernorClass.EcmpGovernor.PlanGroup | src/governor_mutate.cpp:1269-1345 | In place, with every index kept exact, the method does and answers what step function Governor.Planning says of the state before |
| EcmpGovernorClass.EcmpGovernor.CommitPlan | src/governor_mutate.cpp:1347-1393 | In place, with every index kept exact, the method does and answers what step function Governor.Commit says of the state before |
| EcmpGovernorClass.EcmpGovernor.AbortPlan | src/governor_mutate.cpp:1395-1416 | In place, with every index kept exact, the method does and answers what step function Governor.Abort says of the state before |
| EcmpGovernorClass.EcmpGovernor.WithdrawGroup | src/governor_mutate.cpp:1418-1444 | In place, with every index kept exact, the method does and answers what step function Governor.Withdraw says of the state before |
| EcmpGovernorClass.EcmpGovernor.RevokeGroup | src/governor_mutate.cpp:1446-1464 | In place, with every index kept exact, the method does and answers what step function Governor.Revoke says of the state before |
| EcmpGovernorClass.EcmpGovernor.RetireGroup | src/governor_mutate.cpp:1466-1486 | In place, with every index kept exact, the method does and answers what step function Governor.Retire says of the state before |
| EcmpGovernorClass.EcmpGovernor.SupersedeGroup | src/governor_mutate.cpp:1488-1522 | In place, with every index kept exact, the method does and answers what step function Governor.Supersede says of the state before |
| EcmpGovernorClass.EcmpGovernor.NotifyPathChange | src/governor_mutate.cpp:1524-1608 | In place, with every index kept exact, the method does and answers what step function Governor.Notify says of the state before |
| EcmpGovernorClass.EcmpGovernor.NotifyMultipathChange | src/governor_mutate.cpp:1610-1695 | In place, with every index kept exact, the method does and answers what step function Governor.Notify says of the state before |
| EcmpGovernorClass.EcmpGovernor.NotifyCostChange | src/governor_mutate.cpp:1697-1770 | In place, with every index kept exact, the method does and answers what step function Governor.Notify says of the state before |
| EcmpGovernorClass.EcmpGovernor.RegisterPublisher | src/governor_query.cpp:117-165 | In place, does and answers what Governor.Register says of the state before |
| EcmpGovernorClass.EcmpGovernor.FencePublisher | src/governor_query.cpp:167-221 | The loop over the authority index reaches exactly the groups a full scan would reach; the result is Governor.Fence |
| EcmpGovernorClass.EcmpGovernor.AdvanceEpoch | src/governor_query.cpp:69-115 | The loop over all groups does what Governor.SetEpoch says |
| EcmpGovernorClass.EcmpGovernor.LoadImage | src/store.cpp:868-909 | Installing and recovering group after group in ascending order while rebuilding every index does what Governor.Load says, for every image, keys shared by groups included |
| EcmpGovernorClass.EcmpGovernor.SaveImage | src/store.cpp:820-826 | What is saved are the groups as they are, in order and named by their identities; their keys are distinct exactly when the key index lists every group under its own key |
| KeyRuns.ReachableKeysAreUnique | src/governor_mutate.cpp:600-606 | In every state of every run, restarts included, no two groups share a key, so neither do those of a saved image |
| EcmpGovernorClass.EcmpGovernor.FinishGroupMutation | src/governor_mutate.cpp:451-477 | Refresh, counter, eviction, indexes and attempt in the program's order equal Governor.Finish |
| EcmpGovernorClass.EcmpGovernor.StoreIndexed | src/governor_core.cpp:136-213 | Moving one group between index entries keeps every index equal to a full scan and the counter equal to the sum |
| EcmpGovernorClass.EcmpGovernor.CheckTables | src/governor_query.cpp:547-724 | Comparing every index and the counter with what the groups give finds a difference exactly when two groups share a key |
| Indexes.KeysExactIffUnique | src/store.cpp:901 | An index that keeps the first group of each key lists every group under its key exactly when no two groups share one |
| Indexes.ScansUnique | src/governor_query.cpp:686-724 | There is only one exact index: a map built by a full scan is the very same map |
| Indexes.Reindex | src/governor_core.cpp:136-213 | Erasing a group from its old keys and inserting it under its new ones moves exactly those entries and leaves no empty set |
| Indexes.KeyTakenIndexed | src/governor_mutate.cpp:606-650 | The key index answers exactly whether some group has a key |
| Indexes.TotalStored | src/governor_mutate.cpp:463-470 | Storing one group changes the sum of declared members by the difference it makes |
| Coordinator.ServingEpochsIncrease | app/coordinator_main.cpp:58-84 | With crashes and failed writes anywhere, the epochs under which incarnations serve are strictly increasing if and only if no incarnation that overlooked the file began to serve after others |
| Coordinator.RestartCanRepeatEpoch | app/coordinator_main.cpp:58-60 | A concrete history in which two incarnations serve under the first epoch because the existence test failed |
| Coordinator.EarlierEpochsRefused | src/governor_mutate.cpp:65-69 | As long as no incarnation overlooked the file, nothing stamped with the epoch of an earlier incarnation is ever accepted by a later one |
| Coordinator.OtherEpochsRefused | src/governor_mutate.cpp:65-69 | Anything stamped with another epoch is refused and changes nothing |
| Bytes.Encoder.Word | src/bytes.cpp:18-28 | The shifting loop appends the little-endian bytes of the number |
| Bytes.Encoder.Blob | src/bytes.cpp:38-45 | A blob within the limit is appended behind its length; one over the limit appends nothing and latches |
| Bytes.Decoder.Word | src/bytes.cpp:99-123 | The adding loop reads exactly the number those bytes spell, or latches |
| Bytes.Decoder.Boolean | src/bytes.cpp:134-145 | Only 0 and 1 are booleans; anything else latches |
| Bytes.Decoder.Fixed16 | src/bytes.cpp:193-200 | Reads the identity that is written with those sixteen bytes, or latches |
| Bytes.Decoder.Blob | src/bytes.cpp:156-173 | A blob is read exactly when its length is within both limits and all its bytes are there, and then it is what was written behind that length; anything else latches |
| StoreFile.EncodeStoreFile | src/store.cpp:591-603 | The bytes of a store file: magic, version, reserved word, epoch, length, payload, tag |
| StoreFile.DecodeStoreFile | src/store.cpp:605-658 | A file is accepted exactly when it is an image of some epoch and some payload within the limit, and then it is the image of what was decoded; otherwise the reported defect is the first one in the file, defined on byte positions |
| StoreFile.AcceptedExactly | src/store.cpp:605-658 | The image of an epoch and a payload is accepted exactly when the payload is within the record limit |
| StoreFile.ImageUnique | src/store.cpp:591-603 | Two files with equal bytes have equal epoch and equal payload |
| AssignmentPairs.PairsRoundTrip | src/store.cpp:70-112 | A written map is read back whatever the order of its pairs, and refused exactly when it is empty, too large or names an unknown owner |
| AssignmentPairs.AcceptedIsDescribed | src/store.cpp:80-112 | Whatever is accepted names every bucket exactly once, with known owners, and is the written form of the decoded map up to the order of pairs |
| AssignmentPairs.ReadAssignmentPairs | src/store.cpp:80-112 | The loop with its set of seen buckets accepts and returns what the specification says |
| RecordCodecs.ClaimsTakeAll | src/protocol.cpp:360-404 | Cost claims: every claim is read back as written and only written claims are read |
| RecordCodecs.SpecsTakeAll | src/protocol.cpp:434-472 | Member specs: every spec is read back as written and only written specs are read |
| RecordCodecs.EntriesTakeAll | src/store.cpp:121-144 | Member entries: every entry is read back as written and only written entries are read |
| RecordCodecs.MoveLawful | src/protocol.cpp:600-623 | Moves: read back as written for every 32-bit bucket, and only written moves are read |
| StoreCodec.HistoriesTake | src/store.cpp:146-214 | Which history entries are written without loss; all of them are read back |
| StoreCodec.RebalancesTake | src/protocol.cpp:625-696 | Which rebalance records are written without loss, and which move lists are read back |
| StoreCodec.StoredGroupsFaithful | src/store.cpp:216-521 | Groups: what is written without loss is read back exactly when it fits, and nothing that does not fit is ever read |
| StoreCodec.StoredGroupsTake | src/store.cpp:282-521 | What fits means: every structural check of the group reader, spelled out |
| StorePayload.PayloadRoundTrip | src/store.cpp:722-816 | A written payload is read back exactly when every check of the reader holds of it |
| StorePayload.AcceptedPayloadFits | src/store.cpp:747-816 | Nothing is ever accepted, whatever the bytes, that does not pass every check and would not be read back again |
| StorePayload.ReadGroups | src/store.cpp:765-775 | The loop that reads groups into a table stops at a repeated group and otherwise returns all of them |
| StorePayload.ReadPayload | src/store.cpp:747-816 | The payload reader accepts exactly what the specification decodes, to the last byte |
| Durable.GroupReadBack | src/store.cpp:282-521 | A reachable kind of group passes every structural check exactly when its cost terms are complete and its pending plan names only members it has |
| Durable.GroupDetermined | src/store.cpp:216-279 | The stored form determines the group: everything a group holds survives, unless two digests collide |
| DurableSteps.StepLasts | src/governor_mutate.cpp:528-1770 | Every step but a revalidation keeps every group fit for the store and its cost terms unchanged; a new group has complete terms |
| DurableSteps.RevalidationTerms | src/governor_mutate.cpp:1183-1233 | What a revalidation leaves of the cost terms: the claimed ones if it adopted them, even when it is then refused |
| DurableRuns.BytesOfPayload | src/store.cpp:722-745 | Because table and queue agree, as many attempts are written as are counted |
| DurableRuns.ReachableStatesReadBack | src/store.cpp:722-816 | Every reachable state is read back from its own payload if and only if all cost terms are complete and no pending plan brings in new members; otherwise it is refused |
| DurableRuns.SpoiledExactly | src/governor_mutate.cpp:1203-1233 | A step makes complete cost terms incomplete exactly when it is a revalidation that adopts incomplete ones |
| DurableRuns.SpoilingIsRefused | src/governor_mutate.cpp:1203-1233 | Such a revalidation is always refused, and the refusal keeps the adopted terms |
| DurableRuns.UnspoiledStatesReadBack | src/store.cpp:722-816 | Without such a refused revalidation, every reachable state with no pending plan is read back completely |
| DurableRuns.SavedFileReadsBack | src/store.cpp:820-839 | In every reachable state saving is refused exactly when the payload is over the record limit, which is exactly when the file reader would refuse the image; otherwise the file is accepted, and what is taken from it is the epoch of the state and a payload that decodes to everything written exactly when every group is readable |
| DurableRuns.UnspoiledIsReadable | src/store.cpp:722-816 | Without a refused revalidation that leaves incomplete terms, every group of a reachable state with no pending plan is readable |
| DurableRuns.SpoiledStateIsLost | src/store.cpp:336-339 | Right after the first such revalidation the state is refused by its own reader |
| DurableRuns.SamePayloadSameGroups | src/store.cpp:722-816 | The payload determines the groups of a state, unless digests collide |
| SpoiledRun.SpoiledRunExists | src/governor_mutate.cpp:1203-1233 | A concrete run of four ordinary steps that ends in a state its own reader refuses |
| Sha256Hasher.ExpandSchedule | src/digest.cpp:60-70 | The two loops build the message schedule of section 6.2.2 of FIPS 180-4 |
| Sha256Hasher.Sha256.CompressBuffer | src/digest.cpp:59-103 | The sixty-four rounds in place equal the block function of section 6.2.2 of FIPS 180-4 |
| Sha256Hasher.Sha256.Update | src/digest.cpp:105-123 | Buffering and compressing in pieces absorbs exactly the concatenation; nothing after the digest was taken |
| Sha256Hasher.Sha256.Finish | src/digest.cpp:130-154 | For messages shorter than 2^61 bytes the digest is the hash of everything absorbed, padded as in section 5.1.1 of FIPS 180-4; a second call repeats it |
| Sha256Hasher.HashChunks | src/digest.cpp:105-154 | However a message is cut into chunks, the digest is the hash of the whole message |
| Sha256Spec.HashBlocksAppend | src/digest.cpp:105-123 | Folding the block function over two whole-block pieces one after the other equals folding it over both |
| Standing.ReachableStanding | src/lifecycle.cpp:119-136 | In every reachable state an open group is rebalancing exactly with a plan; otherwise declared exactly when nobody is declared, waiting for revalidation exactly when somebody is declared and nobody is active or one of the four authority bits is set, degraded exactly when some but fewer than the minimum are active with no bit set, and active exactly when at least the minimum are |
| Standing.ReachableMembersTold | src/governor_core.cpp:290-414 | In every reachable state each member is active, stale, ineligible or withdrawn exactly as its flags say, and the members stand by path and then by identity, each once |
| Restoration.RevalidationBringsBack | src/governor_mutate.cpp:309-363 | After an accepted revalidation each declared entry has the path proof exactly when the path authority vouches for path and generation, the set proof exactly when the group is direct or its current set contains the path, and is active exactly when it is enabled and has both; each staleness bit is set exactly when some declared entry lacks that proof, and authority is no longer in doubt |
| Restoration.RevalidatedExactly | src/governor_mutate.cpp:1141-1250 | Past the common checks a revalidation is accepted if and only if it fits the batch, names no member twice, brings a policy only with as many agreeing claims as declared members and as last announced, every update applies under the resulting terms, and a named set generation is the current one |
| Restoration.RevalidationTakes | src/governor_mutate.cpp:1183-1250 | What an accepted revalidation takes over: each declared record as its own update renews it and otherwise unchanged, the claimed terms when they bring another policy, and the named set generation |
| Lapses.FenceInvalidates | src/governor_query.cpp:193-220 | Fencing a live boot takes every proof and the plan from every open group bound to it, in whatever open lifecycle, notes both causes and leaves it waiting for revalidation or declared; map, members and generations stay, and every other group is exactly as before |
| Lapses.FenceAnswer | src/governor_query.cpp:167-192 | A fence without publisher or boot is malformed; one of a boot that is not live is accepted and changes nothing |
| Lapses.EpochInvalidates | src/governor_query.cpp:69-115 | A later epoch unregisters every publisher, empties the fence and invalidates every open group, whose authority generation moves by one; closed groups stay, and an epoch that is not later changes nothing |
| Binding.ReachableBindingsArePast | src/governor_query.cpp:69-115 | In every reachable state no group is bound to a future epoch, which is why a later epoch spares no open group |
| Lapses.RestartInvalidates | src/store.cpp:527-553 | A restart invalidates every open group it loads, moves authority generations by one and forgets publishers, fence and attempts; closed groups keep lifecycle and map |
| Binding.CarriedOutIsSigned | src/governor_core.cpp:290-414 | Whatever the request, when it is carried out its group is bound to the publisher, boot and epoch that signed it; if a generation or the lifecycle moved, the newest history entry names signer, epoch, reason and generations and the latest earlier ones stay behind it, otherwise the history stays |
| GroupEffects.RefreshIsChronicled | src/governor_core.cpp:383-412 | Every legal refresh writes exactly one history entry when a generation or the lifecycle moved and none otherwise; the entry tells the number of buckets that changed owner, the plan, the members and the map, and the oldest entries over the bound are dropped |
| NoticeEffects.NoticeIsHeard | src/governor_mutate.cpp:1524-1770 | After an admitted notice every group it concerns has gained and lost exactly the proofs the notice speaks of, per entry; under another cost policy, or when the set is lost, nobody is active and the map is empty; members, map and lifecycle follow. Groups it does not concern keep everything but the remark whether a path is authorized |
| NoticeEffects.NoticeAnswer | src/governor_mutate.cpp:1603-1607 | An admitted notice reports a rebalance exactly when it concerns some group |
| Admission.ValidatedExactly | src/governor_mutate.cpp:200-291 | A spec is refused with the answer of the first condition it fails: completeness, path known, authorized and current, set current and containing the path, class, model, version, route class, policy generation, cost; one that meets all of them is admitted |
| Admission.CreatedExactly | src/governor_mutate.cpp:528-687 | Past authorization a creation is carried out if and only if its terms fit every limit, no group has its identity or key, its members are distinct and each meets every upstream condition, and enough of them are enabled |
| Admission.AddedExactly | src/governor_mutate.cpp:689-741 | Past the common checks a member is added if and only if it is not declared, meets every condition of the group upstream and in cost, and there is room in group, buckets and governor |
| Admission.EnabledExactly | src/governor_mutate.cpp:774-826 | Past the common checks a member is enabled if and only if it is declared and disabled, its recorded spec meets every condition now, and the cost policy of the group is not stale |
| Admission.DisabledExactly | src/governor_mutate.cpp:774-826 | Disabling succeeds exactly for declared, enabled members, is no change for disabled ones, and anyone else is unknown |
| Admission.RemovedExactly | src/governor_mutate.cpp:743-772 | Past the common checks exactly the declared members can be removed |
| Admission.AppliedSetExactly | src/governor_mutate.cpp:828-981 | Past the common checks a member set is carried out if and only if its specs are complete and distinct, fit the bounds, keep the paths of declared members, ask for no more changes than a batch, all meet the conditions of the group, and move no more buckets than allowed |
| Admission.PlannedExactly | src/governor_mutate.cpp:1269-1345 | Past the common checks a plan is accepted if and only if none is pending and its set would be admitted and move no more buckets than allowed |
| Admission.ChangesCounted | src/governor_mutate.cpp:1045-1074 | The changes a set asks for are the number of its specs that differ from what is declared plus the number of declared members it leaves out |
| Permission.StoppedExactly | src/governor_mutate.cpp:57-145 | The common checks stop a request exactly when one of their conditions fails, with the answer of the first: identities, epoch, registration, boot, capability, scope, group, attempt, lifecycle, the three expected generations |
| Permission.StoppedRequest | src/governor_mutate.cpp:411-449 | A stopped request is answered accordingly and changes nothing |
| Permission.StoppedCreation | src/governor_mutate.cpp:528-560 | The same for a creation, which has no group to look at yet |
| Permission.StoppedNotice | src/governor_mutate.cpp:488-526 | A notice is stopped exactly when identities, epoch, registration, boot, capability or subject fail, and then changes nothing |
| Permission.RegisteredExactly | src/governor_query.cpp:117-165 | A registration is accepted if and only if it is complete, current, grants something, its boot is not fenced and there is room; then the publisher has it and a superseded boot is fenced, otherwise nothing changes |
| Permission.CoversExactly | src/authority.cpp:53-79 | A scope covers a group exactly when everything it names agrees with the group; parts left nil match everything |
| Permission.CapabilitiesExactly | src/authority.cpp:106-108 | The two capabilities are separate bits and do not imply each other |
| Permission.LegalExactly | src/lifecycle.cpp:136-178 | The lifecycles in which each event is legal, event by event |
| Permission.PayloadTellsTheRequest | src/protocol.cpp:1158-1540 | Two requests for one operation with the same payload and signature are the same request |
| MemberEffects.CreatedEffect | src/governor_mutate.cpp:606-687 | A creation that is carried out stores exactly the group it asks for: terms, members in canonical order and fully proven, a map with canonical shares, first generations, binding; every other group stays |
| MemberEffects.AddedEffect | src/governor_mutate.cpp:689-741 | An added member is listed exactly as its spec says and fully proven; every other entry stays, and the map is the rebalance of the old one |
| MemberEffects.RemovedEffect | src/governor_mutate.cpp:743-772 | A removed member is listed withdrawn, if it is still listed; every other entry stays, and the map is the rebalance of the old one |
| MemberEffects.EnabledEffect | src/governor_mutate.cpp:774-826 | Switching a member changes its entry as asked, proves it when it is enabled, and leaves every other entry |
| MemberEffects.AppliedEffect | src/governor_mutate.cpp:935-981 | A set that is carried out leaves exactly its members declared, each as its spec says and fully proven, and everyone else withdrawn; the answer tells whether the map changed |
| MemberEffects.CommittedEffect | src/governor_mutate.cpp:1347-1393 | An applied commit leaves exactly the planned members declared, as planned and fully proven, and everyone else withdrawn |
| MemberEffects.EvictExactly | src/governor_mutate.cpp:365-379 | Over its bound the list forgets withdrawn members in canonical order and no more than it must: up to some place only declared members are left, behind it everybody |
| GroupEffects.PlannedEffect | src/governor_mutate.cpp:1292-1333 | An accepted plan holds the specs in canonical order, the rebalanced map and moves that lead to it; members and causes of the group stay |
| GroupEffects.AbortedEffect | src/governor_mutate.cpp:1395-1416 | An abort removes the plan it names and nothing else: members, map and causes stay and the group serves on |
| GroupEffects.AbortedExactly | src/governor_mutate.cpp:1395-1416 | Past the common checks an abort is carried out exactly when it names the pending plan |
| GroupEffects.EndedEffect | src/governor_mutate.cpp:1418-1522 | What each administrative request leaves: a beginning withdrawal keeps everything but the lifecycle, a completed one and a retirement leave nobody declared, a revocation and a supersession leave everybody disabled; a terminal group has no active member and an empty map |
| GroupEffects.EndedExactly | src/governor_mutate.cpp:1418-1522 | Past the common checks every withdrawal, revocation and retirement is carried out, and a supersession exactly when its successor is another, known group in service |
| Answers.CreateAnswered | src/governor_mutate.cpp:528-687 | With which answer a creation past authorization is refused: by its terms, then by the first member that is named twice or does not meet the conditions, then by too few enabled members; otherwise it is carried out |
| Answers.AddAnswered | src/governor_mutate.cpp:689-741 | The answer of an addition past the common checks: declared already, no room, what the spec fails first, or added |
| Answers.SwitchAnswered | src/governor_mutate.cpp:774-826 | The answer of a switch past the common checks for every entry: unknown, no change, stale cost, what the recorded spec fails first, or switched |
| Answers.SetAnswered | src/governor_mutate.cpp:828-981 | With which answer a member set past the common checks is refused: shape, size, paths, number of changes, first spec that fails, number of moves; otherwise it is carried out |
| Answers.PlanAnswered | src/governor_mutate.cpp:1269-1345 | The answer of a plan request past the common checks: pending plan, shape, size, first spec on another path or failing, number of changes, number of moves, or planned |
| Answers.CommitAnswered | src/governor_mutate.cpp:1347-1393 | The answer of a commit past the common checks: another plan or none, a generation moved since, or applied |
| Answers.SupersedeAnswered | src/governor_mutate.cpp:1488-1522 | The answer of a supersession past the common checks: by nobody or itself, by an unknown group, by a closed one with the answer of its lifecycle, or carried out |
| Answers.RevalidationAnswered | src/governor_mutate.cpp:1141-1250 | With which answer a revalidation past the common checks is refused: size of the batch, a member named twice, the policy it brings, the first update that does not apply to the group as it was, the set generation it names |
| Layouts.PayloadLaid | src/store.cpp:722-745 | The bytes of a payload, from the version to the trailer, are the listed fields one after the other: every field of every record in its place and width, enumerations numbered in the listed order, causes as powers of two |
| Sha256Vectors.DigestOfAbc | tests/test_core.cpp:343-347 | The hash of the three letters abc is the published digest |
| Sha256Vectors.InitialHashIsRoots | src/digest.cpp:55-57 | The initial words are the first 32 fractional bits of the square roots of the first eight primes |
| Sha256Vectors.ConstantsAreRoots | src/digest.cpp:11-29 | The sixty-four round constants are the first 32 fractional bits of the cube roots of the first sixty-four primes |

## Left out

- Exhaustion of 64-bit counters: generations and epochs are unbounded in the step functions, so the early returns of
  `refresh_group` on an exhausted counter are not modelled; the store theorems name the 64-bit bound as a hypothesis.
- Condition lists, detail texts, explanations, renderings and statistics such as the number of committed rebalances: they
  feed no decision (the counter of rebalances is an arbitrary number where a payload is written).
- Null upstream views are modelled as views without entries.
- Sockets, sessions, threads and process control; the lock makes every step atomic.
- File system calls: replacing the store file is one act that may fail and change nothing.
- Wire frames, request decoding and the codecs of mutation results and condition lists.
- The member part of `diff_snapshots` and the member event table, which no mutation uses.
- The kinds of store defects inside a payload: the model says whether a payload is accepted, not which defect is named.
- The readers of single records inside a group are modelled as functions on byte sequences; the envelope, the bucket map
  and the loop over groups are also given as loops with a cursor.
- Groups and their member lists are values inside the governor object: references into them, and their aliasing, are
  not modelled.
- The epoch recorded with a publisher and the live count of publishers: nothing reads them to decide anything.
- The private lists the program keeps sorted for its own indexes are kept, but their order is not stated.
- Predecessor links: a second supersession into the same successor overwrites them, and nothing follows them, so only
  successor links have a theorem.
- EcmpGovernorClass.EcmpGovernor.LoadImage: says that the governor is in order afterwards only for images of groups in
  order, as every saved image is; the payload reader itself accepts more, and then only the indexes are known to be exact.
- DurableRuns.ReachableStatesReadBack: takes as hypotheses that no counter has reached 64 bits and that the limits are
  32-bit numbers, which the program's types guarantee.
- Attempts compare payloads by the encoded request without its operation, as the program does; collisions of the digest
  are left out.
- Integrity strength of the file tag: the envelope theorems hold for every tag function.
