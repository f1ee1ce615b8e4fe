# Kairo: shard movement, mailboxes and watches, proved

Kairo is an actor framework with cluster sharding. This project models the parts of it that decide
who owns a shard, which message is processed when, and who is told what, and proves what they promise
for all inputs, all runs and all interleavings. `dafny verify dfyconfig.toml` checks everything.

Code that changes state in place is written as classes and loops. Each method is proved against a
function on values, and the theorems are about those functions. Protocols between threads or actors
are state machines whose steps are the atomic actions of the code.

## What is modelled

- **Shard table and least-shards policy** (`Allocation`, `Loads`, `LeastShards`, `Rebalancing`): the double
  index of homes, allocation to the lightest region, the rebalance selection, and whole rebalance rounds.
- **Coordinator** (`Coordinator`, `CoordinatorDecisions`, `RememberedHomes`): the durable state and its events,
  and the decisions about home requests, rebalances, shutdowns and handoff results.
- **Handoff** (`Handoff`, `HandoffRuns`): one worker that first makes every participant drop its cached home and
  then has the old owner stop the shard.
- **Coordinator with its workers** (`CoordinatorActor`, `Protocol`, `CoordinatorRuns`): the message handling that joins the two. A log
  records what was done; an execution is any interleaving of requests, registrations, region losses, marker
  changes, rebalances, shutdowns, worker messages and worker results. Worker messages are arbitrary in content,
  order and number, except that a termination notice must have been sent by the coordinator. When the
  coordinator actor fails (a policy error while it serves waiting shards or freed requesters, or a termination
  notice that a stopped worker no longer takes), the execution ends there.
- **Region** (`Region`, `RegionRuns`): routing, the home cache and the bounded queues of one region.
- **Remembered entities** (`JavaHash`, `Remember`): the bucketed store and the coalesced updates to it.
- **Actor runtime** (`Mailboxes`, `Activation`): the mailbox, and the scheduling of an actor with one step per atomic
  operation on the mailbox, the flags and the dispatcher queue.
- **Smaller cores**: the deterministic scheduler (`Scheduler`, `SchedulerRuns`), actor paths (`Text`, `Paths`), restart
  budgets (`Supervision`) and death watch (`DeathWatch`, `DeathWatchRuns`).

`Ids` holds identifiers, their order and the iteration order of ordered sets.

## Findings

- A closed interval as long as the restart window can hold 2 * limit - 1 restarts, not only the limit:
  `RestartsBounded` proves the bound and `RestartsBoundAttained` a history that reaches it for every limit.
- A path is read back exactly under the condition of `PathRoundTrip`. A segment with a number but an empty name
  is read back; a name without a number that holds a number mark is not.

## Model

| member | source | states |
|---|---|---|
| Allocation.ShardAllocations.constructor | kairo-next/crates/kairo-cluster-sharding/src/allocation.rs:20-22 | a new table has no regions and no homes |
| Allocation.ShardAllocations.InsertRegion | kairo-next/crates/kairo-cluster-sharding/src/allocation.rs:36-44 | adds an unknown region with no shards and reports whether it was new; the table stays consistent |
| Allocation.ShardAllocations.RemoveRegion | kairo-next/crates/kairo-cluster-sharding/src/allocation.rs:57-64 | forgets the region and exactly the homes that name it, and returns its shards in allocation order |
| Allocation.ShardAllocations.AllocateShard | kairo-next/crates/kairo-cluster-sharding/src/allocation.rs:70-95 | makes the region the only owner, as its newest shard unless it was the owner already; unknown regions are refused without change |
| Allocation.ShardAllocations.DeallocateShard | kairo-next/crates/kairo-cluster-sharding/src/allocation.rs:98-110 | takes the shard out of its region's list and out of the index; unknown shards are refused without change |
| Allocation.AssignedConsistent | kairo-next/crates/kairo-cluster-sharding/src/allocation.rs:70-95 | assigning keeps lists duplicate-free and the index their exact inverse, and changes one home only |
| Allocation.DeallocatedConsistent | kairo-next/crates/kairo-cluster-sharding/src/allocation.rs:98-110 | deallocating keeps the table consistent and every other region's list as it was |
| Allocation.WithoutRegionsConsistent | kairo-next/crates/kairo-cluster-sharding/src/allocation.rs:57-64 | removing regions keeps the table consistent |
| Allocation.LoadsTotal | kairo-next/crates/kairo-cluster-sharding/src/allocation.rs:133-140 | the region loads of a consistent table add up to its number of homes |
| Allocation.AssignedNewest | kairo-next/crates/kairo-cluster-sharding/src/allocation.rs:70-95 | an assigned shard becomes the newest of its region unless it was there already; no other shard moves within a list |
| LeastShards.RebalanceLimit | kairo-next/crates/kairo-cluster-sharding/src/allocation.rs:223-226 | the per-round limit: at least one, and otherwise the largest number within both the absolute limit and the relative share |
| LeastShards.Lightest | kairo-next/crates/kairo-cluster-sharding/src/allocation.rs:239-256 | one pass finds the region with the fewest shards, ties broken by identifier |
| LeastShards.Allocate | kairo-next/crates/kairo-cluster-sharding/src/allocation.rs:239-256 | a home exists exactly when some region is registered, and it is the lightest one |
| LeastShards.ByLoad | kairo-next/crates/kairo-cluster-sharding/src/allocation.rs:142-155 | all regions, ordered by load and then identifier |
| LeastShards.Rebalance | kairo-next/crates/kairo-cluster-sharding/src/allocation.rs:258-310 | the selection loop computes exactly the specified selection |
| LeastShards.CollectSurplus | kairo-next/crates/kairo-cluster-sharding/src/allocation.rs:277-288 | the accumulating loop collects each region's oldest shards above the optimal load |
| LeastShards.CountBelow | kairo-next/crates/kairo-cluster-sharding/src/allocation.rs:293-300 | the total by which regions are short of one below the optimal load |
| LeastShards.CollectOldest | kairo-next/crates/kairo-cluster-sharding/src/allocation.rs:305-309 | the oldest shard of every region at or above the optimal load |
| Rebalancing.SelectionSpec | kairo-next/crates/kairo-cluster-sharding/src/allocation.rs:258-310 | with nothing in progress the selection is empty exactly when no two loads differ by more than one; otherwise it has between one and limit placed shards and leaves every source region at least the even share less one |
| Rebalancing.SelectedMovable | kairo-next/crates/kairo-cluster-sharding/src/allocation.rs:258-310 | every selection is covered: some level at or just below the even share exists that no source region is drained below and below which there is room for every selected shard |
| Rebalancing.SelectionExact | kairo-next/crates/kairo-cluster-sharding/src/allocation.rs:258-310 | nothing is selected while something is under way; otherwise the exact number selected (the surplus above the even share, or else the shortfall, up to the limit and the number of full regions), and each region gives its oldest shards |
| Rebalancing.RoundLowersSquares | kairo-next/crates/kairo-cluster-sharding/src/allocation.rs:239-310 | a whole round (every selected shard released and placed again by least-shards, in any interleaving) keeps all shards and regions and lowers the sum of squared loads by at least two per moved shard |
| Rebalancing.RoundsBounded | kairo-next/crates/kairo-cluster-sharding/src/allocation.rs:239-310 | no sequence of rounds that move something is longer than half the initial sum of squares, plus one table |
| Rebalancing.RoundFinishes | kairo-next/crates/kairo-cluster-sharding/src/allocation.rs:239-310 | a round that has begun can always be completed |
| Rebalancing.RoundsReachBalance | kairo-next/crates/kairo-cluster-sharding/src/allocation.rs:239-310 | repeating rounds ends in a table where loads differ by at most one and nothing more is selected |
| Coordinator.CoordinatorState.constructor | kairo-next/crates/kairo-cluster-sharding/src/coordinator.rs:61-75 | the initial durable state |
| Coordinator.CoordinatorState.SetRememberEntities | kairo-next/crates/kairo-cluster-sharding/src/coordinator.rs:69-75 | switches remembering; off forgets the waiting shards |
| Coordinator.CoordinatorState.MergeRememberedShards | kairo-next/crates/kairo-cluster-sharding/src/coordinator.rs:115-132 | remembered shards without a home join the waiting ones; returns exactly the newly known ones, each once, in order |
| Coordinator.CoordinatorState.Apply | kairo-next/crates/kairo-cluster-sharding/src/coordinator.rs:143-208 | every event has the specified effect or is refused with the specified error and changes nothing |
| Coordinator.NextWellFormed | kairo-next/crates/kairo-cluster-sharding/src/coordinator.rs:143-208 | every event keeps the two indexes exact inverses and waiting and placed shards apart |
| Coordinator.NextHomes | kairo-next/crates/kairo-cluster-sharding/src/coordinator.rs:157-208 | which homes each event changes, and that nothing else does |
| Coordinator.NextKeepsShards | kairo-next/crates/kairo-cluster-sharding/src/coordinator.rs:171-208 | a remembering coordinator loses no shard to any event |
| Coordinator.AllShardsMeaning | kairo-next/crates/kairo-cluster-sharding/src/coordinator.rs:103-109 | all shards are exactly those with a home and those waiting |
| Coordinator.NextMembers | kairo-next/crates/kairo-cluster-sharding/src/coordinator.rs:157-208 | registered regions, proxies and placed shards after an event are exactly those before with the reported one added or gone |
| Coordinator.NextShards | kairo-next/crates/kairo-cluster-sharding/src/coordinator.rs:171-208 | a remembering coordinator knows after an event exactly what it knew before and a newly allocated shard |
| Coordinator.RefusedExactly | kairo-next/crates/kairo-cluster-sharding/src/coordinator.rs:143-208 | every event but initialization is refused exactly when it would change nothing |
| Coordinator.RefusalNames | kairo-next/crates/kairo-cluster-sharding/src/coordinator.rs:157-208 | each error is returned exactly for the condition it names |
| Coordinator.MergedMeaning | kairo-next/crates/kairo-cluster-sharding/src/coordinator.rs:115-132 | a merge adds exactly the given shards to what a remembering coordinator knows and touches nothing else |
| Coordinator.HistoryInvariant | kairo-next/crates/kairo-cluster-sharding/src/coordinator.rs:103-208 | over every sequence of events, merges and switches the state stays well formed, and while remembering stays on no shard is ever lost |
| CoordinatorDecisions.CoordinatorRuntime.constructor | kairo-next/crates/kairo-cluster-sharding/src/coordinator_runtime.rs:194-204 | the initial runtime around a state |
| CoordinatorDecisions.CoordinatorRuntime.ActiveAllocations | kairo-next/crates/kairo-cluster-sharding/src/coordinator_runtime.rs:599-612 | the copy-and-remove loop yields the table without draining and terminating regions |
| CoordinatorDecisions.CoordinatorRuntime.BeginRebalance | kairo-next/crates/kairo-cluster-sharding/src/coordinator_runtime.rs:327-336 | marks a shard once |
| CoordinatorDecisions.CoordinatorRuntime.ClearRebalance | kairo-next/crates/kairo-cluster-sharding/src/coordinator_runtime.rs:339-344 | unmarks a shard and returns its deferred requesters, sorted |
| CoordinatorDecisions.CoordinatorRuntime.RequestShardHome | kairo-next/crates/kairo-cluster-sharding/src/coordinator_runtime.rs:530-590 | a home request has exactly the specified answer and state change |
| CoordinatorDecisions.CoordinatorRuntime.StartHandoffs | kairo-next/crates/kairo-cluster-sharding/src/coordinator_runtime.rs:398-415 | the loop marks and plans exactly the shards that have a home and no handoff yet, in order |
| CoordinatorDecisions.CoordinatorRuntime.PlanRebalance | kairo-next/crates/kairo-cluster-sharding/src/coordinator_runtime.rs:361-424 | planning has exactly the specified plan, skip reason and state change |
| CoordinatorDecisions.CoordinatorRuntime.PlanRegionShutdown | kairo-next/crates/kairo-cluster-sharding/src/coordinator_runtime.rs:430-470 | graceful shutdown has exactly the specified plan and state change |
| CoordinatorDecisions.CoordinatorRuntime.CompleteRebalance | kairo-next/crates/kairo-cluster-sharding/src/coordinator_runtime.rs:477-522 | a handoff result has exactly the specified outcome and state change and never fails |
| CoordinatorDecisions.CoordinatorRuntime.AllocateRememberedShardHomes | kairo-next/crates/kairo-cluster-sharding/src/coordinator_runtime.rs:232-263 | the loop serves the waiting shards in order and stops at the first error |
| CoordinatorDecisions.ActiveMeaning | kairo-next/crates/kairo-cluster-sharding/src/coordinator_runtime.rs:599-612 | the table the policy sees holds exactly the registered regions that neither drain nor terminate, and the homes in them |
| CoordinatorDecisions.HomeRequestMeaning | kairo-next/crates/kairo-cluster-sharding/src/coordinator_runtime.rs:530-597 | for every policy: deferred exactly during a handoff; answered exactly with a home whose region is not terminating; a home is given in r exactly when the shard is not under way, the gate is open, it has no home, some region accepts shards, and the policy asked with that table answers r, which accepts shards; nothing else changes the state |
| CoordinatorDecisions.HomeRequestRefused | kairo-next/crates/kairo-cluster-sharding/src/coordinator_runtime.rs:530-590 | when a request fails with the policy's error and when each reason for leaving it unanswered is given |
| CoordinatorDecisions.RebalancePlanMeaning | kairo-next/crates/kairo-cluster-sharding/src/coordinator_runtime.rs:361-424 | for every policy: started exactly when nothing stands in the way and some selected shard is placed and not under way; then exactly those selected shards become marked, one plan each in identifier order, from the home, with all regions and proxies taking part |
| CoordinatorDecisions.RebalanceSkipped | kairo-next/crates/kairo-cluster-sharding/src/coordinator_runtime.rs:361-424 | when each skip reason is given and when the policy's error is returned |
| CoordinatorDecisions.ShutdownPlanMeaning | kairo-next/crates/kairo-cluster-sharding/src/coordinator_runtime.rs:430-470 | what a shutdown request is answered; a registered region starts to drain with exactly its shards not yet under way newly handed off, in allocation order, so every shard of it is under way afterwards |
| CoordinatorDecisions.CompletionMeaning | kairo-next/crates/kairo-cluster-sharding/src/coordinator_runtime.rs:477-522 | success takes the home away and leaves every marker alone; failure keeps the home and ends the draining of its region and nothing else; the requesters returned are those deferred, sorted |
| CoordinatorDecisions.StrayCompletion | kairo-next/crates/kairo-cluster-sharding/src/coordinator_runtime.rs:483-488 | a result for a shard that is not under way changes nothing |
| RememberedHomes.RememberedHomesPlaced | kairo-next/crates/kairo-cluster-sharding/src/coordinator_runtime.rs:248-263 | with the gate open, an active region and least-shards, one pass never fails, leaves waiting exactly the shards being handed off, changes no existing home, and fills no active region beyond its old load or the even share |
| Handoff.HandoffWorker.constructor | kairo-next/crates/kairo-cluster-sharding/src/handoff_worker.rs:566-581 | a fresh worker for a plan |
| Handoff.HandoffWorker.Receive | kairo-next/crates/kairo-cluster-sharding/src/handoff_worker.rs:603-636 | each message has exactly the specified effect on the phase, the open acknowledgements and what is sent |
| Handoff.HandoffWorker.Begin | kairo-next/crates/kairo-cluster-sharding/src/handoff_worker.rs:643-675 | starting sends invalidations in order and gives up at the first that is not accepted; without participants it goes straight to the stop command |
| Handoff.HandoffWorker.SendInvalidations | kairo-next/crates/kairo-cluster-sharding/src/handoff_worker.rs:660-673 | the loop sends up to and including the first refused invalidation |
| Handoff.HandoffWorker.ApplyBeginAck | kairo-next/crates/kairo-cluster-sharding/src/handoff_worker.rs:677-699 | a matching acknowledgement removes one participant, the last one releases the stop command, any other reply fails the handoff |
| Handoff.HandoffWorker.SendLocalHandoff | kairo-next/crates/kairo-cluster-sharding/src/handoff_worker.rs:701-725 | the stop command is sent once; refusal fails the handoff |
| Handoff.HandoffWorker.ApplyLocalHandoff | kairo-next/crates/kairo-cluster-sharding/src/handoff_worker.rs:727-750 | the owner region's reply |
| Handoff.HandoffWorker.ApplyShardHandoffObserved | kairo-next/crates/kairo-cluster-sharding/src/handoff_worker.rs:752-787 | the shard's reply, including asking for completion of an entity stopper |
| Handoff.HandoffWorker.ApplyLocalHandoffCompletion | kairo-next/crates/kairo-cluster-sharding/src/handoff_worker.rs:789-806 | a completion counts only for the worker's own shard |
| Handoff.HandoffWorker.ApplyRemoteShardStopped | kairo-next/crates/kairo-cluster-sharding/src/handoff_worker.rs:808-821 | a remote stop counts only from the owner and for the shard |
| Handoff.HandoffWorker.ApplyRegionTerminated | kairo-next/crates/kairo-cluster-sharding/src/handoff_worker.rs:823-841 | termination stands for an acknowledgement first and for the owner's stop later |
| Handoff.HandoffWorker.Finish | kairo-next/crates/kairo-cluster-sharding/src/handoff_worker.rs:843-861 | finishing reports at most once |
| HandoffRuns.WorkerReportsOnce | kairo-next/crates/kairo-cluster-sharding/src/handoff_worker.rs:643-861 | in every run at most one stop command, sent only after every participant let go since the start; at most one report, and exactly one once a started worker is done |
| HandoffRuns.WorkerPhaseForward | kairo-next/crates/kairo-cluster-sharding/src/handoff_worker.rs:643-861 | the phase never moves back |
| HandoffRuns.WorkerSuccessJustified | kairo-next/crates/kairo-cluster-sharding/src/handoff_worker.rs:643-861 | success is reported only after a start, then the release of every participant, then evidence that the owner stopped the shard |
| HandoffRuns.HandoffSucceeds | kairo-next/crates/kairo-cluster-sharding/src/handoff_worker.rs:643-861 | conversely, when sends are accepted, all participants let go in any order and the owner is then seen to have stopped, success is reported |
| HandoffRuns.StartTells | kairo-next/crates/kairo-cluster-sharding/src/handoff_worker.rs:643-675 | starting sends one accepted invalidation to each participant in identifier order and waits for all; at the first refused one that refusal is the last invalidation and failure is reported; without participants the owner is told at once |
| HandoffRuns.WorkerTellsBeforeStop | kairo-next/crates/kairo-cluster-sharding/src/handoff_worker.rs:643-725 | in every run the stop command comes only after every participant accepted an invalidation; invalidations go out in identifier order, at most one each |
| HandoffRuns.StopPhaseReplies | kairo-next/crates/kairo-cluster-sharding/src/handoff_worker.rs:727-821 | in the second phase success exactly on evidence, failure exactly on a denial, a timeout or a refused completion request; everything else is ignored |
| HandoffRuns.BeginPhaseReplies | kairo-next/crates/kairo-cluster-sharding/src/handoff_worker.rs:677-725 | in the first phase failure exactly on a timeout, a reply that is not the matching acknowledgement, or an owner that cannot be reached after the last one |
| HandoffRuns.TimeoutEnds | kairo-next/crates/kairo-cluster-sharding/src/handoff_worker.rs:603-636 | a timeout ends every worker |
| CoordinatorActor.CoordinatorHandoff.constructor | kairo-next/crates/kairo-cluster-sharding/src/coordinator_handoff.rs:34-41 | no workers at first |
| CoordinatorActor.CoordinatorHandoff.SpawnWorkers | kairo-next/crates/kairo-cluster-sharding/src/coordinator_handoff.rs:48-73 | the loop spawns one worker per plan whose shard has none |
| CoordinatorActor.CoordinatorHandoff.RemoveWorker | kairo-next/crates/kairo-cluster-sharding/src/coordinator_handoff.rs:76-78 | forgets one shard's worker |
| CoordinatorActor.CoordinatorHandoff.ForwardRegionTerminated | kairo-next/crates/kairo-cluster-sharding/src/coordinator_handoff.rs:172-181 | tells every active worker once, in shard order |
| CoordinatorActor.ShardCoordinator.RequestShardHome | kairo-next/crates/kairo-cluster-sharding/src/coordinator_actor.rs:320-333 | one home request and the command that follows from it |
| CoordinatorActor.ShardCoordinator.AllocateRememberedShardHomes | kairo-next/crates/kairo-cluster-sharding/src/coordinator_actor/remember_store.rs:92-107 | the pass over waiting shards; an error ends the coordinator |
| CoordinatorActor.ShardCoordinator.RegisterRegion | kairo-next/crates/kairo-cluster-sharding/src/coordinator_actor.rs:468-487 | registers an unknown region, then serves waiting shards |
| CoordinatorActor.ShardCoordinator.ApplyRegionStopped | kairo-next/crates/kairo-cluster-sharding/src/coordinator_actor.rs:558-578 | clears the region's markers, tells every active worker, drops a registered region and its homes, serves waiting shards |
| CoordinatorActor.ShardCoordinator.PlanRebalance | kairo-next/crates/kairo-cluster-sharding/src/coordinator_actor.rs:440-452 | plans a rebalance and spawns its workers |
| CoordinatorActor.ShardCoordinator.GracefulShutdown | kairo-next/crates/kairo-cluster-sharding/src/coordinator_actor.rs:454-466 | plans a shutdown and spawns its workers |
| CoordinatorActor.ShardCoordinator.ApplyHandoffWorkerDone | kairo-next/crates/kairo-cluster-sharding/src/coordinator_actor.rs:626-702 | forgets the worker, applies the result, asks again for the freed requesters (for itself when a freed home has none) |
| CoordinatorActor.ShardCoordinator.RetryCompletedRebalanceHomes | kairo-next/crates/kairo-cluster-sharding/src/coordinator_actor.rs:704-721 | the retry loop asks once per requester, in order |
| CoordinatorActor.AskedAllRequests | kairo-next/crates/kairo-cluster-sharding/src/coordinator_actor/remember_store.rs:92-107 | the actor's pass is the runtime's pass with the commands of its plans |
| Protocol.ShardMovesSafely | kairo-next/crates/kairo-cluster-sharding/src/coordinator_actor.rs:558-721 | in every execution of coordinator and workers, with worker messages in any order, duplicated or lost, a shard that had home R is given a home again only after R was reported gone or a worker moving the shard away from R succeeded after every participant let go and R was then seen to have stopped it; terminations count only if the coordinator saw them |
| Protocol.HandoffsTracked | kairo-next/crates/kairo-cluster-sharding/src/coordinator_handoff.rs:48-78 | in every reachable state exactly the shards being handed off have a worker, each its own; a home such a shard has is the one its worker vacates; at most one result per worker is under way |
| Protocol.DeferredFreedOnce | kairo-next/crates/kairo-cluster-sharding/src/coordinator_runtime.rs:477-597 | in every execution each handoff result frees exactly the requesters deferred behind the shard since the result before, each once and sorted |
| Protocol.FreedRequestersServed | kairo-next/crates/kairo-cluster-sharding/src/coordinator_actor.rs:665-721 | after a result a home request is made for exactly the freed requesters, in order, or for the coordinator when a freed home has none waiting |
| Protocol.StepKeeps | kairo-next/crates/kairo-cluster-sharding/src/coordinator_actor.rs:273-418 | every modelled coordinator or worker step keeps the joint invariant of runtime, tracked workers, results under way and history |
| CoordinatorRuns.DrainingGetsNoHome | kairo-next/crates/kairo-cluster-sharding/src/coordinator_actor.rs:273-418 | in every execution a draining region stays draining and is given no home until it is lost, its marker is changed, or a handoff from it fails |
| CoordinatorRuns.WorkersInvolveEveryone | kairo-next/crates/kairo-cluster-sharding/src/coordinator_actor.rs:440-466 | in every execution a new worker is spawned for the home its shard has, waits for every region and proxy registered then, and is not replaced before its result is taken |
| CoordinatorRuns.LostRegionForgotten | kairo-next/crates/kairo-cluster-sharding/src/coordinator_actor.rs:558-578 | a lost region is not registered, not marked and nobody's home; every other home, region and marker is as before |
| CoordinatorRuns.RegisteredRegionKnown | kairo-next/crates/kairo-cluster-sharding/src/coordinator_actor.rs:468-487 | a region that registers is known; every home and other region is as before |
| CoordinatorRuns.RegistrationServesWaiting | kairo-next/crates/kairo-cluster-sharding/src/coordinator_actor.rs:468-487 | with least-shards and the gate open, a registration by a region that accepts shards leaves waiting only shards under handoff |
| CoordinatorRuns.LossServesWaiting | kairo-next/crates/kairo-cluster-sharding/src/coordinator_actor.rs:558-578 | likewise the shards of a lost region find new homes at once if another region accepts them |
| CoordinatorRuns.LoadServesWaiting | kairo-next/crates/kairo-cluster-sharding/src/coordinator_actor/remember_store.rs:46-59 | likewise shards loaded from the remember store |
| CoordinatorRuns.LightestHomeGiven | kairo-next/crates/kairo-cluster-sharding/src/coordinator_runtime.rs:564-590 | with least-shards a shard that needs a home gets it in the lightest region that accepts shards |
| Region.ShardRegionRuntime.constructor | kairo-next/crates/kairo-cluster-sharding/src/region_runtime.rs:185-198 | an empty region |
| Region.ShardRegionRuntime.TotalBufferedCount | kairo-next/crates/kairo-cluster-sharding/src/region_runtime.rs:231-233 | the loop adds up all queue lengths |
| Region.ShardRegionRuntime.GracefulShutdownComplete | kairo-next/crates/kairo-cluster-sharding/src/region_runtime.rs:259-263 | complete exactly when shutting down with no local shard and nothing queued |
| Region.ShardRegionRuntime.BufferMessage | kairo-next/crates/kairo-cluster-sharding/src/region_runtime.rs:503-516 | queues at the back exactly when the total is below the capacity |
| Region.ShardRegionRuntime.DrainBuffer | kairo-next/crates/kairo-cluster-sharding/src/region_runtime.rs:518-530 | empties one queue and returns it in order |
| Region.ShardRegionRuntime.UnassignShard | kairo-next/crates/kairo-cluster-sharding/src/region_runtime.rs:541-550 | forgets one home and keeps the by-region index its exact inverse without empty entries |
| Region.ShardRegionRuntime.AssignShard | kairo-next/crates/kairo-cluster-sharding/src/region_runtime.rs:532-539 | sets one home and keeps the by-region index exact |
| Region.ShardRegionRuntime.Route | kairo-next/crates/kairo-cluster-sharding/src/region_runtime.rs:275-329 | delivers, forwards, queues or drops as specified |
| Region.ShardRegionRuntime.HostShard | kairo-next/crates/kairo-cluster-sharding/src/region_runtime.rs:335-360 | takes ownership unless shutting down, and replays or starts |
| Region.ShardRegionRuntime.RecordShardHome | kairo-next/crates/kairo-cluster-sharding/src/region_runtime.rs:367-412 | records a home reply, refusing it during handoff and when it would move a local home away |
| Region.ShardRegionRuntime.MarkShardStarted | kairo-next/crates/kairo-cluster-sharding/src/region_runtime.rs:418-430 | the shard is local and its queue replayed |
| Region.ShardRegionRuntime.BeginHandoff | kairo-next/crates/kairo-cluster-sharding/src/region_runtime.rs:436-449 | forgets the home unless preparing for shutdown |
| Region.ShardRegionRuntime.Handoff | kairo-next/crates/kairo-cluster-sharding/src/region_runtime.rs:456-479 | drops the queue, forgets the home, stops a local shard |
| Region.ShardRegionRuntime.MarkShardStopped | kairo-next/crates/kairo-cluster-sharding/src/region_runtime.rs:482-487 | forgets everything about a stopped shard but its queue |
| Region.ShardRegionRuntime.MarkRegionStopped | kairo-next/crates/kairo-cluster-sharding/src/region_runtime.rs:493-501 | the index loop forgets exactly the homes in that region and returns them sorted |
| RegionRuns.RegionKeepsOrder | kairo-next/crates/kairo-cluster-sharding/src/region_runtime.rs:275-550 | over every sequence of operations the messages accepted for a shard are, in arrival order, those delivered, forwarded or dropped by handoff followed by its queue; the queues fit the capacity and no shard homed elsewhere has one |
| RegionRuns.HomeRequestedOnce | kairo-next/crates/kairo-cluster-sharding/src/region_runtime.rs:311-327 | a home is requested exactly for the first queued message of a shard with unknown home |
| RegionRuns.OwnershipGivenUpFirst | kairo-next/crates/kairo-cluster-sharding/src/region_runtime.rs:367-501 | no operation moves an owned shard's home to another region; it is only given up by handoff or a stop |
| RegionRuns.RouteMeaning | kairo-next/crates/kairo-cluster-sharding/src/region_runtime.rs:275-329 | direct delivery exactly for an owned, started shard with nothing queued; forwarding exactly to the cached remote home; otherwise queued, or dropped exactly at capacity; nothing but that queue changes |
| RegionRuns.OtherShardsUntouched | kairo-next/crates/kairo-cluster-sharding/src/region_runtime.rs:275-487 | an operation on one shard leaves every other shard and flag alone |
| RegionRuns.HostMeaning | kairo-next/crates/kairo-cluster-sharding/src/region_runtime.rs:335-360 | a host command makes the region owner unless it shuts down; a started shard has its queue delivered, any other is starting |
| RegionRuns.HomeReplyMeaning | kairo-next/crates/kairo-cluster-sharding/src/region_runtime.rs:367-412 | when a home reply is refused, and what becomes of home, queue and lifecycle when it is recorded |
| RegionRuns.LifecycleMeaning | kairo-next/crates/kairo-cluster-sharding/src/region_runtime.rs:418-487 | home, queue and lifecycle of a shard after a start, a handoff and a stop |
| RegionRuns.RegionStoppedMeaning | kairo-next/crates/kairo-cluster-sharding/src/region_runtime.rs:493-501 | exactly the homes cached for a stopped region are forgotten and listed in order |
| RegionRuns.BeginHandoffMeaning | kairo-next/crates/kairo-cluster-sharding/src/region_runtime.rs:436-449 | acknowledged exactly outside shutdown preparation; then the shard has no cached home and nothing else changed |
| RegionRuns.AcknowledgedHoldsMessages | kairo-next/crates/kairo-cluster-sharding/src/region_runtime.rs:432-449 | over every run, after an acknowledged first phase no message of the shard is delivered or forwarded until a host command, home reply or start for it |
| JavaHash.HashIsPolynomial | kairo-next/crates/kairo-cluster-sharding/src/remember.rs:258-262 | the wrapping 32-bit fold over UTF-16 units is the polynomial of java.lang.String.hashCode reduced to a signed 32-bit value |
| JavaHash.UnitsRoundTrip | kairo-next/crates/kairo-cluster-sharding/src/remember.rs:259-259 | the UTF-16 units determine the string: reading surrogate pairs back gives its scalar values |
| JavaHash.KeyIndexFor | kairo-next/crates/kairo-cluster-sharding/src/remember.rs:241-250 | refused exactly for zero keys; otherwise a bucket below the key count, equal to the absolute truncated remainder of the hash |
| Remember.RememberShardStoreState.constructor | kairo-next/crates/kairo-cluster-sharding/src/remember.rs:78-92 | five buckets holding exactly the given entities |
| Remember.RememberShardStoreState.InsertEntity | kairo-next/crates/kairo-cluster-sharding/src/remember.rs:143-149 | adds one entity to the flat set; every entity stays in its own bucket only |
| Remember.RememberShardStoreState.RemoveEntity | kairo-next/crates/kairo-cluster-sharding/src/remember.rs:151-156 | removes one entity from the flat set |
| Remember.RememberShardStoreState.RememberedEntities | kairo-next/crates/kairo-cluster-sharding/src/remember.rs:115-120 | the union of the buckets is the flat set, and membership is decided by one bucket |
| Remember.RememberShardStoreState.ApplyUpdate | kairo-next/crates/kairo-cluster-sharding/src/remember.rs:127-141 | stopped entities leave, then started entities enter |
| Remember.WrittenMeaning | kairo-next/crates/kairo-cluster-sharding/src/remember.rs:122-141 | started wins over stopped, everything else stays, and an update can be written twice |
| Remember.KeyIndex | kairo-next/crates/kairo-cluster-sharding/src/remember.rs:231-234 | the bucket is the absolute truncated remainder of the hash by five |
| Remember.ShardRememberState.constructor | kairo-next/crates/kairo-cluster-sharding/src/shard_remember.rs:14-30 | nothing pending |
| Remember.ShardRememberState.RecordStart | kairo-next/crates/kairo-cluster-sharding/src/shard_remember.rs:40-55 | sends at once or joins the pending starts |
| Remember.ShardRememberState.RecordStop | kairo-next/crates/kairo-cluster-sharding/src/shard_remember.rs:57-72 | sends at once or joins the pending stops |
| Remember.ShardRememberState.CompleteUpdate | kairo-next/crates/kairo-cluster-sharding/src/shard_remember.rs:74-98 | drops what the finished update already did and sends the rest as one update |
| Remember.NothingRepeated | kairo-next/crates/kairo-cluster-sharding/src/shard_remember.rs:74-98 | the next update repeats nothing the finished one did, and is not empty |
| Remember.UpdatesRefineHistory | kairo-next/crates/kairo-cluster-sharding/src/shard_remember.rs:40-98 | in every interleaving of recording, writing and completing, the store with the update that is out and the pending changes applied is exactly the recorded history; one update is out at a time; with none out the store is the history |
| Mailboxes.Mailbox.constructor | kairo-next/crates/kairo-actor/src/mailbox.rs:143-153 | an empty open mailbox |
| Mailboxes.Mailbox.SetScheduler | kairo-next/crates/kairo-actor/src/mailbox.rs:155-157 | installs the scheduler |
| Mailboxes.Mailbox.EnqueueUser | kairo-next/crates/kairo-actor/src/mailbox.rs:167-180 | appends unless closed or full, and tells the caller to schedule exactly when the mailbox was idle |
| Mailboxes.Mailbox.PrependUserMessages | kairo-next/crates/kairo-actor/src/mailbox.rs:182-198 | puts messages in front in their order |
| Mailboxes.Mailbox.EnqueueSystem | kairo-next/crates/kairo-actor/src/mailbox.rs:261-270 | appends to the system lane unless closed |
| Mailboxes.Mailbox.TryDequeue | kairo-next/crates/kairo-actor/src/mailbox.rs:272-284 | system messages first, each lane in order, closed last |
| Mailboxes.Mailbox.CloseAndDrainUser | kairo-next/crates/kairo-actor/src/mailbox.rs:294-305 | closes, empties both lanes and counts the plain messages lost |
| Mailboxes.LaneInOrder | kairo-next/crates/kairo-actor/src/mailbox.rs:167-305 | over every history without prepending, accepted user messages are those that left followed by those waiting; the lane fits its capacity; closed stays closed and empty |
| Mailboxes.SystemLaneFirst | kairo-next/crates/kairo-actor/src/mailbox.rs:261-284 | over every history without prepending, accepted system messages are those that left followed by those waiting, and a user message is taken only when no system message waits |
| Mailboxes.RefusedExactly | kairo-next/crates/kairo-actor/src/mailbox.rs:167-180 | a user message is refused exactly by a closed or full mailbox, a system message exactly by a closed one |
| Mailboxes.PrependedFirst | kairo-next/crates/kairo-actor/src/mailbox.rs:182-198 | prepended messages come out first, in order, and leave the mailbox as it was |
| Activation.AtMostOneActivation | kairo-next/crates/kairo-actor/src/runtime.rs:312-345 | in every interleaving of senders, stop requesters, the spawner and workers, at most one activation of the actor is queued or running |
| Activation.NoLostWakeup | kairo-next/crates/kairo-actor/src/runtime.rs:297-345 | in every interleaving, while the dispatcher accepts and the actor is not terminated, a message or pending stop implies an activation queued or running, or a thread bound to schedule or recheck |
| Activation.QuietMeansDone | kairo-next/crates/kairo-actor/src/runtime.rs:99-345 | when all threads are through, no message is left, a stopped actor is terminated and the flag is clear |
| Activation.OneActivationKept | kairo-next/crates/kairo-actor/src/runtime.rs:318-345 | every step keeps the scheduled flag equal to the existence of the one activation |
| Activation.CareKept | kairo-next/crates/kairo-actor/src/runtime.rs:99-345 | every step keeps waiting messages attended and stop requests seen |
| Scheduler.NextDue | kairo-next/crates/kairo-actor/src/scheduler.rs:616-626 | the first entry with the smallest deadline and order among those due |
| Scheduler.ManualScheduler.constructor | kairo-next/crates/kairo-actor/src/scheduler.rs:686-694 | time zero, nothing scheduled |
| Scheduler.ManualScheduler.PopDue | kairo-next/crates/kairo-actor/src/scheduler.rs:616-626 | the scan takes out exactly that entry, by swapping in the last one |
| Scheduler.ManualScheduler.RunUntil | kairo-next/crates/kairo-actor/src/scheduler.rs:518-550 | the loop computes the recursive run: same final state, same actions in the same order |
| Scheduler.ManualScheduler.RunEntry | kairo-next/crates/kairo-actor/src/scheduler.rs:525-548 | an entry runs if active, and a repeating one comes back an interval later |
| Scheduler.ManualScheduler.Advance | kairo-next/crates/kairo-actor/src/scheduler.rs:508-511 | advancing runs everything due up to the new time |
| Scheduler.ManualScheduler.PushScheduled | kairo-next/crates/kairo-actor/src/scheduler.rs:595-614 | a new entry gets the next number; without delay it runs at once; refused after shutdown |
| Scheduler.ManualScheduler.ScheduleRepeated | kairo-next/crates/kairo-actor/src/scheduler.rs:644-665 | a zero interval schedules nothing |
| Scheduler.ManualScheduler.Cancel | kairo-next/crates/kairo-actor/src/scheduler.rs:40-44 | cancels an active action, once |
| Scheduler.ManualScheduler.Shutdown | kairo-next/crates/kairo-actor/src/scheduler.rs:667-676 | cancels and drops everything scheduled |
| SchedulerRuns.AdvanceSplits | kairo-next/crates/kairo-actor/src/scheduler.rs:508-550 | advancing by a and then b equals advancing by a + b, in trace and in final state |
| SchedulerRuns.EntryRuns | kairo-next/crates/kairo-actor/src/scheduler.rs:518-550 | every entry runs at exactly its due times, whatever else is scheduled; cancelled ones never |
| SchedulerRuns.RepeatingRuns | kairo-next/crates/kairo-actor/src/scheduler.rs:704-718 | an active repeating action with first deadline d not after T runs (T - d) / interval + 1 times |
| SchedulerRuns.ScheduledRuns | kairo-next/crates/kairo-actor/src/scheduler.rs:595-614 | a new action runs first exactly its delay after now, then as its kind says; after shutdown nothing is scheduled |
| SchedulerRuns.CancelledNeverRuns | kairo-next/crates/kairo-actor/src/scheduler.rs:40-64 | a cancelled action never runs again and no other action is affected |
| SchedulerRuns.ShutdownSilences | kairo-next/crates/kairo-actor/src/scheduler.rs:667-676 | after a shutdown nothing runs |
| SchedulerRuns.HistoryTimely | kairo-next/crates/kairo-actor/src/scheduler.rs:508-676 | over every history of scheduling, advancing, cancelling and shutdown the (deadline, order) keys run strictly increase, nothing stays overdue and the clock never goes back |
| Paths.FromParts | kairo-next/crates/kairo-actor/src/path.rs:161-176 | the loop builds the printed form |
| Paths.PathRoundTrip | kairo-next/crates/kairo-actor/src/path.rs:59-221 | parsing a printed path returns its address and segments if and only if the parts cannot run into each other (condition stated in the lemma) |
| Paths.AuthorityRoundTrip | kairo-next/crates/kairo-actor/src/path.rs:203-213 | exactly which authorities are read back |
| Paths.SegmentRoundTrip | kairo-next/crates/kairo-actor/src/path.rs:215-221 | exactly which segments are read back, and which print as nothing |
| Paths.ProtocolJoin | kairo-next/crates/kairo-actor/src/path.rs:185-186 | the protocol is split off at the right place, also when it ends in part of the separator |
| Paths.IsValidPathElement | kairo-next/crates/kairo-actor/src/path.rs:223-253 | the index scan accepts exactly the encoded element names |
| Paths.ValidPathRoundTrip | kairo-next/crates/kairo-actor/src/path.rs:161-201 | paths of valid element names under a readable address always round-trip, for any 64-bit uids |
| Text.ParseDecimal | kairo-next/crates/kairo-actor/src/path.rs:215-221 | decimal printing and unsigned parsing are inverse below the bound |
| Supervision.SupervisionState.constructor | kairo-next/crates/kairo-actor/src/supervision.rs:86-90 | a fresh budget |
| Supervision.SupervisionState.RestartAllowed | kairo-next/crates/kairo-actor/src/supervision.rs:93-117 | one runtime restart request |
| Supervision.SupervisionState.StartupRestartAllowed | kairo-next/crates/kairo-actor/src/supervision.rs:119-143 | one startup restart request, which leaves the last slot unused |
| Supervision.RestartsBounded | kairo-next/crates/kairo-actor/src/supervision.rs:93-143 | for calls in time order, a fixed limit and a non-zero window, every closed interval of the window's length holds at most 2 * limit - 1 admitted restarts of both kinds together |
| Supervision.RestartsBoundAttained | kairo-next/crates/kairo-actor/src/supervision.rs:93-143 | for every limit and window some history reaches that bound |
| Supervision.RestartsTotal | kairo-next/crates/kairo-actor/src/supervision.rs:93-143 | with a zero window at most the limit is ever admitted |
| Supervision.AdmittedExactly | kairo-next/crates/kairo-actor/src/supervision.rs:93-143 | admitted exactly when the window has a slot left: any for a runtime restart, all but the last for a startup restart |
| Supervision.StartupSparesOne | kairo-next/crates/kairo-actor/src/supervision.rs:119-143 | startup restarts alone are admitted exactly like runtime restarts with a limit one lower |
| DeathWatch.DeathWatchRegistry.constructor | kairo-next/crates/kairo-actor/src/death_watch.rs:47-52 | nobody watches |
| DeathWatch.DeathWatchRegistry.Watch | kairo-next/crates/kairo-actor/src/death_watch.rs:69-119 | a queued notice of the same kind answers the request, one of the other kind refuses it; otherwise a watcher registers once |
| DeathWatch.DeathWatchRegistry.Unwatch | kairo-next/crates/kairo-actor/src/death_watch.rs:121-131 | removes the watcher's registration and queued notices for the subject |
| DeathWatch.DeathWatchRegistry.RemoveWatcher | kairo-next/crates/kairo-actor/src/death_watch.rs:133-147 | removes everything of one watcher |
| DeathWatch.DeathWatchRegistry.Notify | kairo-next/crates/kairo-actor/src/death_watch.rs:149-164 | takes all registrations out, then queues and delivers one notice for each, in order |
| DeathWatch.WatchOutcomes | kairo-next/crates/kairo-actor/src/death_watch.rs:69-119 | registered exactly when not watching and with no notice queued; refused exactly in the stated cases |
| DeathWatchRuns.ToldAtMostOnce | kairo-next/crates/kairo-actor/src/system.rs:591-614 | in every interleaving of watching, terminating, notifying and withdrawing, each registration is told at most once, never before termination, never after withdrawal; a watcher is never registered twice at a time |
| DeathWatchRuns.EveryoneTold | kairo-next/crates/kairo-actor/src/system.rs:591-614 | once the subject has terminated and all threads are through, every registration ever made was told exactly once unless withdrawn first |
| DeathWatchRuns.NoMissedTermination | kairo-next/crates/kairo-actor/src/system.rs:604-613 | while a registration waits after termination, some thread is bound to take it out |
| DeathWatchRuns.QueuedThenTold | kairo-next/crates/kairo-actor/src/death_watch.rs:149-164 | a notice is delivered only after it was queued for its watcher in its kind |
| DeathWatchRuns.StepKeeps | kairo-next/crates/kairo-actor/src/death_watch.rs:69-164 | every step between locks keeps each registration in exactly one place |

## Left out

- Serialization, remote bridges, transports, discovery, bootstrap and extension wiring: plumbing without decisions.
- Coordinator messages `CompleteRebalance` and `ApplyEvent` with a home event: they bypass the handoff; `Protocol` excludes both and includes every other event.
- The loading phase of the remember store, its persistence calls and its failures: replies of a store that is not part of this model.
- Coordinator without a handoff manager, and failing to spawn a worker: the model assumes workers can be spawned.
- That two regions never run the same shard at once: it depends on region actors and delivery order outside this model; `ShardMovesSafely` is the coordinator and worker side.
- Entity lifecycles inside a shard (`shard_runtime.rs`): only the remember updates it issues are modelled.
- Identifiers are compared as strings of Unicode scalar values, which is the byte order of UTF-8.
- Validation of rebalance limits; the results hold for all limits. Relative limits use real arithmetic instead of 64-bit floating point.
- Counters (`next_order`, worker and registration numbers) are unbounded; overflow is not modelled.
- Real clocks, the threaded scheduler and its condition variables, panics, join handles and thread pools.
- Activation.NoLostWakeup: the dispatcher queue is reduced to this actor's entries, and clearing the scheduler after a refused spawn is not modelled, because the dispatcher no longer accepts then.
- Mailboxes.LaneInOrder: histories without prepended messages; `PrependedFirst` covers prepending.
- Mailboxes.SystemLaneFirst: histories without prepended messages, which do not touch the system lane.
- SchedulerRuns.AdvanceSplits: actions that schedule or cancel from inside a running action are not modelled.
- DeathWatchRuns.EveryoneTold: one subject at a time, and notices raised for remote addresses without a local termination are not modelled.
- Paths.IsValidPathElement: works on characters instead of bytes; every non-ASCII character is refused either way.
- Backoff, stashing, timers, asks, the receptionist, event stream, coordinated shutdown, gossip and replicated data: not modelled.
