# Eigen OS: verified models of the scheduler, the lease queue, the kernel runtime and the job specification

This project models the parts of Eigen OS whose correctness is hardest to see by reading, and proves what they
promise. Each part is a Dafny model of the Rust code, followed by theorems about every input, every run or every
reachable state. `dafny verify dfyconfig.toml` checks all of it.

| part | files | what is proved |
|---|---|---|
| Scheduler | `SchedulerModel`, `SchedulerRules`, `SchedulerFairness`, `SchedulerRoom`, `SchedulerExactness`, `SchedulerTightness`, `SchedulerLedger`, `Scheduler` | a tight starvation bound, fairness within one with its exact condition, conservation of jobs and exactly when one can be lost, idempotent preemption, and that the imperative scheduler with its redundant counters is the model |
| Lease queue | `LeaseModel`, `LeaseSafety`, `LeaseDelivery`, `LeaseRules`, `LeaseQueue` | no task is duplicated or lost, waiting tasks are delivered in turn and exactly when they can be, lease ids are used once, how long a lease lasts, the retry budget is a potential |
| Worker node | `WorkerNode` | exactly when keys are idempotent, coherent records, absorbing terminal states |
| Split and merge | `SplitPlan`, `MergeResults`, `MergeOrder` | every task placed once, on its back-end; the merge decision as a function of the set of envelopes, and exactly when it is one |
| Kernel runtime | `KernelModel`, `KernelDag`, `KernelInvariant`, `KernelRuns`, `KernelRetry`, `KernelProgress`, `KernelCancel`, `KernelFinality`, `KernelOutcome`, `KernelRecords`, `KernelLineage`, `KernelHandoffs`, `KernelStore` | every interleaving of the eight-stage task ends, what a terminal record holds, exactly what a cancel request guarantees, when a terminal state is final, why a job ends as it does, the retry bounds, and when the lineage graph validates |
| Job stores | `EventLog`, `JobStoreModel`, `JobLifecycle`, `JobStoreRecovery`, `JobStores` | logs are histories and tell the lifecycle, the durable store agrees with the plain one, when recovery works, what it restores, and when the store starts again |
| Command line | `Sha256`, `Sha256Example`, `CanonicalJson`, `JobSpec`, `JobSpecFields`, `PrettyPrinter` | SHA-256 against FIPS 180-4 and its published example, injective canonical JSON with every value behind its name, a whitespace-only pretty printer |

`Text`, `Options`, `Bags` and `Sums` hold shared vocabulary: string order, trimming and decimals, options, counts over
multisets and sums over maps.

Stateful services appear twice: as a value with a step function, over which the theorems about runs are stated, and as
a class whose methods are proved to perform those steps. Protocols are state machines whose steps are the source's
atomic operations. Clocks, adapter answers, fresh UUIDs and the success of file-system writes are inputs. Time is a
non-decreasing number of milliseconds; counters are unbounded naturals.

Some promises turn out to hold only under a condition. The project keeps the code as it is and proves when the promise
holds:

* fairness within one needs one of three configurations, or admission limits too small to reach the backlog
  (`FairnessExactly`);
* a job can be lost exactly when an admitted submit reuses a live id (`LossExactly`, `ReusedIdLosesJob`);
* a key has one execution, and a repeated start is a replay, exactly as long as no untrimmed start of the same key gets
  past the lookup and the identifiers were given trimmed (`OnePerKeyExactly`, `ReplayExactly`, `LeaseHonouredExactly`);
* an accepted task is delivered only if its queue name was given trimmed (`AcceptedDeliverableExactly`);
* the rejection code of a merge depends on arrival order exactly when the first group of tied envelopes that matters is
  ambiguous (`OrderMattersExactly`);
* a kernel task can run for ever if its simulated duration is infinite and nothing else limits it (`EndsExactly`);
* an accepted cancel keeps a job from being Done exactly before the task's last look at the flag, or when the deadline
  has passed at the look after it (`CancelExactly`, `CancelledYetDone`);
* a terminal state is final except for the Error of a job that is being cancelled before a stage begins, which turns
  into Cancelled (`FinalExactly`, `ErrorIsNotAlwaysFinal`);
* the lineage graph of such a job does not validate (`LineageExactly`, `LineageOverRun`);
* the store can be restarted exactly as long as no process moves a job that it recovered (`RestartsExactly`).

## Model

| member | source | states |
|---|---|---|
| `SchedulerFairness.BoundedStarvation` | `src/rust/crates/resource-manager/src/lib.rs:2409-2466` | In any run, from any state whose recorded dispatch rounds are not in the future, an entity that has work at every dispatch, among n entities, is passed over at most max(T, 2) + n - 3 times in a row (never when n = 1) |
| `SchedulerTightness.StarvationBoundIsTight` | `src/rust/crates/resource-manager/src/lib.rs:2374-2466` | For any threshold and any weights, zero or positive, under every configuration that admits one job each of any two of the n >= 2 entities, a new scheduler has a run of submits with fresh ids and dispatches that attains that bound, so it cannot be lowered for any configuration |
| `SchedulerExactness.FairnessExactly` | `src/rust/crates/resource-manager/src/lib.rs:2322-2481` | On every run of a new scheduler in which every entity is backlogged at every dispatch, dispatch counts stay within one of each other if and only if n <= 1, or the starvation threshold is at most 2, or the weight is positive and n <= 2000, or the admission limits have no room for one job of each entity |
| `SchedulerFairness.FairnessHolds` | `src/rust/crates/resource-manager/src/lib.rs:2660-2732` | The 'if' half: recency and the floored lag together keep counts within one |
| `SchedulerExactness.FairnessFails` | `src/rust/crates/resource-manager/src/lib.rs:2374-2466` | The 'only if' half: with room, and outside those configurations, submits with fresh ids, a dispatch, a refill and a dispatch serve one entity twice before another is served once |
| `SchedulerExactness.NoRoomNoDispatch` | `src/rust/crates/resource-manager/src/lib.rs:2322-2372` | Without room for one job of each entity, a backlog of all of them is never reached, so the guarantee holds of no dispatch |
| `SchedulerRoom.LimitedHasRoom` | `src/rust/crates/resource-manager/src/lib.rs:2322-2372` | Whatever admission let in, its entities satisfy the room condition: total, tenant, project and per-priority limits together |
| `SchedulerRoom.MissingIsAdmitted` | `src/rust/crates/resource-manager/src/lib.rs:2322-2372` | Where there is room for a set of entities, a job of a missing one is admitted at its level, so the condition is exact |
| `SchedulerFairness.LagSeparates` | `src/rust/crates/resource-manager/src/lib.rs:2705-2719` | Within the bounds, the millisecond floor still ranks an entity one turn behind above one that is not |
| `SchedulerFairness.ChoiceIsLeastServed` | `src/rust/crates/resource-manager/src/lib.rs:2660-2696` | In a balanced state the chosen entity is one of the least served, whichever of the two rules chose it |
| `SchedulerLedger.BooksBalanceFromNew` | `src/rust/crates/resource-manager/src/lib.rs:2374-2658` | After any calls on a new scheduler: admitted + requeued = dispatched + backlog; preempted = requeued = applied tokens = sum of per-job preemptions, each within its cap; backlog <= min(max_total, defer_at) + requeued |
| `SchedulerLedger.JobsConserved` | `src/rust/crates/resource-manager/src/lib.rs:2374-2505` | For every job and every run, copies held before plus admitted equal copies held after plus completed plus overwritten |
| `SchedulerLedger.EveryJobAccountedFor` | `src/rust/crates/resource-manager/src/lib.rs:2374-2505` | If ids are not reused while live, each admitted job is in exactly one of queued, active or completed, and no two held jobs share an id |
| `SchedulerLedger.DistinctExactly` | `src/rust/crates/resource-manager/src/lib.rs:2374-2505` | Along any run from distinct ids, ids stay distinct if and only if no admitted submit brings an id that is queued or active |
| `SchedulerLedger.LossExactly` | `src/rust/crates/resource-manager/src/lib.rs:2409-2466` | From any state of a scheduler, some continuation without new submits overwrites a job if and only if two of the jobs it holds share an id |
| `SchedulerLedger.ReusedIdLosesJob` | `src/rust/crates/resource-manager/src/lib.rs:2374-2407` | After a submit to a state with distinct ids, no submit-free continuation loses a job if and only if the submit was not admitted or its id was neither queued nor active |
| `SchedulerLedger.TokensPersist` | `src/rust/crates/resource-manager/src/lib.rs:2566-2658` | An applied requeue token stays applied, for the same job, through every run |
| `SchedulerLedger.TokenReplayIsInert` | `src/rust/crates/resource-manager/src/lib.rs:2566-2590` | Presenting an applied token again, at any later time and for any job, changes nothing but two metrics |
| `SchedulerModel.ChoiceExists` | `src/rust/crates/resource-manager/src/lib.rs:2660-2696` | Whenever something is queued the selection rules pick an entity |
| `SchedulerModel.ChoiceUnique` | `src/rust/crates/resource-manager/src/lib.rs:2660-2696` | ...and only one, so iteration order of the hash map does not matter |
| `SchedulerModel.NextExists` | `src/rust/crates/resource-manager/src/lib.rs:2054-2078` | Every entity with work has a next job |
| `SchedulerModel.NextUnique` | `src/rust/crates/resource-manager/src/lib.rs:2054-2078` | ...and only one: priority, deadline and id decide |
| `SchedulerModel.NextGoesFirst` | `src/rust/crates/resource-manager/src/lib.rs:2054-2078` | In terms of the fields: a queued job is its entity's next if and only if none has a higher priority, none of that priority an earlier deadline (any before none), and none of that deadline a smaller id |
| `SchedulerRules.DispatchOrder` | `src/rust/crates/resource-manager/src/lib.rs:2409-2466` | After any calls on a new scheduler the job handed out next is first in that sense, and its entity outranks every other with work: starving before not, then longest wait, else furthest behind, most jobs, greatest tenant and project |
| `SchedulerRules.AdmissionByLimits` | `src/rust/crates/resource-manager/src/lib.rs:2322-2372` | Which limit decides, over counts of the queued jobs: total, priority, tenant, project, and only then the deferral |
| `SchedulerRules.PreemptsExactly` | `src/rust/crates/resource-manager/src/lib.rs:2566-2658` | An active job goes back to the queue if and only if the token is new, it has run its minimum of dispatches and is under its cap; each refusal names the first reason |
| `SchedulerRules.MetricsAddUp` | `src/rust/crates/resource-manager/src/lib.rs:2374-2658` | Over any run: admitted, deferred and rejected add up to the submits, attempts are the preemption calls, denials are among the rejections |
| `SchedulerRules.StarvationCounted` | `src/rust/crates/resource-manager/src/lib.rs:2409-2466` | A dispatch counts as preventing starvation if and only if its entity had waited for the threshold |
| `Scheduler.PopNext` | `src/rust/crates/resource-manager/src/lib.rs:2054-2078` | The bucket loop returns and removes exactly the most urgent job: none has a higher priority, at that priority none an earlier deadline, at that deadline none a smaller id |
| `Scheduler.Depth` | `src/rust/crates/resource-manager/src/lib.rs:2036-2039` | The depth loop counts exactly the queued jobs of the entity |
| `Scheduler.FairScheduler.EvaluateAdmission` | `src/rust/crates/resource-manager/src/lib.rs:2322-2372` | The counters decide admission as the counts over the queued jobs would |
| `Scheduler.FairScheduler.Submit` | `src/rust/crates/resource-manager/src/lib.rs:2374-2407` | Keeps all four counters equal to the counts over the queues, with no zero entry and no empty bucket, and is the model's submit |
| `Scheduler.FairScheduler.TotalActiveWeight` | `src/rust/crates/resource-manager/src/lib.rs:2721-2732` | The loop yields (entities with work) x weight |
| `Scheduler.FairScheduler.FairnessLag` | `src/rust/crates/resource-manager/src/lib.rs:2705-2719` | The lag in milliseconds, floor and saturation included |
| `Scheduler.FairScheduler.PickStarving` | `src/rust/crates/resource-manager/src/lib.rs:2665-2682` | The override loop finds the longest-waiting starving entity, or shows there is none |
| `Scheduler.FairScheduler.PickLagging` | `src/rust/crates/resource-manager/src/lib.rs:2684-2696` | The second loop finds the greatest by (lag, depth, key) when nobody starves |
| `Scheduler.FairScheduler.PickDispatchEntity` | `src/rust/crates/resource-manager/src/lib.rs:2660-2696` | Both loops together make the model's choice, with the right reason code |
| `Scheduler.FairScheduler.DispatchNext` | `src/rust/crates/resource-manager/src/lib.rs:2409-2481` | Dispatches the chosen entity's first job by priority, deadline and id, decrements every counter without underflow, and is the model's dispatch |
| `Scheduler.FairScheduler.CompleteJob` | `src/rust/crates/resource-manager/src/lib.rs:2503-2506` | Drops exactly the named active job |
| `Scheduler.FairScheduler.EvaluatePreemption` | `src/rust/crates/resource-manager/src/lib.rs:2566-2625` | The guardrails in their order |
| `Scheduler.FairScheduler.PreemptForRebalance` | `src/rust/crates/resource-manager/src/lib.rs:2566-2658` | Requeues without admission, counts once, records the token; counters keep agreeing with the queues |
| `LeaseSafety.EveryRunSafe` | `src/rust/crates/resource-manager/src/lib.rs:375-540` | In every reachable state: a (queue, task id) exists at most once across queued and in-flight, 1 <= attempt <= max_attempts, enqueued = queued + in-flight + acked + dead, leased = in-flight + acked + redelivered + dead |
| `LeaseSafety.EmptySafe` | `src/rust/crates/resource-manager/src/lib.rs:342-345` | A new adapter is safe |
| `LeaseSafety.SafeMeansOnce` | `src/rust/crates/resource-manager/src/lib.rs:375-540` | The counting form of uniqueness means what it says: no two queued or leased copies of one task |
| `LeaseSafety.StepLeases` | `src/rust/crates/resource-manager/src/lib.rs:451-540` | One call opens at most the next lease id; a grant opens it with the lease the worker is handed, id included; an ack or requeue succeeds only on an open lease, before its expiry, and closes it |
| `LeaseSafety.LeaseIdsNeverReissued` | `src/rust/crates/resource-manager/src/lib.rs:451-503` | Over every run all granted lease ids are distinct |
| `LeaseSafety.LeaseSettledOnce` | `src/rust/crates/resource-manager/src/lib.rs:505-540` | Over every run each lease is acked or requeued at most once |
| `LeaseSafety.StepBudget` | `src/rust/crates/resource-manager/src/lib.rs:375-540` | A grant spends exactly one unit of the retry budget, a requeue none, and only an accepted task adds any |
| `LeaseSafety.LeasesWithinBudget` | `src/rust/crates/resource-manager/src/lib.rs:346-540` | The leases granted in any run, plus the budget left, never exceed the budget at the start plus the attempts accepted |
| `LeaseDelivery.DeliveredInTurn` | `src/rust/crates/resource-manager/src/lib.rs:451-503` | In any run, whatever else is called between, the task at position i of a queue is handed to a worker by the time the queue has been served more than i times |
| `LeaseDelivery.DeliverableExactly` | `src/rust/crates/resource-manager/src/lib.rs:429-503` | From any safe state some continuation hands out a waiting task if and only if its queue is filed under a trimmed, non-empty name |
| `LeaseDelivery.AcceptedDeliverableExactly` | `src/rust/crates/resource-manager/src/lib.rs:429-503` | A task just accepted can be delivered if and only if its queue name was given trimmed: enqueueing files under the name as given, leasing looks under the trimmed one |
| `LeaseDelivery.ExpiredComesBack` | `src/rust/crates/resource-manager/src/lib.rs:402-426` | A lease not settled in time brings its task back to its queue with the next attempt, or to the dead letters after the last one, at the first sweep after its expiry |
| `LeaseRules.GrantedLease` | `src/rust/crates/resource-manager/src/lib.rs:371-503` | A granted lease starts now and ends its task's visibility seconds, in milliseconds, later, or at the end of 64-bit time |
| `LeaseRules.LeaseLasts` | `src/rust/crates/resource-manager/src/lib.rs:451-540` | After a grant and any calls, the lease's worker is told true if and only if no call in between settled the lease or looked after its end, and its time is not over; false if and only if one did or it is; any other worker that it is not the owner |
| `LeaseRules.OpenExactly` | `src/rust/crates/resource-manager/src/lib.rs:402-540` | Over every run a lease is open, and unchanged, if and only if no call ended it |
| `LeaseRules.SweepInOrder` | `src/rust/crates/resource-manager/src/lib.rs:402-426` | A sweep appends to every queue the tasks of its expired leases that have attempts left, by expiry and then by lease id |
| `LeaseRules.DeadOnlyWhenSpent` | `src/rust/crates/resource-manager/src/lib.rs:375-400` | Over every run only tasks that used their last attempt are dead-lettered |
| `LeaseRules.ValidExactly` | `src/rust/crates/resource-manager/src/lib.rs:346-369` | Which tasks are accepted, and which error is reported first |
| `LeaseRules.RefusedExactly` | `src/rust/crates/resource-manager/src/lib.rs:451-530` | Which lease and settlement calls are refused, and why |
| `LeaseQueue.InMemoryQueueAdapter.Enqueue` | `src/rust/crates/resource-manager/src/lib.rs:429-449` | Validation order, duplicate detection and the new state |
| `LeaseQueue.InMemoryQueueAdapter.QueueOrDeadLetter` | `src/rust/crates/resource-manager/src/lib.rs:375-400` | Redelivers with the next attempt number, or dead-letters when the attempts are spent |
| `LeaseQueue.InMemoryQueueAdapter.SweepExpiredLeases` | `src/rust/crates/resource-manager/src/lib.rs:402-426` | The loop returns every expired lease's task in (expiry, id) order |
| `LeaseQueue.InMemoryQueueAdapter.Lease` | `src/rust/crates/resource-manager/src/lib.rs:451-503` | Sweeps, then leases the head of the queue under the next id, and answers with the whole lease, id included |
| `LeaseQueue.InMemoryQueueAdapter.Ack` | `src/rust/crates/resource-manager/src/lib.rs:505-518` | Settles an open lease of this worker before its expiry and nothing else |
| `LeaseQueue.InMemoryQueueAdapter.Requeue` | `src/rust/crates/resource-manager/src/lib.rs:520-540` | The same conditions; the leased task goes back or is dead-lettered |
| `WorkerNode.RunKeeps` | `src/rust/crates/resource-manager/src/lib.rs:570-716` | Over every run: the index points to executions with that key, output is set iff Completed, completion time iff not Running, Running has no cancellation intent, ids are never reused, terminal states are absorbing |
| `WorkerNode.OnePerKeyExactly` | `src/rust/crates/resource-manager/src/lib.rs:570-646` | After any run no key has two executions if and only if no start in it was looked up in vain, its key not being given trimmed, while the trimmed key already had an execution |
| `WorkerNode.KeysAreIdempotent` | `src/rust/crates/resource-manager/src/lib.rs:570-646` | The special case for callers that give keys trimmed: no key ever gets a second execution |
| `WorkerNode.BlankStartsAgain` | `src/rust/crates/resource-manager/src/lib.rs:589-641` | For any key that has an execution, a start with a blank before the key is such a start |
| `WorkerNode.ReplayExactly` | `src/rust/crates/resource-manager/src/lib.rs:570-646` | A start repeated after any calls returns the execution it made if and only if key, assignment and worker were given trimmed and no call in between started the trimmed key again |
| `WorkerNode.LeaseHonouredExactly` | `src/rust/crates/resource-manager/src/lib.rs:648-699` | After any calls, the lease an execution was started under is accepted for it if and only if it was given trimmed |
| `WorkerNode.NextIdIsNew` | `src/rust/crates/resource-manager/src/lib.rs:602-604` | A new sequence number makes a new execution id whatever the assignment ids are |
| `WorkerNode.HeartbeatExactly` | `src/rust/crates/resource-manager/src/lib.rs:648-672` | A heartbeat under the lease times a running execution out if and only if more than the timeout has passed since the last one |
| `WorkerNode.CancelExactly` | `src/rust/crates/resource-manager/src/lib.rs:701-716` | A cancel notes the trimmed reason and ends a running execution and no other |
| `WorkerNode.StartInFields` | `src/rust/crates/resource-manager/src/lib.rs:602-641` | A new execution runs from now under trimmed names, with an id of its assignment and six-digit number |
| `WorkerNode.WorkerNodeService.Begin` | `src/rust/crates/resource-manager/src/lib.rs:570-646` | The four checks in order, replay or conflict, else the new execution |
| `WorkerNode.WorkerNodeService.Heartbeat` | `src/rust/crates/resource-manager/src/lib.rs:648-672` | Refusals in order; a late heartbeat times the execution out |
| `WorkerNode.WorkerNodeService.Complete` | `src/rust/crates/resource-manager/src/lib.rs:674-699` | A completion that is not refused always ends Completed: the cancellation branch is unreachable |
| `WorkerNode.WorkerNodeService.Cancel` | `src/rust/crates/resource-manager/src/lib.rs:701-716` | Cancels a running execution, and only records the reason on any other |
| `SplitPlan.PlanSplit` | `src/rust/crates/resource-manager/src/lib.rs:983-1072` | Each error exactly when its check fails first; otherwise one shard for each chosen back-end, in order, and at least one and at most max_shards of them |
| `SplitPlan.SelectBackend` | `src/rust/crates/resource-manager/src/lib.rs:1014-1029` | The least trimmed, non-empty back-end, if there is one |
| `SplitPlan.GroupTasks` | `src/rust/crates/resource-manager/src/lib.rs:1006-1034` | The grouping loop collects, for each back-end, the tasks that choose it, in order; it stops at the first task that cannot be placed |
| `SplitPlan.PlanPlacesEveryTask` | `src/rust/crates/resource-manager/src/lib.rs:983-1072` | Every shard holds exactly the tasks whose least compatible back-end is its own, and at least one; every task is in the shard of its back-end; task occurrences are conserved, shard ids and back-ends are pairwise distinct, and there are as many shards as back-ends used |
| `SplitPlan.ChoiceNamed` | `src/rust/crates/resource-manager/src/lib.rs:1014-1029` | The chosen back-end is trimmed, not blank, named by the task, and none named comes before it |
| `SplitPlan.AssignedJoins` | `src/rust/crates/resource-manager/src/lib.rs:1006-1034` | A shard lists its tasks in the order in which they were given |
| `SplitPlan.PlanIsNumbered` | `src/rust/crates/resource-manager/src/lib.rs:1043-1062` | Shards are numbered from one, to three digits, in the order of their back-ends |
| `MergeResults.MergePartialResults` | `src/rust/crates/resource-manager/src/lib.rs:1075-1192` | The two scanning loops and the missing-shard loop compute the decision of the model |
| `MergeResults.RejectedExactly` | `src/rust/crates/resource-manager/src/lib.rs:1105-1156` | A merge is rejected if and only if an envelope belongs to another job or a shard has two; one-job duplicates give the duplicate code |
| `MergeResults.OrderDoesNotMatter` | `src/rust/crates/resource-manager/src/lib.rs:1075-1192` | For envelopes of one job, any permutation of results and failures gives the same decision |
| `MergeOrder.OrderMattersExactly` | `src/rust/crates/resource-manager/src/lib.rs:1075-1192` | For all envelopes, of any jobs: all permutations of results and failures give the same decision if and only if no foreign envelope, behind clean ones, ties on the sort key with two of the own job, or with one whose shard was already seen |
| `MergeOrder.SortsByFields` | `src/rust/crates/resource-manager/src/lib.rs:1083-1098` | The envelopes are scanned by shard, then attempt, then back-end, then checksum or reason |
| `MergeResults.UnseenJoins` | `src/rust/crates/resource-manager/src/lib.rs:1158-1162` | The missing ids keep the order in which they were expected |
| `MergeResults.AllMergedExactly` | `src/rust/crates/resource-manager/src/lib.rs:1158-1172` | Everything merged is reported for a plan if and only if every planned shard has a result, nothing failed, and no envelope is foreign or duplicate |
| `MergeResults.AcceptedReports` | `src/rust/crates/resource-manager/src/lib.rs:1105-1191` | An accepted merge lists, each in rising order, exactly the shards with results and the shards with failures (with their envelopes), and the expected shards with neither; a quorum holds if and only if there are enough results |
| `MergeResults.UnseenExactly` | `src/rust/crates/resource-manager/src/lib.rs:1158-1162` | The missing list holds exactly the expected ids not observed |
| `KernelProgress.EveryRunEnds` | `src/rust/crates/eigen-kernel/src/rpc.rs:4345-4849` | Every interleaving of the job's task with cancels, sweeps and the clock, whatever the adapters answer, stops within the initial rank and leaves the job terminal: Done with eight succeeded stages in order 1..8 and a completion reference, otherwise a failure reference and a released reservation |
| `KernelProgress.EndsExactly` | `src/rust/crates/eigen-kernel/src/rpc.rs:4532-4577` | A bound on the steps of a job's task exists if and only if the simulated run, if any, is limited by a duration, a timeout or a deadline |
| `KernelProgress.UnlimitedRunsOn` | `src/rust/crates/eigen-kernel/src/rpc.rs:4552-4577` | With an infinite simulate_runtime_sec and no other limit the job's task outlasts every number of steps though every adapter answers |
| `KernelProgress.StepRank` | `src/rust/crates/eigen-kernel/src/rpc.rs:4345-4849` | Each task step lowers the rank; cancels, sweeps and the clock never raise it |
| `KernelProgress.StoppedMeansSettled` | `src/rust/crates/eigen-kernel/src/rpc.rs:4127-4147` | Whenever the job's task has stopped, or has given up retrying, the job is terminal and complete |
| `KernelOutcome.FailureDecides` | `src/rust/crates/eigen-kernel/src/rpc.rs:4127-4139` | Whatever else happens, cancels included: a failure that a stage's adapter answers, outside the retry loop, ends the job as Timeout with DEADLINE_EXCEEDED if its code is DeadlineExceeded, and as Error with its reason otherwise |
| `KernelOutcome.VerdictDecides` | `src/rust/crates/eigen-kernel/src/rpc.rs:4851-5061` | A verdict of the retry loop becomes the job's state, error code and retry reason on every continuation |
| `KernelOutcome.TimeoutOnlyIfLate` | `src/rust/crates/eigen-kernel/src/rpc.rs:4345-5061` | Over every run a job is in Timeout, or on its way, only if at some step its deadline, the simulated run's timeout or the retry budget had run out, or an adapter answered DeadlineExceeded |
| `KernelOutcome.CodesFitOverRun` | `src/rust/crates/eigen-kernel/src/rpc.rs:1791-2543` | At every point of every run a job has an error code if and only if it failed: CANCELLED if cancelled, DEADLINE_EXCEEDED if timed out |
| `KernelOutcome.StateInStage` | `src/rust/crates/eigen-kernel/src/rpc.rs:137-168` | Over every run: the state a job has while the adapter of each stage is at work |
| `KernelOutcome.SimulationExactly` | `src/rust/crates/eigen-kernel/src/rpc.rs:4532-4606` | The looks of the simulated run in their order, its 20 ms sleeps, and where each leads |
| `KernelOutcome.CallingExactly` | `src/rust/crates/eigen-kernel/src/rpc.rs:4345-4748` | An answer replaces the one before it, and where each answer leads |
| `KernelOutcome.ClosingExactly` | `src/rust/crates/eigen-kernel/src/rpc.rs:4378-4736` | Between an answer and the end of its stage: the look for a cancel, the look at the deadline, which stages publish, and what that writes |
| `KernelRecords.RecordsTellTheTruth` | `src/rust/crates/eigen-kernel/src/rpc.rs:1791-2543` | At every point of every run: succeeded records carry their output, the next state and no code; at most the last record failed, and it carries the state and the code the job ended with and its failure reference as output |
| `KernelRuns.EveryRunKeeps` | `src/rust/crates/eigen-kernel/src/rpc.rs:1754-2319` | Every reachable state satisfies the invariant, and the rank Pending < Compiling < Optimizing < Queued < Running < terminal never falls along a run |
| `KernelRuns.StepKeeps` | `src/rust/crates/eigen-kernel/src/rpc.rs:4345-4849` | One step of the job's task or of the environment keeps the invariant and the rank |
| `KernelInvariant.BeginFromReady` | `src/rust/crates/eigen-kernel/src/rpc.rs:1933-2102` | Beginning the next stage links it to the previous output, or, without its required handoff fields, fails the whole job with an orphan record |
| `KernelInvariant.BeginOverValidation` | `src/rust/crates/eigen-kernel/src/rpc.rs:4378-4381` | A cancel during validation is filed under the compile stage over a validation record that stays open |
| `KernelInvariant.FinishSucceeds` | `src/rust/crates/eigen-kernel/src/rpc.rs:2104-2232` | Success extends the chain by one stage; the eighth makes the job Done with its completion reference |
| `KernelInvariant.FinishFails` | `src/rust/crates/eigen-kernel/src/rpc.rs:2234-2319` | Failure of an open stage settles the job: failure reference, released reservation, chain intact |
| `KernelInvariant.FinishFailsOrphan` | `src/rust/crates/eigen-kernel/src/rpc.rs:2234-2319` | The one write that changes a terminal state: failing a stage that never began overwrites its Error, and the record stays complete |
| `KernelFinality.FinalExactly` | `src/rust/crates/eigen-kernel/src/rpc.rs:4782-4825` | A terminal state is final on every continuation if and only if the task is not about to record a cancelled stage; that happens only to Error, which becomes Cancelled, so Done, Timeout and Cancelled are always final |
| `KernelFinality.TerminalStep` | `src/rust/crates/eigen-kernel/src/rpc.rs:4345-4849` | In every well-formed state a step changes a terminal state if and only if it is the task recording a cancelled stage, and then from Error to Cancelled |
| `KernelFinality.ErrorIsNotAlwaysFinal` | `src/rust/crates/eigen-kernel/src/rpc.rs:4345-4381` | Every submission has a run that leaves its job in such an Error: a cancel once validation has answered |
| `KernelInvariant.Terminalizes` | `src/rust/crates/eigen-kernel/src/rpc.rs:1791-1910` | Error and deadline terminalization of an open stage settle the job |
| `KernelCancel.CancelledOnlyIfAsked` | `src/rust/crates/eigen-kernel/src/rpc.rs:4782-4849` | In every run a job is Cancelled, or on its way there, only after a cancel request that met it before it was terminal; the flag stands for such a request, or was set by the deadline that ended the job |
| `KernelCancel.CancelExactly` | `src/rust/crates/eigen-kernel/src/rpc.rs:4711-4736` | In every well-formed state with an accepted cancel, some continuation makes the job Done if and only if the task has taken its last look at the flag and is not at a look at a deadline that has passed |
| `KernelCancel.CancelPreventsDone` | `src/rust/crates/eigen-kernel/src/rpc.rs:4711-4736` | The half that protects: before that look, or with the deadline passed at it, every continuation keeps the job from Done |
| `KernelCancel.GateLeadsToDone` | `src/rust/crates/eigen-kernel/src/rpc.rs:4724-4736` | The other half: past the look and in time, the task alone goes on to write Done |
| `KernelCancel.CancelledYetDone` | `src/rust/crates/eigen-kernel/src/rpc.rs:4345-4748` | Every submission with an available back-end, no simulated run and a deadline ahead has a run from the start in which a cancel is accepted and the job is Done |
| `KernelCancel.CancelStopsStages` | `src/rust/crates/eigen-kernel/src/rpc.rs:4384-4700` | Once a cancel is accepted, no stage between validation and the last one is begun any more unless the task had already looked |
| `KernelRetry.RetriesBounded` | `src/rust/crates/eigen-kernel/src/rpc.rs:4851-5061` | In every run: at most max_attempts (1..16) executions, no more attempt records than executions, slept delay <= max_elapsed, delays capped and non-decreasing over retryable attempts |
| `KernelRetry.BackoffGrows` | `src/rust/crates/eigen-kernel/src/rpc.rs:2909-2914` | Back-off is monotone in the attempt and capped, shift saturation included |
| `KernelRetry.BackoffDoubles` | `src/rust/crates/eigen-kernel/src/rpc.rs:2909-2914` | The first attempt waits the base delay and every further one twice as long, up to the cap |
| `KernelRetry.DefaultPolicy` | `src/rust/crates/eigen-kernel/src/rpc.rs:2830-2894` | The default policy, and which overrides replace which part of it |
| `KernelOutcome.RetryExactly` | `src/rust/crates/eigen-kernel/src/rpc.rs:4851-5061` | A failed attempt is followed by another if and only if the deadline lies ahead, the reason is not ruled out and is listed or its code transient, attempts are left and the delay fits; otherwise the first that fails names the verdict |
| `KernelOutcome.RetriedOnlyIfAllowed` | `src/rust/crates/eigen-kernel/src/rpc.rs:4851-5061` | Over any run the execute adapter is called again after a failure only if that failure may be retried |
| `KernelOutcome.GateExactly` | `src/rust/crates/eigen-kernel/src/rpc.rs:4851-5061` | The next attempt is made if and only if the deadline lies ahead |
| `KernelOutcome.AnswerExactly` | `src/rust/crates/eigen-kernel/src/rpc.rs:4851-5061` | An answer at or after the deadline is not used; a later attempt's answer is counted as a retry that helped |
| `KernelDag.PolicyOf` | `src/rust/crates/eigen-kernel/src/rpc.rs:2867-2894` | The attempt limit is clamped to 1..16 whatever the metadata says |
| `KernelLineage.LineageExactly` | `src/rust/crates/eigen-kernel/src/rpc.rs:1344-1505` | For every ended run the graph passes validation if and only if every recorded stage got its required handoff fields; every Done run passes |
| `KernelHandoffs.LineageOverRun` | `src/rust/crates/eigen-kernel/src/rpc.rs:4345-4849` | The same read off the run: the graph of an ended run passes if and only if no step began a stage on an input without its fields or cancelled a stage that had no record |
| `KernelHandoffs.HandoffsExactly` | `src/rust/crates/eigen-kernel/src/rpc.rs:1933-2102` | At every point of every run all recorded stages have their handoff fields if and only if no such step was taken |
| `KernelHandoffs.StrandedByWhom` | `src/rust/crates/eigen-kernel/src/rpc.rs:4750-4849` | Such a step follows an accepted cancel request, or a named field is in neither the submission nor the latest adapter output |
| `KernelHandoffs.StageNeeds` | `src/rust/crates/eigen-kernel/src/rpc.rs:665-676` | Which fields of the output before it each stage needs |
| `KernelLineage.JoinedPasses` | `src/rust/crates/eigen-kernel/src/rpc.rs:273-379` | A run that is Done, or failed inside a stage that had begun, passes: orders rise, each upstream is the previous output, the root matches after renaming |
| `KernelLineage.OrphanFails` | `src/rust/crates/eigen-kernel/src/rpc.rs:1970-2047` | A stage failed before it began names its own input as upstream, so the graph is rejected |
| `KernelLineage.CanonicalScoped` | `src/rust/crates/eigen-kernel/src/rpc.rs:704-729` | Replacing the job id inside a job-scoped reference renames the job part and nothing else, for every id that starts with 'job-' |
| `KernelLineage.EndedGraph` | `src/rust/crates/eigen-kernel/src/rpc.rs:1344-1505` | The graph of an ended run names its workflow and the canonical completion reference of a Done job, or the failure reference of any other |
| `KernelLineage.NodesAreCanonical` | `src/rust/crates/eigen-kernel/src/rpc.rs:1344-1505` | In the graph of linked records every node's input, handoff, lineage and root references are the canonical job's own, in stage order |
| `KernelLineage.ReferencesRead` | `src/rust/crates/eigen-kernel/src/rpc.rs:604-654` | How the references of a job and its stages read |
| `KernelLineage.Validate` | `src/rust/crates/eigen-kernel/src/rpc.rs:273-379` | The loop accepts exactly the well-formed graphs; otherwise it reports the first bad stage and, in it, a wrong order before the first missing reference and that before a broken link |
| `KernelStore.FindStage` | `src/rust/crates/eigen-kernel/src/rpc.rs:2116-2120` | The search returns the first record of the stage, or the end |
| `KernelStore.LatestOutput` | `src/rust/crates/eigen-kernel/src/rpc.rs:2050-2054` | The reverse search returns the latest recorded output |
| `KernelStore.KernelRuntimeStore.CreateOrGetJob` | `src/rust/crates/eigen-kernel/src/rpc.rs:1655-1731` | Creates and indexes once; the same id with another fingerprint is a collision; the index leads from exactly the fingerprints of jobs to such a job |
| `KernelStore.KernelRuntimeStore.BeginStage` | `src/rust/crates/eigen-kernel/src/rpc.rs:1933-2102` | The in-place update is the atomic step: terminal, already recorded, orphan or opened; other jobs untouched |
| `KernelStore.KernelRuntimeStore.FinishStageSuccess` | `src/rust/crates/eigen-kernel/src/rpc.rs:2104-2232` | The in-place update is the atomic step; other jobs untouched |
| `KernelStore.KernelRuntimeStore.FinishStageFailure` | `src/rust/crates/eigen-kernel/src/rpc.rs:2234-2319` | The in-place update is the atomic step; other jobs untouched |
| `KernelStore.KernelRuntimeStore.RequestCancel` | `src/rust/crates/eigen-kernel/src/rpc.rs:2414-2429` | Refused on a terminal job; otherwise flags the cancel and the pending release |
| `KernelStore.KernelRuntimeStore.RequestErrorTerminalization` | `src/rust/crates/eigen-kernel/src/rpc.rs:1791-1910` | Does nothing to a terminal job; otherwise fails the current stage and the job |
| `KernelStore.KernelRuntimeStore.RequestDeadlineTerminalization` | `src/rust/crates/eigen-kernel/src/rpc.rs:2431-2543` | Does nothing to a terminal job; otherwise times out the current stage and the job |
| `KernelStore.KernelRuntimeStore.SweepStaleReservations` | `src/rust/crates/eigen-kernel/src/rpc.rs:1754-1770` | The loop releases exactly the stale held reservations of non-terminal jobs and returns their ids |
| `KernelStore.SweepInFields` | `src/rust/crates/eigen-kernel/src/rpc.rs:1754-1770` | A reservation is let go if and only if it is held, the job is live and nothing was written for its lease and at least a millisecond |
| `KernelStore.EndingsInFields` | `src/rust/crates/eigen-kernel/src/rpc.rs:1791-2543` | What failing a stage and both terminalizations leave in the job |
| `KernelStore.StrandedInFields` | `src/rust/crates/eigen-kernel/src/rpc.rs:1791-2543` | A job ended in a stage without a record gets a failed one, which names its own input as upstream only on the deadline path |
| `KernelStore.BeginningInFields` | `src/rust/crates/eigen-kernel/src/rpc.rs:1933-2102` | What beginning a stage leaves in the job, the corrupt handoff included |
| `EventLog.TransitionAdvances` | `src/rust/crates/qrtx/src/state_machine.rs:42-68` | Terminal states accept nothing and every accepted event moves strictly forward |
| `EventLog.LifecycleExactly` | `src/rust/crates/qrtx/src/state_machine.rs:42-68` | Every accepted event leads to its own state whatever it comes from; the three steps are accepted exactly from Pending, Compiling and Running, the three endings exactly from those |
| `EventLog.LogIsLifecycle` | `src/rust/crates/qrtx/src/state_machine.rs:42-68` | A log from Pending is the lifecycle so far, or that and one early end |
| `EventLog.ReplayToCurrentState` | `src/rust/crates/qrtx/src/event_log.rs:128-165` | Succeeds exactly on non-empty paths of the state machine, with the last target; otherwise reports the first illegal entry |
| `EventLog.Verify` | `src/rust/crates/qrtx/src/event_log.rs:175-190` | Accepts exactly the logs that are non-empty, numbered 1..n and a path of transition; a gap is reported where it is first |
| `EventLog.AcceptedLogsAreShort` | `src/rust/crates/qrtx/src/event_log.rs:128-190` | An accepted log has at most three entries and nothing after a terminal state |
| `JobStoreModel.RunIsConsistent` | `src/rust/crates/eigen-kernel/src/durable_job_store.rs:154-259` | After every run with fresh ids each log verifies, starts from Pending, ends in the record's state and is one shorter than the next sequence number; what reached the disk is an ordered part of it |
| `JobStoreModel.StoresAgree` | `src/rust/crates/eigen-kernel/src/job_store.rs:66-87` | At every point of every run the durable store has the same jobs and states as the plain store and gives the same answers and errors, whether or not writes succeeded |
| `JobStoreModel.EndingIsIdempotent` | `src/rust/crates/eigen-kernel/src/job_store.rs:73-81` | The event that ended a job may be repeated without effect; every other event is refused |
| `JobLifecycle.LifecycleOverRun` | `src/rust/crates/eigen-kernel/src/durable_job_store.rs:154-259` | After any run a job is Compiling, Running or Done if and only if its log is exactly the first one, two or three of StartCompiling, StartRunning, Complete, and its state is where its last event leads |
| `JobLifecycle.LogFromCalls` | `src/rust/crates/eigen-kernel/src/durable_job_store.rs:203-259` | Every log entry names its job and goes back to a call that made it, in the order of the calls |
| `JobLifecycle.RunningOnlyAfter` | `src/rust/crates/eigen-kernel/src/durable_job_store.rs:203-259` | A job is Running or Done only after a call that started compiling it and a later one that started running it |
| `JobStoreModel.RecoveryExactly` | `src/rust/crates/eigen-kernel/src/durable_job_store.rs:86-150` | Recovery gets through if and only if, for every job with both files, the written events are a prefix of its log: no lost event is followed by a written one |
| `JobStoreModel.RecoveryRestores` | `src/rust/crates/eigen-kernel/src/durable_job_store.rs:86-150` | If all writes succeeded, recovery restores exactly the jobs with events, each with its log and pre-crash state, and sequence 1 |
| `JobStoreRecovery.SecondRecoveryExactly` | `src/rust/crates/eigen-kernel/src/durable_job_store.rs:86-259` | After any run, a recovery and any further calls, all written, a second recovery gets through if and only if the calls between moved no recovered job: its next event is numbered 1 again |
| `JobStoreRecovery.SessionExactly` | `src/rust/crates/eigen-kernel/src/durable_job_store.rs:86-259` | The same with lost writes: the next recovery gets through if and only if no move of a recovered job was written and no new job has a lost event followed by a written one |
| `JobStoreRecovery.RestartsExactly` | `src/rust/crates/eigen-kernel/src/durable_job_store.rs:86-259` | After any number of sessions, all written, the store starts again if and only if no session moved a job it had recovered |
| `JobStores.JobStore.ApplyEvent` | `src/rust/crates/eigen-kernel/src/job_store.rs:66-87` | Idempotent on the matching terminal event, otherwise the transition or its error |
| `JobStores.DurableJobStore.CreateJob` | `src/rust/crates/eigen-kernel/src/durable_job_store.rs:154-195` | Record, empty log and snapshot line |
| `JobStores.DurableJobStore.ApplyEvent` | `src/rust/crates/eigen-kernel/src/durable_job_store.rs:203-259` | Answers like the plain store; a transition is logged under the record's sequence number in memory and, if the write succeeds, on disk |
| `JobStores.DurableJobStore.RestoreJob` | `src/rust/crates/eigen-kernel/src/durable_job_store.rs:104-147` | Skips a job without both files, restores one with an acceptable log, changes nothing otherwise |
| `JobStores.DurableJobStore.RecoverFromQfs` | `src/rust/crates/eigen-kernel/src/durable_job_store.rs:86-150` | The loop succeeds exactly when every readable job is restorable, rebuilds exactly those, and counts them; otherwise it stops at an unacceptable one |
| `Sha256.Sha256` | `src/rust/apps/cli/src/jobspec.rs:1491-1579` | The in-place algorithm equals the recursive definition of sections 5.1.1 and 6.2.2 of FIPS 180-4 for every input shorter than 2^61 bytes |
| `Sha256.PadMessage` | `src/rust/apps/cli/src/jobspec.rs:1509-1515` | The padding loop ends, yields the standard's padding and a multiple of 64 bytes |
| `Sha256.PadInjective` | `src/rust/apps/cli/src/jobspec.rs:1509-1515` | Different messages have different paddings |
| `Sha256.ExpandSchedule` | `src/rust/apps/cli/src/jobspec.rs:1519-1531` | The 64-word array holds the message schedule |
| `Sha256.CompressBlock` | `src/rust/apps/cli/src/jobspec.rs:1533-1571` | The eight-variable loop is the 64 rounds of the compression function |
| `Sha256Example.AbcDigest` | `src/rust/apps/cli/src/jobspec.rs:1491-1579` | The digest of "abc" is the one published with the standard, through all 64 words and rounds |
| `Sha256Example.MajIsMajority` | `src/rust/apps/cli/src/jobspec.rs:1551` | Where two words agree bit for bit, Maj is what they agree on |
| `Sha256Example.MajCommutes` | `src/rust/apps/cli/src/jobspec.rs:1551` | The order of the three words does not matter to Maj |
| `Sha256Example.ChChooses` | `src/rust/apps/cli/src/jobspec.rs:1544` | Bit by bit, the first word chooses between the other two |
| `Sha256Example.WordsAreBytes` | `src/rust/apps/cli/src/jobspec.rs:1519-1579` | A word is the number its four bytes denote, most significant first, and reading them back gives the word |
| `Sha256.RoundConstantsAreCubeRoots` | `src/rust/apps/cli/src/jobspec.rs:1496-1506` | Each of the 64 constants is the fractional part of the cube root of its prime, to 32 bits |
| `Sha256.InitialHash` | `src/rust/apps/cli/src/jobspec.rs:1492-1495` | Each of the 8 initial words is the fractional part of the square root of its prime, to 32 bits |
| `Sha256.Sha256Hex` | `src/rust/apps/cli/src/jobspec.rs:1482-1489` | The hexadecimal loop renders the digest |
| `Sha256.HexInjective` | `src/rust/apps/cli/src/jobspec.rs:1482-1489` | Different digests have different hexadecimal forms |
| `Sha256.HexReads` | `src/rust/apps/cli/src/jobspec.rs:1482-1489` | Byte i is the pair of lower-case digits at 2i, the high half first |
| `CanonicalJson.JsonEscape` | `src/rust/apps/cli/src/jobspec.rs:1921-1934` | The escaping loop computes the character-wise escape |
| `CanonicalJson.EscapeRoundTrip` | `src/rust/apps/cli/src/jobspec.rs:1921-1934` | Escaped text decodes back |
| `CanonicalJson.QuotedDelimited` | `src/rust/apps/cli/src/jobspec.rs:1921-1934` | A quoted string ends where it says: whatever follows, equal texts come from equal strings |
| `CanonicalJson.StringVecJson` | `src/rust/apps/cli/src/jobspec.rs:804-810` | The joined array text |
| `CanonicalJson.StringMapJson` | `src/rust/apps/cli/src/jobspec.rs:796-802` | The joined object text in key order |
| `CanonicalJson.ListDelimited` | `src/rust/apps/cli/src/jobspec.rs:804-810` | Equal array texts, whatever follows, come from equal vectors |
| `CanonicalJson.MapDelimited` | `src/rust/apps/cli/src/jobspec.rs:796-802` | Equal object texts, whatever follows, come from equal maps |
| `CanonicalJson.NumberDelimited` | `src/rust/apps/cli/src/jobspec.rs:776` | A rendered integer is determined up to the comma after it |
| `JobSpec.WorkloadDelimited` | `src/rust/apps/cli/src/jobspec.rs:812-852` | The workload text ends where it says and determines the whole workload, with or without a topology |
| `JobSpec.CanonicalExactly` | `src/rust/apps/cli/src/jobspec.rs:730-786` | Two requests have the same canonical document if and only if the version arguments are equal and the requests agree on every field except jobspec_yaml metadata and the request's own version field |
| `JobSpecFields.LabelledShows` | `src/rust/apps/cli/src/jobspec.rs:730-852` | A labelled value stands in the text right behind its quoted name and colon |
| `JobSpecFields.LineageLabelled` | `src/rust/apps/cli/src/jobspec.rs:822-852` | Lineage fields and back-end target stand behind their own names |
| `JobSpecFields.TopologyLabelled` | `src/rust/apps/cli/src/jobspec.rs:812-820` | Topology fields stand behind their own names |
| `JobSpecFields.ProfileLabelled` | `src/rust/apps/cli/src/jobspec.rs:822-852` | Profile, kind and observability fields stand behind their own names |
| `JobSpecFields.SecurityLabelled` | `src/rust/apps/cli/src/jobspec.rs:822-852` | The replay flag and the security fields stand behind their own names |
| `JobSpecFields.SpecLabelled` | `src/rust/apps/cli/src/jobspec.rs:730-786` | Name, compiler options, dependencies, priority and the metadata without the raw job file stand behind their own names |
| `JobSpecFields.ProgramLabelled` | `src/rust/apps/cli/src/jobspec.rs:730-786` | Entry point, checksum, source and target stand behind their own names |
| `JobSpecFields.DocumentReads` | `src/rust/apps/cli/src/jobspec.rs:784-786` | The document names the digest of the normalized text and then holds that text |
| `PrettyPrinter.PrettyJsonLike` | `src/rust/apps/cli/src/main.rs:817-871` | The character loop computes the piecewise format |
| `PrettyPrinter.PrettyKeepsText` | `src/rust/apps/cli/src/main.rs:817-871` | Without whitespace outside strings, output and trimmed input are the same text, for escapes, unbalanced brackets and unterminated strings alike |
| `PrettyPrinter.PrettyIsIdempotent` | `src/rust/apps/cli/src/main.rs:817-871` | Formatting twice equals formatting once, for every input |
| `PrettyPrinter.Layout` | `src/rust/apps/cli/src/main.rs:842-866` | What each character outside strings becomes, and how deep the rest is indented |
| `PrettyPrinter.StringsAreCopied` | `src/rust/apps/cli/src/main.rs:830-846` | Strings are copied up to their closing quote, escaped characters included |
| `PrettyPrinter.PadIs` | `src/rust/apps/cli/src/main.rs:828` | An indent is two blanks a level |
| `Text.NumberedIdsInjective` | `src/rust/crates/resource-manager/src/lib.rs:602-604` | An id built as text, dash, zero-padded number determines both, however many digits overflow the padding |
| `Text.TrimLaws` | `src/rust/crates/resource-manager/src/lib.rs:571-585` | Trimming yields trimmed text and leaves exactly the trimmed text alone |
| `Text.TrimCuts` | `src/rust/crates/resource-manager/src/lib.rs:571-585` | What trimming leaves is what stood between blank ends |
| `Text.LessExactly` | `src/rust/crates/resource-manager/src/lib.rs:3172-3177` | The order of text is lexicographic by character |
| `Text.PaddedWidth` | `src/rust/crates/resource-manager/src/lib.rs:602-604` | Padding reaches its width and goes no further |

## Left out

- Device, back-end and policy scoring, rebalance evaluation and plans, explain envelopes, score-aware dispatch and
  health snapshots of the resource manager: floating-point weights and copying of fields.
- Fairness-lag metrics of the scheduler, and the tenant, project and enqueue-time fields that only travel with a job
  where nothing reads them.
- Machine widths of the scheduler's and the lease queue's counters: they are naturals; saturating subtraction and the
  saturating lease expiry are modelled.
- The order of jobs inside one priority bucket: jobs that tie on priority, deadline and id in one entity are equal, so
  the model keeps a multiset and the class keeps the buckets as sequences.
- Runtime artifacts of a worker start: they are sorted, deduplicated and copied, and nothing reads them.
- Version strings, timestamps, trace and lineage fields of split plans; envelope fields that merging never compares are
  one `body` field, and a failure's reason code is its rank as text.
- Workflow boundary records, replay tokens, stage outputs, counts, result references, error summaries and metadata of a
  kernel job: they are written and never read by the job's task; the writes are kept as steps because they refresh the
  timestamp that postpones a lease sweep.
- `canonical_worker_name`, `synthesize_distributed_topology` and `distributed_workload_metadata`: string and metadata
  preparation before a job is created, with no property that spans operations.
- `acquire_live_reservation`: only tests call it, so no run of a task contains it.
- Deriving job ids and fingerprints (UUID, FNV hash): job ids are any text starting with `job-`, fingerprints any text.
- Parsing of retry, simulation and timeout metadata: the parsed values are inputs, and fractions of a millisecond in
  the simulated duration and timeout are rounded up.
- Setters for error, counts and result metadata of the two job stores: single-field updates; recovery does not restore
  them, because the snapshot is written at creation.
- JSON encoding of log lines: a line is the entry it encodes, and a file is the list of its lines.
- JobSpec.CanonicalExactly: UTF-8 encoding is any function from text to bytes; that the digest determines the text is a
  property of the hash, not of this code, and is not claimed.
- Sha256.Sha256: inputs of 2^61 bytes or more, where the bit length no longer fits its 64-bit field.
- CanonicalJson.StringMapJson: takes the sorted keys, the iteration order of the source's ordered map, as an argument.
- Locks: every public method is atomic, and freedom from deadlock is not claimed.
- gRPC, the asynchronous runtime, tracing, environment variables, object storage and Parquet output.
- The job.yaml reader, field extractors, plugins, argument parsing and terminal rendering of the command line.
- Monitoring, checkpoint comparison, scripts, examples and deployment files.
