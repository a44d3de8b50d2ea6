# DimooRun, modelled and proved in Dafny

DimooRun runs agents on behalf of tenants. This project models the parts of it whose correctness is a matter of
whole runs rather than of single calls, and proves what they promise for every input, every run and every reachable
state. `dafny verify dfyconfig.toml` checks everything.

| file | component |
|---|---|
| `Foundations.dfy` | options and results, decimal texts and Python's `int()`, sums, stable sorting, grouping by key |
| `Costs.dfy`, `Enforcement.dfy`, `Anomalies.dfy` | cost attribution, budgets, the policy decision, cost anomalies |
| `RateLimiter.dfy`, `Webhooks.dfy` | the webhook rate limiter, the dispatcher and the compliance audit log |
| `Scheduler.dfy` | leased tasks with fencing tokens, in memory, in Redis and in SQL |
| `ReplayBuffer.dfy` | the bounded event buffer behind resumable streams |
| `QueryResource.dfy` | the console's latest-wins query resource |
| `Deployments.dfy` | deployment control, instance registry, runtime status |
| `AssetReferences.dfy`, `AssetLifecycle.dfy` | reference search and the lifecycle of asset versions |
| `Artifacts.dfy`, `HumanTasks.dfy` | three artifact stores and two human-task services as one specification each |

The shape is the same throughout. A state is a datatype and every operation a function on it; lemmas prove what every
step and then every run keeps. Where the source updates objects in place there is a class whose methods are proved to
refine those functions, loop by loop. Where two implementations share a contract, both refine the same functions, so
they simulate each other.

## What the proofs found

Each of these is stated by a lemma, with the exact condition where a natural property fails.

- The webhook limiter with limit L lets up to 2L - 1 limiter calls through in 60 seconds, and no more. Deliveries are
  recorded after the post, so up to 2L of them can be recorded in 60 seconds, and no more.
- Run counts per provider or model exceed the total exactly when some run used two of them.
- The replay buffer reports expiry one event too early: with the first retained event next in line nothing is lost,
  yet the client is told so. With a buffer bound of zero or less it loses events silently.
- The in-memory artifact store parses before it audits, the other two audit first, so a permitted read whose bytes
  match the checksum but do not parse leaves no record in memory.
- The in-memory scheduler never counts a crash while running as an attempt, so such a task is retried for ever; the
  durable backends count it, and give up after exactly the failures left. The in-memory backend alone refuses to
  complete a leased task that was never marked as running.
- Enqueueing a known task id starts its fencing tokens over, so a holder from before gets through again exactly when
  the new task has been leased as often as its token says, last to the same worker. In memory and in SQL only an
  enqueue that names the id does this (SQL takes no ids); in Redis the counter can run into a known id as well.
- `abort()` stops the spinner but does not supersede the request: its data or its error still shows if it completes.
- A rollback can leave two versions published, exactly when a third version of the group was; a rollback also
  publishes a target nobody validated, and nothing else does. A failed re-validation leaves an approved version
  publishable, while a passed one does not.
- Publication and rollback deprecate versions without the use check that an explicit deprecation makes, so a version
  in use by an active deployment is deprecated all the same.
- The reference search raises a TypeError on an unhashable `type`, unless a mention comes first in reading order.
- The cached runtime status of a deployment goes stale with registry operations on its instances, exactly when they
  change what the instances amount to. A summary or a control call always sets it right; a later registry operation
  may do so by chance.
- The two human-task services return different payloads exactly for empty decisions.

## Model

| member | source | states |
|---|---|---|
| `Rounding.Round6Laws` | apps/server/dimoo_run/costs/attribution.py:119 | rounding to six decimals, ties to the even neighbour, moves a value by at most half a millionth, keeps order, lands on the grid and leaves grid values alone |
| `Rounding.RoundedSumBound` | apps/server/dimoo_run/costs/attribution.py:114-119 | rounding every term moves a sum by at most half a step per term |
| `Sorting.SortLaws` | apps/server/dimoo_run/costs/attribution.py:135-139 | sorting by descending weight rearranges the list, loses nothing and orders it |
| `Sorting.SortStable` | apps/server/dimoo_run/costs/attribution.py:135-139 | entries of equal weight keep their order |
| `Partition.GroupLoop` | apps/server/dimoo_run/costs/attribution.py:108-113 | the grouping loop leaves, for every key, exactly the rows with that key in order and the caption of the last of them, keys in order of first use, and nothing for any other key |
| `Partition.PartitionSum` | apps/server/dimoo_run/costs/attribution.py:114-144 | the sums of the groups add up to the sum of all rows |
| `Partition.PartitionDistinct` | apps/server/dimoo_run/costs/attribution.py:121-122 | distinct ids counted per group add up to at least the distinct ids overall, and to exactly that when and only when no id occurs in two groups |
| `Attribution.NewestIndex` | apps/server/dimoo_run/costs/attribution.py:123-126 | the newest row of a group, the first of several equally new ones |
| `Attribution.DeploymentKeyExact` | apps/server/dimoo_run/costs/attribution.py:330-333 | two rows share a deployment group if and only if they name the same deployment, id 0 counting as none |
| `Attribution.KeysTellApart` | apps/server/dimoo_run/costs/attribution.py:326-341 | for each of the five groupings, two rows share a group if and only if they agree on the agent, the deployment, the run, the provider or the model, a missing one counting as unknown |
| `Attribution.BuildSummary` | apps/server/dimoo_run/costs/attribution.py:108-149 | the loop and the two dicts compute the summary that the specification describes |
| `Attribution.BreakdownExact` | apps/server/dimoo_run/costs/attribution.py:114-140 | one breakdown entry per occurring key, each computed from exactly its own rows, ordered from the dearest down |
| `Attribution.EntryExact` | apps/server/dimoo_run/costs/attribution.py:108-140 | every row has one entry for its group, and that entry holds the rounded cost, the tokens, the distinct runs and failed runs, the title and the newest details of exactly the rows that agree with it on what is grouped by |
| `Attribution.NoOtherEntries` | apps/server/dimoo_run/costs/attribution.py:114-140 | every entry belongs to some row |
| `Attribution.TotalsExact` | apps/server/dimoo_run/costs/attribution.py:141-149 | the totals are the rounded cost, the tokens and the distinct runs and failed runs of all rows |
| `Attribution.TokensConserved` | apps/server/dimoo_run/costs/attribution.py:120-145 | token totals of the groups add up to the total |
| `Attribution.RunCountsConserved` | apps/server/dimoo_run/costs/attribution.py:121-147 | run and failed-run counts of the groups add up to at least the total, exactly if and only if no run has rows in two groups |
| `Attribution.RunCountsExact` | apps/server/dimoo_run/costs/attribution.py:326-336 | for agent, deployment and run groupings of rows whose run fixes agent, deployment and status, the counts add up exactly |
| `Attribution.SpreadRunExceeds` | apps/server/dimoo_run/costs/attribution.py:337-341 | a run with rows in two groups makes the counts exceed the total strictly |
| `Attribution.CostsConserved` | apps/server/dimoo_run/costs/attribution.py:114-149 | with k groups the rounded group costs add up to the rounded total within (k + 1) half steps |
| `Budget.SpendIsSum` | apps/server/dimoo_run/costs/budget_policy.py:66-71 | a budget's spend is the sum of the selected groups' rounded costs: sort, filter and outer rounding add nothing |
| `Budget.TriggersExactly` | apps/server/dimoo_run/costs/budget_policy.py:45-111 | a preview triggers if and only if the sum, over the groups its scope selects, of their rounded costs reaches the threshold, with scope and grouping written out; that sum is the spend it shows |
| `Budget.PreviewExact` | apps/server/dimoo_run/costs/budget_policy.py:66-111 | the projection is 30 days of the spend of the window, rounded, and the utilisation the spend per threshold, or zero without a positive one |
| `Budget.ContributorsExact` | apps/server/dimoo_run/costs/budget_policy.py:66-111 | the contributors are the five dearest selected groups, dearest first, or all of them if they are fewer |
| `Budget.WholeScopeSpend` | apps/server/dimoo_run/costs/budget_policy.py:66-111 | a tenant, project or environment budget sees the summary total within (k + 1) half steps |
| `Budget.SpendMonotone` | apps/server/dimoo_run/costs/budget_policy.py:45-82 | more usage of non-negative cost never lowers any budget's spend, across new groups, the sort and both roundings |
| `Enforcement.DecideAll` | apps/server/dimoo_run/costs/enforcement.py:73-124 | the policy loop blocks with the first fired policy that does not merely warn, if any, and warns with exactly the fired warning policies in order |
| `Enforcement.FiresExactly` | apps/server/dimoo_run/costs/enforcement.py:73-98 | a policy fires if and only if the rounded costs of the groups it selects, over the rows of its window and environment, add up to its threshold or more |
| `Enforcement.Evaluate` | apps/server/dimoo_run/costs/enforcement.py:35-124 | without a session nothing is decided; otherwise it blocks if and only if some policy that does not merely warn has its spend at its threshold, with the first such policy, and warns of exactly the warning policies that have, in order, each with its own figures |
| `Enforcement.TriggerMonotone` | apps/server/dimoo_run/costs/enforcement.py:82-98 | adding usage never un-triggers a policy |
| `Enforcement.DecisionMonotone` | apps/server/dimoo_run/costs/enforcement.py:97-120 | if every policy that fired still fires, the block stays, by the same or a smaller id, and every warning stays |
| `Enforcement.EnforcementMonotone` | apps/server/dimoo_run/costs/enforcement.py:73-124 | end to end: adding usage never relaxes a decision |
| `Anomalies.BuildAnomalies` | apps/server/dimoo_run/costs/attribution.py:171-237 | the loops report, in order, exactly the anomalies of every run and every provider, the first 20 of them |
| `Anomalies.AnomaliesExact` | apps/server/dimoo_run/costs/attribution.py:171-237 | the anomalies of a window are exactly: each failed run that cost something, dangerous from a dollar; each run above twice the mean and five cents, or alone above half a dollar, dangerous above four times the mean and half a dollar; each provider half of whose spend failed |
| `Anomalies.ReportOrderAscends` | apps/server/dimoo_run/costs/attribution.py:179-190 | runs are reported once each, in ascending order of id |
| `Anomalies.MarkovBound` | apps/server/dimoo_run/costs/attribution.py:177-204 | of n non-negative values fewer than n/2 exceed twice the average and fewer than n/4 four times it |
| `Anomalies.SpikeCount` | apps/server/dimoo_run/costs/attribution.py:179-216 | there are as many spike reports as runs above the threshold, and as many dangerous ones as dangerous runs |
| `Anomalies.SpikesAreRare` | apps/server/dimoo_run/costs/attribution.py:177-216 | with n >= 2 runs of non-negative cost fewer than n/2 are spikes and fewer than n/4 dangerous ones |
| `Anomalies.SingleRunSpike` | apps/server/dimoo_run/costs/attribution.py:197-216 | a single-run window reports a spike if and only if it cost more than 0.5, never a dangerous one |
| `RateLimiter.MinuteBound` | apps/server/dimoo_run/extensions/webhooks.py:146-156 | for every non-decreasing clock and every instant, the 60 seconds from it let at most 2L - 1 limiter calls through |
| `RateLimiter.LandedMinuteBound` | apps/server/dimoo_run/extensions/webhooks.py:105-156 | what those calls lead to, stamped no earlier than its own call and no later than the next, falls at most 2L times into any 60 seconds |
| `RateLimiter.MinuteBoundTight` | apps/server/dimoo_run/extensions/webhooks.py:146-156 | 2L - 1 allowed limiter calls a minute are reached for every positive L, so at most L a minute holds of limiter calls exactly for L <= 1 |
| `RateLimiter.RefusalJustified` | apps/server/dimoo_run/extensions/webhooks.py:146-156 | every refusal is preceded by exactly L allowances in its window, all less than 60 seconds old |
| `ComplianceAudit.ComplianceAuditLog.Write` | apps/server/dimoo_run/observability/audit.py:29-56 | a record is appended under the next dense id, with redacted metadata and the time; older records do not change |
| `Webhooks.WebhookSubscriptionService.Subscribe` | apps/server/dimoo_run/extensions/webhooks.py:69-93 | refused exactly without the receive permission; otherwise exactly the subscription asked for, active, with the next id and limit 60 |
| `Webhooks.WebhookSubscriptionService.AllowRate` | apps/server/dimoo_run/extensions/webhooks.py:146-156 | the in-place window update is the limiter's step, and no other window changes |
| `Webhooks.WebhookSubscriptionService.RecordDelivery` | apps/server/dimoo_run/extensions/webhooks.py:158-184 | one delivery, stamped when it is recorded, and one audit record, allowing exactly for a delivery |
| `Webhooks.WebhookSubscriptionService.Offer` | apps/server/dimoo_run/extensions/webhooks.py:97-128 | one subscription's turn: skipped, rate limited, failed or delivered, and counted as delivered exactly then |
| `Webhooks.WebhookSubscriptionService.Dispatch` | apps/server/dimoo_run/extensions/webhooks.py:95-129 | appends one delivery and one audit record for each active subscription of the same tenant and project that lists the event type, in order, and none for any other; each with its event, time, outcome (limited, failed in transport, delivered) and audit fields; returns the number delivered |
| `Webhooks.OfferedConsistent` | apps/server/dimoo_run/extensions/webhooks.py:97-128 | a turn keeps every subscription's calls and window those of a limiter of its own, and every delivery explained by a limiter call |
| `Webhooks.RunConsistent` | apps/server/dimoo_run/extensions/webhooks.py:69-156 | every run of subscriptions and dispatches keeps that |
| `Webhooks.DeliveredAtMostAllowed` | apps/server/dimoo_run/extensions/webhooks.py:95-129 | deliveries to a subscription never outnumber what its limiter allowed |
| `Webhooks.RunMinuteBound` | apps/server/dimoo_run/extensions/webhooks.py:95-184 | in every run each subscription receives at most 2L deliveries in any 60 seconds by the time they are recorded, however dispatches interleave |
| `Webhooks.MinuteBoundAttained` | apps/server/dimoo_run/extensions/webhooks.py:95-184 | for every L some run with a clock that never runs backwards records 2L deliveries to one subscription within 60 seconds |
| `Webhooks.RunCallBound` | apps/server/dimoo_run/extensions/webhooks.py:95-156 | counted by the time of the limiter call, at most 2L - 1 deliveries fall into any 60 seconds |
| `Webhooks.DispatchAccounting` | apps/server/dimoo_run/extensions/webhooks.py:95-184 | the same of a dispatch from every reachable state: the four conditions over the subscription fields decide who is a recipient; nothing older changes |
| `Webhooks.RunIsolation` | apps/server/dimoo_run/extensions/webhooks.py:95-144 | in every run each delivery comes from a dispatch of the tenant and project of its subscription, which was active and listed the event type |
| `Tasks.BackendsAgree` | apps/server/dimoo_run/scheduler/sqlalchemy_backend.py:124-269 | failing agrees on every settled task; completing differs exactly for the holder of a lease never started, reaping exactly for an expired running task, starting exactly in the error Redis gives to one who is neither owner nor up to date |
| `TaskTable.Pick` | apps/server/dimoo_run/scheduler/in_memory.py:80-104 | an eligible task that none sorts before, or none if there is none |
| `TaskTable.StepSound` | apps/server/dimoo_run/scheduler/in_memory.py:60-191 | every operation keeps every task waiting, held under a lease or finished, and in the table order |
| `TaskTable.EnqueueExact` | apps/server/dimoo_run/scheduler/in_memory.py:60-78 | in every backend a submission waits in its queue, at its priority and for its time, with its attempts and no token, under its own or the next id; nothing else changes |
| `TaskTable.RunSound` | apps/server/dimoo_run/scheduler/in_memory.py:60-191 | every run keeps that |
| `TaskTable.StepProgress` | apps/server/dimoo_run/scheduler/in_memory.py:60-191 | an operation never lowers a token or attempt, never raises the failures left, and never moves a finished task |
| `TaskTable.RunProgress` | apps/server/dimoo_run/scheduler/in_memory.py:60-191 | no run does in which no enqueue names the id |
| `TaskTable.ResubmissionExact` | apps/server/dimoo_run/scheduler/redis_backend.py:18-35 | a known id is submitted again exactly by an enqueue that names it and, in Redis only, by an anonymous one when the counter stands at it |
| `TaskTable.CounterHitsExactly` | apps/server/dimoo_run/scheduler/redis_backend.py:270-271 | exactly which of a row of anonymous Redis enqueues hits a known id ahead of the counter |
| `TaskTable.StaleHolderIsFenced` | apps/server/dimoo_run/scheduler/in_memory.py:117-166 | once a newer lease exists, no start, completion or failure under an older token ever does anything, in every run in which no enqueue names the id |
| `TaskTable.OnlyHolderActs` | apps/server/dimoo_run/scheduler/in_memory.py:117-166 | a start, completion or failure gets through if and only if it comes from the worker and with the token of the latest lease, and from the status it starts from |
| `TaskTable.LeaseRaisesToken` | apps/server/dimoo_run/scheduler/in_memory.py:80-104 | a lease hands out its task under the next token, to that worker, until now plus the lease time |
| `TaskTable.TokensCountLeases` | apps/server/dimoo_run/scheduler/in_memory.py:80-104 | a token is the number of leases since its task was submitted |
| `TaskTable.ResubmissionReopensFence` | apps/server/dimoo_run/scheduler/in_memory.py:60-166 | after a re-submission and any further run a holder gets through if and only if its task was leased as often as its token says, last to the same worker, and stands where the operation needs it |
| `TaskTable.FirstTokenRepeats` | apps/server/dimoo_run/scheduler/in_memory.py:60-166 | after one re-submission and one lease the first token of all starts its task if and only if the worker is the new one |
| `TaskTable.LeasesAreOrdered` | apps/server/dimoo_run/scheduler/in_memory.py:80-104 | of two leases of one task in a run the later carries the larger token |
| `TaskTable.LeaseTakesFirst` | apps/server/dimoo_run/scheduler/in_memory.py:80-104 | in memory, leasing takes the due task of highest priority, the oldest among equals, the first in the table among those created together, and none exactly when none is due after reaping; the lease is written out |
| `TaskTable.LeaseTakesChoice` | apps/server/dimoo_run/scheduler/sqlalchemy_backend.py:58-110 | a durable lease takes what was chosen if and only if that is waiting, due and, in SQL, in the queue asked for |
| `TaskTable.SubmissionsLeasedInOrder` | apps/server/dimoo_run/scheduler/in_memory.py:60-104 | of two submissions to one queue, both due, over any run the lower is leased only after the higher: by priority, then by age |
| `TaskTable.ReapExact` | apps/server/dimoo_run/scheduler/redis_backend.py:176-216 | in every backend a reap touches exactly the expired leases in its reach: such a task waits again without holder or lease; durably, a running one loses an attempt or, with the last, becomes a dead letter |
| `TaskTable.CancelExact` | apps/server/dimoo_run/scheduler/in_memory.py:154-160 | a task is cancelled, by anyone, if and only if it is waiting or held; otherwise nothing changes |
| `TaskTable.LeaseKeptExactly` | apps/server/dimoo_run/scheduler/in_memory.py:60-191 | one operation leaves the lease on a task alone if and only if it is no effective heartbeat, completion or failure by the holder under its token, no cancellation, no re-submission and no reap after its end |
| `TaskTable.LeaseIsExclusive` | apps/server/dimoo_run/scheduler/in_memory.py:60-191 | until a lease ends no one takes its task over, whatever other workers and holders of other tokens try |
| `TaskTable.AttemptsExact` | apps/server/dimoo_run/scheduler/sqlalchemy_backend.py:136-269 | over any run failures, and in the durable backends runs lost to expired leases, account exactly for the failures used up, so a task is a dead letter if and only if they used up all it had |
| `TaskTable.SubmittedAttempts` | apps/server/dimoo_run/scheduler/sqlalchemy_backend.py:136-269 | from the submission on: it is a dead letter if and only if its costs reach the attempts the submission left it, and at least one |
| `TaskTable.CrashesAreFree` | apps/server/dimoo_run/scheduler/in_memory.py:123-191 | in memory no run without a reported failure costs a task an attempt or makes it a dead letter |
| `TaskTable.OneOutcome` | apps/server/dimoo_run/scheduler/in_memory.py:117-160 | over any run a task reaches an outcome at most once, and exactly once if it has one at the end and had none |
| `TaskTable.InMemoryCrashLoop` | apps/server/dimoo_run/scheduler/in_memory.py:177-191 | every schedule of crashes, with any workers, lease lengths and times, leaves a task waiting with all its attempts |
| `TaskTable.DurableCrashLoop` | apps/server/dimoo_run/scheduler/redis_backend.py:176-216 | the durable backends give it up after exactly as many crashes as it has failures left |
| `TaskTable.InMemoryTaskBackend.EnqueueTask` | apps/server/dimoo_run/scheduler/in_memory.py:60-78 | stores exactly the submission, waiting, under its own or the next id; refines the table step |
| `TaskTable.InMemoryTaskBackend.ReapExpired` | apps/server/dimoo_run/scheduler/in_memory.py:177-191 | the loop returns exactly the expired leases to their queues |
| `TaskTable.InMemoryTaskBackend.LeaseNext` | apps/server/dimoo_run/scheduler/in_memory.py:80-104 | refines the table step: reap, pick, grant |
| `TaskTable.InMemoryTaskBackend.FailTask` | apps/server/dimoo_run/scheduler/in_memory.py:123-152 | refines the table step, including every refusal and the dead letters |
| `TaskTable.InMemoryTaskBackend.CompleteTask` | apps/server/dimoo_run/scheduler/in_memory.py:117-121 | refines the table step, including every refusal |
| `TaskTable.InMemoryTaskBackend.HeartbeatTask` | apps/server/dimoo_run/scheduler/in_memory.py:106-115 | refines the table step, including every refusal |
| `TaskTable.InMemoryTaskBackend.StartTask` | apps/server/dimoo_run/scheduler/in_memory.py:162-166 | refines the table step, including every refusal |
| `TaskTable.InMemoryTaskBackend.CancelTask` | apps/server/dimoo_run/scheduler/in_memory.py:154-160 | refines the table step, including every refusal |
| `PythonInt.PaddedRoundTrip` | apps/server/dimoo_run/streaming/replay_buffer.py:77 | a number with any white space around it is read as that number |
| `ReplayBuffer.EventIdRoundTrip` | apps/server/dimoo_run/streaming/replay_buffer.py:73-77 | an event id parses back to its own sequence number, padded or not |
| `ReplayBuffer.EventIdOtherRun` | apps/server/dimoo_run/streaming/replay_buffer.py:73-77 | an id of another run is refused |
| `ReplayBuffer.Buffer.Append` | apps/server/dimoo_run/streaming/replay_buffer.py:21-37 | the history grows by one event, numbered next, inlined or referenced by size, and the buffer keeps the newest |
| `ReplayBuffer.Buffer.ReplayFrom` | apps/server/dimoo_run/streaming/replay_buffer.py:39-57 | replays from the retained part of the run's whole history |
| `ReplayBuffer.ResumeExact` | apps/server/dimoo_run/streaming/replay_buffer.py:39-57 | whatever sequence a client names, past the newest or before the first, a replay delivers exactly what it has not seen or reports expiry, and when |
| `ReplayBuffer.SpuriousExpiry` | apps/server/dimoo_run/streaming/replay_buffer.py:39-57 | exactly when expiry is reported although nothing was lost |
| `ReplayBuffer.NoSilentLoss` | apps/server/dimoo_run/streaming/replay_buffer.py:21-57 | events are lost silently exactly when the buffer may hold none |
| `QueryResource.StepInv` | apps/console/src/api/query.ts:18-50 | every reload, completion and abort keeps the invariant of requests, writers and visible refs |
| `QueryResource.LatestWins` | apps/console/src/api/query.ts:18-50 | over every interleaving: writers strictly increase and data is what the last of them brought, loading means the latest is pending and not aborted, superseded signals are aborted, and the latest result is what shows |
| `QueryResource.SupersededIsSilent` | apps/console/src/api/query.ts:29-44 | a superseded request never changes data, error or loading, however late |
| `QueryResource.OrderDoesNotMatter` | apps/console/src/api/query.ts:21-45 | interleavings whose last request succeeded alike end with the same refs |
| `QueryResource.AbortDoesNotSupersede` | apps/console/src/api/query.ts:29-50 | what completes after an abort, until the next reload, leaves the refs alone if and only if the latest request is not among it; if it is, its data or its error shows |
| `QueryResource.Resource.StartReload` | apps/console/src/api/query.ts:21-29 | the synchronous part of a reload refines the step and returns its version |
| `QueryResource.Resource.Finish` | apps/console/src/api/query.ts:29-44 | the continuation refines the completion step |
| `QueryResource.Resource.AbortAll` | apps/console/src/api/query.ts:47-50 | refines the abort step |
| `Instances.CacheKeyInjective` | apps/server/dimoo_run/deployments/instances.py:8-14 | cache keys are equal if and only if deployment, version and profile are, whatever colons a profile holds; none, empty and default are one profile |
| `Instances.CountWorkers` | apps/server/dimoo_run/deployments/status.py:30-99 | the counting loop gives every worker its number of live instances |
| `Instances.AggregateRuntimeStatus` | apps/server/dimoo_run/deployments/status.py:23-99 | the summary: each of the seven statuses exactly under its condition on which instance states occur, each worker with its number of instances, the last error, the latest heartbeat and load time, all over the instances not evicted |
| `Instances.WorkersAddUp` | apps/server/dimoo_run/deployments/status.py:30-99 | the worker counts add up to the number of instances not evicted |
| `Instances.AggregateRearranged` | apps/server/dimoo_run/deployments/status.py:30-99 | status, workers, heartbeat and load time are invariant under permuting instances and adding evicted ones |
| `DeploymentControl.ControlLeavesFresh` | apps/server/dimoo_run/deployments/service.py:221-308 | after every successful control call the desired status is the one of the action (active after activate, resume and restart, paused, draining, stopped) and the stored runtime status is what aggregating now would give: stopped, draining, not loaded after stop, drain, restart |
| `DeploymentControl.ControlExact` | apps/server/dimoo_run/deployments/service.py:164-406 | everything a control call does, field by field: the refusals and when, the audit entry, the desired and runtime status, the instances of the deployment, and that nothing else changes |
| `DeploymentControl.ControlIsLocal` | apps/server/dimoo_run/deployments/service.py:164-286 | no control call touches another deployment, its instances or its aggregate |
| `DeploymentControl.StatusTable` | apps/server/dimoo_run/deployments/status.py:30-76 | the aggregate depends on four questions only: is an instance of the deployment live, available, failed, loading |
| `DeploymentControl.FreshExactly` | apps/server/dimoo_run/deployments/service.py:164-308 | whatever the operation, a fresh stored status is fresh afterwards if and only if it did not disturb the deployment or left the aggregate as it was, with the exact condition on the instances before the call for registering, marking ready, marking failed and idle eviction |
| `DeploymentControl.FreshSinceSummary` | apps/server/dimoo_run/deployments/service.py:292-308 | from any state a summary makes the stored status fresh again, and it stays so through every run of operations that meet that condition |
| `DeploymentControl.StaleComesRight` | apps/server/dimoo_run/deployments/instances.py:60-148 | a stale status can come right with no summary or control call: registering, marking ready and idly evicting a first instance goes stale, stale, fresh |
| `DeploymentControl.ControlIsAudited` | apps/server/dimoo_run/deployments/service.py:335-406 | one audit entry per call on a known deployment, none otherwise; a denied call changes nothing else |
| `DeploymentControl.ReadyIndex` | apps/server/dimoo_run/deployments/instances.py:104-111 | the first available instance under a key, or none if there is none |
| `DeploymentControl.GetReadyExact` | apps/server/dimoo_run/deployments/instances.py:91-111 | a lookup finds a ready, idle or busy instance of exactly the asked triple, and none exactly when there is none |
| `DeploymentControl.StepAt` | apps/server/dimoo_run/deployments/service.py:164-308 | no operation changes what an instance is, and only marking it ready makes it available |
| `DeploymentControl.RunKeeps` | apps/server/dimoo_run/deployments/service.py:164-308 | every run keeps ids dense, keys true and the audit log append-only |
| `DeploymentControl.StepExplained` | apps/server/dimoo_run/deployments/service.py:335-406 | a step leaves log and desired status alone or adds the one entry that explains the change |
| `DeploymentControl.AuditExplainsStatus` | apps/server/dimoo_run/deployments/service.py:335-406 | for every run, folding a deployment's allowed entries over its first status gives its current desired status |
| `DeploymentControl.AuditDecidesAcceptance` | apps/server/dimoo_run/deployments/service.py:310-333 | over every run a new run is accepted if and only if it asks for no other tenant, project, agent or version than the deployment has, and the last allowed entry of the deployment is an activate, resume or restart, or there is none and it was active at the start |
| `DeploymentControl.AcceptanceExact` | apps/server/dimoo_run/deployments/service.py:310-333 | each refusal of a new run, and exactly when it is given |
| `DeploymentControl.ControlQuiets` | apps/server/dimoo_run/deployments/service.py:221-286 | stop, drain and restart leave no available instance of the deployment |
| `DeploymentControl.NoneReadyUntilMarked` | apps/server/dimoo_run/deployments/instances.py:91-134 | after that no lookup finds one, whatever happens, until some instance of it is marked ready |
| `DeploymentControl.AgentInstanceRegistry.RegisterLoading` | apps/server/dimoo_run/deployments/instances.py:60-89 | a loading instance with the next id and its own key is appended |
| `DeploymentControl.AgentInstanceRegistry.FindReady` | apps/server/dimoo_run/deployments/instances.py:104-111 | the loop finds the first available instance under the key |
| `DeploymentControl.AgentInstanceRegistry.GetReady` | apps/server/dimoo_run/deployments/instances.py:91-111 | an instance serving exactly the triple is found if and only if one exists, and only it is marked as used |
| `DeploymentControl.AgentInstanceRegistry.MarkReady` | apps/server/dimoo_run/deployments/instances.py:36-116 | a known instance becomes ready, keeping its first load time; an unknown id is refused |
| `DeploymentControl.AgentInstanceRegistry.MarkFailed` | apps/server/dimoo_run/deployments/instances.py:43-121 | a known instance becomes failed with its error; an unknown id is refused |
| `DeploymentControl.AgentInstanceRegistry.EvictIdle` | apps/server/dimoo_run/deployments/instances.py:136-148 | the loop evicts and returns exactly the idle instances past the threshold |
| `DeploymentControl.AgentInstanceRegistry.ChangeInstances` | apps/server/dimoo_run/deployments/instances.py:130-134 | the loop changes every instance of the deployment and no other |
| `DeploymentControl.DeploymentRuntimeControlService.Steer` | apps/server/dimoo_run/deployments/service.py:335-406 | lookup, binding check, policy, status update and audit, with every refusal |
| `DeploymentControl.DeploymentRuntimeControlService.Summarize` | apps/server/dimoo_run/deployments/service.py:292-308 | stores and returns the aggregate over the desired status and the instances |
| `DeploymentControl.DeploymentRuntimeControlService.AssertAcceptsNewRun` | apps/server/dimoo_run/deployments/service.py:310-333 | the checks in order decide acceptance as specified |
| `DeploymentControl.DeploymentRuntimeControlService.ActivatePauseResume` | apps/server/dimoo_run/deployments/service.py:164-219 | activate, pause and resume: the refusals, the audit entry, the statuses and the instances, field by field; refines the control step |
| `DeploymentControl.DeploymentRuntimeControlService.DrainStop` | apps/server/dimoo_run/deployments/service.py:221-264 | drain and stop: the refusals, the audit entry, the statuses and the instances, field by field; refines the control step |
| `DeploymentControl.DeploymentRuntimeControlService.RestartDeployment` | apps/server/dimoo_run/deployments/service.py:266-286 | restart: the refusals, the audit entry, the statuses and the instances, field by field; refines the control step |
| `DeploymentControl.DeploymentRuntimeControlService.Perform` | apps/server/dimoo_run/deployments/service.py:150-308 | the service and the registry it owns refine every step of a mixed run |
| `DeploymentControl.DeploymentRuntimeControlService.PerformAll` | apps/server/dimoo_run/deployments/service.py:150-308 | and so every mixed run |
| `AssetReferences.SearchSound` | apps/server/dimoo_run/catalog/asset_lifecycle.py:334-357 | what the search answers is there, and is what comes first in reading order |
| `AssetReferences.SearchComplete` | apps/server/dimoo_run/catalog/asset_lifecycle.py:334-357 | nothing reachable is overlooked |
| `AssetReferences.SearchExact` | apps/server/dimoo_run/catalog/asset_lifecycle.py:334-357 | yes if and only if a mention is reachable, not through an object that carries the name and version of the asset, before any unreadable type; raises and no exactly otherwise. A mention is one of the two texts, or such an object if the asset has no type or that of the object is missing, null or the same; it is unreadable if it is a list or an object |
| `AssetLifecycle.StepAt` | apps/server/dimoo_run/catalog/asset_lifecycle.py:792-978 | a request leaves a version alone or moves it once through the lifecycle update, and never changes its identity |
| `AssetLifecycle.PublishExclusive` | apps/server/dimoo_run/catalog/asset_lifecycle.py:841-873 | publishing leaves one published version in its group, deprecates exactly the others that were, and touches nothing else |
| `AssetLifecycle.PublishAccepted` | apps/server/dimoo_run/catalog/asset_lifecycle.py:841-857 | publishing is accepted if and only if the asset is there and approved or published, by its column or else its metadata |
| `AssetLifecycle.TargetFound` | apps/server/dimoo_run/catalog/asset_lifecycle.py:937-947 | a rollback goes to the first version of the asset with the string asked for, or else to the last other one, and has no target exactly if there is none |
| `AssetLifecycle.OnePublishedExactly` | apps/server/dimoo_run/catalog/asset_lifecycle.py:928-978 | a request keeps at most one published version per group if and only if it is not a rollback past a third, published version |
| `AssetLifecycle.OnePublishedInRuns` | apps/server/dimoo_run/catalog/asset_lifecycle.py:792-978 | so every run that rolls back published versions only keeps it |
| `AssetLifecycle.HistoryIsChain` | apps/server/dimoo_run/catalog/asset_lifecycle.py:103-152 | in every run each history is append-only and an unbroken chain from the original to the current status, the status column included |
| `AssetLifecycle.PublishedWasVetted` | apps/server/dimoo_run/catalog/asset_lifecycle.py:792-978 | in every run in which no rollback has it as target, an approved or published version was approved by a request before which its last validation request passed |
| `AssetLifecycle.HistoryShowsVetting` | apps/server/dimoo_run/catalog/asset_lifecycle.py:792-873 | and its history shows an approval whose last validation entry before it ended in validated |
| `AssetLifecycle.RevalidationExact` | apps/server/dimoo_run/catalog/asset_lifecycle.py:792-873 | after any validations of a version, whatever happens in other groups, it can be published if and only if it was approved or published before and none of them passed |
| `AssetLifecycle.FailedRevalidationStillPublishes` | apps/server/dimoo_run/catalog/asset_lifecycle.py:792-873 | a failed re-validation lets exactly the approved and published versions be published, with the failure on record |
| `AssetLifecycle.RollbackSkipsVetting` | apps/server/dimoo_run/catalog/asset_lifecycle.py:928-978 | a rollback publishes its target of the same group as it stands, and its history shows a vetting afterwards if and only if it did before |
| `AssetLifecycle.UseCheckExact` | apps/server/dimoo_run/catalog/asset_lifecycle.py:360-420 | the use check raises exactly when a search does, and otherwise stops exactly when a document mentions the version that is a deployment neither draft nor stopped or, for archiving, an agent version neither draft nor archived |
| `AssetLifecycle.DeprecationClassified` | apps/server/dimoo_run/catalog/asset_lifecycle.py:841-978 | a version becomes deprecated by exactly three requests: an explicit deprecation that the use check lets through, the publication of a standing version of its group over it, and its rollback to a different version |
| `AssetLifecycle.DeprecatedInUse` | apps/server/dimoo_run/catalog/asset_lifecycle.py:841-978 | of a version an active deployment mentions the explicit deprecation is refused, and the other two go through just the same |
| `AssetLifecycle.AssetStore.SetStatus` | apps/server/dimoo_run/catalog/asset_lifecycle.py:103-152 | the in-place update is the lifecycle move, on one record |
| `AssetLifecycle.AssetStore.ValidateAsset` | apps/server/dimoo_run/catalog/asset_lifecycle.py:792-814 | refines the validate request |
| `AssetLifecycle.AssetStore.ApproveAsset` | apps/server/dimoo_run/catalog/asset_lifecycle.py:817-838 | refines the approve request with its refusal |
| `AssetLifecycle.AssetStore.PublishAsset` | apps/server/dimoo_run/catalog/asset_lifecycle.py:841-873 | the loop over siblings refines the publish request |
| `AssetLifecycle.AssetStore.CheckUse` | apps/server/dimoo_run/catalog/asset_lifecycle.py:360-420 | the loop over documents computes the use check |
| `AssetLifecycle.AssetStore.DeprecateAsset` | apps/server/dimoo_run/catalog/asset_lifecycle.py:876-899 | refines the deprecate request with its refusals |
| `AssetLifecycle.AssetStore.ArchiveAsset` | apps/server/dimoo_run/catalog/asset_lifecycle.py:902-925 | refines the archive request with its refusals |
| `AssetLifecycle.AssetStore.LocateTarget` | apps/server/dimoo_run/catalog/asset_lifecycle.py:937-947 | finds the first version with the wanted name, or the last other version |
| `AssetLifecycle.AssetStore.RollbackAsset` | apps/server/dimoo_run/catalog/asset_lifecycle.py:928-978 | refines the rollback request with its refusals |
| `ArtifactVault.OneRecordPerRead` | apps/server/dimoo_run/artifacts/store.py:120-184 | a read changes no artifact; of a known one it adds exactly one audit record, save in memory when bytes that pass every check do not parse; of an unknown one it says so and adds none |
| `ArtifactVault.ReadExact` | apps/server/dimoo_run/artifacts/store.py:120-184 | each result of a read and exactly when it is given, and every field of the audit entry it leaves: allow exactly for a read that passes scope, permission and checksum |
| `ArtifactVault.StepAgreement` | apps/server/dimoo_run/artifacts/store.py:120-184 | a step gives the same reply and artifacts in all stores; only such a read makes the logs differ, by one record |
| `ArtifactVault.StoresAgree` | apps/server/dimoo_run/artifacts/store.py:81-409 | over whole runs replies and artifacts agree, and the audit logs agree if and only if no read meets bytes that pass scope, permission and checksum and do not parse |
| `ArtifactVault.StoresIndistinguishable` | apps/server/dimoo_run/artifacts/store.py:81-409 | with a lawful codec no run tells the stores apart unless tampering collides with a checksum |
| `ArtifactVault.WriteThenRead` | apps/server/dimoo_run/artifacts/store.py:81-184 | an entitled reader gets back what was written, whatever happens in between, unless that artifact is tampered with |
| `ArtifactNaming.AffixedInjective` | apps/server/dimoo_run/artifacts/store.py:94 | uris and object keys of different ids differ |
| `ArtifactNaming.AddItem` | apps/server/dimoo_run/artifacts/store.py:111-113 | a new record under its own uri appends one item and disturbs none |
| `ArtifactStores.AuthorizeRead` | apps/server/dimoo_run/artifacts/store.py:292-325 | allows exactly the scope and permission, and leaves exactly the matching refusal otherwise |
| `ArtifactStores.ReadChecked` | apps/server/dimoo_run/artifacts/store.py:250-283 | the audit-first read path gives the specified result and exactly one record |
| `ArtifactStores.InMemoryArtifactStore.WriteJson` | apps/server/dimoo_run/artifacts/store.py:81-113 | appends one item, its record as the request says, under its memory uri; every record stays keyed by its own uri |
| `ArtifactStores.InMemoryArtifactStore.ReadJson` | apps/server/dimoo_run/artifacts/store.py:120-184 | refines the parse-first read, which converts to a dict after the audit |
| `ArtifactStores.LocalArtifactStore.WriteJson` | apps/server/dimoo_run/artifacts/store.py:203-241 | appends one item, its record as the request says, under its local uri; object and metadata files match the records |
| `ArtifactStores.LocalArtifactStore.ReadJson` | apps/server/dimoo_run/artifacts/store.py:243-283 | refines the audit-first read |
| `ArtifactStores.LocalUriIsNoS3Uri` | apps/server/dimoo_run/artifacts/store.py:345-350 | a local uri is never an object-store uri, so re-keying hits no other record |
| `ArtifactStores.S3CompatibleArtifactStore.WriteJson` | apps/server/dimoo_run/artifacts/store.py:345-365 | local write, re-keying and upload append one item, its record as the request says, under its object uri |
| `ArtifactStores.S3CompatibleArtifactStore.ReadJson` | apps/server/dimoo_run/artifacts/store.py:367-409 | refines the audit-first read, from the object client if there is one |
| `ApprovalLedger.StepSettled` | apps/server/dimoo_run/hitl/service.py:89-118 | every operation keeps each decision single, genuine and equal to the status |
| `ApprovalLedger.DecidedOnceByAnother` | apps/server/dimoo_run/hitl/service.py:44-118 | in every run a human task is decided at most once, never by its requester; its status is that decision, and the record says so |
| `ApprovalLedger.DecisionIsFinal` | apps/server/dimoo_run/hitl/service.py:89-118 | a decided task never changes again |
| `ApprovalLedger.DecideExact` | apps/server/dimoo_run/hitl/service.py:89-118 | each refusal of a decision and exactly when it is given, and what an accepted one writes: the status it says and one record of who decided what |
| `ApprovalLedger.PayloadsAgreeExactly` | apps/server/dimoo_run/hitl/service.py:200-265 | the two services return the same payload if and only if the decision says something or an empty one was already there |
| `HumanTasks.HumanTaskService.CreateApproval` | apps/server/dimoo_run/hitl/service.py:44-87 | a pending task as requested and one audit record of who asked, or the system; refines the shared create step |
| `HumanTasks.HumanTaskService.DecideTask` | apps/server/dimoo_run/hitl/service.py:89-118 | the three refusals in order, the status and the audit record of an accepted decision, and the payload; refines the shared decide step |
| `HumanTasks.LatestIsOwn` | apps/server/dimoo_run/hitl/service.py:200-265 | the newest approval row of a task is its own |
| `HumanTasks.SqlHumanTaskService.CreateApproval` | apps/server/dimoo_run/hitl/service.py:133-198 | the same over rows; task and approval status agree |
| `HumanTasks.SqlHumanTaskService.DecideTask` | apps/server/dimoo_run/hitl/service.py:200-265 | the same over rows; task and approval status agree |

## Left out

- Floating point: costs, thresholds and averages are exact reals, and rounding is half-to-even on them; the last bit of binary arithmetic is not modelled.
- SQL and row loading: `_load_cost_rows`, `_policy_statement`, usage joins and version-history queries are not modelled; their rows, policies, documents and orders are inputs.
- Attribution.BuildSummary: does not carry the quality-gate overlay of deployment entries, which is display data computed from the deployment's metadata.
- Attribution.DeploymentKeyExact: covers a deployment id of 0, which the deployment store never allots and the row loader would drop.
- Anomalies.BuildAnomalies: does not carry titles and summaries, which are texts made from the fields it does carry; budget preview texts are left out likewise.
- AssetLifecycle.AssetStore.SetStatus: does not carry timestamps, nor the last action and actor, which repeat the newest history entry.
- AssetLifecycle.AssetStore.ValidateAsset: takes whether the validation passed as an input; what it checks (`_validation_result`) is not modelled, nor are snapshots and diffs.
- HumanTasks.HumanTaskService.CreateApproval: does not carry the creation time or the constant task type.
- HumanTasks.SqlHumanTaskService.CreateApproval: does not carry the creation time, which the database sets, or the constant task type.
- ReplayBuffer.Buffer.ReplayFrom: refuses the digits and white space outside ASCII that `int()` also takes, and does not bound the number of digits.
- Webhooks.RunMinuteBound: supposes that a subscription's limiter calls and records come one after the other on a clock that does not run backwards, as they do within one process.
- TaskTable.LeaseTakesFirst: is about the in-memory backend; the durable ones order by more (SQL by active tasks per project, with quotas), so their choice among the eligible tasks is an input (LeaseTakesChoice), and what is proved of them holds for every choice; so is SubmissionsLeasedInOrder.
- TaskTable.LeaseIsExclusive: speaks of runs without the holder's own heartbeats, completion or failure and without cancellation, which do end or extend the lease (LeaseKeptExactly says when).
- TaskTable.InMemoryTaskBackend.FailTask: does not carry the error text kept with a failed task and its dead letter.
- The durable schedulers' storage (Redis sorted sets and Lua, SQL claims, run and attempt rows, reaper and quota events) is not modelled, only what happens to their tasks.
- Redaction, the policy engine, the webhook transport and the clock are arbitrary functions or inputs; JSON coding and SHA-256 are functions with the inverse law as the only assumption, where it is needed.
- File and object-store failures, and signed download URLs.
- Python object identity: a record returned to a caller is a value here, so later changes made through it are not seen.
- Deployment records are added and archived outside the model.
- Status strings outside the known ones: scope, window and action names are datatypes.
- The worker loop, the runtime store, authentication, sessions, API keys, the API layer, the console's views, both SDKs, the CLI, migrations and example agents.
- Registries with one-line checks (datasets, memory providers, checkpoints, published surfaces): they allot ids and look them up, and promise nothing beyond that.
