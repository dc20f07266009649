# HTC-Grid: a verified model of the task lifecycle and the capacity controller

HTC-Grid runs tasks submitted by clients on a fleet of agents. The state of every task is one row
of a DynamoDB table that agents, the TTL checker, the cancel lambda and the submit lambda all write
to, next to an at-least-once queue, an output store and a fleet of EC2 machines kept at a target
size by a reconciler. This project models those parts and proves what they keep over whole runs.

`dafny verify dfyconfig.toml` checks everything.

## How the model is laid out

**The protocol.** `Protocol` is a state machine: table, queue, issued handles, outputs, agents, TTL
checkers, submit calls, cancel calls and clock, one external call per step, any interleaving, every
actor stopping wherever it likes. `Rows` has the six row writes, four of them conditional. `Safety` proves the
invariant of all reachable states for any number of agents and checkers with arbitrarily stale
reads; `SafetyTheorems` draws the consequences for runs (absorbing terminal states, ownership, no
stale completion). `Delivery` says exactly which steps lose a task and which spoil
the count of its retries, for any number of checkers, any listing and any reads; `Discipline` shows that
one checker at a time with a current listing takes none of them if its row reads are right about used-up
retries, or current; and `LosingTasks` has a run in which one stale read loses a task. `LiveAgents` joins
this with the timing argument of `Heartbeat`: only tasks nobody is working on are retried. `Sessions` has
the session-wide calls and exactly which tasks escape a cancel call or are counted twice, and
`SessionRuns` runs in which that happens.

**The programs.** `AgentProgram`, `CheckerProgram`, `CancelProgram`, `ResultsProgram` and
`SubmitProgram` write the agent, the TTL checker, the cancel lambda, the results lambda with the client's
polling loop, and the submit lambda as imperative methods over the world of `Worlds`. Before the first call and between any two
everybody else takes any number of steps, chosen freely each time. A world's `Valid()` says that it
got where it is by a run of the protocol, so each method is shown to act as the protocol says, and all
theorems about runs hold of it. The agent and the checker also account for every call they made together
with the state it was made in, and decide as the row in that state makes them.

**The stored table.** `TaskStates` has the strings (state name plus partition, task ids),
`StateTables` the items, the string conditions and updates and a class performing them, `BusyScan`
the paged 32-partition scan, and `TableRefinement` the theorem that the items are the encoding of the
abstract table in every state of every run.

**Heartbeats.** `Heartbeat` has the generator, the refresh loop and the exact condition on poll
interval, delay, refresh interval and offset under which a live agent is never timed out; the
constructor's check looks at neither the poll interval nor the delay.

**Capacity.** `Machines` has machines and orders, `Capacity` the loops of one tick against
functions that say which prefix of which order they take, `Selection` which machines are touched and
why, `Fleet` how near the target one tick lands, `Convergence` repeated ticks, and `Drain` the tag and
stop calls with a crash between any two of them.

**Data plane and queue.** `InOutStore` has the bucket with its write-through cache and what
others can do to it between a get's download and its refill,
`PriorityQueue` the queue made of several, `Routing` the protocol running on that queue, and
`QueueDelivery` that no message is lost there until a step of `Delivery` loses it.

Where the code and its documentation disagree the code is followed. The docstring of `_scale_down`
(ec2_capacity_controller.py:250-251) says a partial last instance is left running; the loop cordons
it whole. `CordonUndershoots` says exactly when that takes the active capacity below the target or any
other bound, and `CordonMissesMinimum` exactly when it takes it below the configured minimum. The
comment at ec2_capacity_controller.py:186-188 says an unreadable deadline is skipped; a tag that is not
a number raises, which `SweepDraining` models.

## Model

| member | source | states |
|---|---|---|
| Safety.StepKeepsInv | source/client/python/api-v0.1/api/state_table_dynamodb.py:297-745 | Every step of every actor, however stale its reads, keeps the invariant: retries at most 5, finished rows have outputs, rows before messages, handles resolve to their task, an owning agent holds the latest claim |
| Safety.InvInEveryState | source/client/python/api-v0.1/api/state_table_dynamodb.py:297-745 | The invariant holds in every state of every run |
| SafetyTheorems.TerminalForever | source/client/python/api-v0.1/api/state_table_dynamodb.py:705-745 | Finished, failed and cancelled together are absorbing over every interleaving, although finalizing overwrites any status; a terminal task is never claimed or finished again |
| SafetyTheorems.FinishedAtMostOnce | source/client/python/api-v0.1/api/state_table_dynamodb.py:514-555 | A task enters finished at most once in a run |
| SafetyTheorems.StatusFixesOwnership | source/client/python/api-v0.1/api/state_table_dynamodb.py:309-326 | In every reachable state exactly the pending, failed and cancelled rows have no owner, retries never exceed the maximum even with many stale checkers, and a finished row has a stored output |
| SafetyTheorems.ClaimsAreCounted | source/client/python/api-v0.1/api/state_table_dynamodb.py:361-415 | The claims field of a row is the number of successful claim steps of the run |
| SafetyTheorems.ClaimOrigin | source/compute_plane/python/agent/agent.py:668-676 | An agent holding a task got there by one claim of its own, has held the task ever since, and carries that claim's number |
| SafetyTheorems.NoStaleCompletion | source/client/python/api-v0.1/api/state_table_dynamodb.py:535-555 | When a finish write succeeds the agent has been running the task uninterruptedly since its own claim, and nobody claimed the task after that |
| Delivery.StepLosesExactly | source/control_plane/python/lambda/ttl_checker/ttl_checker.py:104-151 | From a state in which nothing is lost, a step of anybody loses a task exactly when a checker deletes a message whose task still needs it, or puts back to pending a task whose message is gone |
| Delivery.LosesExactly | source/control_plane/python/lambda/ttl_checker/ttl_checker.py:104-151 | Over any run, with any number of checkers, any listing and any stale reads: nothing is lost in any state so far exactly when no step so far was one of those two |
| Delivery.StepCountsExactly | source/control_plane/python/lambda/ttl_checker/ttl_checker.py:115-133 | A step makes the claims of a task disagree with its retries exactly when it is a retry with a count read that is not the row's |
| Delivery.CountsExactly | source/control_plane/python/lambda/ttl_checker/ttl_checker.py:115-133 | Over any run the two agree in every state so far exactly when no retry so far was one of those |
| Delivery.RetriesAccountForClaims | source/control_plane/python/lambda/ttl_checker/ttl_checker.py:115-133 | Until then, successful claims equal retries for a pending row, retries plus one for a processing or finished row, one of the two otherwise; so a task is started at most six times |
| Discipline.DisciplinedNeverLoses | source/control_plane/python/lambda/ttl_checker/ttl_checker.py:104-151 | One checker at a time, with a listing of expired tasks and row reads that may be stale but are right about used-up retries, never takes a losing step |
| Discipline.NoTaskIsLost | source/control_plane/python/lambda/ttl_checker/ttl_checker.py:126-137 | In those runs every message has a row, and a sent task that is pending, or processing with retries left, still has its message |
| Discipline.CurrentNeverMiscounts | source/control_plane/python/lambda/ttl_checker/ttl_checker.py:115-133 | With reads of the current retries no retry miscounts |
| LosingTasks.StaleReadLosesTask | source/control_plane/python/lambda/ttl_checker/ttl_checker.py:281-310 | A run with one checker, a current listing and claims that expire before they are listed, in which a single read, stale about whether the retries are used up, makes the last step a losing one |
| LiveAgents.OnlyAbandonedAreRetried | source/compute_plane/python/agent/agent.py:598-618 | Where working agents refresh on time and poll, delay, refresh interval and offset meet the exact condition, a checker with a current listing retries or fails only tasks no agent is at work on, however stale its row reads |
| QueueDelivery.StepKeepsHeld | source/client/python/api-v0.1/api/task_queue_priority_sqs.py:60-154 | Every step keeps each message the protocol has on its queue waiting or in flight in the queue of its task's priority |
| QueueDelivery.NoMessageIsLost | source/control_plane/python/lambda/ttl_checker/ttl_checker.py:126-137 | As long as no step has been a losing one, on the priority queue too a sent task that still needs its message has it, in the queue of its row's priority |
| Sessions.SecondQueryCovers | source/control_plane/python/lambda/cancel_tasks/cancel_tasks.py:86-101 | At a cancel call's second query every task the session had is terminal or about to be overwritten exactly when none of them is pending then |
| Sessions.CancelAccounting | source/control_plane/python/lambda/cancel_tasks/cancel_tasks.py:86-101 | When the call returns its total counts distinct tasks, all terminal, and so is every task the session had except those pending at the second query, which neither list has |
| Sessions.EscapedWasRetried | source/control_plane/python/lambda/cancel_tasks/cancel_tasks.py:86-101 | Such a task was processing at the first query and was retried between the two |
| Sessions.CompletesExactly | source/control_plane/python/lambda/cancel_tasks/cancel_tasks.py:86-101 | At any moment after the second query: however the run goes on, the call returns with every task the session had terminal exactly when each task that escaped is terminal already |
| SessionRuns.RetryEscapes | source/control_plane/python/lambda/cancel_tasks/cancel_tasks.py:86-101 | A run of one checker with current reads in which a task that expires between the queries is retried, listed by neither, and pending when the call returns |
| Sessions.SnapshotIsComplete | source/control_plane/python/lambda/get_results/get_results.py:53-92 | On one snapshot the count equals the session size exactly when every task of the session is terminal |
| Sessions.ListedStaysTerminal | source/control_plane/python/lambda/get_results/get_results.py:53-84 | A task once listed under a terminal state is a terminal task of the session ever after, and a finished one has its output |
| Sessions.CountsDistinctTasks | source/control_plane/python/lambda/get_results/get_results.py:53-92 | With three queries at different moments the response counts distinct tasks exactly when no task listed by one query has another terminal status, listed by a later one; such a task was overturned by a finalizing write in between |
| Sessions.ResponseIsSound | source/control_plane/python/lambda/get_results/get_results.py:53-92 | All listed tasks are terminal; with none listed twice the count is at most the number of terminal tasks, and a client that sees the session size has a finished session |
| Sessions.OverturnsByFinalizing | source/client/python/api-v0.1/api/state_table_dynamodb.py:705-745 | Only the two unconditional writes replace one terminal status by another |
| SessionRuns.CountedTwice | source/control_plane/python/lambda/get_results/get_results.py:86-92 | A run in which a late cancel write makes a session of one task report two |
| AgentProgram.TryToAcquire | source/compute_plane/python/agent/agent.py:238-326 | Whatever others do before the receive and between the calls: a task is acquired exactly when its message was there, the claim not throttled and the row pending without an owner; then the row is processing, owned by the agent under the offered handle; otherwise the row read back decides whether the message is deleted |
| AgentProgram.KeepAlive | source/compute_plane/python/agent/agent.py:526-618 | A throttled refresh is repeated; each lands exactly when the row is processing under this agent, and the row carries the expiration of the last one; a refused one ends the agent, after deleting the message exactly when the row could be read and was cancelled |
| AgentProgram.ProcessCompletion | source/compute_plane/python/agent/agent.py:329-420 | Output stored first, finish write repeated under throttling, message deleted exactly when the finish write found the row processing under this agent; then the task is terminal, its output stored and its message gone |
| AgentProgram.RunRound | source/compute_plane/python/agent/agent.py:668-687 | One round ends in one of six ways, each exactly when the rows found at its calls make it so, a worker that could not start included; the calls made, each with the state it was made in, are those of that end |
| AgentProgram.WhyNotDone | source/compute_plane/python/agent/agent.py:238-420 | A round that is not done had no message, a throttled claim or a row not free, a worker that did not start, or a row no longer processing under this agent |
| AgentProgram.EventLoop | source/compute_plane/python/agent/agent.py:668-687 | The agent's calls in the run are the concatenation of its rounds', every round ended as the rows it found made it end, and the loop ends early only on a lost heartbeat |
| CheckerProgram.FailTask | source/control_plane/python/lambda/ttl_checker/ttl_checker.py:234-256 | The message is deleted before the row is marked failed, with others acting in between |
| CheckerProgram.DoRetryTask | source/control_plane/python/lambda/ttl_checker/ttl_checker.py:199-231 | The retry write happens exactly when it is not throttled and the row is still processing, and then the row is pending with the new count |
| CheckerProgram.VisitTask | source/control_plane/python/lambda/ttl_checker/ttl_checker.py:115-151 | One expired task, its row read possibly stale: given up exactly when the retries read are used up; otherwise retried exactly when the write is not throttled and finds the row processing, and then pending with one retry more than was read; the queue is given the handle read and the priority of the row |
| CheckerProgram.CheckPartition | source/control_plane/python/lambda/ttl_checker/ttl_checker.py:104-151 | One partition: its page of expired tasks as the table is at that moment, then one such visit per listed task, in order, while others act |
| CheckerProgram.LambdaHandler | source/control_plane/python/lambda/ttl_checker/ttl_checker.py:95-151 | A tick makes no step while the table is throttled, otherwise its steps are those of 32 passes, one per partition, from any start |
| CheckerProgram.OnePassPerTask | source/client/python/api-v0.1/api/state_table_dynamodb.py:159-190 | A tick deals with a task in one pass only, and there, unless the page is at the limit of 200, exactly when the task is expired at the moment its partition is listed |
| CheckerProgram.ListedIsDealtWith | source/control_plane/python/lambda/ttl_checker/ttl_checker.py:115-137 | A task listed in a tick whose retries are not read as used up, whose write is not throttled and finds it processing, is put back to pending with one retry more than was read |
| CancelProgram.CancelTasksByStatus | source/control_plane/python/lambda/cancel_tasks/cancel_tasks.py:34-69 | One query, then one overwrite per row listed, while others write; the first query covers all rows the session had |
| CancelProgram.CancelSession | source/control_plane/python/lambda/cancel_tasks/cancel_tasks.py:72-101 | Under any interference the counts are those of the lists, the total counts distinct tasks, all terminal, and so is every task the session had at the call except those retried between the two queries and pending at the second |
| ResultsProgram.GetTasksStatuses | source/control_plane/python/lambda/get_results/get_results.py:42-94 | Whatever runs between its queries, each list has exactly the tasks of the session with its status at the moment of its query; all listed tasks are terminal and finished ones have outputs; the count is that of distinct tasks exactly when none is listed twice, and a task listed twice was overturned during the call; a finished session nobody disturbs is counted whole |
| ResultsProgram.FinishedIsReported | source/control_plane/python/lambda/get_results/get_results.py:53-92 | A session all of whose tasks are terminal, with none added or overturned until the third query, is reported with its size, wherever the three queries fall |
| ResultsProgram.FullResponse | source/client/python/api-v0.1/api/connector.py:353-368 | A response that lists no task twice and counts all submitted tasks proves the session finished |
| ResultsProgram.GetResults | source/client/python/api-v0.1/api/connector.py:339-384 | A client that leaves its polling loop without timing out has a finished session if no task is listed twice, which takes an overturned row; every output it fetches is there; it gives up only after all its polls, and not on a session of that size that was finished and undisturbed from the call or from the last poll on |
| SubmitProgram.WriteRows | source/control_plane/python/lambda/submit_tasks/submit_tasks.py:207-252 | Every task of the call has a row of its session, while others run |
| SubmitProgram.SendNextChunk | source/control_plane/python/lambda/submit_tasks/submit_tasks.py:82-102 | A chunk of at most ten messages goes out, without those refused; the call goes on exactly when none of them is refused |
| SubmitProgram.SubmitTasks | source/control_plane/python/lambda/submit_tasks/submit_tasks.py:192-262 | All rows are written, with the session and the priority of the call, before any message; the call succeeds exactly when no chunk of ten has a refused message, and then every message was sent |
| TaskStates.StateStringInjective | source/client/python/api-v0.1/api/state_table_dynamodb.py:699-703 | State and partition are determined by the state string |
| TaskStates.StartsWithCancelledDecodes | source/compute_plane/python/agent/agent.py:231-233 | The prefix test decodes exactly the cancelled state |
| TaskStates.SessionRoundTrip | source/client/python/api-v0.1/api/state_table_dynamodb.py:675-676 | The session parsed from a constructed task id is the original exactly when it has no underscore |
| TaskStates.TaskIdInjective | source/client/python/api-v0.1/api/connector.py:241-251 | Constructed task ids never collide, whatever the sessions contain |
| StateTables.ConditionIsGuard | source/client/python/api-v0.1/api/state_table_dynamodb.py:309-555 | Each string condition holds of an encoded row exactly when the abstract guard does |
| StateTables.AfterClaim | source/client/python/api-v0.1/api/state_table_dynamodb.py:361-442 | After an accepted claim nobody can claim, its owner and nobody else can refresh or finish, and the task can be retried |
| StateTables.AfterRefresh | source/client/python/api-v0.1/api/state_table_dynamodb.py:443-512 | A refresh is accepted from the owner only; it moves the heartbeat and nothing else, so the live query lists the task exactly until the new timestamp and the expired query after it |
| StateTables.AfterRetry | source/client/python/api-v0.1/api/state_table_dynamodb.py:297-359 | After an accepted retry the item has the new count, anyone can claim it, and it cannot be refreshed, finished or retried |
| StateTables.AfterEnd | source/client/python/api-v0.1/api/state_table_dynamodb.py:514-590 | After a finish, a failure or a cancellation no conditional write is accepted |
| StateTables.FreshItemClaimable | source/control_plane/python/lambda/submit_tasks/submit_tasks.py:207-227 | A freshly submitted item can be claimed exactly when the session in its task id has the partition of the submitted session |
| StateTables.ConstructedIdsAreClaimable | source/client/python/api-v0.1/api/connector.py:238-251 | So it is for all ids built from a session without underscore |
| StateTables.SessionIndexDecodes | source/client/python/api-v0.1/api/state_table_dynamodb.py:595-605 | The session index query returns exactly the session's rows in the state |
| StateTables.LiveIndexDecodes | source/client/python/api-v0.1/api/state_table_dynamodb.py:178-190 | The index conditions of the live and the expired query of a partition select exactly its processing rows with the heartbeat after, respectively before, now |
| StateTables.StateTable.UpdateItem | source/client/python/api-v0.1/api/state_table_dynamodb.py:297-555 | Claim, refresh, finish and retry on the stored items perform exactly the abstract write, are refused exactly when its guard fails, and change nothing when throttled |
| StateTables.StateTable.Finalize | source/client/python/api-v0.1/api/state_table_dynamodb.py:705-745 | The unconditional overwrite, which creates a missing item, and is the abstract write on an existing one |
| StateTables.StateTable.PutItem | source/client/python/api-v0.1/api/state_table_dynamodb.py:64-87 | A written item encodes a fresh row when the partitions of the task id's session and the given one agree |
| StateTables.StateTable.HasBeenCancelled | source/compute_plane/python/agent/agent.py:215-235 | True exactly when the row exists, could be read and is cancelled |
| StateTables.StateTable.GetTasksByState | source/client/python/api-v0.1/api/state_table_dynamodb.py:595-642 | The paged query lists each row of the session in the state once and nothing else |
| StateTables.FollowPages | source/client/python/api-v0.1/api/state_table_dynamodb.py:263-276 | The paging loop returns every page |
| StateTables.ExpiredPageDecodes | source/client/python/api-v0.1/api/state_table_dynamodb.py:178-208 | A page of the expired query lists expired rows of the partition only, and all of them unless it is at the limit of 200 |
| BusyScan.EachPartitionOnce | source/client/python/api-v0.1/api/state_table_dynamodb.py:236-246 | From any start each partition is read at exactly one step |
| BusyScan.ScanFindsBusy | source/client/python/api-v0.1/api/state_table_dynamodb.py:225-276 | With every partition queried at its own moment, the scan finds exactly the instances that own a live task at the moment the task's partition is read |
| BusyScan.SnapshotFindsBusy | source/client/python/api-v0.1/api/state_table_dynamodb.py:225-276 | On one snapshot it finds exactly the instances owning a processing row with a heartbeat after now |
| BusyScan.WorkingInstanceIsBusy | source/compute_plane/python/lambda/capacity_controller/drain.py:151-171 | An instance with a processing row, owned as id-pair-N with a heartbeat after the clock when its partition is read, is found; the empty text and "None" never are |
| BusyScan.InstanceOfOwner | source/compute_plane/python/lambda/capacity_controller/drain.py:162-163 | The instance id is recovered from an owner id-pair-N exactly when the mark does not occur earlier |
| BusyScan.BusyInstanceIds | source/compute_plane/python/lambda/capacity_controller/drain.py:151-171 | The loops over partitions, pages and owners return exactly what the scan finds, or nothing exactly when a query is throttled |
| TableRefinement.StepRefines | source/client/python/api-v0.1/api/state_table_dynamodb.py:687-703 | Each step's string condition and update keep the items the encoding of the abstract table |
| TableRefinement.StoredTableRefines | source/client/python/api-v0.1/api/state_table_dynamodb.py:687-703 | In every state of every run the stored items are the encoding of the abstract table |
| TableRefinement.RefusalsAgree | source/client/python/api-v0.1/api/state_table_dynamodb.py:391-415 | The strings refuse a write exactly when the abstract guard does |
| Heartbeat.TTLExpirationGenerator.Create | source/client/python/utils/utils/ttl_experation_generator.py:10-24 | Construction is refused exactly when the refresh interval is not below the offset |
| Heartbeat.TTLExpirationGenerator.GenerateNextTtl | source/client/python/utils/utils/ttl_experation_generator.py:26-33 | For every draw the new expiration is at least the offset ahead of the clock |
| Heartbeat.UpdateTtlIfRequired | source/compute_plane/python/agent/agent.py:526-595 | A due refresh is repeated under throttling with a new timestamp each time; the generator ends at the timestamp that landed |
| Heartbeat.SettledByFirst | source/compute_plane/python/agent/agent.py:541-590 | Throttled attempts are followed by the next one; the first attempt that lands or is refused decides |
| Heartbeat.DoTtlUpdates | source/compute_plane/python/agent/agent.py:598-618 | The thread goes on exactly as long as every poll that is due has an attempt that lands, and the generator then holds the timestamp of the last landed refresh |
| Heartbeat.StaysAheadExactly | source/compute_plane/python/agent/agent.py:531-550 | For every configuration and delay: the heartbeat stays a margin ahead of the clock in all runs exactly when poll interval plus delay plus margin is at most the offset and the delay is less than what the refresh interval leaves of the offset, plus a second, less the margin |
| Heartbeat.LiveAgentNeverTimedOut | source/client/python/api-v0.1/api/state_table_dynamodb.py:180-190 | A live agent is never listed as expired, at any instant of any run and for any draw, exactly when P + delay <= O and delay < O - R + 1 |
| Heartbeat.LiveAgentAlwaysListed | source/client/python/api-v0.1/api/state_table_dynamodb.py:248-262 | The live query always lists its task exactly when P + delay <= O - 1 and delay < O - R |
| Heartbeat.LatePoll | source/client/python/utils/utils/ttl_experation_generator.py:16-20 | Whenever P + delay > O, although the constructor accepts it, an agent that polls exactly every P falls behind at its first poll |
| Heartbeat.SkippedPoll | source/compute_plane/python/agent/agent.py:531-550 | Whenever the delay is longer than a skipped poll allows, a run falls behind after a poll that was only just not due |
| Machines.SortedIsOrdered | source/compute_plane/python/lambda/capacity_controller/ec2_capacity_controller.py:265-271 | The victim order is idle before busy, then by age, and a permutation of the machines |
| Machines.SizeByMemoryIsPairs | source/compute_plane/python/lambda/capacity_controller/ec2_capacity_controller.py:129-139 | A machine sized by memory counts for one pair per full pair of memory, at least one |
| Machines.VcpusFallBack | source/compute_plane/python/lambda/capacity_controller/ec2_capacity_controller.py:93-141 | Known vCPUs win over memory, the top level over provider data, which counts only when the top level is missing; a value that is not a positive number is unknown; with nothing known a machine is one pair |
| Capacity.CoverIsShortest | source/compute_plane/python/lambda/capacity_controller/ec2_capacity_controller.py:271-278 | The covering prefix covers or is everything, and no shorter prefix covers |
| Capacity.SweepDraining | source/compute_plane/python/lambda/capacity_controller/ec2_capacity_controller.py:154-226 | The loop reclaims the shortest oldest-first prefix that meets the deficit and judges the rest; it raises exactly when a machine it judges has a deadline tag that is not a number |
| Selection.RaisesExactly | source/compute_plane/python/lambda/capacity_controller/ec2_capacity_controller.py:186-191 | The sweep raises exactly when a draining machine it does not reclaim has a deadline tag that is not a number |
| Capacity.ScaleDown | source/compute_plane/python/lambda/capacity_controller/ec2_capacity_controller.py:245-282 | The loop's victims are the shortest covering prefix of the victim order |
| Capacity.Handle | source/compute_plane/python/lambda/capacity_controller/ec2_capacity_controller.py:286-342 | One tick's decision as a function of the machines, the target, the busy set and the clock, or nothing done exactly when a judged machine's deadline tag is not a number |
| Selection.VictimsAreShortest | source/compute_plane/python/lambda/capacity_controller/ec2_capacity_controller.py:253-282 | Dropping the last victim no longer covers the surplus; all of them do, if the machines can |
| Selection.IdleBeforeBusy | source/compute_plane/python/lambda/capacity_controller/ec2_capacity_controller.py:264-271 | If a busy machine is chosen every idle active machine is |
| Selection.OlderIsCordonedFirst | source/compute_plane/python/lambda/capacity_controller/ec2_capacity_controller.py:264-278 | Of two active machines both idle or both busy the older is cordoned first: by creation time, without one by launch time, without either by id, compared character by character |
| Selection.OlderIsReclaimedFirst | source/compute_plane/python/lambda/capacity_controller/ec2_capacity_controller.py:173-184 | Of two draining machines the older is reclaimed first |
| Selection.VictimsAreActive | source/compute_plane/python/lambda/capacity_controller/ec2_capacity_controller.py:237-282 | Only machines without the draining tag are cordoned, with the busy set known and a surplus |
| Selection.NoVictimsWhenThrottled | source/compute_plane/python/lambda/capacity_controller/ec2_capacity_controller.py:258-262 | With the busy set unknown nothing is cordoned or stopped again, and only machines past a readable deadline are terminated |
| Selection.ReclaimsShortest | source/compute_plane/python/lambda/capacity_controller/ec2_capacity_controller.py:173-207 | Deficit in is deficit out plus the vCPUs reclaimed, and the reclaimed machines are the shortest oldest-first prefix |
| Selection.TerminatedIsSafe | source/compute_plane/python/lambda/capacity_controller/ec2_capacity_controller.py:186-217 | Only draining machines known idle or past a readable deadline are terminated |
| Selection.SweepVerdict | source/compute_plane/python/lambda/capacity_controller/ec2_capacity_controller.py:180-226 | Every draining machine gets exactly the verdict its state calls for, so the three lists are disjoint |
| Selection.BusyIsNotTerminated | source/compute_plane/python/lambda/capacity_controller/ec2_capacity_controller.py:186-206 | A busy draining machine before its deadline, or without a readable one, is never terminated, whatever the deficit |
| Selection.CreateExcludesDrain | source/compute_plane/python/lambda/capacity_controller/ec2_capacity_controller.py:329-336 | A tick that creates neither terminates, stops again nor cordons; one that cordons neither creates nor reclaims |
| Fleet.ActiveSumAfter | source/compute_plane/python/lambda/capacity_controller/ec2_capacity_controller.py:329-336 | Active vCPUs after a tick are those before, less the cordoned, plus the reclaimed and the created |
| Fleet.TickLandsNearTarget | source/compute_plane/python/lambda/capacity_controller/ec2_capacity_controller.py:154-282 | From any fleet a tick lands within one machine of the target, exactly on it whenever it creates |
| Fleet.DesiredCoversBacklog | source/compute_plane/python/lambda/capacity_controller/ec2_capacity_controller.py:306-316 | The target is within its bounds, covers the least number of pairs for the backlog unless clamped, is no more than that or the minimum, and for no backlog is zero clamped |
| Fleet.CordonUndershoots | source/compute_plane/python/lambda/capacity_controller/ec2_capacity_controller.py:271-278 | For every bound, a tick with a surplus ends below it exactly when no prefix of the victim order covers the surplus within what may go; the target is one such bound |
| Fleet.CordonMissesMinimum | source/compute_plane/python/lambda/capacity_controller/ec2_capacity_controller.py:271-278 | For every backlog a tick ends below the configured minimum exactly when it has a surplus and no prefix of the victim order covers it and still leaves the minimum |
| Fleet.CordonBelowMinimum | source/compute_plane/python/lambda/capacity_controller/ec2_capacity_controller.py:250-278 | Such a fleet: one machine of four vCPUs and a minimum of one |
| Convergence.OneTickReachesTarget | source/compute_plane/python/lambda/capacity_controller/ec2_capacity_controller.py:237-282 | With one machine size dividing the target, one tick makes active equal desired |
| Convergence.TickAtTarget | source/compute_plane/python/lambda/capacity_controller/ec2_capacity_controller.py:237-282 | At the target a tick creates, reclaims and cordons nothing, and the draining set only loses the terminated |
| Convergence.ExpiredIsTerminated | source/compute_plane/python/lambda/capacity_controller/ec2_capacity_controller.py:186-207 | At the target a machine past its deadline is terminated |
| Convergence.IdleTick | source/compute_plane/python/lambda/capacity_controller/ec2_capacity_controller.py:338-342 | At the target with nothing draining a tick is a no-op |
| Convergence.Converges | source/compute_plane/python/lambda/capacity_controller/ec2_capacity_controller.py:286-342 | From the second tick on the active machines never change, draining only shrinks, is empty once the clock passes every deadline, and ticks are then no-ops |
| Drain.DrainControl.Cordon | source/compute_plane/python/lambda/capacity_controller/drain.py:77-97 | Tag before stop, crashing after any number of calls |
| Drain.DrainControl.Uncordon | source/compute_plane/python/lambda/capacity_controller/drain.py:110-121 | Start before untag, crashing after any number of calls |
| Drain.DrainControl.Tick | source/compute_plane/python/lambda/capacity_controller/ec2_capacity_controller.py:173-226 | What survives of a tick is the prefix of its calls that the crash left |
| Drain.UncordonIsSafe | source/compute_plane/python/lambda/capacity_controller/drain.py:72-74 | After an uncordon every stopped worker is tagged exactly when the start reached each stopped one of them |
| Drain.TickIsCrashSafe | source/compute_plane/python/lambda/capacity_controller/drain.py:77-121 | Wherever a tick crashes, every stopped worker carries the tag |
| Drain.TickLeaves | source/compute_plane/python/lambda/capacity_controller/drain.py:77-121 | A tick that does not crash starts the reclaimed and untags them, stops the busy again, and tags and stops the victims, with a deadline so many seconds after the clock |
| Drain.TickKeepsTagsShowing | source/compute_plane/python/lambda/capacity_controller/drain.py:77-148 | After such a tick the tags say exactly which machines of the fleet are draining and until when, new machines included |
| Drain.StoppedAlwaysTagged | source/compute_plane/python/lambda/capacity_controller/drain.py:77-121 | So in every state any sequence of ticks reaches, each crashed anywhere |
| Drain.BusyIsStoppedAgain | source/compute_plane/python/lambda/capacity_controller/ec2_capacity_controller.py:209-217 | A tagged worker still busy before its deadline is sent stop again by a tick without a deficit |
| InOutStore.KeysNeverCollide | source/client/python/api-v0.1/api/in_out_redis.py:116-120 | Keys are equal exactly when task and kind are |
| InOutStore.InOutRedis.PutFromBytes | source/client/python/api-v0.1/api/in_out_redis.py:150-163 | A put replaces the value of its task and kind and no other, in bucket and cache |
| InOutStore.InOutRedis.PutWithCacheFailure | source/client/python/api-v0.1/api/in_out_redis.py:150-163 | When the cache write raises after the upload the store stays consistent exactly when the cache held no other value for the key |
| InOutStore.InOutRedis.GetToBytes | source/client/python/api-v0.1/api/in_out_redis.py:169-194 | A get returns the last put, and fails exactly when neither cache nor bucket has a usable value |
| InOutStore.Execute | source/client/python/api-v0.1/api/in_out_redis.py:150-194 | Over any run of puts of non-empty data, gets and evictions, from any such contents, the answers are the plain map's and the contents what it ends with |
| InOutStore.AnswersAt | source/client/python/api-v0.1/api/in_out_redis.py:169-194 | The answer at each position is what the plain map holds at that point |
| InOutStore.GetOvertaken | source/client/python/api-v0.1/api/in_out_redis.py:169-194 | A get whose download and refill are overtaken by any operations of others returns what the bucket held, and leaves the cache disagreeing with the bucket exactly when it missed, found a value, and the last put of that key in between wrote another one |
| PriorityQueue.SendInserts | source/client/python/api-v0.1/api/task_queue_priority_sqs.py:60-73 | Sending adds exactly the messages at their priority |
| PriorityQueue.ReceiveTakesMaximum | source/client/python/api-v0.1/api/task_queue_priority_sqs.py:92-106 | Receiving removes one message of maximal priority |
| PriorityQueue.EmptyWhenNoneWaits | source/client/python/api-v0.1/api/task_queue_priority_sqs.py:92-106 | The emulated queue is empty exactly when every queue is |
| PriorityQueue.VisibleAgain | source/client/python/api-v0.1/api/task_queue_priority_sqs.py:131-154 | A message made visible comes back at its priority |
| PriorityQueue.MessageLife | source/client/python/api-v0.1/api/task_queue_priority_sqs.py:92-154 | A receive moves one message in flight under its handle; a delete takes it out for good; a timeout of zero makes it wait again and any other leaves it in flight; no other message is touched |
| PriorityQueue.QueuePrioritySQS.SendMessages | source/client/python/api-v0.1/api/task_queue_priority_sqs.py:47-73 | Sends to the queue of the priority, the first by default; a priority nobody configured fails |
| PriorityQueue.QueuePrioritySQS.ReceiveMessage | source/client/python/api-v0.1/api/task_queue_priority_sqs.py:75-106 | The loop takes from the highest non-empty queue and records the handle's queue; nothing exactly when all are empty |
| PriorityQueue.QueuePrioritySQS.GetQueueObject | source/client/python/api-v0.1/api/task_queue_priority_sqs.py:168-197 | A known handle maps to the queue that issued it, otherwise the priority decides, otherwise an error |
| PriorityQueue.QueuePrioritySQS.DeleteMessage | source/client/python/api-v0.1/api/task_queue_priority_sqs.py:108-129 | With the lookup or the right priority the delete reaches the issuing queue and no other |
| PriorityQueue.QueuePrioritySQS.ChangeVisibility | source/client/python/api-v0.1/api/task_queue_priority_sqs.py:131-154 | The visibility change is routed the same way |
| PriorityQueue.QueuePrioritySQS.GetQueueLength | source/client/python/api-v0.1/api/task_queue_priority_sqs.py:156-166 | The length is the number of all waiting messages |
| Routing.StepKeepsRouted | source/client/python/api-v0.1/api/task_queue_priority_sqs.py:60-197 | Every step on the queues keeps each queue to tasks of its own priority and each handle with the queue that issued it |
| Routing.RowLeadsToItsMessage | source/control_plane/python/lambda/ttl_checker/ttl_checker.py:259-329 | In every run, whatever version of a row a checker reads, handle and priority lead to the one queue that issued the handle and to this task's message; the priority is the submitter's |
| Routing.CheckerReachesMessage | source/control_plane/python/lambda/ttl_checker/ttl_checker.py:199-329 | A checker's delete takes the task's message out of flight in every queue, and its reset, unless it fails, makes that message wait again at the task's priority |
| Routing.ResetCanLand | source/control_plane/python/lambda/ttl_checker/ttl_checker.py:310-329 | The reset of a message in flight under the handle read can land, and the message then waits in that queue |

## Left out

- boto3, SQS, DynamoDB, SSM, EC2, CloudWatch and Lambda themselves: a table is a map with conditional updates, a queue a set or bag of messages with handles, a throttled call one without effect.
- Index lag: queries of a session or partition return the current rows, except the checker's listing in the protocol, which may be any stored rows unless `Discipline` says otherwise.
- Redrive to a dead-letter queue, message retention and stale receipt handles: deleting through any handle issued for a message removes it.
- In the protocol any message on the queue may be received at any time, so visibility timeouts only appear in `PriorityQueue` and `Routing`.
- md5 is an uninterpreted function from session ids to natural numbers; only its remainder by 32 is used.
- Submitting a task id twice: a submit call is modelled only for ids no other call has used.
- Discipline.NoTaskIsLost: assumes one checker, a current listing, and reads right about used-up retries; the code's row read is not a consistent one (ttl_checker.py:298), StaleReadLosesTask shows what one such read can do, and LosesExactly says for all runs which steps lose a task.
- Delivery.RetriesAccountForClaims: assumes that no retry has miscounted, which CountsExactly shows to be the exact condition.
- LiveAgents.OnlyAbandonedAreRetried: assumes that agents are on time until they are done with a task; an agent that fell silent may find its task retried.
- Heartbeat.LiveAgentNeverTimedOut: polls may come as early as the thread likes and at most the poll interval plus the delay apart; the code does not check its condition.
- A worker cancelled during a refresh calls a delete the message object lacks (agent.py:566): the model deletes or does not, and the agent stops.
- A refused heartbeat of a task that was not cancelled raises and ends the agent; the model does not tell the two kinds of exit apart.
- Whether a stale agent that stores an output late overwrites a good one: outputs are a set of tasks in the protocol, their bytes only appear in `InOutStore`.
- StateTables.StateTable.Finalize: an item created by the overwrite has default values in the attributes the store leaves unset.
- InOutStore.Execute: states the case with a bucket, non-empty data and operations one after the other (GetOvertaken has the get that others overtake); without a bucket, or for empty data, GetToBytes says what a get does after an eviction.
- Drain.StoppedAlwaysTagged: a tick that raises makes no drain call; assumes that start commands land, because an untag follows a start whether or not it landed; UncordonIsSafe says exactly what a lost one costs.
- Fleet.TickLandsNearTarget: assumes a target that is not negative, ids on all machines, a known busy set and a create that delivers what it was asked for.
- CheckerProgram.LambdaHandler: the throttling that skips a tick is a parameter; a throttled expired query, which raises out of the handler in the middle of a tick, appears only in the protocol, as a checker that stops where it stands.
- BusyScan.BusyInstanceIds: all pages of one partition belong to one moment.
- `read_drain_state`, the create and terminate calls of the provider, and the floor division into pairs for logging.
- ResultsProgram.GetResults: the client's timeout is a number of polls; a client without a timeout polls for ever and is left out.
- The backlog is an integer; the controller reads it as a float.
- A receive takes a waiting message when there is one; short polling may return nothing.
- File variants of the store, its UTF-8 and base64 layers, connection handling.
- `batch_write` order and its retries of unprocessed items; the client's upload of inputs before it submits.
- The dispatch and logging parts of the lambdas, metrics, tracing and authentication.
- The worker process and its execution thread: an agent's run between claim and completion is any number of refreshes.
- `orb_lambda.py`, `orb_client.py`, the node drainer, example clients, workloads and infrastructure templates.
