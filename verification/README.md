# Job queue, job graphs and calendar arithmetic: a verified model

A Dafny model of the parts of the repository in which several pieces of state have to agree, with proofs of
what they keep over every run.

- **The job scheduler** (`queue_job/jobrunner/channels.py`): heaps with lazy deletion, queues with delayed
  starts, the tree of channels, and the manager that turns notifications into moves. The classes of the
  program are classes here; beside them stands a value model (`ChannelView`, `Network`, `Sched`) that every
  method is proved against, and over which the properties of whole runs are stated.
- **The execution of jobs** (`queue_job/controllers/main.py`, `queue_job/jobrunner/runner.py`,
  `queue_job/job.py`, `queue_job/models/queue_job.py`): a step system of workers, one runner, its requeuer
  of dead jobs and users, over the shared job table. The channels above are part of its state, so that what
  the runner does with a job depends on where the channels hold it. Worker, runner, users and table are also
  classes, whose methods are proved to be runs of the step system.
- **The job graph compiler** (`queue_job/delay.py`): chains and groups, the merging of their graphs, the
  topological sort and the enumeration of paths.
- **Calendar arithmetic**: the settlement periods of commissions with the loop that groups lines
  (`commission_oca/wizards/commission_make_settle.py`), and the cutoff day of payment terms
  (`account_payment_term_cutoff_day/models/account_payment_term_line.py`).

`dafny verify dfyconfig.toml` checks the whole project.

## How the files build on each other

| file | module | content |
|---|---|---|
| options.dfy, maps.dfy | Options, Maps | a value that may be missing; equality of maps |
| heapq.dfy | HeapQ | a binary heap for any total preorder |
| channels.dfy | Channels | PriorityQueue, ChannelQueue, Channel, and the value model of a network of channels |
| scheduler.dfy | Scheduler | the manager as a state machine: events and runs |
| pipeline.dfy | Pipeline | where a job may sit, over every run |
| drain_order.dfy | DrainOrder | what a drained call hands up, without its loop |
| wakeup.dfy | WakeupTimes | timed wakeups |
| capacity.dfy | Capacity | capacities and throttle delays over runs |
| channel_names.dfy, manager.dfy | ChannelNames, Manager | channel lookup, its index, and the ChannelManager class |
| active.dfy, queued.dfy | ActiveJobs, QueuedJobs | which jobs hold slots all the way to the root, and which wait in a queue, event by event |
| job_table.dfy | JobStates, JobTable | rows, dependencies, release, cancellation cascade, buttons |
| protocol.dfy | Protocol | the step system of workers, runner and users |
| safety.dfy, dependencies.dfy, retries.dfy, system_capacity.dfy | ExecutionSafety, Dependencies, Retries, SystemCapacity | its properties over every run |
| errors.dfy | RetryErrors | how long a job goes on that raises retryable errors |
| scenarios.dfy | Scenarios | runs from the start in which conditions of those properties fail |
| jobs.dfy, workers.dfy, users.dfy, runner.dfy | Jobs, Workers, Users, Runners | the classes of the program, as runs of the step system |
| graph.dfy | Graphs | topological sort and maximal paths |
| nesting.dfy, flatten.dfy, flat_graph.dfy, sequel.dfy | Nesting, Flattening, FlatGraph, Sequels | what chains, groups and `on_done` denote, how they are flattened, and when the two agree |
| calendar.dfy, settlement.dfy, cutoff.dfy | Calendar, Settlements, CutoffDay | dates, commission settlement, cutoff day |

## Where the code gives less than its documentation

Each is stated here as a lemma with the exact condition, and with an input or a run for which it fails.

- A chain's head is the tail of its first element and its tail the head of its last
  (queue_job/delay.py:330-334). Flattening therefore preserves the precedence of a nesting exactly when, in
  every chain, the tails of an element come last in it and the heads of the next come first
  (`Nesting.FlattenIff`, a condition on the shape alone); chains whose ends are single delayables or groups
  of them always qualify (`Nesting.FlatEndsAreProper`), and `Nesting.NestedChainBreaks` is a nesting that
  does not. What `on_done` links keeps the precedence under the same condition on the longer chain it stands
  for (`Sequels.OnDonePreservesIff`).
- A worker keeps the states of a job's dependencies in memory from the moment it stores the job as started
  (queue_job/job.py:643-645 and 761-765), and decides from them where a postponed job goes. A job that was acquired
  while a dependency was not done can so be left waiting for ever, although no worker crashes
  (`Scenarios.StaleWait`); and so can the dependents of a worker that dies between its commit and the release
  (`Scenarios.CrashLosesRelease`). `Dependencies.ReleaseStepIff` says of every step exactly when it loses a
  release, and `Dependencies.NoneLostIff` of every run. Two simpler conditions are enough: that jobs are acquired
  with their dependencies done (`Dependencies.NoneLostOverRuns`), or that no job is on its way too early
  (`Dependencies.NoneLostInOrder`), each with no such crash.
- The runner marks a job enqueued whatever its state has become meanwhile
  (queue_job/jobrunner/runner.py:207-215), and users may requeue a job that is done
  (queue_job/models/queue_job.py:421): `Scenarios.StaleMark` and `Scenarios.RequeuedTooEarly` are runs that let
  a job be on its way with a dependency that is not done. `Dependencies.ReadyStepIff` and
  `Dependencies.ReadyIff` say exactly which steps, and which runs, do.
- `enqueued` and `started` notifications do not look at capacities. `Capacity.CapacityStepIff` and
  `Capacity.CapacityOverRuns` say exactly which events and runs keep them, `SystemCapacity.WithinOverRuns` which
  runs of the whole system: what is left to respect there are the loading of active jobs, jobs that change
  channel while they are active, and capacities set below use. `Capacity.StartedBeyondCapacity` is a run of
  events, and `Scenarios.RestartBeyondCapacity` a run of the system, a restart with a smaller capacity, that
  exceed one.
- Concurrency errors of the database count as retries but never exhaust them
  (queue_job/controllers/main.py:164-182): `Scenarios.ConflictsWithoutEnd` attempts a job as often as one likes,
  where `Retries.RetryBound` bounds the attempts that end in another way.
- A lookup with fallback appends all segments of the name to the channel it falls back to
  (queue_job/jobrunner/channels.py:1052-1057); `ChannelNames.FallbackStableIff` says when asking again gives
  the same channel.
- The second fortnight of a month ends a day early (`Settlements.FortnightIff`). Lines dated up to 1900-01-01 go
  to the settlement of the group settled before, whichever that is; when there is none yet, a first such line
  fails (`Settlements.CommissionMakeSettle.SettleGroup`).

## Model

| member | source | states |
|---|---|---|
| Channels.OrderIsTotalPreorder | queue_job/jobrunner/channels.py:218-228 | jobs that all have an eta, or all have none, are totally preordered by their keys, so a heap of them can be kept sorted; mixed ones cannot be compared |
| Channels.RankLessIff | queue_job/jobrunner/channels.py:218-228 | the eta apart, keys are compared as tuples: priority, date of creation and sequence, at the first place where they differ |
| Channels.PriorityQueue.Length | queue_job/jobrunner/channels.py:56-57 | the length counts exactly the live jobs, tombstones apart |
| Channels.PriorityQueue.Peek | queue_job/jobrunner/channels.py:59-72 | answers a live job that no live job precedes, or none when there is none; drops tombstones from the front only |
| Channels.PriorityQueue.Add | queue_job/jobrunner/channels.py:77-84 | the job joins the live ones; one that was removed is live again, once |
| Channels.PriorityQueue.Remove | queue_job/jobrunner/channels.py:86-91 | the job is live no more; a job never added leaves the queue as it is |
| Channels.PriorityQueue.PopFirst | queue_job/jobrunner/channels.py:93-104 | extract-min on the set of live jobs: a least one leaves, with no tombstone of it left behind, and only that one |
| HeapQ.RootIsLeast | queue_job/jobrunner/channels.py:65 | the root of a heap precedes every element, which is what a peek relies on |
| HeapQ.Push | queue_job/jobrunner/channels.py:84 | pushing keeps the heap order and adds one element to the multiset |
| HeapQ.Pop | queue_job/jobrunner/channels.py:96 | popping returns the root, keeps the heap order and takes one element from the multiset |
| Channels.ChannelQueue.Add | queue_job/jobrunner/channels.py:325-329 | a job with an eta is set aside with it, another one is ready |
| Channels.ChannelQueue.Remove | queue_job/jobrunner/channels.py:331-333 | the job is in neither part, nothing else changes |
| Channels.ChannelQueue.PromoteFirst | queue_job/jobrunner/channels.py:335-339 | the earliest eta job becomes ready; its eta is cleared while it is in no heap, tombstones included, so no heap ever sees a key change |
| Channels.ChannelQueue.PromoteDue | queue_job/jobrunner/channels.py:335-339 | exactly the jobs whose eta is not after now become ready |
| Channels.ChannelQueue.MustWait | queue_job/jobrunner/channels.py:340-348 | a sequential queue waits exactly when a job with the earliest eta comes strictly before every ready job in priority, date and sequence |
| Channels.ChannelQueue.HeldByHeads | queue_job/jobrunner/channels.py:340-348 | comparing the two heads decides that, for all jobs |
| Channels.ChannelQueue.Pop | queue_job/jobrunner/channels.py:335-349 | what is due joins what is ready; the job popped is no later than any ready job that stays, in priority, then date, then sequence; none is popped exactly when nothing is ready or a sequential queue waits for an eta |
| Channels.ChannelQueue.GetWakeupTime | queue_job/jobrunner/channels.py:351-357 | the earlier of the given time and the earliest eta, 0 standing for none |
| Channels.Channel.Configure | queue_job/jobrunner/channels.py:435-451 | the four settings are written, nothing else in the network changes, and a sequential channel with a capacity other than 1 is refused after that |
| Channels.Channel.Remove | queue_job/jobrunner/channels.py:472-478 | the job is nowhere on the line from this channel to the root; other channels and jobs stay as they are |
| Channels.Channel.SetPending | queue_job/jobrunner/channels.py:488-500 | a job not yet queued here leaves every place on the line and is queued here alone |
| Channels.Channel.SetRunning | queue_job/jobrunner/channels.py:502-513 | the job runs here and on downstream up to the first channel that ran it already; it leaves queue and failed jobs there |
| Channels.Channel.SetFailed | queue_job/jobrunner/channels.py:515-523 | a job not yet failed here leaves every place on the line and is failed here alone |
| Channels.RunningStep | queue_job/jobrunner/channels.py:502-513 | the recursion of `set_running` towards the root, one channel at a time, has that effect |
| Channels.Channel.HasCapacity | queue_job/jobrunner/channels.py:525-534 | exactly when the channel is not paused, not sequential with a failed job, and has no capacity, a capacity of 0, or fewer running jobs than that |
| Channels.Channel.YieldAll | queue_job/jobrunner/channels.py:557-583 | the loop yields jobs one by one as queue, capacity and throttle allow, stops for one of its three reasons, and leaves the state that goes with that |
| Channels.Channel.GetJobsToRun | queue_job/jobrunner/channels.py:536-583 | the recursive call, drained: children in turn, their jobs queued here, then this channel's own yields; the record of it replays to the new network |
| Channels.Channel.GetWakeupTime | queue_job/jobrunner/channels.py:585-603 | the least of the given time and the wakeup times of the channels that open channels lead to, a time of 0 standing for none |
| Pipeline.MovedPlaces | queue_job/jobrunner/channels.py:1080-1097 | a notified state takes its job from one settled position on its line to another |
| Pipeline.MovedWhere | queue_job/jobrunner/channels.py:1080-1097 | where each state leaves the job: pending in the queue of its own channel alone, until its eta or ready; failed among the failed of its channel alone; done, cancelled or gone nowhere; active running down to the root |
| Pipeline.MovedOthers | queue_job/jobrunner/channels.py:1080-1097 | ... and leaves every other job where it was |
| Pipeline.MovedUndisturbs | queue_job/jobrunner/channels.py:1080-1097 | every other job is held by the same channels in the same way, with the same eta |
| Pipeline.ReplayPlaces | queue_job/jobrunner/channels.py:536-583 | draining moves a job only downstream: a yielded one runs in the channels passed, another stays or joins the ready ones |
| Pipeline.InvStep | queue_job/jobrunner/channels.py:1059-1115 | every event keeps: a live job is failed in its own channel, set aside there, running in a prefix of its line and ready in the next channel, running all the way, or nowhere; and there is one live object per uuid |
| Pipeline.InvOverRuns | queue_job/jobrunner/channels.py:1059-1115 | so in every state of every run of notifications, drained calls, removals, configuration and forgetting |
| DrainOrder.MayYieldIff | queue_job/jobrunner/channels.py:335-349 | the loop may yield a list exactly when it is a least-first part of the eligible jobs, no longer than the quota |
| DrainOrder.StopsIff | queue_job/jobrunner/channels.py:557-583 | it stops exactly when the quota is used up |
| DrainOrder.QuotaIs | queue_job/jobrunner/channels.py:525-583 | the quota is the greatest number within what is eligible, the free slots, and one when throttled; it is 0 exactly when the channel is paused, blocked by a failed job or full |
| DrainOrder.HandsUpInOrder | queue_job/jobrunner/channels.py:218-228 | what one call hands up is ready or past due, in the order of priority, date and sequence, and no later than what is left; a channel that is not sequential hands up as many as the quota allows |
| DrainOrder.RunsIff | queue_job/jobrunner/channels.py:536-583 | one call yields exactly a least-first list of its due jobs, as long as free slots, pause, failed jobs, throttle and the earliest eta allow |
| DrainOrder.LeftIs | queue_job/jobrunner/channels.py:536-583 | what the channel is left with, without the loop |
| DrainOrder.DrainIff | queue_job/jobrunner/channels.py:536-583 | a drained call on a tree may go as recorded exactly when every channel hands up such a list, its children's jobs joined with its own |
| DrainOrder.RootHandsUp | queue_job/jobrunner/channels.py:1111-1112 | in any reachable state: the list handed to the runner is in that order, empty when the root is paused, blocked or full, and what the root is left with is known |
| WakeupTimes.QuietAfterDrain | queue_job/jobrunner/channels.py:536-583 | after a drained call every channel is full, within a throttle delay, or has nothing to pop that is due |
| WakeupTimes.WakeupBlocks | queue_job/jobrunner/channels.py:585-603 | the wakeup time asked for then is 0 or in the future, and until it every channel that counts is blocked |
| WakeupTimes.NoMissedWakeup | queue_job/jobrunner/channels.py:536-603 | no missed and no perpetual wakeup: without a notification no later call yields a job before the wakeup time, or ever when it is 0 |
| WakeupTimes.ClockedStep | queue_job/jobrunner/channels.py:543-583 | the order of throttle delays this rests on is kept by every event but a new configuration |
| Capacity.DrainWithin | queue_job/jobrunner/channels.py:525-583 | a drained call raises no channel's running count above the greater of its count before and its capacity |
| Capacity.BarredYieldsNothing | queue_job/jobrunner/channels.py:406-407 | a channel that is paused, blocked by a failed job or full hands nothing downstream in a drained call, wherever it is in the tree; the root hands nothing to the runner |
| Capacity.RescheduledRunning | queue_job/jobrunner/channels.py:1063-1092 | a running job that is notified with its eta cleared is replaced by a new object in exactly the slots of the old one |
| Capacity.StartedWithinIff | queue_job/jobrunner/channels.py:502-513 | notifying a job as enqueued or started keeps the capacities exactly when every limited channel that does not run it yet, on its way to the root, has a slot left |
| Capacity.CapacityStepIff | queue_job/jobrunner/channels.py:1059-1115 | any event keeps the capacities exactly when it is orderly: an active notification finds such slots, once a new job object has freed those of the old one, and no capacity is set below use |
| Capacity.CapacityOverRuns | queue_job/jobrunner/channels.py:525-583 | every positive capacity is respected in every state of a run exactly when each of its events is orderly |
| Capacity.StartedBeyondCapacity | queue_job/jobrunner/channels.py:502-513 | a run of two notifications after which a root channel of capacity 1 runs both jobs; the first is orderly, the second is not |
| Capacity.ThrottledYieldsApart | queue_job/jobrunner/channels.py:543-583 | a throttled channel yields one job at a time, and two yields are at least the throttle delay apart, over every run with a monotone clock |
| ChannelNames.SplitJoin | queue_job/jobrunner/channels.py:1052 | splitting a dotted name undoes joining its segments |
| ChannelNames.JoinInjective | queue_job/jobrunner/channels.py:453-459 | full names determine the path of a channel |
| ChannelNames.FallbackStableIff | queue_job/jobrunner/channels.py:1036-1057 | asking again with fallback finds the same channel exactly when the channel was there, the lookup fell back to the root, or the first segment left out differs from the first of the name |
| ChannelNames.FallbackMoves | queue_job/jobrunner/channels.py:1036-1057 | a name for which it does not |
| Manager.IndexedIff | queue_job/jobrunner/channels.py:1027-1028 | a dotted name is in the index exactly when its path leads to a channel of the tree, and to that channel |
| Manager.PathInjective | queue_job/jobrunner/channels.py:410-417 | no two channels have the same path |
| Manager.ChannelManager.FallbackParent | queue_job/jobrunner/channels.py:1036-1051 | the nearest channel that is there on the way from a missing channel to the root |
| Manager.ChannelManager.Descend | queue_job/jobrunner/channels.py:1052-1057 | missing channels on a path are created, one after the other, and put in the index; exactly the prefixes of the path are added |
| Manager.ChannelManager.GetChannelByName | queue_job/jobrunner/channels.py:980-1057 | the channel of that full name, the root's name being optional; a missing one is created when asked for; with fallback the nearest channel above is found and the segments are appended to it; otherwise none. Channels that are created have no limits, others stay as they were |
| Manager.ChannelManager.GetChannelFromConfig | queue_job/jobrunner/channels.py:965-978 | the channel is found or created, and configured |
| Manager.ChannelManager.Notify | queue_job/jobrunner/channels.py:1059-1097 | the job object is kept exactly when sequence, priority, eta and channel are unchanged, else replaced; then the job is where a job in the notified state belongs: pending in its channel's queue, set aside until its eta or ready, failed, running, or nowhere |
| Manager.ChannelManager.RemoveJob | queue_job/jobrunner/channels.py:1099-1103 | the live object of the uuid is dropped from the registry and from every channel |
| Manager.ChannelManager.RemoveDb | queue_job/jobrunner/channels.py:1105-1109 | so are all live objects of a database, and no others |
| Manager.ChannelManager.GetJobsToRun | queue_job/jobrunner/channels.py:1111-1112 | a drained call on the root is a step of the state machine |
| Manager.ChannelManager.GetWakeupTime | queue_job/jobrunner/channels.py:1114-1115 | asking for the wakeup time changes nothing that matters |
| ActiveJobs.RunsStep | queue_job/jobrunner/channels.py:472-583 | a job that runs all the way goes on running whatever event comes, unless it is about that job |
| ActiveJobs.ToldRuns | queue_job/jobrunner/channels.py:1088-1090 | a job notified as active runs all the way, when it did before or a new object is made for it |
| ActiveJobs.DrainedOut | queue_job/jobrunner/channels.py:536-583 | the jobs handed to the runner did not run all the way before, and do after |
| ActiveJobs.DrainedOnce | queue_job/jobrunner/channels.py:536-583 | no uuid is handed out twice in one call |
| JobTable.CascadeComplete | queue_job/job.py:567-587 | a set of jobs closed under waiting dependents, all reachable through them, is exactly the stranded jobs |
| JobTable.MarkingOff | queue_job/job.py:567-587 | each round leaves fewer jobs waiting, on any dependency relation |
| Jobs.Job.Perform | queue_job/job.py:507-537 | a retryable error is raised again, uncounted if it says so, until the counted retries reach `max_retries`, when it becomes a failure; each other way the function ends has its own error |
| Jobs.Job.SetPending | queue_job/job.py:828-841 | back to pending, or to waiting, by the states of the dependencies in memory; the count is reset on demand |
| Jobs.StatesOf | queue_job/job.py:496-505 | adding the edges of a new graph makes exactly the jobs with dependencies wait, and refuses a job that depends on itself |
| Jobs.Site.StoreGraph | queue_job/delay.py:248-291 | a new graph is stored with those states and nothing else changes, or not at all |
| Jobs.Site.Lock | queue_job/job.py:267-296 | the lock is had exactly when the job is started, has a lock row, and nobody holds it |
| Jobs.Site.EnqueueWaiting | queue_job/job.py:552-565 | exactly the waiting dependents whose dependencies are all done become pending |
| Jobs.Site.CancelDependentJobs | queue_job/job.py:567-587 | exactly the jobs reachable through dependents that all wait are cancelled, no other row changes, and it ends on any dependency relation |
| Users.ChosenFirst | queue_job/models/queue_job.py:400-406 | choosing the records by their states first is the same as looking at each when its turn comes, for distinct records |
| Users.PressedRows | queue_job/models/queue_job.py:375-424 | what each button makes of each row: which states it works on, what becomes of them, the count reset by a requeue, and that other rows change only from waiting to pending, or to cancelled |
| Users.QueueJob.ButtonDone | queue_job/models/queue_job.py:400-406 | the records that may be are marked done, and their dependents released, one after the other |
| Users.QueueJob.ButtonCancelled | queue_job/models/queue_job.py:408-417 | each record is cancelled with its cascade, unless an earlier one has cancelled it |
| Users.QueueJob.Requeue | queue_job/models/queue_job.py:419-424 | failed, done and cancelled records go back with their count reset, others stay |
| Users.PressedIsRun | queue_job/models/queue_job.py:375-424 | a button on several records is a run of the step system |
| ExecutionSafety.SafeStep | queue_job/controllers/main.py:57-197 | every step of worker, runner, requeuer or user keeps: locks are held by the workers at work on the jobs, performed jobs are started, active rows hold slots to the root in the channels, and jobs about to be marked are not active |
| ExecutionSafety.OnlyItsWorker | queue_job/controllers/main.py:80-91 | while a worker performs a job no step but its own finish touches the job's row |
| ExecutionSafety.MarksNoActive | queue_job/jobrunner/runner.py:416-431 | the runner marks no job that is enqueued or started |
| ExecutionSafety.SafeExecution | queue_job/controllers/main.py:57-114 | in every state of every run: at most one worker performs a job, which is started meanwhile, spared by the requeuer and touched by nobody else; and nothing enqueued or started is marked again |
| Dependencies.ReleasedAnew | queue_job/job.py:552-565 | a release leaves no dependent overdue and makes no other job overdue |
| Dependencies.FinishKeepsIff | queue_job/controllers/main.py:95-182 | the end of a job loses a release exactly when the job is postponed, the worker remembers an undone dependency, all are done by now, and nobody is about to release it |
| Dependencies.CrashKeepsIff | queue_job/controllers/main.py:107-150 | a crash loses a release exactly when the worker alone had some overdue dependent in hand |
| Dependencies.ReleaseStepIff | queue_job/controllers/main.py:57-197 | a step of anyone, worker, runner, requeuer or user, loses a release exactly in those two cases |
| Dependencies.NoneLostIff | queue_job/controllers/main.py:107-150 | in every state of a run each waiting job with all dependencies done has one of them in the hands of a worker between commit and release, exactly when every step of the run is harmless |
| Dependencies.NoneLostOverRuns | queue_job/controllers/main.py:107-150 | so it is in every run without a crash between commit and release where jobs are acquired with their dependencies done |
| Dependencies.NoneLostInOrder | queue_job/controllers/main.py:107-150 | so it is in every run without such a crash where no job is let on its way too early |
| Dependencies.NoneOverdueAtRest | queue_job/controllers/main.py:117-150 | after harmless steps, when no worker is at work, every waiting job has a dependency that is not done |
| Scenarios.CrashLosesRelease | queue_job/controllers/main.py:107-197 | a run from the start in which a worker dies after committing a job as done: the job's dependent waits with nobody left to release it |
| Scenarios.StaleWait | queue_job/job.py:761-765 | a run from the start without a crash, which ends with all workers idle and a job waiting whose only dependency is done: it was acquired while that was requeued, and postponed after it was done again |
| Dependencies.RequeueReadyIff | queue_job/models/queue_job.py:419-424 | requeuing keeps jobs on their way from being too early exactly when the job was not done or none of its dependents is on its way |
| Dependencies.MarkReadyIff | queue_job/jobrunner/runner.py:207-215 | marking a job enqueued keeps it exactly when the job's dependencies are done and, if the job itself is, none of its dependents is on its way |
| Dependencies.ReadyStepIff | queue_job/jobrunner/runner.py:207-215 | any step keeps it exactly when those two conditions hold of it |
| Dependencies.ReadyIff | queue_job/job.py:496-505 | in every state of a run each pending, enqueued or started job has its dependencies done, exactly when every step of the run is in time |
| Dependencies.ReadyOverRuns | queue_job/job.py:496-505 | so it is in every run where no done job is requeued and the runner marks pending jobs only |
| Scenarios.RequeuedTooEarly | queue_job/models/queue_job.py:419-424 | a run from the start in which a user marks a job done and requeues it: its dependent is pending while it is pending too |
| Scenarios.StaleMark | queue_job/jobrunner/runner.py:416-431 | a run from the start in which a job is marked done by a user between being handed out and being marked: it is enqueued again, with its dependent released |
| QueuedJobs.QueuedStep | queue_job/jobrunner/channels.py:1059-1115 | a job that waits in the channels after an event did so before, unless the event tells that it is pending |
| QueuedJobs.DrawnQueued | queue_job/jobrunner/channels.py:536-583 | a drained call hands out, and keeps in queues, queued jobs only |
| Retries.MarkableStep | queue_job/jobrunner/runner.py:207-215 | every step keeps: a job that the runner may yet mark enqueued has an attempt left to pay for, whatever its row has become meanwhile |
| Retries.TriesStep | queue_job/job.py:507-537 | every step keeps the number of attempts paid for by the retries counted |
| Retries.RetryBound | queue_job/jobrunner/runner.py:217-280 | with `max_retries` m > 0 a job is attempted m + 2 times at most, and when that often it ends failed, succeeds or is taken away by a user: in every run in which users do not requeue this job, its attempts do not end in uncounted or concurrency errors, and the requeuer does not take it for dead between its acquisition and its lock |
| Scenarios.RetryBoundIsTight | queue_job/jobrunner/runner.py:217-280 | for every m such a run from the job's creation, with m + 2 attempts that end in the death of the worker, and the job failed at the end |
| RetryErrors.ErrorStep | queue_job/job.py:507-537 | while all attempts end in counted retryable errors, every step keeps: the attempts ended are the retries counted, fewer than `max_retries` as long as the job may run again |
| RetryErrors.FailsAtTheLast | queue_job/job.py:519-537 | a job with `max_retries` m > 0 whose attempts all end so is not failed before its m-th attempt, and is failed once that has ended, unless a user took it away: in every run where no worker dies on it, the requeuer does not take it while it is started, and users do not requeue it |
| Scenarios.ConflictsWithoutEnd | queue_job/controllers/main.py:164-182 | with concurrency errors there is a run of any number of attempts, whatever `max_retries` is |
| SystemCapacity.TellIsOrderly | queue_job/jobrunner/runner.py:433-451 | a notification from the table is orderly as to capacities, since the runner put active jobs there itself; only active jobs that change channel have to find slots |
| SystemCapacity.WithinStepIff | queue_job/jobrunner/runner.py:395-451 | a step of the whole system keeps the capacities exactly when it is steady: active rows that are loaded and active jobs that change channel find slots, and no capacity is set below use |
| SystemCapacity.WithinOverRuns | queue_job/jobrunner/channels.py:525-583 | every positive capacity is respected in every state of a run of the whole system exactly when each of its steps is steady |
| Scenarios.RestartBeyondCapacity | queue_job/jobrunner/runner.py:395-409 | a run from the start in which the runner is started again with a smaller capacity and loads two enqueued jobs: the channel runs both |
| Workers.RunJobController.AcquireJob | queue_job/controllers/main.py:57-92 | committing the job as started and asking for its lock are two steps of the system; a job comes back exactly when the lock was had |
| Workers.RunJobController.TryPerformJob | queue_job/controllers/main.py:95-114 | a success is committed as done and ends the lock in one step; otherwise nothing is written |
| Workers.RunJobController.EnqueueDependentJobs | queue_job/controllers/main.py:117-150 | the dependents are released exactly when there are none or one of six tries meets no conflict |
| Workers.RunJobController.Runjob | queue_job/controllers/main.py:153-197 | an acquired job's outcome is stored, and the lock or the dependents seen to, in two steps of the system; the row ends done, failed, or back in the queue with its count, exactly as the outcome and `max_retries` say |
| Workers.RunJobController.RunjobRequest | queue_job/controllers/main.py:221-228 | one request is a run of the step system from idle to idle that keeps execution safety |
| Runners.QueueJobRunner.RequeueDeadJobs | queue_job/jobrunner/runner.py:217-280 | exactly the overdue rows that are enqueued or started, and have no lock row or a lock nobody holds, go back to pending, or fail when retried more than `max_retries`; a started one is counted a retry; every other row stays |
| Runners.QueueJobRunner.InitializeDatabases | queue_job/jobrunner/runner.py:398-409 | the rows neither done nor cancelled are loaded, each once and with its state; after that exactly they are live: pending ones queued in their channel, set aside if they have an eta, failed ones failed there, active ones running to the root |
| Runners.QueueJobRunner.RunJobs | queue_job/jobrunner/runner.py:416-431 | a run of the step system: one draw from the channels, then one mark for each job drawn; exactly the rows of the jobs drawn are enqueued |
| Runners.QueueJobRunner.ProcessNotification | queue_job/jobrunner/runner.py:433-451 | the job is notified with its row's properties and state as they are now, after which it is where that state belongs; a job without a row is removed; the channels the lookup creates are steps before that |
| Runners.QueueJobRunner.CloseDatabases | queue_job/jobrunner/runner.py:388-396 | exactly the live jobs of the databases named are dropped |
| Graphs.Graph.AddEdge | queue_job/delay.py:69-82 | the edge and its ends are there, nothing else changes, and the graph stays closed |
| Graphs.Graph.RootVertices | queue_job/delay.py:147-155 | exactly the vertices without a parent |
| Graphs.Graph.CountDependencies | queue_job/delay.py:132-134 | every vertex is counted its parents |
| Graphs.OrderedExactly | queue_job/delay.py:125-145 | an order that lists every vertex whose parents it lists consists of exactly the vertices without a cycle among themselves and their ancestors |
| Graphs.Graph.TopologicalSort | queue_job/delay.py:125-145 | on any closed graph: parents before children, no repetition, and exactly those vertices |
| Graphs.PathSearch.Search | queue_job/delay.py:110-121 | every maximal simple path that prolongs the path so far is found, each once and nothing else; path and seen vertices are put back |
| Graphs.Graph.Paths | queue_job/delay.py:98-123 | the maximal simple paths from a vertex, each once and nothing else, whatever cycles there are |
| Nesting.EndsIff | queue_job/delay.py:330-334 | four conditions on the shape of a nesting say exactly whether its heads or tails come first or last |
| Nesting.PathBefore | queue_job/delay.py:172-186 | no path of the flat graph orders what the nesting does not |
| Nesting.Crossing | queue_job/delay.py:172-186 | a path from an element of a chain to the next crosses from a tail of the one to a head of the other |
| Nesting.FlattenIff | queue_job/delay.py:319-334 | the transitive closure of the flat edges is the precedence the nesting denotes exactly when, in every chain, tails of an element come last and heads of the next first |
| Nesting.FlatEndsAreProper | queue_job/delay.py:319-334 | so it is whenever chains begin and end with single delayables or groups of them |
| Nesting.NestedChainBreaks | queue_job/delay.py:330-334 | a chain inside a chain inside a chain for which it is not |
| Flattening.Workflow.NewChain | queue_job/delay.py:319-328 | the graph of a chain links each element to the next |
| Flattening.Workflow.NewGroup | queue_job/delay.py:376-380 | the graph of a group holds its members, unlinked |
| Flattening.Workflow.OnDone | queue_job/delay.py:340-348 | exactly the edges from the delayable, the last of a chain or each of a group to the given ones are added |
| Flattening.MergeGraph | queue_job/delay.py:172-186 | the tails of every vertex get the heads of its neighbours as children, added to what is there |
| Flattening.Workflow.ConnectGraphs | queue_job/delay.py:188-212 | ends on any links, circular ones included; visits exactly the graphs reached through vertices, and returns exactly the union of their merged links |
| FlatGraph.MergeClosed | queue_job/delay.py:172-212 | the merged graph has single delayables as vertices, and every edge ends in a vertex |
| FlatGraph.FlattenPreservesIff | queue_job/delay.py:188-212 | for nestings as built: vertices are exactly the single delayables, and reachability is the denoted precedence exactly when the nesting is proper |
| FlatGraph.FlatHasNoCycle | queue_job/delay.py:293-295 | the flat graph of any nesting lets the sort list every delayable |
| Sequels.SequelLinks | queue_job/delay.py:340-348 | the edges that `on_done` leads to are those of the longer chain: from the tails of the last element, of each member or of the delayable itself to the heads of what is given |
| Sequels.OnDoneLinks | queue_job/delay.py:392-401 | calling `on_done` on nestings as built, which share no delayable, leaves exactly the links the next row speaks of |
| Sequels.OnDonePreservesIff | queue_job/delay.py:188-212 | after `on_done` the flat graph has all delayables and no cycle, and reachability is the precedence meant, everything of the nesting before everything given to `on_done`, exactly when the sequel is proper |
| Settlements.WholeMonths | commission_oca/wizards/commission_make_settle.py:33-68 | periods other than fortnights are whole numbers of months counted from January |
| Settlements.PeriodsTile | commission_oca/wizards/commission_make_settle.py:33-68 | they tile the calendar: a date lies in its period, the dates of a period are those that begin it together, and the day after begins the next |
| Settlements.FortnightIff | commission_oca/wizards/commission_make_settle.py:36-62 | a fortnight takes in its date exactly when that is not the last day of the month |
| Settlements.EndsBefore | commission_oca/wizards/commission_make_settle.py:112-146 | the period of a date before the current period ends before the current period starts, fortnights included |
| Settlements.LateIff | commission_oca/wizards/commission_make_settle.py:135-141 | a line begins a period of its own at the start of a group exactly when it is dated after 1 January 1900 |
| Settlements.CommissionMakeSettle.GetSettlement | commission_oca/wizards/commission_make_settle.py:70-82 | an open settlement with exactly the given values, or none when there is none |
| Settlements.CommissionMakeSettle.SettleGroup | commission_oca/wizards/commission_make_settle.py:131-163 | one settlement line per line not skipped, in order: in the settlement of its period, or in the one of the group before for a line up to 1900-01-01; all are where they belong exactly when that is the settlement those lines belong in; none is created that was there; it fails exactly when no settlement is at hand for a first line up to 1900-01-01 |
| Settlements.CommissionMakeSettle.ActionSettle | commission_oca/wizards/commission_make_settle.py:112-163 | over all agents, companies and currencies: exactly one settlement line for each line not skipped, in the settlement of its agent, company, currency and period, which takes in its date (fortnights apart) and is over before the agent's current period |
| Calendar.AddDaysMonotone | account_payment_term_cutoff_day/models/account_payment_term_line.py:39-41 | adding days keeps the order of dates |
| Calendar.OrdinalOfSum | account_payment_term_cutoff_day/models/account_payment_term_line.py:39-41 | adding days adds to the number of the date in the Gregorian calendar, leap years and centuries included |
| CutoffDay.CutoffIsLeast | account_payment_term_cutoff_day/models/account_payment_term_line.py:24-33 | the cutoff date is the first date not before the given one that is on the cutoff day, or on the last day of a shorter month, and no other date is |
| CutoffDay.CutoffCloses | account_payment_term_cutoff_day/models/account_payment_term_line.py:24-33 | it is a closure operator on dates: extensive, monotone and idempotent in spite of clipping |
| CutoffDay.DueDateMonotone | account_payment_term_cutoff_day/models/account_payment_term_line.py:35-42 | a later invoice is not due earlier, and none before its own date for months and days that are not negative |
| CutoffDay.DueDateIs | account_payment_term_cutoff_day/models/account_payment_term_line.py:35-42 | the due date is so many days after the last day of the month that is so many months after that of the cutoff date |

## Left out

- Dependencies.NoneLostOverRuns: has a condition that is enough but not needed; `Dependencies.NoneLostIff` has the
  exact one. So have `Dependencies.ReadyOverRuns` and `Dependencies.ReadyIff`.
- Retries.RetryBound: leaves out errors that ask not to be counted and concurrency errors of the database,
  which the code does not bound, and assumes that a worker asks for the lock of a job it has acquired before
  the requeuer, ten seconds after the job was enqueued, takes it for dead.
- Sequels.OnDonePreservesIff: is for `on_done` called on one nesting, which is then delayed; longer webs of such
  links between nestings are covered by `Flattening.Workflow.ConnectGraphs` and `FlatGraph.MergeClosed` only, which
  say what is built and not what it means.
- Capacity.ThrottledYieldsApart: is for a throttle that is not configured anew during the run; so is
  `WakeupTimes.NoMissedWakeup`, which also takes the generator to be drained.
- Settlements.CommissionMakeSettle.ActionSettle: is for lines dated after 1900-01-01; it takes the groups of an
  agent in any order, where the program goes by company and currency number.
- Channels.Channel.GetJobsToRun: does not model a generator abandoned halfway, which happens only when the
  runner stops.
- Transactions of the database, its row locks with skipping of locked rows, and the reading of notifications
  are single steps; effects of snapshots that overlap are not modelled, nor is more than one runner.
- An eta of exactly 0 seconds since the epoch, which the program would take for a missing one.
- Weak references: the registry may forget a job no channel holds at any time, as a step of its own.
- The time a job was enqueued: the requeuer may take any of the rows that look dead.
- Job deletion, identity keys, serialisation, mail, related actions, and jobs performed with their own commits.
- Dates outside the years of the Python library, and a `settlement_type` with other sources of lines.
- `parse_simple_config`, configuration files, HTTP requests, threads, signals and logging.
- PostgreSQL's own locking and notification, which the model takes as given.
- The heap functions are those of the Python standard library; a binary heap is modelled in their place.
