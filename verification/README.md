# A verified model of the VoxCPM runtime

VoxCPM's runtime serves speech requests from worker processes. A scheduler holds a bounded queue and a set of
workers; each worker client talks to a child process over a control pipe and a bounded result queue; the API runtime
runs a dispatcher thread that polls the scheduler and routes messages to futures and to bounded stream queues. This
project models that request path and the smaller algorithms around it in Dafny 4.11, and proves what it promises.
`dafny verify dfyconfig.toml` checks all of it.

## How it is built

* **Objects and their specification.** `WorkerClients`, `Schedulers` and `ApiRuntimes` are classes with the fields the
  program updates in place. Each method's contract equates the new state with a function of the old one
  (`WorkerModel`, `SchedulerSpec`, `StreamSystem`), for every clock reading, every read of a result queue and every
  set of pipes that reject a send at that moment. Everything else is proved about those functions.
* **Scheduler.** `SchedulerInvariants` (what every operation keeps), `SchedulerRuns` (whole runs), `SchedulerLosses` (exactly
  when a request is lost), `SchedulerClosing`; `SchedulerAdmission`, `SchedulerReads` and `SchedulerAnswers` (what each
  operation answers, message by message); `SchedulerOrder` and `SchedulerProgress` (order of service, queue expiry),
  `SchedulerTimeouts` and `SchedulerDeadlines` (how long a request waits and runs, in the readings of the run's operations),
  `SchedulerService` (no idling, draining, stranding), `SchedulerCaps` (what a binding cap breaks) and `SchedulerWork` (a
  measure that only goes down). The state carries a log: ids admitted, queued, dispatched, taken from the queue, all
  messages reported, and ids *dropped*, that is, gone without a report.
* **The whole path.** `StreamSystem` is a transition system of children, links, scheduler, dispatcher, queues and
  consumers. Any enabled step may come next, so its invariants (`StreamInvariant` and the `Stream…` modules after it)
  hold in every interleaving. `StreamPolls` proves that the steps taken under the lock are one `poll`. `ApiRuntimes` holds the
  dispatcher's loops; they take the steps of everybody else as an argument, and `StreamTraces` helps to show that what they
  do is a run. `lost` records the ids of which the runtime itself discarded a message, `abandoned` those of streams given up.
  `StreamAnswers` and `StreamAudio` say what the consumer gets in the end.
* **Beside it.** `WorkerStartup`, `WorkerProcesses` (the child), `SecondEnds`, `Lookahead` (the streaming adapter),
  `ModelMounts` and `ModelTrees` with `NameOrder` (the budgeted search), `Topology` (profiles and the two planners),
  `GpuList` (parser and printer), `Pcm16` (quantisers and bytes).

## What the code does not do

Where a promise fails, the model keeps the code, a lemma gives the run, and another says exactly when the promise holds.

* **A failed send loses a request.** Dispatch pops the queue's head and puts it back only for a state error, but a broken
  pipe raises another error (`voxcpm_runtime/scheduler.py:257-262`, `voxcpm_runtime/worker_client.py:139-141`): the run is
  `FailedSendLosesRequest`; `DispatchRaisesIff`, `VisitLoses` and `PollLosesIff` say exactly when and how many.
  `docs/IPC.md:44` promises `worker_exited` for a dead worker; the request lost this way gets no message.
* **An id-less last error ends a request without naming it** (`voxcpm_runtime/worker_process.py:218-227`): the request is
  lost and its worker counts as READY although its child is gone. The run is `NamelessEndLosesRequest`; the exact count is in
  the same lemmas.
* **`close` reports nothing for running requests**: `CloseDropsActive`. With the two above these are all the ways to lose a
  request: `ConservedIff`.
* **`close` may leave workers running.** A ready worker whose pipe rejects the shutdown command makes `close` raise an error
  that is not a `WorkerError`; later workers are not told to stop, and a second `close` does nothing. The run is
  `CloseLeavesRunning`; `CloseRaisesIff` and `CloseStopsAllIff` say when, and what is left; `EndMeansCompleteAfterAbort` what
  consumers can still rely on. `docs/IPC.md:46` promises that
  shutdown joins or terminates the children.
* **A binding concurrency cap strands and reorders requests**, since cancelling and expiring free a slot without dispatching,
  and `submit` takes a free slot before the queue does. `docs/IPC.md:38` promises a FIFO queue without that condition. On a
  clock that does not run backwards nothing idles exactly when the cap does not bind (`NoIdlingIffUncapped`), and service is
  first in, first out exactly when it does not bind or the queue timeout is zero, which lets no queued request be served
  (`ServiceFifoIff`); the runs are `CapStrandsRequest` and `CapOvertakes`, the single calls `SubmitOvertakesIff`,
  `CancelStrandsIff`, `ExpiryStrandsIff`, `FailureStrandsIff`.
* **A stream sent through `submit` leaves its future behind**, because its `stream_end` resolves nothing:
  `SubmittedStreamIsLeft` is the run, `EndLeavesFutureIff` and `OnlyStreamsAreLeft` say when, `LeftUntilClose` that neither a cancellation nor anything
  else short of `close` removes it.
* **A stream that ended well but whose iterator raises on close gets a second end**, which fails the worker's next request:
  `ScriptIsOkIff`, and the run `SecondEndFailsNext`.
* **When the upstream raises, the chunk held back is lost**: `LosesOneIff`, `RaisingLosesOne`.
* **An empty GPU list prints as nothing, which is read as `auto`**: `GpuRoundTripIff`.
* **Without a profile the API parent has no plan unless GPUs are named**, where the resolver picks them: `ParentFollowsIff`.
* FAILED workers keep a stale active id; the invariants speak of BUSY workers only (`FailedNeverServes`).

Completeness of a stream is claimed for a consumer that sees `stream_end` (`EndMeansComplete`), as draining a stream given up
for backpressure is not atomic with its consumer; `NothingDiscarded` covers every run in which the stream is not cancelled,
given up or stopped.

## Model

| member | source | states |
|---|---|---|
| `StreamTheorems.StreamConservation` | voxcpm_runtime/api_runtime.py:131-203 | In every reachable state of callers, scheduler, children, dispatcher and consumers: for a running request of which nothing was discarded, consumed ++ stream queue ++ dispatcher's batch ++ event list ++ result queue ++ held and not yet produced is the request's whole message sequence |
| `StreamTheorems.EndMeansComplete` | voxcpm_runtime/api_runtime.py:153-203 | A consumer that sees `stream_end` has seen every message of the stream, once and in order, under crashes, expiries, cancellations, backpressure and shutdown |
| `StreamAborts.EndMeansCompleteAfterAbort` | voxcpm_runtime/api_runtime.py:116-129 | The same in every run that goes on after a `close` whose scheduler close raised: tables kept, scheduler closed, its records at odds with its workers |
| `StreamAudio.EndMeansAllAudio` | voxcpm_runtime/worker_process.py:123-141 | End to end: a consumer that sees `stream_end` has read exactly the chunks its backend made, payload by payload, and the work was a stream that opened and ended |
| `StreamAudio.ResultIsItsAudio` | voxcpm_runtime/api_runtime.py:138-149 | End to end for the others: in every reachable state a resolved future names its own request and holds a failure or the audio its backend made for that request |
| `StreamTheorems.ConsumerSeesPrefix` | voxcpm_runtime/api_runtime.py:131-203 | What a consumer has seen of a stream of which nothing was discarded is a part of it from the start, followed by at most one failure |
| `StreamDelivery.NothingDiscarded` | voxcpm_runtime/api_runtime.py:153-203 | Nothing of a stream is discarded in any run in which that stream is not cancelled, not given up for backpressure, and the runtime not stopped, whatever happens to other requests |
| `StreamAnswers.GivenUpIsAnswered` | voxcpm_runtime/api_runtime.py:167-192 | In every reachable state the consumer of a stream that was given up, and is not just being drained, has before or behind it exactly one `stream_backpressure_timeout` error, as the last message of all |
| `StreamAnswers.ConsumerIsAnswered` | voxcpm_runtime/api_runtime.py:153-203 | In every run in which a stream is not cancelled, given up or stopped: once it has left the table its consumer has its end or a failure before or behind it; until then it is queued, running, dropped, or its end is on its way |
| `StreamTheorems.ProtocolOk` | voxcpm_runtime/worker_process.py:117-163 | A READY worker with a live child has an empty pipe, an empty result queue and an idle child; what is upstream of a BUSY one ends the request exactly once, with its last message |
| `StreamTheorems.NoMismatch` | voxcpm_runtime/worker_client.py:153-157 | With children whose scripts are well formed (`ScriptIsOkIff`), `request_id_mismatch` is raised by no visit in any reachable state |
| `StreamTheorems.StepKeepsInv` | voxcpm_runtime/api_runtime.py:85-203 | Each of the 21 steps (child take, yield, put, death and last error; submit, cancel, parts of poll; parts of routing; consume; stop; close) keeps the invariant that says where every message is |
| `StreamBuffers.BufferingIsBounded` | voxcpm_runtime/api_runtime.py:94-105 | Chunks of a running stream that are produced and not consumed never exceed the IPC bound plus the API bound plus two |
| `StreamBuffers.ParentBufferingIsBounded` | voxcpm_runtime/api_runtime.py:94-105 | For every id, running or not, event list, batch and stream queue together hold at most one chunk more than the API bound |
| `StreamTables.TablesAgree` | voxcpm_runtime/api_runtime.py:85-172 | In every reachable state an id in the stream table, and one in the future table whose script has no `stream_end`, is queued, running, ended by an event not yet routed, or dropped by the scheduler; no id is in two of the tables; a live id is in a table unless its stream was given up |
| `StreamLeftovers.LiveInTable` | voxcpm_runtime/api_runtime.py:85-172 | In every run that does not give up the stream of an id, that id is in a table while it is queued or running, whatever messages the runtime discards |
| `StreamLeftovers.AbandonedIff` | voxcpm_runtime/api_runtime.py:167-172 | An id counts as given up exactly when some step of the run gave up its stream for backpressure |
| `StreamLeftovers.EndLeavesFutureIff` | voxcpm_runtime/api_runtime.py:138-149 | Routing the last event of a request with a future leaves the future in the table exactly when that event is a `stream_end` |
| `StreamLeftovers.LeftUntilClose` | voxcpm_runtime/api_runtime.py:85-151 | Such a future stays in the table, never resolved, in every run until the runtime closes, cancellations included |
| `StreamLeftovers.ClosedIsEmpty` | voxcpm_runtime/api_runtime.py:116-129 | In every reachable state with the scheduler closed both tables are empty |
| `StreamLeftovers.OnlyStreamsAreLeft` | voxcpm_runtime/api_runtime.py:85-151 | In every reachable state a future whose request has ended, with nothing left to route, is that of a dropped request or of one whose script ends in `stream_end` |
| `StreamLeftovers.SubmittedStreamIsLeft` | voxcpm_runtime/api_runtime.py:85-92 | A run that leaves a future behind: a stream request sent through `submit` |
| `StreamFutures.FutureLeavesOnce` | voxcpm_runtime/api_runtime.py:85-151 | Over any run a future that was entered and is gone was taken out by exactly one step, which routed an event of its request, cancelled it or closed the runtime; it has a result exactly when that step was the routing |
| `StreamFutures.NeverBackNorResolved` | voxcpm_runtime/api_runtime.py:85-151 | Once out of the table a future never returns to it, nor gets a result after that, in any run |
| `StreamPolls.StepsMakeAPoll` | voxcpm_runtime/api_runtime.py:131-137 | The steps taken under the lock make up exactly one `poll` of the scheduler: same state, same events, same escaping exception |
| `ApiRuntimes.ApiRuntime.Submit` | voxcpm_runtime/api_runtime.py:85-92 | Refused when closed, otherwise the scheduler's answer; the future is entered exactly when the request was accepted |
| `ApiRuntimes.ApiRuntime.SubmitStream` | voxcpm_runtime/api_runtime.py:94-105 | Refuses a request that is not a stream; the queue entered for an accepted one replaces nothing |
| `ApiRuntimes.ApiRuntime.Cancel` | voxcpm_runtime/api_runtime.py:107-114 | The scheduler's answer; both table entries go exactly when it cancelled something |
| `ApiRuntimes.ApiRuntime.CloseScheduler` | voxcpm_runtime/api_runtime.py:116-129 | Second half of `close`: tables are emptied, unless closing the scheduler raises, when they stay as they were |
| `ApiRuntimes.ApiRuntime.RouteStreamEvent` | voxcpm_runtime/api_runtime.py:153-203 | The put loop with its look at the tables, timed put, giving up and draining: with any steps of callers, consumers and children between its sections, what happens is a run of the transition system, the object shows its last state, and on return exactly this event is done with |
| `ApiRuntimes.ApiRuntime.RouteBatch` | voxcpm_runtime/api_runtime.py:138-151 | The same for the loop over a batch: at its end the whole batch is done with, and until then the dispatcher takes a step of its own at every tick |
| `ApiRuntimes.ApiRuntime.DispatchTurn` | voxcpm_runtime/api_runtime.py:131-151 | The same for one turn of the dispatch loop, its poll under the lock included; so every invariant of the transition system holds of the object between any two sections |
| `StreamTraces.PollTrace` | voxcpm_runtime/api_runtime.py:131-137 | A poll under the lock is a run of steps of the transition system that keeps its invariant |
| `SchedulerRuns.RequestsAreConserved` | voxcpm_runtime/scheduler.py:115-232 | After every run of submits, polls, cancels and closes whose commands go through, for every read, clock and broken pipe, each submitted id is exactly once in: queue, busy workers, terminal reports, dropped ids; no other id is in any of them, so none is reported twice |
| `SchedulerClosing.ConservedThroughClose` | voxcpm_runtime/scheduler.py:212-232 | The same after any such run and a last close that may raise |
| `SchedulerLosses.ConservedIff` | voxcpm_runtime/scheduler.py:115-232 | After a run each submitted id is exactly once among queued, running and reported, exactly when no operation met one of the three losing guards: a dispatch that gets to a broken pipe, an end that names no request, a close with a request running |
| `SchedulerLosses.DispatchRaisesIff` | voxcpm_runtime/scheduler.py:245-264 | A dispatch raises exactly when some worker with a broken pipe is READY, fewer READY workers precede it than requests wait, and the cap leaves room for one more than those |
| `SchedulerLosses.VisitLoses` | voxcpm_runtime/scheduler.py:154-179 | A visit raises exactly when it reads an end and the dispatch after it gets to a broken pipe; it drops one request for that and one for an end that names none |
| `SchedulerLosses.PollLosesIff` | voxcpm_runtime/scheduler.py:154-179 | A poll raises, and drops requests, exactly when its loop runs and some visit does; it drops as many as its visits together; ends may be named or not |
| `SchedulerLosses.UnbrokenNeverRaises` | voxcpm_runtime/scheduler.py:154-179 | While pipes work no poll raises, whatever ends name |
| `SchedulerReads.PollReports` | voxcpm_runtime/scheduler.py:154-179 | A poll that gets to its workers and does not raise reports of a request that was running exactly this, once: nothing while the child is alive and silent, `worker_exited` when it died, a transport failure for an unreadable queue, an invalid message for a foreign object, a mismatch for another request's message, else the message itself |
| `SchedulerAdmission.SubmitAnswersIff` | voxcpm_runtime/scheduler.py:115-152 | Each answer of `submit` with its exact condition on the state: closed, id seen, room with a broken first pipe, room, full queue, no worker left, queued |
| `SchedulerAdmission.CapacityIsExact` | voxcpm_runtime/scheduler.py:115-152 | A fresh scheduler that gets requests with different ids while pipes work dispatches the first min(workers, cap), queues as many more as the queue holds, and refuses each one after with `queue_full` |
| `SchedulerAnswers.SendFailureIs` | voxcpm_runtime/scheduler.py:130-135 | A direct dispatch whose send fails leaves that worker FAILED and everything else as it was |
| `SchedulerAnswers.CancelAnswersIff` | voxcpm_runtime/scheduler.py:181-210 | Each answer of `cancel` with its exact condition: a waiting request is withdrawn (stage pending), a running one stops its worker (stage active) and fails the queue exactly if no worker is left, anything else is not found |
| `SchedulerAnswers.LastWorkerFails` | voxcpm_runtime/scheduler.py:337-353 | A poll in which no request ends keeps the whole queue, unless it leaves every worker failed or stopped: then its events end with one `no_healthy_worker` failure for each waiting request, in order |
| `SchedulerAnswers.CloseAnswers` | voxcpm_runtime/scheduler.py:212-225 | `close`, raising or not, adds one cancellation at shutdown for each waiting request, in order, and nothing else |
| `SchedulerLosses.FaultFreeConservation` | voxcpm_runtime/scheduler.py:115-210 | In particular, while sends succeed, ends name their request and the scheduler is open, each submitted id is exactly once among queued, running and reported |
| `SchedulerRuns.FailedSendLosesRequest` | voxcpm_runtime/scheduler.py:245-264 | A run in which a failed send to a ready worker leaves the queued request it was for in no collection |
| `SchedulerLosses.NamelessEndLosesRequest` | voxcpm_runtime/worker_process.py:218-227 | A run, with every pipe working, in which a child's id-less last word leaves its request in no collection and the worker READY |
| `SchedulerClosing.CloseDropsActive` | voxcpm_runtime/scheduler.py:212-232 | `close` reports exactly the queued requests and drops exactly the running ones |
| `SchedulerClosing.CloseStopsAllIff` | voxcpm_runtime/scheduler.py:226-232 | When no ready worker's pipe rejects the shutdown command every worker ends up STOPPED; when the first that does is `k`, the workers after `k` are left as they were, stale entries stay in the active map, and closing again does nothing |
| `SchedulerClosing.CloseRaisesIff` | voxcpm_runtime/scheduler.py:212-232 | `close` raises exactly when some worker's pipe rejects the shutdown command |
| `SchedulerClosing.CloseLeavesRunning` | voxcpm_runtime/scheduler.py:226-232 | A run and a close that raises and leaves the second worker running its request |
| `SchedulerInvariants.SubmitKeeps` | voxcpm_runtime/scheduler.py:115-152 | Admission keeps the scheduler's invariant: active map keys are exactly the BUSY workers, with their ids, and every id is accounted for |
| `SchedulerInvariants.PollKeeps` | voxcpm_runtime/scheduler.py:154-179 | So does poll, for every read, clock reading and broken pipe, also when it raises |
| `SchedulerInvariants.CancelKeeps` | voxcpm_runtime/scheduler.py:181-210 | So does cancel |
| `SchedulerInvariants.CloseKeeps` | voxcpm_runtime/scheduler.py:212-232 | So does a close whose shutdown commands go through, after which all workers are STOPPED |
| `SchedulerWork.StepSpends` | voxcpm_runtime/scheduler.py:154-232 | No step but an admission raises 2*queued + running, and every request that leaves, in whatever way, lowers it by at least one |
| `SchedulerWork.RunSpends` | voxcpm_runtime/scheduler.py:154-232 | In a run without admissions at most 2*queued + running requests leave |
| `SchedulerService.ServiceIsFifo` | voxcpm_runtime/scheduler.py:125-152 | Without a binding concurrency cap the dispatched ids are a subsequence of the admitted ids in every run, direct dispatches included |
| `SchedulerCaps.ServiceFifoIff` | voxcpm_runtime/scheduler.py:125-152 | For every scheduler the constructor makes: dispatch is in order of admission in all runs on a forward clock exactly when the cap does not bind or the queue timeout is zero |
| `SchedulerCaps.ZeroTimeoutFifo` | voxcpm_runtime/scheduler.py:317-335 | With a zero queue timeout, under every cap and on a forward clock, dispatch is in order of admission, as every poll retires the whole queue before it can dispatch |
| `SchedulerCaps.CapOvertakes` | voxcpm_runtime/scheduler.py:125-152 | For every scheduler with a binding cap and no zero queue timeout, a run on a forward clock in which a later request is dispatched before an earlier one |
| `SchedulerOrder.QueueIsFifo` | voxcpm_runtime/scheduler.py:245-264 | With any cap and any fault, requests that waited are dispatched in the order in which they were queued |
| `SchedulerOrder.SubmitOvertakesIff` | voxcpm_runtime/scheduler.py:125-137 | `submit` breaks the service order exactly when the scheduler is open, the id fresh, requests wait, the cap leaves room and the first READY worker's pipe works |
| `SchedulerOrder.QueueExpiryIsExact` | voxcpm_runtime/scheduler.py:317-335 | After every run on a forward clock, and at any later reading, popping overdue heads removes exactly the overdue requests, in order, one `queue_timeout` event each |
| `SchedulerOrder.PollExpiresExactly` | voxcpm_runtime/scheduler.py:154-164 | So a poll retires exactly the overdue requests before it reads from a worker, and if there are any returns their events at once; unless expiry left no healthy worker, which fails the whole queue |
| `SchedulerTimeouts.WaitIsBounded` | voxcpm_runtime/scheduler.py:317-335 | After any run on a forward clock and a poll at `now`, every queued request was submitted at a reading later than `now` minus the queue timeout |
| `SchedulerDeadlines.OverdueIsReported` | voxcpm_runtime/scheduler.py:317-335 | A poll at a reading that is the queue timeout, or more, after the submission of a queued request reports it once: as timed out, or as without a worker if expiring the running ones left none |
| `SchedulerTimeouts.QueueTimeoutsAreDue` | voxcpm_runtime/scheduler.py:317-335 | No `queue_timeout` comes early: at the reading that retired it (the poll's, or that of the visit that made the report) the request had been submitted the queue timeout before |
| `SchedulerTimeouts.ServedInTime` | voxcpm_runtime/scheduler.py:245-264 | What a poll takes from the queue and dispatches had, at the reading of that visit, been submitted less than the queue timeout before |
| `SchedulerTimeouts.RunningIsBounded` | voxcpm_runtime/scheduler.py:266-294 | After any run and a poll at `now`, every running request was dispatched (by an operation or visit at a reading) later than `now` minus the inference timeout |
| `SchedulerDeadlines.LateIsReported` | voxcpm_runtime/scheduler.py:266-294 | A poll at a reading that is the inference timeout, or more, after the dispatch of a running request reports it once, as timed out |
| `SchedulerTimeouts.InferenceTimeoutsAreDue` | voxcpm_runtime/scheduler.py:266-294 | No `inference_timeout` comes early: at the poll's reading the request had been dispatched the inference timeout before |
| `SchedulerService.NeverIdle` | voxcpm_runtime/scheduler.py:154-210 | Without a binding cap no queued request ever waits beside a READY worker, and in runs in which no poll raises (exactly when: `PollLosesIff`) some worker is BUSY whenever a request waits |
| `SchedulerCaps.NoIdlingIffUncapped` | voxcpm_runtime/scheduler.py:154-210 | For every scheduler: nothing idles in any run on a forward clock exactly when the cap does not bind |
| `SchedulerService.UnbrokenRunNeverRaises` | voxcpm_runtime/scheduler.py:154-179 | In a run in which every pipe works no poll raises |
| `SchedulerService.Drains` | voxcpm_runtime/scheduler.py:154-179 | Without admissions and without a binding cap, one poll for each queued request and one more, each with nothing expired, no pipe broken and every busy worker ending its request or failing, empty the scheduler, whatever happens between them |
| `SchedulerService.CancelStrandsIff` | voxcpm_runtime/scheduler.py:196-206 | Cancelling the request of a worker strands the queue exactly when it was the only running one, a request waits and another worker is READY |
| `SchedulerService.ExpiryStrandsIff` | voxcpm_runtime/scheduler.py:266-294 | Expiring running requests strands the queue exactly when a request waits, every running one is overdue and another worker is READY |
| `SchedulerService.FailureStrandsIff` | voxcpm_runtime/scheduler.py:296-315 | A worker failure strands the queue exactly when the failed worker ran the only request, another waits and another worker is READY |
| `SchedulerService.StrandedForever` | voxcpm_runtime/scheduler.py:154-179 | A stranded queue without queue timeout stays as it is under any number of polls |
| `SchedulerService.CapStrandsRequest` | voxcpm_runtime/scheduler.py:125-133 | A run with a binding cap that leaves a request waiting beside a READY worker for good |
| `SchedulerService.SnapshotCounts` | voxcpm_runtime/scheduler.py:102-113 | After every run the BUSY workers are as many as the active entries, and the four counts sum to the number of workers |
| `SchedulerService.ActiveIdsDistinct` | voxcpm_runtime/scheduler.py:130-135 | No two workers run the same request |
| `Schedulers.Scheduler.Submit` | voxcpm_runtime/scheduler.py:115-152 | New state and outcome are those of the specification, for every clock reading and broken pipe; the invariant holds again |
| `Schedulers.Scheduler.Poll` | voxcpm_runtime/scheduler.py:154-179 | The same for poll, with its loop over the workers and its early return |
| `Schedulers.Scheduler.Cancel` | voxcpm_runtime/scheduler.py:181-210 | The same for cancel, queued and running |
| `Schedulers.Scheduler.Close` | voxcpm_runtime/scheduler.py:212-232 | The same for close, including the exception that escapes its loop |
| `Schedulers.Scheduler.Snapshot` | voxcpm_runtime/scheduler.py:102-113 | The counts are those of the workers' states; they sum to the number of workers, and busy equals the active entries |
| `Schedulers.Scheduler.DispatchPendingRequests` | voxcpm_runtime/scheduler.py:245-264 | The dispatch loop does what its specification says, losing the popped head when the send fails |
| `Schedulers.Scheduler.ExpireActiveWorkers` | voxcpm_runtime/scheduler.py:266-294 | Every overdue running request is terminated and reported, in worker order |
| `Schedulers.Scheduler.ExpirePendingRequests` | voxcpm_runtime/scheduler.py:317-335 | The loop pops overdue heads as specified |
| `Schedulers.Scheduler.FailPendingIfNoneHealthy` | voxcpm_runtime/scheduler.py:337-353 | All queued requests fail exactly when no worker is healthy |
| `WorkerClients.WorkerClient.Start` | voxcpm_runtime/worker_client.py:91-124 | Succeeds exactly for a CREATED worker whose first message is its ready notice; otherwise the worker is left STARTING or FAILED as in the code |
| `WorkerClients.WorkerClient.Submit` | voxcpm_runtime/worker_client.py:126-143 | Only a READY worker takes a request; a broken pipe marks it FAILED |
| `WorkerClients.WorkerClient.Receive` | voxcpm_runtime/worker_client.py:145-161 | State, active id and outcome for every kind of read |
| `WorkerClients.WorkerClient.CancelActive` | voxcpm_runtime/worker_client.py:211-219 | Only a BUSY worker is stopped, its process and channel gone, its id returned |
| `WorkerClients.WorkerClient.Shutdown` | voxcpm_runtime/worker_client.py:221-258 | From every state the worker ends up STOPPED; it raises exactly when an up worker's pipe rejects the command or its process could never be spawned, and otherwise leaves no process |
| `WorkerStartup.StartAll` | voxcpm_runtime/worker_factory.py:107-127 | Every worker ends up READY, or every worker STOPPED, from whatever states; the former exactly when they are distinct, CREATED and each sends its ready notice |
| `WorkerStartup.StoppedForever` | voxcpm_runtime/worker_client.py:91-258 | No sequence of calls changes a STOPPED worker |
| `WorkerStartup.FailedNeverServes` | voxcpm_runtime/worker_client.py:91-258 | A FAILED worker can only become STOPPED, in any sequence of calls, and keeps its stale active id |
| `WorkerProcesses.ResultQueue.Run` | voxcpm_runtime/worker_process.py:166-242 | The whole process puts exactly the messages of its specification, cut where the transport breaks; for each request it gets to, the payloads of the chunks naming it are the stream's chunks in order, those of results the audio of its outcome: a start of them, and all of them if the transport holds |
| `WorkerProcesses.ResultQueue.Handle` | voxcpm_runtime/worker_process.py:190-215 | One request with its handlers puts its script; the process goes on exactly if all of it went through |
| `WorkerProcesses.ResultQueue.ExecuteRequest` | voxcpm_runtime/worker_process.py:117-163 | Chunks, then the end, then whatever closing the iterator raises |
| `WorkerProcesses.ScriptIsOkIff` | voxcpm_runtime/worker_process.py:123-149 | A request's messages are some chunks and one end, all naming it, exactly when closing a stream that ended does not raise |
| `SecondEnds.SecondEndFailsNext` | voxcpm_runtime/worker_process.py:145-148 | A run: when closing an ended stream raises, reading what the child makes of it ends with the worker FAILED and its next request failed with `request_id_mismatch` |
| `WorkerProcesses.TraceScript` | voxcpm_runtime/worker_process.py:178-215 | Among all messages of a process those naming a request are its script, whatever was served before and after |
| `WorkerProcesses.ReadsNoFurther` | voxcpm_runtime/worker_process.py:190-233 | A shutdown command, or anything that is no request, is the last thing the process reads |
| `WorkerProcesses.NamelessFirstOrLast` | voxcpm_runtime/worker_process.py:216-233 | A message that names no request is the ready notice, which comes first, or the process's last word |
| `Lookahead.Play` | voxcpm_runtime/pytorch_backend.py:656-731 | For every upstream (ending, raising, failing to open or to close), every conversion failure and every early stop: chunks are the first items converted, numbered from 0, final exactly on the last item of an upstream that ended; at most one item more is read than was asked for; the upstream is closed again |
| `Lookahead.Adapter.Next` | voxcpm_runtime/pytorch_backend.py:664-731 | Each resumption yields the next chunk, ends, or raises, exactly as the upstream determines, having read at most one item ahead |
| `Lookahead.Adapter.Close` | voxcpm_runtime/pytorch_backend.py:719-731 | Stopping early closes the upstream if it was opened, and raises exactly when that does; an unstarted stream opens nothing |
| `Lookahead.LosesOneIff` | voxcpm_runtime/pytorch_backend.py:687-716 | Fewer chunks come out than there are items before the first that does not convert exactly when the upstream raises after one or more items that all convert, and then it is one fewer (items after the first that does not convert are not counted: the one of them that was read ahead is not sent either) |
| `Lookahead.RaisingLosesOne` | voxcpm_runtime/pytorch_backend.py:687-716 | When the upstream raises after `n` good items only `n - 1` chunks come out, none of them final |
| `Lookahead.WaveformToSamples` | voxcpm_runtime/pytorch_backend.py:295-350 | The loop converts as its specification says |
| `Lookahead.ReadIff` | voxcpm_runtime/pytorch_backend.py:328-350 | A list converts exactly when it is finite numbers throughout, element by element; the first other element decides the error |
| `Lookahead.ConvertIff` | voxcpm_runtime/pytorch_backend.py:295-350 | A waveform converts exactly when it is a non-empty list of finite numbers, and then to those |
| `ModelMounts.DiscoverModels` | deploy/kaggle/model_mounts.py:62-87 | The search with its shared lists answers as its specification says, errors included |
| `ModelMounts.Search.VisitDirectory` | deploy/kaggle/model_mounts.py:89-131 | One recursive visit, its scan and its sorted children |
| `ModelMounts.BudgetIsExact` | deploy/kaggle/model_mounts.py:62-138 | On a readable tree the budget error occurs exactly when the cost (one per visited directory and per scanned entry, to the depth limit) exceeds the budget; otherwise the answer is the models, or the first faulty one if there are none |
| `ModelTrees.SearchIsExact` | deploy/kaggle/model_mounts.py:62-131 | Within budget the answer is exactly the model directories within depth, each once and in path order |
| `ModelTrees.AnswersAreComplete` | deploy/kaggle/model_mounts.py:89-138 | An answer means that everything within depth was inspected and read within the budget; an error about a place that cannot be inspected or read names such a place within depth |
| `ModelTrees.CollectedIff` | deploy/kaggle/model_mounts.py:89-131 | A directory is collected exactly when it is a model directory within depth |
| `ModelTrees.ScanOrderIsIrrelevant` | deploy/kaggle/model_mounts.py:105-131 | The answer, budget error included, does not depend on the order in which scans return entries |
| `NameOrder.SortUnique` | deploy/kaggle/model_mounts.py:124-124 | Sorting by distinct keys gives one result for all orders of the same elements |
| `NameOrder.BeforeIff` | deploy/kaggle/model_mounts.py:124-124 | The order is by code points: the string comes first that is smaller where they first differ, or ends there |
| `Topology.PlannersAgree` | voxcpm_runtime/worker_factory.py:14-67 | Given the same visible GPUs, the parent's planner and the resolver return the same plan whenever both return one |
| `Topology.ResolvesToCudaIff` | voxcpm_runtime/device.py:505-579 | For every configuration and inventory: the resolver plans for CUDA exactly when the device is not the CPU, CUDA is usable, and the wanted GPUs are visible and suit the profile; and then which GPUs and how many workers |
| `Topology.ResolvesToCpuIff` | voxcpm_runtime/device.py:505-579 | It plans for the CPU exactly when no GPUs are named, at most one worker is asked for, and profile and device allow for it |
| `Topology.ParentPlansCudaIff` | voxcpm_runtime/worker_factory.py:14-67 | The same for the parent's planner, which asks for named GPUs or a profile and not whether CUDA is usable |
| `Topology.ParentPlansCpuIff` | voxcpm_runtime/worker_factory.py:14-67 | The same for the parent's CPU plan |
| `Topology.ResolverFollowsIff` | voxcpm_runtime/device.py:505-579 | When the parent has a plan the resolver has one exactly when it is the CPU plan, or CUDA is usable and the selected GPUs are visible |
| `Topology.ParentFollowsIff` | voxcpm_runtime/worker_factory.py:43-67 | When the resolver has a plan the parent has one exactly when the materialised configuration asks for the CPU or names its GPUs |
| `Topology.PlansAreSound` | voxcpm_runtime/device.py:176-209 | Plans of either planner are one CPU worker, or one worker on each of the first so many distinct selected GPUs; the resolver never asks for a plan the constructor refuses |
| `Topology.CudaIsNeverCpu` | voxcpm_runtime/device.py:505-561 | A configuration that asks for CUDA yields a CPU plan from neither planner |
| `Topology.MaterializeOnce` | voxcpm_runtime/profiles.py:79-160 | Materialising keeps a configuration valid and, done again with whatever GPUs are then found, changes nothing |
| `Topology.InventoriesAreValid` | voxcpm_runtime/device.py:110-136 | An inventory lists each GPU once, and lists one exactly when it counts one |
| `Topology.WorkersHaveOwnGpus` | voxcpm_runtime/worker_factory.py:70-104 | As many workers are built as planned; on CUDA worker `k` has the `k`-th selected GPU to itself |
| `GpuList.ParseGpuDevices` | voxcpm_runtime/config.py:235-262 | Automatic selection is recognised; otherwise indices come back exactly when the members are a non-empty list of distinct naturals, and are those |
| `GpuList.GpuRoundTripIff` | voxcpm_runtime/config.py:620-623 | Parsing a printed list gives it back exactly when it is automatic, or non-empty and without repetition; an empty one is read as automatic |
| `GpuList.IndexTextIff` | voxcpm_runtime/config.py:235-262 | A member of a list is read as the index `n` exactly when it is the decimal form of `n`, after any zeros and within any white space |
| `GpuList.ReadsOnce` | voxcpm_runtime/config.py:235-262 | A text is read as at most one list |
| `GpuList.GpuNormalForm` | voxcpm_runtime/config.py:235-262 | Printing what was read from any text and reading it again gives the same |
| `GpuList.WorkersRoundTripIff` | voxcpm_runtime/config.py:281-298 | Parsing a printed worker count gives it back exactly when it is automatic or positive |
| `GpuList.WorkersTextIff` | voxcpm_runtime/config.py:281-298 | A text is read as the positive count `n` exactly when it is the decimal form of `n`, after any zeros and within any white space |
| `Pcm16.QuantizeIsAccurate` | voxcpm_runtime/wav_io.py:121-131 | Quantised values lie in [-32767, 32767], at most half a step from the clipped sample, monotone in it |
| `Pcm16.QuantizeTiesToEven` | voxcpm_runtime/wav_io.py:121-131 | A sample just between two steps goes to the even one |
| `Pcm16.QuantizeUndoes` | voxcpm_runtime/wav_io.py:121-131 | q/32767 is quantised to q |
| `Pcm16.ClipAndQuantize` | voxcpm_runtime/wav_io.py:111-134 | Fails exactly on a non-finite sample; otherwise gives the bytes the API gives, little end first on either kind of host |
| `Pcm16.Pcm16Bytes` | voxcpm_runtime/api_app.py:46-57 | The loop gives the bytes of its specification, infinities at the ends and NaN at the lower end |
| `Pcm16.SpecialsAtTheEnds` | voxcpm_runtime/api_app.py:46-57 | Infinities give the two ends of what finite samples give, NaN the lower one |
| `Pcm16.DecodeEncode` | voxcpm_runtime/api_app.py:46-57 | Decoding the bytes gives every sixteen-bit word back |
| `Pcm16.BytesRoundTrip` | voxcpm_runtime/api_app.py:46-57 | Multiples of the step survive quantising, encoding and decoding |
| `Pcm16.FakeChunks` | voxcpm_runtime/fake_backend.py:273-283 | The chunks are the result cut up: full but for the last, none empty, numbered from 0, only the last final; for every chunk size the streamed bytes are the one-shot bytes |

## Left out

- Worker and request ids are numbers: workers are named by their position in the sorted tuple, and sorting them by name is not modelled; request ids are compared for equality only, and the check of their form is left out.
- Argument checks of constructors that raise `ValueError` are preconditions: positive limits, non-negative timeouts, a non-empty tuple of distinct READY workers for the scheduler.
- One clock reading stands for those within one visit of the poll loop, and one for those before its worker loop; times are real numbers.
- `WorkerClient.execute` and `WorkerClient.stream`: one-request conveniences that the scheduler does not use.
- Real processes, signals, pickling: the pipe and the result queue are sequences, a put or a take is one step, and terminating a process empties its channel in one step.
- Backends in the transition system are arbitrary scripts of the shape that `ScriptIsOkIff` characterises; the two-ended script of a stream whose close raises is not run there.
- Runs that go on after a `close` that raised: `CloseStopsAllIff`, `ConservedThroughClose` and `EndMeansCompleteAfterAbort` say what holds then; the scheduler's invariant does not. `CloseOp` and the closing step of the transition system are closes whose commands go through.
- ApiRuntimes.ApiRuntime.RouteStreamEvent: a put of the backpressure error that finds the queue full again, which only a second producer could cause, is not modelled; looking an event up in the stream table and, if it is not there, in the future table is one step.
- ApiRuntimes.ApiRuntime.DispatchTurn: takes the reads of its poll as they come at the poll; the children's moves during a poll are steps of the transition system, but not of this method. How many turns it gets is an argument, so it need not end.
- Futures are members of a table and a map of results; `Future.cancel` and waiting threads are not modelled.
- StreamTables.TablesAgree: for futures it speaks of one-shot requests; what becomes of the future of a stream sent through `submit` is in `StreamLeftovers`.
- StreamTheorems.ConsumerSeesPrefix: speaks of streams of which nothing was discarded; for the others `EndMeansComplete` still excludes a `stream_end` after a gap.
- The WAV container, hashing and atomic replacement of files; the rounding of floating-point products (Pcm16 is over real numbers).
- Waveform objects other than lists are classes of outcome (missing, of several dimensions, unreadable); sample rate and metadata of chunks are left out.
- Model manifests: a directory holds no model, a model, a faulty one, or an unreadable configuration; JSON parsing, hashes and revisions are not modelled. Entries are of three kinds; symbolic links count as plain files, as in the code.
- ModelTrees.SearchIsExact: asks for file names without `/`, distinct within a directory, as file systems give them.
- GPU indices with more digits than Python converts by default raise another error in the code.
- Numbers and other values given for the GPU list at the top level are read through their text form.
- Hardware probing, `/proc`, metrics, redaction, model resolution, HTTP handlers, authentication, scripts and notebooks: input and output only, or members that would be easy.
