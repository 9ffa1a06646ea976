# AlterShield operator: a verified model of the change-defence protocol

The operator watches the pods of a Deployment that rolls out a new version. Pods that have come up
are collected into batches (ChangePods); each batch is announced to a control side, which answers by
HTTP callbacks with a verdict; the verdicts are summed up in the version's ChangeWorkload, which ends
in Success or in Suspend, and a suspended Deployment is frozen by a webhook. Several workers act on
the same objects through list-then-create, resourceVersion-checked updates and unchecked merge
patches. This project models that protocol as a transition system whose steps are single API calls,
and proves what every run keeps.

Check it with `dafny verify dfyconfig.toml` (Dafny 4.11).

## Modules

- `Names`: queue keys, combined object names, the batch threshold with Go's integer arithmetic.
- `PodSummaries`: duplicate removal and list comparison, as loops and as specifications.
- `Protocol`: the transition system. A handler reads (ChangePods from any past state of the store,
  pods as they are), plans one write, and the write waits in a multiset of writes in flight until the
  API server executes it or loses it. Crashes are lost writes.
- `Safety`, `Batches`, `Lifecycle`, `Timeouts`, `Arithmetic`: invariants and theorems over all runs.
  `Inv` is the invariant; `ReachableInv` proves it of every reachable state.
- `InitTurns`, `Replies`, `Deliveries`: what one turn of the init handler, an answer of the control side and a
  callback make of the stored objects, field by field, and what that means along runs.
- `Verdicts`: aggregation of verdicts, as loops over a mutable ChangeWorkload and as a function.
- `Workers`: one worker for every ChangePod key makes every delete careful, in the protocol and in the queue
  system.
- `Atomic`: handlers that run without interleaving, proved to be runs of the protocol.
- `Scheduling`, `Wakeups`, `Termination`, `Reports`: the work queue of the workload reconciler and its watch
  events on top of the interleaved protocol; no lost wake-up, quiescence, a bound on all changes, no forgotten
  verdict. A turn of the workload reconciler is one action here.
- `Concurrency`, `ConcurrentWakeups`, `ConcurrentTermination`: the same queue with several workers whose turns
  are split into single API calls, each of which may fail; no lost wake-up, quiescence and the bound on changes
  hold there too. `AtomicTurns`: every run with atomic turns is one of these runs.
- `ReconcilerQueue`: the work queue of the ChangePod reconciler. `ReconcilerTurns`: the same with a lagging
  cache and turns split into single API calls.
- `ApiServer`, `ChangePodHandlers`, `WorkloadHandlers`, `CallbackAndTimeout`: the handlers in the form
  of the source, with objects changed in place, slices shared by reference, loops of API calls any of
  which may fail; each proved against the functions of the protocol.
- `Admission`, `LabelMaps`, `Rollout`, `Rollback`: the webhooks, label patches, suspension, rollback, and
  the workload of every version.
- `Counterexamples`: runs that show where the code does less than it seems meant to do.

## Assumptions

- Pod lists are current; ChangePod lists and reads may be any past snapshot. In the queue systems the workload
  reconciler reads what is current at the time of each call; `Scheduling` runs one of its turns at a time,
  `Concurrency` interleaves all of them. `ReconcilerTurns` reads ChangePods from a lagging cache.
- Pod names are not reused, and nobody but the operator deletes ChangePods.
- The version label identifies one Deployment's rollout in its namespace, so the model follows one
  Deployment and one ChangeWorkload.
- Only the operator sets the defence label of a pod, and it only sets it to "processed"; so testing
  for the label's presence and for its value is the same test.
- The hash of a template is an arbitrary function of the template without its version label.

## Where the code falls short of its intent

- A delete of a ChangePod is by name, without a version check. The theorems over runs assume careful
  deletes, that is, none that hits a ChangePod which has its batch. `SerialRunIsCareful` derives this from one
  worker for every ChangePod key whose init turns read the present ChangePod, with everything else
  interleaved; `StaleDeleteOrphansAPod` shows that a delete on a stale read loses a labelled pod.
  `DeleteOrphansExactly` and `DeleteBreaksNumberingExactly` say exactly which pods a delete orphans and when it
  breaks the numbering; `CarefulDeleteExactly` says that carefulness is what the whole invariant needs.
- A ChangePod whose batch is recorded leaves ExecuteInit only if the turn that recorded it labels all pods and
  writes the status. If that turn crashes, a call fails, or a pod of the batch is deleted before it is
  labelled, the ChangePod stays in ExecuteInit for good: later turns re-label the pods but do not move it on,
  and no batch is ever created again. `RecordedBatchLeavesExactly` gives the exact condition,
  `CrashInterruptsForGood` and `PodDeletionInterruptsForGood` the runs.
- `Percent` can return 0 (`ThresholdRange` says exactly when). Then no pod is ever defended, ChangePods are
  created without end, and wake-ups are lost (`ZeroThresholdDefendsNothing`, `ZeroThresholdNeverRests`,
  `ZeroThresholdLosesWakeup`). With a threshold of at least one, once the pods rest, the number of changes is
  bounded (`BoundedChanges`, `BoundedChangesConcurrently`).
- A callback patches what it read, however old. It can reopen a finished ChangePod
  (`StaleCallbackReopens`); `StaleCallbackExactly` says in which stored phases a patch moves its ChangePod
  backwards.
- An init turn that decides to delete its ChangePod while a pod finishes loses the wake-up for that pod
  (`DeleteRaceLosesWakeup`). `DeleteLosesExactly` and `DeleteRaceExactly` say exactly when; listing the pods again
  right before the delete is enough (`RelistedDeleteIsTimely`).
- The guard that counts the waiting pods takes a failed listing for "too few pods" and reports no error, so its
  request is not queued again and a due batch can be left behind (`MissedListingLosesWakeup`);
  `MissedListingLosesExactly` says exactly when.
- The deletion of a judged pod and a stale callback on a finished ChangePod outdate the stored pass and fail
  lists without any event that would have them synced. `RemovalForgetsExactly` and `ReopeningForgetsExactly` say
  exactly when the change is forgotten; nothing else forgets a verdict (`NoForgottenVerdict`).
- Requests for pods that finished before the workload existed are dropped. A workload that starts with such
  a pod may stay in Init; `StartExactly` gives the exact condition.
- `DefensePreparingPods` guards the sweep of Running workloads but is never written, so TimeOutPreThreshold is
  unreachable.
- Reconciling a Deployment is not atomic: the processed label can land on a version that has no
  ChangeWorkload. `ReconcileRace` is the run, one user update between the read and the patch, and
  `StaleMarkExactly` says which patches do this.
- The rollback goroutine ends for good at the first healthy Deployment it meets (`RolledBackExactly`).
- A Deployment suspended while it still carries the ignored-suspend label is not frozen
  (`LeftoverIgnoreDefeatsSuspension`). Lifting a suspension and suspending again leads there
  (`SuspendedAgainKeepsIgnore`).

## Model

| member | source | states |
|---|---|---|
| Batches.NumberingTheorem | controllers/changeworkload_controller.go:264-329 | in every reachable state the ChangePod numbers are exactly 1..n and only number n may be in ExecuteInit, however many handlers decide on however old lists |
| Safety.CreateIsCompareAndSwap | controllers/changeworkload_controller.go:291-329 | a Create decided on an old list succeeds if and only if nothing was created since, and then no ChangePod is in ExecuteInit |
| Batches.ExclusivityTheorem | controllers/changepod_controller.go:173-221 | through crashes: no pod is recorded twice, live pods of a ChangePod past ExecuteInit carry the label, every labelled live pod is recorded |
| Batches.RecordsArePermanent | controllers/changepod_controller.go:173-207 | once a batch is recorded it never changes and its ChangePod is never deleted |
| Batches.PastIsSeen | controllers/changepod_controller.go:66-94 | whatever was read at any time stays consistent with the store: version, record, phase level |
| Batches.InterruptedInitBlocksForever | controllers/changepod_controller.go:178-181 | a recorded ChangePod in ExecuteInit without a write in flight that can finish its turn stays as it is, and no other ChangePod is ever created |
| Batches.RecordedBatchLeavesExactly | controllers/changepod_controller.go:200-221 | a recorded ChangePod in ExecuteInit can ever leave it if and only if its status write is in flight, or its labelling with every pod left to label still there |
| Safety.InitialInv | controllers/changepod_controller.go:173-221 | the initial state satisfies the invariant |
| Safety.StepKeepsInv | controllers/changepod_controller.go:173-221 | every single API call, read, loss and pod event keeps the invariant of store and writes in flight |
| Safety.RunKeepsInv | controllers/changepod_controller.go:173-221 | the invariant holds in every state of every careful run |
| Safety.CreateStep | controllers/resource/changepod_factory.go:23-35 | executing a Create keeps the invariant |
| Safety.SpecStep | controllers/changepod_controller.go:200-207 | executing the checked spec update keeps the invariant, batch exclusivity included |
| Safety.LabelStep | controllers/changepod_controller.go:326-341 | one label patch, or giving up on a vanished pod, keeps the invariant |
| Safety.StatusStep | controllers/changepod_controller.go:297-306 | a checked status update keeps the invariant |
| Safety.PatchStep | controllers/callback/nodecallbak_handle.go:51-58 | an unchecked status patch keeps the invariant |
| Safety.DeleteStep | controllers/changepod_controller.go:345-363 | a careful delete keeps the invariant |
| Safety.BatchProperties | controllers/changepod_controller.go:184-201 | a new batch names distinct finished undefended live pods, at most CountThreshold of them |
| InitTurns.RecoveryTurn | controllers/changepod_controller.go:178-181 | a turn on a recorded batch labels the recorded pods in order, up to the first that is gone or needs a write when none is left, and changes nothing else |
| InitTurns.RecoveryCompletesExactly | controllers/changepod_controller.go:309-322 | after such a turn all recorded pods are labelled if and only if all are there and as many writes succeed as labels were missing |
| InitTurns.RecoveryRun | controllers/changepod_controller.go:309-322 | in the protocol, whatever else is in flight: the label writes of such a turn can run to their end, and then exactly the recorded pods before the first that is gone have got their label |
| InitTurns.RecoveryReachesAll | controllers/changepod_controller.go:309-322 | along every interleaved run in which none of these label writes is lost and no recorded pod deleted, all recorded pods are labelled as soon as no label write for the ChangePod is in flight |
| InitTurns.RecordingTurn | controllers/changepod_controller.go:183-221 | a turn without a batch records as many undefended pods as the threshold allows, in listing order and as they are, labels them one by one, and moves on only after the last; stated after any failing call |
| InitTurns.EmptyTurnDeletes | controllers/changepod_controller.go:345-363 | without undefended pods the turn deletes its ChangePod and nothing else |
| Safety.CarefulDeleteExactly | controllers/changepod_controller.go:345-363 | a delete keeps the invariant, which includes that recorded batches are permanent, if and only if it does not hit a ChangePod with a batch or past ExecuteInit |
| Safety.DeleteBreaksNumberingExactly | controllers/changepod_controller.go:354-361 | a delete breaks the numbering if and only if it hits a number below the highest, and then the next count-derived name is taken |
| Workers.StepKeepsSerial | controllers/changepod_controller.go:173-221 | with one worker for every key and current init reads, at most one init write for every ChangePod is in flight and planned deletes still fit, under full interleaving |
| Workers.SerialRunIsCareful | controllers/changepod_controller.go:345-363 | with one worker for every key and current init reads every delete is careful, however all API calls interleave |
| Workers.SerialSystemRunIsCareful | controllers/changepod_controller.go:345-363 | the same in the queue system: with one worker for every key every run is one whose deletes are careful |
| Workers.SerialIsReachable | controllers/changepod_controller.go:345-363 | hence what such an operator reaches is reachable in the sense of the theorems |
| Safety.DeleteOfReadVersion | controllers/changepod_controller.go:354-361 | a delete that lands on the version its handler read is careful |
| Safety.DeleteOrphansExactly | controllers/changepod_controller.go:354-361 | the pods left labelled but unrecorded by a delete are exactly the labelled live pods of the ChangePod it hits |
| Lifecycle.EarlyPhasesAreNeverReentered | controllers/changepod_controller.go:81-92 | with arbitrarily stale callbacks ExecuteInit, PreWait and PreSubmitted are never re-entered |
| Lifecycle.DoneCarriesItsCause | controllers/changepod_controller.go:284-293 | ExecuteDone carries one of the five terminal causes; after PostFinish there is one and the same verdict for every recorded pod |
| Lifecycle.AtomicCallbacksClimb | controllers/callback/nodecallbak_handle.go:48-86 | when writes land on the version read, the phase only climbs along a run |
| Lifecycle.StaleCallbackExactly | controllers/callback/nodecallbak_handle.go:48-86 | a PRE patch moves its ChangePod backwards iff the stored phase is neither PreSubmitted nor PostWait, a POST patch iff it is PostTimeout, PostFailed or ExecuteDone; on the version read never |
| Replies.TurnAnswers | controllers/changepod_controller.go:225-293 | one turn on the stored ChangePod: the phase for each reply, node id, submission time and timeout, the cause kept as the message; every other field and object stays |
| Replies.TurnStepAnswers | controllers/changepod_controller.go:225-293 | in the protocol a turn plans a write exactly in the seven phases that call for one, and the write answers the version read |
| Replies.AcceptedNeverFails | controllers/changepod_controller.go:225-268 | if every notification is accepted, no ChangePod of any run is in, or ended by, PreFailed or PostFailed |
| Replies.RefusedIsNeverSubmitted | controllers/changepod_controller.go:225-268 | if every notification is refused, no ChangePod is ever submitted, times out or gets a verdict |
| Replies.RefusedEndsInPreFailed | controllers/changepod_controller.go:225-293 | and each that is done ended by PreFailed |
| Deliveries.CallbackDelivers | controllers/callback/nodecallbak_handle.go:48-86 | a callback on the stored version is taken exactly in the phase it waits for; PRE moves on whatever it says, POST stores its verdict and message with every recorded pod; all else stays |
| Deliveries.VerdictWasDelivered | controllers/callback/nodecallbak_handle.go:75-79 | along every run, what a ChangePod ended by PostFinish holds for its pods is the verdict and message of one POST callback delivered for it |
| Deliveries.UniformVerdictDecides | controllers/callback/nodecallbak_handle.go:75-79 | if all POST callbacks bring verdict v, such a ChangePod failed its check if and only if v is not "pass" and it records a pod |
| Timeouts.TimeoutsAreNeverEarly | runnable/run_changepod_timeout_valid.go:31-58 | along every run a ChangePod ended by a timeout was submitted more than 120 seconds before |
| Timeouts.TimeoutsTakeTime | runnable/run_changepod_timeout_valid.go:31-58 | between any moment at which a ChangePod has not been submitted yet and any later one at which it has timed out more than 120 seconds pass, whatever happens in between |
| Timeouts.SweepStepExactly | runnable/run_changepod_timeout_valid.go:32-46 | the sweep plans a write exactly for a ChangePod submitted for longer than its timeout, and that write changes the phase alone |
| Arithmetic.BatchSizeTheorem | controllers/changepod_controller.go:191-199 | without pod removal a batch past ExecuteInit has 1 to CountThreshold pods, exactly CountThreshold if created while Running |
| Arithmetic.PodConservation | controllers/changepod_controller.go:191-221 | between init turns the finished pods are the batch sizes plus the undefended pods |
| Arithmetic.FilterCount | controllers/changeworkload_controller.go:655-665 | the filtered listing has one entry for each undefended pod |
| Arithmetic.ZeroThresholdDefendsNothing | controllers/changepod_controller.go:191-199 | with a threshold of zero every batch is empty and no pod is ever labelled |
| Verdicts.GetPassAndFailedPods | controllers/changeworkload_controller.go:681-694 | the loop splits the results by the verdict "pass" |
| Verdicts.GetFinishedChangePods | controllers/changeworkload_controller.go:573-590 | the loop keeps the ChangePods in ExecuteDone, in order |
| Verdicts.CollectResults | controllers/changeworkload_controller.go:481-497 | the loop gathers pass and fail summaries: timeouts and refusals pass with all their pods |
| Verdicts.ChangeWorkload.ValidateSuccessOrSuspend | controllers/changeworkload_controller.go:514-548 | the in-place decision between Success, Suspend and the old status |
| Verdicts.ChangeWorkload.SyncStatus | controllers/changeworkload_controller.go:465-508 | the in-place sync, with its early return, computes the specified lists and status |
| Verdicts.VerdictNames | controllers/changeworkload_controller.go:481-499 | each list names exactly the live pods of finished ChangePods with that verdict |
| Verdicts.VerdictSummaries | controllers/changeworkload_controller.go:481-499 | which summaries each list holds: results split by their verdict after PostFinish, else the recorded pods, all passed |
| Verdicts.SyncConservation | controllers/changeworkload_controller.go:465-504 | pass and fail list are duplicate-free, disjoint and together the live pods of all finished ChangePods; failed exactly if ended by PostFinish with another verdict than "pass" |
| Verdicts.SyncOrderIndependent | controllers/changeworkload_controller.go:481-508 | the listing order only permutes the lists |
| Verdicts.SyncWritesExactly | controllers/changeworkload_controller.go:500-502 | a sync returns early exactly when nothing is finished or the stored lists are permutations of the new ones |
| Safety.ReachableInv | controllers/changepod_controller.go:173-221 | every reachable state satisfies the invariant |
| Verdicts.SyncFixpoint | controllers/changeworkload_controller.go:500-508 | a repeated sync on an unchanged cluster writes nothing |
| Verdicts.SuccessIsSound | controllers/changeworkload_controller.go:514-548 | Success is written exactly when nothing failed and all replicas passed (or it was Success before); the all-finished test is implied; the pass list then names replicas distinct live pods |
| Verdicts.SyncEdges | controllers/changeworkload_controller.go:514-548 | the status edges of a sync, and a non-empty fail list always comes with Suspend |
| Atomic.InitOutcomeIsRun | controllers/changepod_controller.go:173-221 | an init turn cut short by any failing call is a run of the fine protocol |
| Atomic.CreateOutcomeIsRun | controllers/changeworkload_controller.go:264-287 | a create decision is a run of the fine protocol |
| Atomic.CreateExactly | controllers/changeworkload_controller.go:264-329 | the create decision adds exactly the next ChangePod, new and empty, if nothing is in ExecuteInit and enough pods wait; otherwise it changes nothing |
| Atomic.WriteIsRun | controllers/changepod_controller.go:297-306 | a write planned on a read of any age is a run of the fine protocol |
| Atomic.LabelRunIsRun | controllers/changepod_controller.go:309-322 | a labelling loop cut short anywhere is a run of single label patches |
| Scheduling.ActIsRun | controllers/changeworkload_controller.go:70-112 | every action of the queue system changes the store by a run of the protocol |
| Scheduling.RunKeepsSysInv | controllers/changeworkload_controller.go:70-112 | the store invariant, well-planned writes in flight and the workload's status invariant hold along every run of the queue system |
| Scheduling.WorkloadStateMachine | controllers/changeworkload_controller.go:98-111 | only the edges Init to Running, Running to Success or Suspend, Success to and from Suspend; TimeOutPreThreshold and Failed are unreachable |
| Scheduling.ServedWithoutSync | controllers/changeworkload_controller.go:98-111 | a dropped request and a Failed workload change nothing, Init becomes Running, and TimeOutPreThreshold becomes Running when a ChangePod is created |
| Scheduling.QueuesExactly | controllers/changeworkload_controller.go:152-189 | exactly which requests pods, writes and sweeps queue, and that they take none away |
| Scheduling.ServeQueues | controllers/changeworkload_controller.go:181-189 | serving takes its own request and queues none but the workload's, which it queues whenever it changed the workload |
| Scheduling.RestartQueuesExactly | controllers/changeworkload_controller.go:165-189 | exactly which requests a restart queues |
| Wakeups.NoLostWakeup | controllers/changeworkload_controller.go:152-189 | whenever a batch is due, or the workload is in Init and a pod waits, the queue holds a request that will not be dropped, through interleaving, stale reads, crashes and restarts, if deletes are timely |
| Wakeups.ServingMakesProgress | controllers/changeworkload_controller.go:193-287 | serving such a request takes the workload out of Init and queues it again, or creates the next ChangePod |
| Wakeups.QuiescentLeavesNoBatch | controllers/changeworkload_controller.go:385-405 | at rest a Running workload leaves fewer than CountThreshold pods undefended, one in any other status, Init included, none |
| Wakeups.RunKeepsAwake | controllers/changeworkload_controller.go:152-189 | along timely runs fewer pods than a batch needs wait without a request of their own, unless a request for the workload is queued |
| Wakeups.ServeKeepsAwake | controllers/changeworkload_controller.go:193-260 | serving a request queues another, starts the due batch, or leaves too few pods waiting |
| Wakeups.ExecKeepsAwake | controllers/changeworkload_changepod_control.go:36-44 | every single write of the ChangePod handlers, callbacks and sweeps forgets no batch, except a delete that is not timely |
| Wakeups.PodsKeepAwake | controllers/changeworkload_pod_control.go:19-46 | pod events announce every pod that becomes undefended |
| Wakeups.RestartAwake | controllers/changeworkload_changepod_control.go:17-33 | the events of a restart announce everything that waits |
| Wakeups.RelistedDeleteIsTimely | controllers/changepod_controller.go:345-363 | a delete right after a listing with fewer undefended pods than a batch needs is timely |
| Wakeups.DeleteKeepsAwakeExactly | controllers/changepod_controller.go:354-361 | a careful delete keeps the wake-up invariant if and only if it is timely |
| Wakeups.DeleteLosesExactly | controllers/changepod_controller.go:354-361 | a careful delete loses a wake-up at once iff enough pods for a batch are there and no queued request but that of the deleted ChangePod would be served |
| Wakeups.LosableExactly | controllers/changeworkload_pod_control.go:49-70 | vanishing pods alone can lose a wake-up if and only if the wake-up invariant fails |
| Wakeups.DeleteRaceExactly | controllers/changepod_controller.go:354-361 | a careful delete exposes the workload to a lost wake-up if and only if it is not timely |
| Wakeups.StartExactly | controllers/changeworkload_controller.go:181-189 | a fresh workload may never leave Init if and only if some undefended pod has no request at the start |
| Reports.BehindExactly | controllers/changeworkload_controller.go:481-502 | a sync writes exactly when something is finished and one of the stored lists is not duplicate-free with exactly the judged summaries of live pods as its members |
| Reports.SyncCatchesUp | controllers/changeworkload_controller.go:465-508 | after a sync the stored lists hold exactly the judged summaries, each once |
| Reports.ServeReports | controllers/changeworkload_controller.go:208-249 | serving a request that is not dropped leaves the stored lists up to date |
| Reports.NoForgottenVerdict | controllers/changeworkload_changepod_control.go:36-44 | along every run from the start without the two events no watch reports, whenever the stored lists of a workload past Init are out of date a request for the workload is queued |
| Reports.NoForgottenVerdictSinceSync | controllers/changeworkload_controller.go:465-508 | the same after any run, with those two events before, if there was none since a request was last served |
| Reports.RestIsCurrent | controllers/changeworkload_controller.go:465-508 | hence at rest the lists hold exactly the judged summaries of live pods |
| Reports.RemovalForgetsExactly | controllers/changeworkload_pod_control.go:19-46 | deleting a pod leaves up-to-date lists out of date and unreported exactly if one of them names it and no request for the workload is queued |
| Reports.ReopeningForgetsExactly | controllers/callback/nodecallbak_handle.go:48-86 | a stale callback on a finished ChangePod does so exactly if another is finished, it records a live pod and no request for the workload is queued |
| Concurrency.MoveIsRun | controllers/changeworkload_controller.go:264-329 | every single call of a workload turn, late and failed ones included, changes the store by a run of the protocol |
| Concurrency.MoveKeepsInv | controllers/changeworkload_controller.go:70-112 | every single call keeps the store's invariant, the workload's status invariant and what the turns in service hold |
| AtomicTurns.AtomicRunIsMoves | controllers/changeworkload_controller.go:70-112 | every run of the queue system with atomic turns is a run of the one with turns at single API calls |
| AtomicTurns.ServeInReach | controllers/changeworkload_controller.go:98-111 | a turn that nobody interrupts, call by call, does exactly what the atomic turn does |
| ConcurrentWakeups.MoveKeepsAwake | controllers/changeworkload_controller.go:264-287 | every single call of any turn keeps the wake-up invariant, where a turn that has not read yet, or read the present status, counts as a queued request |
| ConcurrentWakeups.NoLostWakeupConcurrently | controllers/changeworkload_controller.go:113-130 | with any number of turns in service and any call failing, whenever a batch is due or a pod waits in Init, a request that will not be dropped is queued or held by a turn that has not read yet or read the present status, if deletes are timely and no pod listing fails in the one turn a batch depends on |
| ConcurrentWakeups.QuiescentConcurrently | controllers/changeworkload_controller.go:385-405 | when no turn is in service and no request is left, a Running workload leaves fewer than CountThreshold pods undefended, one in any other status none |
| ConcurrentWakeups.MissedListingLosesExactly | controllers/changeworkload_controller.go:385-405 | a failed listing in the guard loses a wake-up at once iff a batch is due and no request but the one in this turn's hands would be served |
| ReconcilerTurns.NoChangePodForgottenConcurrently | controllers/changepod_controller.go:66-94 | with a lagging cache and interleaved turns cut at any call: a ChangePod that needs the reconciler has its key queued, or a worker that has not read yet or plans a write for its present version, or the cache has still to show it |
| ReconcilerTurns.NothingLeftAtRest | controllers/changepod_controller.go:66-94 | with the cache caught up, no key queued and no worker busy, no ChangePod needs the reconciler |
| ReconcilerQueue.NoChangePodForgotten | controllers/changepod_controller.go:149-169 | every ChangePod the reconciler has to act on has its key in the reconciler's queue, along every run with lost writes, conflicts and restarts |
| ReconcilerQueue.StepQueuesExactly | controllers/changepod_controller.go:149-169 | exactly which keys the watches queue: of ChangePods created or changed, unless they are done |
| ReconcilerQueue.NeedsWorkExactly | controllers/changepod_controller.go:81-94 | a turn can change the stored ChangePods if and only if its ChangePod has no batch yet, waits to be submitted or ended in one of the five causes |
| Termination.MeasureDecreases | controllers/changepod_controller.go:173-293 | while the pods rest every single action that changes something lowers the measure, except a stale callback or a write planned before, which raise it by at most 15 |
| Termination.BoundedChanges | controllers/changepod_controller.go:173-293 | with a threshold of at least one, while no pod comes, goes or finishes, the operator makes at most Measure changes, and 16 for every write then in flight and every callback that finds its ChangePod moved on; calls interleave, reads are stale, writes are lost, time passes, the operator restarts |
| ConcurrentTermination.MovePaid | controllers/changeworkload_controller.go:334-345 | every single call that changes something lowers a measure in which lists read before the ChangePods changed cost one write at most, as a write outdates the versions of all other turns; a stale callback or a write left over costs at most 32 |
| ConcurrentTermination.CreateStaysFit | controllers/changeworkload_controller.go:264-329 | a create in flight for which a pod was waiting keeps a pod waiting, or its name is taken for good |
| ConcurrentTermination.BoundedChangesConcurrently | controllers/changeworkload_controller.go:113-130 | from any state a run with interleaved turns can reach: with a threshold of at least one, while no pod comes, goes or finishes, at most Total further changes, and 32 for every write then in flight and every callback that finds its ChangePod moved on |
| Termination.OutdatedExactly | controllers/changeworkload_controller.go:500-502 | whether a sync writes depends on neither listing order nor replica count |
| ApiServer.Server.Create | controllers/changeworkload_controller.go:322-325 | create-if-absent |
| ApiServer.Server.Update | controllers/changepod_controller.go:202-207 | spec update checked against the resourceVersion |
| ApiServer.Server.UpdateStatus | controllers/changepod_controller.go:297-306 | status update checked against the resourceVersion |
| ApiServer.Server.PatchStatus | controllers/callback/nodecallbak_handle.go:55-58 | status patch on whatever version is stored |
| ApiServer.Server.Delete | controllers/changepod_controller.go:354-361 | delete by name |
| ApiServer.Server.PatchPodLabel | controllers/changepod_controller.go:333-339 | label patch of a live pod |
| ChangePodHandlers.DefenseProcessedPod | controllers/changepod_controller.go:326-341 | patches a pod unless its copy already has the label |
| ChangePodHandlers.MarkDefensedPods | controllers/changepod_controller.go:309-322 | the re-labelling loop over recorded pods equals the specified labelling, failures included |
| ChangePodHandlers.FilterPods | controllers/changeworkload_controller.go:655-665 | the loop keeps finished undefended pods in listing order |
| ChangePodHandlers.SummariesOf | controllers/changepod_controller.go:445-455 | the loop builds the summaries of the batch |
| ChangePodHandlers.LabelBatch | controllers/changepod_controller.go:209-214 | labelling from list copies has the effect of labelling from fresh reads |
| ChangePodHandlers.GetFinishedPodsOrDelete | controllers/changepod_controller.go:345-363 | the filtered pods, or the delete when there are none |
| ChangePodHandlers.RecordBatch | controllers/changepod_controller.go:191-221 | record, label, move on: the specified state after any failing call |
| ChangePodHandlers.ExecuteInitChangePodHandle | controllers/changepod_controller.go:173-221 | the imperative init turn computes InitOutcome; on a recorded batch it labels all pods exactly if all are there and enough writes succeed |
| ChangePodHandlers.AdvanceChangePod | controllers/changepod_controller.go:225-293 | the in-place handlers of the other phases write the answer to the reply, field by field, if their object is current |
| ChangePodHandlers.Reconcile | controllers/changepod_controller.go:66-94 | dispatch on the stored phase |
| ChangePodHandlers.ReconcileIsRun | controllers/changepod_controller.go:66-94 | a reconciliation cut short by any failing call is a careful run |
| CallbackAndTimeout.Fill | controllers/callback/nodecallbak_handle.go:76-79 | the in-place loop stamps one verdict on all results |
| CallbackAndTimeout.CheckCallBack | controllers/callback/nodecallbak_handle.go:48-91 | with results aliased to the pod infos, the patch carries phase and results only, and the results say what the callback said of every recorded pod |
| CallbackAndTimeout.HandleCallBack | controllers/callback/nodecallbak_handle.go:16-93 | the whole callback, also when no ChangePod is found; on a current copy it delivers verdict and message |
| CallbackAndTimeout.CallBackIsRun | controllers/callback/nodecallbak_handle.go:38-91 | a callback on a copy of any age is a careful run |
| CallbackAndTimeout.SweepListed | runnable/run_changepod_timeout_valid.go:31-58 | the sweep loop equals the fold of single checked writes, and of the ChangePods stored as listed times out the overdue ones |
| CallbackAndTimeout.ChangePodTimeoutValidRound | runnable/run_changepod_timeout_valid.go:17-58 | one round over the PreSubmitted and then the PostSubmitted ChangePods |
| CallbackAndTimeout.RoundActs | runnable/run_changepod_timeout_valid.go:31-58 | of the ChangePods stored as listed a round times out the overdue ones, all of them unless writes fail, and changes nothing else |
| CallbackAndTimeout.NothingOverdue | runnable/run_changepod_timeout_valid.go:31-58 | after a round on current copies without a failing write nothing is overdue; the overdue ones have timed out with all other fields kept, the others are unchanged |
| CallbackAndTimeout.SweepIsRun | runnable/run_changepod_timeout_valid.go:31-58 | a round over copies of any age, whatever writes fail, is a careful run |
| WorkloadHandlers.IsExistInitStatusChangePod | controllers/changeworkload_controller.go:291-306 | the loop decides whether some ChangePod is in ExecuteInit, and counts all |
| WorkloadHandlers.IsNecessary | controllers/changeworkload_controller.go:385-405 | the guard: threshold reached, or somebody waiting |
| WorkloadHandlers.EnsureInitChangePodCreatedIfNecessary | controllers/changeworkload_controller.go:264-329 | the imperative create decision computes CreateOutcome, with its failures |
| WorkloadHandlers.FreshCountNeverCollides | controllers/resource/changepod_factory.go:23-35 | a Create from a fresh list takes the next number, under a name no other ChangePod has |
| WorkloadHandlers.CountFinishedPods | controllers/changeworkload_controller.go:642-651 | counts the pods with the finished label |
| WorkloadHandlers.SyncChangeWorkload | controllers/changeworkload_controller.go:465-508 | list, filter, recompute and decide |
| WorkloadHandlers.ActiveTurn | controllers/changeworkload_controller.go:208-260 | the handlers of Running, Success, Suspend and TimeOutPreThreshold |
| WorkloadHandlers.ReconcileWorkload | controllers/changeworkload_controller.go:98-111 | one turn on its workload computes the state and status of the queue system |
| PodSummaries.RemoveDuplicatePod | controllers/utils/common_utils.go:36-60 | the nested loops compute RemoveDuplicate |
| PodSummaries.RemoveDuplicateKeepsFirst | controllers/utils/common_utils.go:36-60 | it keeps the first occurrence of each live name, in order |
| PodSummaries.RemoveDuplicateIdempotent | controllers/utils/common_utils.go:36-60 | applying it twice changes nothing |
| PodSummaries.IsPodSummarySliceEqual | controllers/utils/common_utils.go:196-222 | the map loops compute SliceEqual |
| PodSummaries.SliceEqualExact | controllers/utils/common_utils.go:196-222 | against a duplicate-free list it is true exactly on permutations |
| PodSummaries.SliceEqualNeedsDistinct | controllers/utils/common_utils.go:196-222 | with duplicates it accepts lists that are no permutations |
| Names.JoinInvertsSplit | controllers/utils/common_utils.go:82-91 | joining what was split gives the string back |
| Names.KeyRoundTrip | controllers/utils/common_utils.go:64-91 | decoding an encoded key gives every name back, the separator included |
| Names.KeyClass | controllers/utils/common_utils.go:95-109 | exactly which keys are classified under a tag |
| Names.KeyClassesDisjoint | controllers/utils/common_utils.go:95-109 | pod, ChangePod and workload keys never overlap for names without "[" |
| Names.CombineInjective | controllers/utils/common_utils.go:30-32 | a combined name determines both parts when the last has no "-" |
| Names.CombineCollision | controllers/utils/common_utils.go:30-32 | without that restriction two pairs share a name |
| Names.ItoaInjective | controllers/resource/changepod_factory.go:25-25 | decimal numerals are injective |
| Names.ChangePodNameInjective | controllers/resource/changepod_factory.go:25-25 | a ChangePod's name determines its workload and number |
| Names.ThresholdRange | controllers/resource/changeworkload_factory.go:29-34 | without overflow the threshold is between 0 and the replicas, and zero exactly when the percentage truncates to zero |
| Names.ThresholdExactly | controllers/utils/common_utils.go:113-125 | without overflow the threshold is the percentage of the replicas rounded down, with the special cases 1 and all |
| Names.ThresholdOverflow | controllers/utils/common_utils.go:113-125 | with overflow a negative percentage gives a threshold above the replicas |
| Admission.MutationVersions | apis/apps/v1/deployment_webhook.go:115-143 | after mutation the version label is the hash of the template without that label |
| Admission.MutationIdempotent | apis/apps/v1/deployment_webhook.go:115-143 | mutating twice equals mutating once |
| Admission.MutationKeepsTheRest | apis/apps/v1/deployment_webhook.go:127-141 | the mutator changes the version and removes the defence status where the version did not match; every other label, of Deployment and template, the spec and the name stay as submitted |
| Admission.AdmitsExactly | apis/apps/v1/deployment_webhook.go:187-198 | when an update is admitted: the stored Deployment is not suspended or the update carries ignored-suspend, and the mutator need not write to a nil map |
| Admission.StaleUpdateTouches | controllers/changeworkload_controller.go:348-369 | however old the labels they were computed from, the operator's updates change no label but their own, and label patches leave the template alone |
| Admission.TemplateLabelExactly | apis/apps/v1/deployment_webhook.go:127-136 | exactly when the stored template carries the version as well |
| Admission.MergeDiff | controllers/deployment_controller.go:181-191 | a merge patch made from two label maps leads from one to the other |
| Admission.SuspendCallExact | controllers/changeworkload_controller.go:348-369 | a suspend call succeeds, leaves the suspend label exactly when pods failed and blocking is on, sets it to the time, and keeps every label that is not its own |
| Admission.SuspendedAdmitsExactly | apis/apps/v1/deployment_webhook.go:187-198 | a suspended Deployment admits an update exactly if it carries ignored-suspend and the mutator survives it |
| Admission.SuspensionFreezes | apis/apps/v1/deployment_webhook.go:187-198 | until the operator lifts the suspension no run of updates without ignored-suspend changes the Deployment |
| Admission.LeftoverIgnoreDefeatsSuspension | controllers/changeworkload_controller.go:361-363 | a suspended Deployment that still carries ignored-suspend accepts template changes |
| Admission.SuspendedAgainKeepsIgnore | controllers/changeworkload_controller.go:348-369 | from a frozen Deployment, lifting the suspension and suspending again are both admitted and leave both labels |
| Admission.RollbackTemplateExactly | runnable/run_deployment_status_vaild.go:54-57 | the written-back template is the old one exactly if that did not itself use the pod-template-hash label |
| Admission.RollbackRestoresVersion | runnable/run_deployment_status_vaild.go:47-59 | rolling back re-derives the old version and the old ChangeWorkload's name |
| LabelMaps.Delete | apis/apps/v1/deployment_webhook.go:212-212 | deleting from a shared, possibly nil map |
| LabelMaps.GetDeploymentTemplateHash | apis/apps/v1/deployment_webhook.go:209-224 | hashing strips the version label from the caller's template through the shared map |
| LabelMaps.HandleMutation | apis/apps/v1/deployment_webhook.go:115-143 | the webhook on shared maps answers as specified, in spite of the in-place deletes, and keeps every label but version and defence status |
| LabelMaps.AddOrRemoveDeploymentSuspendLabel | controllers/changeworkload_controller.go:348-369 | the in-place label changes and the patch computed from them |
| LabelMaps.DefenseProcessedDeployment | controllers/deployment_controller.go:181-191 | the same for the processed label |
| LabelMaps.WriteBackTemplate | runnable/run_deployment_status_vaild.go:54-57 | the Deployment ends up sharing the ReplicaSet's label map |
| LabelMaps.RollbackInMemory | runnable/run_deployment_status_vaild.go:47-59 | write-back and mutation on the shared map answer as specified |
| Rollout.UncoveredExactly | apis/apps/v1/deployment_webhook.go:127-136 | exactly which admitted user updates leave a processed version without a ChangeWorkload |
| Rollout.ReconcileExactly | controllers/deployment_controller.go:62-88 | a reconciliation creates the workload of the Deployment's version and marks it exactly if it is not suspended |
| Rollout.EveryAdmittedVersionGetsAWorkload | controllers/deployment_controller.go:62-88 | along every run a Deployment with version and processed label has had the ChangeWorkload of exactly its version created |
| Rollout.CreationConsistent | apis/apps/v1/deployment_webhook.go:115-143 | a newly created Deployment starts such a run |
| Rollout.StaleMarkExactly | controllers/deployment_controller.go:181-191 | a patch from an old read marks the present version; covered exactly if that version had a ChangeWorkload |
| Rollout.ReconcileRace | controllers/deployment_controller.go:62-88 | a run: the workload of version A is created, a user moves to B, and the patch made from the labels of A marks B, which has no ChangeWorkload |
| Rollback.AbnormalByReplicaSet | runnable/run_deployment_status_vaild.go:79-97 | the map holds one abnormal pod for each affected ReplicaSet |
| Rollback.GetNonRunningPods | runnable/run_deployment_status_vaild.go:72-104 | one abnormal pod for each affected ReplicaSet, none left out |
| Rollback.GetNormalReplicaSet | runnable/run_deployment_status_vaild.go:167-184 | the first other ReplicaSet that is fully available, or none |
| Rollback.RollbackRound | runnable/run_deployment_status_vaild.go:28-63 | the loop writes back exactly for the targets with a Deployment before the first one that stops the goroutine |
| Rollback.RolledBackExactly | runnable/run_deployment_status_vaild.go:42-59 | the write-backs of a round belong, in order, to exactly the unhealthy Deployments with another fully available ReplicaSet before which no Deployment is healthy or without one; each gets the template of the first such ReplicaSet |
| Counterexamples.StaleDeleteOrphansAPod | controllers/changepod_controller.go:345-363 | a run in which a delete planned on an old read loses a labelled pod |
| Counterexamples.CrashInterruptsForGood | controllers/changepod_controller.go:178-221 | a run to an initialisation interrupted by a crash, after which nothing is ever created |
| Counterexamples.PodDeletionInterruptsForGood | controllers/changepod_controller.go:209-214 | the same without any lost write, by deleting a pod of the batch before it is labelled |
| Counterexamples.StaleCallbackReopens | controllers/callback/nodecallbak_handle.go:48-58 | from every reachable state with a submitted ChangePod, two deliveries of a callback can reopen it after it is done |
| Counterexamples.ZeroThresholdNeverRests | controllers/utils/common_utils.go:120-124 | from an empty queue, once a pod has finished: for every k a run of the operator alone that creates k ChangePods |
| Counterexamples.ZeroThresholdLosesWakeup | controllers/utils/common_utils.go:120-124 | from an empty queue, a run to a lost wake-up |
| Counterexamples.DeleteRaceLosesWakeup | controllers/changepod_controller.go:354-361 | from an empty queue, with a threshold of one: a pod finishes behind a planned delete, and a due batch is left behind an empty queue |
| Counterexamples.MissedListingLosesWakeup | controllers/changeworkload_controller.go:385-393 | a run, from an empty queue to a due batch behind an empty queue with no turn in service |

## Left out

- The Kubernetes client, informers, scheme and RBAC: an abstract store with create, checked update, merge patch, delete and lists, and a set of queued requests.
- HTTP transport, signing, JSON and retry of the control side: a notification is answered by a node id or refused.
- MD5 and JSON of the template hash: an arbitrary function; a nil label map and an empty one are taken to serialise alike.
- Wall-clock formatting and sleeping: an integer clock; one sweep round reads it once.
- The fields UpdateTime, CreateTime and EntryTime and their Unix forms, except the two submission times: nothing in the protocol reads them.
- OpsConfigInfo and the config channels: batching, percentage and blocking are inputs.
- Requests whose owner lookups fail: such requests are retried or dropped by controller-runtime; the start of a workload allows for any of them to be missing.
- `deleteOldChangeWorkload`: it deletes other workloads than the one modelled; `Rollout` has deletion of any ChangeWorkload as an event.
- Marking pods as finished (controllers/pod_controller.go): pods become finished at any time.
- Failures of the ChangeWorkload's own status write and of the Deployment's label write inside a sync: `Scheduling` takes both to succeed; in `Concurrency` either may fail, which queues the key again.
- Workload turns on ChangePods read from a lagging cache: safety is proved for them, wake-ups and the bound on changes for reads that are current at each call.
- Reports.NoForgottenVerdict: turns of the workload reconciler run one at a time.
- Arithmetic.BatchSizeTheorem: only for runs without deleted pods and with a threshold of at least one; with deletions a batch created by the threshold test can be smaller.
- Arithmetic.PodConservation: only for runs without deleted pods and with a threshold of at least one; a deleted pod stays in its batch's record.
- Wakeups.NoLostWakeup: turns of the workload reconciler run one at a time; `ConcurrentWakeups.NoLostWakeupConcurrently` interleaves them. Deletes are careful, which `SerialSystemRunIsCareful` derives, and timely, which `DeleteRaceExactly` shows to be needed.
- Wakeups.QuiescentLeavesNoBatch: as for `NoLostWakeup`; `ConcurrentWakeups.QuiescentConcurrently` interleaves the turns.
- Termination.BoundedChanges: turns of the workload reconciler run one at a time; `ConcurrentTermination.BoundedChangesConcurrently` interleaves them. Deletes are careful; `ZeroThresholdNeverRests` shows that the threshold must be positive.
- ReconcilerQueue.NoChangePodForgotten: a turn of the ChangePod reconciler reads the present ChangePod and is not interleaved; `ReconcilerTurns.NoChangePodForgottenConcurrently` splits the turns and lets the cache lag.
- Rollout.EveryAdmittedVersionGetsAWorkload: reconciling and admission are atomic, and users do not add the processed label; `ReconcileRace` and `UncoveredExactly` show what happens otherwise.
- ChangePodHandlers.ExecuteInitChangePodHandle: in this form nothing interleaves and the object read is current; stale reads and interleavings are steps of `Protocol`.
- WorkloadHandlers.ReconcileWorkload: in this form nothing interleaves and the store's numbering is contiguous, as `NumberingTheorem` proves of every reachable store.
- `DeploymentStatusPauseRun`, which is never started, the empty rollback handler, the read-only endpoint, the gin router, metrics and generated code.
- A negative CountThreshold: the threshold is taken as a natural number, which `ThresholdRange` justifies unless the percentage overflows.
