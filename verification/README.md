# Job service: a verified model of its life cycles and their interleavings

The repository runs Linux processes as jobs behind a gRPC server. Its difficulty is
concurrency: API calls, stop timers, the goroutine that notices the exit of a process, and
open log readers all act on the same job, the supervisor gives up its lock in the middle of
`Remove`, and the access table is kept in step with the supervisor's map without a common
lock. This project models that behaviour and proves what every interleaving of it keeps.

There are two layers.

* **State machines on values.** `JobModel.Next` is one job: every section that the program
  runs under `stateLock` is one event, except where the lock spans something observable
  (`Logs` is two events, `Cleanup` three); closing a reader takes no lock and is three
  events; the streaming loop of `server.Logs` belongs to the reader. `ServerModel.ServerNext`
  is the whole server: sections under the map's lock or the access table's lock are one event
  each, `Remove` is split where it unlocks, `StopSupervisor` is a sequence of events under the
  map's lock. A run is any sequence of events, so a statement about all runs is a statement
  about all interleavings. What the program does not decide (signal and file-system failures,
  chunk sizes, timer expiry, writes and exit of the process, clients going away) is a
  parameter of an event or an event of its own.
* **Objects that are updated in place.** `JobObject.Job`, `LogServer.OutputReader` and the
  streaming loop, `Supervisor.JobSupervisor`, `AccessControlObject.AccessControl` and
  `JobServerObject.JobServer` follow the Go methods; each method is proved against the step
  functions of the first layer, so that the theorems about runs hold of the objects. A double
  `close(done)` and a negative wait group, which panic in Go, are preconditions that the
  callers prove.

Files: `JobModel`, `JobInvariants`, `JobTheorems` (one job), `StreamTheorems` (log streams),
`Progress` (cleanups that wait for readers), `AccessModel` (access rules), `ServerModel`,
`ServerInvariants`, `ServerTheorems`, `ServerProgress`, `ServerLiveness` (the server),
`Refinement` (the server against an atomic job map), `JobObject`, `LogServer`,
`AccessControl`, `Supervisor`, `JobServer` (the objects), `Sums` (a small library).

## What is assumed of the environment

* Job ids are fresh, not blank, and need no trimming (they are generated).
* The waiter goroutine delivers one exit event per job, after the process has been reaped;
  a reaped process writes no more output, and output is only appended.
* A signal may fail, and so may RemoveAll, opening the output file, reading it, and sending a
  message. Only where a theorem says so, signals fail exactly on reaped processes.
* A file read below the end of the file returns at least one byte, at its end none.

## What turned out not to hold

Each of these has a concrete run and, beside it, the exact condition under which the
expected property does hold.

* A following log stream may end successfully without the last bytes of the output
  (run: `FollowMayMissTheTail`). What it misses is exactly what is written between the last
  file read and the look at `done` (`SentIsFileAtLastRead`). Every later success is
  complete if and only if the process was reaped at that read, or the reader follows while
  a cleanup holds the lock over an open `done`, and then never returns with success
  (`LastReadIsCompleteIff`).
* Without following, a failed file read ends the stream as a success (run:
  `ReadErrorLooksLikeTheEnd`). A stream that returned nil contains the output at the call if
  and only if no read failed, or the failed one was past that output (`StreamSandwich`).
* A client can make a `Remove` hang for ever, with its job out of the map and its following
  stream open (runs: `HangIsReachable`, `RemoveHangs`). This is the only way in which a call
  can get stuck: `CallsCanBeAnsweredUnlessHanging` is an equivalence.
* `done` of a job that is killed and removed before its exit is noticed is never closed (run:
  `EarlyCleanupLeavesDoneOpen`); `DoneClosedOnce` says that this is exactly the case of a
  Zombie at its exit. Such a job is never in the map (`MappedJobsWillBeDone`), so a shutdown
  does not wait for it.
* A Stopping job may lose its escalation: a forced stop whose SIGKILL fails cancels the timer
  of the graceful stop (run: `FailedForceStopDisarms`), and the SIGKILL of the timer itself
  may fail. A forced stop does not cancel a timer that has expired already, nor one that an
  earlier, failed graceful stop has left behind (runs: `FailedForceStopMayLeaveTimers`).
  `TimerLivesUntilDisarmed` is the exact rule for every timer in every run,
  `EscalationStaysArmed` the one for the timer of a graceful stop while the job is Stopping,
  and `EscalationAheadIffTimerLive` says that a Stopping job left to itself can still be
  sent SIGKILL if and only if some timer is live.
* A graceful stop that reports an error has armed its timer, which may kill the job later
  (run: `FailedStopMayStillKill`). Where signals fail only on reaped processes from then on,
  this is possible if and only if the process was running at the failed SIGTERM
  (`FailedStopMattersIffRunning`).
* A client may do everything with a job that another client has started: the owner is
  trimmed and the subject of a check is not, so a client whose name has blanks around it
  cannot use its own jobs, and the client with the same name without them can (run:
  `OtherSpellingGetsIn`). Among clients that are no superusers this other spelling is the
  only stranger that gets in, and a starter gets in if and only if its name has no blanks
  around it (`StrangersGetInExactly`); so a job is its starter's alone if and only if the
  name of the starter has none, or is a superuser's without them (`StarterAloneIffTrimmed`).
  A superuser gets in however its name is spelled, as long as it is configured so.
* The design document says that the exit code is reported for stopped jobs. A job is Stopped
  as soon as SIGKILL has been sent, and then `Inspect` reports -1 (run:
  `StoppedWithoutExitCode`); a completed job in the map reports the code of its process if
  and only if that has been reaped (`ExitCodeReportedIffReaped`).

## Model

| member | source | states |
|---|---|---|
| JobInvariants.InvNext | pkg/job/job.go:302-402 | every step of a job, from any state of the invariant, keeps it: `done` closed exactly once unless the job was a Zombie at its exit, signal log disciplined and consistent with the handler, counters equal to the readers they count, every stream a prefix |
| JobInvariants.InvRun | pkg/job/job.go:358-432 | the invariant holds in every state of every run of a job |
| JobInvariants.SignalInvNext | pkg/job/job.go:434-442 | a delivered SIGKILL stays the last attempt, a delivered SIGTERM is followed only by SIGKILLs, and the handler tells which of them were delivered |
| JobInvariants.ReaderInvNext | pkg/job/job.go:404-432 | wait group and counter keep counting exactly the readers between creation and the end of Close, and those not yet uncounted; a Zombie and a cleanup past its wait have only closed readers |
| JobInvariants.StreamSteps | pkg/job/logreader.go:24-37 | a step of a reader keeps its sent bytes, with the chunk in hand, equal to the output up to the file offset |
| JobTheorems.HandlerOnlyRises | pkg/job/job.go:322-354 | over any run the order Active, Stopping, Stopped or Ended, Zombie never goes down, each change of handler goes strictly up, Completed and Zombie are stable |
| JobTheorems.AtMostThreeChanges | pkg/job/job.go:322-326 | a job changes its handler at most three times in any run |
| JobTheorems.HistoryOnlyGrows | pkg/job/job.go:233-239 | no run takes back signals, output, a handled exit or a closed `done`; a reaped process writes nothing more |
| JobTheorems.SignalDiscipline | pkg/job/state_active.go:19-35 | in any run each signal is delivered at most once, nothing is attempted after a delivered SIGKILL, only SIGKILL after a delivered SIGTERM |
| JobTheorems.NoSignalOnceCompleted | pkg/job/state_ended.go:14-22 | once Stopped, Ended or Zombie, no signal is attempted in any continuation |
| JobTheorems.DoneClosedOnce | pkg/job/job.go:387-402 | in any run `done` is closed at most once; closed means reaped, exit handled and completed, and the exit tells for good whether a signal was delivered; exit handled with `done` open means exactly that the job was a Zombie at its exit |
| JobTheorems.EarlyCleanupLeavesDoneOpen | pkg/job/state_zombie.go:39-43 | a run after which `done` stays open in every continuation |
| JobTheorems.FinalStatusRecordsHistory | pkg/job/status.go:6-18 | after the exit and before cleanup, the status is Ended iff no stop signal was ever delivered and Stopped iff one was |
| JobTheorems.ReadersAccounted | pkg/job/job.go:423-432 | in any run the wait group counts the readers in use, bounds the other counter, and RemoveAll is reached only when it is zero and all readers have closed their files |
| JobTheorems.ZombieHasNoReader | pkg/job/state_zombie.go:33-37 | a Zombie has only closed readers and never opens one or removes its directory again |
| JobTheorems.TimerLivesUntilDisarmed | pkg/job/state_stopping.go:19-45 | in every run a timer is live until, and only until, its own Stop runs, or it is the unexpired timer a Stopping job remembers when a forced stop, another timer's Stop or the exit cancels it |
| JobTheorems.EscalationStaysArmed | pkg/job/state_active.go:18-25 | after a successful graceful stop, while the job is Stopping, the timer armed by that call is live exactly unless its own SIGKILL failed, or another one failed while it had not expired; a live timer can go on and will attempt SIGKILL |
| JobTheorems.EscalationAheadIffTimerLive | pkg/job/state_stopping.go:19-26 | without further calls a Stopping job can still be sent SIGKILL iff some timer is live, whichever graceful stop armed it |
| JobTheorems.EscalationKillsOrIsLate | pkg/job/state_stopping.go:19-26 | whenever the Stop of that timer runs, it attempts SIGKILL or finds the job completed |
| JobTheorems.FailedForceStopDisarms | pkg/job/state_stopping.go:20-26 | a run after which a Stopping job has no live timer |
| JobTheorems.FailedForceStopMayLeaveTimers | pkg/job/state_stopping.go:20-26 | runs in which a failed forced stop leaves an expired timer and a left-over timer live, and one in which the timer's own SIGKILL fails |
| JobTheorems.FailedStopKeepsEnded | pkg/job/state_active.go:19-25 | if signals fail exactly on reaped processes, a graceful stop that could not signal never keeps a job from becoming Ended |
| JobTheorems.FailedStopMattersIffRunning | pkg/job/state_active.go:19-25 | a graceful stop that reported an error can, by its timer and with signals failing only on reaped processes from then on, make the final status Stopped iff the process was running at the failed signal |
| JobTheorems.FailedStopMayStillKill | pkg/job/state_active.go:20-24 | a run in which the timer of a failed graceful stop makes the job Stopped |
| StreamTheorems.SentIsPrefix | pkg/server/server.go:242-259 | at every moment of every run the bytes sent by a stream are a prefix of the output |
| StreamTheorems.SentIsFileAtLastRead | pkg/job/logreader.go:24-37 | whatever happens between the end of file and the look at `done`, the stream has sent the file as of that read, ends iff it does not follow or `done` is closed by then, and misses exactly what was written in between |
| StreamTheorems.LastReadIsCompleteIff | pkg/job/logreader.go:24-37 | at an end of file, every success the stream may still report is complete iff the process is reaped, or the stream follows while a cleanup holds the lock |
| StreamTheorems.FollowedToTheEnd | pkg/server/server.go:243-253 | a following stream that returned nil has sent the first bytes of the final output, all of them iff the file was complete at its last read, in particular if `done` was closed then |
| StreamTheorems.DoneBeforeReadIsComplete | pkg/job/logreader.go:30-34 | with `done` closed while a file read is still ahead, a stream that returns nil without a read error has sent the complete output |
| StreamTheorems.FollowMayMissTheTail | pkg/job/logreader.go:25-34 | a run in which a following stream returns nil and has missed a byte |
| StreamTheorems.StreamSandwich | pkg/server/server.go:233-246 | for any chunking and any writer, a stream that returns nil has sent at most the output at its return, and at least the output at the call iff no read failed or the offset was past that output |
| StreamTheorems.CancelEndsStream | pkg/server/server.go:236-240 | a stream whose client goes away between two rounds sends nothing more in any continuation, and can leave only as canceled |
| StreamTheorems.CanceledMeansCancelled | pkg/server/server.go:236-240 | in any run only a stream whose client has gone away returns canceled |
| StreamTheorems.ReadErrorLooksLikeTheEnd | pkg/server/server.go:243-246 | a run in which a stream returns nil because a read failed |
| Progress.StreamStepsAreBounded | pkg/server/server.go:235-263 | in every run, whatever calls, timers, exits, writers and other readers do, a stream that does not follow, is cancelled or has `done` closed takes at most its cost in steps, and three more for every byte still written |
| Progress.ReaderCanMove | pkg/server/server.go:235-263 | until it is closed, a reader can always take its next step |
| Progress.UnboundStreamGoesOn | pkg/server/server.go:247-254 | a stream that follows, is not cancelled and has `done` open can go on for any number of steps |
| Progress.MeasureFalls | pkg/server/server.go:235-263 | every step of a reader or of the cleanup, failing or not, of a job whose readers are bound to leave lowers a measure of unread bytes, readers and pending cleanup |
| Progress.CleanupTicksAreBounded | pkg/job/job.go:423-432 | in every run, with any faults, cancellations, signals, timers and writes, a cleanup whose readers are bound to leave takes with them no more steps than the measure and what is still written pay for, and the lock is held until it is over |
| Progress.CleanupNeverBlocksAll | pkg/job/job.go:423-432 | while a cleanup holds the lock, some fault-free step of a reader or of the cleanup is possible |
| Progress.CleanupFinishes | pkg/job/job.go:356-370 | a cleanup whose readers are bound to leave can run to Zombie |
| Progress.StuckForever | pkg/job/job.go:356-402 | a cleanup waiting, with `done` open, for an undisturbed following reader stays in that state in every run, exit of the process included |
| Progress.CleanupCompletesIffDrains | pkg/job/job.go:423-432 | a cleanup can complete by fault-free steps alone iff every reader is bound to leave its loop |
| AccessModel.TrimCuts | pkg/acl/acl.go:81-89 | trimming cuts blanks and nothing else from both ends, and is idempotent |
| ServerInvariants.ServerInvNext | pkg/supervisor/supervisor.go:29-177 | every event of the server keeps the invariant that ties map, jobs, calls, owners and shutdown together |
| ServerInvariants.ServerInvRun | pkg/server/server.go:48-183 | it holds in every state of every run, for any configured superusers |
| ServerTheorems.JobRunsAlone | pkg/supervisor/supervisor.go:45-56 | whatever the calls do, each job has behaved like a new job on its own may behave, so all theorems about one job hold in the server |
| ServerTheorems.JobsConserved | pkg/supervisor/supervisor.go:45-56 | every job is in exactly one place: in the map, removed, or held by exactly one call that creates or removes it |
| ServerTheorems.RemoveCheckStaysValid | pkg/supervisor/supervisor.go:40-49 | the Completed check is still valid when the cleanup takes the job's lock, and no other cleanup of the job is under way |
| ServerTheorems.MapLockNeverWaitsForCleanup | pkg/supervisor/supervisor.go:45-47 | only a shutdown's own cleanup holds the lock of a job in the map |
| ServerTheorems.DirectoriesGoLate | pkg/supervisor/supervisor.go:29-57 | RemoveAll is reached only for a job that has exited or has been sent SIGKILL |
| ServerTheorems.MappedJobsWillBeDone | pkg/supervisor/supervisor.go:96-102 | a job in the map is done, or its exit is still to come and will close `done` |
| ServerTheorems.ShutdownWaitCanEnd | pkg/supervisor/supervisor.go:92-102 | from every reachable waiting state of a shutdown, exits alone lead to one where it goes on |
| ServerTheorems.ShutdownSignalsEveryJob | pkg/supervisor/supervisor.go:88-95 | in every run each job that is in the map when a shutdown begins has its turn before the shutdown goes on, and if it is Active then, SIGTERM is attempted |
| ServerTheorems.ShutdownPostcondition | pkg/supervisor/supervisor.go:85-106 | when a shutdown returns, every job in the map has exited with `done` closed once, as stopped iff a signal was delivered, and is a Zombie iff its removal did not fail in this shutdown |
| ServerTheorems.MappedJobsAreOwned | pkg/server/server.go:55-66 | a job not removed has an owner unless its Start is under way or its client is blank |
| ServerTheorems.OwnedJobsAreMapped | pkg/server/server.go:136-147 | an owned id is in the map unless a Remove of it is in flight |
| ServerTheorems.TablesAgreeAtRest | pkg/server/server.go:48-150 | with no Start or Remove under way the owned ids are the ids in the map, but for jobs of blank clients |
| ServerTheorems.CheckMeansEntitled | pkg/acl/acl.go:113-143 | in every reachable state the check admits exactly the client named like the trimmed starter, full superusers, and read superusers for Inspect and Logs only, of a job that has an owner; full access implies read access |
| ServerTheorems.OnlyEntitledCallsReachJobs | pkg/server/server.go:96-118 | in every run a call that gets past the check is one of the client that started the job and is spelled without blanks, of a full superuser, of a read superuser in an Inspect or a Logs, or of the client named like the starter without its blanks; all others are told that there is no such job |
| ServerTheorems.AdmissionDecided | pkg/server/server.go:131-134 | the check of a call admits the owner, a full superuser, and a read superuser for Inspect and Logs; it refuses a Stop or a Remove of any other |
| ServerTheorems.StartAnswers | pkg/server/server.go:48-67 | what each step of a Start does to jobs, map and owners, and what it answers |
| ServerTheorems.PerformAnswers | pkg/supervisor/supervisor.go:108-157 | what an admitted Stop, Inspect or Logs does to its job, to no other, and what it answers: signal, timer and handler of a stop, status and code of an inspection, the reader of a stream |
| ServerTheorems.RemoveAnswers | pkg/supervisor/supervisor.go:30-57 | what an admitted Remove takes out of the map or leaves there, and what it answers for a missing, a running and a completed job, after a failed and after a successful cleanup |
| ServerTheorems.RemoveCleans | pkg/supervisor/supervisor.go:45-56 | its cleanup ends with a Zombie without readers and a removed job, or leaves the job's status as it was, by the result of RemoveAll; a Zombie is refused |
| ServerTheorems.ReapedCodeIsReported | pkg/job/job.go:302-311 | the code with which a process was reaped is the one that a completed job reports, in every continuation |
| ServerTheorems.StrangersGetInExactly | pkg/acl/acl.go:79-97 | a client without privileges has access to an owned job it did not start iff it is the trimmed spelling of a starter with blanks; the starter itself has access iff its name has none |
| ServerTheorems.StarterAloneIffTrimmed | pkg/acl/acl.go:113-143 | among clients without privileges only the starter has access iff its name has no blanks around it or is a superuser's without them |
| ServerTheorems.ExitCodeReportedIffReaped | pkg/job/job.go:302-311 | a completed job in the map reports the code of its process iff it is reaped; otherwise it is Stopped by SIGKILL and reports -1 |
| ServerTheorems.RemoveRevokesForGood | pkg/server/server.go:125-150 | after a successful Remove nobody gets past the check for that id, and it is not in the map, in any continuation |
| ServerProgress.RemoveFinishes | pkg/supervisor/supervisor.go:45-57 | a Remove whose readers are bound to leave can run to its successful reply |
| ServerProgress.ServerTicksAreBounded | pkg/job/job.go:423-432 | in every run of the server, whatever other calls, clients, timers and jobs do, a cleanup by a Remove or a shutdown takes with its readers no more steps than the measure and what is still written pay for |
| ServerProgress.RemoveIsBounded | pkg/supervisor/supervisor.go:45-57 | in every run of the server a Remove that waits over a closed `done` takes with its readers at most the measure in steps, and until it is over one of its steps is possible |
| ServerProgress.OpenCleanupIsEarlyRemove | pkg/job/job.go:343-370 | a cleanup over an open `done` is that of a Remove that found the job Stopped before its exit was handled |
| ServerProgress.RemoveHangs | pkg/job/job.go:358-402 | from such a state with an undisturbed following reader no run of the server ends the cleanup, closes `done` or ends the stream |
| ServerProgress.HangIsReachable | pkg/server/server.go:96-150 | any client whose name has no blanks around it gets there by following, stopping by force and removing its job |
| ServerProgress.OtherSpellingGetsIn | pkg/acl/acl.go:79-81 | a run in which a client that has made no call may do everything with a job, and the client that started it nothing |
| ServerProgress.StoppedWithoutExitCode | pkg/job/job.go:302-311 | a run in which Inspect reports a stopped job with code -1 |
| ServerLiveness.ShutdownCanReturn | pkg/supervisor/supervisor.go:88-106 | from every reachable state a shutdown can return without help from clients and without faults |
| ServerLiveness.CallsCanBeAnsweredUnlessHanging | pkg/server/server.go:48-183 | in every reachable state a call can be answered without help from clients and without faults iff it is not a Remove whose cleanup waits for a reader that is not bound to leave |
| Refinement.EventAgrees | pkg/supervisor/supervisor.go:29-157 | every event of the server is one or two operations of an atomic job map with an access table, with the same answers; a refusal is one only where the table refuses |
| Refinement.RemoveIsAtomic | pkg/supervisor/supervisor.go:30-57 | without cleanup failures and shutdown, all calls get the answers of an atomic job map in which Remove deletes at one point between its arrival and its reply |
| Refinement.FailingRemoveHides | pkg/supervisor/supervisor.go:45-56 | in all runs they get the answers of an atomic job map with a set of hidden jobs, which a Remove fills and then empties by forgetting or restoring |
| JobObject.InterferenceIsRun | pkg/job/job.go:233-239 | background events around a method are a run of the job machine |
| JobObject.WaitsToTheEnd | pkg/job/job.go:423-432 | a cleanup has waited for some of the events, and is still waiting only when all of them have happened |
| JobObject.GroupIsPositive | pkg/job/logreader.go:39-45 | leaving the wait group never takes it below zero |
| JobObject.Job.constructor | pkg/job/job.go:133-162 | a job that could be created is Active with `done` open, no readers, no timers |
| JobObject.Job.CloseDone | pkg/job/state_active.go:37-41 | closes `done`, which must be open |
| JobObject.Job.HandlerGracefulStop | pkg/job/state_active.go:18-25 | the handlers' graceful stop: timer armed before the signal, kept when the signal fails; refused unless Active |
| JobObject.Job.HandlerForceStop | pkg/job/state_stopping.go:19-26 | the handlers' forced stop: SIGKILL when Active or Stopping, with the timer cancelled first when Stopping |
| JobObject.Job.HandlerExited | pkg/job/state_stopping.go:38-45 | the handlers' exit: which of them close `done`, and the next handler |
| JobObject.Job.Status | pkg/job/job.go:302-311 | code 0 while running; the process's code once reaped, always so when Ended; -1 for a job stopped but not reaped |
| JobObject.Job.Completed | pkg/job/job.go:313-320 | true exactly past Stopping, in particular when `done` is closed |
| JobObject.Job.InitStop | pkg/job/job.go:328-341 | one InitStop event; succeeds iff the job goes from Active to Stopping |
| JobObject.Job.Stop | pkg/job/job.go:343-354 | one ForceStop event; succeeds iff a running job becomes Stopped |
| JobObject.Job.Logs | pkg/job/job.go:372-421 | the two events of opening a reader, or nothing for a Zombie or a file that does not open |
| JobObject.Job.Exited | pkg/job/job.go:387-402 | one exit event, without a second close of `done` |
| JobObject.Job.Cleanup | pkg/job/job.go:356-370 | the exact job and result for any events around its wait: a Zombie is refused; otherwise it goes on as soon as the readers are gone, all are closed before RemoveAll, which alone decides between Zombie and the old handler; the whole is a run of the job machine |
| JobObject.Job.Environment | pkg/job/job.go:233-239 | one background event, when it is possible |
| LogServer.OutputReader.Read | pkg/job/logreader.go:23-37 | for a buffer of any length, fills it with the next bytes of the file, or reports end of file, end of job or failure, and has then sent the file as of the read |
| LogServer.OutputReader.Close | pkg/job/logreader.go:39-45 | closes the reader once, takes one from both counters |
| LogServer.StreamLoop | pkg/server/server.go:233-263 | one message for each round until it returns; the messages concatenate to what the reader has sent; an empty one only while it follows an open job and all that was there is sent; it returns with the outcome of the reader, as an error only if the client went away or a read or send failed |
| LogServer.Logs | pkg/server/server.go:229-264 | a refused opening sends nothing; otherwise the messages are a prefix of the output; nil without read failures means at least the output at the call; nil when following means the process is gone; nil with `done` closed at the call means the complete output; without faults it returns nil after at most one round more than there are bytes, if it does not follow or `done` was closed |
| AccessControlObject.AccessControl.AddSuperUsers | pkg/acl/acl.go:57-77 | adds exactly the given users to the set of the access type and leaves the other set and the owners, or refuses an unknown access type |
| AccessControlObject.AccessControl.SetOwner | pkg/acl/acl.go:79-97 | sets the trimmed owner, or refuses a blank user or object |
| AccessControlObject.AccessControl.Remove | pkg/acl/acl.go:99-111 | takes the owner away, or reports that there is none |
| AccessControlObject.AccessControl.Check | pkg/acl/acl.go:113-143 | answers the access rule |
| Supervisor.JobSupervisor.Start | pkg/supervisor/supervisor.go:70-83 | the map gains the new job under its id, or stays as it is when the job cannot be created |
| Supervisor.JobSupervisor.Stop | pkg/supervisor/supervisor.go:108-128 | not found; or a graceful stop, which arms a timer and attempts SIGTERM of an Active job, or a forced one, which attempts SIGKILL of a running job after cancelling its timer; success iff the signal was sent; other jobs untouched |
| Supervisor.JobSupervisor.Inspect | pkg/supervisor/supervisor.go:130-144 | not found, or the job's status and code |
| Supervisor.JobSupervisor.Logs | pkg/supervisor/supervisor.go:146-157 | not found, refused, or a reader of the job |
| Supervisor.JobSupervisor.Remove | pkg/supervisor/supervisor.go:29-57 | not found, still running, or the job unlinked and cleaned up after exactly the events of the gap: Zombie without readers and gone from the map iff RemoveAll worked, or back in the map as usable as before, or waiting for readers; RemoveAll only after exit or SIGKILL |
| Supervisor.JobSupervisor.StopSupervisor | pkg/supervisor/supervisor.go:85-106 | from any states of the jobs and any events meanwhile, SIGTERM is attempted of every Active job, whether it returns or not; it returns iff every job gets done and its readers leave; then every job is exited, as stopped if it was signalled, and a Zombie unless its removal failed |
| JobServerObject.JobServer.Start | pkg/server/server.go:48-67 | the job is in the map, and belongs to the trimmed client or to nobody; without a client id nothing happens |
| JobServerObject.JobServer.Stop | pkg/server/server.go:96-118 | not found for clients without full access, otherwise the stop, with its signal, timer and handler, and its answer |
| JobServerObject.JobServer.Inspect | pkg/server/server.go:152-183 | not found for clients without read access, otherwise status and code of the job |
| JobServerObject.JobServer.Logs | pkg/server/server.go:201-264 | unauthenticated or not found for clients without read access; not found, refused or the stream of the job otherwise, the other jobs untouched |
| JobServerObject.JobServer.Remove | pkg/server/server.go:125-150 | not found for clients without full access and for missing jobs, refused for a running job, otherwise the supervisor's cleanup and its answer: success iff RemoveAll works, unless it is still waiting for readers; the owner goes exactly when the job has gone; the two tables keep agreeing |

## Left out

- `JobSupervisor.Cleanup` and `remove` (pkg/supervisor/supervisor.go:159-193): no caller in the server, and they bypass the Completed check.
- gRPC, TLS, interceptors, certificate reload, configuration, the command-line client: plumbing; a client is a string, or missing.
- cgroups, namespaces, the shim, directory creation and the undo paths of `New`: only their effect is kept, a job that starts or does not, one exit event, no output after it.
- Real time: a timer may expire at any moment after it is armed; sleeping is no step.
- Logging, `String` methods, conversions between enumerations, limits, command and arguments of a job.
- A call that waits for a job's lock while it holds the map's lock is not a state of its own: the two sections are one event. `MapLockNeverWaitsForCleanup` says why the wait is short.
- A partial success of RemoveAll, and a file read that returns bytes together with an error.
- The fields that `Status` reads outside the exit event: the process is reaped by one event, and its code is visible from then on.
- JobObject.Job.constructor: the error returns of `New` are the failing case of `Supervisor.JobSupervisor.Start`; nothing of the job is left then.
- JobObject.Job.Cleanup: returns as still waiting when the events given for the wait are used up; the endless wait is the subject of `Progress`.
- LogServer.StreamLoop: runs for a given number of rounds and returns None when it is still streaming then; unbounded streaming is the subject of `StreamTheorems` and `Progress`.
- Supervisor.JobSupervisor.Remove: other map operations in its unlocked gap are not interleaved with the object's method; they are in `ServerModel`.
- Supervisor.JobSupervisor.StopSupervisor: the goroutines that wait are run one after the other, which the wait group makes equivalent; every interleaving is in `ServerModel`.
