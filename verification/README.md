# TaskMaster: the supervisor and its command protocol

TaskMaster is a process supervisor. The daemon `taskmasterd` reads job configurations, forks
`numprocs` children for each job, restarts them by policy, and stops, restarts or reloads them
on the commands that `taskmasterctl` sends over a local socket.

## The supervisor

`SupervisorSpec` holds the supervisor's operations as functions on values: a process (state,
restart counter, timer, and the kernel's side of it: child, registered descriptors, counts of
forks and reaps), a job (its configuration, seven states, its processes) and the manager (the job
table and the loaded configuration). `Supervisor` holds the classes `Process`, `Job` and
`JobManager` with the daemon's fields and call-backs (`Process` reports to `Job`, `Job` to
`JobManager`), all registering with one event manager; every method is proved equal to its
function, and to change no registrations but its own processes'. An event is a child's exit, a child's
death by a signal, an expired timer or a command; `Step` is one event followed by `update()`, and
`IsRun` is any sequence of steps. About runs it is proved, in this order:

- `SupervisorSafety`: in every run, including signal deaths and stops that throw half way, a
  process is STARTING, RUNNING or STOPPING iff it has exactly one unreaped child; each timer and
  each pidfd is registered exactly while it should be and no registration is ever refused; the
  restart counter stays within the limit; a job that `update()` erases has nothing outstanding.
- `CleanRuns`: in clean runs the state of a job agrees with those of its processes, so stopping
  never throws. A run is clean when no STARTING or RUNNING child dies by a signal and no `restart`
  goes to a job that is both out of date and without live children.
- `Commands`: what each command, a created job, a lost child and an expired timer come to, told by
  states, children, signals and timers alone; and that SIGKILL is the stop timer's.
- `RestartPolicies`: how often each policy launches a process of a job that is left alone, when it
  is given up, and when the job is RUNNING.
- `Termination`, `Shutdown`, `Reload`: how long a job can stay busy, when a shutdown ends, and
  when a reload takes effect, each with its exact condition. `TableWalks` is about `update()`'s
  walk over a table it changes. `FailingInputs` has runs from the daemon's start to states in which
  these conditions fail.

## The protocol

`Framing` is about the reader and the writer as functions, `Ipc` has them as classes together with
the client's two loops, `Lockstep` is the whole connection as a state machine over two byte
streams, and `DaemonSide` has the server and the daemon's `Client`, whose handlers are proved to
take the steps of that state machine and to change the jobs as the command says. `CommandCheck` is
the server's acceptance test. `Events`, `JobConfigs` and `Tokenizer` are the event registry with
its one-shot timers, the canonical exit codes, and the command line's tokenizer.

## The daemon

`Taskmasterd` puts the server, its clients, the jobs and the event manager together. A turn of its
loop takes a report of epoll, calls back whoever the registry names, and updates the jobs. Every
turn is a step of the supervisor's runs or leaves the jobs alone, and between turns the registry
holds exactly the listening socket, the open connections, the pidfds of the unreaped children and
the running timers, each with its owner's callback. What a turn does to the connections is a
function of the report: a new one, a step of the protocol, or a close.

## Hypotheses

- fork, pidfd, timerfd and epoll calls succeed when the kernel's rules allow them; a signal is
  delivered exactly while the child is forked and not reaped; waitpid reports an exit or a signal.
- A configuration has `numprocs >= 1` and retry limit, start time and stop time of at least 0
  (`WellFormed`); its map keys are the job names. The parser does not check this
  (`ProcessesNeeded` and `ExitsInARow` say what happens otherwise).
- One event per `handleEvents` call. Descriptors are never reused.
- Serialisation is a function with an inverse; a message is shorter than 2^32 bytes; the kernel
  takes the four header bytes whole and at least one byte of a non-empty piece.
- No command arrives once the manager's destructor runs: the server goes first.

## What the proofs turned up

- A shutdown is sure to finish exactly when every job is up to date, has no process its stop
  cannot deal with, and has a stop time or KILL as its stop signal when it has live children
  (`ShutdownFinishesExactlyWhen`). In a clean state that leaves two ways to hang
  (`DrainFinishesExactlyWhen`). A job that no longer matches the configuration is marked, and the
  loop waits for STOPPED or EMPTY. A job with live children, a stop time of 0 and a stop signal
  other than KILL may have a child that ignores the signal, and is never sent SIGKILL; one such
  job is enough (`NoStopTimeCanHang`). After a stop that threw there are more: the start time
  passes, the one child of a job dies by a signal, the job is stopped, and a shutdown waits for it
  for ever (`DiedThenStopped`).
- `kill()` throws, in the manager's destructor, exactly when a STARTING or RUNNING job has a
  process that is STOPPED (`KillThrowsExactlyWhen`); a reload, when such a job is changed or
  dropped (`ReloadThrowsExactlyWhen`).
- A reload does not take effect on a changed or dropped job that is running and has autostart:
  `reload` stops it and starts it again as it was (`ReloadTakesEffectExactlyWhen`). A reload right
  after the start will do (`ChangedWhileRunning`).
- `restart` on an out-of-date job without children loses the mark that the stop half set, and
  leaves the job STARTING with no child (`RestartAgreesExactlyWhen`). Such a job is left by a
  reload that changes it and the exits of its old and its new child (`ChangedThenExited`).
- A child of a STARTING job that dies by a signal is launched again without being counted, so the
  retry limit bounds nothing there (`MeasureFallsExactlyUnless`, `SignalDeaths`).
- After a signal death in a RUNNING job the next stop of it throws half way (`SignalDeathWounds`,
  `StopThrowsExactlyWhen`). The processes behind the dead one run on unsignalled, the job is left
  STOPPING unless all its processes are STOPPED, and further stops do nothing (`StopLeavesOff`).
- An unchanged reload changes nothing exactly when every autostart job is STARTING
  (`UnchangedReloadIsIdleExactlyWhen`). It puts a RUNNING one back to STARTING, where no timer is
  left to make it RUNNING again (`RunningGoesBack`), and launches the dead processes of STOPPED
  and STOPPING ones (`UnchangedReloadIsHarmless`).
- A stop time of 0 disarms the stop timer, and no run ever sends such a job SIGKILL, unless that
  is its stop signal (`SigkillFollowsExactlyWhen`).
- With a negative retry limit an always restarted process is launched for ever (`ExitsInARow`).
- Two frames in one receive leave the second in the buffer until more bytes come
  (`LeftoverExactlyWhen`); in the lockstep protocol this does not happen.
- A line that starts with a space is no command (`LeadingSpaceIsNoCommand`).

## Model

| member | source | states |
|---|---|---|
| SupervisorSafety.EveryRunIsSafe | taskmasterd/src/main.cpp:33-48 | in every state of every run: child ownership, timer discipline, signals to stopping children only, retry budget, exact registrations, no marked job between turns; and the same, but for marks, just before `update()` |
| SupervisorSafety.ChildEventKeepsOk | taskmasterd/src/jobs/Process.cpp:143-199 | exit, signal death and timer expiry keep the invariant of every process of the job, through all call-backs |
| SupervisorSafety.StartKeepsOk | taskmasterd/src/jobs/Process.cpp:34-99 | starting a dead process makes exactly one child, with its start timer and pidfd registered and nothing refused |
| SupervisorSafety.BootSafe | taskmasterd/src/ipc/Server.cpp:19-30 | after start-up every configured job is in the table, STARTING with `numprocs` processes if it has autostart and EMPTY otherwise |
| SupervisorSafety.StopKeepsOk | taskmasterd/src/jobs/Job.cpp:100-118 | a stop keeps the invariant also when it throws half way |
| SupervisorSafety.StartKeepsJobOk | taskmasterd/src/jobs/Job.cpp:50-69 | a start forks over no live child and ends in STARTING from every state; from STOPPING, STOPPED and EMPTY every process is live with a full retry budget |
| SupervisorSafety.ReloadOk | taskmasterd/src/jobs/JobManager.cpp:128-161 | a reload keeps the invariant, also when a stop throws |
| SupervisorSafety.UpdatedOk | taskmasterd/src/jobs/JobManager.cpp:196-213 | after `update()` no marked job is left |
| SupervisorSafety.ErasedJobIsQuiet | taskmasterd/src/jobs/JobManager.cpp:202-208 | a job about to be erased has no child, no timer and no registration, and has reaped every fork |
| SupervisorSafety.WatchedByState | taskmasterd/src/jobs/Process.cpp:34-199 | a process's registrations by its state: the pidfd while STARTING, RUNNING or STOPPING, the timer while STARTING or waiting for its stop time; and which of them can fire |
| SupervisorSafety.SigkillFollowsExactlyWhen | taskmasterd/src/jobs/Process.cpp:101-141 | over every run: a child was sent SIGKILL only if that is the stop signal or the stop time is positive; a signalled child's stop timer can fire iff the stop time is positive |
| SupervisorSafety.ForksAreAccounted | taskmasterd/src/jobs/Process.cpp:143-162 | forks minus reaps equals the live processes of a job |
| SupervisorSafety.ExitsInARow | taskmasterd/src/jobs/Job.cpp:129-164 | with a negative retry limit, n exits in a row of an always restarted process are n launches and n restarts counted, for every n |
| SupervisorSafety.ProcessesNeeded | taskmasterd/src/jobs/Job.cpp:71-118 | without a positive `numprocs` a started job has no child and a stop leaves it STOPPING for ever |
| CleanRuns.EveryCleanRunAgrees | taskmasterd/src/jobs/Job.cpp:50-164 | in every state of every clean run each job's state agrees with its processes and no stop throws |
| CleanRuns.ChildEventAgrees | taskmasterd/src/jobs/Job.cpp:283-305 | clean events keep a job's state in agreement with its processes |
| CleanRuns.StopThrowsExactlyWhen | taskmasterd/src/jobs/Process.cpp:101-118 | in any run, stopping a job throws iff it is STARTING or RUNNING with a process that is STOPPED |
| CleanRuns.StopLeavesOff | taskmasterd/src/jobs/Job.cpp:100-118 | what a stop that throws leaves: the processes before the first STOPPED one signalled or settled, the others as they were, the job STOPPING unless every process is STOPPED and the last to settle said so; further stops then do nothing |
| CleanRuns.SignalDeathWounds | taskmasterd/src/jobs/Process.cpp:187-192 | a signal death in a RUNNING job makes every later stop of the job as it is throw |
| CleanRuns.KillThrowsExactlyWhen | taskmasterd/src/jobs/JobManager.cpp:98-103 | in any run and any order of the table, `kill()` throws iff a STARTING or RUNNING job has a STOPPED process |
| CleanRuns.ReloadThrowsExactlyWhen | taskmasterd/src/jobs/JobManager.cpp:138-145 | in any run, a reload throws iff such a job is changed or dropped |
| CleanRuns.StopOfAgreeing | taskmasterd/src/jobs/Job.cpp:100-118 | a stop signals each live child once, settles each dead process, and throws nothing |
| CleanRuns.StopInAnyOrder | taskmasterd/src/jobs/JobManager.cpp:139-145 | when no stop throws, the order in which the table is walked does not matter |
| CleanRuns.RestartAgreesExactlyWhen | taskmasterd/src/jobs/JobManager.cpp:105-116 | a restart leaves the job in agreement iff it is active or up to date; otherwise it is STARTING without a child and its mark is lost |
| CleanRuns.ReloadIsClean | taskmasterd/src/jobs/JobManager.cpp:128-161 | a reload in a clean run succeeds, with a result that does not depend on the table's order |
| Commands.StartCommandDoes | taskmasterd/src/jobs/JobManager.cpp:52-73 | in any run `start` gives an EMPTY job `numprocs` children, the dead processes of a STOPPED or STOPPING one a new child each, leaves live children alone, and makes the job STARTING; no other job changes, and nothing for an unknown name |
| Commands.StopCommandDoes | taskmasterd/src/jobs/JobManager.cpp:75-96 | in a clean state `stop` sends every live child of a STARTING or RUNNING job the stop signal and gives it its stop time, settles its dead processes and makes it STOPPING; leaves a STOPPING job alone; marks one without children if it was dropped or changed; no other job changes |
| Commands.RestartCommandDoes | taskmasterd/src/jobs/JobManager.cpp:105-126 | in a clean state `restart` tells every live child of a STARTING or RUNNING job to stop, gives every dead process a new child, and leaves the job STARTING; any other up-to-date job is started; no other job changes |
| Commands.RestartCommandCompletes | taskmasterd/src/jobs/Job.cpp:283-298 | in the clean run that follows, each old child's death launches that process exactly once, and the job stays STARTING while one is dying |
| Commands.ThrowingRestartOnlyStops | taskmasterd/src/jobs/JobManager.cpp:105-126 | in any run, a restart whose stop throws does what `stop` does and launches nothing |
| Commands.ReloadCreates | taskmasterd/src/jobs/JobManager.cpp:128-161 | a reload loads the configuration, and each job that the table lacks is new: STARTING with `numprocs` children if it asks for autostart, EMPTY without any otherwise |
| Commands.ThrowingReloadOnlyStops | taskmasterd/src/jobs/JobManager.cpp:138-145 | a reload that throws has loaded the configuration and creates, removes and launches nothing; up-to-date jobs are as they were |
| Commands.FailedReloadDoesNothing | taskmasterd/src/jobs/JobManager.cpp:131-137 | a reload of a file that does not load leaves jobs and configuration as they were |
| Commands.UpdateDoes | taskmasterd/src/jobs/JobManager.cpp:196-213 | removed jobs are gone, replaced ones are new with the loaded configuration and started if it asks for it, the others are as they were |
| Commands.LostChildDoes | taskmasterd/src/jobs/Job.cpp:283-298 | the death of a child that was told to stop, or by a signal: relaunched uncounted in a STARTING job, ignored by a RUNNING one, and the end of a STOPPING one when it was the last |
| Commands.StartTimeDoes | taskmasterd/src/jobs/Process.cpp:194-199 | a start time passes: the process is RUNNING, and the job iff all its processes are |
| Commands.StopTimeDoes | taskmasterd/src/jobs/Process.cpp:124-141 | a stop time passes: that child is sent SIGKILL, and nothing else changes |
| Commands.SigkillIsTheStopTimers | taskmasterd/src/jobs/Process.cpp:101-141 | in any step of any run, a child that was not sent SIGKILL before is sent it only by its own stop timer while STOPPING, or because KILL is the stop signal |
| RestartPolicies.RelaunchedExactlyWhen | taskmasterd/src/jobs/Job.cpp:129-164 | an exit nobody asked for launches the process again iff a retry is left and the policy wants it; else BACKOFF or EXITED, and STOPPED once no process lives; which exits are counted; no other process changes |
| RestartPolicies.PoliciesKeepTheirPromise | taskmasterd/src/jobs/Job.cpp:129-164 | over any clean run of a started job: at most 1 + retries launches of each process, one under NEVER, all of them before ALWAYS gives up; STOPPED iff all processes were given up |
| RestartPolicies.RunningWithTheLastTimer | taskmasterd/src/jobs/Job.cpp:300-305 | a job whose children outlive the start time becomes RUNNING with the last of its `numprocs` start timers, not before |
| Termination.MeasureFallsExactlyUnless | taskmasterd/src/jobs/Job.cpp:129-164 | in any run the restart measure falls on an event iff it is not the free relaunch of a signalled child of a STARTING job |
| Termination.RunsAreBounded | taskmasterd/src/jobs/Job.cpp:129-164 | k events cost the job at least k of its measure |
| Termination.FreshJobIsBounded | taskmasterd/src/jobs/Job.cpp:50-164 | a fresh job of n processes handles at most n * (2 * retries + 2) events |
| Termination.SignalDeaths | taskmasterd/src/jobs/Job.cpp:283-288 | any number of signal deaths of a STARTING job's child fork that many times and leave the measure as it was |
| Termination.RestartSignalsAll | taskmasterd/src/jobs/JobManager.cpp:105-116 | a restart signals every live child and launches every dead process again |
| Termination.RestartCompletes | taskmasterd/src/jobs/Job.cpp:283-298 | each old child's death launches that process exactly once; while an old child is dying the job stays STARTING, so that the manager is not told |
| Shutdown.DrainStart | taskmasterd/src/jobs/JobManager.cpp:98-103 | in any state of orderly jobs `kill()` throws nothing and leaves every job stopping, done, or, if out of date, marked |
| Shutdown.WaitingIsOwed | taskmasterd/src/jobs/JobManager.cpp:32-39 | while the destructor waits for a job, something is bound to happen to one of its children, SIGKILL sent or a stop timer running, iff the job has a stop time or KILL as its stop signal |
| Shutdown.DrainEvent | taskmasterd/src/jobs/Process.cpp:101-192 | every event of a drain lowers the number of events owed and leaves jobs that are done alone |
| Shutdown.DrainRun | taskmasterd/src/jobs/JobManager.cpp:27-40 | a drain takes at most two events for each child alive at its start |
| Shutdown.DrainLooks | taskmasterd/src/jobs/JobManager.cpp:32-36 | the iterator steps over jobs that are STOPPED or EMPTY; a job it waits for is STOPPING and can be killed |
| Shutdown.ShutdownFinishesExactlyWhen | taskmasterd/src/jobs/JobManager.cpp:27-40 | from every state of every run: `kill()` throws nothing and no drain can come to rest with a job not done iff every job is up to date, orderly, and can be killed if it has live children |
| Shutdown.DrainFinishesExactlyWhen | taskmasterd/src/jobs/JobManager.cpp:27-40 | from any clean state, a drain can come to rest with a job not done iff a job is out of date, or one with live children has stop time 0 and a stop signal other than KILL |
| Shutdown.ComesToRest | taskmasterd/src/jobs/JobManager.cpp:32-39 | after any stop of all jobs that did not throw, a drain reaches a state where nothing is bound to happen, with every job that hangs still not done |
| Shutdown.NoStopTimeCanHang | taskmasterd/src/jobs/Process.cpp:101-131 | such an input: one started, up-to-date job with stop signal TERM and stop time 0 |
| FailingInputs.DiedThenStopped | taskmasterd/src/jobs/Process.cpp:101-131 | a run of three events to a state in which an up-to-date job makes a shutdown hang: the start timer, a signal death, `stop` |
| FailingInputs.ChangedWhileRunning | taskmasterd/src/jobs/JobManager.cpp:128-161 | right after the start, a reload that changes an autostart job leaves it out of date and not stopping, and a shutdown then can hang |
| FailingInputs.ChangedThenExited | taskmasterd/src/jobs/JobManager.cpp:105-116 | a clean run of three events to a state in which a `restart` leaves the job STARTING without a child: a reload, and two exits |
| Reload.ReloadConverges | taskmasterd/src/jobs/JobManager.cpp:128-161 | after a reload the dying children of out-of-date jobs count down, one per exit; the count is zero iff table and configuration agree; every configured job is in the table throughout |
| Reload.ReloadTakesEffectExactlyWhen | taskmasterd/src/jobs/JobManager.cpp:128-161 | once no out-of-date child is dying, table and configuration agree iff no running autostart job was changed or dropped |
| Reload.ReloadedStaleJob | taskmasterd/src/jobs/JobManager.cpp:138-158 | what a reload leaves of each job that was changed or dropped |
| Reload.StuckForever | taskmasterd/src/jobs/JobManager.cpp:215-226 | an out-of-date job that is not stopping is not removed by anything its children do |
| Reload.UnchangedReloadIsHarmless | taskmasterd/src/jobs/JobManager.cpp:128-161 | an unchanged reload keeps every live child and its timer, signals and reaps none, launches exactly the dead processes of STOPPED and STOPPING autostart jobs, once each, and leaves every autostart job STARTING |
| Reload.UnchangedReloadIsIdleExactlyWhen | taskmasterd/src/jobs/JobManager.cpp:128-161 | an unchanged reload changes nothing iff every autostart job is STARTING |
| Reload.RunningGoesBack | taskmasterd/src/jobs/Job.cpp:50-69 | it changes only the state of a RUNNING autostart job, to STARTING, with no timer left that could make it RUNNING |
| Reload.ReorderedCodesChangeNothing | taskmasterd/include/jobs/JobConfig.hpp:24-25 | configurations that list the same exit codes in another order are the same |
| TableWalks.RemoveTurn | taskmasterd/src/jobs/JobManager.cpp:202-205 | erasing a marked job leaves every other marked job ahead of the iterator and the final table unchanged |
| TableWalks.ReplaceTurn | taskmasterd/src/jobs/JobManager.cpp:206-210 | so does replacing one, wherever the new job lands in the walk |
| Supervisor.Process.Start | taskmasterd/src/jobs/Process.cpp:34-99 | forks, and registers the start timer and the pidfd |
| Supervisor.Process.Stop | taskmasterd/src/jobs/Process.cpp:101-131 | a dead process settles and reports; a child is signalled and its stop timer armed; without a child the call throws |
| Supervisor.Process.Kill | taskmasterd/src/jobs/Process.cpp:133-141 | sends SIGKILL |
| Supervisor.Process.OnStateChange | taskmasterd/src/jobs/Process.cpp:143-162 | reaps the child, drops its timer and registration, and reports the exit or the signal to the job |
| Supervisor.Process.OnExit | taskmasterd/src/jobs/Process.cpp:164-185 | the state an exit leads to, and the report to the job |
| Supervisor.Process.OnForcedExit | taskmasterd/src/jobs/Process.cpp:187-192 | a signal death leads to STOPPED in every state |
| Supervisor.Process.OnTimerExpired | taskmasterd/src/jobs/Process.cpp:194-199 | the start timer makes a process RUNNING, the stop timer kills a STOPPING one |
| Supervisor.Process.AddRestart | taskmasterd/include/jobs/Process.hpp:81-81 | counts a restart and changes nothing else |
| Supervisor.Process.ResetRestarts | taskmasterd/include/jobs/Process.hpp:82-82 | clears the count and changes nothing else |
| Supervisor.Job.Start | taskmasterd/src/jobs/Job.cpp:50-69 | the whole new state of a job that is started, from each of its states |
| Supervisor.Job.StartProcesses | taskmasterd/src/jobs/Job.cpp:71-88 | adds `numprocs` started processes |
| Supervisor.Job.RestartProcesses | taskmasterd/src/jobs/Job.cpp:90-98 | clears every counter and starts the dead processes, in place |
| Supervisor.Job.Stop | taskmasterd/src/jobs/Job.cpp:100-118 | the whole new state of a job that is stopped, up to the process at which it throws |
| Supervisor.Job.AllProcessesInStates | taskmasterd/src/jobs/Job.cpp:120-127 | whether all processes are in one of the given states |
| Supervisor.Job.OnExit | taskmasterd/src/jobs/Job.cpp:129-164 | relaunch, give up or settle, by counter, policy and exit code |
| Supervisor.Job.OnStop | taskmasterd/src/jobs/Job.cpp:283-298 | relaunch in STARTING; in STOPPING, when the last process stopped, STOPPED or the manager's mark |
| Supervisor.Job.OnProcessSurpassedStartTime | taskmasterd/src/jobs/Job.cpp:300-305 | RUNNING exactly when all processes are |
| Supervisor.Job.MarkReplaced | taskmasterd/include/jobs/Job.hpp:87-87 | sets the REPLACE mark and nothing else |
| Supervisor.Job.MarkRemoved | taskmasterd/include/jobs/Job.hpp:100-100 | sets the REMOVE mark and nothing else |
| Supervisor.JobManager.constructor | taskmasterd/src/jobs/JobManager.cpp:17-25 | one EMPTY job for each configured one, whatever the configuration says |
| Supervisor.JobManager.Start | taskmasterd/src/jobs/JobManager.cpp:42-50 | starts the jobs whose own configuration asks for autostart |
| Supervisor.JobManager.StartCommand | taskmasterd/src/jobs/JobManager.cpp:52-73 | effect and status of `start` |
| Supervisor.JobManager.StopCommand | taskmasterd/src/jobs/JobManager.cpp:75-96 | effect and status of `stop`, also when it throws half way |
| Supervisor.JobManager.StopAll | taskmasterd/src/jobs/JobManager.cpp:98-103 | the loops of `kill()` and of `reload`, up to the job at which one throws |
| Supervisor.JobManager.RestartCommand | taskmasterd/src/jobs/JobManager.cpp:105-126 | effect and status of `restart`; no start after a stop that throws |
| Supervisor.JobManager.Reload | taskmasterd/src/jobs/JobManager.cpp:128-161 | effect and status of `reload`, of one that fails to load, and of one that throws |
| Supervisor.JobManager.StatusCommand | taskmasterd/src/jobs/JobManager.cpp:177-194 | the status of `status` |
| Supervisor.JobManager.Update | taskmasterd/src/jobs/JobManager.cpp:196-213 | ends, and equals dropping the removed and renewing the replaced jobs at once, for any place a new job lands at |
| Supervisor.JobManager.OnStop | taskmasterd/src/jobs/JobManager.cpp:215-226 | marks REMOVE a job that is not configured, REPLACE one that is configured differently |
| Supervisor.JobManager.CreateJob | taskmasterd/src/jobs/JobManager.cpp:238-248 | adds the configured job, started if it asks for it, and leaves the others alone |
| Supervisor.JobManager.Turn | taskmasterd/src/main.cpp:33-48 | one turn of the main loop on any event, of a child or a command, is a step of a run and keeps it safe |
| Supervisor.JobManager.DrainTurn | taskmasterd/src/jobs/JobManager.cpp:32-39 | a turn of the destructor's loop advances or lowers the number of events owed |
| Supervisor.JobManager.Shutdown | taskmasterd/src/jobs/JobManager.cpp:27-40 | from every state in which it is sure to finish, the destructor ends, whatever the children do with the stop signal, with all jobs STOPPED or EMPTY and no child unreaped |
| Supervisor.JobManager.WaitForEvent | taskmasterd/src/jobs/JobManager.cpp:37-38 | a wait is entered only where something is bound to happen, and lowers the number of events owed |
| Supervisor.Process.Register | taskmasterd/src/core/EventManager.cpp:22-49 | a process's registration enters exactly its own descriptor and callback, and is remembered as a fault if it is refused |
| Supervisor.Process.Unregister | taskmasterd/src/core/EventManager.cpp:51-59 | a process's removal takes out exactly its own descriptor, likewise |
| Supervisor.JobManager.ValidKept | taskmasterd/src/core/EventManager.cpp:32-59 | what the server and the clients register leaves the jobs' registrations as they are |
| Framing.StreamIsConserved | libs/ipc/include/ProtoReader.hpp:37-62 | for any bytes in any pieces: frames of the delivered payloads followed by the buffer are the bytes received; one message per receive at most |
| Framing.FedDelivers | libs/ipc/include/ProtoReader.hpp:37-62 | a receive delivers iff the bytes so far hold a whole frame, and then the first one |
| Framing.LeftoverExactlyWhen | libs/ipc/include/ProtoReader.hpp:49-62 | a whole frame stays in the buffer iff the bytes held two |
| Framing.NotBeforeItsLastPiece | libs/ipc/include/ProtoReader.hpp:37-62 | no proper prefix of a frame's pieces delivers it |
| Framing.ArrivesWithItsLastPiece | libs/ipc/include/ProtoReader.hpp:37-62 | its last piece does, and leaves the reader as new |
| Framing.NumberRoundTrip | libs/ipc/include/ProtoWriter.hpp:56-56 | the big-endian size is read back as it was written |
| Framing.MostSignificantFirst | libs/ipc/include/ProtoWriter.hpp:56-56 | the most significant byte of the size comes first, in writing and in reading |
| Framing.WriteExtends | libs/ipc/include/ProtoWriter.hpp:52-85 | every call extends a prefix of the frame, and reports the end exactly when the frame is complete after the header; the writer is then as new, but for the header of an empty message |
| Ipc.ProtoReader.Read | libs/ipc/include/ProtoReader.hpp:32-68 | what a receive does to buffer and cached size, and what it returns or throws |
| Ipc.ProtoWriter.Init | libs/ipc/include/ProtoWriter.hpp:30-37 | takes a message exactly when it holds none |
| Ipc.ProtoWriter.Write | libs/ipc/include/ProtoWriter.hpp:52-85 | what a call sends and leaves to send |
| Ipc.ProtoWriter.Clear | libs/ipc/include/ProtoWriter.hpp:90-95 | leaves the writer as new |
| Ipc.SendCommandToDaemon | taskmasterctl/src/ipc/Client.cpp:28-39 | whatever the kernel has room for, the bytes sent are the frame, in at most 1 + max(1, n) calls; with room for a full piece at every call, in exactly 1 + max(1, n/4096 rounded up) |
| Ipc.AwaitDaemonResponse | taskmasterctl/src/ipc/Client.cpp:43-76 | for any pieces, reads the answer with exactly as many receives as there are pieces, and leaves iff it is an OK to `terminate` |
| Lockstep.EveryRunIsInLockstep | taskmasterd/src/ipc/Client.cpp:30-97 | for every interleaving and cutting: answers received are those of the commands handled, in order; an idle client leaves nothing on the way; the writer is idle in read mode; handled = finished + (1 if writing); nothing fails |
| Lockstep.LeavingIsAgreed | taskmasterd/src/ipc/Client.cpp:52-64 | the client leaves iff `terminate` was accepted; the daemon ends only after the whole OK, and never for a rejected command |
| Lockstep.MoveKeeps | taskmasterctl/src/ipc/Client.cpp:28-59 | each step of either party keeps the protocol's invariant |
| Lockstep.SomeoneCanMove | taskmasterctl/src/ipc/Client.cpp:35-49 | while a command is unanswered one of the two can move |
| Lockstep.MovesGetDone | taskmasterd/src/ipc/Client.cpp:30-70 | every move gets the command handled or leaves less work |
| Lockstep.ExchangeIsBounded | taskmasterctl/src/ipc/Client.cpp:28-49 | in any run, the moves after a command is issued are bounded by the lengths of the command and of its answer |
| CommandCheck.Rejection | taskmasterd/src/ipc/Server.cpp:69-111 | which numbers of arguments each type takes, and with which status the others are rejected |
| CommandCheck.Rewritten | taskmasterd/src/ipc/Server.cpp:113-122 | a rejected command, and no other, loses its type; the type `terminate` is kept iff there are no arguments |
| CommandCheck.OkMeansAccepted | taskmasterctl/src/ipc/Client.cpp:53-59 | the client's test for leaving agrees with the server's acceptance |
| DaemonSide.Server.constructor | taskmasterd/src/ipc/Server.cpp:19-30 | the socket is registered and the autostart jobs started |
| DaemonSide.Server.OnCommand | taskmasterd/src/ipc/Server.cpp:113-143 | effect on the jobs, rewritten command, and status of the answer, or the exception; no entry but processes' changes in the event manager |
| DaemonSide.CommandsDo | taskmasterd/src/ipc/Server.cpp:113-143 | what each type of command does to the jobs in a clean state: `start` starts the named job, `stop` stops it, `restart` restarts it, `reload` loads the configuration; `status`, `terminate`, a rejected command and an unknown name do nothing |
| DaemonSide.CleanAnswers | taskmasterd/src/jobs/JobManager.cpp:52-161 | in a clean run an accepted command is answered ERROR iff it is a reload that does not load, which then changes nothing, and no exception leaves the manager |
| DaemonSide.ErrorsExactlyWhen | taskmasterd/src/jobs/JobManager.cpp:75-126 | in any run `stop` and `restart` are answered ERROR iff the job is active with a STOPPED process; an argument error is given iff the named job does not exist, and nothing was changed |
| DaemonSide.Client.constructor | taskmasterd/src/ipc/Client.cpp:13-21 | a new client reads, and is registered for input alone |
| DaemonSide.Client.HandleRead | taskmasterd/src/ipc/Client.cpp:30-50 | does the protocol's reading step, or closes and unregisters; the jobs change as the command says, and in the event manager only its own entry and the processes' |
| DaemonSide.Client.HandleMessage | taskmasterd/src/ipc/Client.cpp:72-97 | turns a reading client into a writing one, with one answer, also after an exception; unregistered while the command is handled |
| DaemonSide.Client.HandleWrite | taskmasterd/src/ipc/Client.cpp:52-70 | does the protocol's writing step; sets TERMINATED iff the answer to an accepted `terminate` is complete |
| Taskmasterd.Daemon.RegistryIsExact | taskmasterd/src/core/EventManager.cpp:22-87 | at every step boundary interest set and both callback tables hold exactly the server, the open clients, the pidfds of unreaped children and the running timers, with a callback for each interest bit and none without |
| Taskmasterd.Daemon.ClientsHaveOneMode | taskmasterd/src/ipc/Client.cpp:30-97 | an open client is registered for reading or for writing, never for both |
| Taskmasterd.Daemon.CallbackIsOwners | taskmasterd/src/core/EventManager.cpp:61-87 | the callback found for a report is the owner's: a pidfd calls back for a child that changed, a timer for its time, a connection the handler of the mode it is in |
| Taskmasterd.Daemon.ReportIsEnabled | taskmasterd/src/core/EventManager.cpp:61-87 | a report for a process's descriptor is an event that can happen to it: a child to reap, or a running timer |
| Taskmasterd.Daemon.EnabledIsReported | taskmasterd/src/core/EventManager.cpp:61-87 | the other direction: whatever can happen to a child of a job is a report for a registered descriptor |
| Taskmasterd.Daemon.FittingIsReported | taskmasterd/src/core/EventManager.cpp:61-87 | likewise for connections: one that reads can be read from, one that writes can be written to, a new one can be made |
| Taskmasterd.Daemon.ReportFits | taskmasterd/src/ipc/Client.cpp:30-70 | a report for a connection is for an open client in the mode that the report is about |
| Taskmasterd.Daemon.Boot | taskmasterd/src/main.cpp:30-31 | the daemon as its constructors leave it is in a state of the runs, with an exact registry |
| Taskmasterd.Daemon.Accept | taskmasterd/src/ipc/Server.cpp:37-46 | the connections are the old ones and the new one, which reads, less those that closed; the jobs are left alone |
| Taskmasterd.Daemon.ReadFrom | taskmasterd/src/ipc/Client.cpp:30-50 | the connection takes the protocol's reading step or closes, no other connection changes, and the jobs change as the command says |
| Taskmasterd.Daemon.WriteTo | taskmasterd/src/ipc/Client.cpp:52-70 | the connection takes the protocol's writing step or closes, no other connection and no job changes, and the state is TERMINATED iff the answer to an accepted `terminate` is complete |
| Taskmasterd.Daemon.Dispatch | taskmasterd/src/core/EventManager.cpp:61-87 | the report's callback does to the jobs, the connections and the global state what the event, the bytes or the write are to do, and nothing else |
| Taskmasterd.Served | taskmasterd/src/ipc/Client.cpp:30-70 | what a report does to the connections: a new one joins those still open; a read or write changes its own only, and closes it iff it failed, ended or did not parse |
| Taskmasterd.Daemon.Turn | taskmasterd/src/main.cpp:33-48 | every turn of the whole daemon keeps its registry exact and its jobs safe; for the jobs it is a step of the supervisor's run or nothing, for the connections the step of the protocol that the report is, and TERMINATED is set exactly by completing the answer to an accepted `terminate` |
| Events.RegisterThenUnregister | taskmasterd/src/core/EventManager.cpp:22-59 | unregistering undoes registering |
| Events.OwnersDoNotMeet | taskmasterd/src/core/EventManager.cpp:32-59 | any two operations on different descriptors commute, and neither changes the other's entry or whether it is refused |
| Events.EventManager.UpdateEventInternal | taskmasterd/src/core/EventManager.cpp:32-49 | refused exactly when epoll refuses; otherwise interest set and both tables stay in agreement |
| Events.EventManager.RegisterEvent | taskmasterd/src/core/EventManager.cpp:22-25 | refused iff the descriptor is registered |
| Events.EventManager.UpdateEvent | taskmasterd/src/core/EventManager.cpp:27-30 | refused iff the descriptor is not registered |
| Events.EventManager.UnregisterEvent | taskmasterd/src/core/EventManager.cpp:51-59 | removes the descriptor from the interest set and both tables |
| Events.EventManager.Callback | taskmasterd/src/core/EventManager.cpp:61-87 | a reported event has a callback that is not null |
| Events.Timer.Start | taskmasterd/src/core/Timer.cpp:31-46 | a started timer is registered for input |
| Events.Timer.OnExpire | taskmasterd/src/core/Timer.cpp:48-60 | fires once: it is not registered afterwards and gives its callback |
| Events.Timer.Destroy | taskmasterd/src/core/Timer.cpp:24-29 | a destroyed timer is not registered |
| JobConfigs.ParseExitCodes | taskmasterd/src/jobs/JobConfig.cpp:85-102 | the listed codes, sorted; 0 when there are none |
| JobConfigs.SortedIsCanonical | taskmasterd/src/jobs/JobConfig.cpp:100-101 | sorted sequences with the same elements are equal |
| Tokenizer.Line.GetToken | taskmasterctl/src/cli/UserInput.cpp:21-28 | takes the first token off, and shortens every line that is not empty |
| Tokenizer.Line.ParseCommandArgs | taskmasterctl/src/cli/UserInput.cpp:30-39 | gives all tokens and ends with an empty line |
| Tokenizer.Line.ParseInput | taskmasterctl/src/cli/UserInput.cpp:69-77 | the command of a line, or none for a word that is no command |
| Tokenizer.WordsAreNames | taskmasterctl/src/cli/UserInput.cpp:52-67 | the words the client takes are exactly the names the server has for the types it handles, each for its own |
| Tokenizer.LowerChar | taskmasterctl/src/cli/UserInput.cpp:41-50 | capital letters, and nothing else, become small ones |
| Tokenizer.TokensOfJoin | taskmasterctl/src/cli/UserInput.cpp:21-39 | joining tokens with any positive numbers of spaces, with any number at the end, and cutting again gives them back |
| Tokenizer.LineIsJoinOfTokens | taskmasterctl/src/cli/UserInput.cpp:21-39 | every line not starting with a space is such a joining: the tokens are its maximal space-free runs in order |
| Tokenizer.LeadingSpaceIsNoCommand | taskmasterctl/src/cli/UserInput.cpp:52-77 | the first token is empty iff the line starts with a space, and then the line is no command |

## Left out

- The forked child (user, group, redirections, working directory, umask, exec) and process groups: system calls only.
- Sockets, addresses, descriptor numbers and their reuse: thin wrappers; descriptors are fresh handles.
- YAML and protobuf: a configuration is a parsed record, a message is bytes with an inverse; the other option parsers fill one field each.
- Texts of answers, exceptions and the status table, the logger, readline and completion: user interface, texts are arbitrary here.
- Splitting `cmd` into words and building the environment: delegated to the C library.
- Process names: they only feed the status table.
- Multi-event batches of epoll, hang-ups reported without input or output, and interrupted waits: one event per call.
- Wall-clock time: a timer is armed, expired or cancelled; a negative interval, which the kernel refuses, is excluded.
- A negative `numprocs`, at which `reserve` throws: the model adds no process, as for 0.
- The signal handler's writes to the global state and SIGHUP's route into `reload`: the handler's part is the reload of the model; a reload that throws there ends the daemon.
- The main loop as one unbounded method: its turns are `Taskmasterd.Daemon.Turn`, its runs on the jobs `IsRun`.
- Several connections in the lockstep runs: `Lockstep` follows one connection; in `Taskmasterd` any number of them share the daemon.
- The daemon's end after `taskmasterctl` closes, and the SIGINT that a lost connection raises in it: outside the stated properties.
- Supervisor.Process.ArmTimer: keeps the process's timer as a value in the process and registers it itself, with the same entry as `Events.Timer.Start`; the timer as an object of its own is modelled in `Events.Timer` only.
- What a destructor that throws does to the program: `CleanRuns.KillThrowsExactlyWhen` says when `kill()` does.
- Ipc.AwaitDaemonResponse: does not model a daemon that closes the connection before it answered, where the loop would not end.
