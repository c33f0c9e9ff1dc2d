# Restraint in Dafny

Restraint runs test recipes. A daemon (`restraintd`) fetches each task of a recipe, installs what it
depends on, runs it under a watchdog and reports how it ended; a client connects to one or more hosts,
collects statuses and logs, and reconnects when a connection breaks. The program is made of GLib main-loop
callbacks: each runs to completion on one thread, so concurrency is the order in which callbacks come.

The models follow that shape. For each component there is

* a *model* module: the state as a datatype, each callback as a function of it, `Enabled` for the callbacks
  that can come next, and runs as sequences of them;
* one or more *theorem* modules: what every run keeps, and what holds at its end;
* a *class* with the source's fields, whose methods update them in place and are proved to compute the
  model's functions (`ensures View() == old(M.OnFetch(c, View(), error))` and the like).

What the outside decides (exit codes, answers of servers, what a read returns, what the config file says)
is a parameter of the event that delivers it and is never restricted unless a theorem says so.

| files | component |
|---|---|
| `Dependency*.dfy` | the dependency resolver, `src/dependency.c` |
| `Watchdog.dfy` | the local watchdog, `src/task.c`, `src/process.c`, `src/server.c` |
| `Process.dfy` | the life of a child process, `src/process.c` |
| `TaskRunner*.dfy` | the task state machine, `src/task.c`, `src/recipe.c`, `src/server.c` |
| `MessageQueue.dfy` | the queue of HTTP messages, `src/message.c` |
| `ContentRange.dfy` | the Content-Range header, `src/client.c`, `src/upload.c` |
| `LogTransport.dfy`, `LogSender.dfy`, `Upload.dfy` | log data from a task to the client's files |
| `PacketLine.dfy` | git pkt-line framing, `src/fetch_git.c` |
| `LineSplitter.dfy` | the streaming line splitter, `src/metadata.c` |
| `SyncServer.dfy` | the `rstrnt-sync` server, `src/cmd_sync.c` |
| `Reconnect.dfy` | the client over broken connections, `src/client.c`, on top of the task runner's model |

`dafny verify dfyconfig.toml` checks the project.

## Where the code does not do what one would expect

Each of these is a theorem with the exact condition, or a lemma with the input that shows it.

* An adjustment of the watchdog that a timer shorter than a heartbeat sees, and that leaves a minute or
  more, kills the process too early: the timer keeps its short period (`AdjustedKillTime`,
  `ShortTimerKillsEarly`). A process without a budget has no timer, and no adjustment ever gives it one
  (`DisabledWatchdogNeverKills`).
* After a failed fork, or a kill that fails while the child is watched, the finish callback never comes
  (`FinishesUnlessLost`).
* A task abort that arrives when the current task has already posted its status aborts the next one, which
  nobody asked for (`LateAbortHitsTheNextTask`), and one that follows a recipe abort revokes it: the later
  tasks are run after all (`TaskAbortRevokesRecipeAbort`).
* Completed does not mean run. A task that is reported Completed has been run exactly if its config section
  recorded no expired watchdog when it became current and its metadata was not missing without an error
  (`CompletedMeansRun`, with the inputs `CompletedWithoutRunning` and `ExpiredIsCompletedWithoutRunning`).
* A local watchdog that expires is forgotten by a restart of the daemon. `src/task.c:298-302` records it in
  the config file and sets an error in memory; `plugins/localwatchdog.d/99_reboot` then reboots the host
  through `rstrnt-reboot`, which does not return; and the daemon that comes back takes `src/task.c:1115-1118`,
  which sets none. The task is reported Aborted for its watchdog if and only if the session in which it
  expired lives until the status is posted (`ExpiredWatchdogIsReported`, `RestartForgetsTheWatchdog`).
* A task that was finished before, and so is skipped, posts Aborted all the same if its section of the config
  file cannot be read (`src/task.c:1109-1132`); `FinalsInOrder` has the condition in `Reports`, and
  `FinishedReportsUnreadable` says that it is the only way.
* A recipe without tasks never completes (`EmptyRecipeHangs`).
* Every nested frame of the resolver runs the root's soft dependencies, and no nested repository's own
  (`FinishedFramesRanEverything`).
* The comment beside the message queue's cap speaks of ten minutes; the cap is 625 seconds
  (`CappedFromTheFifteenth`).
* A Content-Range whose end or total is missing is accepted, and the number read as 0 (`MissingNumbers`); one
  whose known total equals its inclusive end is, too, and leaves a log one byte longer than its total
  (`TotalMayFallShort`).
* `upload.c` keeps its offset between calls, so that only the first upload of a process arrives where it
  should (`UploadsReplaceFromZeroOnly`, `SecondUploadFails`).
* The pkt-line writer accepts payloads of up to 65531 bytes, the reader those of up to 65519, and an empty
  one reads like a flush packet (`StreamRoundTrip`, `WriterOutrunsReader`).
* A task with the status Cancelled is finished for the server but not for the client. A job that starts with
  such a status, or any other outside New, Running, Completed and Aborted, can end with every recipe finished
  and the client waiting for ever, and only such a job can (`FinishedRecipesQuit`, `StuckNeverQuits`). The
  status goes away exactly if one for its task arrives (`StuckUntilAStatusArrives`), which for a Cancelled one
  takes a server that cannot read the task's section (`CancelledNeedsUnreadable`).

## Model

| member | source | states |
|---|---|---|
| DependencyTheorems.ReachableReposAreDone | src/dependency.c:385-508 | Once the root's own package phase runs, and at the end of a successful run, every path that a chain of repodeps leads to has had its metadata requested, and the package phase of each one that has metadata is over; for every graph, cycles included, although a processed list is never handed back to the frame that opened another |
| DependencyTheorems.ResolverTerminates | src/dependency.c:448-508 | For every finite graph of repositories there is a bound on the number of answers in any run |
| DependencyTheorems.RunsAreShort | src/dependency.c:448-537 | The bound is a measure of the stack: unprocessed paths, then repodeps left, then packages left; every answer uses some of it |
| DependencyTheorems.FinishCalledOnce | src/dependency.c:385-404 | The caller's finish callback runs exactly once, when the run is over, with the first error any answer carried or with none; a run that is not over waits for an answer |
| DependencyTheorems.FinishedFramesRanEverything | src/dependency.c:280-383 | Every frame that ended without an error ran its hard dependencies as a removal batch and an install batch, or after a failed batch one by one in list order, each exactly once, and then the root's soft dependencies in order |
| DependencyTheorems.EntriesAreRunAsWritten | src/dependency.c:280-376 | Over any run every entry of a finished frame was run as it is written: a leading minus sign means a removal of the name behind it, anything else an installation, among the soft dependencies, in the one-by-one phase and in the at most two batches, of which only the last can have failed |
| DependencyTheorems.BatchNames | src/dependency.c:284-298 | A name is in the removal batch exactly if the list has it behind a minus sign, and in the install batch exactly if the list has it and it begins with none |
| DependencyTheorems.BatchesJoin | src/dependency.c:284-298 | The batches of two lists one behind the other are their batches one behind the other: both keep the list's order |
| DependencyTheorems.PackagesFetchNothing | src/dependency.c:511-537 | A task that is a package never fetches a repository, asks for metadata or opens a frame, whatever its repodeps |
| DependencyTheorems.FetchedPath | src/dependency.c:448-479 | A fetched path is asked about exactly if the frame itself has not processed it, whatever other frames have asked for; otherwise the frame goes on with its next repodep |
| DependencyTheorems.NothingHandedBack | src/dependency.c:385-404 | A repository that is done with leaves the frame that opened it with the processed list it had, so that a repository two others share is asked about twice |
| DependencyTheorems.StrictFramesRanTwoBatches | src/dependency.c:77-200 | Where failures are not ignored the hard commands of a finished frame are exactly its two batches, removals first, both successful |
| DependencyTheorems.BatchesConserve | src/dependency.c:280-308 | The two batches share out the dependency list: nothing is lost, added or doubled |
| DependencyProofs.StepStack | src/dependency.c:77-537 | Every answer keeps the stack of frames in order: each frame is where its phase and its log say, each waits for the one above it, and the callback count is right |
| DependencyProofs.ErrorUnwinds | src/dependency.c:385-404 | An error reported by the top frame closes every frame and reaches the caller as it is |
| DependencyCoverage.StepCovers | src/dependency.c:415-508 | Every answer keeps the invariant that each requested path is open, or closed with its own repodeps requested and its package phase over |
| Dependency.SplitPackages | src/dependency.c:284-298 | The loop that fills the two buffers puts the names behind a minus sign into one and the others into the other, each in list order |
| Dependency.DependencyRun.Handler | src/dependency.c:511-537 | dependency_handler on DependencyData objects computes the model's next stack |
| Dependency.DependencyRun.OnFetch | src/dependency.c:448-479 | A finished fetch asks for the metadata of a path that is new to the frame, skips one that is not, and ends the frame on an error |
| Dependency.DependencyRun.OnMetadata | src/dependency.c:415-445 | Metadata opens a nested frame that inherits the parent's processed list and soft dependencies; missing metadata goes on with the next repodep |
| Dependency.DependencyRun.OnProcess | src/dependency.c:77-277 | The four process callbacks compute the model's next stack from the exit code |
| WatchdogTheorems.AdjustedKillTime | src/process.c:461-507 | An adjustment of s seconds made at t kills at max(T, t+s), where T is the next tick, if and only if the timer has the full period or less than a heartbeat is then left; otherwise early by (60 - period) for every minute left |
| WatchdogTheorems.ShortTimerKillsEarly | src/process.c:461-507 | A process armed for 30 seconds that is given 200 more after 10 is killed after 120 seconds and not after 210 |
| WatchdogTheorems.AdjustmentIsHonoured | src/task.c:545-607 | The same over whole runs: whatever came before, the last adjustment that a full timer sees decides the moment of the kill |
| WatchdogTheorems.AdjustedBeforeStart | src/server.c:325-335 | An adjustment that comes before the process starts acts like one made on the fresh watchdog, so that the theorems about runs cover it, and it is honoured: the kill comes at the moment asked for, or at the first tick if that is later |
| WatchdogTheorems.LastAdjustmentWins | src/server.c:325-335 | Of several adjustments before one tick only the last counts |
| WatchdogTheorems.UnadjustedKillTime | src/process.c:339-351 | Without adjustments a process with a budget is alive until exactly the budget has passed and is then killed, by the last of the ticks predicted |
| WatchdogTheorems.KilledWhenPredicted | src/process.c:461-507 | A run of ticks kills exactly when it is as long as predicted, at the predicted moment |
| WatchdogTheorems.CountdownsAgree | src/process.c:471-505 | The countdown of process.c, which stores what is left after each heartbeat, and that of task.c give the same intervals, and these add up to the budget |
| WatchdogTimers.SameTimers | src/process.c:339-351 | The timers that process_run and process_timeout_callback arm for a process without a user callback are those that the task's heartbeat arms, one by one, and they add up to the budget |
| WatchdogTheorems.DisabledWatchdogNeverKills | src/process.c:339-351 | A process that starts without a budget is never killed, whatever adjustments come |
| WatchdogTheorems.BudgetSurvivesRestarts | src/task.c:576-585 | However often a task is interrupted before its watchdog expires, the restored budget is never 0 and what has run plus what is left is the budget plus the unaccounted remainders; the next execution sees one reboot for each interruption |
| WatchdogTheorems.TotalRunningTime | src/task.c:1222-1233 | k interruptions add less than k minutes to the total running time of a task |
| Watchdog.TaskWatchdog.TimeoutCallback | src/process.c:461-507 | process_timeout_callback with the task's heartbeat as the user callback, on the task's fields |
| ProcessTheorems.FinishesAtMostOnce | src/process.c:109-130 | In every interleaving of I/O end, child exit, idle rounds, timeouts and cancellations the finish callback runs at most once, after both ends, with the child's status; both descriptors have been closed once, no timer is armed and nothing can refer to the freed record |
| ProcessTheorems.CallbackIsToldTheTruth | src/process.c:389-435 | Over any run the callback is told the one exit status that the child watch delivered, and an expired watchdog if and only if a kill succeeded before that exit was seen, in the run or in process_run |
| ProcessTheorems.TimerRunsUntilItsEnd | src/process.c:461-519 | Over any run the timer is armed until the first cancellation, the first tick that finds the child gone or no time left, or the callback, and never again |
| ProcessTheorems.FailedForkIdlesOnce | src/process.c:282-288 | After a failed fork one idle round comes, finds nothing to finish, and nothing can happen any more |
| ProcessTheorems.JoinIsScheduled | src/process.c:389-435 | Once the child and the I/O have ended the callback has run or the pending idle round runs it |
| ProcessTheorems.FinishesUnlessLost | src/process.c:282-288 | When nothing but a cancellation can happen any more, the callback has run exactly if the fork succeeded and no kill in the run failed on a live, watched child |
| ProcessTheorems.LostNeverFinishes | src/process.c:438-458 | After a failed fork, or once the child watch is gone, no continuation ever calls it |
| ProcessTheorems.LostByFailedKill | src/process.c:438-519 | The child watch is lost exactly by a failed kill of a live, watched child, from a timeout or a cancellation |
| ProcessTheorems.LostBySomeFailedKill | src/process.c:438-519 | Over a run the child watch is lost if and only if some kill in the run fails on a live child that is watched |
| ProcessTheorems.EventsRunOut | src/process.c:389-435 | Ticks and cancellations aside, every event brings the join nearer |
| Process.ProcessData.constructor | src/process.c:232-386 | process_run leaves the record that the model describes, for failed forks and cancellables that are already cancelled, too |
| Process.ProcessData.TimeoutCallback | src/process.c:461-507 | process_timeout_callback re-arms, keeps or drops the timer as the time left says, and kills when none is left |
| TaskRunnerTheorems.OneContinuation | src/task.c:1081-1300 | In every reachable state exactly one thing will call the machine back until the recipe is idle, and the retry counter is within its limit where it is used |
| TaskRunnerRetries.RetriesAreLimited | src/task.c:102-136 | Over any run at most 30 fetch retries and at most 3 refreshes of the roles are made again for any one task, although one counter serves both and is reset in between |
| TaskRunnerRetries.RetriesAreUsedUp | src/task.c:102-136 | In every run a fetch that fails is tried again exactly if the task is no package and fewer than 30 retries have been made for it, and a refresh of the roles exactly if fewer than 3 have; otherwise the task ends with an error |
| TaskRunnerTheorems.UnhealthyRecipesWait | src/task.c:1135-1205 | While the recipe is unhealthy the fetch, the refresh of the roles and the dependencies of a task are not started, and the handler comes again with nothing changed; once it is healthy they are |
| TaskRunnerContinuation.StartedTasksAreNotFetched | src/task.c:1119-1122 | In every run, once the IDLE step of a task has found that it had been started, and until it is left, it is neither fetched nor tried again, the external watchdog is not told, the resolver does not run and no Running status is sent |
| TaskRunnerContinuation.OthersAreFetched | src/task.c:1123-1130 | Any other task is run only when it was fetched, the watchdog told and its dependencies installed in this session |
| TaskRunnerPaths.StartedTaskRuns | src/task.c:1119-1235 | The eight callbacks that take a started task to its run: its metadata is read again, and nothing else is waited for or posted |
| TaskRunnerPaths.RunWindsUp | src/task.c:280-359 | The six callbacks behind a run: plugins, status and next task; the status is Aborted exactly for a non-zero exit under an expired watchdog or of an rhts task |
| TaskRunnerTheorems.FinalsInOrder | src/task.c:1255-1281 | Final statuses are posted in list order, one by each task behind the current one that had to report and none by the others, the current one's as its last act |
| TaskRunnerTheorems.NothingLeftMeansIdle | src/recipe.c:597-632 | When nothing is outstanding the recipe is idle, every task that had to has reported, and neither the abort flag nor the cancellation is left over |
| TaskRunnerTheorems.RecipeTerminates | src/task.c:1081-1300 | Every run takes a bounded number of steps, waits for a healthy recipe and requests from outside not counted |
| TaskRunnerTheorems.StepUsesWork | src/task.c:1081-1300 | Every step uses up some of the measure (tasks left, state, retries left, what is waited for), or is a wait or a request and leaves it as it was |
| TaskRunnerTheorems.EmptyRecipeHangs | src/task.c:1085-1089 | A recipe without tasks is left with no callback outstanding and never completes |
| TaskRunnerCompletion.CompletedMeansRun | src/task.c:1115-1124 | In every run a task that is posted Completed has been run if and only if its IDLE step recorded no expired watchdog and its metadata was not missing without an error |
| TaskRunnerCompletion.ExpiredIsCompletedWithoutRunning | src/task.c:1115-1118 | One input: a task whose section records an expired watchdog is reported Completed three handler steps after the recipe begins, not run |
| TaskRunnerTheorems.CompletedWithoutRunning | src/task.c:391-430 | The other: a task without metadata and without an error is reported Completed two handler steps later, not run |
| TaskRunnerPreparation.TasksRunPrepared | src/task.c:1113-1246 | A task is run only when its metadata was there, its roles were refreshed if the recipe has a URL, it was fetched, the external watchdog told and its dependencies installed unless it had been started before, and the recipe is not cancelled |
| TaskRunnerOutcomes.StatusTellsWhatHappened | src/task.c:1236-1281 | Within one session of the daemon the final status of a task is Aborted by the user exactly if an abort was in force when it completed, Aborted with an error exactly if something failed for good since this session began it (a config section that cannot be read, retries used up, roles that cannot be used, a local watchdog that expires in this session, a non-zero exit of an rhts task), and Completed otherwise |
| TaskRunnerRestarts.ExpiredWatchdogIsReported | src/task.c:298-302 | Over any history of restarts a task whose local watchdog has expired since its status was last posted is reported Aborted if and only if the daemon has not been restarted since, or an abort is in force, or its section cannot be read; otherwise it is reported Completed |
| TaskRunnerRestarts.RestartForgetsTheWatchdog | src/task.c:1115-1118 | The interrupted run: a fresh task is executed, its watchdog expires, the daemon is restarted before the status is posted, and the task is reported Completed |
| TaskRunnerRestarts.SectionsTellThePast | src/task.c:1215-1235 | Over any history of restarts a task's section says how often it was executed since its status was last posted, whether it was at all, and whether its watchdog has expired since |
| TaskRunnerRestarts.SectionEvents | src/task.c:1215-1270 | The steps that write a section are the ones that begin a run, and that post a final status |
| TaskRunnerInvariants.StepKeepsValid | src/task.c:1081-1300 | Every callback and every abort request keeps the invariant of the machine |
| TaskRunnerSteps.StepMoves | src/task.c:1081-1300 | Every callback is one of seven moves, which say what it may change about runs, statuses, flags and the current task |
| TaskRunnerAborts.TasksRunAtMostOnce | src/task.c:1215-1235 | Tasks are run in list order, each at most once, and none that was finished before |
| TaskRunnerAborts.RecipeAbortStopsTheRest | src/server.c:400-408 | After a recipe abort that no task abort follows no task is run any more, and every status posted is Aborted by the user, except the current task's own if it had been decided before |
| TaskRunnerAborts.TaskAbortHitsOneTask | src/task.c:1274-1279 | A task abort is spent on one final status or on the end of the recipe; the status is the current task's unless that had nothing left to report, and no later one is an abort |
| TaskRunnerAborts.LateAbortHitsTheNextTask | src/task.c:1236-1285 | A task abort that comes after the current task's status aborts the next task, which is not run |
| TaskRunnerPaths.TaskAbortRevokesRecipeAbort | src/task.c:1274-1279 | A task abort after a recipe abort revokes it: the current task's status uses the abort up, and the next task is run |
| TaskRunnerPaths.FreshTaskRuns | src/task.c:1109-1235 | The twelve callbacks that take a task that is due, with no abort in force, to its run |
| TaskRunnerReports.DoneStays | src/task.c:1110-1112 | A task that was finished before, or has posted a final status, is never run again and posts nothing but final statuses |
| TaskRunnerReports.StepKeepsPostsOk | src/task.c:1255-1281 | No status but a final one follows a final one of the same task, and finished tasks post no others |
| TaskRunnerReports.FinishedReportsUnreadable | src/task.c:1109-1132 | A task that was finished when the recipe began posts a final status only if its config section could not be read |
| TaskRunner.AppData.TaskHandler | src/task.c:1081-1300 | task_handler computes the model's step on AppData, and its source stays exactly for G_SOURCE_CONTINUE |
| TaskRunner.AppData.NextTask | src/task.c:824-841 | restraint_next_task moves to the next task or completes the recipe and clears the abort flag |
| TaskRunner.AppData.FetchFinish | src/task.c:102-136 | A failed fetch is retried until the limit and then ends the task; a package is not retried |
| TaskRunner.AppData.RecipeFetchComplete | src/task.c:990-1020 | A failed refresh of the roles is retried until the limit; one that cannot be used ends the task |
| TaskRunner.AppData.TaskFinish | src/task.c:280-359 | Only a non-zero exit under an expired watchdog or in rhts mode is an error of the task |
| TaskRunner.AppData.Dispatch | src/task.c:1081-1300 | Any callback that is due computes the model's step and keeps its invariant |
| MessageQueueTheorems.QueueConserves | src/message.c:49-149 | In every reachable state the messages queued are those acknowledged, then the one in flight, then those waiting; queue_active holds exactly when there is one pump, and never two; the callbacks run are those of the acknowledged messages, once and in order; messages are sent in turn |
| MessageQueueTheorems.QueueDrains | src/message.c:98-113 | The queue comes to rest only when every message has been acknowledged |
| MessageQueueTheorems.AnsweredMessagesAreDone | src/message.c:49-65 | Over any run the messages that are done with are exactly those answered with a status from 200 to 299 or from 400 to 499, in the order of the queue; every other one is in flight or waits |
| MessageQueueTheorems.OtherAnswersRetry | src/message.c:66-95 | In any run any other answer leaves its message in front of all that wait, with the timer armed that sends it again |
| MessageQueueTheorems.QueueTakesMessages | src/message.c:116-149 | A message can be queued in any reachable state, comes behind all that wait, and finds or gets exactly one pump |
| MessageQueueTheorems.StepsUseWork | src/message.c:49-113 | As long as sends are acknowledged and nothing is queued, every step brings the queue nearer to rest |
| MessageQueueTheorems.DelayGrows | src/message.c:67-72 | The delay stays between 2 and 625 seconds and grows with every failure in a row until it is capped |
| MessageQueueTheorems.CappedFromTheFifteenth | src/message.c:67-72 | It is capped exactly from the fifteenth failure in a row on |
| MessageQueueTheorems.RetriesWaitLongEnough | src/message.c:49-95 | In every reachable state the retry timer has the delay that the failures since the last acknowledgement call for, and an acknowledgement resets it |
| MessageQueue.Queue.QueueMessage | src/message.c:116-149 | A message goes to the tail, and a pump is added only if there is none |
| MessageQueue.Queue.MessageComplete | src/message.c:49-95 | A success or a client error runs the callback and goes on; anything else puts the message back to the head and waits |
| ContentRangeTheorems.PrintThenParse | src/client.c:89-124 | Reading a printed Content-Range (section 4.2 of RFC 7233) yields start, end and total again, for every start and end a file offset can have, for an unknown total, and for a known one exactly if it is below 2^63 |
| ContentRangeTheorems.TrailingCharacters | src/client.c:109-123 | Characters behind the range are rejected, unless they are further digits of the total |
| ContentRangeTheorems.LeadingBlanks | src/client.c:98-103 | Tabs, newlines, form feeds, carriage returns and spaces in front of the start are skipped, and any other character that is no digit is refused |
| ContentRangeTheorems.MissingNumbers | src/client.c:105-123 | A missing end and a missing total are read as 0, a sign or a blank without a number is refused |
| ContentRangeTheorems.PrintedHeader | src/upload.c:26-58 | The header of the first 1024 of 4096 bytes, character by character |
| ContentRangeReader.HeadersGetContentRange | src/client.c:89-124 | The pointer-advancing reader accepts exactly the headers that the specification accepts and assigns its numbers |
| LogTransportTheorems.StreamRebuilt | src/client.c:650-691 | For every order of delivery and with any requests delivered more than once, the client's log is exactly the data sent, if and only if it did not already hold a longer file |
| LogTransportTheorems.Reassembled | src/client.c:149-169 | The same for a stream that starts in the middle: what the file held around it stays |
| LogTransportTheorems.EveryRange | src/client.c:650-680 | A body that is not as long as its range and a known total below the end change nothing; otherwise a log that is there is cut or filled up to a known total and the body is written at its start |
| LogTransportTheorems.NoRangeReplaces | src/client.c:681-691 | A request without a readable range replaces the log by its body |
| LogTransportTheorems.TotalMayFallShort | src/client.c:655-659 | A total equal to the inclusive end is let through, and the log ends up one byte longer than it |
| LogSenderTheorems.StreamsAreContiguous | src/task.c:1302-1346 | The requests for a path send its data without gap or overlap from offset 0 on, whatever is written to other paths, dropped or interrupted by restarts |
| LogSenderTheorems.WrittenLogIsRebuilt | src/task.c:1302-1346 | Both ends and the header together: whatever is written to a path, the client ends up with exactly that |
| LogSenderTheorems.PiecesCutExactly | src/logging.c:327-376 | rstrnt_chunk_log cuts the content into as many pieces as it allocates messages, none empty and all full but possibly the last |
| LogSenderTheorems.UploadsAreContiguous | src/logging.c:413-495 | Over any interleaving of growth, uploads and restarts the messages carry the file from the first offset to the last length uploaded, without gap or overlap, each 1 byte to 10 MiB long, and the offset never passes the length |
| LogSenderTheorems.OneUpload | src/logging.c:474-489 | One upload queues a message for every 10 MiB of what is new and one for the rest, behind those queued before, and moves the offset to the length |
| LogSenderTheorems.UploadedFileIsRebuilt | src/logging.c:413-495 | After an upload the client holds the file, for every order of delivery |
| LogSender.ChunkLog | src/logging.c:327-376 | The loop fills exactly the slots allocated, each with its message, and rejects what the guards reject |
| LogSender.Task.ConnectionsWrite | src/task.c:1302-1346 | A write sends its bytes at the offset of its path and advances it, in the table and in the config file |
| LogSender.LogFile.UploadLog | src/logging.c:413-501 | An upload queues the messages for what is new, in order, and advances the offset to the length, in the task and in the config file; a file that cannot be mapped, and one with nothing new, leave all of it alone |
| UploadTheorems.UploadReplacesTheFile | src/upload.c:71-139 | A successful upload that starts at offset 0 replaces whatever the client held by exactly the content; an empty file sends nothing |
| UploadTheorems.UploadReportsFailures | src/upload.c:71-139 | An upload ends without success at the first read or request that fails, the request being its last; it succeeds if none fails, and only with every byte sent |
| UploadTheorems.UploadsReplaceFromZeroOnly | src/upload.c:26-58 | It does so for every file if and only if the static offset was 0 |
| UploadTheorems.SecondUploadFails | src/upload.c:26-58 | After a successful upload the next one goes to the wrong place |
| Upload.Uploader.UploadFile | src/upload.c:71-139 | The loop sends the requests of the specification, stops at the first failure and succeeds exactly if all bytes were sent |
| LogReceiver.RunDirectory.TasksLogsCb | src/client.c:645-691 | The client's handling of a log request: lengths that do not match and totals below the end are refused, the file is cut to a known total, and the body is written at its offset |
| PacketLineTheorems.StreamRoundTrip | src/fetch_git.c:33-157 | A stream of written packets is read back as it was if and only if every payload has 1 to 65519 bytes |
| PacketLineTheorems.PacketRoundTrip | src/fetch_git.c:49-157 | One packet is read back exactly if it leaves room for the terminator, and refused otherwise |
| PacketLineTheorems.WriterOutrunsReader | src/fetch_git.c:49-157 | The writer takes payloads of up to 65531 bytes, and the packets of those from 65520 on, and only those, are protocol errors for the reader of an archive |
| PacketLineTheorems.FourDigits | src/fetch_git.c:33-47 | Four digits stand for their base-16 value in either case; any other character is an error |
| PacketLineTheorems.DigitsOfEitherCase | src/fetch_git.c:38-41 | The sixteen digits in either case, what each stands for, and that no other character is one |
| PacketLineTheorems.EveryStream | src/fetch_git.c:49-110 | What the reader makes of any stream: four zeros are a flush packet; a bad digit, a header from 1 to 3 and a payload that does not fit are protocol errors; an end within header or payload is a hang-up |
| PacketLine.PacketReadLine | src/fetch_git.c:49-110 | The data and a terminator end up at the front of the buffer, nothing else in it changes, and a packet that is too long or malformed leaves it untouched |
| PacketLine.PacketLength | src/fetch_git.c:33-47 | The shifting loop computes the value of the header or -1 |
| LineSplitterTheorems.LinesDoNotDependOnReads | src/metadata.c:334-461 | However the file is cut into reads, the parser is given the lines of the whole text up to the first it rejects, and the file is accepted exactly if it rejects none |
| LineSplitterTheorems.ReadErrorEnds | src/metadata.c:426-447 | A read error ends the parse without a result unless a line had been rejected before |
| LineSplitterTheorems.SplitterIsReference | src/metadata.c:334-399 | The buffer, the newline test and the flush together split a text like the reference: one carriage return dropped in front of a newline, empty lines left out |
| LineSplitter.TestInfoParser.FileParseData | src/metadata.c:350-399 | The memchr loop computes what feeding the data character by character does |
| LineSplitter.TestInfoParser.ParseTestInfo | src/metadata.c:401-463 | A file that fstat fails on or that is not a regular one is refused unread; the read loop retries interrupted reads, gives up on errors and flushes the last line |
| SyncServerTheorems.NobodyWaitsForASetEvent | src/cmd_sync.c:74-181 | In every reachable state no waiter is registered for an event that is set, and every connection waits unanswered and open, or was answered once with an event that is set and closed once, or was closed once |
| SyncServerTheorems.FatesAreFinal | src/cmd_sync.c:94-181 | A waiting connection is answered exactly when its event is set and dropped exactly when a PING to it fails; every other fate is final |
| SyncServerTheorems.AcceptedConnection | src/cmd_sync.c:92-121 | A new connection is closed if its message cannot be read, answered once and closed at once if its event has been set, and waits unanswered and open otherwise |
| SyncServerTheorems.EventsAreThoseSet | src/cmd_sync.c:138-160 | After any run the events known are exactly those whose set messages could be read |
| SyncServerTheorems.SetAnswersItsWaiters | src/cmd_sync.c:138-181 | Setting an event answers, closes and forgets exactly the connections that wait for it |
| SyncServerTheorems.ServerKeepsValid | src/cmd_sync.c:74-181 | Every run keeps the invariant, and the set of events only grows |
| SyncServer.SyncData.HandleRconn | src/cmd_sync.c:74-125 | handle_rconn with its PING loop, its removal loop and its list |
| SyncServer.SyncData.HandleLconn | src/cmd_sync.c:138-181 | handle_lconn with its send loop and its removal loop |
| ReconnectTheorems.NeverExecutedAgain | src/recipe.c:313-325 | Over any run of disconnects and reconnects, with every connection running the task state machine, a task whose Completed or Aborted status has reached the client is never executed again and keeps such a status |
| ReconnectTheorems.RetriesAreBounded | src/client.c:323-355 | Without a dispatched message the client reconnects at most as often as it has retries left, and counts every time |
| ReconnectTheorems.BrokenConnection | src/client.c:323-355 | A connection that breaks is tried again, with every status kept and one retry counted, if and only if the client has started, some task of the recipe is neither Completed nor Aborted, it is not cancelled and a retry is left; otherwise the recipe is over, New and Running tasks become Aborted and the other statuses stay |
| ReconnectTheorems.SurvivesItsBreaks | src/client.c:323-355 | Over any run a recipe that is not cancelled and has an unfinished task survives every break of a started client, unless more connections break than there are retries without a message in between |
| ReconnectTheorems.StartedByAMessage | src/client.c:463-483 | The client has started exactly once a status or another message that starts it has come in |
| ReconnectTheorems.CancelEndsRetries | src/client.c:333-335 | A recipe can be cancelled at any time, and its next break is then its last |
| ReconnectTheorems.ConnectionIsARecipeRun | src/client.c:1028-1063 | While a connection is up the remote recipe runs the task state machine, step by step, and what counts as executed is what that has run |
| ReconnectTheorems.ReconnectSkipsFinished | src/recipe.c:313-325 | A new connection runs the recipe from its first task and takes exactly the Completed, Aborted and Cancelled tasks for finished |
| ReconnectTheorems.ClientKnowsWhatItHeard | src/client.c:463-510 | Over any run the client's status of a task is what the last message for it said, Completed for Completed and Aborted for Aborted, or what the job said; only a recipe that is given up turns New and Running into Aborted |
| ReconnectTheorems.FinishedRecipesQuit | src/client.c:994-1026 | For any client before its first connections: in every run that finishes all recipes the loop has been told to quit and every task is terminal, if and only if no task of the job starts with a status outside New, Running, Completed and Aborted |
| ReconnectTheorems.QuitsOnceStuckOnesReport | src/client.c:994-1026 | Run by run: once all recipes have finished, the loop has been told to quit exactly if a status has arrived for every task that started with such a status |
| ReconnectTheorems.StuckNeverQuits | src/client.c:323-355 | The run in which every first connection breaks before a message finishes all recipes, and with such a status, as a Cancelled one, the loop is not told to quit |
| ReconnectTheorems.StuckUntilAStatusArrives | src/client.c:994-1026 | Over a run such a status stays exactly until a status for its task arrives, and none comes up |
| ReconnectTheorems.CancelledNeedsUnreadable | src/recipe.c:313-325 | A status arrives for a task whose status is Cancelled only from a session that could not read the task's config section |
| Reconnect.ClientAppData.RemoteProcessFinish | src/client.c:323-355 | A broken connection is tried again exactly if the run has started, is neither finished nor cancelled, and has retries left; otherwise the recipe is settled. The invariant of the client is kept |
| Reconnect.ClientAppData.RecipeFinish | src/client.c:994-1026 | New and Running tasks become Aborted, and the loop is told to quit exactly if every task of the job is terminal |
| Reconnect.ClientAppData.TasksFinished | src/client.c:189-207 | The loop finds out whether every status is Completed or Aborted |

## Left out

What a contract leaves out:

- TaskRunner.AppData.Abort: abort requests are modelled while a task is current; a request that arrives behind the last task dereferences a null list in `src/server.c:288`.
- TaskRunner.AppData.constructor: a recipe starts where RECIPE_RUN has parsed it and added the task handler; fetching and parsing the recipe itself, and RECIPE_RUNNING, which does nothing, are not modelled.
- TaskRunnerTheorems.RecipeTerminates: waits for a healthy recipe are steps that change nothing and are not counted, since nothing in the code bounds them.
- Watchdog.TaskWatchdog.TimeoutCallback: it is the callback while the child is alive and the kill succeeds; a dead child and a kill that fails are branches of Process.ProcessData.TimeoutCallback.
- TaskRunnerRestarts.SectionsTellThePast: restarts come between handler steps, and writes to the config file succeed; a daemon that stops inside a step is not modelled.
- WatchdogTheorems.LastAdjustmentWins: decoding the request is not modelled; one without seconds is an adjustment to 0, and one for a task with `no_localwatchdog`, which is ignored, is no event.
- WatchdogTheorems.BudgetSurvivesRestarts: restarts come between handler steps; one between the two config writes of TASK_RUN is not modelled.
- LogSender.Task.ConnectionsWrite: the write of the offset to the config file always succeeds; after one that fails, a restart would send later data over earlier data.
- LogSender.LogFile.UploadLog: the same holds of the offset of a log file.
- LogReceiver.RunDirectory.TasksLogsCb: truncate, lseek and write succeed for offsets that are not negative, and the log entries recorded in the job's XML are not modelled.
- UploadTheorems.UploadReplacesTheFile: a read returns at least one byte while the file lasts; upload_file would loop for ever over a file that shrinks.
- PacketLine.PacketReadLine: errors of the stream itself, which end the call like a hang-up, are not told apart from one.
- SyncServer.SyncData.HandleRconn: sockets are numbered and not reused, and one recv yields one whole message.
- ReconnectTheorems.NeverExecutedAgain: recipes have at least one task, and the statuses of a connection arrive in the order in which they were posted until it breaks.

What is not modelled at all:

- The git and http fetchers, curl, libarchive, libxml2, json-c, base64, sockets and TLS: each is an answer that an event delivers. Fetches always answer later; metadata and the resolver may answer at once.
- The default branch of the resolver's fetch method: its enumeration has only the two members.
- g_build_filename, which makes a path of a repository's name, is a parameter; two names may share a path.
- The conversion functions of GLib and libsoup (g_ascii_strtoull, the printing of a range) follow their documentation; their sources are not part of this model.
- fork, exec, ptys and signals, real clocks and file permissions.
- The `rstrnt-*` front ends, option parsing, environment files, templates and HTML output.
- build_env and the variables it makes: uniqueness holds only under side conditions and would add little.
- Freeing memory and GLib reference counts, apart from the descriptors and timers of a process.
- The client's own retry loop of `rstrnt-sync block` and the framing of its TCP stream.
- The result records, scores and messages that the client keeps in the job's XML.
