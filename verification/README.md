# Goma client: the compile race, the scheduler and the compiler info cache

A Dafny model of the client side of Goma, a distributed compile proxy. It covers the
parts whose correctness spans many handlers, threads or structures, and proves what
they promise over every run.

**One compile task** (`TaskMachine`, `TaskInvariant`, `TaskProgress`, `TaskRuns`,
`TaskConflicts`, `TaskTable`, `TaskFollows`, `TaskAnswers`, `CompileTask`). A request from gomacc is answered by a race between a
remote pipeline (SETUP, FILE_REQ, CALL_EXEC, FILE_RESP, with three retry sites) and a
local subprocess, under cancellation, a delayed set-up of the subprocess, and an upload
of local outputs. Each handler of the source is a function on the fields that decide
control flow; what it learns from outside is an `Oracle`, so a statement for all oracles
covers every outcome of network, file system, timers and processes. A CHECK or DCHECK
that fails clears `ok` and ends the process. The invariant holds for exactly the
configurations in which the source's CHECKs agree with each other; for the others a
failing run is given. A decision table, written without the handlers, says what every event
decides and what is seen of it; the handlers are proved to follow it, and who answers gomacc,
when, with what and with which outputs is read off it over whole runs. The same handlers are also methods of a class with the source's
fields, proved equal to the functions.

**The link queue** (`LinkQueue`, `LinkRuns`). Any number of those machines composed over
the one queue that lets linking tasks read their inputs in turn, up to the theorem that
every execution ends with all of them done.

**The service** (`Scheduler`, `LongTasks`, `CompileService`, `FailFallback`,
`SingleFlight`, `OutputBuffers`). Admission under a throttle, histories and reference
counts, the heap of slowest tasks, the limiter on fail fallbacks, single flight of
compiler info, and the allocator of output buffers with size_t arithmetic.

**Compiler info** (`CompilerInfoStates`, `CompilerInfoCache`, `CompilerInfoCacheObject`,
`CompilerInfoTable`). Shared states under reference counting, disabling, eviction, and
the round trip through the persistent table.

**The whole** (`CompilerProxy`, `ProxyRuns`, `ProxyBooks`, `FallbackLeak`). Compile tasks, link
queue, scheduler and limiter composed: a handler that reaches Done or asks for a fail fallback moves the service with
it. In every execution every request is answered exactly once and the service comes to
rest, with exactly the failed and the fallen-back requests on its books as failures.

**Two self-contained algorithms** (`ShrinkExecReq`, `Base64`). `Sorting` and `Basics` hold what
several modules use.

Where an expected property does not hold of the code, the code is kept, a concrete run
shows the failure, and the exact condition under which it holds is proved:

- the gch hack loses a compile task whose setup fell back, and heavy tasks that may run
  locally break CHECKs under verify_output or without fallback
  (`TaskConflicts.InOrderExactlyWhenConsistent`);
- a fail fallback that completes canceled never gives its place back
  (`FailFallback.CounterIs`, and `FallbackLeak.CanceledRequestLeaks` for a whole request);
- a buffer emptied by a failed download is forgotten but still counted, and a buffer whose
  content has another length than was acquired unbalances the account
  (`OutputBuffers.BalancedExactlyWhenFaithful`);
- a remote answer with exit status 0 need not come from a remote compile: where gomacc left during
  set-up, it may be that of a copied header or of a local run; where gomacc stayed, it always is one
  or a cache hit (`TaskAnswers.CanceledClaimsSuccess`, `TaskAnswers.SuccessIsEarned`);
- storing the same content again under the same key violates a DCHECK on the reference
  count (`CompilerInfoCache.StoreChecks`, and `CompilerInfoCache.SecondStoreFailsCheck` for a run);
- unmarshalling onto keys that are already bound takes references nobody returns
  (`CompilerInfoTable.LoadExactly`).

Conventions of the model:

- Work posted to another thread is an event that may be delivered at any later time, in
  any order. A batch with no file task calls back at once in the source; here it may also
  do so later, which only adds interleavings.
- Critical sections are atomic steps. `param->state.reset(Lookup(...))` and
  `param->state.reset(Store(...))` count as one step.
- Fields named as observers (`log`, `hist`, `ended`, `granted`, `calls`, `samples`, `refused`, ...)
  record the run for the statements and influence nothing.
- "No CHECK fails" is about the CHECKs and DCHECKs on `state_`, `abort_`, `finished_`, the reply,
  `subproc_`, `delayed_setup_subproc_`, the callbacks and their task counts, the fallback flags
  and the link queue. The others are listed under "Left out".
- Data without a language extension never get into a compiler info state: the source ends the
  process (client/compiler_info_state.cc:37), so Store takes only data that have one.
- Limits are fixed during a run. `max_long_tasks_` is at least 1; the source reads
  `long_tasks_[0]` of an empty vector otherwise.
- `std::push_heap`, `std::pop_heap` and the sorts of the C++ library are written out; the
  theorems about long_tasks_ hold for any heap the library may leave.
- HashKey is a parameter. Only the statements about the persistent table assume that it
  tells contents apart.

## Model

| member | source | states |
|---|---|---|
| `CompileTaskObject.CompileTask.constructor` | client/compile_task.cc:350-370 | A new compile task of a consistent configuration satisfies the invariant from which every handler is safe, and the only event it takes is its start. |
| `CompileTaskObject.CompileTask.Handle` | client/compile_task.cc:372-4517 | Taking any enabled event, with any outcome of everything outside, moves the object as the machine steps, keeps the invariant, and fails no CHECK of any handler on the way. |
| `CompileTaskObject.CompileTask.Start` | client/compile_task.cc:372-593 | A new request is refused at once, begins with the local compiler alone (to compare, forced, or ramped down), or begins with the remote side and the local one beside it now, later or never; each exactly when options and outcomes call for it, and with the result and flags stated. From a state in order it leaves the object in order, no CHECK failing. |
| `CompileTaskObject.CompileTask.ProcessSetup` | client/compile_task.cc:653-667 | Its CHECKs hold exactly in INIT without abort or forced fallback; then either compiler info is asked for in SETUP, or a subprocess exists, nothing compares outputs, and it has the field in LOCAL_RUN; subprocess, response and record stay. After the local run of a verifying request it leaves the object in order. |
| `CompileTaskObject.CompileTask.TryProcessFileRequest` | client/compile_task.cc:669-682 | A linking task that is not the front waits in the queue; any other follows the table of ProcessFileRequest. From a state in order it leaves the object in order, no CHECK failing. |
| `CompileTaskObject.CompileTask.ProcessFileRequest` | client/compile_task.cc:684-853 | Ends exactly when stopped, gives way exactly when outrun by the subprocess, and otherwise waits for the inputs it sends. From a state in order it leaves the object in order, no CHECK failing. |
| `CompileTaskObject.CompileTask.ProcessFileRequestDone` | client/compile_task.cc:898-1005 | Follows the table for inputs: end, yield to the subprocess, retry within the budget of four, use the local cache as a success, or call Exec, each under a condition on flags and outcomes alone. From a state in order it leaves the object in order, no CHECK failing. |
| `CompileTaskObject.CompileTask.LeaveLinkQueue` | client/compile_task.cc:1007-1028 | The DCHECK on the front holds exactly when a linking task has one push more than pops; one pop for linking tasks, none for others; a handler at work in the queue is afterwards one at work outside it. |
| `CompileTaskObject.CompileTask.ProcessCallExec` | client/compile_task.cc:1030-1084 | Ends exactly when stopped, gives way exactly when outrun, and otherwise makes one more Exec call, with a subprocess beside it exactly for a heavy compile task that may run locally. From a state in order it leaves the object in order, no CHECK failing. |
| `CompileTaskObject.CompileTask.ProcessCallExecDone` | client/compile_task.cc:1086-1272 | Follows the table for Exec responses: the result is the server's exit status, less what an rpc error, a rejection, a spec mismatch, missing inputs or a lost gomacc take from it; and the pipeline ends, yields, retries or downloads exactly as these outcomes say. From a state in order it leaves the object in order, no CHECK failing. |
| `CompileTaskObject.CompileTask.ProcessFileResponse` | client/compile_task.cc:1274-1459 | Follows the table for file responses: end, yield, retry for missing inputs, give up a lost gomacc as a failure, or download, to final names exactly for a success without subprocess. From a state in order it leaves the object in order, no CHECK failing. |
| `CompileTaskObject.CompileTask.ProcessFileResponseDone` | client/compile_task.cc:1461-1576 | Follows the table for outputs: a complete download ends the pipeline with its result, less a failed comparison; a failed one yields, ends as a failure, or is retried within the budget. From a state in order it leaves the object in order, no CHECK failing. |
| `CompileTaskObject.CompileTask.ProcessFinished` | client/compile_task.cc:1578-1710 | What was answered first stands; a comparison reports; a failure falls back exactly when fallback is wanted and gomacc is found alive; otherwise the remote result is answered, at once or when the killed subprocess is gone. From a state in order it leaves the object in order, no CHECK failing. |
| `CompileTaskObject.CompileTask.ProcessReply` | client/compile_task.cc:1712-1759 | One answer, the remote result, and with it Done; outputs are committed exactly for a gomacc that is connected and found alive, and the remote ones exactly unless a local run was left to finish. From a state in order it leaves the object in order, no CHECK failing. |
| `CompileTaskObject.CompileTask.CommitOutput` | client/compile_task.cc:1977-2117 | The CHECKs hold exactly in FINISHED without abort, subprocess or delayed set-up; one more commit, remote or not as asked, no output file left to clear, answer and race untouched; and a compile task that has ended may then reply. |
| `CompileTaskObject.CompileTask.ReplyResponse` | client/compile_task.cc:2130-2235 | From a state that may reply no CHECK fails; a second reply, or one beside a subprocess, always fails one. There is one more answer, gomacc is owed none, and Done comes with it exactly when the compile task has finished and no upload is under way. |
| `CompileTaskObject.CompileTask.ProcessLocalFileOutput` | client/compile_task.cc:2237-2297 | No CHECK fails exactly when no batch is under way; a batch is begun exactly where the service stores outputs, and nothing else changes. After a local run it leaves a state in which the local result may be replied. |
| `CompileTaskObject.CompileTask.ProcessLocalFileOutputDone` | client/compile_task.cc:2299-2312 | Done comes exactly when the compile task has finished, and the object is left in order. |
| `CompileTaskObject.CompileTask.DoDone` | client/compile_task.cc:2314-2344 | The CHECKs hold exactly when gomacc has its answer, the phase is final or aborted, and no subprocess or callback is left; the output files are cleared, and from then on no event is enabled. |
| `CompileTaskObject.CompileTask.FillCompilerInfoDone` | client/compile_task.cc:2699-2785 | Follows the table for compiler info: wait for the include processor, go on, run the local compiler instead, or end as a failure, each under a condition on flags and outcomes alone. From a state in order it leaves the object in order, no CHECK failing. |
| `CompileTaskObject.CompileTask.UpdateRequiredFilesDone` | client/compile_task.cc:2796-2860 | Follows the table for required files: unless stopped, go on if they are known or the command is being verified, and run the local compiler instead otherwise. From a state in order it leaves the object in order, no CHECK failing. |
| `CompileTaskObject.CompileTask.SetupRequestDone` | client/compile_task.cc:2862-2893 | Follows the table for the end of set-up: end if stopped, go on if done, run the local compiler if forced, else end as a failure. From a state in order it leaves the object in order, no CHECK failing. |
| `CompileTaskObject.CompileTask.RunIncludeProcessorDone` | client/compile_task.cc:3417-3474 | Follows the table for the include processor: an error costs the success unless the run was skipped; then as for required files. From a state in order it leaves the object in order, no CHECK failing. |
| `CompileTaskObject.CompileTask.InputStep` | client/compile_task.cc:3494-3554 | One input file reports: while others run, the batch is one shorter and good only if all were, and phase, race and record stay; with the last one the queue place is given up and the file request ends in one of the ways the pipeline allows. The object is left in order. |
| `CompileTaskObject.CompileTask.CheckCommandSpec` | client/compile_task.cc:3559-3864 | The CHECK holds exactly in CALL_EXEC; a mismatch costs the success and, where the check rules it out, the fallback, anything else costs nothing; a pipeline handler at work stays one. |
| `CompileTaskObject.CompileTask.OutputStep` | client/compile_task.cc:3938-4009 | One output file reports: while others run, the batch is one shorter and good only if all were, and phase, race and record stay; with the last one the pipeline ends or retries within its budget. The object is left in order. |
| `CompileTaskObject.CompileTask.UploadStep` | client/compile_task.cc:4108-4144 | One upload reports: the batch is one shorter, or with the last one gone, and then Done comes exactly if the compile task has finished; nothing else changes. From a state in order it leaves the object in order, no CHECK failing. |
| `CompileTaskObject.CompileTask.SetupSubProcess` | client/compile_task.cc:4207-4281 | The CHECK holds exactly if there was no subprocess; one exists from here on, no delayed set-up is left, and nothing else changes. From a state in order it leaves the object in order, no CHECK failing. |
| `CompileTaskObject.CompileTask.RunLocal` | client/compile_task.cc:1705-1709 | Afterwards a subprocess exists, set up at most once, and a CHECK failed only under abort; pipeline, response and record stay. After a failed remote compile that may fall back it leaves the object in order. |
| `CompileTaskObject.CompileTask.KillSubProcess` | client/compile_task.cc:4296-4319 | The subprocess stays until FinishSubProcess; only the mark of the kill changes, to what the kill reports, and an object in order stays so. |
| `CompileTaskObject.CompileTask.FinishSubProcess` | client/compile_task.cc:4321-4517 | The answer is exactly the one due: the remote result if the remote side is through, none yet before a comparison, a setup fallback, a fail fallback or a local run always, and against a remote side at work unless the compiler could not be run or ended with a negative status. A local answer carries the exit status; outputs are uploaded exactly if useful and stored; Done comes exactly if nothing is left. From a state in order it leaves the object in order, no CHECK failing. |
| `CompileTaskObject.CompileTask.GomaccClosed` | client/compile_task.cc:635-646 | Only cancellation, the loss of gomacc and the mark of a kill are recorded, the last exactly if there is a subprocess. From a state in order it leaves the object in order, no CHECK failing. |
| `TaskInvariant.StepKeeps` | client/compile_task.cc:372-4517 | Every handler, in every state the invariant allows and with every outcome, leaves the invariant: who may be outstanding in which phase, where a subprocess may exist, one reply, one Done. |
| `TaskRuns.AnsweredOnce` | client/compile_task.cc:2130-2344 | In every run of a consistent configuration no CHECK fails, gomacc is answered at most once, Done comes at most once, only after the answer, exactly when finished without upload, and with nothing outstanding; its phase then satisfies the CHECK of CompileTaskDone. |
| `TaskRuns.NeverLost` | client/compile_task.cc:1637-1645 | Before Done something can always move the compile task: LOCAL_RUN, fallback INIT and unanswered FINISHED have a live subprocess, answered-but-not-done has an upload or a remote event, and finished_ leaves no remote event. |
| `TaskRuns.OutputsDoNotMix` | client/compile_task.cc:1343-1459 | At most one commit, only for an answer with the remote result, none after abort or LOCAL_FINISHED; final file names are written only while no subprocess exists or is due. |
| `TaskRuns.RetriesShareBudget` | client/compile_task.cc:945-968 | The three retry sites together never count past five, which ends the pipeline, and Exec is called at most five times. |
| `TaskProgress.RemoteStepMoves` | client/compile_task.cc:669-1576 | What one remote event may do to the pipeline: its continuation, retry count, Exec calls, and the exact pattern of queue pushes and pops, against an independent transition relation. |
| `TaskRuns.StepDescends` | client/compile_task.cc:945-1546 | Every event descends a lexicographic order: set-up ahead, retries left, weight of the continuation, file tasks to report, delayed set-up, subprocess, uploads, close. |
| `TaskRuns.EveryExecutionEnds` | client/compile_task.cc:372-4517 | Every execution that does not withhold all outstanding events reaches Done with exactly one answer and no failed CHECK. |
| `TaskConflicts.GchLosesTask` | client/compile_task.cc:4451-4456 | Where the gch hack meets a setup fallback, a run ends with nobody left to answer. |
| `TaskConflicts.HeavyFailsCheck` | client/compile_task.cc:1077-1083 | A heavy compile task that may run locally, under verify_output or without fallback, fails a CHECK in some run. |
| `TaskConflicts.InOrderExactlyWhenConsistent` | client/compile_task.cc:1578-1710 | CHECKs hold and nothing is lost in every run if and only if the configuration shows neither conflict. |
| `TaskFollows.RemoteTable` | client/compile_task.cc:653-1710 | Every remote event takes the course that one decision table gives from flags and outcomes alone: the next continuation, yielding, diverting or ending, and the result, fallback wish, retry count, Exec calls, subprocess, downloads, answer and commits seen afterwards. |
| `TaskFollows.SubprocTable` | client/compile_task.cc:4321-4517 | The end of the subprocess, in every state in order: answer, result, commits, uploads, phase, abort and Done, each as a condition on flags and exit status alone. |
| `TaskFollows.StartTable` | client/compile_task.cc:372-593 | The beginning of a request, for every consistent configuration and every outcome. |
| `TaskAnswers.AnswerTellsWho` | client/compile_task.cc:1712-2235 | In every run each event brings exactly the answer that its outcome calls for, and none where none is due; once given it stands; outputs are committed with it exactly if it carries the remote result to a gomacc that is still there. |
| `TaskAnswers.LocalAnswerCarries` | client/compile_task.cc:4336-4513 | In every run, when the subprocess ends: a setup fallback, fail fallback or LOCAL_RUN is answered whatever the exit status; a remote side at work is left to answer exactly if the compiler could not be run, or ran, was not killed, and ended with a negative status; a local answer succeeds if and only if the exit status is 0. |
| `TaskAnswers.FallsBackOnFailure` | client/compile_task.cc:1646-1710 | In every run fail_fallback_ is set only when the remote side ends in a failure that may be made good with gomacc alive, and always then; so no successful remote result is replaced and no such failure is passed on untried. |
| `TaskAnswers.CommitsRemote` | client/compile_task.cc:1720-1737 | In every run there is at most one commit, only with the remote result, and it is the remote output if and only if no local run was left to finish. |
| `TaskAnswers.ExecStatusCounts` | client/compile_task.cc:1086-1272 | In every run the result after an Exec response is a success only if the server's exit status was 0, and exactly then where no stop, rpc error, server error, missing input, spec mismatch or lost gomacc intervenes. |
| `TaskAnswers.SuccessIsNeverMadeUp` | client/compile_task.cc:4537-4563 | In every run, at every moment, exit status 0 goes back to the last result from outside: an Exec response, a hit in the local output cache, the local compiler, or a header copied for precompilation; an empty response is no success. |
| `TaskAnswers.SuccessIsEarned` | client/compile_task.cc:1086-1272 | In every run in which gomacc stayed, a success told in the name of the remote side goes back to a last Exec response with exit status 0 or a hit in the local output cache. |
| `TaskAnswers.CanceledClaimsSuccess` | client/compile_task.cc:2862-2872 | In every consistent configuration, a run in which gomacc leaves during set-up and the compile task closes, in the name of the remote side, with the success of a copied header or a local run. |
| `TaskAnswers.DownloadedIsUsed` | client/compile_task.cc:1506-1710 | In every run a complete download without comparison ends the pipeline with its own status; a failure calls in the local compiler exactly where allowed, a running subprocess is killed, and otherwise the answer comes at once, with the remote outputs committed for a live gomacc. |
| `TaskAnswers.RetriesWhilePaid` | client/compile_task.cc:945-1546 | In every run, without a subprocess, a failure that may pass is counted, retried exactly while fewer than four were, and ends the pipeline otherwise. |
| `LinkQueue.LinkFileReqTasks.Join` | client/compile_task.cc:669-682 | push_back, and whether the caller is the front. |
| `LinkQueue.LinkFileReqTasks.Leave` | client/compile_task.cc:1015-1027 | pop_front, and the one next compile task to wake. |
| `LinkQueue.PopKeeps` | client/compile_task.cc:1013-1027 | Whoever holds the section is the front, so the DCHECK holds, and leaving wakes exactly the next in line. |
| `LinkQueue.StepQueues` | client/compile_task.cc:669-1028 | Any handler of any compile task touches the queue only in one pattern: leave if it holds the section, then possibly join, and pass through only when alone. |
| `LinkQueue.SystemStepKeeps` | client/compile_task.cc:669-1028 | Any number of compile tasks over one queue: every handler run keeps all of them and the queue in order. |
| `LinkRuns.OneAtATime` | client/compile_task.cc:684-715 | At most one linking task sends inputs; it is the front of a queue without duplicates, and ProcessFileRequest is posted to the front only. |
| `LinkRuns.FirstComeFirstServed` | client/compile_task.cc:669-682 | Grants are a prefix of arrivals, one per arrival and in order; pushes and pops of each compile task match its presence in the queue. |
| `LinkRuns.NoDeadlock` | client/compile_task.cc:1007-1028 | Unless all compile tasks are done, some event can be taken. |
| `LinkRuns.EveryTaskIsDone` | client/compile_task.cc:669-1028 | Every execution of every finite set of compile tasks over the shared queue ends with each answered once and done, the queue empty, and every arrival granted. |
| `CompileServiceObject.CompileService.Exec` | client/compile_service.cc:283-328 | The new compile task becomes active exactly while a place is free and waits last in line otherwise, with one reference; the lists of completed ones stay. |
| `CompileServiceObject.CompileService.CompileTaskDone` | client/compile_service.cc:339-473 | The whole critical section: the compile task leaves active_tasks_ and the longest waiting take the free places; it heads finished_tasks_, and failed_tasks_ exactly if bad; dropped ones are handed out for deref; the invariant is kept. |
| `CompileServiceObject.CompileService.StartPending` | client/compile_service.cc:349-366 | The loop starts exactly the longest waiting ones that fit. |
| `CompileServiceObject.CompileService.DerefTask` | client/compile_service.cc:470-472 | One deref outside the lock, counts exact. |
| `CompileServiceObject.CompileService.Pin` | client/compile_service.cc:544-552 | A dump takes a reference exactly when the id is in a history list. |
| `CompileServiceObject.CompileService.Unpin` | client/compile_service.cc:553-558 | The dump's reference is returned, counts exact. |
| `CompileServiceObject.CompileService.ClearTasks` | client/compile_service.cc:944-966 | With no work left, every list lets go; without other holders nothing survives. |
| `Scheduler.ApplyKeeps` | client/compile_service.cc:283-559 | Every operation, in any order, keeps throttle, order of starts, histories and reference counts. |
| `Scheduler.StartsInOrder` | client/compile_service.cc:310-366 | Active never exceeds the limit, none waits while a place is free, starts are a prefix of admissions without repetition, num_exec_request_ is active plus completed. |
| `Scheduler.WorkDrains` | client/compile_service.cc:499-515 | With at least one place, unfinished work means an active compile task; each completion removes exactly one; Wait's condition is that all admitted have completed. |
| `Scheduler.HistoryIsRecent` | client/compile_service.cc:367-460 | finished_tasks_ and failed_tasks_ hold the newest, newest first, as many as their limits allow; long_tasks_ is a heap of the slowest. |
| `Scheduler.RefcountsExact` | client/compile_task.cc:330-348 | A reference count is one for pending, active or finished, plus one per failed entry, long entry, deref slot and pin; the compile task exists exactly while it is positive. |
| `LongTasks.PushHeap` | client/compile_service.cc:455-460 | The last element joins the heap; same elements. |
| `LongTasks.PopHeap` | client/compile_service.cc:448-449 | The first element goes last, the rest is a heap; same elements. |
| `LongTasks.Record` | client/compile_service.cc:441-460 | long_tasks_ after one completion, and who is evicted. |
| `LongTasks.RecordsExactly` | client/compile_service.cc:441-460 | A compile task is kept exactly if there is room or it took longer than one that is kept, which then leaves; on a tie the older one stays. |
| `LongTasks.RecordKeepsTop` | client/compile_service.cc:441-460 | The heap holds exactly the max_long_tasks_ largest handler times among all completed, as a multiset. |
| `FailFallback.FailFallbackLimiter.IncrementActiveFailFallbackTasks` | client/compile_service.cc:1716-1752 | Counts the fallback, dates the excess, and decides. |
| `FailFallback.FailFallbackLimiter.TaskDone` | client/compile_service.cc:415-428 | Gives the place back unless canceled; the counter stays non-negative. |
| `FailFallback.CounterIs` | client/compile_service.cc:415-428 | Over all runs the DCHECK holds, the counter is the number falling back plus those lost, and it is exactly the number falling back if and only if no task ever completed canceled during its fallback. |
| `FallbackLeak.CanceledRequestLeaks` | client/compile_service.cc:415-428 | For every configuration that may fall back, a run of the whole in which gomacc leaves during the fallback: the request is answered and done, nothing is active, and the counter stays at one; with a maximum of 0 every later fallback is refused. |
| `FailFallback.CanceledTaskLeaks` | client/compile_service.cc:415-428 | A run in which a canceled fallback makes the limiter refuse although nobody falls back. |
| `FailFallback.RefusedExactly` | client/compile_service.cc:1716-1752 | A fallback is refused if and only if the counter is above a non-negative maximum and has been, without a break, since a fallback at least the allowed duration ago. |
| `SingleFlight.CompilerInfoWaiters.Enlist` | client/compile_service.cc:1139-1158 | First caller for a key, or one more waiter. |
| `SingleFlight.CompilerInfoWaiters.Take` | client/compile_service.cc:1198-1208 | The whole list, and the key is free again. |
| `SingleFlight.ApplyKeeps` | client/compile_service.cc:1129-1233 | Every step of every caller keeps lists, leaders, callbacks and builds in order. |
| `SingleFlight.LandKeeps` | client/compile_service.cc:1198-1208 | The CHECK that the list exists holds whenever a leader comes to take it. |
| `SingleFlight.OneFlightPerKey` | client/compile_service.cc:1129-1233 | A list exists if and only if one caller leads for the key; waiters are on their list once; no callback twice; no key is built twice while nothing goes stale; whoever is answered has a state that was known under its own key. |
| `SingleFlight.LandGives` | client/compile_service.cc:1222-1232 | Every waiter leaves with exactly the state of its leader. |
| `SingleFlight.NobodyIsStuck` | client/compile_service.cc:1215-1232 | Someone unanswered means someone can go on: no waiter is dropped. |
| `SingleFlight.EverybodyIsAnswered` | client/compile_service.cc:1129-1233 | Every fair interleaving with evictions ends with each caller's callback scheduled exactly once. |
| `OutputBuffers.OutputBufferPool.AcquireOutputBuffer` | client/compile_service.cc:1311-1359 | Rejects, refuses or grants, with the sums of size_t. |
| `OutputBuffers.OutputBufferPool.ReleaseOutputBuffer` | client/compile_service.cc:1361-1380 | From a balanced account the account stays balanced if and only if the buffer is as long as when acquired, or longer and the only bytes held; a whole buffer gives back exactly its size, unclamped. |
| `OutputBuffers.OutputBufferPool.ClearOutputFile` | client/compile_task.cc:4074-4091 | Releases every buffer with content and forgets the rest. |
| `OutputBuffers.GuardsAreExact` | client/compile_service.cc:1323-1337 | The wrap-around guards reject exactly what exceeds the limit or would overflow. |
| `OutputBuffers.PoolIsBounded` | client/compile_service.cc:1311-1380 | In every run the current sum is 0 or below the limit and no accepted sum wraps. |
| `OutputBuffers.BalancedExactlyWhenFaithful` | client/compile_service.cc:1361-1380 | The current sum is the total size of held buffers throughout a run if and only if every buffer returned has its acquired length, or grew while nothing else was held. |
| `OutputBuffers.FailedDownloadLeaks` | client/compile_task.cc:4074-4091 | A failed download empties its buffer, clearing skips it, and the bytes count against the limit for ever. |
| `OutputBuffers.WholeDownloadsSettle` | client/compile_service.cc:1311-1380 | With complete downloads both sums are exact, no clamp is taken, and only refused requests stay in the request sum. |
| `OutputBuffers.DoneClears` | client/compile_task.cc:2331-2331 | Done leaves nothing of the compile task in the pool, touches no other buffer, and keeps the balance if its buffers are whole. |
| `CompilerInfoStates.BindExact` | client/compiler_info_cache.cc:221-230 | Binding a key, old or new, keeps every count exact and the new state alive, even when it replaces itself. |
| `CompilerInfoStates.UnbindExact` | client/compiler_info_cache.cc:526-533 | Removing a key keeps every count exact. |
| `CompilerInfoStates.ResetExact` | client/compiler_info_state.cc:159-165 | reset keeps every count exact and its argument alive, also when it is the state already held. |
| `CompilerInfoStates.ScopedCompilerInfoState.Reset` | client/compiler_info_state.cc:159-165 | One hold moves from the old state to the new. |
| `CompilerInfoStates.ScopedCompilerInfoState.Swap` | client/compiler_info_state.cc:167-171 | The two pointers change places. |
| `CompilerInfoStates.ScopedCompilerInfoState.Move` | client/compiler_info_state.h:93-96 | The pointer moves and the source is left empty. |
| `CompilerInfoStates.ScopedCompilerInfoState.Assign` | client/compiler_info_state.h:98-101 | Move assignment swaps. |
| `CompilerInfoCache.StoreExact` | client/compiler_info_cache.cc:171-276 | Fresh, shared or replacing, Store leaves counts exact, the key bound and the result held by the caller. |
| `CompilerInfoCache.StoreShares` | client/compiler_info_cache.cc:171-230 | Equal contents share one state whatever their keys: where the index leads to a usable state the key is bound to it and no state is added, and where it does not, to a new state with the data; every other key keeps its state, every other state its data and flag. |
| `CompilerInfoCache.StoreChecks` | client/compiler_info_cache.cc:250-254 | The DCHECK on a new state's count always holds; on a shared one if and only if it is not the case that the stored key is its only key and nobody holds it. |
| `CompilerInfoCache.SecondStoreFailsCheck` | client/compiler_info_cache.cc:250-251 | Whatever the hash and the key, a run from the empty cache leads to where storing the same content again under the same key finds its state by the hash and fails that DCHECK. |
| `CompilerInfoCache.StoreClosed` | client/compiler_info_cache.cc:262-272 | Store keeps same-compiler states disabled together. |
| `CompilerInfoCache.StoreDisables` | client/compiler_info_cache.cc:262-272 | A new state comes out disabled if and only if its compiler is disabled under another key. |
| `CompilerInfoCache.DisableClosed` | client/compiler_info_cache.cc:278-305 | Disable keeps same-compiler states disabled together. |
| `CompilerInfoCache.CountsStayExact` | client/compiler_info_cache.cc:96-276 | In every run from an orderly cache, counts are keys plus scoped holders, and no operation meets a freed state. |
| `CompilerInfoCache.DisabledTogether` | client/compiler_info_cache.cc:262-305 | In every run, cached states of one compiler are all disabled or all enabled. |
| `CompilerInfoCache.NeverEnabled` | client/compiler_info_state.cc:94-101 | A disabled state stays disabled while it exists. |
| `CompilerInfoCacheObject.CompilerInfoCache.Store` | client/compiler_info_cache.cc:171-276 | The key is bound to the state of another key with the same content hash exactly if that one is still valid and free of old errors, and then no state is added; otherwise to a new state with the data and a count of 2. Other keys and states stay; the invariant is kept. |
| `CompilerInfoCacheObject.CompilerInfoCache.InheritDisabled` | client/compiler_info_cache.cc:262-272 | The loop disables the state if and only if some entry is disabled for the same compiler. |
| `CompilerInfoCacheObject.CompilerInfoCache.Index` | client/compiler_info_cache.cc:231-249 | The key is found under its new hash, unless that is its old one as well; under its old hash it is found no more, and no empty set is left there; what other keys and other hashes have stays. |
| `CompilerInfoCacheObject.CompilerInfoCache.Disable` | client/compiler_info_cache.cc:278-305 | Whatever the order of the loop, a state is disabled afterwards exactly if it was, is the given one, or is cached for the same compiler; data, keys and counts stay. |
| `CompilerInfoCacheObject.CompilerInfoCache.UpdateOlderCompilerInfo` | client/compiler_info_cache.cc:485-534 | Exactly the outdated keys go, survivors keep compiler and flag, counts stay exact. |
| `CompilerInfoCacheObject.CompilerInfoCache.Clear` | client/compiler_info_cache.cc:96-102 | All keys go; without scoped holders no state survives. |
| `CompilerInfoCacheObject.CompilerInfoCache.Unmarshal` | client/compiler_info_cache.cc:541-570 | A row leaves a state exactly if it has a language extension, is found, free of errors and has a key: its data, enabled, one reference per key; the states that were there stay as they were. |
| `CompilerInfoCacheObject.CompilerInfoCache.LoadState` | client/compiler_info_cache.cc:561-566 | One new state with one reference per key of the row, bound where the key was free. |
| `CompilerInfoTable.Collect` | client/compiler_info_cache.cc:615-639 | One row per content, with exactly the enabled, found, error-free keys of that content. |
| `CompilerInfoTable.LimitTableEntries` | client/compiler_info_cache.cc:603-613 | Sorted by last use, cut off at the limit, nothing lost but the tail. |
| `CompilerInfoTable.Marshal` | client/compiler_info_cache.cc:615-643 | Kept and dropped rows make up the whole table, most recently used kept. |
| `CompilerInfoTable.LoadExactly` | client/compiler_info_cache.cc:561-566 | Loading a row keeps counts exact if and only if none of its keys was bound. |
| `CompilerInfoTable.DroppedIsOlder` | client/compiler_info_cache.cc:603-613 | A dropped content found the table full of contents used no less recently. |
| `CompilerInfoTable.RoundTrip` | client/compiler_info_cache.cc:541-643 | For every cache that a run can reach, Marshal then Unmarshal into an empty cache binds exactly the kept keys to their data, shares states exactly for equal data, all enabled, with an exact index. |
| `CompilerInfoTable.RestoredInv` | client/compiler_info_cache.cc:541-570 | A cache read back satisfies the invariant from which all runs are safe. |
| `CompilerProxy.WorkKeeps` | client/compile_task.cc:1578-2344 | One handler of one compile task moves queue, service and limiter with it and keeps all of them in order: active_tasks_, the fallbacks counted and the places lost are those of the compile tasks themselves. |
| `CompilerProxy.FallbackStays` | client/compile_task.cc:1671-1678 | fail_fallback_ is never taken back. |
| `CompilerProxy.ServiceKnowsTasks` | client/compile_service.cc:283-473 | In every run of the whole, active_tasks_ are exactly the started compile tasks that are not done, CompileTaskDone comes only for one of them, and the limiter counts exactly the unfinished ones with fail_fallback_ plus those that completed with it canceled. |
| `ProxyBooks.FailuresAreFiled` | client/compile_service.cc:367-435 | In every run of the whole, CompileTaskDone has come once for each compile task that is done; filed as failures are exactly those that failed or fell back and were not canceled, each once, in order of completion; failed_tasks_ holds the newest of these and finished_tasks_ the newest of all. |
| `ProxyRuns.NothingHangs` | client/compile_service.cc:310-366 | With at least one place and all requests admitted, unfinished work always leaves a handler to run: throttle, queue and race never block each other. |
| `ProxyRuns.EveryRequestIsAnswered` | client/compile_service.cc:283-473 | In every execution of the whole, every request is answered exactly once, its compile task is done and completed once, and the service comes to rest with nothing active, pending, queued or falling back. |
| `ShrinkExecReq.ExecReq.ShrinkExecReq` | client/compile_task.cc:858-894 | For any shuffle: sorted by name, contents dropped as specified, and the number dropped. |
| `ShrinkExecReq.DroppedInputs` | client/compile_task.cc:869-887 | Only embedded contents are cleared, everything else stays, and the count is the number of inputs changed. |
| `ShrinkExecReq.DroppedExactly` | client/compile_task.cc:869-887 | An input is cleared if and only if it is embedded and the contents before it in the shuffle add up to 1 MiB or more. |
| `ShrinkExecReq.ShrinksEnough` | client/compile_task.cc:858-894 | What stays embedded is below 1 MiB plus the largest content, at least 1 MiB if anything was dropped, and a smaller request is only sorted. |
| `ShrinkExecReq.SortByName` | client/compile_task.cc:889-892 | Sorted by file name, same inputs. |
| `Base64.Base64UrlEncode` | client/base64.cc:20-67 | The loop and the tail switch produce the specified encoding. |
| `Base64.DecodesExactly` | client/base64.cc:20-67 | A text decodes to s if and only if it is the encoding of s, padded or not. |
| `Base64.EncodesExactly` | client/base64.cc:20-67 | Decoding inverts encoding, lengths are 4*ceil(n/3) and ceil(4n/3), and no two byte strings share an encoding. |

## Left out

- HTTP, RPC, subprocess control, worker threads and file tasks: they appear as events and outcomes only.
- Changing limits during a run (SetActiveTaskThrottle, SetCompileTaskHistorySize, SetMaxSumOutputSize).
- The content of requests and responses, error messages, statistics, JSON dumps and histograms.
- CheckCommandSpec: its messages and the comparison of command specs; only the effect on success and fallback is modelled.
- ProcessCallExec: the CHECK that a request without verify_command has inputs (client/compile_task.cc:1042), because the inputs of the request are not modelled.
- SetupSubProcess: the CHECKs that the command spec names a local compiler and that there is an input (client/compile_task.cc:4214 and 4240), because the request is not modelled.
- TaskRuns.AnsweredOnce: the CHECKs on threads (BelongsToCurrentThread), on pointers and on file hashes and indices are not among those proved never to fail.
- CommitOutput: writing, renaming and removing files, and COFF timestamps; only the number and kind of commits is modelled.
- Key::ToString and the choice between the absolute and the cwd-relative key text: the text under which Store binds, and the key that Lookup tries, are inputs.
- SingleFlight: which of a leader's waiters is called back first; any order is allowed, the source's order being one of them.
- Scheduler: the order in which Start closures of concurrently completing tasks are posted after mu_ is released; `started` records the order under the lock.
- ClearTasks while compile tasks are active: the source calls it only after Wait.
- CompilerInfoCache.LookupUnlocked: the validator, its file stats and hashes are one boolean outcome per call.
- Base64UrlEncode: byte strings longer than INT_MAX, where the source's cast to int changes the length.
- Cache files on disk, the file system, the include processor, compiler flag parsing and the other client components.
- ProxyBooks.FailuresAreFiled: failed() of a completed compile task is an outcome that an observer notes; the exit status in its statistics is not modelled.
