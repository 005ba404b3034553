/**
 The life of one compile task (client/compile_task.cc): a remote pipeline and a
 local subprocess race to answer one gomacc request.

 `Task` holds the fields of the C++ object that decide control flow. Every handler
 that runs on the task's thread is a function from a `Task` to the `Task` it leaves
 behind; whatever the handler learns from outside (file system, network, timers,
 exit codes, pids) is a field of `Oracle`, so quantifying over oracles covers every
 outcome. A `CHECK` or `DCHECK` of the source becomes `Check`, which clears `ok`;
 a task whose `ok` is false stands for an aborted process and takes no more events.

 Work the source posts to another thread, or starts asynchronously, is recorded in
 `remote`, `subproc`, `delayed` and `upload.cb`; the environment delivers it later,
 in any order, as an `Event`.
 */
module TaskMachine {

  const MaxExecRetry := 4
  const InternalError := -257

  datatype Phase =
    | Init | Setup | FileReq | CallExec | LocalOutput | FileResp
    | Finished | LocalRun | LocalFinished

  function Rank(p: Phase): nat {
    match p
    case Init => 0
    case Setup => 1
    case FileReq => 2
    case CallExec => 3
    case LocalOutput => 4
    case FileResp => 5
    case Finished => 6
    case LocalRun => 7
    case LocalFinished => 8
  }

  /** The one outstanding continuation of the remote pipeline, if any. */
  datatype Remote =
    | Idle
    | AwaitInfo        // FillCompilerInfoDone
    | AwaitInclude     // RunIncludeProcessorDone
    | AwaitLink        // queued behind another linking task
    | AwaitFileRetry   // TryProcessFileRequest posted by the retry in FILE_REQ
    | AwaitInputs      // input file tasks are running
    | AwaitExecRetry   // ProcessCallExec posted by the retry in CALL_EXEC
    | AwaitExec        // ProcessCallExecDone
    | AwaitOutputs     // output file tasks are running

  /** Why the task answered gomacc. */
  datatype Answer =
    | Unanswered
    | InitFailure     // the request could not even be started
    | Verified        // verify_output: local ran first, remote result compared
    | RemoteResult    // ProcessReply
    | SetupFallback   // should_fallback_: LOCAL_FINISHED
    | FailFallback    // remote failed, local result used
    | LocalOnly       // LOCAL_RUN: LOCAL_FINISHED
    | LocalFirst      // abort_: local finished before remote

  /** Request options and service settings that stay fixed during the task. */
  datatype Config = Config(
    verify: bool,           // requester_env_.verify_output()
    verifyCommand: bool,    // requester_env_.verify_command() is not empty
    fallback: bool,         // requester_env_.fallback()
    useLocal: bool,         // requester_env_.use_local()
    heavy: bool,            // GetTaskWeight() is HEAVY_WEIGHT
    linking: bool,          // flags_->is_linking()
    gch: bool,              // precompiling a header with the gch hack enabled
    failFast: bool,         // service_->fail_fast()
    storeOutput: bool,      // service_->store_local_run_output()
    dontKill: bool,         // service_->dont_kill_subprocess()
    localPreference: int)   // service_->local_run_preference()

  /** Where the request stands. */
  datatype Control = Control(
    phase: Phase,         // state_
    abort: bool,
    finished: bool,
    rpc: bool)            // rpc_, rpc_resp_ and done_ are set

  /** The local subprocess and the fallback flags. */
  datatype Local = Local(
    subproc: bool,        // subproc_ != nullptr
    delayed: bool,        // delayed_setup_subproc_ != nullptr
    wantFallback: bool,
    shouldFallback: bool,
    failFallback: bool,
    run: bool,            // local_run_
    killed: bool)         // local_killed_

  /** What the task knows about its peers and about the response so far. */
  datatype Facts = Facts(
    canceled: bool,
    closable: bool,       // GomaccClosed may still be delivered
    gomacc: bool,         // gomacc_pid_ is valid
    success: bool,        // resp_->result().exit_status() == 0; an empty response has -1
    missing: bool)        // resp_->missing_input_size() > 0

  /** Progress of the remote pipeline. */
  datatype Pipe = Pipe(
    remote: Remote,
    retry: nat,           // exec_request_retry
    execCalls: nat,       // ExecAsync calls so far
    pushes: nat,          // push_back on link_file_req_tasks_
    pops: nat)            // pop_front on link_file_req_tasks_

  /** A batch of file tasks: its callback, how many still run, no failure so far. */
  datatype Batch = Batch(cb: bool, tasks: nat, good: bool)

  datatype Files = Files(
    input: Batch,
    output: Batch,
    upload: Batch,        // uploads of local output
    infos: nat,           // output_file_infos_.size()
    direct: bool)         // the current download writes final file names

  /** What an observer of the whole run counts. */
  datatype Log = Log(
    commits: nat,         // CommitOutput
    remoteCommits: nat,   // CommitOutput(true)
    replies: nat,         // ReplyResponse
    dones: nat,           // Done
    answer: Answer)

  datatype Task = Task(
    cfg: Config,
    ok: bool,             // no CHECK has failed
    started: bool,
    ctl: Control,
    pipe: Pipe,
    loc: Local,
    fact: Facts,
    io: Files,
    log: Log)

  datatype InfoOutcome = NoInfo | InfoError | InfoDisabled | InfoFound

  /** Everything a handler may learn from outside while it runs. */
  datatype Oracle = Oracle(
    // Start
    startFails: bool, hasPid: bool, copied: bool, wantsFallback: bool,
    rampedDown: bool, localNow: bool,
    // ShouldStopGoma, by the phase in which it is asked
    running: set<Phase>, fewPending: set<Phase>, httpDisabled: set<Phase>,
    // IsSubprocRunning at the three failure sites
    runningLate: bool,
    // IsGomaccRunning
    aliveAtResponse: bool, aliveAtFinish: bool, aliveAtReply: bool,
    // SETUP
    info: InfoOutcome, depsCached: bool, includeOk: bool, includeSkipped: bool,
    includeError: bool,
    // FILE_REQ
    front: bool, inputCount: nat, taskOk: bool, badInput: bool,
    cacheHit: bool, uploading: bool, healthy: bool,
    // CALL_EXEC
    execSuccess: bool, execMissing: bool, rpcErr: bool, receiving: bool,
    retryable: bool, serverError: bool, fatal: bool, unsupported: bool,
    specError: bool, hermeticFallback: bool,
    // FILE_RESP
    outputCount: nat, compilerDisabled: bool, verifyOk: bool,
    // ProcessFinished and the subprocess
    limiterAllows: bool, killed: bool, procStarted: bool, status: int,
    uploadCount: nat)

  const NoBatch := Batch(cb := false, tasks := 0, good := false)

  function NewTask(cfg: Config): Task {
    Task(cfg, ok := true, started := false,
         ctl := Control(phase := Init, abort := false, finished := false, rpc := true),
         pipe := Pipe(remote := Idle, retry := 0, execCalls := 0, pushes := 0, pops := 0),
         loc := Local(subproc := false, delayed := false, wantFallback := false,
                      shouldFallback := false, failFallback := false, run := false, killed := false),
         fact := Facts(canceled := false, closable := false, gomacc := false, success := false,
                       missing := false),
         io := Files(input := NoBatch, output := NoBatch, upload := NoBatch, infos := 0, direct := false),
         log := Log(commits := 0, remoteCommits := 0,
                    replies := 0, dones := 0, answer := Unanswered))
  }

  function Check(t: Task, cond: bool): Task {
    if cond then t else t.(ok := false)
  }

  // ---------------------------------------------------------------- single updates

  function To(t: Task, p: Phase): Task { t.(ctl := t.ctl.(phase := p)) }

  function Await(t: Task, r: Remote): Task { t.(pipe := t.pipe.(remote := r)) }

  function SetSuccess(t: Task, b: bool): Task { t.(fact := t.fact.(success := b)) }

  function Failed(t: Task): Task { SetSuccess(t, false) }

  function SetGomacc(t: Task, b: bool): Task { t.(fact := t.fact.(gomacc := b)) }

  function CountRetry(t: Task): Task { t.(pipe := t.pipe.(retry := t.pipe.retry + 1)) }

  function CancelDelayed(t: Task): Task { t.(loc := t.loc.(delayed := false)) }

  function ForceFallback(t: Task, b: bool): Task {
    t.(loc := t.loc.(shouldFallback := t.loc.shouldFallback || b))
  }

  function KeepFallback(t: Task, b: bool): Task {
    t.(loc := t.loc.(wantFallback := t.loc.wantFallback && b))
  }

  function ClearOutputs(t: Task): Task { t.(io := t.io.(infos := 0)) }

  predicate Stopped(t: Task) { t.ctl.abort || t.fact.canceled }

  /** One task of the batch reports, or there was none to wait for. */
  function Report(b: Batch, good: bool): Batch {
    if b.tasks == 0 then b else b.(tasks := b.tasks - 1, good := b.good && good)
  }

  // ---------------------------------------------------------------- replying

  function Done(t: Task): Task {
    ClearOutputs(
      Check(t, && (t.ctl.abort || Rank(t.ctl.phase) >= Rank(Finished))
               && !t.ctl.rpc && !t.loc.subproc && !t.loc.delayed
               && !t.io.input.cb && !t.io.output.cb && !t.io.upload.cb))
    .(log := t.log.(dones := t.log.dones + 1))
  }

  function ReplyResponse(t: Task, how: Answer): Task {
    AfterReply(
      Check(t, && (t.ctl.phase == Finished || t.ctl.phase == LocalFinished || t.ctl.abort)
               && t.ctl.rpc && !t.loc.subproc && !t.loc.delayed)
      .(ctl := t.ctl.(rpc := false), fact := t.fact.(gomacc := false),
        log := t.log.(replies := t.log.replies + 1, answer := how)))
  }

  /** The end of ReplyResponse: with abort_ or an upload in flight, Done comes later. */
  function AfterReply(t: Task): Task {
    if !t.ctl.finished then
      t
    else if t.io.upload.cb then
      Check(t, !t.ctl.abort)
    else
      Done(Check(t, !t.ctl.abort && Rank(t.ctl.phase) >= Rank(Finished) && t.io.upload.tasks == 0))
  }

  function CommitOutput(t: Task, useRemote: bool): Task {
    ClearOutputs(
      Check(t, t.ctl.phase == Finished && !t.ctl.abort && !t.loc.subproc && !t.loc.delayed))
    .(log := t.log.(commits := t.log.commits + 1,
                    remoteCommits := t.log.remoteCommits + if useRemote then 1 else 0))
  }

  function ProcessReply(t: Task, o: Oracle): Task {
    ReplyRemote(
      SetGomacc(
        Check(t, t.ctl.phase == Finished && !t.loc.subproc && !t.loc.delayed && !t.ctl.abort),
        t.fact.gomacc && o.aliveAtReply))
  }

  function ReplyRemote(t: Task): Task {
    ReplyResponse(
      if t.fact.gomacc then CommitOutput(t, !(t.loc.run && t.cfg.dontKill)) else t, RemoteResult)
  }

  // ---------------------------------------------------------------- subprocess

  function SetupSubProcess(t: Task): Task {
    Check(t, !t.loc.subproc).(loc := t.loc.(delayed := false, subproc := true))
  }

  function RunSubProcess(t: Task): Task {
    Check(t, !t.ctl.abort)
  }

  /** The local compiler must run; one already set up is used. */
  function RunLocal(t: Task): Task {
    RunSubProcess(if t.loc.subproc then t else SetupSubProcess(t))
  }

  function KillSubProcess(t: Task, o: Oracle): Task {
    Check(t, t.loc.subproc).(loc := t.loc.(killed := o.killed))
  }

  // ---------------------------------------------------------------- end of the remote pipeline

  function ProcessFinished(t: Task, o: Oracle, quiet: bool): Task {
    FinishedIn(
      Check(t, && Rank(t.ctl.phase) < Rank(Finished) && !t.ctl.finished
               && (quiet && !Stopped(t) ==> t.fact.success && t.ctl.phase == FileResp))
      .(ctl := t.ctl.(finished := true)), o)
  }

  /** ProcessFinished after finished_ is set. */
  function FinishedIn(t: Task, o: Oracle): Task {
    if t.ctl.phase == Init then
      ReplyResponse(
        To(Check(t, !t.loc.subproc && !t.loc.delayed && !t.ctl.abort), Finished), InitFailure)
    else
      FinishRemote(if t.ctl.abort then t else To(t, Finished), o)
  }

  /** ProcessFinished after state_ is set. */
  function FinishRemote(t: Task, o: Oracle): Task {
    if t.cfg.verify then
      ReplyResponse(Check(t, !t.loc.subproc && !t.loc.delayed), Verified)
    else if t.cfg.gch then
      if t.loc.subproc then t else ProcessReply(Check(t, !t.loc.delayed), o)
    else if !t.cfg.fallback then
      ProcessReply(Check(t, !t.loc.subproc && !t.loc.delayed), o)
    else if t.ctl.abort then
      if t.io.upload.cb then t else Done(t)
    else
      FinishRace(SetGomacc(Check(t, t.ctl.phase == Finished),
                           t.fact.gomacc && (t.fact.success || o.aliveAtFinish)), o)
  }

  /** The remote side finished before any local result was used. */
  function FinishRace(t: Task, o: Oracle): Task {
    if t.fact.success || !t.fact.gomacc || !t.loc.wantFallback then
      StopLocal(CancelDelayed(t), o)
    else
      FallBack(Check(t, !t.loc.failFallback && t.cfg.fallback)
               .(loc := t.loc.(failFallback := true)), o)
  }

  /** Remote compilation failed: run the local compiler unless too many tasks do. */
  function FallBack(t: Task, o: Oracle): Task {
    if o.limiterAllows then RunLocal(t) else StopLocal(CancelDelayed(t), o)
  }

  /** Stop the local side; FinishSubProcess replies later. Reply now when there is none. */
  function StopLocal(t: Task, o: Oracle): Task {
    if t.loc.subproc then KillSubProcess(t, o) else ProcessReply(t, o)
  }

  // ---------------------------------------------------------------- remote pipeline

  predicate ShouldStopGoma(t: Task, o: Oracle) {
    && !t.cfg.verify && !t.cfg.gch && t.loc.subproc
    && (|| (&& t.ctl.phase in o.running
            && (t.cfg.dontKill || t.cfg.localPreference >= Rank(t.ctl.phase)))
        || (if t.pipe.retry > 1 then t.ctl.phase in o.fewPending else t.ctl.phase in o.httpDisabled))
  }

  /** Enter phase p, with the DCHECK that ShouldStopGoma is about to make. */
  function Enter(t: Task, p: Phase): Task {
    To(Check(t, t.cfg.verify || t.cfg.gch || t.loc.subproc || !t.ctl.abort), p)
  }

  function ProcessSetup(t: Task, o: Oracle): Task {
    CallGoma(Enter(Check(t, t.ctl.phase == Init && !t.ctl.abort && !t.loc.shouldFallback), Setup), o)
  }

  function CallGoma(t: Task, o: Oracle): Task {
    if ShouldStopGoma(t, o) then To(t, LocalRun) else Await(t, AwaitInfo)
  }

  function FillCompilerInfoDone(t: Task, o: Oracle): Task {
    CompilerInfoDone(Check(t, t.ctl.phase == Setup), o)
  }

  function CompilerInfoDone(t: Task, o: Oracle): Task {
    match o.info
    case NoInfo => SetupRequestDone(Failed(t), o, false)
    case InfoFound =>
      if o.depsCached then UpdateRequiredFilesDone(t, o, true) else Await(t, AwaitInclude)
    case _ =>
      SetupRequestDone(
        ForceFallback(Failed(t), !t.cfg.failFast && t.loc.wantFallback), o, false)
  }

  function RunIncludeProcessorDone(t: Task, o: Oracle): Task {
    if Stopped(t) && o.includeSkipped then
      UpdateRequiredFilesDone(t, o, false)
    else
      UpdateRequiredFilesDone(
        SetSuccess(t, t.fact.success && (o.includeOk || !o.includeError)), o, o.includeOk)
  }

  function UpdateRequiredFilesDone(t: Task, o: Oracle, done: bool): Task {
    if !done && !t.cfg.verifyCommand then
      SetupRequestDone(ForceFallback(t, !Stopped(t)), o, false)
    else
      SetupRequestDone(t, o, true)
  }

  function SetupRequestDone(t: Task, o: Oracle, done: bool): Task {
    SetupDone(Check(t, t.ctl.phase == Setup), o, done)
  }

  function SetupDone(t: Task, o: Oracle, done: bool): Task {
    if Stopped(t) then
      ProcessFinished(t, o, false)
    else if done then
      TryProcessFileRequest(t, o)
    else if t.loc.shouldFallback then
      RunLocal(To(t, Init))
    else
      ProcessFinished(Failed(t), o, false)
  }

  /** push_back on link_file_req_tasks_. */
  function JoinLinkQueue(t: Task): Task {
    t.(pipe := t.pipe.(pushes := t.pipe.pushes + 1))
  }

  /** ProcessPendingFileRequest, seen from the leaving task. */
  function LeaveLinkQueue(t: Task): Task {
    if t.cfg.linking then
      Check(t, t.pipe.pushes == t.pipe.pops + 1).(pipe := t.pipe.(pops := t.pipe.pops + 1))
    else
      t
  }

  function TryProcessFileRequest(t: Task, o: Oracle): Task {
    if !t.cfg.linking then
      ProcessFileRequest(t, o)
    else if o.front then
      ProcessFileRequest(JoinLinkQueue(t), o)
    else
      Await(JoinLinkQueue(t), AwaitLink)
  }

  function ProcessFileRequest(t: Task, o: Oracle): Task {
    FileRequest(
      Check(t, t.ctl.phase == Setup || t.ctl.phase == FileReq || t.ctl.phase == FileResp), o)
  }

  function FileRequest(t: Task, o: Oracle): Task {
    if Stopped(t) then
      ProcessFinished(LeaveLinkQueue(t), o, false)
    else
      SendInputs(Enter(t, FileReq), o)
  }

  function SendInputs(t: Task, o: Oracle): Task {
    if ShouldStopGoma(t, o) then
      To(LeaveLinkQueue(t), LocalRun)
    else
      Await(Check(t, t.ctl.phase == FileReq && !t.io.input.cb)
            .(io := t.io.(input := Batch(true, o.inputCount, true))), AwaitInputs)
  }

  function InputStep(t: Task, o: Oracle): Task {
    InputsReported(
      InputsTo(Check(t, t.ctl.phase == FileReq),
               Report(t.io.input, o.taskOk && !t.ctl.abort),
               t.fact.success && (t.io.input.tasks == 0 || o.taskOk || t.ctl.abort || o.badInput)), o)
  }

  function InputsTo(t: Task, b: Batch, success: bool): Task {
    SetSuccess(t.(io := t.io.(input := b)), success)
  }

  function InputsReported(t: Task, o: Oracle): Task {
    if t.io.input.tasks > 0 then
      Await(t, AwaitInputs)
    else if t.io.input.cb then
      ProcessFileRequestDone(InputsTo(t, t.io.input.(cb := false), t.fact.success), o)
    else
      t
  }

  function ProcessFileRequestDone(t: Task, o: Oracle): Task {
    FileRequestDone(LeaveLinkQueue(Check(t, t.ctl.phase == FileReq)), o)
  }

  function FileRequestDone(t: Task, o: Oracle): Task {
    if Stopped(t) then
      ProcessFinished(t, o, false)
    else if !t.io.input.good then
      InputFailed(t, o)
    else if o.cacheHit then
      ProcessFileResponse(SetSuccess(To(t, LocalOutput), true), o)
    else
      ProcessCallExec(t, o)
  }

  function InputFailed(t: Task, o: Oracle): Task {
    if t.loc.subproc && o.runningLate then
      To(t, LocalRun)
    else if !(o.healthy && o.uploading) then
      ProcessFinished(Failed(t), o, false)
    else
      RetryOr(CountRetry(Failed(t)), o, AwaitFileRetry)
  }

  /** Post the retry r, unless the shared retry budget is spent. */
  function RetryOr(t: Task, o: Oracle, r: Remote): Task {
    if t.pipe.retry <= MaxExecRetry then Await(t, r) else ProcessFinished(t, o, false)
  }

  function ProcessCallExec(t: Task, o: Oracle): Task {
    CallExecIn(Check(t, t.ctl.phase == FileReq), o)
  }

  function CallExecIn(t: Task, o: Oracle): Task {
    if Stopped(t) then ProcessFinished(t, o, false) else SendExec(Enter(t, CallExec), o)
  }

  function SendExec(t: Task, o: Oracle): Task {
    if ShouldStopGoma(t, o) then
      To(t, LocalRun)
    else if t.cfg.useLocal && t.cfg.heavy && !t.loc.subproc then
      SetupSubProcess(ExecAsync(t))
    else
      ExecAsync(t)
  }

  function ExecAsync(t: Task): Task {
    Await(t.(pipe := t.pipe.(execCalls := t.pipe.execCalls + 1)), AwaitExec)
  }

  function ProcessCallExecDone(t: Task, o: Oracle): Task {
    ExecDone(Check(t, t.ctl.phase == CallExec)
             .(fact := t.fact.(success := o.execSuccess, missing := o.execMissing)), o)
  }

  function ExecDone(t: Task, o: Oracle): Task {
    if Stopped(t) then
      ProcessFinished(t, o, false)
    else if o.rpcErr then
      RpcFailed(t, o)
    else if t.fact.missing then
      ProcessFileResponse(t, o)
    else if o.serverError then
      ExecFailed(t, o)
    else
      ProcessFileResponse(CheckCommandSpec(t, o), o)
  }

  function RpcFailed(t: Task, o: Oracle): Task {
    if t.loc.subproc && o.runningLate && !o.receiving then
      To(t, LocalRun)
    else if o.serverError || o.retryable || o.receiving then
      ExecFailed(Failed(t), o)
    else
      ProcessFinished(Failed(t), o, false)
  }

  /** A server or rpc error gave a reason to retry. */
  function ExecFailed(t: Task, o: Oracle): Task {
    if !o.healthy then
      ProcessFinished(CheckCommandSpec(t, o), o, false)
    else if t.pipe.retry + 1 <= MaxExecRetry && !o.fatal then
      Await(To(CountRetry(t), FileReq), AwaitExecRetry)
    else
      ProcessFinished(CheckCommandSpec(RejectFlags(CountRetry(t), o), o), o, false)
  }

  /** Servers that reject compiler flags may rule out a fallback. */
  function RejectFlags(t: Task, o: Oracle): Task {
    if o.unsupported then KeepFallback(Failed(t), false) else t
  }

  /** CheckCommandSpec and CheckNoMatchingCommandSpec, as far as they steer the task. */
  function CheckCommandSpec(t: Task, o: Oracle): Task {
    if o.specError then
      KeepFallback(Failed(Check(t, t.ctl.phase == CallExec)), o.hermeticFallback)
    else
      Check(t, t.ctl.phase == CallExec)
  }

  function ProcessFileResponse(t: Task, o: Oracle): Task {
    FileResponseIn(Check(t, t.ctl.phase == CallExec || t.ctl.phase == LocalOutput), o)
  }

  function FileResponseIn(t: Task, o: Oracle): Task {
    if Stopped(t) then ProcessFinished(t, o, false) else FileResponse(Enter(t, FileResp), o)
  }

  function FileResponse(t: Task, o: Oracle): Task {
    if ShouldStopGoma(t, o) then
      To(t, LocalRun)
    else if t.fact.missing then
      ProcessFileResponseDone(MissingInputs(Failed(t)), o)
    else if !(t.fact.gomacc && o.aliveAtResponse) then
      ProcessFinished(Failed(SetGomacc(t, false)), o, false)
    else
      StartDownload(t, o)
  }

  /** output_file_success_ = false, without any download. */
  function MissingInputs(t: Task): Task {
    t.(io := t.io.(output := t.io.output.(good := false)))
  }

  function StartDownload(t: Task, o: Oracle): Task {
    if t.cfg.verify || !t.fact.success then
      Download(t, o, false)
    else
      Download(CancelDelayed(t), o, !t.loc.subproc)
  }

  function Download(t: Task, o: Oracle, direct: bool): Task {
    Await(Check(t, t.ctl.phase == FileResp && !t.io.output.cb)
          .(io := t.io.(output := Batch(true, o.outputCount, true),
                        infos := o.outputCount, direct := direct)), AwaitOutputs)
  }

  function OutputStep(t: Task, o: Oracle): Task {
    OutputsReported(
      OutputsTo(Check(t, t.ctl.phase == FileResp),
                Report(t.io.output, o.taskOk && !t.ctl.abort),
                t.fact.success && (t.io.output.tasks == 0 || o.taskOk || t.ctl.abort)), o)
  }

  function OutputsTo(t: Task, b: Batch, success: bool): Task {
    SetSuccess(t.(io := t.io.(output := b)), success)
  }

  function OutputsReported(t: Task, o: Oracle): Task {
    if t.io.output.tasks > 0 then
      Await(t, AwaitOutputs)
    else if t.io.output.cb then
      ProcessFileResponseDone(OutputsTo(t, t.io.output.(cb := false), t.fact.success), o)
    else
      t
  }

  function ProcessFileResponseDone(t: Task, o: Oracle): Task {
    FileResponseDone(Check(t, t.ctl.phase == FileResp), o)
  }

  function FileResponseDone(t: Task, o: Oracle): Task {
    if Stopped(t) then
      ProcessFinished(t, o, false)
    else if !t.io.output.good then
      OutputFailed(t, o)
    else if t.cfg.verify then
      ProcessFinished(
        SetSuccess(ClearOutputs(Check(t, !t.loc.subproc && !t.loc.delayed)),
                   t.fact.success && o.verifyOk), o, false)
    else if t.fact.success then
      ProcessFinished(t, o, true)
    else
      ProcessFinished(ClearOutputs(t), o, false)
  }

  function OutputFailed(t: Task, o: Oracle): Task {
    if !t.cfg.gch && t.loc.subproc && o.runningLate then
      To(t, LocalRun)
    else if o.compilerDisabled || !o.healthy then
      ProcessFinished(Failed(t), o, false)
    else if t.pipe.retry + 1 <= MaxExecRetry then
      TryProcessFileRequest(CountRetry(Failed(t)), o)
    else
      ProcessFinished(CountRetry(Failed(t)), o, false)
  }

  // ---------------------------------------------------------------- events

  function Start(t: Task, o: Oracle): Task {
    StartWith(
      Check(t, t.ctl.phase == Init)
      .(started := true,
        fact := t.fact.(closable := true, gomacc := o.hasPid, success := !o.startFails && o.copied),
        loc := t.loc.(wantFallback := t.cfg.fallback,
                      shouldFallback := !o.startFails && o.wantsFallback && !t.cfg.verifyCommand)), o)
  }

  function StartWith(t: Task, o: Oracle): Task {
    if o.startFails then
      ProcessFinished(t, o, false)
    else if t.cfg.verify || t.loc.shouldFallback then
      RunSubProcess(SetupSubProcess(t))
    else if o.rampedDown then
      RunSubProcess(SetupSubProcess(ForceFallback(t, true)))
    else
      StartRace(SetupRace(t, o), o)
  }

  /** Whether, and when, a local run races against the remote one. */
  function SetupRace(t: Task, o: Oracle): Task {
    if t.cfg.gch then
      RunSubProcess(SetupSubProcess(t))
    else if !t.cfg.fallback || t.cfg.heavy || !t.cfg.useLocal then
      t
    else if o.localNow then
      SetupSubProcess(t)
    else
      Check(t, !t.loc.delayed).(loc := t.loc.(delayed := true))
  }

  function StartRace(t: Task, o: Oracle): Task {
    if t.loc.subproc && ShouldStopGoma(t, o) then To(t, LocalRun) else ProcessSetup(t, o)
  }

  function RemoteStep(t: Task, o: Oracle): Task {
    Dispatch(Await(t, Idle), t.pipe.remote, o)
  }

  function Dispatch(t: Task, r: Remote, o: Oracle): Task {
    match r
    case Idle => t
    case AwaitInfo => FillCompilerInfoDone(t, o)
    case AwaitInclude => RunIncludeProcessorDone(t, o)
    case AwaitLink => ProcessFileRequest(t, o)
    case AwaitFileRetry => TryProcessFileRequest(t, o)
    case AwaitInputs => InputStep(t, o)
    case AwaitExecRetry => ProcessCallExec(t, o)
    case AwaitExec => ProcessCallExecDone(t, o)
    case AwaitOutputs => OutputStep(t, o)
  }

  /** The subprocess could not be run at all. */
  predicate Broken(o: Oracle) {
    !o.procStarted && o.status == InternalError
  }

  predicate RunFailed(t: Task, o: Oracle) {
    Broken(o) || (o.procStarted && !t.loc.killed && o.status != 0)
  }

  predicate GomaFailure(t: Task, o: Oracle) {
    Broken(o) || (o.procStarted && !t.loc.killed && o.status < 0)
  }

  function FinishSubProcess(t: Task, o: Oracle): Task {
    LocalFinish(
      Check(t, !t.ctl.abort && t.loc.subproc)
      .(loc := t.loc.(subproc := false, run := t.loc.run || o.procStarted),
        fact := t.fact.(success := t.fact.success && !Broken(o))), o)
  }

  function LocalFinish(t: Task, o: Oracle): Task {
    if t.ctl.phase == Finished && !t.loc.failFallback then
      ProcessReply(t, o)
    else
      UseLocalResult(SetSuccess(t, o.status == 0), o)
  }

  /** FinishSubProcess once the local result is wanted. */
  function UseLocalResult(t: Task, o: Oracle): Task {
    if t.cfg.verify && !t.loc.shouldFallback then
      ProcessSetup(Check(t, t.ctl.phase == Init), o)
    else if t.cfg.gch then
      Check(t, Rank(t.ctl.phase) < Rank(Finished) && !t.loc.subproc)
    else
      ReplyLocal(if RunFailed(t, o) then t else ProcessLocalFileOutput(t, o), GomaFailure(t, o))
  }

  function ReplyLocal(t: Task, gomaFailure: bool): Task {
    if t.loc.shouldFallback then
      ReplyResponse(LocalDone(Check(t, t.ctl.phase == Init)), SetupFallback)
    else if t.loc.failFallback then
      ReplyResponse(Check(t, t.ctl.phase == Finished), FailFallback)
    else if t.ctl.phase == LocalRun then
      ReplyResponse(LocalDone(t), LocalOnly)
    else if !gomaFailure then
      ReplyResponse(t.(ctl := t.ctl.(abort := true)), LocalFirst)
    else
      t
  }

  function LocalDone(t: Task): Task {
    t.(ctl := t.ctl.(phase := LocalFinished, finished := true))
  }

  function ProcessLocalFileOutput(t: Task, o: Oracle): Task {
    if t.cfg.storeOutput then
      Check(t, !t.io.upload.cb && t.io.upload.tasks == 0)
      .(io := t.io.(upload := Batch(true, o.uploadCount, true)))
    else
      Check(t, !t.io.upload.cb && t.io.upload.tasks == 0)
  }

  function UploadStep(t: Task): Task {
    if t.io.upload.tasks > 1 then
      t.(io := t.io.(upload := Report(t.io.upload, true)))
    else
      ProcessLocalFileOutputDone(t.(io := t.io.(upload := NoBatch)))
  }

  function ProcessLocalFileOutputDone(t: Task): Task {
    if t.ctl.finished then Done(Check(t, !t.loc.subproc && !t.loc.delayed)) else t
  }

  function GomaccClosed(t: Task, o: Oracle): Task {
    if t.loc.subproc then KillSubProcess(Cancel(t), o) else Cancel(t)
  }

  function Cancel(t: Task): Task {
    t.(fact := t.fact.(canceled := true, gomacc := false, closable := false))
  }

  datatype Event = StartTask | RemoteEvent | SubprocDone | DelayedSetup | Upload | GomaccClose

  /** No event reaches a task after Done, or a process whose CHECK failed. */
  predicate Enabled(t: Task, e: Event) {
    && t.ok && t.log.dones == 0
    && match e
       case StartTask => !t.started
       case RemoteEvent => t.pipe.remote != Idle
       case SubprocDone => t.loc.subproc
       case DelayedSetup => t.loc.delayed
       case Upload => t.io.upload.cb
       case GomaccClose => t.fact.closable
  }

  function Step(t: Task, e: Event, o: Oracle): Task {
    match e
    case StartTask => Start(t, o)
    case RemoteEvent => RemoteStep(t, o)
    case SubprocDone => FinishSubProcess(t, o)
    case DelayedSetup => SetupSubProcess(t)
    case Upload => UploadStep(t)
    case GomaccClose => GomaccClosed(t, o)
  }

  /** One handler run. */
  ghost predicate Next(t: Task, t': Task) {
    exists e, o :: Enabled(t, e) && t' == Step(t, e, o)
  }
}
