/**
 How far one handler run takes a compile task: the remote pipeline moves down a
 lexicographic measure, and joins or leaves the link queue in a fixed pattern.
 */
module TaskProgress {
  import opened TaskMachine
  import opened TaskInvariant

  /** What a handler of the pipeline starts from, and may not change unnoticed. */
  datatype Origin = Origin(cfg: Config, started: bool, answer: Answer, failFallback: bool)

  function OriginOf(t: Task): Origin {
    Origin(t.cfg, t.started, t.log.answer, t.loc.failFallback)
  }

  /** The remote side answers in its own name only, and falls back only on a failure. */
  predicate Decides(t: Origin, u: Task) {
    && (u.log.answer != t.answer ==> u.log.answer == if t.cfg.verify then Verified else RemoteResult)
    && (u.loc.failFallback && !t.failFallback ==>
          !u.fact.success && u.loc.wantFallback && t.cfg.fallback && !t.cfg.verify)
  }

  /** Handlers that end or divert the pipeline post nothing and queue nothing. */
  predicate Still(t: Task, u: Task) {
    && u.cfg == t.cfg && u.started == t.started
    && u.pipe == t.pipe && Decides(OriginOf(t), u)
    && u.fact.success == t.fact.success && u.loc.wantFallback == t.loc.wantFallback
    && (t.ctl.phase != Init ==> u.ctl.phase != Init)
  }

  lemma CheckIs(t: Task, cond: bool)
    ensures Check(t, cond) == t.(ok := t.ok && cond)
  {
  }

  /** An answer changes nothing but the record of it. */
  lemma ReplyStill(t: Task, how: Answer)
    ensures var u := ReplyResponse(t, how);
            && u.cfg == t.cfg && u.started == t.started && u.pipe == t.pipe && u.ctl.phase == t.ctl.phase
            && u.loc == t.loc && u.fact.success == t.fact.success && u.log.answer == how
  {
  }

  lemma ReplyRemoteStill(t: Task)
    requires !t.cfg.verify
    ensures Still(t, ReplyRemote(t))
  {
    hide ReplyResponse;
    if t.fact.gomacc {
      ReplyStill(CommitOutput(t, !(t.loc.run && t.cfg.dontKill)), RemoteResult);
    } else {
      ReplyStill(t, RemoteResult);
    }
  }

  lemma ProcessReplyStill(t: Task, o: Oracle)
    requires !t.cfg.verify
    ensures Still(t, ProcessReply(t, o))
  {
    hide ReplyRemote, Check;
    var c := t.ctl.phase == Finished && !t.loc.subproc && !t.loc.delayed && !t.ctl.abort;
    CheckIs(t, c);
    ReplyRemoteStill(SetGomacc(Check(t, c), t.fact.gomacc && o.aliveAtReply));
  }

  lemma StopLocalStill(t: Task, o: Oracle)
    requires !t.cfg.verify
    ensures Still(t, StopLocal(t, o))
  {
    hide ProcessReply;
    ProcessReplyStill(t, o);
  }

  lemma FinishRaceStill(t: Task, o: Oracle)
    requires !t.cfg.verify && t.cfg.fallback
    ensures Still(t, FinishRace(t, o))
  {
    hide StopLocal, FallBack, Check;
    if t.fact.success || !t.fact.gomacc || !t.loc.wantFallback {
      StopLocalStill(CancelDelayed(t), o);
    } else {
      var c := !t.loc.failFallback && t.cfg.fallback;
      CheckIs(t, c);
      FallBackStill(Check(t, c).(loc := t.loc.(failFallback := true)), o);
    }
  }

  lemma FallBackStill(t: Task, o: Oracle)
    requires !t.cfg.verify
    ensures Still(t, FallBack(t, o))
  {
    hide StopLocal, RunLocal;
    RunLocalStill(t);
    StopLocalStill(CancelDelayed(t), o);
  }

  lemma RunLocalStill(t: Task)
    ensures Still(t, RunLocal(t)) && RunLocal(t).ctl == t.ctl
    ensures RunLocal(t).loc.shouldFallback == t.loc.shouldFallback
  {
  }

  lemma FinishRemoteStill(t: Task, o: Oracle)
    ensures Still(t, FinishRemote(t, o))
  {
    hide ReplyResponse, ProcessReply, FinishRace, Check;
    if t.cfg.verify {
      CheckIs(t, !t.loc.subproc && !t.loc.delayed);
      ReplyStill(Check(t, !t.loc.subproc && !t.loc.delayed), Verified);
    } else if t.cfg.gch {
      CheckIs(t, !t.loc.delayed);
      ProcessReplyStill(Check(t, !t.loc.delayed), o);
    } else if !t.cfg.fallback {
      CheckIs(t, !t.loc.subproc && !t.loc.delayed);
      ProcessReplyStill(Check(t, !t.loc.subproc && !t.loc.delayed), o);
    } else if t.ctl.abort {
      DoneStill(t);
    } else {
      CheckIs(t, t.ctl.phase == Finished);
      FinishRaceStill(SetGomacc(Check(t, t.ctl.phase == Finished),
                                t.fact.gomacc && (t.fact.success || o.aliveAtFinish)), o);
    }
  }

  lemma DoneStill(t: Task)
    ensures Still(t, Done(t))
  {
  }

  lemma FinishedStill(t: Task, o: Oracle, quiet: bool)
    requires t.ctl.phase != Init
    ensures Still(t, ProcessFinished(t, o, quiet))
  {
    hide FinishRemote;
    var u := Check(t, && Rank(t.ctl.phase) < Rank(Finished) && !t.ctl.finished
                      && (quiet && !Stopped(t) ==> t.fact.success && t.ctl.phase == FileResp))
             .(ctl := t.ctl.(finished := true));
    FinishRemoteStill(u, o);
    FinishRemoteStill(To(u, Finished), o);
  }

  // ---------------------------------------------------------------- what handlers do to the pipeline

  function Joined(p: Pipe, linking: bool): Pipe {
    if linking then p.(pushes := p.pushes + 1) else p
  }

  function Left(p: Pipe, linking: bool): Pipe {
    if linking then p.(pops := p.pops + 1) else p
  }

  function Retried(p: Pipe): Pipe {
    p.(retry := p.retry + 1)
  }

  /** ProcessFileRequest: hold the queue place while inputs are sent, or give it up. */
  predicate Entered(p: Pipe, q: Pipe, linking: bool) {
    q == p.(remote := AwaitInputs) || q == Left(p, linking)
  }

  /** TryProcessFileRequest. */
  predicate Tried(p: Pipe, q: Pipe, linking: bool, front: bool) {
    if linking && !front then q == Joined(p, linking).(remote := AwaitLink)
    else Entered(Joined(p, linking), q, linking)
  }

  /** SetupRequestDone: the pipeline goes on to its first file request, or ends. */
  predicate SetUp(p: Pipe, q: Pipe, linking: bool, front: bool) {
    q == p || Tried(p, q, linking, front)
  }

  /** A failed download, or missing inputs. */
  predicate Redone(p: Pipe, q: Pipe, linking: bool, front: bool) {
    || q == p || q == Retried(p)
    || (p.retry + 1 <= MaxExecRetry && Tried(Retried(p), q, linking, front))
  }

  /** ProcessFileResponse. */
  predicate Responded(p: Pipe, q: Pipe, linking: bool, front: bool) {
    q == p.(remote := AwaitOutputs) || Redone(p, q, linking, front)
  }

  /** ProcessCallExec. */
  predicate Called(p: Pipe, q: Pipe) {
    q == p || q == p.(execCalls := p.execCalls + 1, remote := AwaitExec)
  }

  predicate PostedRetry(p: Pipe, q: Pipe, r: Remote) {
    p.retry + 1 <= MaxExecRetry && q == Retried(p).(remote := r)
  }

  /** ProcessCallExecDone. */
  predicate Returned(p: Pipe, q: Pipe, linking: bool, front: bool) {
    Responded(p, q, linking, front) || PostedRetry(p, q, AwaitExecRetry)
  }

  /** ProcessFileRequestDone, once the queue place is given up. */
  predicate Sent(p: Pipe, q: Pipe, linking: bool, front: bool) {
    Called(p, q) || Responded(p, q, linking, front) || PostedRetry(p, q, AwaitFileRetry)
  }

  /** The whole effect of one remote event on the pipeline. */
  predicate Handled(p: Pipe, q: Pipe, linking: bool, front: bool) {
    var i := p.(remote := Idle);
    match p.remote
    case Idle => q == p
    case AwaitInfo => q == i.(remote := AwaitInclude) || SetUp(i, q, linking, front)
    case AwaitInclude => SetUp(i, q, linking, front)
    case AwaitLink => Entered(i, q, linking)
    case AwaitFileRetry => Tried(i, q, linking, front)
    case AwaitInputs => q == p || Sent(Left(i, linking), q, linking, front)
    case AwaitExecRetry => Called(i, q)
    case AwaitExec => Returned(i, q, linking, front)
    case AwaitOutputs => q == p || Redone(i, q, linking, front)
  }

  /** The pipeline has left INIT for good, unless a setup failure sent it back. */
  predicate Leaves(t: Origin, u: Task) {
    && u.cfg == t.cfg && u.started == t.started && Decides(t, u)
    && (u.ctl.phase == Init ==> u.loc.shouldFallback)
  }

  lemma FinishedLeaves(t: Task, o: Oracle, quiet: bool)
    requires t.ctl.phase != Init
    ensures var u := ProcessFinished(t, o, quiet); u.pipe == t.pipe && Leaves(OriginOf(t), u)
  {
    hide ProcessFinished;
    FinishedStill(t, o, quiet);
  }

  lemma FileRequestMoves(t: Task, o: Oracle)
    requires t.ctl.phase == Setup || t.ctl.phase == FileReq || t.ctl.phase == FileResp
    ensures var u := ProcessFileRequest(t, o);
            Entered(t.pipe, u.pipe, t.cfg.linking) && Leaves(OriginOf(t), u)
  {
    hide ProcessFinished, SendInputs;
    if Stopped(t) {
      FinishedLeaves(LeaveLinkQueue(t), o, false);
    } else {
      SendMoves(Enter(t, FileReq), o);
    }
  }

  lemma SendMoves(t: Task, o: Oracle)
    requires t.ctl.phase == FileReq
    ensures var u := SendInputs(t, o);
            Entered(t.pipe, u.pipe, t.cfg.linking) && Leaves(OriginOf(t), u)
  {
    hide ShouldStopGoma;
  }

  lemma TryMoves(t: Task, o: Oracle)
    requires t.ctl.phase == Setup || t.ctl.phase == FileReq || t.ctl.phase == FileResp
    ensures var u := TryProcessFileRequest(t, o);
            Tried(t.pipe, u.pipe, t.cfg.linking, o.front) && Leaves(OriginOf(t), u)
  {
    hide ProcessFileRequest;
    if !t.cfg.linking {
      FileRequestMoves(t, o);
    } else if o.front {
      FileRequestMoves(JoinLinkQueue(t), o);
    }
  }

  lemma SetupDoneMoves(t: Task, o: Oracle, done: bool)
    requires t.ctl.phase == Setup
    ensures var u := SetupRequestDone(t, o, done);
            SetUp(t.pipe, u.pipe, t.cfg.linking, o.front) && Leaves(OriginOf(t), u)
  {
    hide ProcessFinished, TryProcessFileRequest, RunLocal, Tried;
    var u := Check(t, t.ctl.phase == Setup);
    if Stopped(u) {
      FinishedLeaves(u, o, false);
    } else if done {
      TryMoves(u, o);
    } else if u.loc.shouldFallback {
      RunLocalStill(To(u, Init));
    } else {
      FinishedLeaves(Failed(u), o, false);
    }
  }

  lemma CallExecMoves(t: Task, o: Oracle)
    requires t.ctl.phase == FileReq
    ensures var u := ProcessCallExec(t, o); Called(t.pipe, u.pipe) && Leaves(OriginOf(t), u)
  {
    hide ProcessFinished, SendExec, Leaves;
    if Stopped(t) {
      FinishedLeaves(t, o, false);
    } else {
      SendExecMoves(Enter(t, CallExec), o);
    }
  }

  lemma SendExecMoves(t: Task, o: Oracle)
    requires t.ctl.phase == CallExec
    ensures var u := SendExec(t, o); Called(t.pipe, u.pipe) && Leaves(OriginOf(t), u)
  {
    hide ShouldStopGoma;
  }

  lemma OutputFailedMoves(t: Task, o: Oracle)
    requires t.ctl.phase == FileResp
    ensures var u := OutputFailed(t, o);
            Redone(t.pipe, u.pipe, t.cfg.linking, o.front) && Leaves(OriginOf(t), u)
  {
    hide ProcessFinished, TryProcessFileRequest, Tried, Leaves;
    if !t.cfg.gch && t.loc.subproc && o.runningLate {
      LocalRunLeaves(t);
    } else if o.compilerDisabled || !o.healthy {
      FinishedLeaves(Failed(t), o, false);
    } else if t.pipe.retry + 1 <= MaxExecRetry {
      OutputRetryMoves(t, o);
    } else {
      FinishedLeaves(CountRetry(Failed(t)), o, false);
    }
  }

  lemma OutputRetryMoves(t: Task, o: Oracle)
    requires t.ctl.phase == FileResp
    ensures var u := TryProcessFileRequest(CountRetry(Failed(t)), o);
            Tried(Retried(t.pipe), u.pipe, t.cfg.linking, o.front) && Leaves(OriginOf(t), u)
  {
    hide TryProcessFileRequest, Tried;
    TryMoves(CountRetry(Failed(t)), o);
  }

  lemma FileResponseDoneMoves(t: Task, o: Oracle)
    requires t.ctl.phase == FileResp
    ensures var u := ProcessFileResponseDone(t, o);
            Redone(t.pipe, u.pipe, t.cfg.linking, o.front) && Leaves(OriginOf(t), u)
  {
    hide ProcessFinished, OutputFailed, Tried, Leaves;
    var u := Check(t, t.ctl.phase == FileResp);
    if Stopped(u) {
      FinishedLeaves(u, o, false);
    } else if !u.io.output.good {
      OutputFailedMoves(u, o);
    } else if u.cfg.verify {
      FinishedLeaves(SetSuccess(ClearOutputs(Check(u, !u.loc.subproc && !u.loc.delayed)),
                                u.fact.success && o.verifyOk), o, false);
    } else if u.fact.success {
      FinishedLeaves(u, o, true);
    } else {
      FinishedLeaves(ClearOutputs(u), o, false);
    }
  }

  lemma FileResponseMoves(t: Task, o: Oracle)
    requires t.ctl.phase == CallExec || t.ctl.phase == LocalOutput
    ensures var u := ProcessFileResponse(t, o);
            Responded(t.pipe, u.pipe, t.cfg.linking, o.front) && Leaves(OriginOf(t), u)
  {
    hide ProcessFinished, FileResponse, Tried, Leaves;
    if Stopped(t) {
      FinishedLeaves(t, o, false);
    } else {
      ResponseMoves(Enter(t, FileResp), o);
    }
  }

  lemma ResponseMoves(t: Task, o: Oracle)
    requires t.ctl.phase == FileResp
    ensures var u := FileResponse(t, o);
            Responded(t.pipe, u.pipe, t.cfg.linking, o.front) && Leaves(OriginOf(t), u)
  {
    hide ProcessFinished, ProcessFileResponseDone, ShouldStopGoma, StartDownload, Tried, Leaves;
    if ShouldStopGoma(t, o) {
      LocalRunLeaves(t);
    } else if t.fact.missing {
      FileResponseDoneMoves(MissingInputs(Failed(t)), o);
    } else if !(t.fact.gomacc && o.aliveAtResponse) {
      FinishedLeaves(Failed(SetGomacc(t, false)), o, false);
    } else {
      DownloadLeaves(t, o);
    }
  }

  lemma LocalRunLeaves(t: Task)
    ensures Leaves(OriginOf(t), To(t, LocalRun))
  {
  }

  lemma DownloadLeaves(t: Task, o: Oracle)
    requires t.ctl.phase == FileResp
    ensures var u := StartDownload(t, o); u.pipe == t.pipe.(remote := AwaitOutputs) && Leaves(OriginOf(t), u)
  {
    hide Download;
    DownloadsLeave(t, o, false);
    DownloadsLeave(CancelDelayed(t), o, !t.loc.subproc);
  }

  lemma DownloadsLeave(t: Task, o: Oracle, direct: bool)
    requires t.ctl.phase == FileResp
    ensures var u := Download(t, o, direct);
            u.pipe == t.pipe.(remote := AwaitOutputs) && Leaves(OriginOf(t), u)
  {
  }

  lemma ExecFailedMoves(t: Task, o: Oracle)
    requires t.ctl.phase == CallExec
    ensures var u := ExecFailed(t, o);
            && (u.pipe == t.pipe || u.pipe == Retried(t.pipe) || PostedRetry(t.pipe, u.pipe, AwaitExecRetry))
            && Leaves(OriginOf(t), u)
  {
    hide ProcessFinished, CheckCommandSpec, RejectFlags, Leaves;
    if !o.healthy {
      SpecStill(t, o);
      FinishedLeaves(CheckCommandSpec(t, o), o, false);
    } else if t.pipe.retry + 1 <= MaxExecRetry && !o.fatal {
      ExecRetryLeaves(t);
    } else {
      var u := RejectFlags(CountRetry(t), o);
      RejectStill(t, o);
      SpecStill(u, o);
      FinishedLeaves(CheckCommandSpec(u, o), o, false);
    }
  }

  lemma ExecRetryLeaves(t: Task)
    ensures Leaves(OriginOf(t), Await(To(CountRetry(t), FileReq), AwaitExecRetry))
  {
  }

  lemma RejectStill(t: Task, o: Oracle)
    ensures var u := RejectFlags(CountRetry(t), o);
            OriginOf(u) == OriginOf(t) && u.ctl == t.ctl && u.pipe == Retried(t.pipe)
  {
  }

  lemma SpecStill(t: Task, o: Oracle)
    ensures var u := CheckCommandSpec(t, o);
            OriginOf(u) == OriginOf(t) && u.pipe == t.pipe && u.ctl == t.ctl
  {
  }

  lemma ExecDoneMoves(t: Task, o: Oracle)
    requires t.ctl.phase == CallExec
    ensures var u := ProcessCallExecDone(t, o);
            Returned(t.pipe, u.pipe, t.cfg.linking, o.front) && Leaves(OriginOf(t), u)
  {
    hide ProcessFinished, ProcessFileResponse, ExecFailed, CheckCommandSpec, Tried;
    var u := Check(t, t.ctl.phase == CallExec)
             .(fact := t.fact.(success := o.execSuccess, missing := o.execMissing));
    if Stopped(u) {
      FinishedLeaves(u, o, false);
    } else if o.rpcErr {
      ExecFailedMoves(Failed(u), o);
      FinishedLeaves(Failed(u), o, false);
    } else if u.fact.missing {
      FileResponseMoves(u, o);
    } else if o.serverError {
      ExecFailedMoves(u, o);
    } else {
      SpecStill(u, o);
      FileResponseMoves(CheckCommandSpec(u, o), o);
    }
  }

  lemma InputFailedMoves(t: Task, o: Oracle)
    requires t.ctl.phase == FileReq
    ensures var u := InputFailed(t, o);
            && (u.pipe == t.pipe || u.pipe == Retried(t.pipe) || PostedRetry(t.pipe, u.pipe, AwaitFileRetry))
            && Leaves(OriginOf(t), u)
  {
    hide ProcessFinished;
    if t.loc.subproc && o.runningLate {
    } else if !(o.healthy && o.uploading) {
      FinishedLeaves(Failed(t), o, false);
    } else {
      FinishedLeaves(CountRetry(Failed(t)), o, false);
    }
  }

  lemma FileRequestDoneMoves(t: Task, o: Oracle)
    requires t.ctl.phase == FileReq
    ensures var u := ProcessFileRequestDone(t, o);
            Sent(Left(t.pipe, t.cfg.linking), u.pipe, t.cfg.linking, o.front) && Leaves(OriginOf(t), u)
  {
    hide ProcessFinished, ProcessFileResponse, ProcessCallExec, InputFailed, Tried, Leaves;
    var u := LeaveLinkQueue(Check(t, t.ctl.phase == FileReq));
    if Stopped(u) {
      FinishedLeaves(u, o, false);
    } else if !u.io.input.good {
      InputFailedMoves(u, o);
    } else if o.cacheHit {
      FileResponseMoves(SetSuccess(To(u, LocalOutput), true), o);
    } else {
      CallExecMoves(u, o);
    }
  }

  lemma InputsReportedMoves(t: Task, o: Oracle)
    requires t.ctl.phase == FileReq && t.io.input.cb
    ensures var u := InputsReported(t, o);
            && Leaves(OriginOf(t), u)
            && if t.io.input.tasks > 0 then
                 u.pipe == t.pipe.(remote := AwaitInputs) && u.io == t.io
               else
                 Sent(Left(t.pipe, t.cfg.linking), u.pipe, t.cfg.linking, o.front)
  {
    hide ProcessFileRequestDone, Sent;
    if t.io.input.tasks == 0 {
      FileRequestDoneMoves(InputsTo(t, t.io.input.(cb := false), t.fact.success), o);
    }
  }

  lemma InputsToMoves(t: Task, b: Batch, success: bool, o: Oracle)
    requires t.ctl.phase == FileReq && b.cb
    ensures var u := InputsReported(InputsTo(t, b, success), o);
            && Leaves(OriginOf(t), u)
            && if b.tasks > 0 then
                 u.pipe == t.pipe.(remote := AwaitInputs) && u.io.input == b
               else
                 Sent(Left(t.pipe, t.cfg.linking), u.pipe, t.cfg.linking, o.front)
  {
    hide InputsReported, Sent;
    InputsReportedMoves(InputsTo(t, b, success), o);
  }

  lemma InputStepIs(t: Task, o: Oracle)
    requires t.ctl.phase == FileReq
    ensures InputStep(t, o)
         == InputsReported(
              InputsTo(t, Report(t.io.input, o.taskOk && !t.ctl.abort),
                       t.fact.success && (t.io.input.tasks == 0 || o.taskOk || t.ctl.abort || o.badInput)), o)
  {
    hide InputsReported, Report, InputsTo;
  }

  lemma InputStepMoves(t: Task, o: Oracle)
    requires t.ctl.phase == FileReq && t.io.input.cb
    ensures var u := InputStep(t, o);
            && Leaves(OriginOf(t), u)
            && if t.io.input.tasks > 1 then
                 u.pipe == t.pipe.(remote := AwaitInputs) && u.io.input.tasks == t.io.input.tasks - 1
               else
                 Sent(Left(t.pipe, t.cfg.linking), u.pipe, t.cfg.linking, o.front)
  {
    hide InputStep, InputsReported, InputsTo, Sent, Report, Leaves;
    var good := o.taskOk && !t.ctl.abort;
    ReportIs(t.io.input, good);
    var b := t.fact.success && (t.io.input.tasks == 0 || o.taskOk || t.ctl.abort || o.badInput);
    InputStepIs(t, o);
    InputsToMoves(t, Report(t.io.input, good), b, o);
  }

  lemma OutputsReportedMoves(t: Task, o: Oracle)
    requires t.ctl.phase == FileResp && t.io.output.cb
    ensures var u := OutputsReported(t, o);
            && Leaves(OriginOf(t), u)
            && if t.io.output.tasks > 0 then
                 u.pipe == t.pipe.(remote := AwaitOutputs) && u.io == t.io
               else
                 Redone(t.pipe, u.pipe, t.cfg.linking, o.front)
  {
    hide ProcessFileResponseDone, Redone;
    if t.io.output.tasks == 0 {
      FileResponseDoneMoves(OutputsTo(t, t.io.output.(cb := false), t.fact.success), o);
    }
  }

  lemma OutputsToMoves(t: Task, b: Batch, success: bool, o: Oracle)
    requires t.ctl.phase == FileResp && b.cb
    ensures var u := OutputsReported(OutputsTo(t, b, success), o);
            && Leaves(OriginOf(t), u)
            && if b.tasks > 0 then
                 u.pipe == t.pipe.(remote := AwaitOutputs) && u.io.output == b
               else
                 Redone(t.pipe, u.pipe, t.cfg.linking, o.front)
  {
    hide OutputsReported, Redone;
    OutputsReportedMoves(OutputsTo(t, b, success), o);
  }

  lemma OutputStepIs(t: Task, o: Oracle)
    requires t.ctl.phase == FileResp
    ensures OutputStep(t, o)
         == OutputsReported(
              OutputsTo(t, Report(t.io.output, o.taskOk && !t.ctl.abort),
                        t.fact.success && (t.io.output.tasks == 0 || o.taskOk || t.ctl.abort)), o)
  {
    hide OutputsReported, Report, OutputsTo;
  }

  lemma OutputStepMoves(t: Task, o: Oracle)
    requires t.ctl.phase == FileResp && t.io.output.cb
    ensures var u := OutputStep(t, o);
            && Leaves(OriginOf(t), u)
            && if t.io.output.tasks > 1 then
                 u.pipe == t.pipe.(remote := AwaitOutputs) && u.io.output.tasks == t.io.output.tasks - 1
               else
                 Redone(t.pipe, u.pipe, t.cfg.linking, o.front)
  {
    hide OutputStep, OutputsReported, OutputsTo, Redone, Report, Leaves;
    var good := o.taskOk && !t.ctl.abort;
    ReportIs(t.io.output, good);
    var b := t.fact.success && (t.io.output.tasks == 0 || o.taskOk || t.ctl.abort);
    OutputStepIs(t, o);
    OutputsToMoves(t, Report(t.io.output, good), b, o);
  }

  lemma InfoMoves(t: Task, o: Oracle)
    requires t.ctl.phase == Setup
    ensures var u := FillCompilerInfoDone(t, o);
            && (u.pipe == t.pipe.(remote := AwaitInclude)
                || SetUp(t.pipe, u.pipe, t.cfg.linking, o.front))
            && Leaves(OriginOf(t), u)
  {
    hide SetupRequestDone, UpdateRequiredFilesDone, SetUp;
    if o.info == NoInfo {
      SetupDoneMoves(Failed(t), o, false);
    } else if o.info == InfoFound {
      FilesDoneMoves(t, o, true);
    } else {
      NoCompilerMoves(t, o, !t.cfg.failFast && t.loc.wantFallback);
    }
  }

  lemma NoCompilerMoves(t: Task, o: Oracle, b: bool)
    requires t.ctl.phase == Setup
    ensures var u := SetupRequestDone(ForceFallback(Failed(t), b), o, false);
            SetUp(t.pipe, u.pipe, t.cfg.linking, o.front) && Leaves(OriginOf(t), u)
  {
    hide SetupRequestDone, SetUp;
    SetupDoneMoves(ForceFallback(Failed(t), b), o, false);
  }

  lemma FilesDoneMoves(t: Task, o: Oracle, done: bool)
    requires t.ctl.phase == Setup
    ensures var u := UpdateRequiredFilesDone(t, o, done);
            SetUp(t.pipe, u.pipe, t.cfg.linking, o.front) && Leaves(OriginOf(t), u)
  {
    hide SetupRequestDone, SetUp;
    if !done && !t.cfg.verifyCommand {
      SetupDoneMoves(ForceFallback(t, !Stopped(t)), o, false);
    } else {
      SetupDoneMoves(t, o, true);
    }
  }

  lemma IncludeMoves(t: Task, o: Oracle)
    requires t.ctl.phase == Setup
    ensures var u := RunIncludeProcessorDone(t, o);
            SetUp(t.pipe, u.pipe, t.cfg.linking, o.front) && Leaves(OriginOf(t), u)
  {
    hide UpdateRequiredFilesDone, SetUp;
    FilesDoneMoves(t, o, false);
    FilesDoneMoves(SetSuccess(t, t.fact.success && (o.includeOk || !o.includeError)), o, o.includeOk);
  }

  /** File tasks still to report, for the two phases that wait for them. */
  function Reports(t: Task): nat {
    match t.pipe.remote
    case AwaitInputs => t.io.input.tasks
    case AwaitOutputs => t.io.output.tasks
    case _ => 0
  }

  lemma RemoteStepMoves(t: Task, o: Oracle)
    requires PhaseOf(t.pipe.remote, t.ctl.phase) && t.pipe.remote != Idle
    requires t.pipe.remote == AwaitInputs ==> t.io.input.cb
    requires t.pipe.remote == AwaitOutputs ==> t.io.output.cb
    ensures var u := RemoteStep(t, o);
            && Handled(t.pipe, u.pipe, t.cfg.linking, o.front) && Leaves(OriginOf(t), u)
            && (u.pipe == t.pipe && t.pipe.remote != Idle ==> Reports(u) < Reports(t))
  {
    hide FillCompilerInfoDone, RunIncludeProcessorDone, ProcessFileRequest, TryProcessFileRequest,
         InputStep, ProcessCallExec, ProcessCallExecDone, OutputStep, Leaves;
    var i := Await(t, Idle);
    match t.pipe.remote
    case AwaitInfo => InfoMoves(i, o);
    case AwaitInclude => IncludeMoves(i, o);
    case AwaitLink => FileRequestMoves(i, o);
    case AwaitFileRetry => TryMoves(i, o);
    case AwaitInputs => InputStepMoves(i, o);
    case AwaitExecRetry => CallExecMoves(i, o);
    case AwaitExec => ExecDoneMoves(i, o);
    case AwaitOutputs => OutputStepMoves(i, o);
  }
}
