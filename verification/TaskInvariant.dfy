/**
 What every handler of a compile task keeps, for configurations in which the
 CHECKs of client/compile_task.cc agree with each other.
 */
module TaskInvariant {
  import opened TaskMachine

  /** A heavy task that may run locally starts a subprocess with every Exec call,
      even where verify_output or GOMA_FALLBACK=false promise that there is none. */
  predicate HeavyConflict(c: Config) {
    c.heavy && c.useLocal && (c.verify || !c.fallback)
  }

  /** The gch hack forgets to reply when a setup fallback ends. The one escape is a
      verifying request for which no setup failure may force a fallback. */
  predicate GchConflict(c: Config) {
    c.gch && !(c.verify && c.verifyCommand && (!c.fallback || c.failFast))
  }

  predicate Consistent(c: Config) {
    !HeavyConflict(c) && !GchConflict(c)
  }

  /** The phases of the remote pipeline. */
  predicate InPipeline(p: Phase) {
    p == Setup || p == FileReq || p == CallExec || p == LocalOutput || p == FileResp
  }

  predicate PhaseOf(r: Remote, p: Phase) {
    match r
    case Idle => true
    case AwaitInfo => p == Setup
    case AwaitInclude => p == Setup
    case AwaitLink => p == Setup || p == FileReq || p == FileResp
    case AwaitFileRetry => p == FileReq
    case AwaitInputs => p == FileReq
    case AwaitExecRetry => p == FileReq
    case AwaitExec => p == CallExec
    case AwaitOutputs => p == FileResp
  }

  /** Who may be running, `active` telling whether the remote pipeline is. */
  predicate Owned(t: Task, active: bool) {
    var c := t.ctl;
    && (active ==> InPipeline(c.phase) && !c.finished && !t.loc.failFallback)
    && (InPipeline(c.phase) && !c.finished ==> active)
    && (c.abort ==> InPipeline(c.phase) && !c.rpc && t.cfg.fallback && !t.cfg.verify
                    && !t.cfg.gch && (active || c.finished))
    && (c.finished ==> c.phase == Finished || c.phase == LocalFinished || c.abort)
    && (c.phase == Init ==> c.rpc && (t.cfg.verify || t.loc.shouldFallback))
    && (c.phase == LocalRun ==> c.rpc && !t.loc.shouldFallback)
    && (c.phase == Finished ==> c.finished)
    && (c.phase == LocalFinished ==> c.finished && !c.rpc)
    && (t.loc.failFallback ==> c.phase == Finished && t.cfg.fallback && !t.cfg.verify
                               && !t.loc.shouldFallback)
    && (c.rpc && !active ==> t.loc.subproc)
    && (!c.rpc && !active ==> c.finished)
    && (!c.rpc && !c.finished ==> c.abort)
  }

  /** Where a local subprocess exists or may still appear. */
  predicate Locals(t: Task, active: bool) {
    && (t.loc.subproc ==> t.ctl.rpc && !t.loc.delayed)
    && (t.loc.delayed ==> active && t.ctl.rpc && t.cfg.useLocal && !t.cfg.heavy)
    && (t.cfg.verify || !t.cfg.fallback || t.cfg.gch ==>
          && (t.loc.subproc ==> t.ctl.phase == Init) && !t.loc.delayed && t.ctl.phase != LocalRun)
    && (t.cfg.gch ==> !t.loc.shouldFallback)
    && (t.loc.wantFallback ==> t.cfg.fallback)
    && (t.fact.canceled ==> !t.fact.gomacc)
    && (t.pipe.remote == AwaitOutputs && t.io.direct ==> !t.loc.subproc && !t.loc.delayed)
  }

  predicate Batches(t: Task) {
    && (t.io.input.cb <==> t.pipe.remote == AwaitInputs) && (t.io.input.tasks > 0 ==> t.io.input.cb)
    && (t.io.output.cb <==> t.pipe.remote == AwaitOutputs) && (t.io.output.tasks > 0 ==> t.io.output.cb)
    && (t.io.upload.tasks > 0 ==> t.io.upload.cb)
    && (t.io.upload.cb ==> !t.ctl.rpc)
  }

  predicate Counts(t: Task) {
    && t.log.replies == (if t.ctl.rpc then 0 else 1)
    && t.log.dones == (if !t.ctl.rpc && t.ctl.finished && !t.io.upload.cb then 1 else 0)
    && (t.log.answer == Unanswered <==> t.ctl.rpc)
    && t.log.remoteCommits <= t.log.commits <= 1
    && (t.log.commits > 0 ==> t.log.answer == RemoteResult)
    && (t.ctl.abort <==> t.log.answer == LocalFirst)
    && (t.ctl.phase == LocalFinished <==> t.log.answer == SetupFallback || t.log.answer == LocalOnly)
    && (t.log.dones > 0 ==> t.io.infos == 0)
    && t.pipe.retry <= MaxExecRetry + 1
    && t.pipe.execCalls <= t.pipe.retry + 1 && t.pipe.execCalls <= MaxExecRetry + 1
  }

  /** The task is on link_file_req_tasks_. */
  predicate InLinkQueue(t: Task) {
    t.cfg.linking && (t.pipe.remote == AwaitLink || t.pipe.remote == AwaitInputs)
  }

  predicate Queued(t: Task, inQueue: bool) {
    t.pipe.pushes == t.pipe.pops + if inQueue then 1 else 0
  }

  /** Before an Exec call, every earlier one has been paid for by a retry. */
  predicate Paid(t: Task) {
    t.pipe.execCalls <= t.pipe.retry
  }

  predicate BeforeExec(r: Remote) {
    r == AwaitInfo || r == AwaitInclude || r == AwaitLink || r == AwaitFileRetry
    || r == AwaitInputs || r == AwaitExecRetry
  }

  /** What holds while a handler runs; `active` says it acts for the remote pipeline. */
  predicate Running(t: Task, active: bool) {
    && t.ok && t.started && Consistent(t.cfg)
    && Owned(t, active) && Locals(t, active) && Batches(t) && Counts(t)
  }

  predicate Unstarted(t: Task) {
    Consistent(t.cfg) && t == NewTask(t.cfg)
  }

  /** Between handlers of a started task. */
  predicate Settled(t: Task) {
    && Running(t, t.pipe.remote != Idle)
    && PhaseOf(t.pipe.remote, t.ctl.phase)
    && (t.pipe.remote != Idle ==> !t.loc.shouldFallback)
    && (!t.ctl.finished ==> t.pipe.retry <= MaxExecRetry)
    && (BeforeExec(t.pipe.remote) || t.ctl.phase == Init ==> Paid(t))
    && Queued(t, InLinkQueue(t))
  }

  predicate Inv(t: Task) {
    Unstarted(t) || Settled(t)
  }

  /** A handler of the remote pipeline about to do its work; `queued` if it holds a
      place in the link queue. */
  predicate Acting(t: Task, queued: bool) {
    && Running(t, true) && t.pipe.remote == Idle && t.log.dones == 0
    && Queued(t, t.cfg.linking && queued)
  }

  // ---------------------------------------------------------------- replying

  /** ReplyResponse in one stroke, when its CHECKs hold. */
  function Replied(t: Task, how: Answer): Task {
    var u := t.(ctl := t.ctl.(rpc := false), fact := t.fact.(gomacc := false));
    if t.ctl.finished && !t.io.upload.cb then
      u.(io := t.io.(infos := 0),
         log := t.log.(replies := t.log.replies + 1, answer := how, dones := t.log.dones + 1))
    else
      u.(log := t.log.(replies := t.log.replies + 1, answer := how))
  }

  predicate CanReply(t: Task) {
    && t.ok && t.ctl.rpc && !t.loc.subproc && !t.loc.delayed
    && (t.ctl.finished ==> !t.io.input.cb && !t.io.output.cb)
    && (t.io.upload.tasks > 0 ==> t.io.upload.cb)
    && (if t.ctl.abort then !t.ctl.finished
        else t.ctl.finished && (t.ctl.phase == Finished || t.ctl.phase == LocalFinished))
  }

  lemma ReplyIs(t: Task, how: Answer)
    requires CanReply(t)
    ensures ReplyResponse(t, how) == Replied(t, how)
  {
  }

  /** What every reply does, its CHECKs holding or not. */
  lemma ReplyCounts(t: Task, how: Answer)
    ensures var u := ReplyResponse(t, how);
            && (u.ok ==> t.ok && t.ctl.rpc && !t.loc.subproc && !t.loc.delayed)
            && u.cfg == t.cfg && u.ctl == t.ctl.(rpc := false) && u.pipe == t.pipe && u.loc == t.loc
            && u.fact == t.fact.(gomacc := false) && u.io.upload == t.io.upload
            && u.log == t.log.(replies := t.log.replies + 1, answer := how, dones := u.log.dones)
            && u.log.dones == t.log.dones + if t.ctl.finished && !t.io.upload.cb then 1 else 0
  {
  }

  /** The remote pipeline is over and nothing has been replied: a state in which the
      task may reply with the remote result. */
  predicate Ended(t: Task) {
    && t.ok && t.started && Consistent(t.cfg) && Locals(t, false) && Batches(t)
    && t.ctl.phase == Finished && t.ctl.finished && !t.ctl.abort && t.ctl.rpc
    && t.pipe.remote == Idle && !t.io.upload.cb
    && t.log.answer == Unanswered && t.log.replies == 0 && t.log.dones == 0
    && t.log.commits == 0 && t.log.remoteCommits == 0
    && (t.loc.failFallback ==> t.cfg.fallback && !t.cfg.verify && !t.loc.shouldFallback)
    && t.pipe.retry <= MaxExecRetry + 1 && t.pipe.execCalls <= t.pipe.retry + 1
    && t.pipe.execCalls <= MaxExecRetry + 1
    && Queued(t, false)
  }

  lemma ProcessReplyKeeps(t: Task, o: Oracle)
    requires Ended(t) && !t.loc.subproc
    ensures Settled(ProcessReply(t, o))
  {
    hide ReplyResponse, Settled;
    var u := SetGomacc(t, t.fact.gomacc && o.aliveAtReply);
    if u.fact.gomacc {
      CommittedKeeps(u, !(t.loc.run && t.cfg.dontKill));
    } else {
      RemoteResultKeeps(u);
    }
  }

  lemma RemoteResultKeeps(t: Task)
    requires Ended(t) && !t.loc.subproc
    ensures Settled(ReplyResponse(t, RemoteResult))
  {
    hide ReplyResponse;
    ReplyIs(t, RemoteResult);
  }

  lemma CommittedKeeps(t: Task, useRemote: bool)
    requires Ended(t) && !t.loc.subproc
    ensures Settled(ReplyResponse(CommitOutput(t, useRemote), RemoteResult))
  {
    hide ReplyResponse;
    ReplyIs(CommitOutput(t, useRemote), RemoteResult);
  }

  lemma StopLocalKeeps(t: Task, o: Oracle)
    requires Ended(t)
    ensures Settled(StopLocal(t, o))
  {
    hide ProcessReply;
    if !t.loc.subproc { ProcessReplyKeeps(t, o); }
  }

  /** The CHECKs at the head of ProcessFinished, and what its callers promise. */
  predicate MayFinish(t: Task, quiet: bool) {
    && Acting(t, false)
    && (quiet && !Stopped(t) ==> t.fact.success && t.ctl.phase == FileResp)
    && (t.loc.shouldFallback ==> Stopped(t))
  }

  /** The remote result failed and a local run is allowed. */
  lemma FallBackKeeps(t: Task)
    requires t.cfg.fallback && !t.cfg.verify && !t.cfg.gch && t.loc.failFallback
    requires Ended(CancelDelayed(t))
    requires t.loc.subproc ==> !t.loc.delayed
    ensures Settled(RunLocal(t))
  {
  }

  lemma FinishRaceKeeps(t: Task, o: Oracle)
    requires t.cfg.fallback && !t.cfg.verify && !t.cfg.gch
    requires Ended(CancelDelayed(t)) && !t.loc.failFallback
    requires t.loc.subproc ==> !t.loc.delayed
    requires t.loc.shouldFallback ==> !t.fact.gomacc
    ensures Settled(FinishRace(t, o))
  {
    hide StopLocal, RunLocal, Settled;
    if t.fact.success || !t.fact.gomacc || !t.loc.wantFallback {
      StopLocalKeeps(CancelDelayed(t), o);
    } else {
      var u := t.(loc := t.loc.(failFallback := true));
      FallBackKeeps(u);
      StopLocalKeeps(CancelDelayed(u), o);
    }
  }

  /** ProcessFinished with abort_: the reply is out, Done waits for uploads only. */
  lemma AbortedKeeps(t: Task, o: Oracle, quiet: bool)
    requires MayFinish(t, quiet) && t.ctl.abort
    ensures Settled(ProcessFinished(t, o, quiet))
  {
    hide ReplyResponse, ProcessReply, FinishRace;
  }

  lemma VerifiedKeeps(t: Task)
    requires Ended(t) && t.cfg.verify && !t.loc.subproc
    ensures Settled(ReplyResponse(t, Verified))
  {
    hide ReplyResponse;
    ReplyIs(t, Verified);
  }

  lemma EndsIn(t: Task, u: Task, quiet: bool, g: bool)
    requires MayFinish(t, quiet) && !t.ctl.abort
    requires u == t.(ctl := t.ctl.(finished := true, phase := Finished))
    ensures u.cfg.verify || !u.cfg.fallback || u.cfg.gch ==> Ended(u) && !u.loc.subproc && !u.loc.delayed
    ensures u.cfg.gch ==> u.cfg.verify
    ensures (g ==> u.fact.gomacc) ==> Ended(CancelDelayed(SetGomacc(u, g)))
  {
  }

  lemma FinishedIs(t: Task, o: Oracle, quiet: bool)
    requires MayFinish(t, quiet) && !t.ctl.abort
    ensures ProcessFinished(t, o, quiet)
         == FinishRemote(t.(ctl := t.ctl.(finished := true, phase := Finished)), o)
    ensures !t.loc.failFallback && (t.loc.subproc ==> !t.loc.delayed)
    ensures t.loc.shouldFallback ==> !t.fact.gomacc
  {
    hide FinishRemote, ReplyResponse;
  }

  /** The remote pipeline is over without abort_. */
  lemma FinishRemoteKeeps(t: Task, o: Oracle, g: bool)
    requires t.ctl.phase == Finished && !t.ctl.abort && (t.cfg.gch ==> t.cfg.verify)
    requires g == (t.fact.gomacc && (t.fact.success || o.aliveAtFinish))
    requires t.cfg.verify || !t.cfg.fallback ==> Ended(t) && !t.loc.subproc && !t.loc.delayed
    requires Ended(CancelDelayed(SetGomacc(t, g))) && !t.loc.failFallback
    requires t.loc.subproc ==> !t.loc.delayed
    requires t.loc.shouldFallback ==> !t.fact.gomacc
    ensures Settled(FinishRemote(t, o))
  {
    hide ReplyResponse, ProcessReply, FinishRace, Done, Settled, Ended;
    if t.cfg.verify {
      VerifiedKeeps(t);
    } else if !t.cfg.fallback {
      ProcessReplyKeeps(t, o);
    } else {
      FinishRaceKeeps(SetGomacc(t, g), o);
    }
  }

  lemma FinishedKeeps(t: Task, o: Oracle, quiet: bool)
    requires MayFinish(t, quiet)
    ensures Settled(ProcessFinished(t, o, quiet))
  {
    if t.ctl.abort {
      AbortedKeeps(t, o, quiet);
    } else {
      hide ProcessFinished, FinishRemote, Settled, Ended, MayFinish;
      var u := t.(ctl := t.ctl.(finished := true, phase := Finished));
      var g := u.fact.gomacc && (u.fact.success || o.aliveAtFinish);
      EndsIn(t, u, quiet, g);
      FinishedIs(t, o, quiet);
      FinishRemoteKeeps(u, o, g);
    }
  }

  // ---------------------------------------------------------------- remote pipeline

  /** A handler of the remote pipeline that no setup failure has diverted. */
  predicate Working(t: Task, queued: bool) {
    Acting(t, queued) && !t.loc.shouldFallback && t.pipe.retry <= MaxExecRetry
  }

  /** u differs from t only in what it knows about the response, or trusts less. */
  predicate Informed(t: Task, u: Task) {
    && u.cfg == t.cfg && u.ok == t.ok && u.started == t.started
    && u.ctl == t.ctl && u.io == t.io && u.log == t.log
    && u.pipe == t.pipe.(retry := u.pipe.retry)
    && u.loc.subproc == t.loc.subproc && u.loc.delayed == t.loc.delayed
    && u.loc.shouldFallback == t.loc.shouldFallback && u.loc.failFallback == t.loc.failFallback
    && (u.loc.wantFallback ==> t.loc.wantFallback)
    && u.fact.canceled == t.fact.canceled && (u.fact.gomacc ==> t.fact.gomacc)
    && t.pipe.retry <= u.pipe.retry <= MaxExecRetry + 1
  }

  lemma InformedActs(t: Task, u: Task, queued: bool)
    requires Acting(t, queued) && Informed(t, u)
    ensures Acting(u, queued)
  {
  }

  lemma FailedIsInformed(t: Task)
    requires t.pipe.retry <= MaxExecRetry
    ensures Informed(t, Failed(t)) && Informed(t, CountRetry(Failed(t)))
  {
  }

  /** A failing pipeline hands over to ProcessFinished. */
  lemma FailureKeeps(t: Task, u: Task, o: Oracle)
    requires Working(t, false) && Informed(t, u)
    ensures Settled(ProcessFinished(u, o, false))
  {
    hide Acting, Settled, ProcessFinished;
    InformedActs(t, u, false);
    FinishedKeeps(u, o, false);
  }

  lemma LocalRunKeeps(t: Task)
    requires Working(t, false) && t.loc.subproc
    ensures Settled(To(t, LocalRun))
  {
  }

  lemma LeaveIs(t: Task)
    requires t.ok && Queued(t, t.cfg.linking)
    ensures Queued(LeaveLinkQueue(t), false)
    ensures LeaveLinkQueue(t) == t.(pipe := LeaveLinkQueue(t).pipe)
    ensures LeaveLinkQueue(t).pipe == t.pipe.(pops := LeaveLinkQueue(t).pipe.pops)
  {
  }

  /** A handler that gives up its place in the queue goes on without one. */
  lemma LeaveWorks(t: Task)
    requires Working(t, true)
    ensures Working(LeaveLinkQueue(t), false)
  {
  }

  lemma FileRequestKeeps(t: Task, o: Oracle)
    requires Working(t, true) && Paid(t)
    requires t.ctl.phase == Setup || t.ctl.phase == FileReq || t.ctl.phase == FileResp
    ensures Settled(ProcessFileRequest(t, o))
  {
    hide ProcessFinished, LeaveLinkQueue, ShouldStopGoma;
    LeaveIs(t);
    if Stopped(t) {
      FinishedKeeps(LeaveLinkQueue(t), o, false);
    } else {
      var u := To(t, FileReq);
      LeaveIs(u);
      if ShouldStopGoma(u, o) {
        hide Settled;
        assert u.loc.subproc by { ShouldStopNeedsSubproc(u, o); }
        LocalRunKeeps(LeaveLinkQueue(u));
      } else {
        SendingKeeps(u, o);
      }
    }
  }

  lemma SendingKeeps(t: Task, o: Oracle)
    requires Working(t, true) && Paid(t) && t.ctl.phase == FileReq && !ShouldStopGoma(t, o)
    ensures Settled(SendInputs(t, o))
  {
    hide ShouldStopGoma;
  }

  lemma ShouldStopNeedsSubproc(t: Task, o: Oracle)
    ensures ShouldStopGoma(t, o) ==> t.loc.subproc
  {
  }

  lemma TryFileRequestKeeps(t: Task, o: Oracle)
    requires Working(t, false) && Paid(t)
    requires t.ctl.phase == Setup || t.ctl.phase == FileReq || t.ctl.phase == FileResp
    ensures Settled(TryProcessFileRequest(t, o))
  {
    hide ProcessFileRequest;
    if !t.cfg.linking {
      FileRequestKeeps(t, o);
    } else if o.front {
      FileRequestKeeps(JoinLinkQueue(t), o);
    }
  }

  lemma SetupDoneKeeps(t: Task, o: Oracle, done: bool)
    requires Acting(t, false) && Paid(t) && t.ctl.phase == Setup && t.pipe.retry <= MaxExecRetry
    requires done ==> !t.loc.shouldFallback
    ensures Settled(SetupRequestDone(t, o, done))
  {
    hide ProcessFinished, TryProcessFileRequest;
    if Stopped(t) {
      hide Settled, Acting;
      FinishedKeeps(t, o, false);
    } else if done {
      TryFileRequestKeeps(t, o);
    } else if !t.loc.shouldFallback {
      FailureKeeps(t, Failed(t), o);
    }
  }

  lemma AwaitIncludeKeeps(t: Task)
    requires Working(t, false) && Paid(t) && t.ctl.phase == Setup
    ensures Settled(Await(t, AwaitInclude))
  {
  }

  lemma ForcedActs(t: Task, b: bool)
    requires Acting(t, false) && (b ==> !t.cfg.gch || (t.loc.wantFallback && !t.cfg.failFast))
    ensures Acting(ForceFallback(t, b), false)
  {
  }

  lemma CompilerInfoKeeps(t: Task, o: Oracle)
    requires Working(t, false) && Paid(t) && t.ctl.phase == Setup
    ensures Settled(FillCompilerInfoDone(t, o))
  {
    hide SetupRequestDone, UpdateRequiredFilesDone, Settled, Acting, Informed;
    FailedIsInformed(t);
    InformedActs(t, Failed(t), false);
    match o.info
    case NoInfo => SetupDoneKeeps(Failed(t), o, false);
    case InfoFound =>
      FilesDoneKeeps(t, o, true);
      AwaitIncludeKeeps(t);
    case _ =>
      ForcedActs(Failed(t), !t.cfg.failFast && t.loc.wantFallback);
      SetupDoneKeeps(ForceFallback(Failed(t), !t.cfg.failFast && t.loc.wantFallback), o, false);
  }

  lemma WorkingConsistent(t: Task)
    requires Working(t, false)
    ensures Consistent(t.cfg)
  {
  }

  lemma FilesDoneKeeps(t: Task, o: Oracle, done: bool)
    requires Working(t, false) && Paid(t) && t.ctl.phase == Setup
    ensures Settled(UpdateRequiredFilesDone(t, o, done))
  {
    hide SetupRequestDone, Settled, Acting;
    if !done && !t.cfg.verifyCommand {
      assert !t.cfg.gch by { WorkingConsistent(t); }
      ForcedActs(t, !Stopped(t));
      SetupDoneKeeps(ForceFallback(t, !Stopped(t)), o, false);
    } else {
      SetupDoneKeeps(t, o, true);
    }
  }

  lemma IncludeKeeps(t: Task, o: Oracle)
    requires Working(t, false) && Paid(t) && t.ctl.phase == Setup
    ensures Settled(RunIncludeProcessorDone(t, o))
  {
    hide SetupRequestDone, Settled, Acting, Informed;
    if Stopped(t) && o.includeSkipped {
      FilesDoneKeeps(t, o, false);
    } else {
      var b := t.fact.success && (o.includeOk || !o.includeError);
      assert SetSuccess(t, b) == t.(fact := t.fact.(success := b, missing := t.fact.missing));
      HeardActs(t, b, t.fact.missing);
      FilesDoneKeeps(SetSuccess(t, b), o, o.includeOk);
    }
  }

  lemma CallExecKeeps(t: Task, o: Oracle)
    requires Working(t, false) && Paid(t) && t.ctl.phase == FileReq
    ensures Settled(ProcessCallExec(t, o))
  {
    hide ProcessFinished, ShouldStopGoma;
    if Stopped(t) {
      FinishedKeeps(t, o, false);
    } else {
      var u := To(t, CallExec);
      ShouldStopNeedsSubproc(u, o);
      if ShouldStopGoma(u, o) { LocalRunKeeps(u); }
    }
  }

  lemma ClearedActs(t: Task)
    requires Acting(t, false)
    ensures Acting(ClearOutputs(t), false)
    ensures t.cfg.verify ==> !t.loc.subproc && !t.loc.delayed
  {
  }

  lemma FileResponseDoneKeeps(t: Task, o: Oracle)
    requires Working(t, false) && t.ctl.phase == FileResp
    ensures Settled(ProcessFileResponseDone(t, o))
  {
    hide ProcessFinished, TryProcessFileRequest, OutputFailed, Settled, Acting;
    if Stopped(t) {
      FinishedKeeps(t, o, false);
    } else if !t.io.output.good {
      OutputFailedKeeps(t, o);
    } else if t.cfg.verify {
      assert Acting(ClearOutputs(t), false) && !t.loc.subproc && !t.loc.delayed by { ClearedActs(t); }
      FailureKeeps(ClearOutputs(t), SetSuccess(ClearOutputs(t), t.fact.success && o.verifyOk), o);
    } else if t.fact.success {
      FinishedKeeps(t, o, true);
    } else {
      ClearedActs(t);
      FinishedKeeps(ClearOutputs(t), o, false);
    }
  }

  lemma ActingCalls(t: Task)
    requires Acting(t, false)
    ensures t.pipe.execCalls <= t.pipe.retry + 1
  {
  }

  lemma OutputFailedKeeps(t: Task, o: Oracle)
    requires Working(t, false) && t.ctl.phase == FileResp
    ensures Settled(OutputFailed(t, o))
  {
    hide ProcessFinished, TryProcessFileRequest, Settled, Acting, Informed;
    var u := Failed(t);
    FailedIsInformed(t);
    if !t.cfg.gch && t.loc.subproc && o.runningLate {
      LocalRunKeeps(t);
    } else if o.compilerDisabled || !o.healthy {
      FailureKeeps(t, u, o);
    } else if t.pipe.retry + 1 <= MaxExecRetry {
      InformedActs(t, CountRetry(u), false);
      assert Paid(CountRetry(u)) by { ActingCalls(t); }
      TryFileRequestKeeps(CountRetry(u), o);
    } else {
      FailureKeeps(t, CountRetry(u), o);
    }
  }

  lemma MissingActs(t: Task)
    requires Acting(t, false)
    ensures Acting(MissingInputs(t), false)
  {
  }

  lemma DownloadsKeep(t: Task, o: Oracle, direct: bool)
    requires Working(t, false) && t.ctl.phase == FileResp
    requires direct ==> !t.loc.subproc && !t.loc.delayed
    ensures Settled(Download(t, o, direct))
  {
  }

  /** A download may write the final file names only while no subprocess exists. */
  lemma DownloadKeeps(t: Task, o: Oracle)
    requires Working(t, false) && t.ctl.phase == FileResp
    ensures Settled(StartDownload(t, o))
  {
    hide Settled, Download;
    if t.cfg.verify || !t.fact.success {
      DownloadsKeep(t, o, false);
    } else {
      DownloadsKeep(CancelDelayed(t), o, !t.loc.subproc);
    }
  }

  lemma FileResponseKeeps(t: Task, o: Oracle)
    requires Working(t, false) && (t.ctl.phase == CallExec || t.ctl.phase == LocalOutput)
    ensures Settled(ProcessFileResponse(t, o))
  {
    hide ProcessFinished, ProcessFileResponseDone, ShouldStopGoma, Settled, StartDownload;
    if Stopped(t) {
      FinishedKeeps(t, o, false);
    } else {
      var u := To(t, FileResp);
      assert Working(u, false);
      hide Acting;
      ShouldStopNeedsSubproc(u, o);
      if ShouldStopGoma(u, o) {
        LocalRunKeeps(u);
      } else if u.fact.missing {
        InformedActs(u, Failed(u), false);
        MissingActs(Failed(u));
        FileResponseDoneKeeps(MissingInputs(Failed(u)), o);
      } else if !(u.fact.gomacc && o.aliveAtResponse) {
        FailureKeeps(u, Failed(SetGomacc(u, false)), o);
      } else {
        DownloadKeeps(u, o);
      }
    }
  }

  lemma ExecRetryKeeps(t: Task)
    requires Working(t, false) && t.ctl.phase == CallExec && t.pipe.retry + 1 <= MaxExecRetry
    ensures Settled(Await(To(CountRetry(t), FileReq), AwaitExecRetry))
  {
  }

  lemma ExecFailedKeeps(t: Task, o: Oracle)
    requires Working(t, false) && t.ctl.phase == CallExec
    ensures Settled(ExecFailed(t, o))
  {
    hide ProcessFinished, Settled, Acting, Informed, CheckCommandSpec, RejectFlags;
    if !o.healthy {
      SpecIsInformed(t, t, o);
      FailureKeeps(t, CheckCommandSpec(t, o), o);
    } else if t.pipe.retry + 1 <= MaxExecRetry && !o.fatal {
      ExecRetryKeeps(t);
    } else {
      RejectIsInformed(t, o);
      SpecIsInformed(t, RejectFlags(CountRetry(t), o), o);
      FailureKeeps(t, CheckCommandSpec(RejectFlags(CountRetry(t), o), o), o);
    }
  }

  lemma SpecIsInformed(t: Task, u: Task, o: Oracle)
    requires t.ctl.phase == CallExec && (u == t || Informed(t, u)) && t.pipe.retry <= MaxExecRetry
    ensures Informed(t, CheckCommandSpec(u, o))
  {
  }

  lemma RejectIsInformed(t: Task, o: Oracle)
    requires t.pipe.retry <= MaxExecRetry
    ensures Informed(t, RejectFlags(CountRetry(t), o))
  {
  }

  lemma HeardActs(t: Task, success: bool, missing: bool)
    requires Working(t, false)
    ensures Acting(t.(fact := t.fact.(success := success, missing := missing)), false)
  {
    hide Acting;
    InformedActs(t, t.(fact := t.fact.(success := success, missing := missing)), false);
  }

  /** A check of the command spec costs at most the success and the fallback. */
  lemma SpecIs(t: Task, o: Oracle)
    ensures var u := CheckCommandSpec(t, o);
            && (u.ok <==> t.ok && t.ctl.phase == CallExec)
            && u.ctl == t.ctl && u.pipe == t.pipe && u.io == t.io && u.log == t.log
            && u.loc == t.loc.(wantFallback := t.loc.wantFallback && (o.specError ==> o.hermeticFallback))
            && u.fact == t.fact.(success := t.fact.success && !o.specError)
  {
  }

  lemma SpecActs(t: Task, o: Oracle)
    requires Working(t, false) && t.ctl.phase == CallExec
    ensures Working(CheckCommandSpec(t, o), false) && CheckCommandSpec(t, o).ctl == t.ctl
  {
    hide Acting;
    InformedActs(t, CheckCommandSpec(t, o), false);
  }

  lemma RpcFailedKeeps(t: Task, o: Oracle)
    requires Working(t, false) && t.ctl.phase == CallExec
    ensures Settled(RpcFailed(t, o))
  {
    hide ProcessFinished, ExecFailed, Settled, Acting, Informed;
    FailedIsInformed(t);
    if t.loc.subproc && o.runningLate && !o.receiving {
      LocalRunKeeps(t);
    } else if o.serverError || o.retryable || o.receiving {
      InformedActs(t, Failed(t), false);
      ExecFailedKeeps(Failed(t), o);
    } else {
      FailureKeeps(t, Failed(t), o);
    }
  }

  lemma ExecDoneKeeps(t: Task, o: Oracle)
    requires Working(t, false) && t.ctl.phase == CallExec
    ensures Settled(ProcessCallExecDone(t, o))
  {
    hide ProcessFinished, ProcessFileResponse, ExecFailed, RpcFailed, CheckCommandSpec,
         Settled, Acting, Informed;
    var u := t.(fact := t.fact.(success := o.execSuccess, missing := o.execMissing));
    assert Acting(u, false) by { HeardActs(t, o.execSuccess, o.execMissing); }
    if Stopped(u) {
      FinishedKeeps(u, o, false);
    } else if o.rpcErr {
      RpcFailedKeeps(u, o);
    } else if u.fact.missing {
      FileResponseKeeps(u, o);
    } else if o.serverError {
      ExecFailedKeeps(u, o);
    } else {
      SpecActs(u, o);
      FileResponseKeeps(CheckCommandSpec(u, o), o);
    }
  }

  lemma FileRetryKeeps(t: Task)
    requires Working(t, false) && Paid(t) && t.ctl.phase == FileReq
    ensures Settled(Await(t, AwaitFileRetry))
  {
  }

  lemma InputRetryKeeps(t: Task, o: Oracle)
    requires Working(t, false) && Paid(t) && t.ctl.phase == FileReq
    ensures Settled(RetryOr(CountRetry(Failed(t)), o, AwaitFileRetry))
  {
    hide ProcessFinished, Settled, Acting, Informed;
    FailedIsInformed(t);
    if t.pipe.retry + 1 > MaxExecRetry {
      FailureKeeps(t, CountRetry(Failed(t)), o);
    } else {
      InformedActs(t, CountRetry(Failed(t)), false);
      FileRetryKeeps(CountRetry(Failed(t)));
    }
  }

  lemma InputFailedKeeps(t: Task, o: Oracle)
    requires Working(t, false) && Paid(t) && t.ctl.phase == FileReq
    ensures Settled(InputFailed(t, o))
  {
    hide ProcessFinished, Settled, Acting, RetryOr, Informed;
    FailedIsInformed(t);
    if t.loc.subproc && o.runningLate {
      LocalRunKeeps(t);
    } else if !(o.healthy && o.uploading) {
      FailureKeeps(t, Failed(t), o);
    } else {
      InputRetryKeeps(t, o);
    }
  }

  lemma FileRequestDoneKeeps(t: Task, o: Oracle)
    requires Working(t, true) && Paid(t) && t.ctl.phase == FileReq
    ensures Settled(ProcessFileRequestDone(t, o))
  {
    hide ProcessFinished, ProcessFileResponse, ProcessCallExec, InputFailed, LeaveLinkQueue, Settled;
    var u := LeaveLinkQueue(t);
    LeaveIs(t);
    if Stopped(u) {
      FinishedKeeps(u, o, false);
    } else if !u.io.input.good {
      InputFailedKeeps(u, o);
    } else if o.cacheHit {
      FileResponseKeeps(SetSuccess(To(u, LocalOutput), true), o);
    } else {
      CallExecKeeps(u, o);
    }
  }

  // ---------------------------------------------------------------- events

  lemma ReportIs(b: Batch, good: bool)
    ensures Report(b, good).cb == b.cb
    ensures Report(b, good).tasks == if b.tasks == 0 then 0 else b.tasks - 1
  {
  }

  /** The input batch t holds, as seen by the handler that is told of one more report. */
  predicate InputsHeard(t: Task) {
    && t.io.input.cb && t.ctl.phase == FileReq && Paid(t)
    && if t.io.input.tasks > 0 then Settled(Await(t, AwaitInputs))
       else Working(InputsTo(t, t.io.input.(cb := false), t.fact.success), true)
  }

  lemma InputsHeardKeeps(t: Task, o: Oracle)
    requires InputsHeard(t)
    ensures Settled(InputsReported(t, o))
  {
    hide ProcessFileRequestDone, Settled, Working;
    if t.io.input.tasks == 0 {
      FileRequestDoneKeeps(InputsTo(t, t.io.input.(cb := false), t.fact.success), o);
    }
  }

  lemma InputReported(t: Task, good: bool, success: bool)
    requires Settled(t) && t.pipe.remote == AwaitInputs
    ensures t.ctl.phase == FileReq
    ensures InputsHeard(InputsTo(Await(t, Idle), Report(t.io.input, good), success))
  {
    hide Report;
    ReportIs(t.io.input, good);
    if t.io.input.tasks > 1 { MoreInputsKeeps(t, Report(t.io.input, good), success); }
  }

  lemma MoreInputsKeeps(t: Task, b: Batch, success: bool)
    requires Settled(t) && t.pipe.remote == AwaitInputs && b.cb
    ensures Settled(Await(InputsTo(Await(t, Idle), b, success), AwaitInputs))
  {
  }

  lemma InputStepKeeps(t: Task, o: Oracle)
    requires Settled(t) && t.pipe.remote == AwaitInputs
    ensures Settled(InputStep(Await(t, Idle), o))
  {
    hide InputsReported, Settled, Working, InputsHeard, Report, InputsTo;
    var good := o.taskOk && !t.ctl.abort;
    var b := t.fact.success && (t.io.input.tasks == 0 || o.taskOk || t.ctl.abort || o.badInput);
    InputReported(t, good, b);
    InputsHeardKeeps(InputsTo(Await(t, Idle), Report(t.io.input, good), b), o);
  }

  /** More input file tasks are to come: only the batch and the result so far change. */
  lemma InputGoesOn(t: Task, o: Oracle)
    requires t.ctl.phase == FileReq && t.io.input.cb && t.io.input.tasks > 1
    ensures var u := InputStep(t, o);
            && u.io.input == Batch(true, t.io.input.tasks - 1, t.io.input.good && o.taskOk && !t.ctl.abort)
            && u.ctl == t.ctl && u.loc == t.loc && u.log == t.log
  {
    hide ProcessFileRequestDone;
  }

  predicate OutputsHeard(t: Task) {
    && t.io.output.cb && t.ctl.phase == FileResp
    && if t.io.output.tasks > 0 then Settled(Await(t, AwaitOutputs))
       else Working(OutputsTo(t, t.io.output.(cb := false), t.fact.success), false)
  }

  lemma OutputsHeardKeeps(t: Task, o: Oracle)
    requires OutputsHeard(t)
    ensures Settled(OutputsReported(t, o))
  {
    hide ProcessFileResponseDone, Settled, Working;
    if t.io.output.tasks == 0 {
      FileResponseDoneKeeps(OutputsTo(t, t.io.output.(cb := false), t.fact.success), o);
    }
  }

  lemma OutputReported(t: Task, good: bool, success: bool)
    requires Settled(t) && t.pipe.remote == AwaitOutputs
    ensures t.ctl.phase == FileResp
    ensures OutputsHeard(OutputsTo(Await(t, Idle), Report(t.io.output, good), success))
  {
    hide Report;
    ReportIs(t.io.output, good);
    if t.io.output.tasks > 1 { MoreOutputsKeeps(t, Report(t.io.output, good), success); }
  }

  lemma MoreOutputsKeeps(t: Task, b: Batch, success: bool)
    requires Settled(t) && t.pipe.remote == AwaitOutputs && b.cb
    ensures Settled(Await(OutputsTo(Await(t, Idle), b, success), AwaitOutputs))
  {
  }

  lemma OutputStepKeeps(t: Task, o: Oracle)
    requires Settled(t) && t.pipe.remote == AwaitOutputs
    ensures Settled(OutputStep(Await(t, Idle), o))
  {
    hide OutputsReported, Settled, Working, OutputsHeard, Report, OutputsTo;
    var good := o.taskOk && !t.ctl.abort;
    var b := t.fact.success && (t.io.output.tasks == 0 || o.taskOk || t.ctl.abort);
    OutputReported(t, good, b);
    OutputsHeardKeeps(OutputsTo(Await(t, Idle), Report(t.io.output, good), b), o);
  }

  /** More output file tasks are to come: only the batch and the result so far change. */
  lemma OutputGoesOn(t: Task, o: Oracle)
    requires t.ctl.phase == FileResp && t.io.output.cb && t.io.output.tasks > 1
    ensures var u := OutputStep(t, o);
            && u.io.output == Batch(true, t.io.output.tasks - 1, t.io.output.good && o.taskOk && !t.ctl.abort)
            && u.ctl == t.ctl && u.loc == t.loc && u.log == t.log
  {
    hide ProcessFileResponseDone;
  }

  lemma RemoteStepKeeps(t: Task, o: Oracle)
    requires Settled(t) && t.pipe.remote != Idle && t.log.dones == 0
    ensures Settled(RemoteStep(t, o))
  {
    hide Settled, FillCompilerInfoDone, RunIncludeProcessorDone, ProcessFileRequest,
         TryProcessFileRequest, ProcessCallExec, ProcessCallExecDone, InputStep, OutputStep;
    if t.pipe.remote == AwaitInputs {
      InputStepKeeps(t, o);
    } else if t.pipe.remote == AwaitOutputs {
      OutputStepKeeps(t, o);
    } else {
      var u := Await(t, Idle);
      WokenWorks(t);
      match t.pipe.remote
      case AwaitInfo => CompilerInfoKeeps(u, o);
      case AwaitInclude => IncludeKeeps(u, o);
      case AwaitLink => FileRequestKeeps(u, o);
      case AwaitFileRetry => TryFileRequestKeeps(u, o);
      case AwaitExecRetry => CallExecKeeps(u, o);
      case AwaitExec => ExecDoneKeeps(u, o);
    }
  }

  lemma WokenWorks(t: Task)
    requires Settled(t) && t.pipe.remote != Idle && t.log.dones == 0
    requires t.pipe.remote != AwaitInputs && t.pipe.remote != AwaitOutputs
    ensures Working(Await(t, Idle), t.pipe.remote == AwaitLink)
    ensures PhaseOf(t.pipe.remote, t.ctl.phase)
    ensures BeforeExec(t.pipe.remote) ==> Paid(t)
  {
  }

  lemma DelayedKeeps(t: Task)
    requires Settled(t) && t.loc.delayed
    ensures Settled(SetupSubProcess(t))
  {
  }

  lemma UploadKeeps(t: Task)
    requires Settled(t) && t.io.upload.cb
    ensures Settled(UploadStep(t))
  {
    if t.io.upload.tasks <= 1 && t.ctl.finished { UploadedKeeps(t); }
  }

  /** The last upload of a finished task. */
  lemma UploadedKeeps(t: Task)
    requires Settled(t) && t.io.upload.cb && t.ctl.finished
    ensures Settled(ProcessLocalFileOutputDone(t.(io := t.io.(upload := NoBatch))))
  {
  }

  lemma ClosedKeeps(t: Task, o: Oracle)
    requires Settled(t) && t.log.dones == 0
    ensures Settled(GomaccClosed(t, o))
  {
    hide Settled, Cancel;
    CancelKeeps(t);
    if t.loc.subproc { KillKeeps(Cancel(t), o); }
  }

  lemma CancelKeeps(t: Task)
    requires Settled(t)
    ensures Settled(Cancel(t)) && Cancel(t).loc == t.loc
  {
  }

  lemma KillKeeps(t: Task, o: Oracle)
    requires Settled(t) && t.loc.subproc
    ensures Settled(KillSubProcess(t, o))
  {
  }

  /** The subprocess of a settled task is gone and its result is about to be used. */
  predicate LocalOver(t: Task) {
    Settled(t.(loc := t.loc.(subproc := true))) && !t.loc.subproc && !t.io.upload.cb
  }

  /** Like LocalOver, once ProcessLocalFileOutput has run. */
  predicate LocalUploads(t: Task, gomaFailure: bool) {
    && LocalOver(t.(io := t.io.(upload := NoBatch))) && !t.cfg.gch
    && (t.io.upload.tasks > 0 ==> t.io.upload.cb)
    && (gomaFailure ==> !t.io.upload.cb)
  }

  lemma ReplyLocalKeeps(t: Task, gomaFailure: bool)
    requires LocalUploads(t, gomaFailure)
    requires !t.cfg.verify || t.loc.shouldFallback
    requires t.ctl.phase == Finished ==> t.loc.failFallback
    ensures Settled(ReplyLocal(t, gomaFailure))
  {
    hide ReplyResponse;
    if t.loc.shouldFallback {
      ReplyIs(LocalDone(t), SetupFallback);
    } else if t.loc.failFallback {
      ReplyIs(t, FailFallback);
    } else if t.ctl.phase == LocalRun {
      ReplyIs(LocalDone(t), LocalOnly);
    } else if !gomaFailure {
      LocalFirstKeeps(t);
    }
  }

  /** The subprocess wins while the remote pipeline is still at work. */
  lemma LocalFirstKeeps(t: Task)
    requires LocalUploads(t, false) && !t.cfg.verify && !t.loc.shouldFallback && !t.loc.failFallback
    requires t.ctl.phase != Finished && t.ctl.phase != LocalRun
    ensures Settled(ReplyResponse(t.(ctl := t.ctl.(abort := true)), LocalFirst))
  {
    hide ReplyResponse;
    ReplyIs(t.(ctl := t.ctl.(abort := true)), LocalFirst);
  }

  lemma UploadsStart(t: Task, o: Oracle)
    requires LocalOver(t) && !t.cfg.gch
    ensures LocalUploads(if RunFailed(t, o) then t else ProcessLocalFileOutput(t, o), GomaFailure(t, o))
  {
    hide Settled, LocalOver, ProcessLocalFileOutput;
    OutputsUpload(t, o);
    OverIdle(t);
    NoUploadIs(t);
  }

  /** The outputs of a local run that is over are uploaded, if they are stored at all. */
  lemma OutputsUpload(t: Task, o: Oracle)
    requires LocalOver(t) && !t.cfg.gch
    ensures LocalUploads(ProcessLocalFileOutput(t, o), false)
  {
    hide Settled;
    assert t.io.upload.tasks == 0 by { OverIdle(t); }
    var u := ProcessLocalFileOutput(t, o);
    assert u.(io := u.io.(upload := NoBatch)) == t.(io := t.io.(upload := NoBatch));
    NoUploadIs(t);
  }

  lemma OverIdle(t: Task)
    requires LocalOver(t)
    ensures t.io.upload.tasks == 0 && !t.io.upload.cb
  {
  }

  lemma NoUploadIs(t: Task)
    requires LocalOver(t)
    ensures LocalOver(t.(io := t.io.(upload := NoBatch)))
  {
  }

  /** Either the remote side begins, or it leaves the task to its subprocess. */
  lemma SetupBegins(t: Task, o: Oracle)
    ensures var u := ProcessSetup(t, o);
            && (u.ok <==> t.ok && t.ctl.phase == Init && !t.ctl.abort && !t.loc.shouldFallback)
            && (if u.ctl.phase == LocalRun then t.loc.subproc && !t.cfg.verify && !t.cfg.gch && u.pipe == t.pipe
                else u.ctl.phase == Setup && u.pipe == t.pipe.(remote := AwaitInfo))
            && u.ctl == t.ctl.(phase := u.ctl.phase)
            && u.loc == t.loc && u.fact == t.fact && u.io == t.io && u.log == t.log
  {
  }

  lemma ProcessSetupKeeps(t: Task, o: Oracle)
    requires LocalOver(t) && t.cfg.verify && t.ctl.phase == Init && !t.loc.shouldFallback
    requires Paid(t)
    ensures Settled(ProcessSetup(t, o))
  {
  }

  lemma SubprocOver(t: Task, run: bool, success: bool)
    requires Settled(t) && t.loc.subproc
    ensures var u := t.(loc := t.loc.(subproc := false, run := run), fact := t.fact.(success := success));
            && LocalOver(u)
            && (t.ctl.phase == Finished ==> Ended(u))
            && (t.cfg.gch ==> t.cfg.verify && !t.loc.shouldFallback && t.ctl.phase == Init)
            && (t.cfg.verify && !t.loc.shouldFallback ==> t.ctl.phase == Init)
            && (t.ctl.phase == Init ==> Paid(t))
            && !t.ctl.abort
  {
  }

  lemma FinishSubProcessIs(t: Task, o: Oracle)
    requires !t.ctl.abort && t.loc.subproc
    ensures FinishSubProcess(t, o)
         == LocalFinish(t.(loc := t.loc.(subproc := false, run := t.loc.run || o.procStarted),
                           fact := t.fact.(success := t.fact.success && !Broken(o))), o)
  {
    hide LocalFinish;
  }

  lemma LocalFinishKeeps(t: Task, o: Oracle)
    requires t.ctl.phase == Finished ==> Ended(t)
    requires !t.loc.subproc && LocalOver(SetSuccess(t, o.status == 0))
    requires t.cfg.gch ==> t.cfg.verify && !t.loc.shouldFallback
    requires t.cfg.verify && !t.loc.shouldFallback ==> t.ctl.phase == Init
    requires t.ctl.phase == Init ==> Paid(t)
    ensures Settled(LocalFinish(t, o))
  {
    hide ProcessReply, UseLocalResult, Settled, LocalOver, Ended;
    if t.ctl.phase == Finished && !t.loc.failFallback {
      ProcessReplyKeeps(t, o);
    } else {
      LocalResultKeeps(SetSuccess(t, o.status == 0), o);
    }
  }

  lemma SubprocKeeps(t: Task, o: Oracle)
    requires Settled(t) && t.loc.subproc
    ensures Settled(FinishSubProcess(t, o))
  {
    hide FinishSubProcess, LocalFinish, Settled, LocalOver, Ended;
    var run := t.loc.run || o.procStarted;
    var u := t.(loc := t.loc.(subproc := false, run := run),
                fact := t.fact.(success := t.fact.success && !Broken(o)));
    SubprocOver(t, run, t.fact.success && !Broken(o));
    SubprocOver(t, run, o.status == 0);
    FinishSubProcessIs(t, o);
    LocalFinishKeeps(u, o);
  }

  lemma LocalResultKeeps(t: Task, o: Oracle)
    requires LocalOver(t) && (t.ctl.phase == Finished ==> t.loc.failFallback)
    requires t.cfg.gch ==> t.cfg.verify && !t.loc.shouldFallback
    requires t.cfg.verify && !t.loc.shouldFallback ==> t.ctl.phase == Init
    requires t.ctl.phase == Init ==> Paid(t)
    ensures Settled(UseLocalResult(t, o))
  {
    hide ReplyLocal, ProcessSetup, Settled, LocalOver, LocalUploads;
    if t.cfg.verify && !t.loc.shouldFallback {
      ProcessSetupKeeps(t, o);
    } else {
      UploadsStart(t, o);
      ReplyLocalKeeps(if RunFailed(t, o) then t else ProcessLocalFileOutput(t, o), GomaFailure(t, o));
    }
  }

  /** A started task in INIT, with nothing running yet. */
  predicate Fresh(t: Task) {
    && Consistent(t.cfg) && t.started
    && t == NewTask(t.cfg).(started := true, fact := t.fact, loc := t.loc)
    && t.pipe.retry == 0 && !t.fact.canceled
    && t.loc == NewTask(t.cfg).loc.(wantFallback := t.cfg.fallback, shouldFallback := t.loc.shouldFallback)
    && (t.cfg.gch ==> !t.loc.shouldFallback)
  }

  lemma InitFailureKeeps(t: Task, o: Oracle)
    requires Fresh(t)
    ensures Settled(ProcessFinished(t, o, false))
  {
    hide ReplyResponse, FinishRemote;
    ReplyIs(t.(ctl := t.ctl.(finished := true, phase := Finished)), InitFailure);
  }

  lemma RunAtStartKeeps(t: Task)
    requires Fresh(t) && (t.cfg.verify || t.loc.shouldFallback)
    ensures Settled(RunSubProcess(SetupSubProcess(t)))
  {
  }

  lemma StartRaceKeeps(t: Task, o: Oracle)
    requires Fresh(t) && !t.cfg.verify && !t.loc.shouldFallback
    ensures Settled(StartRace(SetupRace(t, o), o))
  {
    hide ShouldStopGoma, StartRace;
    if !t.cfg.fallback || t.cfg.heavy || !t.cfg.useLocal {
      RacingKeeps(t, o);
    } else if o.localNow {
      RacingKeeps(t.(loc := t.loc.(subproc := true)), o);
    } else {
      RacingKeeps(t.(loc := t.loc.(delayed := true)), o);
    }
  }

  lemma RacingKeeps(t: Task, o: Oracle)
    requires Fresh(t.(loc := t.loc.(subproc := false, delayed := false))) && !t.cfg.verify && !t.loc.shouldFallback
    requires t.loc.subproc || t.loc.delayed ==> t.cfg.fallback && !t.cfg.heavy && t.cfg.useLocal
    requires !t.loc.subproc || !t.loc.delayed
    ensures Settled(StartRace(t, o))
  {
    hide ShouldStopGoma;
    ShouldStopNeedsSubproc(t, o);
    ShouldStopNeedsSubproc(To(t, Setup), o);
  }

  lemma StartKeeps(t: Task, o: Oracle)
    requires Unstarted(t)
    ensures Settled(Start(t, o))
  {
    hide ProcessFinished, RunSubProcess, SetupSubProcess, StartRace, SetupRace, Settled;
    var u := t.(started := true,
                fact := t.fact.(closable := true, gomacc := o.hasPid, success := !o.startFails && o.copied),
                loc := t.loc.(wantFallback := t.cfg.fallback,
                              shouldFallback := !o.startFails && o.wantsFallback && !t.cfg.verifyCommand));
    assert Fresh(u);
    if o.startFails {
      InitFailureKeeps(u, o);
    } else if u.cfg.verify || u.loc.shouldFallback {
      RunAtStartKeeps(u);
    } else if o.rampedDown {
      RunAtStartKeeps(ForceFallback(u, true));
    } else {
      StartRaceKeeps(u, o);
    }
  }

  lemma SettledStarted(t: Task)
    requires Settled(t)
    ensures t.started
  {
  }

  /** Every handler run keeps the invariant, whatever it learns from outside. */
  lemma StepKeeps(t: Task, e: Event, o: Oracle)
    requires Inv(t) && Enabled(t, e)
    ensures Settled(Step(t, e, o))
  {
    hide Settled, Start, RemoteStep, FinishSubProcess, SetupSubProcess, UploadStep, GomaccClosed;
    if Settled(t) { SettledStarted(t); }
    match e
    case StartTask => StartKeeps(t, o);
    case RemoteEvent => RemoteStepKeeps(t, o);
    case SubprocDone => SubprocKeeps(t, o);
    case DelayedSetup => DelayedKeeps(t);
    case Upload => UploadKeeps(t);
    case GomaccClose => ClosedKeeps(t, o);
  }
}
