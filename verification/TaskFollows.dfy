/**
 The handlers of a compile task follow the decision table: whichever of them an event runs
 through, and in whatever order they call each other, what is seen afterwards is what the
 table says.
 */
module TaskFollows {
  import opened TaskMachine
  import opened TaskInvariant
  import opened TaskProgress
  import opened TaskTable

  /** A handler of the pipeline at work, in a configuration whose CHECKs agree. */
  predicate Apt(t: Task) {
    && Consistent(t.cfg) && t.pipe.remote == Idle && InPipeline(t.ctl.phase)
    && !t.ctl.finished && !t.loc.failFallback
    && (t.ctl.abort ==> t.cfg.fallback && !t.cfg.verify && !t.cfg.gch)
    && (t.cfg.verify || !t.cfg.fallback ==> !t.loc.subproc && !t.loc.delayed)
    && (t.loc.subproc ==> !t.loc.delayed)
    && (!t.ctl.abort ==> !t.io.upload.cb)
  }

  // ---------------------------------------------------------------- the end of the pipeline

  lemma CheckKeeps(t: Task, c: bool)
    ensures var u := Check(t, c);
            && u.cfg == t.cfg && u.started == t.started && u.ctl == t.ctl && u.pipe == t.pipe && u.loc == t.loc
            && u.fact == t.fact && u.io == t.io && u.log == t.log
  {
  }

  lemma GomaccKeeps(t: Task, b: bool)
    ensures var u := SetGomacc(t, b);
            && u.cfg == t.cfg && u.started == t.started && u.ctl == t.ctl && u.pipe == t.pipe && u.loc == t.loc
            && u.fact == t.fact.(gomacc := b) && u.io == t.io && u.log == t.log
  {
  }

  lemma CommitIs(t: Task, useRemote: bool)
    ensures var u := CommitOutput(t, useRemote);
            && u.cfg == t.cfg && u.ctl == t.ctl && u.pipe == t.pipe && u.loc == t.loc && u.fact == t.fact
            && u.io.upload == t.io.upload
            && u.log == t.log.(commits := t.log.commits + 1,
                               remoteCommits := t.log.remoteCommits + if useRemote then 1 else 0)
  {
  }

  lemma ReplyRemoteShows(t: Task)
    requires t.ctl.finished && !t.io.upload.cb
    ensures var u := ReplyRemote(t);
            && u.log == RemoteReply(t.log, t.fact.gomacc, t.loc.run && t.cfg.dontKill)
            && u.cfg == t.cfg && u.pipe == t.pipe && u.loc == t.loc && u.ctl == t.ctl.(rpc := false)
            && u.fact == t.fact.(gomacc := false) && u.io.upload == t.io.upload
  {
    hide ReplyResponse, CommitOutput;
    if t.fact.gomacc {
      CommitIs(t, !(t.loc.run && t.cfg.dontKill));
      ReplyCounts(CommitOutput(t, !(t.loc.run && t.cfg.dontKill)), RemoteResult);
    } else {
      ReplyCounts(t, RemoteResult);
    }
  }

  /** ProcessReply, whatever its CHECKs say. */
  lemma ReplyShows(t: Task, o: Oracle)
    requires t.ctl.finished && !t.io.upload.cb
    ensures var u := ProcessReply(t, o);
            && u.log == RemoteReply(t.log, t.fact.gomacc && o.aliveAtReply, t.loc.run && t.cfg.dontKill)
            && u.cfg == t.cfg && u.pipe == t.pipe && u.loc == t.loc && u.ctl == t.ctl.(rpc := false)
            && u.fact == t.fact.(gomacc := false) && u.io.upload == t.io.upload
  {
    hide ReplyRemote, RemoteReply, Check, SetGomacc;
    var c := t.ctl.phase == Finished && !t.loc.subproc && !t.loc.delayed && !t.ctl.abort;
    CheckKeeps(t, c);
    GomaccKeeps(Check(t, c), t.fact.gomacc && o.aliveAtReply);
    ReplyRemoteShows(SetGomacc(Check(t, c), t.fact.gomacc && o.aliveAtReply));
  }

  /** A reply leaves the race as it is. */
  lemma ReplyKeepsRest(t: Task, o: Oracle)
    ensures var u := ProcessReply(t, o); u.loc == t.loc && u.pipe == t.pipe && u.ctl == t.ctl.(rpc := false)
  {
    hide ReplyResponse, CommitOutput, Check;
    var c := t.ctl.phase == Finished && !t.loc.subproc && !t.loc.delayed && !t.ctl.abort;
    CheckKeeps(t, c);
    var v := SetGomacc(Check(t, c), t.fact.gomacc && o.aliveAtReply);
    CommitIs(v, !(v.loc.run && v.cfg.dontKill));
    ReplyCounts(if v.fact.gomacc then CommitOutput(v, !(v.loc.run && v.cfg.dontKill)) else v, RemoteResult);
  }

  lemma StopShows(t: Task, o: Oracle)
    requires t.ctl.finished && !t.io.upload.cb
    ensures var u := StopLocal(t, o);
            && u.cfg == t.cfg && u.pipe == t.pipe && u.ctl.phase == t.ctl.phase && u.ctl.finished
            && u.fact == t.fact.(gomacc := u.fact.gomacc)
            && if t.loc.subproc then u.loc == t.loc.(killed := o.killed) && u.log == t.log
               else
                 && u.loc == t.loc
                 && u.log == RemoteReply(t.log, t.fact.gomacc && o.aliveAtReply, t.loc.run && t.cfg.dontKill)
  {
    hide ProcessReply, RemoteReply;
    if !t.loc.subproc { ReplyShows(t, o); }
  }

  lemma RunShows(t: Task)
    ensures var u := RunLocal(t);
            && u.cfg == t.cfg && u.pipe == t.pipe && u.ctl == t.ctl && u.fact == t.fact && u.log == t.log
            && u.loc == t.loc.(subproc := true, delayed := t.loc.delayed && t.loc.subproc)
  {
  }

  /** The end of a race in which nothing has been answered. */
  lemma RaceShows(t: Task, o: Oracle, s: Side, m: Mind)
    requires t.ctl.finished && t.ctl.phase == Finished && !t.io.upload.cb && !t.loc.failFallback
    requires s == SideOf(t) && !s.abort && s.cfg.fallback && !s.cfg.verify && t.fact.gomacc == Alive(s, m, o)
    requires m.success == t.fact.success && m.want == t.loc.wantFallback && m.retry == t.pipe.retry
    requires t.pipe.remote == Idle && (t.loc.subproc ==> !t.loc.delayed)
    ensures Shows(s, FinishRace(t, o), o, Course(Ends, m))
  {
    hide StopLocal, RunLocal;
    if m.success || !t.fact.gomacc || !m.want {
      StopShows(CancelDelayed(t), o);
    } else {
      var u := t.(loc := t.loc.(failFallback := true));
      RunShows(u);
      StopShows(CancelDelayed(u), o);
    }
  }

  lemma VerifiedShows(t: Task, o: Oracle)
    requires t.ctl.finished && t.ctl.phase == Finished && !t.ctl.abort && !t.io.upload.cb && t.pipe.remote == Idle
    requires t.cfg.verify && !t.loc.subproc && !t.loc.delayed && !t.loc.failFallback
    ensures Shows(SideOf(t), ReplyResponse(t, Verified), o, Course(Ends, MindOf(t)))
  {
    hide ReplyResponse;
    ReplyCounts(t, Verified);
  }

  lemma NoFallbackShows(t: Task, o: Oracle)
    requires t.ctl.finished && t.ctl.phase == Finished && !t.ctl.abort && !t.io.upload.cb && t.pipe.remote == Idle
    requires !t.cfg.verify && !t.cfg.fallback && !t.loc.subproc && !t.loc.delayed && !t.loc.failFallback
    ensures Shows(SideOf(t), ProcessReply(t, o), o, Course(Ends, MindOf(t)))
  {
    hide ProcessReply, RemoteReply;
    ReplyShows(t, o);
  }

  lemma AbortShows(t: Task, o: Oracle)
    requires t.ctl.finished && t.ctl.abort && t.pipe.remote == Idle && !t.loc.failFallback
    ensures Shows(SideOf(t), if t.io.upload.cb then t else Done(t), o, Course(Ends, MindOf(t)))
  {
  }

  lemma RemoteShows(t: Task, o: Oracle, m: Mind)
    requires t.ctl.finished && !t.loc.failFallback && t.pipe.remote == Idle && Consistent(t.cfg)
    requires !t.ctl.abort ==> t.ctl.phase == Finished && !t.io.upload.cb
    requires t.ctl.abort ==> t.cfg.fallback && !t.cfg.verify && !t.cfg.gch
    requires t.cfg.verify || !t.cfg.fallback ==> !t.loc.subproc && !t.loc.delayed
    requires m == MindOf(t) && (t.loc.subproc ==> !t.loc.delayed)
    ensures Shows(SideOf(t), FinishRemote(t, o), o, Course(Ends, m))
  {
    hide ReplyResponse, ProcessReply, FinishRace, Shows, Done;
    if t.cfg.verify {
      VerifiedShows(t, o);
    } else if !t.cfg.fallback {
      NoFallbackShows(t, o);
    } else if t.ctl.abort {
      AbortShows(t, o);
    } else {
      RaceShows(SetGomacc(t, t.fact.gomacc && (t.fact.success || o.aliveAtFinish)), o, SideOf(t), m);
    }
  }

  lemma EndShows(t: Task, o: Oracle, quiet: bool)
    requires Apt(t)
    ensures Shows(SideOf(t), ProcessFinished(t, o, quiet), o, Course(Ends, MindOf(t)))
  {
    hide FinishRemote, Shows, ReplyResponse;
    var v := Check(t, && Rank(t.ctl.phase) < Rank(Finished) && !t.ctl.finished
                      && (quiet && !Stopped(t) ==> t.fact.success && t.ctl.phase == FileResp))
             .(ctl := t.ctl.(finished := true));
    var w := if v.ctl.abort then v else To(v, Finished);
    assert ProcessFinished(t, o, quiet) == FinishRemote(w, o);
    assert SideOf(w) == SideOf(t) && MindOf(w) == MindOf(t);
    RemoteShows(w, o, MindOf(w));
  }

  // ---------------------------------------------------------------- file request and Exec call

  lemma OutrunIs(t: Task, o: Oracle)
    ensures ShouldStopGoma(t, o) <==> Outrun(SideOf(t), MindOf(t), t.ctl.phase, o)
  {
  }

  /** Leaving the queue and entering a phase are no decisions. */
  lemma LeaveMoves(t: Task, p: Phase)
    requires Apt(t) && InPipeline(p)
    ensures var u := LeaveLinkQueue(t); Apt(u) && SideOf(u) == SideOf(t) && MindOf(u) == MindOf(t) && u.io == t.io
    ensures var u := Enter(t, p);
            Apt(u) && SideOf(u) == SideOf(t) && MindOf(u) == MindOf(t) && u.ctl.phase == p && u.io == t.io
  {
  }

  lemma YieldShows(t: Task, o: Oracle)
    requires Apt(t) && t.loc.subproc
    ensures Shows(SideOf(t), To(t, LocalRun), o, Course(Yields, MindOf(t)))
  {
  }

  /** Nothing but the continuation is posted. */
  lemma WaitShows(t: Task, r: Remote, o: Oracle)
    requires Apt(t) && r != AwaitInputs && r != AwaitOutputs && r != AwaitExec && r != Idle
    ensures Shows(SideOf(t), Await(t, r), o, Course(Waits(r), MindOf(t)))
  {
  }

  lemma InputsShow(t: Task, o: Oracle)
    requires Apt(t) && t.ctl.phase == FileReq && !ShouldStopGoma(t, o)
    ensures Shows(SideOf(t), SendInputs(t, o), o, Course(Waits(AwaitInputs), MindOf(t)))
  {
  }

  lemma SendShows(t: Task, o: Oracle)
    requires Apt(t) && (t.ctl.phase == Setup || t.ctl.phase == FileReq || t.ctl.phase == FileResp)
    ensures Shows(SideOf(t), ProcessFileRequest(t, o), o, Sends(SideOf(t), MindOf(t), o))
  {
    hide ProcessFinished, LeaveLinkQueue, ShouldStopGoma, Enter, Shows, Apt, Outrun;
    LeaveMoves(t, FileReq);
    if Stopped(t) {
      EndShows(LeaveLinkQueue(t), o, false);
    } else {
      var u := Enter(t, FileReq);
      OutrunIs(u, o);
      if ShouldStopGoma(u, o) {
        LeaveMoves(u, FileReq);
        ShouldStopNeedsSubproc(u, o);
        YieldShows(LeaveLinkQueue(u), o);
      } else {
        InputsShow(u, o);
      }
    }
  }

  lemma JoinMoves(t: Task)
    requires Apt(t)
    ensures var u := JoinLinkQueue(t);
            Apt(u) && SideOf(u) == SideOf(t) && MindOf(u) == MindOf(t) && u.ctl == t.ctl
  {
  }

  lemma RequestShows(t: Task, o: Oracle)
    requires Apt(t) && (t.ctl.phase == Setup || t.ctl.phase == FileReq || t.ctl.phase == FileResp)
    ensures Shows(SideOf(t), TryProcessFileRequest(t, o), o, Requests(SideOf(t), MindOf(t), o))
  {
    hide ProcessFileRequest, Shows, Apt, JoinLinkQueue, Sends;
    JoinMoves(t);
    if !t.cfg.linking {
      SendShows(t, o);
    } else if o.front {
      SendShows(JoinLinkQueue(t), o);
    } else {
      WaitShows(JoinLinkQueue(t), AwaitLink, o);
    }
  }

  lemma ExecShows(t: Task, o: Oracle)
    requires Apt(t) && t.ctl.phase == CallExec && !ShouldStopGoma(t, o)
    ensures Shows(SideOf(t), SendExec(t, o), o, Course(Waits(AwaitExec), MindOf(t)))
  {
    hide ShouldStopGoma;
  }

  lemma CallShows(t: Task, o: Oracle)
    requires Apt(t) && t.ctl.phase == FileReq
    ensures Shows(SideOf(t), ProcessCallExec(t, o), o, Calls(SideOf(t), MindOf(t), o))
  {
    hide ProcessFinished, ShouldStopGoma, Enter, Shows, Apt, Outrun;
    LeaveMoves(t, CallExec);
    if Stopped(t) {
      EndShows(t, o, false);
    } else {
      var u := Enter(t, CallExec);
      OutrunIs(u, o);
      if ShouldStopGoma(u, o) {
        ShouldStopNeedsSubproc(u, o);
        YieldShows(u, o);
      } else {
        ExecShows(u, o);
      }
    }
  }

  // ---------------------------------------------------------------- file response

  /** What only the mind takes in. */
  lemma MindMoves(t: Task, b: bool)
    requires Apt(t)
    ensures var u := SetSuccess(t, b);
            Apt(u) && SideOf(u) == SideOf(t) && MindOf(u) == MindOf(t).(success := b) && u.ctl == t.ctl && u.io == t.io
    ensures var u := CountRetry(t);
            && Apt(u) && SideOf(u) == SideOf(t) && u.ctl == t.ctl && u.io == t.io
            && MindOf(u) == MindOf(t).(retry := t.pipe.retry + 1)
  {
  }

  lemma FailMoves(t: Task)
    requires Apt(t)
    ensures var u := Failed(t); Apt(u) && SideOf(u) == SideOf(t) && MindOf(u) == Fail(MindOf(t)) && u.ctl == t.ctl
    ensures var u := CountRetry(Failed(t));
            Apt(u) && SideOf(u) == SideOf(t) && MindOf(u) == Retry(MindOf(t)) && u.ctl == t.ctl
  {
    hide Apt, SetSuccess, CountRetry;
    MindMoves(t, false);
    MindMoves(Failed(t), false);
  }

  lemma MissShows(t: Task, o: Oracle)
    requires Apt(t) && t.ctl.phase == FileResp
    ensures Shows(SideOf(t), OutputFailed(t, o), o, Misses(SideOf(t), MindOf(t), o))
  {
    hide ProcessFinished, TryProcessFileRequest, Shows, Apt, Requests, Failed, CountRetry;
    FailMoves(t);
    if !t.cfg.gch && t.loc.subproc && o.runningLate {
      YieldShows(t, o);
    } else if o.compilerDisabled || !o.healthy {
      EndShows(Failed(t), o, false);
    } else if t.pipe.retry + 1 <= MaxExecRetry {
      RequestShows(CountRetry(Failed(t)), o);
    } else {
      EndShows(CountRetry(Failed(t)), o, false);
    }
  }

  /** Forgetting output files, and that some were missing, are no decisions. */
  lemma ClearMoves(t: Task)
    requires Apt(t)
    ensures var u := ClearOutputs(t); Apt(u) && SideOf(u) == SideOf(t) && MindOf(u) == MindOf(t) && u.ctl == t.ctl
    ensures var u := MissingInputs(t);
            && Apt(u) && SideOf(u) == SideOf(t) && MindOf(u) == MindOf(t) && u.ctl == t.ctl
            && !u.io.output.good
  {
  }

  lemma VerifyShows(t: Task, o: Oracle)
    requires Apt(t) && t.cfg.verify
    ensures var u := SetSuccess(ClearOutputs(Check(t, !t.loc.subproc && !t.loc.delayed)), t.fact.success && o.verifyOk);
            Shows(SideOf(t), ProcessFinished(u, o, false), o,
                  Course(Ends, MindOf(t).(success := t.fact.success && o.verifyOk)))
  {
    assert !t.loc.subproc && !t.loc.delayed;
    hide ProcessFinished, Shows, Apt, ClearOutputs, SetSuccess;
    ClearMoves(t);
    MindMoves(ClearOutputs(t), t.fact.success && o.verifyOk);
    EndShows(SetSuccess(ClearOutputs(t), t.fact.success && o.verifyOk), o, false);
  }

  lemma OutputsShow(t: Task, o: Oracle)
    requires Apt(t) && t.ctl.phase == FileResp
    ensures Shows(SideOf(t), ProcessFileResponseDone(t, o), o,
                  AfterOutputs(SideOf(t), MindOf(t), t.io.output.good, o))
  {
    hide ProcessFinished, OutputFailed, Shows, Apt, Misses, ClearOutputs, SetSuccess;
    if Stopped(t) {
      EndShows(t, o, false);
    } else if !t.io.output.good {
      MissShows(t, o);
    } else if t.cfg.verify {
      VerifyShows(t, o);
    } else if t.fact.success {
      EndShows(t, o, true);
    } else {
      ClearMoves(t);
      EndShows(ClearOutputs(t), o, false);
    }
  }

  lemma DownloadShows(t: Task, o: Oracle)
    requires Apt(t) && t.ctl.phase == FileResp
    ensures Shows(SideOf(t), StartDownload(t, o), o, Course(Waits(AwaitOutputs), MindOf(t)))
  {
    hide Download;
    if t.cfg.verify || !t.fact.success {
      DownloadIs(t, o, false);
    } else {
      DownloadIs(CancelDelayed(t), o, !t.loc.subproc);
    }
  }

  lemma DownloadIs(t: Task, o: Oracle, direct: bool)
    ensures var u := Download(t, o, direct);
            && u.cfg == t.cfg && u.ctl == t.ctl && u.loc == t.loc && u.fact == t.fact && u.log == t.log
            && u.pipe == t.pipe.(remote := AwaitOutputs) && u.io.output == Batch(true, o.outputCount, true)
            && u.io.infos == o.outputCount && u.io.direct == direct
  {
  }

  lemma GoneShows(t: Task, o: Oracle)
    requires Apt(t)
    ensures Shows(SideOf(t), ProcessFinished(Failed(SetGomacc(t, false)), o, false), o,
                  Course(Ends, MindOf(t).(success := false, gomacc := false)))
  {
    var u := Failed(SetGomacc(t, false));
    assert Apt(u) && SideOf(u) == SideOf(t) && MindOf(u) == MindOf(t).(success := false, gomacc := false);
    EndsAsShown(t, u, o);
  }

  lemma EndsAsShown(t: Task, u: Task, o: Oracle)
    requires Apt(u) && SideOf(u) == SideOf(t)
    ensures Shows(SideOf(t), ProcessFinished(u, o, false), o, Course(Ends, MindOf(u)))
  {
    hide ProcessFinished, Shows, Apt;
    EndShows(u, o, false);
  }

  lemma ResponseShows(t: Task, o: Oracle)
    requires Apt(t) && t.ctl.phase == FileResp && !Stopped(t)
    ensures Shows(SideOf(t), FileResponse(t, o), o, Responds(SideOf(t), MindOf(t), o))
  {
    hide ProcessFinished, ProcessFileResponseDone, StartDownload, ShouldStopGoma, Shows, Apt, Outrun, Misses,
      Failed, SetGomacc, MissingInputs;
    OutrunIs(t, o);
    FailMoves(t);
    if ShouldStopGoma(t, o) {
      ShouldStopNeedsSubproc(t, o);
      YieldShows(t, o);
    } else if t.fact.missing {
      ClearMoves(Failed(t));
      OutputsShow(MissingInputs(Failed(t)), o);
    } else if !(t.fact.gomacc && o.aliveAtResponse) {
      GoneShows(t, o);
    } else {
      DownloadShows(t, o);
    }
  }

  lemma RespondShows(t: Task, o: Oracle)
    requires Apt(t) && (t.ctl.phase == CallExec || t.ctl.phase == LocalOutput)
    ensures Shows(SideOf(t), ProcessFileResponse(t, o), o, Responds(SideOf(t), MindOf(t), o))
  {
    hide ProcessFinished, FileResponse, Enter, Shows, Apt, Outrun, Misses;
    LeaveMoves(t, FileResp);
    if Stopped(t) {
      EndShows(t, o, false);
    } else {
      EnterStops(t, FileResp);
      ResponseShows(Enter(t, FileResp), o);
    }
  }

  lemma EnterStops(t: Task, p: Phase)
    ensures Stopped(Enter(t, p)) <==> Stopped(t)
  {
  }

  // ---------------------------------------------------------------- Exec response

  lemma SpecMoves(t: Task, o: Oracle)
    requires Apt(t) && t.ctl.phase == CallExec
    ensures var u := CheckCommandSpec(t, o);
            Apt(u) && SideOf(u) == SideOf(t) && MindOf(u) == Judged(MindOf(t), o) && u.ctl == t.ctl
  {
  }

  /** A rejection is counted, and may cost the fallback. */
  lemma FlagsMove(t: Task, o: Oracle)
    requires Apt(t)
    ensures var u := RejectFlags(CountRetry(t), o);
            && Apt(u) && SideOf(u) == SideOf(t) && u.ctl == t.ctl
            && MindOf(u) == Mind(t.fact.success && !o.unsupported, t.loc.wantFallback && !o.unsupported,
                                 t.pipe.retry + 1, t.fact.gomacc, t.fact.missing)
  {
  }

  lemma AgainMoves(t: Task)
    requires Apt(t)
    ensures var u := To(CountRetry(t), FileReq);
            Apt(u) && SideOf(u) == SideOf(t) && MindOf(u) == MindOf(t).(retry := t.pipe.retry + 1)
  {
  }

  lemma RejectionShows(t: Task, o: Oracle)
    requires Apt(t) && t.ctl.phase == CallExec
    ensures Shows(SideOf(t), ExecFailed(t, o), o, Rejected(SideOf(t), MindOf(t), o))
  {
    hide ProcessFinished, CheckCommandSpec, RejectFlags, CountRetry, Shows, Apt, Judged, To;
    if !o.healthy {
      SpecMoves(t, o);
      EndShows(CheckCommandSpec(t, o), o, false);
    } else if t.pipe.retry + 1 <= MaxExecRetry && !o.fatal {
      AgainMoves(t);
      WaitShows(To(CountRetry(t), FileReq), AwaitExecRetry, o);
    } else {
      FlagsMove(t, o);
      SpecMoves(RejectFlags(CountRetry(t), o), o);
      EndShows(CheckCommandSpec(RejectFlags(CountRetry(t), o), o), o, false);
    }
  }

  lemma RpcShows(t: Task, o: Oracle)
    requires Apt(t) && t.ctl.phase == CallExec && !Stopped(t)
    ensures var s, m := SideOf(t), MindOf(t);
            Shows(s, RpcFailed(t, o), o,
                  if s.subproc && o.runningLate && !o.receiving then Course(Yields, m)
                  else if o.serverError || o.retryable || o.receiving then Rejected(s, Fail(m), o)
                  else Course(Ends, Fail(m)))
  {
    hide ProcessFinished, ExecFailed, Shows, Apt, Rejected, Failed;
    FailMoves(t);
    if t.loc.subproc && o.runningLate && !o.receiving {
      YieldShows(t, o);
    } else if o.serverError || o.retryable || o.receiving {
      RejectionShows(Failed(t), o);
    } else {
      EndShows(Failed(t), o, false);
    }
  }

  lemma HearMoves(t: Task, success: bool, missing: bool)
    requires Apt(t)
    ensures var u := t.(fact := t.fact.(success := success, missing := missing));
            && Apt(u) && SideOf(u) == SideOf(t) && u.ctl == t.ctl
            && MindOf(u) == MindOf(t).(success := success, missing := missing)
  {
  }

  lemma ExecDoneShows(t: Task, o: Oracle)
    requires Apt(t) && t.ctl.phase == CallExec
    ensures Shows(SideOf(t), ProcessCallExecDone(t, o), o, AfterExec(SideOf(t), MindOf(t), o))
  {
    hide ExecDone, Shows, Apt, AfterExec;
    var u := t.(fact := t.fact.(success := o.execSuccess, missing := o.execMissing));
    HearMoves(t, o.execSuccess, o.execMissing);
    HeardShows(t, u, o);
  }

  lemma HeardShows(t: Task, u: Task, o: Oracle)
    requires Apt(u) && u.ctl.phase == CallExec && SideOf(u) == SideOf(t)
    requires MindOf(u) == MindOf(t).(success := o.execSuccess, missing := o.execMissing)
    ensures Shows(SideOf(t), ExecDone(u, o), o, AfterExec(SideOf(t), MindOf(t), o))
  {
    hide ProcessFinished, ProcessFileResponse, ExecFailed, RpcFailed, CheckCommandSpec, Shows, Apt,
      Rejected, Responds, Judged;
    if Stopped(u) {
      EndShows(u, o, false);
    } else if o.rpcErr {
      RpcShows(u, o);
    } else if u.fact.missing {
      RespondShows(u, o);
    } else if o.serverError {
      RejectionShows(u, o);
    } else {
      SpecMoves(u, o);
      RespondShows(CheckCommandSpec(u, o), o);
    }
  }

  // ---------------------------------------------------------------- inputs

  lemma InputsFailShow(t: Task, o: Oracle)
    requires Apt(t) && !Stopped(t)
    ensures Shows(SideOf(t), InputFailed(t, o), o, AfterInputs(SideOf(t), MindOf(t), false, o))
  {
    hide ProcessFinished, Shows, Apt, Failed, CountRetry;
    FailMoves(t);
    if t.loc.subproc && o.runningLate {
      YieldShows(t, o);
    } else if !(o.healthy && o.uploading) {
      EndShows(Failed(t), o, false);
    } else if t.pipe.retry + 1 <= MaxExecRetry {
      WaitShows(CountRetry(Failed(t)), AwaitFileRetry, o);
    } else {
      EndShows(CountRetry(Failed(t)), o, false);
    }
  }

  lemma HitMoves(t: Task)
    requires Apt(t)
    ensures var u := SetSuccess(To(t, LocalOutput), true);
            Apt(u) && SideOf(u) == SideOf(t) && MindOf(u) == MindOf(t).(success := true) && u.ctl.phase == LocalOutput
  {
  }

  lemma InputsDoneShow(t: Task, o: Oracle)
    requires Apt(t) && t.ctl.phase == FileReq
    ensures Shows(SideOf(t), ProcessFileRequestDone(t, o), o,
                  AfterInputs(SideOf(t), MindOf(t), t.io.input.good, o))
  {
    hide ProcessFinished, ProcessFileResponse, ProcessCallExec, InputFailed, LeaveLinkQueue, Shows, Apt,
      Responds, Calls,
      SetSuccess, To;
    LeaveMoves(t, FileReq);
    LeaveStands(t);
    var u := LeaveLinkQueue(t);
    if Stopped(u) {
      EndShows(u, o, false);
    } else if !u.io.input.good {
      InputsFailShow(u, o);
    } else if o.cacheHit {
      HitMoves(u);
      RespondShows(SetSuccess(To(u, LocalOutput), true), o);
    } else {
      CallShows(u, o);
    }
  }

  lemma LeaveStands(t: Task)
    ensures LeaveLinkQueue(t).ctl == t.ctl && (Stopped(LeaveLinkQueue(t)) <==> Stopped(t))
  {
  }

  // ---------------------------------------------------------------- set-up

  lemma DivertShows(t: Task, o: Oracle)
    requires Apt(t) && t.loc.shouldFallback
    ensures Shows(SideOf(t), RunLocal(To(t, Init)), o, Course(Diverts, MindOf(t)))
  {
  }

  lemma SetupShows(t: Task, o: Oracle, done: bool)
    requires Apt(t) && t.ctl.phase == Setup
    ensures Shows(SideOf(t), SetupRequestDone(t, o, done), o,
                  AfterSetup(SideOf(t), MindOf(t), done, t.loc.shouldFallback, o))
  {
    hide ProcessFinished, TryProcessFileRequest, RunLocal, Shows, Apt, Failed, To, Requests;
    if Stopped(t) {
      EndShows(t, o, false);
    } else if done {
      RequestShows(t, o);
    } else if t.loc.shouldFallback {
      DivertShows(t, o);
    } else {
      FailMoves(t);
      EndShows(Failed(t), o, false);
    }
  }

  lemma ForceMoves(t: Task, b: bool)
    requires Apt(t)
    ensures var u := ForceFallback(t, b);
            && Apt(u) && SideOf(u) == SideOf(t) && MindOf(u) == MindOf(t) && u.ctl == t.ctl
            && (u.loc.shouldFallback <==> t.loc.shouldFallback || b)
  {
  }

  /** The required files are known, or the include processor failed. */
  lemma FilesShow(t: Task, o: Oracle, done: bool)
    requires Apt(t) && t.ctl.phase == Setup && !t.loc.shouldFallback
    ensures Shows(SideOf(t), UpdateRequiredFilesDone(t, o, done), o,
                  AfterFiles(SideOf(t), MindOf(t), done, o))
  {
    hide SetupRequestDone, Shows, Apt, Requests, ForceFallback;
    if !done && !t.cfg.verifyCommand {
      ForceMoves(t, !Stopped(t));
      SetupShows(ForceFallback(t, !Stopped(t)), o, false);
    } else {
      SetupShows(t, o, true);
    }
  }

  lemma InfoShows(t: Task, o: Oracle)
    requires Apt(t) && t.ctl.phase == Setup && !t.loc.shouldFallback
    ensures Shows(SideOf(t), FillCompilerInfoDone(t, o), o, AfterInfo(SideOf(t), MindOf(t), o))
  {
    hide SetupRequestDone, UpdateRequiredFilesDone, Shows, Apt, Requests, Failed, ForceFallback;
    match o.info
    case NoInfo =>
      FailMoves(t);
      NotForced(t);
      SetupShows(Failed(t), o, false);
    case InfoFound =>
      if o.depsCached { FilesShow(t, o, true); } else { WaitShows(t, AwaitInclude, o); }
    case _ =>
      FailMoves(t);
      NotForced(t);
      ForceMoves(Failed(t), !t.cfg.failFast && t.loc.wantFallback);
      SetupShows(ForceFallback(Failed(t), !t.cfg.failFast && t.loc.wantFallback), o, false);
  }

  lemma NotForced(t: Task)
    ensures Failed(t).loc == t.loc && Failed(t).cfg == t.cfg
  {
  }

  lemma IncludeShows(t: Task, o: Oracle)
    requires Apt(t) && t.ctl.phase == Setup && !t.loc.shouldFallback
    ensures Shows(SideOf(t), RunIncludeProcessorDone(t, o), o, AfterInclude(SideOf(t), MindOf(t), o))
  {
    hide UpdateRequiredFilesDone, Shows, Apt, Requests;
    if Stopped(t) && o.includeSkipped {
      FilesShow(t, o, false);
    } else {
      var b := t.fact.success && (o.includeOk || !o.includeError);
      MindMoves(t, b);
      FilesShow(SetSuccess(t, b), o, o.includeOk);
    }
  }

  // ---------------------------------------------------------------- one remote event

  lemma SettledApt(t: Task)
    requires Settled(t) && t.pipe.remote != Idle
    ensures Apt(Await(t, Idle)) && PhaseOf(t.pipe.remote, t.ctl.phase) && !t.loc.shouldFallback
    ensures SideOf(Await(t, Idle)) == SideOf(t) && MindOf(Await(t, Idle)) == MindOf(t)
    ensures t.pipe.remote == AwaitInputs ==> t.io.input.cb
    ensures t.pipe.remote == AwaitOutputs ==> t.io.output.cb
  {
  }

  lemma ToldMoves(t: Task, b: Batch, success: bool)
    requires Apt(t)
    ensures var u := InputsTo(t, b, success);
            && Apt(u) && SideOf(u) == SideOf(t) && MindOf(u) == MindOf(t).(success := success)
            && u.ctl == t.ctl && u.io.input == b
    ensures var u := OutputsTo(t, b, success);
            && Apt(u) && SideOf(u) == SideOf(t) && MindOf(u) == MindOf(t).(success := success)
            && u.ctl == t.ctl && u.io.output == b
  {
  }

  lemma LastInputShows(t: Task, o: Oracle, success: bool, good: bool)
    requires Apt(t) && t.ctl.phase == FileReq && t.io.input.cb && t.io.input.tasks <= 1
    requires success == (t.fact.success && (t.io.input.tasks == 0 || o.taskOk || t.ctl.abort || o.badInput))
    requires good == (t.io.input.good && (t.io.input.tasks == 0 || (o.taskOk && !t.ctl.abort)))
    ensures Shows(SideOf(t), InputStep(t, o), o, AfterInputs(SideOf(t), MindOf(t).(success := success), good, o))
  {
    hide ProcessFileRequestDone, Shows, Apt, AfterInputs;
    var b := Report(t.io.input, o.taskOk && !t.ctl.abort);
    assert b.tasks == 0 && b.cb && b.good == good;
    hide Report, InputsTo;
    ToldMoves(t, b, success);
    var v := InputsTo(t, b, success);
    ToldMoves(v, b.(cb := false), success);
    InputsDoneShow(InputsTo(v, b.(cb := false), success), o);
  }

  lemma LastOutputShows(t: Task, o: Oracle, success: bool, good: bool)
    requires Apt(t) && t.ctl.phase == FileResp && t.io.output.cb && t.io.output.tasks <= 1
    requires success == (t.fact.success && (t.io.output.tasks == 0 || o.taskOk || t.ctl.abort))
    requires good == (t.io.output.good && (t.io.output.tasks == 0 || (o.taskOk && !t.ctl.abort)))
    ensures Shows(SideOf(t), OutputStep(t, o), o, AfterOutputs(SideOf(t), MindOf(t).(success := success), good, o))
  {
    hide ProcessFileResponseDone, Shows, Apt, AfterOutputs;
    var b := Report(t.io.output, o.taskOk && !t.ctl.abort);
    assert b.tasks == 0 && b.cb && b.good == good;
    hide Report, OutputsTo;
    ToldMoves(t, b, success);
    var v := OutputsTo(t, b, success);
    ToldMoves(v, b.(cb := false), success);
    OutputsShow(OutputsTo(v, b.(cb := false), success), o);
  }

  lemma CountShows(t: Task, o: Oracle)
    requires Pending(t).tasks > 1 && PhaseOf(t.pipe.remote, t.ctl.phase)
    ensures CountsDown(t, RemoteStep(t, o), o)
  {
    hide InputStep, OutputStep;
    var u := Await(t, Idle);
    if t.pipe.remote == AwaitInputs {
      InputCounts(u, o);
    } else {
      OutputCounts(u, o);
    }
  }

  lemma InputCounts(t: Task, o: Oracle)
    requires t.ctl.phase == FileReq && t.io.input.tasks > 1
    ensures var u := InputStep(t, o);
            && u.pipe == t.pipe.(remote := AwaitInputs) && u.ctl == t.ctl && u.loc == t.loc && u.log == t.log
            && u.cfg == t.cfg && u.fact == t.fact.(success := t.fact.success && (o.taskOk || t.ctl.abort || o.badInput))
            && u.io.input == Batch(t.io.input.cb, t.io.input.tasks - 1, t.io.input.good && o.taskOk && !t.ctl.abort)
  {
    hide ProcessFileRequestDone;
  }

  lemma OutputCounts(t: Task, o: Oracle)
    requires t.ctl.phase == FileResp && t.io.output.tasks > 1
    ensures var u := OutputStep(t, o);
            && u.pipe == t.pipe.(remote := AwaitOutputs) && u.ctl == t.ctl && u.loc == t.loc && u.log == t.log
            && u.cfg == t.cfg && u.fact == t.fact.(success := t.fact.success && (o.taskOk || t.ctl.abort))
            && u.io.output == Batch(t.io.output.cb, t.io.output.tasks - 1, t.io.output.good && o.taskOk && !t.ctl.abort)
  {
    hide ProcessFileResponseDone;
  }

  lemma BatchShows(t: Task, o: Oracle)
    requires Settled(t) && (t.pipe.remote == AwaitInputs || t.pipe.remote == AwaitOutputs) && Pending(t).tasks <= 1
    ensures Shows(SideOf(t), RemoteStep(t, o), o, CourseOf(t, o))
  {
    hide Settled, InputStep, OutputStep, Shows, Apt, AfterInputs, AfterOutputs;
    SettledApt(t);
    var u := Await(t, Idle);
    if t.pipe.remote == AwaitInputs {
      LastInputShows(u, o, Heard(t, o).success, AllGood(t, o));
    } else {
      LastOutputShows(u, o, Heard(t, o).success, AllGood(t, o));
    }
  }

  /** Every remote event takes the course of the table, whichever handlers it runs through. */
  lemma RemoteTable(t: Task, o: Oracle)
    requires Settled(t) && t.pipe.remote != Idle
    ensures if Pending(t).tasks > 1 then CountsDown(t, RemoteStep(t, o), o)
            else Shows(SideOf(t), RemoteStep(t, o), o, CourseOf(t, o))
  {
    hide Settled, FillCompilerInfoDone, RunIncludeProcessorDone, ProcessFileRequest, TryProcessFileRequest,
      ProcessCallExec, ProcessCallExecDone, InputStep, OutputStep, Shows, Apt, CountsDown,
      AfterInfo, AfterInclude, Sends, Requests, Calls, AfterExec, AfterInputs, AfterOutputs;
    SettledApt(t);
    var u := Await(t, Idle);
    if Pending(t).tasks > 1 {
      CountShows(t, o);
    } else {
      match t.pipe.remote
      case AwaitInfo => InfoShows(u, o);
      case AwaitInclude => IncludeShows(u, o);
      case AwaitLink => SendShows(u, o);
      case AwaitFileRetry => RequestShows(u, o);
      case AwaitInputs => BatchShows(t, o);
      case AwaitExecRetry => CallShows(u, o);
      case AwaitExec => ExecDoneShows(u, o);
      case AwaitOutputs => BatchShows(t, o);
    }
  }

  // ---------------------------------------------------------------- the start

  lemma RaceBegins(t: Task, o: Oracle)
    requires Consistent(t.cfg) && !t.cfg.gch && !t.cfg.verify
    requires t.loc == NewTask(t.cfg).loc.(wantFallback := t.cfg.fallback)
    requires t == NewTask(t.cfg).(started := true, fact := t.fact, loc := t.loc)
    ensures var u := StartRace(SetupRace(t, o), o);
            var races := t.cfg.fallback && t.cfg.useLocal && !t.cfg.heavy;
            var gives := races && o.localNow
                         && (Outrun(SideOf(u), MindOf(u), Init, o) || Outrun(SideOf(u), MindOf(u), Setup, o));
            && u.cfg == t.cfg && u.started && u.fact == t.fact && u.log == t.log
            && u.loc == t.loc.(subproc := races && o.localNow, delayed := races && !o.localNow)
            && u.ctl == t.ctl.(phase := if gives then LocalRun else Setup)
            && u.pipe == t.pipe.(remote := if gives then Idle else AwaitInfo)
  {
    hide SetupRace;
    SetupRaceIs(t, o);
    var v := SetupRace(t, o);
    OutrunIs(v, o);
    OutrunIs(To(v, Setup), o);
    hide ShouldStopGoma;
    ShouldStopNeedsSubproc(To(v, Setup), o);
  }

  lemma SetupRaceIs(t: Task, o: Oracle)
    requires !t.cfg.gch && !t.loc.subproc && !t.loc.delayed && t.ok
    ensures var races := t.cfg.fallback && t.cfg.useLocal && !t.cfg.heavy;
            SetupRace(t, o) == t.(loc := t.loc.(subproc := races && o.localNow, delayed := races && !o.localNow))
  {
  }

  lemma StartTable(t: Task, o: Oracle)
    requires Unstarted(t)
    ensures Begins(t.cfg, Start(t, o), o)
  {
    hide ProcessFinished, SetupRace, StartRace, Outrun;
    var u := t.(started := true,
                fact := t.fact.(closable := true, gomacc := o.hasPid, success := !o.startFails && o.copied),
                loc := t.loc.(wantFallback := t.cfg.fallback,
                              shouldFallback := !o.startFails && o.wantsFallback && !t.cfg.verifyCommand));
    assert Start(t, o) == StartWith(u, o);
    if o.startFails {
      InitShows(u, o);
    } else if !t.cfg.verify && !u.loc.shouldFallback && !o.rampedDown {
      RaceBegins(u, o);
    }
  }

  lemma InitShows(t: Task, o: Oracle)
    requires t.ctl.phase == Init && !t.ctl.finished && !t.io.upload.cb
    ensures var u := ProcessFinished(t, o, false);
            && u.cfg == t.cfg && u.started == t.started && u.loc == t.loc && u.pipe == t.pipe
            && u.fact == t.fact.(gomacc := false)
            && u.log == t.log.(replies := t.log.replies + 1, answer := InitFailure, dones := t.log.dones + 1)
  {
    hide ReplyResponse;
    var u := Check(t, && Rank(t.ctl.phase) < Rank(Finished) && !t.ctl.finished
                      && (false && !Stopped(t) ==> t.fact.success && t.ctl.phase == FileResp))
             .(ctl := t.ctl.(finished := true));
    ReplyCounts(To(Check(u, !t.loc.subproc && !t.loc.delayed && !t.ctl.abort), Finished), InitFailure);
    ReplyStill(To(Check(u, !t.loc.subproc && !t.loc.delayed && !t.ctl.abort), Finished), InitFailure);
  }

  // ---------------------------------------------------------------- the end of the subprocess

  /** A subprocess that ends leaves a state like this. */
  predicate Racing(t: Task) {
    && !t.ctl.abort && t.io.upload.tasks == 0 && !t.io.upload.cb
    && (t.cfg.gch ==> t.cfg.verify && !t.loc.shouldFallback)
    && (t.cfg.verify && !t.loc.shouldFallback ==> t.ctl.phase == Init)
    && (t.ctl.phase == Finished ==> t.ctl.finished)
    && (t.ctl.phase != Finished ==> !t.ctl.finished && !t.loc.failFallback)
  }

  lemma SubprocLocal(t: Task)
    requires Settled(t) && t.loc.subproc
    ensures Racing(t)
  {
  }

  lemma RemoteCloses(t: Task, v: Task, o: Oracle)
    requires Racing(t) && t.ctl.phase == Finished && !t.loc.failFallback
    requires v == t.(loc := t.loc.(subproc := false, run := t.loc.run || o.procStarted),
                     fact := t.fact.(success := t.fact.success && !Broken(o)))
    ensures Closes(t, ProcessReply(v, o), o)
  {
    hide ProcessReply, RemoteReply;
    ReplyShows(v, o);
  }

  lemma VerifyCloses(t: Task, v: Task, o: Oracle)
    requires Racing(t) && t.cfg.verify && !t.loc.shouldFallback
    requires v == t.(loc := t.loc.(subproc := false, run := t.loc.run || o.procStarted),
                     fact := t.fact.(success := o.status == 0))
    ensures Closes(t, ProcessSetup(v, o), o)
  {
    hide ProcessSetup;
    SetupBegins(v, o);
    SetupKeepsCfg(v, o);
  }

  lemma SetupKeepsCfg(t: Task, o: Oracle)
    ensures ProcessSetup(t, o).cfg == t.cfg
  {
    hide ShouldStopGoma;
  }

  lemma UploadIs(t: Task, v: Task, o: Oracle)
    requires Racing(t) && v.cfg == t.cfg && v.loc.killed == t.loc.killed && v.io == t.io
    ensures var x := if RunFailed(v, o) then v else ProcessLocalFileOutput(v, o);
            && x.cfg == v.cfg && x.ctl == v.ctl && x.pipe == v.pipe && x.loc == v.loc
            && x.fact == v.fact && x.log == v.log
            && x.io.upload == (if t.cfg.storeOutput && Useful(t, o) then Batch(true, o.uploadCount, true)
                               else t.io.upload)
    ensures GomaFailure(v, o) <==> Faulty(t, o)
  {
  }

  lemma LocalCloses(t: Task, x: Task, o: Oracle)
    requires Racing(t) && !(t.ctl.phase == Finished && !t.loc.failFallback)
    requires !(t.cfg.verify && !t.loc.shouldFallback)
    requires Taken(t, x, o) && x.ctl == t.ctl
    ensures Closes(t, ReplyLocal(x, Faulty(t, o)), o)
  {
    hide ReplyResponse, Closes, Useful, Faulty, Check;
    if t.loc.shouldFallback {
      CheckKeeps(x, x.ctl.phase == Init);
      ReplyCloses(t, LocalDone(Check(x, x.ctl.phase == Init)), SetupFallback, o);
    } else if t.loc.failFallback {
      CheckKeeps(x, x.ctl.phase == Finished);
      ReplyCloses(t, Check(x, x.ctl.phase == Finished), FailFallback, o);
    } else if t.ctl.phase == LocalRun {
      ReplyCloses(t, LocalDone(x), LocalOnly, o);
    } else if !Faulty(t, o) {
      ReplyCloses(t, x.(ctl := x.ctl.(abort := true)), LocalFirst, o);
    } else {
      NothingCloses(t, x, o);
    }
  }

  /** The subprocess's result, on the way to its answer. */
  predicate Taken(t: Task, x: Task, o: Oracle) {
    && x.cfg == t.cfg && x.pipe == t.pipe && x.log == t.log
    && x.loc == t.loc.(subproc := false, run := t.loc.run || o.procStarted)
    && x.fact == t.fact.(success := o.status == 0)
    && x.io.upload == (if t.cfg.storeOutput && Useful(t, o) then Batch(true, o.uploadCount, true) else t.io.upload)
  }

  lemma ReplyCloses(t: Task, y: Task, how: Answer, o: Oracle)
    requires Racing(t) && Taken(t, y, o) && how == LocalAnswer(t, o) && how != RemoteResult && how != Unanswered
    requires y.ctl.abort == (how == LocalFirst) && y.ctl.finished == Concludes(how)
    requires y.ctl.phase == if how == SetupFallback || how == LocalOnly then LocalFinished else t.ctl.phase
    ensures Closes(t, ReplyResponse(y, how), o)
  {
    hide ReplyResponse, Useful, Faulty;
    ReplyCounts(y, how);
  }

  lemma NothingCloses(t: Task, x: Task, o: Oracle)
    requires Racing(t) && Taken(t, x, o) && x.ctl == t.ctl && LocalAnswer(t, o) == Unanswered && !t.cfg.verify
    ensures Closes(t, x, o)
  {
  }

  lemma ResultCloses(t: Task, w: Task, o: Oracle)
    requires Racing(t) && !(t.ctl.phase == Finished && !t.loc.failFallback)
    requires w == t.(loc := t.loc.(subproc := false, run := t.loc.run || o.procStarted),
                     fact := t.fact.(success := o.status == 0))
    ensures Closes(t, UseLocalResult(w, o), o)
  {
    hide ProcessSetup, ReplyLocal, Closes, RunFailed, GomaFailure, ProcessLocalFileOutput, Faulty, Useful;
    if t.cfg.verify && !t.loc.shouldFallback {
      VerifyCloses(t, w, o);
    } else {
      UploadIs(t, w, o);
      LocalCloses(t, if RunFailed(w, o) then w else ProcessLocalFileOutput(w, o), o);
    }
  }

  lemma LocalFinishIs(t: Task, o: Oracle)
    ensures LocalFinish(t, o) == if t.ctl.phase == Finished && !t.loc.failFallback then ProcessReply(t, o)
                                 else UseLocalResult(SetSuccess(t, o.status == 0), o)
  {
    hide ProcessReply, UseLocalResult;
  }

  /** The end of the subprocess does what it says, in every state in order. */
  lemma SubprocTable(t: Task, o: Oracle)
    requires Settled(t) && t.loc.subproc
    ensures Closes(t, FinishSubProcess(t, o), o)
  {
    hide Settled, FinishSubProcess, LocalFinish, ProcessReply, UseLocalResult, Closes, Broken;
    SubprocLocal(t);
    FinishSubProcessIs(t, o);
    var v := t.(loc := t.loc.(subproc := false, run := t.loc.run || o.procStarted),
                fact := t.fact.(success := t.fact.success && !Broken(o)));
    LocalFinishIs(v, o);
    if t.ctl.phase == Finished && !t.loc.failFallback {
      RemoteCloses(t, v, o);
    } else {
      ResultCloses(t, SetSuccess(v, o.status == 0), o);
    }
  }
}
