/**
 The compile task as the object it is in client/compile_task.cc: handlers that read
 and assign fields and call each other in the order of the source. Each is proved to do
 what the function of the same name in TaskMachine says (a long handler is cut where
 that module cuts it), so every result about runs of that machine is a result about
 this object; and from a state in order each leaves the object in order, no CHECK failing.
 */
module CompileTaskObject {
  import M = TaskMachine
  import opened TaskMachine
  import I = TaskInvariant
  import P = TaskProgress
  import T = TaskTable
  import F = TaskFollows

  /** The phases from which inputs are sent. */
  predicate MaySend(p: Phase) {
    p == Setup || p == FileReq || p == FileResp
  }

  /** SETUP is over, with a forced fallback only where it did not succeed. */
  predicate EndsSetup(t: Task, done: bool) {
    && I.Acting(t, false) && I.Paid(t) && t.ctl.phase == Setup && t.pipe.retry <= MaxExecRetry
    && (done ==> !t.loc.shouldFallback)
  }

  /** The handler that is told of one more input file task. */
  predicate Uploads(t: Task) {
    t.pipe.remote == Idle && I.Settled(M.Await(t, AwaitInputs))
  }

  /** The handler that is told of one more output file task. */
  predicate Downloads(t: Task) {
    t.pipe.remote == Idle && I.Settled(M.Await(t, AwaitOutputs))
  }

  /** The last upload has just ended. */
  predicate Uploaded(t: Task) {
    t.io.upload == NoBatch && I.Settled(t.(io := t.io.(upload := Batch(true, 0, true))))
  }

  /** verify_output: the local run is over, and the remote side begins. */
  predicate Compares(t: Task) {
    I.LocalOver(t) && t.cfg.verify && t.ctl.phase == Init && !t.loc.shouldFallback && I.Paid(t)
  }

  /** The remote side has failed, and gomacc may have a local result instead. */
  predicate FallsBack(t: Task) {
    && I.Ended(CancelDelayed(t)) && (t.loc.subproc ==> !t.loc.delayed)
    && t.cfg.fallback && !t.cfg.verify && !t.cfg.gch && t.loc.failFallback
  }

  class CompileTask {
    const cfg: Config
    var ok: bool
    var started: bool
    var ctl: Control
    var pipe: Pipe
    var loc: Local
    var fact: Facts
    var io: Files
    var log: Log

    function View(): Task
      reads this
    {
      Task(cfg, ok, started, ctl, pipe, loc, fact, io, log)
    }

    constructor (cfg: Config)
      ensures View() == NewTask(cfg)
      ensures I.Consistent(cfg) ==> I.Inv(View())
      ensures forall e :: Enabled(View(), e) <==> e == StartTask
    {
      this.cfg := cfg;
      ok, started := true, false;
      ctl := Control(phase := Init, abort := false, finished := false, rpc := true);
      pipe := Pipe(remote := Idle, retry := 0, execCalls := 0, pushes := 0, pops := 0);
      loc := Local(subproc := false, delayed := false, wantFallback := false, shouldFallback := false,
                   failFallback := false, run := false, killed := false);
      fact := Facts(canceled := false, closable := false, gomacc := false, success := false, missing := false);
      io := Files(input := NoBatch, output := NoBatch, upload := NoBatch, infos := 0, direct := false);
      log := Log(commits := 0, remoteCommits := 0, replies := 0, dones := 0, answer := Unanswered);
    }

    /** Nothing is left to come: the answer is out, and no subprocess or callback remains. */
    predicate Quiet()
      reads this
    {
      && !ctl.rpc && !loc.subproc && !loc.delayed
      && !io.input.cb && !io.output.cb && !io.upload.cb
    }

    /** CHECK and DCHECK. */
    method Require(cond: bool)
      modifies this`ok
      ensures View() == Check(old(View()), cond)
    {
      if !cond { ok := false; }
    }

    predicate ShouldStop(o: Oracle)
      reads this
    {
      ShouldStopGoma(View(), o)
    }

    // -------------------------------------------------------------- replying

    method ClearOutputFile()
      modifies this
      ensures View() == M.ClearOutputs(old(View()))
    {
      io := io.(infos := 0);
    }

    method DoDone()
      modifies this
      ensures View() == M.Done(old(View()))
      ensures ok <==> old(ok && Quiet() && (ctl.abort || Rank(ctl.phase) >= Rank(Finished)))
      ensures log == old(log).(dones := old(log.dones) + 1) && io == old(io).(infos := 0)
      ensures ctl == old(ctl) && pipe == old(pipe) && loc == old(loc) && fact == old(fact)
      ensures forall e :: !Enabled(View(), e)
    {
      Require(&& (ctl.abort || Rank(ctl.phase) >= Rank(Finished))
              && !ctl.rpc && !loc.subproc && !loc.delayed
              && !io.input.cb && !io.output.cb && !io.upload.cb);
      ClearOutputFile();
      log := log.(dones := log.dones + 1);
    }

    method AfterReply()
      modifies this
      ensures View() == M.AfterReply(old(View()))
    {
      hide M.Done;
      if ctl.finished {
        if io.upload.cb {
          Require(!ctl.abort);
        } else {
          Require(!ctl.abort && Rank(ctl.phase) >= Rank(Finished) && io.upload.tasks == 0);
          DoDone();
        }
      }
    }

    method ReplyResponse(how: Answer)
      modifies this
      ensures View() == M.ReplyResponse(old(View()), how)
      ensures I.CanReply(old(View())) ==> ok
      ensures ok ==> old(ok && ctl.rpc && !loc.subproc && !loc.delayed)
      ensures !ctl.rpc && ctl == old(ctl).(rpc := false) && pipe == old(pipe) && loc == old(loc)
      ensures log.replies == old(log.replies) + 1 && log.answer == how && log.commits == old(log.commits)
      ensures log.dones == old(log.dones) + if old(ctl.finished && !io.upload.cb) then 1 else 0
    {
      hide M.AfterReply;
      ghost var t := View();
      Require(&& (ctl.phase == Finished || ctl.phase == LocalFinished || ctl.abort)
              && ctl.rpc && !loc.subproc && !loc.delayed);
      ctl := ctl.(rpc := false);
      fact := fact.(gomacc := false);
      log := log.(replies := log.replies + 1, answer := how);
      AfterReply();
      I.ReplyCounts(t, how);
      if I.CanReply(t) {
        I.ReplyIs(t, how);
      }
    }

    method CommitOutput(useRemote: bool)
      modifies this
      ensures View() == M.CommitOutput(old(View()), useRemote)
      ensures ok <==> old(ok && ctl.phase == Finished && !ctl.abort && !loc.subproc && !loc.delayed)
      ensures log.commits == old(log.commits) + 1 && io == old(io).(infos := 0)
      ensures log.remoteCommits == old(log.remoteCommits) + if useRemote then 1 else 0
      ensures log.replies == old(log.replies) && log.dones == old(log.dones) && log.answer == old(log.answer)
      ensures ctl == old(ctl) && pipe == old(pipe) && loc == old(loc) && fact == old(fact)
      ensures var t := old(View()); I.Ended(t) && !t.loc.subproc ==> I.CanReply(View())
    {
      Require(ctl.phase == Finished && !ctl.abort && !loc.subproc && !loc.delayed);
      ClearOutputFile();
      log := log.(commits := log.commits + 1,
                  remoteCommits := log.remoteCommits + if useRemote then 1 else 0);
    }

    method ReplyRemote()
      modifies this
      ensures View() == M.ReplyRemote(old(View()))
    {
      hide M.CommitOutput, M.ReplyResponse;
      if fact.gomacc {
        CommitOutput(!(loc.run && cfg.dontKill));
      }
      ReplyResponse(RemoteResult);
    }

    /** IsGomaccRunning: a gomacc that is gone stays gone. */
    method AskGomacc(alive: bool)
      modifies this
      ensures View() == M.SetGomacc(old(View()), old(fact.gomacc) && alive)
    {
      fact := fact.(gomacc := fact.gomacc && alive);
    }

    method ProcessReply(o: Oracle)
      modifies this
      ensures View() == M.ProcessReply(old(View()), o)
      ensures var t := old(View()); I.Ended(t) && !t.loc.subproc ==> I.Settled(View())
      ensures old(ctl.finished && !io.upload.cb) ==>
                log == T.RemoteReply(old(log), old(fact.gomacc) && o.aliveAtReply, loc.run && cfg.dontKill)
      ensures loc == old(loc) && pipe == old(pipe) && ctl == old(ctl).(rpc := false)
    {
      hide M.ReplyRemote, M.SetGomacc, I.Ended, I.Settled, T.RemoteReply;
      ghost var t := View();
      Require(ctl.phase == Finished && !loc.subproc && !loc.delayed && !ctl.abort);
      AskGomacc(o.aliveAtReply);
      ReplyRemote();
      if I.Ended(t) && !t.loc.subproc {
        I.ProcessReplyKeeps(t, o);
      }
      F.ReplyKeepsRest(t, o);
      if t.ctl.finished && !t.io.upload.cb {
        F.ReplyShows(t, o);
      }
    }

    // -------------------------------------------------------------- subprocess

    method SetupSubProcess()
      modifies this
      ensures View() == M.SetupSubProcess(old(View()))
      ensures loc == old(loc).(delayed := false, subproc := true) && (ok <==> old(ok && !loc.subproc))
      ensures ctl == old(ctl) && pipe == old(pipe) && fact == old(fact) && io == old(io) && log == old(log)
      ensures var t := old(View()); I.Settled(t) && t.loc.delayed ==> I.Settled(View())
    {
      hide I.Settled;
      ghost var t := View();
      Require(!loc.subproc);
      loc := loc.(delayed := false, subproc := true);
      if I.Settled(t) && t.loc.delayed {
        I.DelayedKeeps(t);
      }
    }

    method RunSubProcess()
      modifies this
      ensures View() == M.RunSubProcess(old(View()))
      ensures ok <==> old(ok && !ctl.abort)
    {
      Require(!ctl.abort);
    }

    method RunLocal()
      modifies this
      ensures View() == M.RunLocal(old(View()))
      ensures loc.subproc && (ok <==> old(ok && !ctl.abort))
      ensures ctl == old(ctl) && pipe == old(pipe) && fact == old(fact) && io == old(io) && log == old(log)
      ensures FallsBack(old(View())) ==> I.Settled(View())
    {
      hide I.Settled;
      ghost var t := View();
      if !loc.subproc {
        SetupSubProcess();
      }
      RunSubProcess();
      if FallsBack(t) {
        I.FallBackKeeps(t);
      }
    }

    method KillSubProcess(o: Oracle)
      modifies this
      ensures View() == M.KillSubProcess(old(View()), o)
      ensures loc == old(loc).(killed := o.killed) && (ok <==> old(ok && loc.subproc))
      ensures ctl == old(ctl) && pipe == old(pipe) && fact == old(fact) && io == old(io) && log == old(log)
      ensures var t := old(View()); I.Settled(t) && t.loc.subproc ==> I.Settled(View())
    {
      hide I.Settled;
      ghost var t := View();
      Require(loc.subproc);
      loc := loc.(killed := o.killed);
      if I.Settled(t) && t.loc.subproc {
        I.KillKeeps(t, o);
      }
    }

    // -------------------------------------------------------------- end of the remote pipeline

    method StopLocal(o: Oracle)
      modifies this
      ensures View() == M.StopLocal(old(View()), o)
    {
      hide M.KillSubProcess, M.ProcessReply;
      if loc.subproc {
        KillSubProcess(o);
      } else {
        ProcessReply(o);
      }
    }

    method FallBack(o: Oracle)
      modifies this
      ensures View() == M.FallBack(old(View()), o)
    {
      hide M.RunLocal, M.StopLocal;
      if o.limiterAllows {
        RunLocal();
      } else {
        loc := loc.(delayed := false);
        StopLocal(o);
      }
    }

    method FinishRace(o: Oracle)
      modifies this
      ensures View() == M.FinishRace(old(View()), o)
    {
      hide M.FallBack, M.StopLocal;
      if fact.success || !fact.gomacc || !loc.wantFallback {
        loc := loc.(delayed := false);
        StopLocal(o);
      } else {
        Require(!loc.failFallback && cfg.fallback);
        loc := loc.(failFallback := true);
        FallBack(o);
      }
    }

    method FinishRemote(o: Oracle)
      modifies this
      ensures View() == M.FinishRemote(old(View()), o)
    {
      hide M.ReplyResponse, M.ProcessReply, M.FinishRace, M.Done;
      if cfg.verify {
        Require(!loc.subproc && !loc.delayed);
        ReplyResponse(Verified);
      } else if cfg.gch {
        if !loc.subproc {
          Require(!loc.delayed);
          ProcessReply(o);
        }
      } else if !cfg.fallback {
        Require(!loc.subproc && !loc.delayed);
        ProcessReply(o);
      } else if ctl.abort {
        if !io.upload.cb {
          DoDone();
        }
      } else {
        Require(ctl.phase == Finished);
        fact := fact.(gomacc := fact.gomacc && (fact.success || o.aliveAtFinish));
        FinishRace(o);
      }
    }

    method FinishedIn(o: Oracle)
      modifies this
      ensures View() == M.FinishedIn(old(View()), o)
    {
      hide M.ReplyResponse, M.FinishRemote;
      if ctl.phase == Init {
        Require(!loc.subproc && !loc.delayed && !ctl.abort);
        ctl := ctl.(phase := Finished);
        ReplyResponse(InitFailure);
      } else {
        if !ctl.abort {
          ctl := ctl.(phase := Finished);
        }
        FinishRemote(o);
      }
    }

    method ProcessFinished(o: Oracle, quiet: bool)
      modifies this
      ensures View() == M.ProcessFinished(old(View()), o, quiet)
      ensures var t := old(View()); I.MayFinish(t, quiet) ==> I.Settled(View())
      ensures var t := old(View());
              F.Apt(t) ==> T.Shows(T.SideOf(t), View(), o, T.Course(T.Ends, T.MindOf(t)))
    {
      hide M.FinishedIn, I.MayFinish, I.Settled, F.Apt, T.Shows;
      ghost var t := View();
      Require(&& Rank(ctl.phase) < Rank(Finished) && !ctl.finished
              && (quiet && !ctl.abort && !fact.canceled ==> fact.success && ctl.phase == FileResp));
      ctl := ctl.(finished := true);
      FinishedIn(o);
      if I.MayFinish(t, quiet) {
        I.FinishedKeeps(t, o, quiet);
      }
      if F.Apt(t) {
        F.EndShows(t, o, quiet);
      }
    }

    // -------------------------------------------------------------- remote pipeline

    method Enter(p: Phase)
      modifies this
      ensures View() == M.Enter(old(View()), p)
    {
      Require(cfg.verify || cfg.gch || loc.subproc || !ctl.abort);
      ctl := ctl.(phase := p);
    }

    method CallGoma(o: Oracle)
      modifies this
      ensures View() == M.CallGoma(old(View()), o)
    {
      hide M.ShouldStopGoma;
      if ShouldStop(o) {
        ctl := ctl.(phase := LocalRun);
      } else {
        pipe := pipe.(remote := AwaitInfo);
      }
    }

    method ProcessSetup(o: Oracle)
      modifies this
      ensures View() == M.ProcessSetup(old(View()), o)
      ensures ok <==> old(ok && ctl.phase == Init && !ctl.abort && !loc.shouldFallback)
      ensures if ctl.phase == LocalRun then loc.subproc && !cfg.verify && !cfg.gch && pipe == old(pipe)
              else ctl.phase == Setup && pipe == old(pipe).(remote := AwaitInfo)
      ensures ctl == old(ctl).(phase := ctl.phase)
      ensures loc == old(loc) && fact == old(fact) && io == old(io) && log == old(log)
      ensures Compares(old(View())) ==> I.Settled(View())
    {
      hide I.Settled, I.LocalOver, M.Enter, M.CallGoma;
      ghost var t := View();
      Require(ctl.phase == Init && !ctl.abort && !loc.shouldFallback);
      Enter(Setup);
      CallGoma(o);
      I.SetupBegins(t, o);
      if Compares(t) {
        I.ProcessSetupKeeps(t, o);
      }
    }

    method LeaveLinkQueue()
      modifies this
      ensures View() == M.LeaveLinkQueue(old(View()))
      ensures ok <==> old(ok) && (cfg.linking ==> I.Queued(old(View()), true))
      ensures pipe == old(pipe).(pops := old(pipe.pops) + if cfg.linking then 1 else 0)
      ensures ctl == old(ctl) && loc == old(loc) && fact == old(fact) && io == old(io) && log == old(log)
      ensures I.Working(old(View()), true) ==> I.Working(View(), false)
    {
      hide I.Working;
      ghost var t := View();
      if cfg.linking {
        Require(pipe.pushes == pipe.pops + 1);
        pipe := pipe.(pops := pipe.pops + 1);
      }
      if I.Working(t, true) {
        I.LeaveWorks(t);
      }
    }

    method SendInputs(o: Oracle)
      modifies this
      ensures View() == M.SendInputs(old(View()), o)
    {
      hide M.LeaveLinkQueue, M.ShouldStopGoma;
      if ShouldStop(o) {
        LeaveLinkQueue();
        ctl := ctl.(phase := LocalRun);
      } else {
        Require(ctl.phase == FileReq && !io.input.cb);
        io := io.(input := Batch(true, o.inputCount, true));
        pipe := pipe.(remote := AwaitInputs);
      }
    }

    method FileRequest(o: Oracle)
      modifies this
      ensures View() == M.FileRequest(old(View()), o)
    {
      hide M.LeaveLinkQueue, M.ProcessFinished, M.Enter, M.SendInputs;
      if ctl.abort || fact.canceled {
        LeaveLinkQueue();
        ProcessFinished(o, false);
      } else {
        Enter(FileReq);
        SendInputs(o);
      }
    }

    method ProcessFileRequest(o: Oracle)
      modifies this
      ensures View() == M.ProcessFileRequest(old(View()), o)
      ensures var t := old(View()); I.Working(t, true) && I.Paid(t) && MaySend(t.ctl.phase) ==> I.Settled(View())
      ensures var t := old(View());
              F.Apt(t) && MaySend(t.ctl.phase) ==> T.Shows(T.SideOf(t), View(), o, T.Sends(T.SideOf(t), T.MindOf(t), o))
    {
      hide M.FileRequest, I.Working, I.Paid, I.Settled, F.Apt, T.Shows, T.Sends;
      ghost var t := View();
      Require(ctl.phase == Setup || ctl.phase == FileReq || ctl.phase == FileResp);
      FileRequest(o);
      if I.Working(t, true) && I.Paid(t) && MaySend(t.ctl.phase) {
        I.FileRequestKeeps(t, o);
      }
      if F.Apt(t) && MaySend(t.ctl.phase) {
        F.SendShows(t, o);
      }
    }

    method TryProcessFileRequest(o: Oracle)
      modifies this
      ensures View() == M.TryProcessFileRequest(old(View()), o)
      ensures var t := old(View()); I.Working(t, false) && I.Paid(t) && MaySend(t.ctl.phase) ==> I.Settled(View())
      ensures var t := old(View());
              F.Apt(t) && MaySend(t.ctl.phase) ==>
                T.Shows(T.SideOf(t), View(), o, T.Requests(T.SideOf(t), T.MindOf(t), o))
    {
      hide M.ProcessFileRequest, I.Working, I.Paid, I.Settled, F.Apt, T.Shows, T.Requests;
      ghost var t := View();
      if !cfg.linking {
        ProcessFileRequest(o);
      } else {
        pipe := pipe.(pushes := pipe.pushes + 1);
        if o.front {
          ProcessFileRequest(o);
        } else {
          pipe := pipe.(remote := AwaitLink);
        }
      }
      if I.Working(t, false) && I.Paid(t) && MaySend(t.ctl.phase) {
        I.TryFileRequestKeeps(t, o);
      }
      if F.Apt(t) && MaySend(t.ctl.phase) {
        F.RequestShows(t, o);
      }
    }

    method SetupDone(o: Oracle, done: bool)
      modifies this
      ensures View() == M.SetupDone(old(View()), o, done)
    {
      hide M.ProcessFinished, M.TryProcessFileRequest, M.RunLocal;
      if ctl.abort || fact.canceled {
        ProcessFinished(o, false);
      } else if done {
        TryProcessFileRequest(o);
      } else if loc.shouldFallback {
        ctl := ctl.(phase := Init);
        RunLocal();
      } else {
        fact := fact.(success := false);
        ProcessFinished(o, false);
      }
    }

    method SetupRequestDone(o: Oracle, done: bool)
      modifies this
      ensures View() == M.SetupRequestDone(old(View()), o, done)
      ensures EndsSetup(old(View()), done) ==> I.Settled(View())
      ensures var t := old(View());
              F.Apt(t) && t.ctl.phase == Setup ==>
                T.Shows(T.SideOf(t), View(), o, T.AfterSetup(T.SideOf(t), T.MindOf(t), done, t.loc.shouldFallback, o))
    {
      hide M.SetupDone, I.Acting, I.Paid, I.Settled, F.Apt, T.Shows, T.AfterSetup;
      ghost var t := View();
      Require(ctl.phase == Setup);
      SetupDone(o, done);
      if EndsSetup(t, done) {
        I.SetupDoneKeeps(t, o, done);
      }
      if F.Apt(t) && t.ctl.phase == Setup {
        F.SetupShows(t, o, done);
      }
    }

    /** should_fallback_ */
    method Force(b: bool)
      modifies this
      ensures View() == M.ForceFallback(old(View()), b)
    {
      if b {
        loc := loc.(shouldFallback := true);
      }
    }

    method UpdateRequiredFilesDone(o: Oracle, done: bool)
      modifies this
      ensures View() == M.UpdateRequiredFilesDone(old(View()), o, done)
      ensures var t := old(View()); I.Working(t, false) && I.Paid(t) && t.ctl.phase == Setup ==> I.Settled(View())
      ensures var t := old(View());
              F.Apt(t) && t.ctl.phase == Setup && !t.loc.shouldFallback ==>
                T.Shows(T.SideOf(t), View(), o, T.AfterFiles(T.SideOf(t), T.MindOf(t), done, o))
    {
      hide M.SetupRequestDone, I.Working, I.Paid, I.Settled, F.Apt, T.Shows, T.AfterFiles, M.ForceFallback;
      ghost var t := View();
      if !done && !cfg.verifyCommand {
        Force(!ctl.abort && !fact.canceled);
        SetupRequestDone(o, false);
      } else {
        SetupRequestDone(o, true);
      }
      if I.Working(t, false) && I.Paid(t) && t.ctl.phase == Setup {
        I.FilesDoneKeeps(t, o, done);
      }
      if F.Apt(t) && t.ctl.phase == Setup && !t.loc.shouldFallback {
        F.FilesShow(t, o, done);
      }
    }

    method CompilerInfoDone(o: Oracle)
      modifies this
      ensures View() == M.CompilerInfoDone(old(View()), o)
    {
      hide M.SetupRequestDone, M.UpdateRequiredFilesDone;
      match o.info
      case NoInfo =>
        fact := fact.(success := false);
        SetupRequestDone(o, false);
      case InfoFound =>
        if o.depsCached {
          UpdateRequiredFilesDone(o, true);
        } else {
          pipe := pipe.(remote := AwaitInclude);
        }
      case _ =>
        fact := fact.(success := false);
        if !cfg.failFast && loc.wantFallback {
          loc := loc.(shouldFallback := true);
        }
        SetupRequestDone(o, false);
    }

    method FillCompilerInfoDone(o: Oracle)
      modifies this
      ensures View() == M.FillCompilerInfoDone(old(View()), o)
      ensures var t := old(View()); I.Working(t, false) && I.Paid(t) && t.ctl.phase == Setup ==> I.Settled(View())
      ensures var t := old(View());
              F.Apt(t) && t.ctl.phase == Setup && !t.loc.shouldFallback ==>
                T.Shows(T.SideOf(t), View(), o, T.AfterInfo(T.SideOf(t), T.MindOf(t), o))
    {
      hide M.CompilerInfoDone, I.Working, I.Paid, I.Settled, F.Apt, T.Shows, T.AfterInfo;
      ghost var t := View();
      Require(ctl.phase == Setup);
      CompilerInfoDone(o);
      if I.Working(t, false) && I.Paid(t) && t.ctl.phase == Setup {
        I.CompilerInfoKeeps(t, o);
      }
      if F.Apt(t) && t.ctl.phase == Setup && !t.loc.shouldFallback {
        F.InfoShows(t, o);
      }
    }

    method RunIncludeProcessorDone(o: Oracle)
      modifies this
      ensures View() == M.RunIncludeProcessorDone(old(View()), o)
      ensures var t := old(View()); I.Working(t, false) && I.Paid(t) && t.ctl.phase == Setup ==> I.Settled(View())
      ensures var t := old(View());
              F.Apt(t) && t.ctl.phase == Setup && !t.loc.shouldFallback ==>
                T.Shows(T.SideOf(t), View(), o, T.AfterInclude(T.SideOf(t), T.MindOf(t), o))
    {
      hide M.UpdateRequiredFilesDone, I.Working, I.Paid, I.Settled, F.Apt, T.Shows, T.AfterInclude;
      ghost var t := View();
      if (ctl.abort || fact.canceled) && o.includeSkipped {
        UpdateRequiredFilesDone(o, false);
      } else {
        if !o.includeOk && o.includeError {
          fact := fact.(success := false);
        }
        UpdateRequiredFilesDone(o, o.includeOk);
      }
      if I.Working(t, false) && I.Paid(t) && t.ctl.phase == Setup {
        I.IncludeKeeps(t, o);
      }
      if F.Apt(t) && t.ctl.phase == Setup && !t.loc.shouldFallback {
        F.IncludeShows(t, o);
      }
    }

    method OutputFailed(o: Oracle)
      modifies this
      ensures View() == M.OutputFailed(old(View()), o)
    {
      hide M.ProcessFinished, M.TryProcessFileRequest;
      if !cfg.gch && loc.subproc && o.runningLate {
        ctl := ctl.(phase := LocalRun);
        return;
      }
      fact := fact.(success := false);
      if o.compilerDisabled || !o.healthy {
        ProcessFinished(o, false);
      } else {
        pipe := pipe.(retry := pipe.retry + 1);
        if pipe.retry <= MaxExecRetry {
          TryProcessFileRequest(o);
        } else {
          ProcessFinished(o, false);
        }
      }
    }

    method FileResponseDone(o: Oracle)
      modifies this
      ensures View() == M.FileResponseDone(old(View()), o)
    {
      hide M.ProcessFinished, M.OutputFailed;
      if ctl.abort || fact.canceled {
        ProcessFinished(o, false);
      } else if !io.output.good {
        OutputFailed(o);
      } else if cfg.verify {
        Require(!loc.subproc && !loc.delayed);
        ClearOutputFile();
        fact := fact.(success := fact.success && o.verifyOk);
        ProcessFinished(o, false);
      } else if fact.success {
        ProcessFinished(o, true);
      } else {
        ClearOutputFile();
        ProcessFinished(o, false);
      }
    }

    method ProcessFileResponseDone(o: Oracle)
      modifies this
      ensures View() == M.ProcessFileResponseDone(old(View()), o)
      ensures var t := old(View()); I.Working(t, false) && t.ctl.phase == FileResp ==> I.Settled(View())
      ensures var t := old(View());
              F.Apt(t) && t.ctl.phase == FileResp ==>
                T.Shows(T.SideOf(t), View(), o, T.AfterOutputs(T.SideOf(t), T.MindOf(t), t.io.output.good, o))
    {
      hide M.FileResponseDone, I.Working, I.Settled, F.Apt, T.Shows, T.AfterOutputs;
      ghost var t := View();
      Require(ctl.phase == FileResp);
      FileResponseDone(o);
      if I.Working(t, false) && t.ctl.phase == FileResp {
        I.FileResponseDoneKeeps(t, o);
      }
      if F.Apt(t) && t.ctl.phase == FileResp {
        F.OutputsShow(t, o);
      }
    }

    method Download(o: Oracle, direct: bool)
      modifies this
      ensures View() == M.Download(old(View()), o, direct)
    {
      Require(ctl.phase == FileResp && !io.output.cb);
      io := io.(output := Batch(true, o.outputCount, true), infos := o.outputCount, direct := direct);
      pipe := pipe.(remote := AwaitOutputs);
    }

    method StartDownload(o: Oracle)
      modifies this
      ensures View() == M.StartDownload(old(View()), o)
    {
      hide M.Download;
      if cfg.verify || !fact.success {
        Download(o, false);
      } else {
        loc := loc.(delayed := false);
        Download(o, !loc.subproc);
      }
    }

    method FileResponse(o: Oracle)
      modifies this
      ensures View() == M.FileResponse(old(View()), o)
    {
      hide M.ShouldStopGoma, M.ProcessFileResponseDone, M.ProcessFinished, M.StartDownload;
      if ShouldStop(o) {
        ctl := ctl.(phase := LocalRun);
      } else if fact.missing {
        fact := fact.(success := false);
        io := io.(output := io.output.(good := false));
        ProcessFileResponseDone(o);
      } else if !(fact.gomacc && o.aliveAtResponse) {
        fact := fact.(gomacc := false, success := false);
        ProcessFinished(o, false);
      } else {
        StartDownload(o);
      }
    }

    method FileResponseIn(o: Oracle)
      modifies this
      ensures View() == M.FileResponseIn(old(View()), o)
    {
      hide M.ProcessFinished, M.Enter, M.FileResponse;
      if ctl.abort || fact.canceled {
        ProcessFinished(o, false);
      } else {
        Enter(FileResp);
        FileResponse(o);
      }
    }

    method ProcessFileResponse(o: Oracle)
      modifies this
      ensures View() == M.ProcessFileResponse(old(View()), o)
      ensures var t := old(View());
              I.Working(t, false) && (t.ctl.phase == CallExec || t.ctl.phase == LocalOutput) ==> I.Settled(View())
      ensures var t := old(View());
              F.Apt(t) && (t.ctl.phase == CallExec || t.ctl.phase == LocalOutput) ==>
                T.Shows(T.SideOf(t), View(), o, T.Responds(T.SideOf(t), T.MindOf(t), o))
    {
      hide M.FileResponseIn, I.Working, I.Settled, F.Apt, T.Shows, T.Responds;
      ghost var t := View();
      Require(ctl.phase == CallExec || ctl.phase == LocalOutput);
      FileResponseIn(o);
      if I.Working(t, false) && (t.ctl.phase == CallExec || t.ctl.phase == LocalOutput) {
        I.FileResponseKeeps(t, o);
      }
      if F.Apt(t) && (t.ctl.phase == CallExec || t.ctl.phase == LocalOutput) {
        F.RespondShows(t, o);
      }
    }

    method OutputsReported(o: Oracle)
      modifies this
      ensures View() == M.OutputsReported(old(View()), o)
    {
      hide M.ProcessFileResponseDone;
      if io.output.tasks > 0 {
        pipe := pipe.(remote := AwaitOutputs);
      } else if io.output.cb {
        io := io.(output := io.output.(cb := false));
        ProcessFileResponseDone(o);
      }
    }

    /** One output file task reports, if any still runs. */
    method HearOutput(o: Oracle)
      modifies this
      ensures var t := old(View());
              View() == M.OutputsTo(t, Report(t.io.output, o.taskOk && !t.ctl.abort),
                                    t.fact.success && (t.io.output.tasks == 0 || o.taskOk || t.ctl.abort))
    {
      if io.output.tasks > 0 {
        if !o.taskOk && !ctl.abort {
          fact := fact.(success := false);
        }
        io := io.(output := Report(io.output, o.taskOk && !ctl.abort));
      }
    }

    method OutputStep(o: Oracle)
      modifies this
      ensures View() == M.OutputStep(old(View()), o)
      ensures old(ctl.phase == FileResp && io.output.cb) ==>
                if old(io.output.tasks) > 1 then
                  && io.output == Batch(true, old(io.output.tasks) - 1, old(io.output.good) && o.taskOk && !ctl.abort)
                  && pipe == old(pipe).(remote := AwaitOutputs) && ctl == old(ctl) && loc == old(loc) && log == old(log)
                else
                  P.Redone(old(pipe), pipe, cfg.linking, o.front)
      ensures Downloads(old(View())) ==> I.Settled(View())
    {
      hide M.OutputsReported, M.OutputsTo, Report, I.Settled, P.Redone;
      ghost var t := View();
      Require(ctl.phase == FileResp);
      HearOutput(o);
      OutputsReported(o);
      if t.ctl.phase == FileResp && t.io.output.cb {
        P.OutputStepMoves(t, o);
        if t.io.output.tasks > 1 {
          I.OutputGoesOn(t, o);
        }
      }
      if Downloads(t) {
        I.OutputStepKeeps(M.Await(t, AwaitOutputs), o);
      }
    }

    method ExecAsync()
      modifies this
      ensures View() == M.ExecAsync(old(View()))
    {
      pipe := pipe.(execCalls := pipe.execCalls + 1, remote := AwaitExec);
    }

    method SendExec(o: Oracle)
      modifies this
      ensures View() == M.SendExec(old(View()), o)
    {
      hide M.ShouldStopGoma, M.SetupSubProcess;
      if ShouldStop(o) {
        ctl := ctl.(phase := LocalRun);
      } else {
        ExecAsync();
        if cfg.useLocal && cfg.heavy && !loc.subproc {
          SetupSubProcess();
        }
      }
    }

    method CallExecIn(o: Oracle)
      modifies this
      ensures View() == M.CallExecIn(old(View()), o)
    {
      hide M.ProcessFinished, M.Enter, M.SendExec;
      if ctl.abort || fact.canceled {
        ProcessFinished(o, false);
      } else {
        Enter(CallExec);
        SendExec(o);
      }
    }

    method ProcessCallExec(o: Oracle)
      modifies this
      ensures View() == M.ProcessCallExec(old(View()), o)
      ensures var t := old(View()); I.Working(t, false) && I.Paid(t) && t.ctl.phase == FileReq ==> I.Settled(View())
      ensures var t := old(View());
              F.Apt(t) && t.ctl.phase == FileReq ==>
                T.Shows(T.SideOf(t), View(), o, T.Calls(T.SideOf(t), T.MindOf(t), o))
    {
      hide M.CallExecIn, I.Working, I.Paid, I.Settled, F.Apt, T.Shows, T.Calls;
      ghost var t := View();
      Require(ctl.phase == FileReq);
      CallExecIn(o);
      if I.Working(t, false) && I.Paid(t) && t.ctl.phase == FileReq {
        I.CallExecKeeps(t, o);
      }
      if F.Apt(t) && t.ctl.phase == FileReq {
        F.CallShows(t, o);
      }
    }

    /** What a failed check of the command spec leaves: no success, and maybe no fallback. */
    method RejectSpec(o: Oracle)
      modifies this
      ensures View() == M.KeepFallback(M.Failed(old(View())), o.hermeticFallback)
    {
      fact := fact.(success := false);
      loc := loc.(wantFallback := loc.wantFallback && o.hermeticFallback);
    }

    method CheckCommandSpec(o: Oracle)
      modifies this
      ensures View() == M.CheckCommandSpec(old(View()), o)
      ensures ok <==> old(ok && ctl.phase == CallExec)
      ensures !o.specError ==> fact == old(fact) && loc == old(loc)
      ensures o.specError ==> !fact.success && (loc.wantFallback <==> old(loc.wantFallback) && o.hermeticFallback)
      ensures loc == old(loc).(wantFallback := loc.wantFallback) && fact == old(fact).(success := fact.success)
      ensures ctl == old(ctl) && pipe == old(pipe) && io == old(io) && log == old(log)
      ensures var t := old(View()); I.Working(t, false) && t.ctl.phase == CallExec ==> I.Working(View(), false)
    {
      hide I.Working, M.KeepFallback, M.Failed;
      ghost var t := View();
      Require(ctl.phase == CallExec);
      if o.specError {
        RejectSpec(o);
      }
      I.SpecIs(t, o);
      if I.Working(t, false) && t.ctl.phase == CallExec {
        I.SpecActs(t, o);
      }
    }

    method ExecFailed(o: Oracle)
      modifies this
      ensures View() == M.ExecFailed(old(View()), o)
    {
      hide M.CheckCommandSpec, M.ProcessFinished;
      if !o.healthy {
        CheckCommandSpec(o);
        ProcessFinished(o, false);
        return;
      }
      pipe := pipe.(retry := pipe.retry + 1);
      if pipe.retry <= MaxExecRetry && !o.fatal {
        ctl := ctl.(phase := FileReq);
        pipe := pipe.(remote := AwaitExecRetry);
      } else {
        if o.unsupported {
          fact := fact.(success := false);
          loc := loc.(wantFallback := false);
        }
        CheckCommandSpec(o);
        ProcessFinished(o, false);
      }
    }

    method RpcFailed(o: Oracle)
      modifies this
      ensures View() == M.RpcFailed(old(View()), o)
    {
      hide M.ExecFailed, M.ProcessFinished;
      if loc.subproc && o.runningLate && !o.receiving {
        ctl := ctl.(phase := LocalRun);
      } else {
        fact := fact.(success := false);
        if o.serverError || o.retryable || o.receiving {
          ExecFailed(o);
        } else {
          ProcessFinished(o, false);
        }
      }
    }

    method ExecDone(o: Oracle)
      modifies this
      ensures View() == M.ExecDone(old(View()), o)
    {
      hide M.ProcessFinished, M.RpcFailed, M.ProcessFileResponse, M.ExecFailed, M.CheckCommandSpec;
      if ctl.abort || fact.canceled {
        ProcessFinished(o, false);
      } else if o.rpcErr {
        RpcFailed(o);
      } else if fact.missing {
        ProcessFileResponse(o);
      } else if o.serverError {
        ExecFailed(o);
      } else {
        CheckCommandSpec(o);
        ProcessFileResponse(o);
      }
    }

    method ProcessCallExecDone(o: Oracle)
      modifies this
      ensures View() == M.ProcessCallExecDone(old(View()), o)
      ensures var t := old(View()); I.Working(t, false) && t.ctl.phase == CallExec ==> I.Settled(View())
      ensures var t := old(View());
              F.Apt(t) && t.ctl.phase == CallExec ==>
                T.Shows(T.SideOf(t), View(), o, T.AfterExec(T.SideOf(t), T.MindOf(t), o))
    {
      hide M.ExecDone, I.Working, I.Settled, F.Apt, T.Shows, T.AfterExec;
      ghost var t := View();
      Require(ctl.phase == CallExec);
      fact := fact.(success := o.execSuccess, missing := o.execMissing);
      ExecDone(o);
      if I.Working(t, false) && t.ctl.phase == CallExec {
        I.ExecDoneKeeps(t, o);
      }
      if F.Apt(t) && t.ctl.phase == CallExec {
        F.ExecDoneShows(t, o);
      }
    }

    method RetryOr(o: Oracle, r: Remote)
      modifies this
      ensures View() == M.RetryOr(old(View()), o, r)
    {
      hide M.ProcessFinished;
      if pipe.retry <= MaxExecRetry {
        pipe := pipe.(remote := r);
      } else {
        ProcessFinished(o, false);
      }
    }

    method InputFailed(o: Oracle)
      modifies this
      ensures View() == M.InputFailed(old(View()), o)
    {
      hide M.ProcessFinished, M.RetryOr;
      if loc.subproc && o.runningLate {
        ctl := ctl.(phase := LocalRun);
      } else {
        fact := fact.(success := false);
        if !(o.healthy && o.uploading) {
          ProcessFinished(o, false);
        } else {
          pipe := pipe.(retry := pipe.retry + 1);
          RetryOr(o, AwaitFileRetry);
        }
      }
    }

    method FileRequestDone(o: Oracle)
      modifies this
      ensures View() == M.FileRequestDone(old(View()), o)
    {
      hide M.ProcessFinished, M.InputFailed, M.ProcessFileResponse, M.ProcessCallExec;
      if ctl.abort || fact.canceled {
        ProcessFinished(o, false);
      } else if !io.input.good {
        InputFailed(o);
      } else if o.cacheHit {
        ctl := ctl.(phase := LocalOutput);
        fact := fact.(success := true);
        ProcessFileResponse(o);
      } else {
        ProcessCallExec(o);
      }
    }

    method ProcessFileRequestDone(o: Oracle)
      modifies this
      ensures View() == M.ProcessFileRequestDone(old(View()), o)
      ensures var t := old(View()); I.Working(t, true) && I.Paid(t) && t.ctl.phase == FileReq ==> I.Settled(View())
      ensures var t := old(View());
              F.Apt(t) && t.ctl.phase == FileReq ==>
                T.Shows(T.SideOf(t), View(), o, T.AfterInputs(T.SideOf(t), T.MindOf(t), t.io.input.good, o))
    {
      hide M.LeaveLinkQueue, M.FileRequestDone, I.Working, I.Paid, I.Settled, F.Apt, T.Shows, T.AfterInputs;
      ghost var t := View();
      Require(ctl.phase == FileReq);
      LeaveLinkQueue();
      FileRequestDone(o);
      if I.Working(t, true) && I.Paid(t) && t.ctl.phase == FileReq {
        I.FileRequestDoneKeeps(t, o);
      }
      if F.Apt(t) && t.ctl.phase == FileReq {
        F.InputsDoneShow(t, o);
      }
    }

    method InputsReported(o: Oracle)
      modifies this
      ensures View() == M.InputsReported(old(View()), o)
    {
      hide M.ProcessFileRequestDone;
      if io.input.tasks > 0 {
        pipe := pipe.(remote := AwaitInputs);
      } else if io.input.cb {
        io := io.(input := io.input.(cb := false));
        ProcessFileRequestDone(o);
      }
    }

    /** One input file task reports, if any still runs. */
    method HearInput(o: Oracle)
      modifies this
      ensures var t := old(View());
              View() == M.InputsTo(t, Report(t.io.input, o.taskOk && !t.ctl.abort),
                                   t.fact.success && (t.io.input.tasks == 0 || o.taskOk || t.ctl.abort || o.badInput))
    {
      if io.input.tasks > 0 {
        if !o.taskOk && !ctl.abort && !o.badInput {
          fact := fact.(success := false);
        }
        io := io.(input := Report(io.input, o.taskOk && !ctl.abort));
      }
    }

    method InputStep(o: Oracle)
      modifies this
      ensures View() == M.InputStep(old(View()), o)
      ensures old(ctl.phase == FileReq && io.input.cb) ==>
                if old(io.input.tasks) > 1 then
                  && io.input == Batch(true, old(io.input.tasks) - 1, old(io.input.good) && o.taskOk && !ctl.abort)
                  && pipe == old(pipe).(remote := AwaitInputs) && ctl == old(ctl) && loc == old(loc) && log == old(log)
                else
                  P.Sent(P.Left(old(pipe), cfg.linking), pipe, cfg.linking, o.front)
      ensures Uploads(old(View())) ==> I.Settled(View())
    {
      hide M.InputsReported, M.InputsTo, Report, I.Settled, P.Sent;
      ghost var t := View();
      Require(ctl.phase == FileReq);
      HearInput(o);
      InputsReported(o);
      if t.ctl.phase == FileReq && t.io.input.cb {
        P.InputStepMoves(t, o);
        if t.io.input.tasks > 1 {
          I.InputGoesOn(t, o);
        }
      }
      if Uploads(t) {
        I.InputStepKeeps(M.Await(t, AwaitInputs), o);
      }
    }

    // -------------------------------------------------------------- events

    method SetupRace(o: Oracle)
      modifies this
      ensures View() == M.SetupRace(old(View()), o)
    {
      hide M.SetupSubProcess, M.RunSubProcess;
      if cfg.gch {
        SetupSubProcess();
        RunSubProcess();
      } else if cfg.fallback && !cfg.heavy && cfg.useLocal {
        if o.localNow {
          SetupSubProcess();
        } else {
          Require(!loc.delayed);
          loc := loc.(delayed := true);
        }
      }
    }

    method StartRace(o: Oracle)
      modifies this
      ensures View() == M.StartRace(old(View()), o)
    {
      hide M.ShouldStopGoma, M.ProcessSetup;
      if loc.subproc && ShouldStop(o) {
        ctl := ctl.(phase := LocalRun);
      } else {
        ProcessSetup(o);
      }
    }

    method StartWith(o: Oracle)
      modifies this
      ensures View() == M.StartWith(old(View()), o)
    {
      hide M.ProcessFinished, M.SetupSubProcess, M.RunSubProcess, M.SetupRace, M.StartRace;
      if o.startFails {
        ProcessFinished(o, false);
      } else if cfg.verify || loc.shouldFallback {
        SetupSubProcess();
        RunSubProcess();
      } else if o.rampedDown {
        loc := loc.(shouldFallback := true);
        SetupSubProcess();
        RunSubProcess();
      } else {
        SetupRace(o);
        StartRace(o);
      }
    }

    method Start(o: Oracle)
      modifies this
      ensures View() == M.Start(old(View()), o)
      ensures var t := old(View()); I.Unstarted(t) ==> I.Settled(View()) && T.Begins(cfg, View(), o)
    {
      hide M.StartWith, I.Unstarted, I.Settled, T.Begins;
      ghost var t := View();
      Require(ctl.phase == Init);
      started := true;
      fact := fact.(closable := true, gomacc := o.hasPid, success := !o.startFails && o.copied);
      loc := loc.(wantFallback := cfg.fallback,
                  shouldFallback := !o.startFails && o.wantsFallback && !cfg.verifyCommand);
      StartWith(o);
      if I.Unstarted(t) {
        I.StartKeeps(t, o);
        F.StartTable(t, o);
      }
    }

    method RemoteStep(o: Oracle)
      modifies this
      ensures View() == M.RemoteStep(old(View()), o)
      ensures var t := old(View());
              I.Settled(t) && t.pipe.remote != Idle && t.log.dones == 0 ==> I.Settled(View())
      ensures var t := old(View());
              I.Settled(t) && t.pipe.remote != Idle && T.Pending(t).tasks <= 1 ==>
                T.Shows(T.SideOf(t), View(), o, T.CourseOf(t, o))
    {
      hide T.Shows, T.CourseOf, T.CountsDown, M.FillCompilerInfoDone, M.RunIncludeProcessorDone,
        M.ProcessFileRequest, M.TryProcessFileRequest,
        M.InputStep, M.ProcessCallExec, M.ProcessCallExecDone, M.OutputStep, I.Settled;
      ghost var t := View();
      if I.Settled(t) && t.pipe.remote != Idle && t.log.dones == 0 {
        I.RemoteStepKeeps(t, o);
      }
      if I.Settled(t) && t.pipe.remote != Idle {
        F.RemoteTable(t, o);
      }
      var r := pipe.remote;
      pipe := pipe.(remote := Idle);
      match r
      case Idle =>
      case AwaitInfo => FillCompilerInfoDone(o);
      case AwaitInclude => RunIncludeProcessorDone(o);
      case AwaitLink => ProcessFileRequest(o);
      case AwaitFileRetry => TryProcessFileRequest(o);
      case AwaitInputs => InputStep(o);
      case AwaitExecRetry => ProcessCallExec(o);
      case AwaitExec => ProcessCallExecDone(o);
      case AwaitOutputs => OutputStep(o);
    }

    method LocalDone()
      modifies this
      ensures View() == M.LocalDone(old(View()))
    {
      ctl := ctl.(phase := LocalFinished, finished := true);
    }

    method ReplyLocal(gomaFailure: bool)
      modifies this
      ensures View() == M.ReplyLocal(old(View()), gomaFailure)
    {
      hide M.ReplyResponse;
      if loc.shouldFallback {
        Require(ctl.phase == Init);
        LocalDone();
        ReplyResponse(SetupFallback);
      } else if loc.failFallback {
        Require(ctl.phase == Finished);
        ReplyResponse(FailFallback);
      } else if ctl.phase == LocalRun {
        LocalDone();
        ReplyResponse(LocalOnly);
      } else if !gomaFailure {
        ctl := ctl.(abort := true);
        ReplyResponse(LocalFirst);
      }
    }

    method ProcessLocalFileOutput(o: Oracle)
      modifies this
      ensures View() == M.ProcessLocalFileOutput(old(View()), o)
      ensures ok <==> old(ok && !io.upload.cb && io.upload.tasks == 0)
      ensures io == old(io).(upload := if cfg.storeOutput then Batch(true, o.uploadCount, true) else old(io.upload))
      ensures ctl == old(ctl) && pipe == old(pipe) && loc == old(loc) && fact == old(fact) && log == old(log)
      ensures var t := old(View()); I.LocalOver(t) && !cfg.gch ==> I.LocalUploads(View(), false)
    {
      hide I.LocalOver, I.LocalUploads;
      ghost var t := View();
      Require(!io.upload.cb && io.upload.tasks == 0);
      if cfg.storeOutput {
        io := io.(upload := Batch(true, o.uploadCount, true));
      }
      if I.LocalOver(t) && !cfg.gch {
        I.OutputsUpload(t, o);
      }
    }

    method UseLocalResult(o: Oracle)
      modifies this
      ensures View() == M.UseLocalResult(old(View()), o)
    {
      hide M.ProcessSetup, M.ProcessLocalFileOutput, M.ReplyLocal;
      if cfg.verify && !loc.shouldFallback {
        Require(ctl.phase == Init);
        ProcessSetup(o);
      } else if cfg.gch {
        Require(Rank(ctl.phase) < Rank(Finished) && !loc.subproc);
      } else {
        var gomaFailure := GomaFailure(View(), o);
        if !RunFailed(View(), o) {
          ProcessLocalFileOutput(o);
        }
        ReplyLocal(gomaFailure);
      }
    }

    method LocalFinish(o: Oracle)
      modifies this
      ensures View() == M.LocalFinish(old(View()), o)
    {
      hide M.ProcessReply, M.UseLocalResult;
      if ctl.phase == Finished && !loc.failFallback {
        ProcessReply(o);
      } else {
        fact := fact.(success := o.status == 0);
        UseLocalResult(o);
      }
    }

    /** The subprocess is gone; whether it ran, and whether it could be run at all, is noted. */
    method TakeResult(o: Oracle)
      modifies this
      ensures View() == old(View()).(loc := old(loc).(subproc := false, run := old(loc.run) || o.procStarted),
                                     fact := old(fact).(success := old(fact.success) && !Broken(o)))
    {
      loc := loc.(subproc := false, run := loc.run || o.procStarted);
      fact := fact.(success := fact.success && !Broken(o));
    }

    method FinishSubProcess(o: Oracle)
      modifies this
      ensures View() == M.FinishSubProcess(old(View()), o)
      ensures var t := old(View()); I.Settled(t) && t.loc.subproc ==> I.Settled(View()) && T.Closes(t, View(), o)
    {
      hide M.LocalFinish, M.Broken, I.Settled, T.Closes;
      ghost var t := View();
      Require(!ctl.abort && loc.subproc);
      TakeResult(o);
      LocalFinish(o);
      if I.Settled(t) && t.loc.subproc {
        I.SubprocKeeps(t, o);
        F.SubprocTable(t, o);
      }
    }

    method ProcessLocalFileOutputDone()
      modifies this
      ensures View() == M.ProcessLocalFileOutputDone(old(View()))
      ensures log == old(log).(dones := old(log.dones) + if ctl.finished then 1 else 0)
      ensures ctl == old(ctl) && pipe == old(pipe) && loc == old(loc) && fact == old(fact)
      ensures io.upload == old(io.upload)
      ensures Uploaded(old(View())) ==> I.Settled(View())
    {
      hide M.Done, I.Settled;
      ghost var t := View();
      if ctl.finished {
        Require(!loc.subproc && !loc.delayed);
        DoDone();
      }
      if Uploaded(t) {
        I.UploadKeeps(t.(io := t.io.(upload := Batch(true, 0, true))));
      }
    }

    method UploadStep()
      modifies this
      ensures View() == M.UploadStep(old(View()))
      ensures var last := old(io.upload.tasks) <= 1;
              && io.upload == (if last then NoBatch else old(io.upload).(tasks := old(io.upload.tasks) - 1))
              && log == old(log).(dones := old(log.dones) + if last && ctl.finished then 1 else 0)
      ensures ctl == old(ctl) && pipe == old(pipe) && loc == old(loc) && fact == old(fact)
      ensures var t := old(View()); I.Settled(t) && t.io.upload.cb ==> I.Settled(View())
    {
      hide M.ProcessLocalFileOutputDone, I.Settled;
      ghost var t := View();
      if io.upload.tasks > 1 {
        io := io.(upload := Report(io.upload, true));
      } else {
        io := io.(upload := NoBatch);
        ProcessLocalFileOutputDone();
      }
      if I.Settled(t) && t.io.upload.cb {
        I.UploadKeeps(t);
      }
    }

    method GomaccClosed(o: Oracle)
      modifies this
      ensures View() == M.GomaccClosed(old(View()), o)
      ensures fact == old(fact).(canceled := true, gomacc := false, closable := false)
      ensures loc == old(loc).(killed := if loc.subproc then o.killed else old(loc.killed))
      ensures ctl == old(ctl) && pipe == old(pipe) && io == old(io) && log == old(log)
      ensures var t := old(View()); I.Settled(t) && t.log.dones == 0 ==> I.Settled(View())
    {
      hide M.KillSubProcess, I.Settled;
      ghost var t := View();
      fact := fact.(canceled := true, gomacc := false, closable := false);
      if loc.subproc {
        KillSubProcess(o);
      }
      if I.Settled(t) && t.log.dones == 0 {
        I.ClosedKeeps(t, o);
      }
    }

    /**
     The task's thread takes one enabled event. The object moves as the machine does and
     keeps the invariant, so no CHECK of any handler fails.
     */
    method Handle(e: Event, o: Oracle)
      requires I.Inv(View()) && Enabled(View(), e)
      modifies this
      ensures View() == Step(old(View()), e, o)
      ensures ok && I.Settled(View())
    {
      hide I.Inv, M.Start, M.RemoteStep, M.FinishSubProcess, M.SetupSubProcess, M.UploadStep,
        M.GomaccClosed;
      I.StepKeeps(View(), e, o);
      match e
      case StartTask => Start(o);
      case RemoteEvent => RemoteStep(o);
      case SubprocDone => FinishSubProcess(o);
      case DelayedSetup => SetupSubProcess();
      case Upload => UploadStep();
      case GomaccClose => GomaccClosed(o);
    }
  }
}
