/**
 The configurations in which client/compile_task.cc contradicts itself, each with a
 run that shows it, and the exact line between them and the rest.
 */
module TaskConflicts {
  import opened TaskMachine
  import opened TaskInvariant
  import opened TaskRuns

  lemma NewIsReachable(c: Config)
    ensures Reachable(c, NewTask(c))
  {
    var s := [NewTask(c)];
    assert IsRun(s) && s[0] == NewTask(c) && s[|s| - 1] == NewTask(c);
  }

  lemma StepIsReachable(c: Config, t: Task, e: Event, o: Oracle)
    requires Reachable(c, t) && Enabled(t, e)
    ensures Reachable(c, Step(t, e, o))
  {
    hide Step, Enabled;
    var s :| IsRun(s) && s[0] == NewTask(c) && s[|s| - 1] == t;
    var s' := s + [Step(t, e, o)];
    assert Next(t, Step(t, e, o));
    forall i | 0 <= i < |s'| - 1
      ensures Next(s'[i], s'[i + 1])
    {
      if i < |s| - 1 { assert Next(s[i], s[i + 1]); }
    }
    assert IsRun(s') && s'[0] == NewTask(c) && s'[|s'| - 1] == Step(t, e, o);
  }

  /** Nothing goes wrong outside, nothing is asked for. */
  const Plain := Oracle(
    startFails := false, hasPid := true, copied := false, wantsFallback := false,
    rampedDown := false, localNow := false, running := {}, fewPending := {}, httpDisabled := {},
    runningLate := false, aliveAtResponse := true, aliveAtFinish := true, aliveAtReply := true,
    info := InfoFound, depsCached := true, includeOk := true, includeSkipped := false,
    includeError := false, front := true, inputCount := 0, taskOk := true, badInput := false,
    cacheHit := false, uploading := false, healthy := true, execSuccess := true,
    execMissing := false, rpcErr := false, receiving := false, retryable := false,
    serverError := false, fatal := false, unsupported := false, specError := false,
    hermeticFallback := true, outputCount := 0, compilerDisabled := false, verifyOk := true,
    limiterAllows := true, killed := false, procStarted := true, status := 0, uploadCount := 0)

  /** A setup fallback under the gch hack: its subprocess ends and nobody replies. */
  predicate ForgottenFallback(t: Task) {
    t.ok && t.cfg.gch && t.started && t.ctl.phase == Init && t.loc.shouldFallback
    && t.loc.subproc && !t.ctl.abort && t.pipe.remote == Idle && !t.io.upload.cb && t.log.dones == 0
  }

  lemma FallbackForgotten(c: Config, t: Task)
    requires Reachable(c, t) && ForgottenFallback(t)
    ensures exists u :: Reachable(c, u) && !InOrder(u)
  {
    var u := Step(t, SubprocDone, Plain);
    StepIsReachable(c, t, SubprocDone, Plain);
    assert u.log.dones == 0 && !Live(u);
  }

  lemma GchLosesTask(c: Config)
    requires GchConflict(c)
    ensures exists u :: Reachable(c, u) && !InOrder(u)
  {
    var t0 := NewTask(c);
    NewIsReachable(c);
    if !c.verify {
      var o := Plain.(rampedDown := true);
      StepIsReachable(c, t0, StartTask, o);
      FallbackForgotten(c, Step(t0, StartTask, o));
    } else if !c.verifyCommand {
      var o := Plain.(wantsFallback := true);
      StepIsReachable(c, t0, StartTask, o);
      FallbackForgotten(c, Step(t0, StartTask, o));
    } else {
      GchLosesVerified(c);
    }
  }

  lemma GchLosesVerified(c: Config)
    requires c.gch && c.verify && c.verifyCommand && c.fallback && !c.failFast
    ensures exists u :: Reachable(c, u) && !InOrder(u)
  {
    var t2 := VerifyReachesSetup(c);
    var o := Plain.(info := InfoError);
    StepIsReachable(c, t2, RemoteEvent, o);
    FallbackForgotten(c, Step(t2, RemoteEvent, o));
  }

  /** verify_output: local run first, then the pipeline asks for compiler info. */
  lemma VerifyReachesSetup(c: Config) returns (t: Task)
    requires c.verify
    ensures Reachable(c, t) && AskingInfo(t) && t.cfg == c && !t.loc.subproc
  {
    var t0 := NewTask(c);
    NewIsReachable(c);
    var t1 := Step(t0, StartTask, Plain);
    StepIsReachable(c, t0, StartTask, Plain);
    t := Step(t1, SubprocDone, Plain);
    StepIsReachable(c, t1, SubprocDone, Plain);
  }

  predicate AskingInfo(t: Task) {
    && t.ok && t.started && t.pipe.remote == AwaitInfo && t.ctl.phase == Setup
    && !t.ctl.abort && !t.ctl.finished && !t.fact.canceled && !t.loc.shouldFallback
    && t.loc.wantFallback == t.cfg.fallback
    && !t.io.input.cb && !t.io.upload.cb && t.log.dones == 0 && t.pipe.pushes == t.pipe.pops
    && t.ctl.rpc
  }

  /** A heavy task that may run locally starts a subprocess with its Exec call. */
  lemma HeavyStarts(c: Config, t: Task) returns (u: Task)
    requires Reachable(c, t) && AskingInfo(t) && !t.loc.subproc && t.cfg.heavy && t.cfg.useLocal
    requires t.cfg.verify || !t.cfg.fallback
    ensures Reachable(c, u) && u.cfg == t.cfg && RacingExec(u)
  {
    hide Step, RacingExec;
    StepIsReachable(c, t, RemoteEvent, Plain);
    var v := PlainInputs(t);
    StepIsReachable(c, v, RemoteEvent, Plain);
    u := PlainExec(v);
  }

  predicate RacingExec(u: Task) {
    && u.ok && u.loc.subproc && !u.loc.shouldFallback && u.pipe.remote == AwaitExec
    && u.ctl.phase == CallExec && !u.ctl.abort && !u.ctl.finished && !u.fact.canceled && u.log.dones == 0
  }

  predicate SendingInputs(t: Task) {
    && t.ok && t.pipe.remote == AwaitInputs && t.ctl.phase == FileReq && t.io.input == Batch(true, 0, true)
    && !t.ctl.abort && !t.ctl.finished && !t.fact.canceled && !t.loc.shouldFallback && !t.loc.subproc
    && t.log.dones == 0 && t.pipe.pushes == t.pipe.pops + (if t.cfg.linking then 1 else 0)
  }

  lemma PlainInputs(t: Task) returns (u: Task)
    requires AskingInfo(t) && !t.loc.subproc
    ensures u == Step(t, RemoteEvent, Plain) && u.cfg == t.cfg && SendingInputs(u)
  {
    u := Step(t, RemoteEvent, Plain);
  }

  lemma PlainExec(t: Task) returns (u: Task)
    requires SendingInputs(t) && t.cfg.heavy && t.cfg.useLocal
    ensures u == Step(t, RemoteEvent, Plain) && u.cfg == t.cfg && RacingExec(u)
  {
    u := Step(t, RemoteEvent, Plain);
    hide ProcessCallExec;
    var v := LeaveLinkQueue(InputsTo(Await(t, Idle), Batch(false, 0, true), t.fact.success));
    assert u == ProcessCallExec(v, Plain);
    PlainCall(v);
  }

  lemma PlainCall(t: Task)
    requires t.ok && t.ctl.phase == FileReq && !t.ctl.abort && !t.ctl.finished && !t.fact.canceled
    requires !t.loc.subproc && !t.loc.shouldFallback && t.cfg.heavy && t.cfg.useLocal && t.log.dones == 0
    ensures var u := ProcessCallExec(t, Plain); RacingExec(u) && u.cfg == t.cfg
  {
  }

  lemma HeavyFailsCheck(c: Config)
    requires HeavyConflict(c) && !GchConflict(c)
    ensures exists u :: Reachable(c, u) && !InOrder(u)
  {
    if c.verify {
      var t := VerifyReachesSetup(c);
      var u := HeavyStarts(c, t);
      StepIsReachable(c, u, SubprocDone, Plain);
      assert !Step(u, SubprocDone, Plain).ok by { VerifyCheckFails(u); }
    } else {
      var t0 := NewTask(c);
      NewIsReachable(c);
      StepIsReachable(c, t0, StartTask, Plain);
      var u := HeavyStarts(c, Step(t0, StartTask, Plain));
      var o := Plain.(rpcErr := true);
      StepIsReachable(c, u, RemoteEvent, o);
      assert !Step(u, RemoteEvent, o).ok by { ReplyCheckFails(u, o); }
    }
  }

  lemma ReplyCheckFails(t: Task, o: Oracle)
    requires !t.cfg.verify && !t.cfg.gch && !t.cfg.fallback && t.loc.subproc
    requires t.pipe.remote == AwaitExec && t.ctl.phase == CallExec && !t.ctl.abort && !t.fact.canceled
    requires o == Plain.(rpcErr := true)
    ensures !RemoteStep(t, o).ok
  {
  }

  lemma VerifyCheckFails(t: Task)
    requires t.cfg.verify && !t.loc.shouldFallback && t.loc.subproc && t.ctl.phase == CallExec
    requires !t.ctl.abort
    ensures !FinishSubProcess(t, Plain).ok
  {
  }

  /** The CHECKs hold and no task is lost, in every run, exactly for the configurations
      that a caller can recognise as consistent beforehand. */
  lemma InOrderExactlyWhenConsistent(c: Config)
    ensures Consistent(c) <==> forall t :: Reachable(c, t) ==> InOrder(t)
  {
    if Consistent(c) {
      forall t | Reachable(c, t)
        ensures InOrder(t)
      {
        ReachableInv(c, t);
      }
    } else if GchConflict(c) {
      GchLosesTask(c);
    } else {
      HeavyFailsCheck(c);
    }
  }
}
