/**
 The place that a canceled fail fallback never gives back, as a run of compile task,
 service and limiter together: CompileTaskDone lowers the counter only for a task that
 was not canceled (client/compile_service.cc).
 */
module FallbackLeak {
  import opened TaskMachine
  import opened LinkQueue
  import opened LongTasks
  import opened CompilerProxy
  import ProxyRuns
  import TaskConflicts
  import S = Scheduler
  import F = FailFallback

  /** What a run starts from. */
  datatype Setting = Setting(cfg: Config, limits: S.Limits, max: int, allowed: int)

  ghost predicate Leads(s: Setting, p: Proxy) {
    ProxyReachable(map[0 := s.cfg], s.limits, s.max, s.allowed, p)
  }

  lemma Extends(s: Setting, p: Proxy, q: Proxy)
    requires Leads(s, p) && Proceeds(p, q)
    ensures Leads(s, q)
  {
    hide Proceeds;
    var first := NewProxy(map[0 := s.cfg], s.limits, s.max, s.allowed);
    var r :| IsRun(r) && r[0] == first && r[|r| - 1] == p;
    var r' := r + [q];
    forall i | 0 <= i < |r'| - 1
      ensures Proceeds(r'[i], r'[i + 1])
    {
      if i < |r| - 1 { assert Proceeds(r[i], r[i + 1]); }
    }
    assert IsRun(r') && r'[0] == first && r'[|r'| - 1] == q;
  }

  /** Task 0 is the only one, and stands at t outside the queue. */
  predicate Alone(p: Proxy, t: Task) {
    p.sys == System(map[0 := t], NoLine) && 0 in p.svc.hist.started && p.svc.at.pending == []
  }

  /** The oracle o, with what queue and limiter say. */
  function Told(p: Proxy, o: Oracle, now: int): Oracle {
    o.(front := true, limiterAllows := F.Allows(p.lim, now))
  }

  lemma QuietStep(t: Task, e: Event, o: Oracle)
    requires t.pipe.remote != AwaitLink
    requires Step(t, e, o).pipe.pushes == t.pipe.pushes && Step(t, e, o).pipe.pops == t.pipe.pops
    ensures SystemStep(System(map[0 := t], NoLine), 0, e, o) == System(map[0 := Step(t, e, o)], NoLine)
  {
    hide Step;
    assert map[0 := t][0 := Step(t, e, o)] == map[0 := Step(t, e, o)];
  }

  lemma DoneAlone(s: S.Service, t: Task, u: Task, x: Outcome)
    requires s.at.pending == []
    ensures var r := ServiceAfter(s, 0, t, u, x);
            && r.hist.started == s.hist.started && r.at.pending == []
            && r.at.active == if Finishes(t, u) then s.at.active - {0} else s.at.active
  {
    S.NoElements();
  }

  /** One handler run of a lone task that does not touch the queue. */
  lemma RunsAlone(s: Setting, p: Proxy, t: Task, e: Event, o: Oracle, now: int) returns (q: Proxy)
    requires Leads(s, p) && Alone(p, t) && Enabled(t, e) && t.pipe.remote != AwaitLink
    requires Step(t, e, Told(p, o, now)).pipe.pushes == t.pipe.pushes
    requires Step(t, e, Told(p, o, now)).pipe.pops == t.pipe.pops
    ensures var u := Step(t, e, Told(p, o, now));
            && Leads(s, q) && Alone(q, u) && q.lim == LimiterAfter(p.lim, 0, t, u, now)
            && q.svc.at.active == if Finishes(t, u) then p.svc.at.active - {0} else p.svc.at.active
  {
    hide Step, Enabled, Recorded, Leads, F.Allows, SystemStep, ServiceAfter, LimiterAfter;
    var w := ProxyRuns.SomeRecord(p.svc.at.long, p.svc.lim.long, Entry(0, 0));
    var x := Outcome(Told(p, o, now), now, 0, false, w);
    q := After(p, 0, e, x);
    assert CanRun(p, 0, e) && Agrees(p, 0, x);
    assert Works(p, q);
    Extends(s, p, q);
    QuietStep(t, e, x.o);
    DoneAlone(p.svc, t, Step(t, e, x.o), x);
  }

  // ---------------------------------------------------------------- the task's own course

  /** Started, and waiting for compiler info. */
  predicate Asks(t: Task) {
    && TaskConflicts.AskingInfo(t) && t.loc.wantFallback && !t.loc.subproc && !t.loc.failFallback && !t.loc.killed
    && t.fact.gomacc && t.fact.closable && !t.io.output.cb && t.io.upload == NoBatch
    && t.log.replies == 0 && t.cfg.fallback && !t.cfg.verify && !t.cfg.gch
  }

  /** Remote compilation failed, and the local compiler runs in its place. */
  predicate Falls(t: Task) {
    && t.ok && t.ctl == Control(Finished, false, true, true) && t.pipe.remote == Idle
    && t.loc.subproc && !t.loc.delayed && !t.loc.shouldFallback && t.loc.failFallback && !t.loc.killed
    && !t.io.input.cb && !t.io.output.cb && t.io.upload == NoBatch
    && t.log.replies == 0 && t.log.dones == 0 && !t.cfg.verify && !t.cfg.gch
  }

  lemma StartAsks(c: Config, o: Oracle)
    requires c.fallback && !c.verify && !c.gch
    requires !o.startFails && !o.wantsFallback && !o.rampedDown && !o.localNow && o.hasPid
    ensures var t := Step(NewTask(c), StartTask, o); Asks(t) && t.pipe.pushes == 0 && t.pipe.pops == 0
  {
  }

  lemma FailureFalls(t: Task, o: Oracle)
    requires Asks(t) && o.info == NoInfo && o.aliveAtFinish && o.limiterAllows
    ensures var u := Step(t, RemoteEvent, o);
            && Falls(u) && u.fact == t.fact.(success := false)
            && u.pipe.pushes == t.pipe.pushes && u.pipe.pops == t.pipe.pops
  {
    var v := Failed(Await(t, Idle));
    hide FinishedIn;
    assert Step(t, RemoteEvent, o) == FinishedIn(v.(ctl := v.ctl.(finished := true)), o);
    FailureFinishes(v.(ctl := v.ctl.(finished := true)), o);
  }

  lemma FailureFinishes(t: Task, o: Oracle)
    requires t.ok && t.ctl == Control(Setup, false, true, true) && !t.fact.success && t.fact.gomacc
    requires t.cfg.fallback && !t.cfg.verify && !t.cfg.gch && t.loc.wantFallback && !t.loc.subproc
    requires !t.loc.failFallback && o.aliveAtFinish && o.limiterAllows
    ensures FinishedIn(t, o) == t.(ctl := t.ctl.(phase := Finished),
                                   loc := t.loc.(failFallback := true, subproc := true, delayed := false))
  {
  }

  lemma CloseCancels(t: Task, o: Oracle)
    requires Falls(t) && t.fact.closable && !o.killed
    ensures var u := Step(t, GomaccClose, o); Falls(u) && u.fact.canceled && u.pipe == t.pipe
  {
  }

  lemma LocalFailureAnswers(t: Task, o: Oracle)
    requires Falls(t) && o.procStarted && o.status > 0
    ensures var u := Step(t, SubprocDone, o);
            && u.ok && u.log.replies == 1 && u.log.dones == 1 && u.log.answer == FailFallback
            && u.loc.failFallback && u.fact.canceled == t.fact.canceled && u.pipe == t.pipe
  {
  }

  // ---------------------------------------------------------------- the run

  /** Task 0 admitted and started. */
  lemma Admitted(s: Setting) returns (p: Proxy)
    requires s.limits.active >= 1
    ensures Leads(s, p) && Alone(p, NewTask(s.cfg)) && p.svc.at.active == {0}
    ensures p.lim == F.NewLimiter(s.max, s.allowed)
  {
    var first := NewProxy(map[0 := s.cfg], s.limits, s.max, s.allowed);
    var r := [first];
    assert IsRun(r) && r[0] == first && r[|r| - 1] == first;
    assert Leads(s, first);
    p := first.(svc := S.Exec(first.svc, 0));
    assert CompilerProxy.Admits(first, p);
    hide Leads;
    Extends(s, first, p);
    assert p.sys.tasks == map[0 := NewTask(s.cfg)];
  }

  /** The task's remote compile fails and its local run begins, counted by the limiter. */
  lemma FallenBack(s: Setting, now: int) returns (p: Proxy, t: Task)
    requires s.limits.active >= 1 && s.cfg.fallback && !s.cfg.verify && !s.cfg.gch
    requires s.max != 0 || s.allowed > 0
    ensures Leads(s, p) && Alone(p, t) && p.svc.at.active == {0} && Falls(t) && t.fact.closable
    ensures p.lim == F.Raise(F.NewLimiter(s.max, s.allowed), 0, now)
  {
    hide Step, Leads;
    var first := Admitted(s);
    var o := TaskConflicts.Plain;
    StartAsks(s.cfg, Told(first, o, now));
    p := RunsAlone(s, first, NewTask(s.cfg), StartTask, o, now);
    t := Step(NewTask(s.cfg), StartTask, Told(first, o, now));
    o := o.(info := NoInfo);
    FailureFalls(t, Told(p, o, now));
    var q := RunsAlone(s, p, t, RemoteEvent, o, now);
    p, t := q, Step(t, RemoteEvent, Told(p, o, now));
  }

  /** Whatever the configuration, as long as a failed remote compile may fall back: gomacc
      goes away during the fallback, the task answers and is done, nothing is active any
      more, and yet the counter stays at one. With a maximum of 0 every later fallback is
      refused, for ever. */
  lemma CanceledRequestLeaks(s: Setting, now: int)
    requires s.limits.active >= 1 && s.cfg.fallback && !s.cfg.verify && !s.cfg.gch
    requires s.max != 0 || s.allowed > 0
    ensures exists p, t ::
              && Leads(s, p) && Alone(p, t) && t.ok && t.log.replies == 1 && t.log.dones == 1
              && p.svc.at.active == {} && p.lim.open == {} && p.lim.num == 1
              && (s.max == 0 ==> forall later :: later >= now + s.allowed ==> !F.Allows(p.lim, later))
  {
    hide Step, Leads;
    var p, t := FallenBack(s, now);
    var o := TaskConflicts.Plain;
    CloseCancels(t, Told(p, o, now));
    var q := RunsAlone(s, p, t, GomaccClose, o, now);
    var v := Step(t, GomaccClose, Told(p, o, now));
    o := o.(status := 1);
    LocalFailureAnswers(v, Told(q, o, now));
    var z := RunsAlone(s, q, v, SubprocDone, o, now);
    assert Alone(z, Step(v, SubprocDone, Told(q, o, now)));
  }
}
