/**
 The pieces together: compile tasks that race and queue, admitted and counted by the
 service, and limited in their fail fallbacks. Every handler run is one step of one
 compile task; when it calls IncrementActiveFailFallbackTasks or reaches Done, the
 service's counters and lists move with it (client/compile_task.cc and
 client/compile_service.cc).
 */
module CompilerProxy {
  import opened TaskMachine
  import opened TaskInvariant
  import opened TaskRuns
  import opened LinkQueue
  import opened LinkRuns
  import opened LongTasks
  import S = Scheduler
  import F = FailFallback

  /** An observer's note of a completed compile task: its handler time and its failed(). */
  datatype Ending = Ending(id: nat, time: int, failed: bool)

  datatype Proxy = Proxy(sys: System, svc: S.Service, lim: F.Limiter, ended: seq<Ending>)

  function NewProxy(cfgs: map<nat, Config>, limits: S.Limits, max: int, allowed: int): Proxy {
    Proxy(NewSystem(cfgs), S.NewService(limits), F.NewLimiter(max, allowed), [])
  }

  // ---------------------------------------------------------------- steps

  /** What one handler run learns: the handler's own oracle, the clock, and, should it reach
      Done, its handler time, failed() and the heap that long_tasks_ becomes. */
  datatype Outcome = Outcome(o: Oracle, now: int, time: int, failed: bool, w: seq<Entry>)

  /** Only a compile task that the service has started begins. */
  predicate CanRun(p: Proxy, id: nat, e: Event) {
    CanStep(p.sys, id, e) && (e == StartTask ==> id in p.svc.hist.started)
  }

  predicate Finishes(t: Task, u: Task) {
    t.log.dones == 0 && u.log.dones > 0
  }

  predicate FallsBack(t: Task, u: Task) {
    !t.loc.failFallback && u.loc.failFallback
  }

  /** What the shared structures decide is not up to the oracle. */
  predicate Agrees(p: Proxy, id: nat, x: Outcome)
    requires id in p.sys.tasks
  {
    && x.o.front == FindsEmpty(p.sys, id)
    && x.o.limiterAllows == F.Allows(p.lim, x.now)
    && Recorded(p.svc.at.long, p.svc.lim.long, Entry(id, x.time), x.w)
  }

  function LimiterAfter(l: F.Limiter, id: nat, t: Task, u: Task, now: int): F.Limiter {
    var m := if FallsBack(t, u) then F.Raise(l, id, now) else l;
    if Finishes(t, u) && u.loc.failFallback then F.Complete(m, id, u.fact.canceled) else m
  }

  function ServiceAfter(s: S.Service, id: nat, t: Task, u: Task, x: Outcome): S.Service {
    if Finishes(t, u) then
      S.TaskDone(s, Entry(id, x.time), (x.failed || u.loc.failFallback) && !u.fact.canceled, x.w)
    else
      s
  }

  function After(p: Proxy, id: nat, e: Event, x: Outcome): Proxy
    requires id in p.sys.tasks
  {
    var t := p.sys.tasks[id];
    var u := Step(t, e, x.o);
    Proxy(SystemStep(p.sys, id, e, x.o), ServiceAfter(p.svc, id, t, u, x), LimiterAfter(p.lim, id, t, u, x.now),
          if Finishes(t, u) then p.ended + [Ending(id, x.time, x.failed)] else p.ended)
  }

  ghost predicate Works(p: Proxy, q: Proxy) {
    exists id, e, x :: CanRun(p, id, e) && Agrees(p, id, x) && q == After(p, id, e, x)
  }

  /** Exec for a request that has arrived. */
  ghost predicate Admits(p: Proxy, q: Proxy) {
    exists id :: id in p.sys.tasks && id !in p.svc.hist.admitted && q == p.(svc := S.Exec(p.svc, id))
  }

  /** Derefs and dumps go on beside. */
  ghost predicate Tidies(p: Proxy, q: Proxy) {
    exists op: S.Op :: !op.ExecOp? && !op.DoneOp? && S.Allowed(p.svc, op) && q == p.(svc := S.Apply(p.svc, op))
  }

  ghost predicate Proceeds(p: Proxy, q: Proxy) {
    Works(p, q) || Admits(p, q) || Tidies(p, q)
  }

  // ---------------------------------------------------------------- how the pieces fit

  /** The service's view of one compile task and its own. */
  predicate Matches(p: Proxy, id: nat)
    requires id in p.sys.tasks
  {
    var t := p.sys.tasks[id];
    && (t.started ==> id in p.svc.hist.started)
    && (id in p.svc.at.active <==> id in p.svc.hist.started && t.log.dones == 0)
    && (id in p.lim.open <==> t.loc.failFallback && t.log.dones == 0)
    && (id in p.lim.lost <==> t.loc.failFallback && t.log.dones > 0 && t.fact.canceled)
  }

  ghost predicate Fits(p: Proxy) {
    && SystemInv(p.sys) && S.Inv(p.svc) && p.svc.lim.long >= 1 && F.Inv(p.lim)
    && (forall id :: id in p.svc.hist.admitted ==> id in p.sys.tasks)
    && (forall id :: id in p.lim.open || id in p.lim.lost ==> id in p.sys.tasks)
    && (forall id :: id in p.sys.tasks ==> Matches(p, id))
  }

  // ---------------------------------------------------------------- one compile task

  lemma StepDones(t: Task, e: Event, o: Oracle)
    requires Inv(t) && Enabled(t, e)
    ensures t.log.dones == 0 && Step(t, e, o).log.dones <= 1 && Step(t, e, o).started
    ensures t.started || e == StartTask
  {
    hide Step, Settled;
    StepKeeps(t, e, o);
    SettledDones(Step(t, e, o));
    if Settled(t) { SettledStarted(t); }
  }

  lemma SettledDones(t: Task)
    requires Settled(t)
    ensures t.log.dones <= 1 && t.started
  {
  }

  lemma UnstartedIsQuiet(t: Task)
    requires Inv(t) && !t.started
    ensures t.log.dones == 0 && !t.loc.failFallback
  {
  }

  /** fail_fallback_ is never taken back: by then only the subprocess and gomacc can act. */
  lemma FallbackStays(t: Task, e: Event, o: Oracle)
    requires Inv(t) && Enabled(t, e) && t.loc.failFallback
    ensures Step(t, e, o).loc.failFallback
  {
    hide Start, RemoteStep, FinishSubProcess, UploadStep;
    assert Settled(t) && t.pipe.remote == Idle && !t.loc.delayed && t.ctl.phase == Finished;
    match e
    case SubprocDone => SubprocGone(t, o);
    case Upload => UploadKeepsLocal(t);
    case GomaccClose =>
  }

  lemma UploadKeepsLocal(t: Task)
    ensures UploadStep(t).loc == t.loc
  {
  }

  // ---------------------------------------------------------------- what every step keeps

  lemma ServiceFinishes(p: Proxy, id: nat, e: Event, x: Outcome)
    requires Fits(p) && CanRun(p, id, e) && Agrees(p, id, x)
    ensures id in p.svc.hist.started && id in p.svc.at.active
    ensures S.Inv(ServiceAfter(p.svc, id, p.sys.tasks[id], Step(p.sys.tasks[id], e, x.o), x))
  {
    hide Step, S.Inv, Recorded, F.Inv, SystemInv;
    var t := p.sys.tasks[id];
    assert Inv(t) by { TaskInv(p.sys, id); }
    StepDones(t, e, x.o);
    assert Matches(p, id);
    var u := Step(t, e, x.o);
    if Finishes(t, u) {
      S.DoneKeeps(p.svc, Entry(id, x.time), (x.failed || u.loc.failFallback) && !u.fact.canceled, x.w);
    }
  }

  lemma TaskInv(s: System, id: nat)
    requires SystemInv(s) && id in s.tasks
    ensures Inv(s.tasks[id])
  {
  }

  lemma LimiterFits(p: Proxy, id: nat, t: Task, u: Task, now: int)
    requires F.Inv(p.lim) && id in p.sys.tasks && p.sys.tasks[id] == t && Matches(p, id)
    requires t.log.dones == 0 && (t.loc.failFallback ==> u.loc.failFallback)
    ensures var l := LimiterAfter(p.lim, id, t, u, now);
            && F.Inv(l)
            && (id in l.open <==> u.loc.failFallback && u.log.dones == 0)
            && (id in l.lost <==> u.loc.failFallback && u.log.dones > 0 && u.fact.canceled)
            && (forall y :: y != id ==> (y in l.open <==> y in p.lim.open) && (y in l.lost <==> y in p.lim.lost))
  {
    hide F.Inv;
    var m := if FallsBack(t, u) then F.Raise(p.lim, id, now) else p.lim;
    if FallsBack(t, u) { F.RaiseKeeps(p.lim, id, now); }
    if Finishes(t, u) && u.loc.failFallback { F.CompleteKeeps(m, id, u.fact.canceled); }
  }

  /** CompileTaskDone starts only compile tasks that waited, and ends only its own. */
  lemma DoneMoves(s: S.Service, e: Entry, bad: bool, w: seq<Entry>, y: nat)
    requires S.Inv(s) && e.id in s.at.active
    ensures var d := S.TaskDone(s, e, bad, w);
            && d.hist.admitted == s.hist.admitted && d.lim == s.lim
            && (y in s.hist.started ==> y in d.hist.started)
            && (y in d.hist.started && y !in s.hist.started ==> y in s.at.pending)
            && (y in d.at.active <==> y != e.id && (y in s.at.active || (y in d.hist.started && y !in s.hist.started)))
  {
    hide S.Exact, S.Remembered;
    var n := S.Free(s.lim, s.at.active - {e.id}, s.at.pending);
    var next := s.at.pending[..n];
    S.PendingApart(s);
    if y in s.at.pending { PendingIsNew(s, y); }
    assert y in S.Elements(next) <==> y in next;
  }

  /** A pending compile task has not been started. */
  lemma PendingIsNew(s: S.Service, y: nat)
    requires S.Throttled(s, multiset{}) && y in s.at.pending
    ensures y !in s.hist.started
  {
    S.UniqueSplit(s.hist.admitted, |s.hist.started|);
    assert s.hist.admitted[..|s.hist.started|] == s.hist.started;
    assert s.hist.admitted[|s.hist.started|..] == s.at.pending;
  }

  lemma OwnMatches(p: Proxy, id: nat, e: Event, x: Outcome)
    requires Fits(p) && CanRun(p, id, e) && Agrees(p, id, x)
    ensures Matches(After(p, id, e, x), id)
  {
    hide Step, S.Inv, Recorded, F.Inv, SystemInv, Replay, S.TaskDone, LimiterAfter, Enabled, PlaceOf;
    var t := p.sys.tasks[id];
    var u := Step(t, e, x.o);
    Resumes(p, id, e, x);
    ServiceFinishes(p, id, e, x);
    LimiterFits(p, id, t, u, x.now);
    if Finishes(t, u) {
      DoneMoves(p.svc, Entry(id, x.time), (x.failed || u.loc.failFallback) && !u.fact.canceled, x.w, id);
    }
  }

  /** What one handler run does to the marks the service looks at. */
  lemma Resumes(p: Proxy, id: nat, e: Event, x: Outcome)
    requires Fits(p) && CanRun(p, id, e)
    ensures var t := p.sys.tasks[id]; var u := Step(t, e, x.o);
            && Matches(p, id) && t.log.dones == 0 && u.log.dones <= 1 && u.started
            && (t.loc.failFallback ==> u.loc.failFallback)
  {
    hide Step, S.Inv, F.Inv, SystemInv, Enabled;
    var t := p.sys.tasks[id];
    assert Inv(t) by { TaskInv(p.sys, id); }
    StepDones(t, e, x.o);
    assert Matches(p, id);
    if t.loc.failFallback { FallbackStays(t, e, x.o); }
  }

  lemma OtherMatches(p: Proxy, id: nat, e: Event, x: Outcome, y: nat)
    requires Fits(p) && CanRun(p, id, e) && Agrees(p, id, x) && y in p.sys.tasks && y != id
    ensures y in After(p, id, e, x).sys.tasks && Matches(After(p, id, e, x), y)
  {
    hide Step, S.Inv, Recorded, F.Inv, SystemInv, Replay, S.TaskDone, LimiterAfter, Enabled, PlaceOf;
    var t := p.sys.tasks[id];
    var u := Step(t, e, x.o);
    Resumes(p, id, e, x);
    LimiterFits(p, id, t, u, x.now);
    assert Matches(p, y);
    if Finishes(t, u) {
      ServiceFinishes(p, id, e, x);
      DoneMoves(p.svc, Entry(id, x.time), (x.failed || u.loc.failFallback) && !u.fact.canceled, x.w, y);
      if y in p.svc.at.pending { PendingIsQuiet(p, y); }
    }
  }

  lemma PendingIsQuiet(p: Proxy, y: nat)
    requires Fits(p) && y in p.sys.tasks && y in p.svc.at.pending
    ensures y !in p.svc.hist.started && p.sys.tasks[y].log.dones == 0 && !p.sys.tasks[y].loc.failFallback
  {
    hide S.Throttled, SystemInv, Inv;
    assert Matches(p, y);
    ServiceThrottled(p.svc);
    PendingIsNew(p.svc, y);
    TaskInv(p.sys, y);
    UnstartedIsQuiet(p.sys.tasks[y]);
  }

  lemma ServiceThrottled(s: S.Service)
    requires S.Inv(s)
    ensures S.Throttled(s, multiset{})
  {
  }

  lemma WorkKeeps(p: Proxy, id: nat, e: Event, x: Outcome)
    requires Fits(p) && CanRun(p, id, e) && Agrees(p, id, x)
    ensures Fits(After(p, id, e, x))
  {
    hide Step, S.Inv, Recorded, F.Inv, SystemInv, Replay, S.TaskDone, LimiterAfter, Enabled, Matches, FindsEmpty,
      ServiceAfter;
    var t := p.sys.tasks[id];
    var u := Step(t, e, x.o);
    var q := After(p, id, e, x);
    SystemStepKeeps(p.sys, id, e, x.o);
    ServiceFinishes(p, id, e, x);
    ServiceSame(p.svc, id, t, u, x);
    Resumes(p, id, e, x);
    LimiterFits(p, id, t, u, x.now);
    forall y | y in q.sys.tasks
      ensures Matches(q, y)
    {
      if y == id { OwnMatches(p, id, e, x); } else { OtherMatches(p, id, e, x, y); }
    }
  }

  lemma ServiceSame(s: S.Service, id: nat, t: Task, u: Task, x: Outcome)
    ensures ServiceAfter(s, id, t, u, x).lim == s.lim
    ensures ServiceAfter(s, id, t, u, x).hist.admitted == s.hist.admitted
  {
  }

  lemma AdmitKeeps(p: Proxy, id: nat)
    requires Fits(p) && id in p.sys.tasks && id !in p.svc.hist.admitted
    ensures Fits(p.(svc := S.Exec(p.svc, id)))
  {
    hide S.Inv, F.Inv, SystemInv;
    S.ExecKeeps(p.svc, id);
    NotAdmitted(p.svc, id);
    TaskInv(p.sys, id);
    UnstartedIsQuiet(p.sys.tasks[id]);
    var q := p.(svc := S.Exec(p.svc, id));
    forall y | y in q.sys.tasks
      ensures Matches(q, y)
    {
      assert Matches(p, y);
    }
  }

  lemma NotAdmitted(s: S.Service, id: nat)
    requires S.Inv(s) && id !in s.hist.admitted
    ensures id !in s.hist.started
  {
    assert s.hist.admitted[..|s.hist.started|] == s.hist.started;
  }

  lemma TidyKeeps(p: Proxy, op: S.Op)
    requires Fits(p) && !op.ExecOp? && !op.DoneOp? && S.Allowed(p.svc, op)
    ensures Fits(p.(svc := S.Apply(p.svc, op)))
  {
    hide S.Inv, F.Inv, SystemInv;
    S.ApplyKeeps(p.svc, op);
    var q := p.(svc := S.Apply(p.svc, op));
    assert q.svc.hist == p.svc.hist && q.svc.at == p.svc.at;
    forall y | y in q.sys.tasks
      ensures Matches(q, y)
    {
      assert Matches(p, y);
    }
  }

  lemma ProceedKeeps(p: Proxy, q: Proxy)
    requires Fits(p) && Proceeds(p, q)
    ensures Fits(q)
  {
    hide Fits, After, Agrees, S.Apply, S.Exec, S.Allowed;
    if Works(p, q) {
      var id, e, x :| CanRun(p, id, e) && Agrees(p, id, x) && q == After(p, id, e, x);
      WorkKeeps(p, id, e, x);
    } else if Admits(p, q) {
      var id :| id in p.sys.tasks && id !in p.svc.hist.admitted && q == p.(svc := S.Exec(p.svc, id));
      AdmitKeeps(p, id);
    } else {
      var op: S.Op :| !op.ExecOp? && !op.DoneOp? && S.Allowed(p.svc, op) && q == p.(svc := S.Apply(p.svc, op));
      TidyKeeps(p, op);
    }
  }

  lemma NewFits(cfgs: map<nat, Config>, limits: S.Limits, max: int, allowed: int)
    requires AllConsistent(cfgs) && limits.long >= 1
    ensures Fits(NewProxy(cfgs, limits, max, allowed))
  {
    hide S.Inv, SystemInv;
    NewSystemInv(cfgs);
    S.NewInv(limits);
  }

  // ---------------------------------------------------------------- whole runs

  ghost predicate IsRun(r: seq<Proxy>) {
    |r| > 0 && forall i :: 0 <= i < |r| - 1 ==> Proceeds(r[i], r[i + 1])
  }

  ghost predicate ProxyReachable(cfgs: map<nat, Config>, limits: S.Limits, max: int, allowed: int, p: Proxy) {
    exists r :: IsRun(r) && r[0] == NewProxy(cfgs, limits, max, allowed) && r[|r| - 1] == p
  }

  lemma {:induction false} RunFits(r: seq<Proxy>)
    requires IsRun(r) && Fits(r[0])
    ensures Fits(r[|r| - 1])
  {
    if |r| > 1 {
      hide Fits, Proceeds;
      RunFits(r[..|r| - 1]);
      ProceedKeeps(r[|r| - 2], r[|r| - 1]);
    }
  }

  /** Unfinished compile tasks with fail_fallback_ set. */
  function FallingBack(s: System): set<nat> {
    set id | id in s.tasks && s.tasks[id].loc.failFallback && s.tasks[id].log.dones == 0
  }

  /** Completed compile tasks with fail_fallback_ set that had been canceled. */
  function LostPlaces(s: System): set<nat> {
    set id | id in s.tasks && s.tasks[id].loc.failFallback && s.tasks[id].log.dones > 0 && s.tasks[id].fact.canceled
  }

  /** Over every run of the whole: a compile task begins only when the service has started
      it; active_tasks_ are exactly the started ones that are not done, so CompileTaskDone is
      only ever called for an active one; and the counter of fail fallbacks is the number of
      unfinished compile tasks with fail_fallback_ set plus that of the completed ones that
      had been canceled. */
  lemma ServiceKnowsTasks(cfgs: map<nat, Config>, limits: S.Limits, max: int, allowed: int, p: Proxy)
    requires AllConsistent(cfgs) && limits.long >= 1 && ProxyReachable(cfgs, limits, max, allowed, p)
    ensures forall id :: id in p.sys.tasks ==>
              && (p.sys.tasks[id].started ==> id in p.svc.hist.started)
              && (id in p.svc.at.active <==> id in p.svc.hist.started && p.sys.tasks[id].log.dones == 0)
    ensures p.lim.num == |FallingBack(p.sys)| + |LostPlaces(p.sys)|
    ensures forall id, e, x :: CanRun(p, id, e) && Agrees(p, id, x) ==> id in p.svc.at.active
  {
    var r :| IsRun(r) && r[0] == NewProxy(cfgs, limits, max, allowed) && r[|r| - 1] == p;
    hide Fits, Proceeds;
    NewFits(cfgs, limits, max, allowed);
    RunFits(r);
    forall id, e, x | CanRun(p, id, e) && Agrees(p, id, x)
      ensures id in p.svc.at.active
    {
      ServiceFinishes(p, id, e, x);
    }
    FitsMeans(p);
  }

  lemma FitsMeans(p: Proxy)
    requires Fits(p)
    ensures forall id :: id in p.sys.tasks ==> Matches(p, id)
    ensures p.lim.open == FallingBack(p.sys) && p.lim.lost == LostPlaces(p.sys)
    ensures p.lim.num == |p.lim.open| + |p.lim.lost|
  {
    hide SystemInv, S.Inv;
    assert forall id :: id in p.sys.tasks ==> Matches(p, id);
  }
}
