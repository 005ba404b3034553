/**
 Every request is answered: executions of compile tasks, link queue, service and limiter
 together.
 */
module ProxyRuns {
  import opened TaskMachine
  import opened TaskInvariant
  import opened LinkQueue
  import opened LinkRuns
  import opened LongTasks
  import opened CompilerProxy
  import S = Scheduler
  import F = FailFallback

  // ---------------------------------------------------------------- something can always run

  /** Some handler can be run, and the shared structures allow an outcome. */
  ghost predicate CanWork(p: Proxy) {
    exists id, e, x :: CanRun(p, id, e) && Agrees(p, id, x)
  }

  lemma {:induction false} Rise(v: seq<Entry>, i: int) returns (w: seq<Entry>)
    requires RisingHeap(v, i)
    ensures IsHeap(w) && multiset(w) == multiset(v)
    decreases i
  {
    if i == 0 || v[Parent(i)].time <= v[i].time {
      w := v;
    } else {
      RiseOnce(v, i);
      w := Rise(Swap(v, i, Parent(i)), Parent(i));
    }
  }

  /** Some heap holds any given entries. */
  lemma {:induction false} SomeHeap(v: seq<Entry>) returns (w: seq<Entry>)
    ensures IsHeap(w) && multiset(w) == multiset(v)
  {
    if v == [] {
      w := [];
    } else {
      var n := |v| - 1;
      assert v == v[..n] + [v[n]];
      var u := SomeHeap(v[..n]);
      var last := u + [v[n]];
      assert RisingHeap(last, |u|);
      w := Rise(last, |u|);
    }
  }

  lemma SomeRecord(long: seq<Entry>, max: int, e: Entry) returns (w: seq<Entry>)
    ensures Recorded(long, max, e, w)
  {
    if LongTasks.Admits(long, max, e) {
      var gone := Evicted(long, max, e);
      var rest := long[|gone|..];
      assert long == gone + rest;
      w := SomeHeap(rest + [e]);
      assert multiset(rest) == multiset(long) - multiset(gone);
    } else {
      w := long;
    }
  }

  /** What can be run has an outcome that agrees with queue, limiter and heap. */
  lemma RunnableWorks(p: Proxy, id: nat, e: Event, o: Oracle)
    requires CanRun(p, id, e)
    ensures CanWork(p)
  {
    hide Recorded, Enabled, FindsEmpty, F.Allows, PlaceOf;
    var w := SomeRecord(p.svc.at.long, p.svc.lim.long, Entry(id, 0));
    var x := SomeOutcome(o, FindsEmpty(p.sys, id), F.Allows(p.lim, 0), w);
    assert Agrees(p, id, x);
  }

  lemma SomeOutcome(o: Oracle, front: bool, allows: bool, w: seq<Entry>) returns (x: Outcome)
    ensures x.o.front == front && x.o.limiterAllows == allows && x.now == 0 && x.time == 0 && x.w == w
  {
    x := Outcome(o.(front := front, limiterAllows := allows), 0, 0, false, w);
  }

  /** While a started compile task is not done, some handler can be run. */
  lemma ActiveRuns(p: Proxy, a: nat)
    requires Fits(p) && a in p.svc.at.active
    ensures exists id, e :: CanRun(p, id, e)
  {
    hide S.Inv, SystemInv, Enabled, F.Inv;
    ActiveKnown(p.svc, a);
    assert Matches(p, a);
    var t := p.sys.tasks[a];
    TaskInv(p.sys, a);
    if p.sys.line.queue != [] {
      FrontMoves(p.sys);
      assert CanRun(p, p.sys.line.queue[0], RemoteEvent);
    } else {
      NobodyWaits(p.sys, a);
      TaskEnabled(t);
      var e :| Enabled(t, e) && (t.pipe.remote != Idle ==> e == RemoteEvent);
      assert CanRun(p, a, e);
    }
  }

  lemma ActiveKnown(s: S.Service, a: nat)
    requires S.Inv(s) && a in s.at.active
    ensures a in s.hist.admitted && a in s.hist.started
  {
    assert multiset(s.hist.started)[a] > 0;
  }

  /** With at least one place, all requests admitted and some compile task not done, there
      is always something to do: no deadlock between throttle, queue and race. */
  lemma NothingHangs(p: Proxy)
    requires Fits(p) && p.svc.lim.active >= 1 && !AllDone(p.sys)
    requires forall id :: id in p.sys.tasks ==> id in p.svc.hist.admitted
    ensures CanWork(p)
  {
    var id :| id in p.sys.tasks && p.sys.tasks[id].log.dones == 0;
    assert Matches(p, id);
    SomeActive(p.svc, id);
    var a :| a in p.svc.at.active;
    hide Fits, CanRun, CanWork;
    ActiveRuns(p, a);
    var b, e :| CanRun(p, b, e);
    var o: Oracle :| true;
    RunnableWorks(p, b, e, o);
  }

  lemma SomeActive(s: S.Service, id: nat)
    requires S.Inv(s) && s.lim.active >= 1 && id in s.hist.admitted
    requires id in s.hist.started ==> id in s.at.active
    ensures s.at.active != {}
  {
    if id !in s.hist.started {
      assert id in s.at.pending;
      assert |s.at.active| >= 1;
    }
  }

  // ---------------------------------------------------------------- executions

  /** Every request arrives; and when something can be run, something is. */
  ghost predicate Execution(cfgs: map<nat, Config>, limits: S.Limits, max: int, allowed: int, run: nat -> Proxy) {
    && run(0) == NewProxy(cfgs, limits, max, allowed)
    && (forall i: nat :: Proceeds(run(i), run(i + 1)) || run(i + 1) == run(i))
    && (forall i: nat :: CanWork(run(i)) ==> exists j: nat :: j >= i && Works(run(j), run(j + 1)))
    && (forall id :: id in cfgs ==> exists i: nat :: id in run(i).svc.hist.admitted)
  }

  lemma ExecutionSteps(cfgs: map<nat, Config>, limits: S.Limits, max: int, allowed: int, run: nat -> Proxy, i: nat)
    requires Execution(cfgs, limits, max, allowed, run)
    ensures Proceeds(run(i), run(i + 1)) || run(i + 1) == run(i)
  {
    hide Proceeds, CanWork, Works;
  }

  lemma SomethingRuns(cfgs: map<nat, Config>, limits: S.Limits, max: int, allowed: int, run: nat -> Proxy, i: nat)
    returns (j: nat)
    requires Execution(cfgs, limits, max, allowed, run) && CanWork(run(i))
    ensures j >= i && Works(run(j), run(j + 1))
  {
    hide Proceeds, CanWork, Works;
    j :| j >= i && Works(run(j), run(j + 1));
  }

  /** What one step leaves: same requests and limits, and nobody admitted is forgotten. */
  lemma ProceedSame(p: Proxy, q: Proxy)
    requires Fits(p) && Proceeds(p, q)
    ensures q.sys.tasks.Keys == p.sys.tasks.Keys && q.svc.lim == p.svc.lim
    ensures forall id :: id in p.svc.hist.admitted ==> id in q.svc.hist.admitted
    ensures Advances(p.sys, q.sys) || q.sys == p.sys
  {
    hide Fits;
    if Works(p, q) {
      hide Step, S.TaskDone, LimiterAfter, Replay, PlaceOf, Enabled;
      WorkAdvances(p, q);
      var id, e, x :| CanRun(p, id, e) && Agrees(p, id, x) && q == After(p, id, e, x);
      ServiceSame(p.svc, id, p.sys.tasks[id], Step(p.sys.tasks[id], e, x.o), x);
    }
  }

  lemma WorkAdvances(p: Proxy, q: Proxy)
    requires Works(p, q)
    ensures exists id :: Moves(p.sys, q.sys, id)
  {
    hide Step, S.TaskDone, LimiterAfter, Replay, PlaceOf, Enabled, Recorded;
    var id, e, x :| CanRun(p, id, e) && Agrees(p, id, x) && q == After(p, id, e, x);
    assert CanStep(p.sys, id, e) && x.o.front == FindsEmpty(p.sys, id) && q.sys == SystemStep(p.sys, id, e, x.o);
    assert Moves(p.sys, q.sys, id);
  }

  /** The compile tasks of an execution, seen alone. */
  ghost function Tasks(run: nat -> Proxy): nat -> System {
    (i: nat) => run(i).sys
  }

  lemma {:induction false} ExecutionFits(
      cfgs: map<nat, Config>, limits: S.Limits, max: int, allowed: int, run: nat -> Proxy, i: nat)
    requires AllConsistent(cfgs) && limits.long >= 1 && Execution(cfgs, limits, max, allowed, run)
    ensures Fits(run(i)) && run(i).sys.tasks.Keys == cfgs.Keys && run(i).svc.lim == limits
  {
    hide Fits, Proceeds, CanWork, Works;
    if i == 0 {
      NewFits(cfgs, limits, max, allowed);
    } else {
      hide Execution;
      ExecutionFits(cfgs, limits, max, allowed, run, i - 1);
      ExecutionSteps(cfgs, limits, max, allowed, run, i - 1);
      if Proceeds(run(i - 1), run(i)) {
        ProceedKeeps(run(i - 1), run(i));
        ProceedSame(run(i - 1), run(i));
      }
    }
  }

  lemma TasksInterleave(cfgs: map<nat, Config>, limits: S.Limits, max: int, allowed: int, run: nat -> Proxy)
    requires AllConsistent(cfgs) && limits.long >= 1 && Execution(cfgs, limits, max, allowed, run)
    ensures Interleaving(cfgs, Tasks(run))
  {
    hide Fits, Proceeds, CanWork, Works, Advances;
    var sys := Tasks(run);
    assert sys(0) == NewSystem(cfgs);
    hide Execution;
    forall i: nat
      ensures Advances(sys(i), sys(i + 1)) || sys(i + 1) == sys(i)
    {
      ExecutionFits(cfgs, limits, max, allowed, run, i);
      ExecutionSteps(cfgs, limits, max, allowed, run, i);
      if Proceeds(run(i), run(i + 1)) { ProceedSame(run(i), run(i + 1)); }
    }
  }

  lemma {:induction false} AdmittedStays(
      cfgs: map<nat, Config>, limits: S.Limits, max: int, allowed: int, run: nat -> Proxy, id: nat, i: nat, j: nat)
    requires AllConsistent(cfgs) && limits.long >= 1 && Execution(cfgs, limits, max, allowed, run)
    requires i <= j && id in run(i).svc.hist.admitted
    ensures id in run(j).svc.hist.admitted
    decreases j - i
  {
    hide Fits, Proceeds, Execution;
    if i < j {
      AdmittedStays(cfgs, limits, max, allowed, run, id, i, j - 1);
      ExecutionFits(cfgs, limits, max, allowed, run, j - 1);
      ExecutionSteps(cfgs, limits, max, allowed, run, j - 1);
      if Proceeds(run(j - 1), run(j)) { ProceedSame(run(j - 1), run(j)); }
    }
  }

  /** From some point on, all of the given requests are admitted. */
  lemma {:induction false} AllArrive(
      cfgs: map<nat, Config>, limits: S.Limits, max: int, allowed: int, run: nat -> Proxy, ids: set<nat>, i: nat)
    returns (j: nat)
    requires AllConsistent(cfgs) && limits.long >= 1 && Execution(cfgs, limits, max, allowed, run)
    requires ids <= cfgs.Keys
    ensures j >= i && forall id :: id in ids ==> id in run(j).svc.hist.admitted
    decreases ids
  {
    hide Fits, Proceeds, CanWork, Works;
    if ids == {} {
      j := i;
    } else {
      var id :| id in ids;
      var k: nat :| id in run(k).svc.hist.admitted;
      hide Execution;
      var m := AllArrive(cfgs, limits, max, allowed, run, ids - {id}, i);
      j := if k > m then k else m;
      AdmittedStays(cfgs, limits, max, allowed, run, id, k, j);
      forall x | x in ids - {id}
        ensures x in run(j).svc.hist.admitted
      {
        AdmittedStays(cfgs, limits, max, allowed, run, x, m, j);
      }
    }
  }

  /** No handler runs any more. */
  lemma QuietStops(cfgs: map<nat, Config>, run: nat -> Proxy, i: nat, j: nat)
    requires forall id :: id in cfgs.Keys ==> Quiet(Tasks(run), id, i)
    requires j >= i && run(j).sys.tasks.Keys == cfgs.Keys
    ensures !Works(run(j), run(j + 1))
  {
    hide Works;
    var sys := Tasks(run);
    var s, s' := sys(j), sys(j + 1);
    forall id
      ensures !Moves(s, s', id)
    {
      if id in cfgs.Keys {
        assert Quiet(sys, id, i);
      }
    }
    if Works(run(j), run(j + 1)) { WorkAdvances(run(j), run(j + 1)); }
  }

  /** All requests are answered once and done, each was counted as completed once, and the
      service is idle: nothing active, pending, queued or falling back. */
  ghost predicate AllServed(cfgs: map<nat, Config>, p: Proxy) {
    && p.sys.tasks.Keys == cfgs.Keys
    && (forall id :: id in p.sys.tasks ==>
          p.sys.tasks[id].ok && p.sys.tasks[id].log.replies == 1 && p.sys.tasks[id].log.dones == 1)
    && p.svc.at.active == {} && p.svc.at.pending == [] && p.sys.line.queue == [] && p.lim.open == {}
    && (forall id :: id in cfgs ==> multiset(S.Ids(p.svc.hist.completed))[id] == 1)
    && p.svc.execs == |p.svc.hist.completed|
  }

  lemma DoneIsServed(cfgs: map<nat, Config>, p: Proxy)
    requires Fits(p) && p.sys.tasks.Keys == cfgs.Keys && AllDone(p.sys)
    requires forall id :: id in cfgs ==> id in p.svc.hist.admitted
    requires p.svc.lim.active >= 1
    ensures AllServed(cfgs, p)
  {
    hide SystemInv, S.Inv, F.Inv;
    NothingActive(p);
    ServiceIdle(p.svc);
    forall id | id in p.sys.tasks
      ensures p.sys.tasks[id].ok && p.sys.tasks[id].log.replies == 1 && p.sys.tasks[id].log.dones == 1
    {
      TaskInv(p.sys, id);
      DoneOnce(p.sys.tasks[id]);
    }
    forall id | id in cfgs
      ensures multiset(S.Ids(p.svc.hist.completed))[id] == 1
    {
      CompletedOnce(p.svc, id);
    }
    QueueEmpty(p.sys);
  }

  lemma NothingActive(p: Proxy)
    requires Fits(p) && AllDone(p.sys)
    ensures p.svc.at.active == {} && p.lim.open == {}
  {
    hide SystemInv, S.Inv, F.Inv;
    forall id
      ensures id !in p.svc.at.active && id !in p.lim.open
    {
      if id in p.svc.at.active { ActiveKnown(p.svc, id); }
      if id in p.sys.tasks { assert Matches(p, id); }
    }
  }

  lemma ServiceIdle(s: S.Service)
    requires S.Inv(s) && s.at.active == {} && s.lim.active >= 1
    ensures s.at.pending == [] && s.execs == |s.hist.completed|
  {
    assert |multiset(s.hist.started)| == |s.hist.started|;
    assert |multiset(S.Ids(s.hist.completed))| == |s.hist.completed|;
  }

  lemma CompletedOnce(s: S.Service, id: nat)
    requires S.Inv(s) && s.at.active == {} && s.at.pending == [] && id in s.hist.admitted
    ensures multiset(S.Ids(s.hist.completed))[id] == 1
  {
    assert s.hist.admitted == s.hist.started;
    S.UniqueCount(s.hist.started, id);
  }

  lemma QueueEmpty(s: System)
    requires SystemInv(s) && AllDone(s)
    ensures s.line.queue == []
  {
    if s.line.queue != [] {
      FrontMoves(s);
    }
  }

  /** With at least one place and one long-task slot, in every execution of the whole proxy
      every request is answered exactly once, its compile task is done and counted once, and
      the service comes to rest. */
  lemma EveryRequestIsAnswered(
      cfgs: map<nat, Config>, limits: S.Limits, max: int, allowed: int, run: nat -> Proxy)
    requires AllConsistent(cfgs) && limits.long >= 1 && limits.active >= 1
    requires Execution(cfgs, limits, max, allowed, run)
    ensures exists j: nat :: AllServed(cfgs, run(j))
  {
    hide Fits, Execution, Works, CanWork, Quiet, AllDone, AllServed;
    TasksInterleave(cfgs, limits, max, allowed, run);
    var i := AllFallQuiet(cfgs, Tasks(run), cfgs.Keys);
    var j := AllArrive(cfgs, limits, max, allowed, run, cfgs.Keys, i);
    ExecutionFits(cfgs, limits, max, allowed, run, j);
    if !AllDone(run(j).sys) {
      NothingHangs(run(j));
      var m := SomethingRuns(cfgs, limits, max, allowed, run, j);
      ExecutionFits(cfgs, limits, max, allowed, run, m);
      QuietStops(cfgs, run, i, m);
    } else {
      DoneIsServed(cfgs, run(j));
    }
  }
}
