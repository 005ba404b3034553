/**
 What the service has on its books, against the compile tasks themselves: finished_tasks_,
 failed_tasks_ and long_tasks_ are filled by CompileTaskDone (client/compile_service.cc)
 from what each compile task says of itself when it is done.
 */
module ProxyBooks {
  import opened Basics
  import opened TaskMachine
  import opened TaskInvariant
  import opened LinkQueue
  import opened LinkRuns
  import opened LongTasks
  import opened CompilerProxy
  import S = Scheduler

  /** A failed or fallen-back compile task that nobody canceled. */
  predicate Bad(tasks: map<nat, Task>, e: Ending) {
    e.id in tasks && !tasks[e.id].fact.canceled && (e.failed || tasks[e.id].loc.failFallback)
  }

  function Entries(ended: seq<Ending>): (es: seq<Entry>)
    ensures |es| == |ended|
  {
    seq(|ended|, i requires 0 <= i < |ended| => Entry(ended[i].id, ended[i].time))
  }

  /** The bad ones, in order of completion. */
  function BadIds(tasks: map<nat, Task>, ended: seq<Ending>): seq<nat> {
    if ended == [] then []
    else
      var n := |ended| - 1;
      BadIds(tasks, ended[..n]) + if Bad(tasks, ended[n]) then [ended[n].id] else []
  }

  /** One note for each compile task that is done. */
  ghost predicate Noted(tasks: map<nat, Task>, ended: seq<Ending>) {
    && (forall i :: 0 <= i < |ended| ==> ended[i].id in tasks && tasks[ended[i].id].log.dones > 0)
    && (forall i, j :: 0 <= i < j < |ended| ==> ended[i].id != ended[j].id)
    && (forall id :: id in tasks && tasks[id].log.dones > 0 ==> exists i :: 0 <= i < |ended| && ended[i].id == id)
  }

  ghost predicate Booked(p: Proxy) {
    && Noted(p.sys.tasks, p.ended)
    && p.svc.hist.completed == Entries(p.ended)
    && p.svc.hist.failures == BadIds(p.sys.tasks, p.ended)
  }

  // ---------------------------------------------------------------- what every step keeps

  lemma {:induction false} BadIdsSame(tasks: map<nat, Task>, ended: seq<Ending>, id: nat, u: Task)
    requires forall i :: 0 <= i < |ended| ==> ended[i].id != id
    ensures BadIds(tasks[id := u], ended) == BadIds(tasks, ended)
  {
    if ended != [] { BadIdsSame(tasks, ended[..|ended| - 1], id, u); }
  }

  lemma NotedSame(tasks: map<nat, Task>, ended: seq<Ending>, id: nat, u: Task)
    requires Noted(tasks, ended) && id in tasks && tasks[id].log.dones == 0 && u.log.dones == 0
    ensures Noted(tasks[id := u], ended)
  {
    assert forall i :: 0 <= i < |ended| ==> ended[i].id != id;
  }

  lemma NotedMore(tasks: map<nat, Task>, ended: seq<Ending>, e: Ending, u: Task)
    requires Noted(tasks, ended) && e.id in tasks && tasks[e.id].log.dones == 0 && u.log.dones > 0
    ensures Noted(tasks[e.id := u], ended + [e])
  {
    var more := ended + [e];
    assert more[|ended|] == e;
    forall id | id in tasks && tasks[e.id := u][id].log.dones > 0
      ensures exists i :: 0 <= i < |more| && more[i].id == id
    {
      if id != e.id {
        var i :| 0 <= i < |ended| && ended[i].id == id;
        assert more[i].id == id;
      }
    }
  }

  lemma BadIdsMore(tasks: map<nat, Task>, ended: seq<Ending>, e: Ending)
    ensures BadIds(tasks, ended + [e]) == BadIds(tasks, ended) + if Bad(tasks, e) then [e.id] else []
    ensures Entries(ended + [e]) == Entries(ended) + [Entry(e.id, e.time)]
  {
    assert (ended + [e])[..|ended|] == ended;
  }

  lemma WorkBooked(p: Proxy, id: nat, e: Event, x: Outcome)
    requires Fits(p) && Booked(p) && CanRun(p, id, e) && Agrees(p, id, x)
    ensures Booked(After(p, id, e, x))
  {
    hide Step, Fits, Recorded, S.TaskDone, LimiterAfter, Enabled, Noted, BadIds, Agrees;
    var t := p.sys.tasks[id];
    var u := Step(t, e, x.o);
    assert t.log.dones == 0 && u.log.dones <= 1 by { Runs(p, id, e, x); }
    assert forall i :: 0 <= i < |p.ended| ==> p.ended[i].id != id by { NotYet(p.sys.tasks, p.ended, id); }
    BadIdsSame(p.sys.tasks, p.ended, id, u);
    if Finishes(t, u) {
      var n := Ending(id, x.time, x.failed);
      NotedMore(p.sys.tasks, p.ended, n, u);
      BadIdsMore(p.sys.tasks[id := u], p.ended, n);
      S.DoneBooks(p.svc, Entry(id, x.time), (x.failed || u.loc.failFallback) && !u.fact.canceled, x.w);
    } else {
      NotedSame(p.sys.tasks, p.ended, id, u);
    }
  }

  lemma Runs(p: Proxy, id: nat, e: Event, x: Outcome)
    requires Fits(p) && CanRun(p, id, e)
    ensures p.sys.tasks[id].log.dones == 0 && Step(p.sys.tasks[id], e, x.o).log.dones <= 1
  {
    hide Step, S.Inv, Enabled;
    Resumes(p, id, e, x);
  }

  lemma NotYet(tasks: map<nat, Task>, ended: seq<Ending>, id: nat)
    requires Noted(tasks, ended) && id in tasks && tasks[id].log.dones == 0
    ensures forall i :: 0 <= i < |ended| ==> ended[i].id != id
  {
  }

  lemma ProceedBooked(p: Proxy, q: Proxy)
    requires Fits(p) && Booked(p) && Proceeds(p, q)
    ensures Booked(q)
  {
    hide Fits, Booked, After, Agrees, S.Allowed;
    if Works(p, q) {
      var id, e, x :| CanRun(p, id, e) && Agrees(p, id, x) && q == After(p, id, e, x);
      WorkBooked(p, id, e, x);
    } else {
      assert q.sys == p.sys && q.ended == p.ended && q.svc.hist.completed == p.svc.hist.completed
             && q.svc.hist.failures == p.svc.hist.failures;
      BookedSame(p, q);
    }
  }

  lemma BookedSame(p: Proxy, q: Proxy)
    requires Booked(p) && q.sys == p.sys && q.ended == p.ended
    requires q.svc.hist.completed == p.svc.hist.completed && q.svc.hist.failures == p.svc.hist.failures
    ensures Booked(q)
  {
  }

  lemma NewBooked(cfgs: map<nat, Config>, limits: S.Limits, max: int, allowed: int)
    ensures Booked(NewProxy(cfgs, limits, max, allowed))
  {
  }

  lemma {:induction false} RunBooked(r: seq<Proxy>)
    requires IsRun(r) && Fits(r[0]) && Booked(r[0])
    ensures Fits(r[|r| - 1]) && Booked(r[|r| - 1])
  {
    if |r| > 1 {
      hide Fits, Booked, Proceeds;
      RunBooked(r[..|r| - 1]);
      ProceedKeeps(r[|r| - 2], r[|r| - 1]);
      ProceedBooked(r[|r| - 2], r[|r| - 1]);
    }
  }

  // ---------------------------------------------------------------- whole runs

  lemma {:induction false} BadIdsAre(tasks: map<nat, Task>, ended: seq<Ending>, id: nat)
    ensures id in BadIds(tasks, ended) <==> exists i :: 0 <= i < |ended| && ended[i].id == id && Bad(tasks, ended[i])
  {
    if ended != [] {
      var n := |ended| - 1;
      BadIdsAre(tasks, ended[..n], id);
      if i :| 0 <= i < |ended| && ended[i].id == id && Bad(tasks, ended[i]) {
        if i < n { assert ended[..n][i] == ended[i]; }
      }
      if i :| 0 <= i < n && ended[..n][i].id == id && Bad(tasks, ended[..n][i]) {
        assert ended[i] == ended[..n][i];
      }
    }
  }

  lemma {:induction false} BadIdsUnique(tasks: map<nat, Task>, ended: seq<Ending>)
    requires forall i, j :: 0 <= i < j < |ended| ==> ended[i].id != ended[j].id
    ensures Unique(BadIds(tasks, ended))
  {
    if ended != [] {
      var n := |ended| - 1;
      BadIdsUnique(tasks, ended[..n]);
      BadIdsAre(tasks, ended[..n], ended[n].id);
    }
  }

  lemma ReachableBooked(cfgs: map<nat, Config>, limits: S.Limits, max: int, allowed: int, p: Proxy)
    requires AllConsistent(cfgs) && limits.long >= 1 && ProxyReachable(cfgs, limits, max, allowed, p)
    ensures Booked(p) && S.Remembered(p.svc)
  {
    hide Fits, Booked, Proceeds, S.Remembered;
    var r :| IsRun(r) && r[0] == NewProxy(cfgs, limits, max, allowed) && r[|r| - 1] == p;
    NewFits(cfgs, limits, max, allowed);
    NewBooked(cfgs, limits, max, allowed);
    RunBooked(r);
    FitsRemembers(p);
  }

  lemma FitsRemembers(p: Proxy)
    requires Fits(p)
    ensures S.Remembered(p.svc)
  {
    hide SystemInv;
  }

  /** Over every run of the whole: CompileTaskDone has come exactly once for each compile task
      that is done, in the order and with the handler times noted; and of these, exactly
      those that failed or fell back and were not canceled have been filed as failures, each
      once, in the order of completion. failed_tasks_ holds the newest of them and
      finished_tasks_ the newest of all, newest first. */
  lemma FailuresAreFiled(cfgs: map<nat, Config>, limits: S.Limits, max: int, allowed: int, p: Proxy)
    requires AllConsistent(cfgs) && limits.long >= 1 && ProxyReachable(cfgs, limits, max, allowed, p)
    ensures Noted(p.sys.tasks, p.ended) && p.svc.hist.completed == Entries(p.ended)
    ensures p.svc.hist.failures == BadIds(p.sys.tasks, p.ended) && Unique(p.svc.hist.failures)
    ensures forall i :: 0 <= i < |p.ended| ==>
              var t := p.sys.tasks[p.ended[i].id];
              (p.ended[i].id in p.svc.hist.failures <==> !t.fact.canceled && (p.ended[i].failed || t.loc.failFallback))
    ensures S.Recent(p.svc.at.failed, BadIds(p.sys.tasks, p.ended), p.svc.lim.failed)
    ensures S.Recent(p.svc.at.finished, S.Ids(Entries(p.ended)), p.svc.lim.finished)
  {
    hide ProxyReachable, BadIds, IsHeap, IsTop;
    ReachableBooked(cfgs, limits, max, allowed, p);
    BadIdsUnique(p.sys.tasks, p.ended);
    forall i | 0 <= i < |p.ended|
      ensures var t := p.sys.tasks[p.ended[i].id];
              (p.ended[i].id in p.svc.hist.failures <==> !t.fact.canceled && (p.ended[i].failed || t.loc.failFallback))
    {
      BadIdsAre(p.sys.tasks, p.ended, p.ended[i].id);
    }
  }
}
