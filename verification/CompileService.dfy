/**
 CompileService as the object it is in client/compile_service.cc: the methods below are
 its critical sections, loops included, each proved to do what Scheduler says.
 */
module CompileServiceObject {
  import opened LongTasks
  import S = Scheduler

  /** Restart, from the number of tasks it starts. */
  lemma RestartIs(s: S.Service, id: nat, n: int, t: S.Service)
    requires 0 <= n <= |s.at.pending|
    requires var free := s.lim.active - |s.at.active - {id}|;
             (n <= free || n == 0) && (n >= free || n == |s.at.pending|)
    requires t == s.(at := s.at.(active := s.at.active - {id} + S.Elements(s.at.pending[..n]),
                                 pending := s.at.pending[n..]),
                     execs := s.execs + n,
                     hist := s.hist.(started := s.hist.started + s.at.pending[..n]))
    ensures t == S.Restart(s, id)
  {
    assert n == S.Free(s.lim, s.at.active - {id}, s.at.pending);
  }

  class CompileService {
    const lim: S.Limits
    var pending: seq<nat>
    var active: set<nat>
    var finished: seq<nat>
    var failed: seq<nat>
    var long: seq<Entry>
    var execs: nat
    var refs: map<nat, nat>
    var slots: multiset<nat>
    var pins: multiset<nat>
    ghost var hist: S.History

    ghost function View(): S.Service
      reads this
    {
      S.Service(lim, S.Lists(pending, active, finished, failed, long), execs, refs, slots, pins, hist)
    }

    ghost predicate Valid()
      reads this
    {
      lim.long >= 1 && S.Inv(View())
    }

    constructor (lim: S.Limits)
      requires lim.long >= 1
      ensures Valid() && View() == S.NewService(lim)
    {
      hide S.Inv;
      this.lim := lim;
      pending, active, finished, failed, long := [], {}, [], [], [];
      execs, refs, slots, pins := 0, map[], multiset{}, multiset{};
      hist := S.History([], [], [], []);
      new;
      S.NewInv(lim);
    }

    /** Whether the caller is to run Start on the new task now. */
    method Exec(id: nat) returns (start: bool)
      requires Valid() && id !in hist.admitted
      modifies this
      ensures Valid() && View() == S.Exec(old(View()), id)
      ensures start <==> old(|active|) < lim.active
      ensures active == old(active) + (if start then {id} else {})
      ensures pending == old(pending) + (if start then [] else [id])
      ensures id in refs && refs[id] == 1 && execs == old(execs) + (if start then 1 else 0)
      ensures finished == old(finished) && failed == old(failed) && long == old(long)
    {
      hide S.Inv;
      S.ExecKeeps(View(), id);
      refs := refs[id := 1];
      hist := hist.(admitted := hist.admitted + [id]);
      start := |active| < lim.active;
      if start {
        active := active + {id};
        execs := execs + 1;
        hist := hist.(started := hist.started + [id]);
      } else {
        pending := pending + [id];
      }
    }

    /** The tasks to start and the tasks to deref once mu_ is released. */
    method CompileTaskDone(e: Entry, bad: bool) returns (startTasks: seq<nat>, derefTasks: seq<nat>)
      requires Valid() && e.id in active
      modifies this
      ensures Valid() && Recorded(old(long), lim.long, e, long)
      ensures View() == S.TaskDone(old(View()), e, bad, long)
      ensures startTasks + pending == old(pending) && hist.started == old(hist.started) + startTasks
      ensures slots == old(slots) + multiset(derefTasks)
      ensures active == old(active) - {e.id} + S.Elements(startTasks)
      ensures lim.finished >= 1 ==> finished != [] && finished[0] == e.id
      ensures if bad then lim.failed >= 1 ==> failed != [] && failed[0] == e.id else failed == old(failed)
      ensures hist.completed == old(hist.completed) + [e]
      ensures hist.failures == old(hist.failures) + (if bad then [e.id] else [])
    {
      hide S.Inv, S.TaskDone, S.Elements, Recorded;
      startTasks, derefTasks := Account(e, bad);
      S.DoneBooks(old(View()), e, bad, long);
    }

    /** The critical section, list by list. */
    method Account(e: Entry, bad: bool) returns (startTasks: seq<nat>, derefTasks: seq<nat>)
      requires Valid() && e.id in active
      modifies this
      ensures Valid() && Recorded(old(long), lim.long, e, long)
      ensures View() == S.TaskDone(old(View()), e, bad, long)
      ensures startTasks + pending == old(pending) && hist.started == old(hist.started) + startTasks
      ensures slots == old(slots) + multiset(derefTasks)
      ensures active == old(active) - {e.id} + S.Elements(startTasks)
    {
      hide S.Inv, S.Restart, S.Finish, S.Fail, S.Lengthen, S.Elements, Recorded, IsHeap, Evicted;
      ghost var before := View();
      S.LongIsHeap(before);
      startTasks := StartPending(e.id);
      derefTasks := PushFinished(e.id);
      if bad {
        var dropped := PushFailed(e.id);
        derefTasks := derefTasks + dropped;
      }
      var evicted := RecordLong(e);
      derefTasks := derefTasks + S.Ids(evicted);
      S.DoneKeeps(before, e, bad, long);
    }

    method StartPending(id: nat) returns (startTasks: seq<nat>)
      modifies this`active, this`pending, this`execs, this`hist
      ensures View() == S.Restart(old(View()), id)
      ensures active == old(active) - {id} + S.Elements(startTasks)
      ensures startTasks + pending == old(pending) && hist.started == old(hist.started) + startTasks
    {
      hide S.Restart, S.Elements;
      ghost var p := pending;
      active := active - {id};
      ghost var a := active;
      var numStart := lim.active - |active|;
      startTasks := [];
      var i := 0;
      S.NoElements();
      while i < numStart && pending != []
        invariant 0 <= i <= |p| && (i <= numStart || i == 0)
        invariant startTasks == p[..i] && pending == p[i..]
        invariant active == a + S.Elements(startTasks) && execs == old(execs) + i && hist == old(hist)
      {
        S.TakeNext(p, i);
        active := active + {pending[0]};
        startTasks := startTasks + [pending[0]];
        pending := pending[1..];
        execs := execs + 1;
        i := i + 1;
      }
      hist := hist.(started := hist.started + startTasks);
      RestartIs(old(View()), id, i, View());
    }

    method PushFinished(id: nat) returns (dropped: seq<nat>)
      modifies this`finished, this`slots
      ensures View() == S.Finish(old(View()), id)
      ensures slots == old(slots) + multiset(dropped)
    {
      finished := [id] + finished;
      dropped := [];
      if |finished| > lim.finished {
        dropped := [finished[|finished| - 1]];
        finished := finished[..|finished| - 1];
      }
      slots := slots + multiset(dropped);
    }

    method PushFailed(id: nat) returns (dropped: seq<nat>)
      modifies this`failed, this`slots, this`refs, this`hist
      ensures View() == S.Fail(old(View()), id) && hist.started == old(hist.started)
      ensures slots == old(slots) + multiset(dropped)
    {
      hide S.Ref;
      refs := S.Ref(refs, id);
      ghost var l := failed;
      failed := [id] + failed;
      dropped := [];
      if |failed| > lim.failed {
        dropped := [failed[|failed| - 1]];
        failed := failed[..|failed| - 1];
      }
      assert failed == S.Pushed(l, id, lim.failed) && dropped == S.Popped(l, id, lim.failed);
      slots := slots + multiset(dropped);
      hist := hist.(failures := hist.failures + [id]);
    }

    method RecordLong(e: Entry) returns (evicted: seq<Entry>)
      requires IsHeap(long) && lim.long >= 1
      modifies this`long, this`slots, this`refs, this`hist
      ensures Recorded(old(long), lim.long, e, long) && evicted == Evicted(old(long), lim.long, e)
      ensures View() == S.Lengthen(old(View()), e, long) && hist.started == old(hist.started)
      ensures slots == old(slots) + multiset(S.Ids(evicted))
    {
      hide Admits, Evicted, Recorded;
      if Admits(long, lim.long, e) {
        refs := S.Ref(refs, e.id);
      }
      var w;
      w, evicted := Record(long, lim.long, e);
      long := w;
      slots := slots + multiset(S.Ids(evicted));
      hist := hist.(completed := hist.completed + [e]);
    }

    /** A deref_task's turn, after mu_ was released. */
    method DerefTask(id: nat)
      requires Valid() && id in slots
      modifies this
      ensures Valid() && View() == S.Drop(old(View()), id)
      ensures slots == old(slots) - multiset{id} && pins == old(pins) && View().at == old(View().at)
    {
      hide S.Inv, S.Ref, S.Deref;
      S.DropKeeps(View(), id);
      slots := slots - multiset{id};
      refs := S.Deref(refs, id);
    }

    /** DumpTaskRequest takes its reference, if the id is known. */
    method Pin(id: nat) returns (found: bool)
      requires Valid()
      modifies this
      ensures Valid() && View() == S.Pin(old(View()), id)
      ensures found <==> id in finished || id in failed || id in S.Ids(long)
      ensures pins == old(pins) + (if found then multiset{id} else multiset{})
      ensures slots == old(slots) && View().at == old(View().at)
    {
      hide S.Inv, S.Ref, S.Deref;
      S.PinKeeps(View(), id);
      found := id in finished || id in failed || id in S.Ids(long);
      if found {
        refs := S.Ref(refs, id);
        pins := pins + multiset{id};
      }
    }

    method Unpin(id: nat)
      requires Valid() && id in pins
      modifies this
      ensures Valid() && View() == S.Unpin(old(View()), id)
      ensures pins == old(pins) - multiset{id} && slots == old(slots) && View().at == old(View().at)
    {
      hide S.Inv, S.Ref, S.Deref;
      S.UnpinKeeps(View(), id);
      refs := S.Deref(refs, id);
      pins := pins - multiset{id};
    }

    /** ClearTasksUnlocked once all work is done: every list lets go of its tasks, and only
        those that a deref_task or a dump still holds survive. */
    method ClearTasks()
      requires Valid() && active == {} && pending == []
      modifies this
      ensures finished == [] && failed == [] && long == [] && slots == old(slots) && pins == old(pins)
      ensures S.Exact(View())
      ensures slots == multiset{} && pins == multiset{} ==> refs == map[]
    {
      hide S.Exact;
      while finished != []
        invariant S.Exact(View()) && unchanged(`slots) && unchanged(`pins)
        invariant unchanged(`active) && unchanged(`pending) && unchanged(`failed) && unchanged(`long)
      {
        S.FinishedLetsGo(View());
        refs := S.Deref(refs, finished[0]);
        finished := finished[1..];
      }
      while failed != []
        invariant S.Exact(View()) && finished == [] && unchanged(`slots) && unchanged(`pins)
        invariant unchanged(`active) && unchanged(`pending) && unchanged(`long)
      {
        S.FailedLetsGo(View());
        refs := S.Deref(refs, failed[0]);
        failed := failed[1..];
      }
      while long != []
        invariant S.Exact(View()) && finished == [] && failed == [] && unchanged(`slots) && unchanged(`pins)
        invariant unchanged(`active) && unchanged(`pending)
      {
        S.LongLetsGo(View());
        refs := S.Deref(refs, long[0].id);
        long := long[1..];
      }
      if slots == multiset{} && pins == multiset{} {
        S.NothingHeld(View());
      }
    }
  }
}
