/**
 The bookkeeping of CompileService (client/compile_service.cc): admission under
 max_active_tasks_ with a first-in first-out overflow queue, the history lists, and
 the reference counts that keep a CompileTask alive.

 Every operation is one critical section under mu_. CompileTaskDone derefs the tasks it
 dropped from the history after it has left the critical section, so these wait in
 `slots`; a dump of a task request pins its task between two critical sections (`pins`).
 */
module Scheduler {
  import opened Basics
  import opened LongTasks

  datatype Limits = Limits(active: int, finished: int, failed: int, long: int)

  /** Where tasks are held. */
  datatype Lists = Lists(
    pending: seq<nat>,
    active: set<nat>,
    finished: seq<nat>,      // newest first
    failed: seq<nat>,        // newest first
    long: seq<Entry>)

  /** What an observer of the whole run records. */
  datatype History = History(
    admitted: seq<nat>,      // Exec calls, in the order in which they took mu_
    started: seq<nat>,       // insertions into active_tasks_, each followed by one Start
    completed: seq<Entry>,
    failures: seq<nat>)

  datatype Service = Service(
    lim: Limits,
    at: Lists,
    execs: nat,              // num_exec_request_
    refs: map<nat, nat>,     // refcnt_ of the tasks that exist
    slots: multiset<nat>,
    pins: multiset<nat>,
    hist: History)

  function NewService(lim: Limits): Service {
    Service(lim, Lists([], {}, [], [], []), 0, map[], multiset{}, multiset{}, History([], [], [], []))
  }

  function Ids(es: seq<Entry>): (ids: seq<nat>)
    ensures |ids| == |es|
  {
    seq(|es|, i requires 0 <= i < |es| => es[i].id)
  }

  // ---------------------------------------------------------------- reference counts

  /** refcnt_++ */
  function Ref(refs: map<nat, nat>, id: nat): map<nat, nat> {
    refs[id := Count(refs, id) + 1]
  }

  /** refcnt_--, and the task is deleted when none is left. */
  function Deref(refs: map<nat, nat>, id: nat): map<nat, nat> {
    if Count(refs, id) <= 1 then refs - {id} else refs[id := Count(refs, id) - 1]
  }

  function Count(refs: map<nat, nat>, id: nat): nat {
    if id in refs then refs[id] else 0
  }

  predicate Positive(refs: map<nat, nat>) {
    forall id :: id in refs ==> refs[id] > 0
  }

  /** What holds references to a task: its place among pending, active and finished tasks,
      failed_tasks_, long_tasks_, deref_tasks and dumps. */
  function Held(s: Service, id: nat): nat {
    multiset(s.at.pending)[id] + (if id in s.at.active then 1 else 0) + multiset(s.at.finished)[id]
    + multiset(s.at.failed)[id] + multiset(Ids(s.at.long))[id] + s.slots[id] + s.pins[id]
  }

  /** A task exists exactly while something holds it, and its count says how many do. */
  ghost predicate Exact(s: Service) {
    Positive(s.refs) && forall id :: Count(s.refs, id) == Held(s, id)
  }

  // ---------------------------------------------------------------- operations

  /** Exec: the new task runs at once, or waits for a free place. */
  function Exec(s: Service, id: nat): Service {
    var refs := s.refs[id := 1];
    var admitted := s.hist.admitted + [id];
    if |s.at.active| >= s.lim.active then
      s.(at := s.at.(pending := s.at.pending + [id]), refs := refs,
         hist := s.hist.(admitted := admitted))
    else
      s.(at := s.at.(active := s.at.active + {id}), execs := s.execs + 1, refs := refs,
         hist := s.hist.(admitted := admitted, started := s.hist.started + [id]))
  }

  /** How many pending tasks take the free places. */
  function Free(lim: Limits, active: set<nat>, pending: seq<nat>): (n: nat)
    ensures n <= |pending|
  {
    var n := lim.active - |active|;
    if n < 0 then 0 else if n > |pending| then |pending| else n
  }

  function Elements(s: seq<nat>): set<nat> {
    set x | x in s
  }

  /** CompileTaskDone up to the start of pending tasks. */
  function Restart(s: Service, id: nat): Service {
    var active := s.at.active - {id};
    var n := Free(s.lim, active, s.at.pending);
    s.(at := s.at.(active := active + Elements(s.at.pending[..n]), pending := s.at.pending[n..]),
       execs := s.execs + n,
       hist := s.hist.(started := s.hist.started + s.at.pending[..n]))
  }

  /** push_front, and at most one pop_back. */
  function Pushed(l: seq<nat>, id: nat, max: int): seq<nat> {
    if |l| + 1 > max then ([id] + l)[..|l|] else [id] + l
  }

  function Popped(l: seq<nat>, id: nat, max: int): seq<nat> {
    if |l| + 1 > max then [([id] + l)[|l|]] else []
  }

  function Finish(s: Service, id: nat): Service {
    s.(at := s.at.(finished := Pushed(s.at.finished, id, s.lim.finished)),
       slots := s.slots + multiset(Popped(s.at.finished, id, s.lim.finished)))
  }

  /** A failed or fallen-back task that was not canceled is also kept in failed_tasks_. */
  function Fail(s: Service, id: nat): Service {
    s.(at := s.at.(failed := Pushed(s.at.failed, id, s.lim.failed)),
       refs := Ref(s.refs, id),
       slots := s.slots + multiset(Popped(s.at.failed, id, s.lim.failed)),
       hist := s.hist.(failures := s.hist.failures + [id]))
  }

  /** long_tasks_ becomes w, one of the heaps that Recorded allows. */
  function Lengthen(s: Service, e: Entry, w: seq<Entry>): Service {
    s.(at := s.at.(long := w),
       refs := if Admits(s.at.long, s.lim.long, e) then Ref(s.refs, e.id) else s.refs,
       slots := s.slots + multiset(Ids(Evicted(s.at.long, s.lim.long, e))),
       hist := s.hist.(completed := s.hist.completed + [e]))
  }

  function TaskDone(s: Service, e: Entry, bad: bool, w: seq<Entry>): Service {
    var t := Finish(Restart(s, e.id), e.id);
    Lengthen(if bad then Fail(t, e.id) else t, e, w)
  }

  /** One deref_task of a CompileTaskDone that has left mu_. */
  function Drop(s: Service, id: nat): Service {
    s.(refs := Deref(s.refs, id), slots := s.slots - multiset{id})
  }

  /** FindTaskByIdUnlocked without the active tasks. */
  predicate Known(at: Lists, id: nat) {
    id in at.finished || id in at.failed || id in Ids(at.long)
  }

  /** DumpTaskRequest, first half. */
  function Pin(s: Service, id: nat): Service {
    if Known(s.at, id) then s.(refs := Ref(s.refs, id), pins := s.pins + multiset{id}) else s
  }

  function Unpin(s: Service, id: nat): Service {
    s.(refs := Deref(s.refs, id), pins := s.pins - multiset{id})
  }

  datatype Op = ExecOp(id: nat) | DoneOp(e: Entry, bad: bool, w: seq<Entry>) | DropOp(id: nat)
              | PinOp(id: nat) | UnpinOp(id: nat)

  /** Task ids are never reused; only active tasks complete. */
  predicate Allowed(s: Service, op: Op) {
    match op
    case ExecOp(id) => id !in s.hist.admitted
    case DoneOp(e, _, w) => e.id in s.at.active && Recorded(s.at.long, s.lim.long, e, w)
    case DropOp(id) => id in s.slots
    case PinOp(_) => true
    case UnpinOp(id) => id in s.pins
  }

  function Apply(s: Service, op: Op): Service {
    match op
    case ExecOp(id) => Exec(s, id)
    case DoneOp(e, bad, w) => TaskDone(s, e, bad, w)
    case DropOp(id) => Drop(s, id)
    case PinOp(id) => Pin(s, id)
    case UnpinOp(id) => Unpin(s, id)
  }

  // ---------------------------------------------------------------- the throttle

  function AtLeastZero(n: int): nat {
    if n < 0 then 0 else n
  }

  /** Places are never exceeded and never left free while a task waits; tasks start in the
      order of admission, each once; started tasks are active or completed. `leaving` is
      the task CompileTaskDone has taken out of active_tasks_ and not yet accounted for. */
  ghost predicate Throttled(s: Service, leaving: multiset<nat>) {
    && |s.at.active| <= AtLeastZero(s.lim.active)
    && (s.at.pending != [] ==> |s.at.active| >= s.lim.active)
    && s.hist.admitted == s.hist.started + s.at.pending
    && Unique(s.hist.admitted)
    && multiset(s.hist.started) == multiset(s.at.active) + multiset(Ids(s.hist.completed)) + leaving
    && s.execs == |s.hist.started|
  }

  lemma UniqueSplit(s: seq<nat>, n: int)
    requires Unique(s) && 0 <= n <= |s|
    ensures Unique(s[..n]) && Unique(s[n..])
    ensures forall x :: x in s[..n] ==> x !in s[n..]
  {
  }

  lemma NoElements()
    ensures Elements([]) == {}
  {
  }

  lemma TakeNext(s: seq<nat>, i: int)
    requires 0 <= i < |s|
    ensures s[i..][0] == s[i] && s[i..][1..] == s[i + 1..] && s[..i] + [s[i]] == s[..i + 1]
    ensures Elements(s[..i] + [s[i]]) == Elements(s[..i]) + {s[i]}
  {
  }

  lemma {:induction false} ElementsOf(s: seq<nat>)
    requires Unique(s)
    ensures |Elements(s)| == |s| && multiset(Elements(s)) == multiset(s)
  {
    if s != [] {
      var n := |s| - 1;
      UniqueSplit(s, n);
      ElementsOf(s[..n]);
      assert s == s[..n] + [s[n]];
      assert Elements(s) == Elements(s[..n]) + {s[n]};
      assert s[n] !in s[..n];
    }
  }

  lemma ExecThrottled(s: Service, id: nat)
    requires Throttled(s, multiset{}) && id !in s.hist.admitted
    ensures Throttled(Exec(s, id), multiset{})
  {
    assert id !in s.hist.started by { assert s.hist.admitted[..|s.hist.started|] == s.hist.started; }
    assert multiset(s.hist.started)[id] == 0;
    if |s.at.active| >= s.lim.active {
      assert s.hist.admitted + [id] == s.hist.started + (s.at.pending + [id]);
    } else {
      assert multiset(s.at.active + {id}) == multiset(s.at.active) + multiset{id};
    }
  }

  /** The free places go to the tasks that have waited longest. */
  lemma RestartThrottled(s: Service, id: nat)
    requires Throttled(s, multiset{}) && id in s.at.active
    ensures Throttled(Restart(s, id), multiset{id})
    ensures multiset(Restart(s, id).at.active) + multiset(Restart(s, id).at.pending)
         == multiset(s.at.active) + multiset(s.at.pending) - multiset{id}
    ensures |Restart(s, id).at.active| + |Restart(s, id).at.pending| == |s.at.active| + |s.at.pending| - 1
  {
    var active := s.at.active - {id};
    var n := Free(s.lim, active, s.at.pending);
    var next, rest := s.at.pending[..n], s.at.pending[n..];
    assert s.at.pending == next + rest;
    PendingApart(s);
    hide Unique;
    Activated(s.at.active, id, next);
    assert s.hist.started + s.at.pending == s.hist.started + next + rest;
  }

  /** One task leaves active_tasks_ and others, not active so far, enter. */
  lemma Activated(active: set<nat>, id: nat, next: seq<nat>)
    requires id in active && Unique(next) && forall x :: x in next ==> x !in active
    ensures multiset(active - {id} + Elements(next)) == multiset(active) - multiset{id} + multiset(next)
    ensures |active - {id} + Elements(next)| == |active| - 1 + |next|
  {
    ElementsOf(next);
    assert active - {id} !! Elements(next);
    assert multiset(active - {id} + Elements(next)) == multiset(active - {id}) + multiset(Elements(next));
  }

  lemma PendingApart(s: Service)
    requires Throttled(s, multiset{})
    ensures Unique(s.at.pending)
    ensures forall n :: 0 <= n <= |s.at.pending| ==> Unique(s.at.pending[..n])
    ensures forall x :: x in s.at.pending ==> x !in s.at.active
  {
    UniqueSplit(s.hist.admitted, |s.hist.started|);
    assert s.hist.admitted[|s.hist.started|..] == s.at.pending;
    assert s.hist.admitted[..|s.hist.started|] == s.hist.started;
    forall x | x in s.at.pending
      ensures x !in s.at.active
    {
      assert multiset(s.hist.started)[x] == 0;
    }
  }

  // ---------------------------------------------------------------- history lists

  /** l holds the newest entries of all, newest first, as many as the limit admits. */
  predicate Recent(l: seq<nat>, all: seq<nat>, max: int) {
    && |l| == (if |all| < AtLeastZero(max) then |all| else AtLeastZero(max))
    && forall i :: 0 <= i < |l| ==> l[i] == all[|all| - 1 - i]
  }

  lemma PushedIsRecent(l: seq<nat>, all: seq<nat>, id: nat, max: int)
    requires Recent(l, all, max)
    ensures Recent(Pushed(l, id, max), all + [id], max)
  {
    var m, more := [id] + l, all + [id];
    forall i | 0 <= i < |m|
      ensures m[i] == more[|more| - 1 - i]
    {
      if i > 0 { assert m[i] == l[i - 1] && more[|more| - 1 - i] == all[|all| - i]; }
    }
  }

  ghost predicate Remembered(s: Service) {
    && Recent(s.at.finished, Ids(s.hist.completed), s.lim.finished)
    && Recent(s.at.failed, s.hist.failures, s.lim.failed)
    && IsHeap(s.at.long) && IsTop(multiset(s.at.long), multiset(s.hist.completed), s.lim.long)
  }

  lemma IdsAppend(es: seq<Entry>, e: Entry)
    ensures Ids(es + [e]) == Ids(es) + [e.id]
  {
  }

  lemma DoneRemembered(s: Service, e: Entry, bad: bool, w: seq<Entry>)
    requires Remembered(s) && s.lim.long >= 1 && Recorded(s.at.long, s.lim.long, e, w)
    ensures Remembered(TaskDone(s, e, bad, w))
  {
    hide Recent, IsHeap, IsTop, Recorded, Pushed, Popped;
    PushedIsRecent(s.at.finished, Ids(s.hist.completed), e.id, s.lim.finished);
    PushedIsRecent(s.at.failed, s.hist.failures, e.id, s.lim.failed);
    RecordKeepsTop(s.at.long, multiset(s.hist.completed), s.lim.long, e, w);
    IdsAppend(s.hist.completed, e);
    assert multiset(s.hist.completed + [e]) == multiset(s.hist.completed) + multiset{e};
  }

  // ---------------------------------------------------------------- conservation of references

  /** Order is all that Ids forgets about a permutation. */
  lemma {:induction false} IdsPermuted(a: seq<Entry>, b: seq<Entry>)
    requires multiset(a) == multiset(b)
    ensures multiset(Ids(a)) == multiset(Ids(b))
  {
    if a == [] {
      assert |multiset(b)| == 0;
    } else {
      var n := |a| - 1;
      assert a == a[..n] + [a[n]];
      assert a[n] in multiset(b);
      var i :| 0 <= i < |b| && b[i] == a[n];
      RemoveAt(b, i);
      assert multiset(a[..n]) == multiset(b) - multiset{a[n]};
      IdsPermuted(a[..n], b[..i] + b[i + 1..]);
      IdsAppend(a[..n], a[n]);
    }
  }

  lemma RemoveAt(b: seq<Entry>, i: int)
    requires 0 <= i < |b|
    ensures multiset(b[..i] + b[i + 1..]) == multiset(b) - multiset{b[i]}
    ensures multiset(Ids(b)) == multiset(Ids(b[..i] + b[i + 1..])) + multiset{b[i].id}
  {
    assert b == b[..i] + [b[i]] + b[i + 1..];
    assert Ids(b[..i] + b[i + 1..]) == Ids(b[..i]) + Ids(b[i + 1..]);
    assert Ids(b) == Ids(b[..i]) + [b[i].id] + Ids(b[i + 1..]);
  }

  lemma LongHeld(long: seq<Entry>, max: int, e: Entry, w: seq<Entry>, x: nat)
    requires Recorded(long, max, e, w)
    ensures multiset(Ids(w))[x] + multiset(Ids(Evicted(long, max, e)))[x]
         == multiset(Ids(long))[x] + One(Admits(long, max, e) && x == e.id)
  {
    if Admits(long, max, e) {
      var gone := Evicted(long, max, e);
      var rest := long[|gone|..];
      assert long == gone + rest;
      assert multiset(rest) == multiset(long) - multiset(gone);
      assert multiset(w) == multiset(rest + [e]);
      IdsSwapped(gone, rest, e, w, x);
    }
  }

  lemma IdsSwapped(gone: seq<Entry>, rest: seq<Entry>, e: Entry, w: seq<Entry>, x: nat)
    requires multiset(w) == multiset(rest + [e])
    ensures multiset(Ids(w))[x] + multiset(Ids(gone))[x] == multiset(Ids(gone + rest))[x] + One(x == e.id)
  {
    IdsPermuted(w, rest + [e]);
    IdsAppend(rest, e);
    assert Ids(gone + rest) == Ids(gone) + Ids(rest);
  }

  lemma PushedHeld(l: seq<nat>, id: nat, max: int, x: nat)
    ensures multiset(Pushed(l, id, max))[x] + multiset(Popped(l, id, max))[x] == multiset(l)[x] + One(x == id)
  {
    var m := [id] + l;
    assert multiset(m)[x] == multiset(l)[x] + One(x == id);
    assert m == m[..|l|] + [m[|l|]];
  }

  lemma RestartHeld(s: Service, id: nat, x: nat)
    requires Throttled(s, multiset{}) && id in s.at.active
    ensures Held(Restart(s, id), x) + One(x == id) == Held(s, x)
  {
    RestartThrottled(s, id);
    hide Throttled, Restart;
    var r := Restart(s, id);
    assert (multiset(r.at.active) + multiset(r.at.pending))[x]
        == (multiset(s.at.active) + multiset(s.at.pending) - multiset{id})[x];
    RestartKeepsRest(s, id);
  }

  lemma RestartKeepsRest(s: Service, id: nat)
    ensures var r := Restart(s, id);
            && r.at.finished == s.at.finished && r.at.failed == s.at.failed && r.at.long == s.at.long
            && r.slots == s.slots && r.pins == s.pins && r.refs == s.refs && r.lim == s.lim
            && r.hist.completed == s.hist.completed && r.hist.failures == s.hist.failures
  {
  }

  lemma FinishHeld(s: Service, id: nat, x: nat)
    ensures Held(Finish(s, id), x) == Held(s, x) + One(x == id)
  {
    PushedHeld(s.at.finished, id, s.lim.finished, x);
  }

  lemma FailHeld(s: Service, id: nat, x: nat)
    ensures Held(Fail(s, id), x) == Held(s, x) + One(x == id)
  {
    PushedHeld(s.at.failed, id, s.lim.failed, x);
  }

  lemma LengthenHeld(s: Service, e: Entry, w: seq<Entry>, x: nat)
    requires Recorded(s.at.long, s.lim.long, e, w)
    ensures Held(Lengthen(s, e, w), x)
         == Held(s, x) + One(Admits(s.at.long, s.lim.long, e) && x == e.id)
  {
    LongHeld(s.at.long, s.lim.long, e, w, x);
  }

  /** CompileTaskDone takes and gives up exactly the references its counts say. */
  lemma DoneExact(s: Service, e: Entry, bad: bool, w: seq<Entry>)
    requires Throttled(s, multiset{}) && Exact(s)
    requires e.id in s.at.active && Recorded(s.at.long, s.lim.long, e, w)
    ensures Exact(TaskDone(s, e, bad, w))
  {
    hide Throttled, Recorded, Restart, Finish, Held, Admits;
    var r := Restart(s, e.id);
    RestartKeepsRest(s, e.id);
    var t := Finish(r, e.id);
    FinishKeepsRest(r, e.id);
    var u := if bad then Fail(t, e.id) else t;
    forall x: nat
      ensures Count(TaskDone(s, e, bad, w).refs, x) == Held(TaskDone(s, e, bad, w), x)
    {
      assert Count(s.refs, x) == Held(s, x);
      RestartHeld(s, e.id, x);
      FinishHeld(r, e.id, x);
      FailHeld(t, e.id, x);
      LengthenHeld(u, e, w, x);
    }
  }

  lemma FinishKeepsRest(s: Service, id: nat)
    ensures var r := Finish(s, id);
            && r.at.failed == s.at.failed && r.at.long == s.at.long && r.refs == s.refs && r.lim == s.lim
            && r.hist == s.hist
  {
  }

  // ---------------------------------------------------------------- the invariant

  ghost predicate Inv(s: Service) {
    && Throttled(s, multiset{}) && Remembered(s) && Exact(s)
    && (forall id :: id in s.refs ==> id in s.hist.admitted)
  }

  lemma ExecExact(s: Service, id: nat)
    requires Inv(s) && id !in s.hist.admitted
    ensures Exact(Exec(s, id))
  {
    hide Held;
    assert id !in s.at.active by {
      if id in s.at.active { ActiveIsAdmitted(s, id); }
    }
    forall x: nat
      ensures Count(Exec(s, id).refs, x) == Held(Exec(s, id), x)
    {
      assert Count(s.refs, x) == Held(s, x);
      ExecHeld(s, id, x);
    }
  }

  lemma ExecHeld(s: Service, id: nat, x: nat)
    requires id !in s.at.active
    ensures Held(Exec(s, id), x) == Held(s, x) + One(x == id)
  {
  }

  lemma ExecKeeps(s: Service, id: nat)
    requires Inv(s) && id !in s.hist.admitted
    ensures Inv(Exec(s, id))
  {
    hide Throttled, Exact, Remembered;
    ExecThrottled(s, id);
    ExecExact(s, id);
    ExecRemembered(s, id);
  }

  lemma ExecRemembered(s: Service, id: nat)
    requires Remembered(s)
    ensures Remembered(Exec(s, id))
  {
  }

  lemma LongIsHeap(s: Service)
    requires Inv(s)
    ensures IsHeap(s.at.long)
  {
  }

  /** Where a completed task is to be found. */
  lemma DoneBooks(s: Service, e: Entry, bad: bool, w: seq<Entry>)
    ensures var t := TaskDone(s, e, bad, w);
            && (s.lim.finished >= 1 ==> t.at.finished != [] && t.at.finished[0] == e.id)
            && (if bad then s.lim.failed >= 1 ==> t.at.failed != [] && t.at.failed[0] == e.id
                else t.at.failed == s.at.failed)
            && t.hist.completed == s.hist.completed + [e]
            && t.hist.failures == s.hist.failures + if bad then [e.id] else []
  {
  }

  lemma DoneThrottled(s: Service, e: Entry, bad: bool, w: seq<Entry>)
    requires Throttled(s, multiset{}) && e.id in s.at.active
    ensures Throttled(TaskDone(s, e, bad, w), multiset{})
  {
    RestartThrottled(s, e.id);
    hide Restart;
    IdsAppend(s.hist.completed, e);
    RestartKeepsRest(s, e.id);
  }

  lemma DoneKeeps(s: Service, e: Entry, bad: bool, w: seq<Entry>)
    requires Inv(s) && s.lim.long >= 1 && e.id in s.at.active && Recorded(s.at.long, s.lim.long, e, w)
    ensures Inv(TaskDone(s, e, bad, w))
  {
    DoneThrottled(s, e, bad, w);
    hide Throttled, Exact, Remembered, Recorded;
    DoneExact(s, e, bad, w);
    DoneRemembered(s, e, bad, w);
    ActiveIsAdmitted(s, e.id);
  }

  lemma ActiveIsAdmitted(s: Service, id: nat)
    requires Throttled(s, multiset{}) && id in s.at.active
    ensures id in s.hist.admitted
  {
    assert multiset(s.hist.started)[id] > 0;
  }

  lemma DropKeeps(s: Service, id: nat)
    requires Inv(s) && id in s.slots
    ensures Inv(Drop(s, id))
  {
    hide Throttled, Remembered;
    CountDeref(s, id);
    assert Throttled(Drop(s, id), multiset{}) && Remembered(Drop(s, id)) by { SameLists(s, Drop(s, id)); }
    forall x: nat
      ensures Count(Drop(s, id).refs, x) == Held(Drop(s, id), x)
    {
      assert Count(s.refs, x) == Held(s, x);
    }
  }

  lemma CountDeref(s: Service, id: nat)
    requires Exact(s) && Held(s, id) > 0
    ensures Positive(Deref(s.refs, id))
    ensures forall x: nat :: Count(Deref(s.refs, id), x) == Count(s.refs, x) - One(x == id)
  {
    assert Count(s.refs, id) == Held(s, id);
  }

  lemma SameLists(s: Service, t: Service)
    requires t.lim == s.lim && t.at == s.at && t.execs == s.execs && t.hist == s.hist
    ensures Throttled(s, multiset{}) ==> Throttled(t, multiset{})
    ensures Remembered(s) ==> Remembered(t)
  {
  }

  lemma PinKeeps(s: Service, id: nat)
    requires Inv(s)
    ensures Inv(Pin(s, id))
  {
    hide Throttled, Remembered;
    if Known(s.at, id) {
      assert Held(s, id) > 0;
      assert Throttled(Pin(s, id), multiset{}) && Remembered(Pin(s, id)) by { SameLists(s, Pin(s, id)); }
      assert Count(s.refs, id) == Held(s, id);
      forall x: nat
        ensures Count(Pin(s, id).refs, x) == Held(Pin(s, id), x)
      {
        assert Count(s.refs, x) == Held(s, x);
      }
    }
  }

  lemma UnpinKeeps(s: Service, id: nat)
    requires Inv(s) && id in s.pins
    ensures Inv(Unpin(s, id))
  {
    hide Throttled, Remembered;
    CountDeref(s, id);
    assert Throttled(Unpin(s, id), multiset{}) && Remembered(Unpin(s, id)) by { SameLists(s, Unpin(s, id)); }
    forall x: nat
      ensures Count(Unpin(s, id).refs, x) == Held(Unpin(s, id), x)
    {
      assert Count(s.refs, x) == Held(s, x);
    }
  }

  lemma ApplyKeeps(s: Service, op: Op)
    requires Inv(s) && s.lim.long >= 1 && Allowed(s, op)
    ensures Inv(Apply(s, op)) && Apply(s, op).lim == s.lim
  {
    hide Inv, Recorded;
    match op
    case ExecOp(id) => ExecKeeps(s, id);
    case DoneOp(e, bad, w) => DoneKeeps(s, e, bad, w);
    case DropOp(id) => DropKeeps(s, id);
    case PinOp(id) => PinKeeps(s, id);
    case UnpinOp(id) => UnpinKeeps(s, id);
  }

  // ---------------------------------------------------------------- ClearTasksUnlocked

  /** One reference fewer, for a holder that is gone. */
  lemma LetGo(s: Service, t: Service, id: nat)
    requires Exact(s) && t.refs == Deref(s.refs, id)
    requires forall x: nat :: Held(t, x) + One(x == id) == Held(s, x)
    ensures Exact(t)
  {
    hide Held;
    assert Held(t, id) + One(id == id) == Held(s, id);
    CountDeref(s, id);
    forall x: nat
      ensures Count(t.refs, x) == Held(t, x)
    {
      assert Count(s.refs, x) == Held(s, x);
      assert Held(t, x) + One(x == id) == Held(s, x);
    }
  }

  lemma HeadHeld(l: seq<nat>, x: nat)
    requires l != []
    ensures multiset(l)[x] == multiset(l[1..])[x] + One(x == l[0])
  {
    assert l == [l[0]] + l[1..];
  }

  lemma FinishedLetsGo(s: Service)
    requires Exact(s) && s.at.finished != []
    ensures Exact(s.(at := s.at.(finished := s.at.finished[1..]), refs := Deref(s.refs, s.at.finished[0])))
  {
    var t := s.(at := s.at.(finished := s.at.finished[1..]), refs := Deref(s.refs, s.at.finished[0]));
    forall x: nat
      ensures Held(t, x) + One(x == s.at.finished[0]) == Held(s, x)
    {
      HeadHeld(s.at.finished, x);
    }
    LetGo(s, t, s.at.finished[0]);
  }

  lemma FailedLetsGo(s: Service)
    requires Exact(s) && s.at.failed != []
    ensures Exact(s.(at := s.at.(failed := s.at.failed[1..]), refs := Deref(s.refs, s.at.failed[0])))
  {
    var t := s.(at := s.at.(failed := s.at.failed[1..]), refs := Deref(s.refs, s.at.failed[0]));
    forall x: nat
      ensures Held(t, x) + One(x == s.at.failed[0]) == Held(s, x)
    {
      HeadHeld(s.at.failed, x);
    }
    LetGo(s, t, s.at.failed[0]);
  }

  lemma LongLetsGo(s: Service)
    requires Exact(s) && s.at.long != []
    ensures Exact(s.(at := s.at.(long := s.at.long[1..]), refs := Deref(s.refs, s.at.long[0].id)))
  {
    var t := s.(at := s.at.(long := s.at.long[1..]), refs := Deref(s.refs, s.at.long[0].id));
    assert Ids(s.at.long)[1..] == Ids(s.at.long[1..]);
    forall x: nat
      ensures Held(t, x) + One(x == s.at.long[0].id) == Held(s, x)
    {
      HeadHeld(Ids(s.at.long), x);
    }
    LetGo(s, t, s.at.long[0].id);
  }

  lemma NothingHeld(s: Service)
    requires Exact(s) && s.at == Lists([], {}, [], [], []) && s.slots == multiset{} && s.pins == multiset{}
    ensures s.refs == map[]
  {
    forall x: nat
      ensures x !in s.refs
    {
      assert Count(s.refs, x) == Held(s, x);
    }
  }

  // ---------------------------------------------------------------- whole runs

  ghost predicate Next(s: Service, t: Service) {
    exists op :: Allowed(s, op) && t == Apply(s, op)
  }

  ghost predicate IsRun(r: seq<Service>) {
    |r| > 0 && forall i :: 0 <= i < |r| - 1 ==> Next(r[i], r[i + 1])
  }

  ghost predicate Reachable(lim: Limits, s: Service) {
    exists r :: IsRun(r) && r[0] == NewService(lim) && r[|r| - 1] == s
  }

  lemma {:induction false} RunKeeps(r: seq<Service>)
    requires IsRun(r) && Inv(r[0]) && r[0].lim.long >= 1
    ensures Inv(r[|r| - 1]) && r[|r| - 1].lim == r[0].lim
  {
    if |r| > 1 {
      hide Inv, Next;
      RunKeeps(r[..|r| - 1]);
      NextKeeps(r[|r| - 2], r[|r| - 1]);
    }
  }

  lemma NextKeeps(s: Service, t: Service)
    requires Inv(s) && s.lim.long >= 1 && Next(s, t)
    ensures Inv(t) && t.lim == s.lim
  {
    hide Inv, Apply, Allowed;
    var op :| Allowed(s, op) && t == Apply(s, op);
    ApplyKeeps(s, op);
  }

  lemma ReachableInv(lim: Limits, s: Service)
    requires lim.long >= 1 && Reachable(lim, s)
    ensures Inv(s) && s.lim == lim
  {
    var r :| IsRun(r) && r[0] == NewService(lim) && r[|r| - 1] == s;
    NewInv(lim);
    hide Inv, Next;
    RunKeeps(r);
  }

  lemma NewInv(lim: Limits)
    requires lim.long >= 1
    ensures Inv(NewService(lim))
  {
    forall x: nat
      ensures Count(NewService(lim).refs, x) == Held(NewService(lim), x)
    {
    }
  }

  /** Admission control over every run: the throttle holds, no place stays free while a task
      waits, tasks start in the order of admission and each once, and num_exec_request_
      counts the active and the completed ones. */
  lemma StartsInOrder(lim: Limits, s: Service)
    requires lim.long >= 1 && Reachable(lim, s)
    ensures |s.at.active| <= AtLeastZero(lim.active)
    ensures s.at.pending != [] ==> |s.at.active| == AtLeastZero(lim.active)
    ensures s.hist.started <= s.hist.admitted && s.hist.admitted == s.hist.started + s.at.pending
    ensures Unique(s.hist.admitted)
    ensures multiset(s.hist.started) == multiset(s.at.active) + multiset(Ids(s.hist.completed))
    ensures s.execs == |s.at.active| + |s.hist.completed|
  {
    hide Remembered, Exact;
    ReachableInv(lim, s);
    assert |multiset(s.hist.started)| == |s.hist.started|;
    assert |multiset(s.at.active)| == |s.at.active|;
    assert |multiset(Ids(s.hist.completed))| == |s.hist.completed|;
  }

  /** Wait never hangs on lost work: with at least one place, an unfinished task means an
      active one, and every completion brings the end one step closer. */
  lemma WorkDrains(lim: Limits, s: Service, e: Entry, bad: bool, w: seq<Entry>)
    requires lim.long >= 1 && Reachable(lim, s)
    ensures lim.active >= 1 && |s.hist.completed| < |s.hist.admitted| ==> s.at.active != {}
    ensures s.at.pending == [] && s.at.active == {} <==> |s.hist.completed| == |s.hist.admitted|
    ensures e.id in s.at.active ==>
              var t := TaskDone(s, e, bad, w);
              |t.at.active| + |t.at.pending| == |s.at.active| + |s.at.pending| - 1
  {
    StartsInOrder(lim, s);
    hide Remembered, Exact;
    ReachableInv(lim, s);
    if e.id in s.at.active { RestartThrottled(s, e.id); }
  }

  /** The history lists hold the newest completed and failed tasks, newest first, within
      their limits; long_tasks_ is a heap of exactly the slowest ones. */
  lemma HistoryIsRecent(lim: Limits, s: Service)
    requires lim.long >= 1 && Reachable(lim, s)
    ensures Recent(s.at.finished, Ids(s.hist.completed), lim.finished)
    ensures Recent(s.at.failed, s.hist.failures, lim.failed)
    ensures |s.at.finished| <= AtLeastZero(lim.finished) && |s.at.failed| <= AtLeastZero(lim.failed)
    ensures IsHeap(s.at.long) && |s.at.long| <= lim.long
    ensures IsTop(multiset(s.at.long), multiset(s.hist.completed), lim.long)
  {
    hide Throttled, Exact;
    ReachableInv(lim, s);
    assert |multiset(s.at.long)| == |s.at.long|;
  }

  lemma {:induction false} UniqueCount(s: seq<nat>, x: nat)
    requires Unique(s)
    ensures multiset(s)[x] <= 1
  {
    if s != [] {
      var n := |s| - 1;
      assert s == s[..n] + [s[n]];
      UniqueCount(s[..n], x);
      assert s[n] !in s[..n];
    }
  }

  lemma {:induction false} RecentCount(l: seq<nat>, all: seq<nat>, x: nat)
    requires |l| <= |all| && forall i :: 0 <= i < |l| ==> l[i] == all[|all| - 1 - i]
    ensures multiset(l)[x] <= multiset(all)[x]
  {
    if l != [] {
      var n := |all| - 1;
      assert all == all[..n] + [all[n]] && l == [l[0]] + l[1..];
      RecentCount(l[1..], all[..n], x);
    }
  }

  lemma OnePlace(s: Service, id: nat)
    requires Throttled(s, multiset{}) && Remembered(s)
    ensures multiset(s.at.pending)[id] + One(id in s.at.active) + multiset(s.at.finished)[id] <= 1
  {
    UniqueCount(s.hist.admitted, id);
    assert multiset(s.hist.admitted)[id] == multiset(s.hist.started)[id] + multiset(s.at.pending)[id];
    RecentCount(s.at.finished, Ids(s.hist.completed), id);
  }

  /** A task's count is one for its place among pending, active and finished tasks, plus
      one for each other holder; so it is deleted exactly when the last of them lets go. */
  lemma RefcountsExact(lim: Limits, s: Service, id: nat)
    requires lim.long >= 1 && Reachable(lim, s)
    ensures Count(s.refs, id) == Held(s, id) && (id in s.refs <==> Held(s, id) > 0)
    ensures multiset(s.at.pending)[id] + One(id in s.at.active) + multiset(s.at.finished)[id] <= 1
    ensures id in s.at.pending || id in s.at.active ==> id in s.refs
  {
    hide Remembered, Throttled;
    ReachableInv(lim, s);
    assert Count(s.refs, id) == Held(s, id);
    OnePlace(s, id);
  }
}
