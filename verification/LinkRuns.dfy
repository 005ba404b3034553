/**
 Whole runs of many compile tasks over one link queue: mutual exclusion, first-come
 first-served hand-off, no deadlock, and every task done in the end.
 */
module LinkRuns {
  import opened Basics
  import opened TaskMachine
  import opened TaskInvariant
  import opened TaskProgress
  import opened TaskRuns
  import opened LinkQueue

  ghost predicate Advances(s: System, s': System) {
    exists id :: Moves(s, s', id)
  }

  ghost predicate IsSystemRun(r: seq<System>) {
    |r| > 0 && forall i :: 0 <= i < |r| - 1 ==> Advances(r[i], r[i + 1])
  }

  ghost predicate SystemReachable(cfgs: map<nat, Config>, s: System) {
    exists r :: IsSystemRun(r) && r[0] == NewSystem(cfgs) && r[|r| - 1] == s
  }

  predicate AllConsistent(cfgs: map<nat, Config>) {
    forall id :: id in cfgs ==> Consistent(cfgs[id])
  }

  lemma NewSystemInv(cfgs: map<nat, Config>)
    requires AllConsistent(cfgs)
    ensures SystemInv(NewSystem(cfgs))
  {
  }

  lemma AdvanceKeeps(s: System, s': System)
    requires SystemInv(s) && Advances(s, s')
    ensures SystemInv(s')
  {
    hide SystemInv, Step, Replay, PlaceOf, Enabled, Delivers;
    var id :| Moves(s, s', id);
    var e: Event, o: Oracle :| CanStep(s, id, e) && o.front == FindsEmpty(s, id) && s' == SystemStep(s, id, e, o);
    SystemStepKeeps(s, id, e, o);
  }

  lemma {:induction false} SystemRunKeeps(r: seq<System>)
    requires IsSystemRun(r) && SystemInv(r[0])
    ensures SystemInv(r[|r| - 1])
  {
    if |r| > 1 {
      hide SystemInv, Advances;
      SystemRunKeeps(r[..|r| - 1]);
      AdvanceKeeps(r[|r| - 2], r[|r| - 1]);
    }
  }

  lemma ReachableSystemInv(cfgs: map<nat, Config>, s: System)
    requires AllConsistent(cfgs) && SystemReachable(cfgs, s)
    ensures SystemInv(s)
  {
    hide SystemInv;
    var r :| IsSystemRun(r) && r[0] == NewSystem(cfgs) && r[|r| - 1] == s;
    NewSystemInv(cfgs);
    SystemRunKeeps(r);
  }

  predicate InSection(s: System, id: nat) {
    id in s.tasks && PlaceOf(s.tasks[id]) == Holding
  }

  predicate IsFront(l: Line, id: nat) {
    l.queue != [] && l.queue[0] == id
  }

  /** Linking tasks read their inputs one at a time, the one at the front of a queue
      without duplicates; ProcessFileRequest is posted to that one only, and the DCHECK
      that a leaving task is the front never fails. */
  lemma OneAtATime(cfgs: map<nat, Config>, s: System)
    requires AllConsistent(cfgs) && SystemReachable(cfgs, s)
    ensures s.line.ok && Unique(s.line.queue)
    ensures forall a, b :: InSection(s, a) && InSection(s, b) ==> a == b
    ensures forall a :: InSection(s, a) ==> IsFront(s.line, a)
    ensures forall a :: a in s.line.posted ==>
              && IsFront(s.line, a) && s.line.posted == multiset{a}
              && a in s.tasks && PlaceOf(s.tasks[a]) == Waiting
    ensures forall a :: a in s.tasks ==> (a in s.line.queue <==> PlaceOf(s.tasks[a]) != Out)
  {
    hide Inv, Ordered;
    ReachableSystemInv(cfgs, s);
    forall a | InSection(s, a)
      ensures IsFront(s.line, a)
    {
      FrontHolds(s.line, PlacesOf(s), a);
    }
  }

  /** Grants follow the order of arrival, none is repeated and none is overtaken: the
      tasks told to go are exactly the arrivals so far, less those queued behind the front. */
  lemma FirstComeFirstServed(cfgs: map<nat, Config>, s: System)
    requires AllConsistent(cfgs) && SystemReachable(cfgs, s)
    ensures var l := s.line;
            && |l.granted| == |l.entered| - (if l.queue == [] then 0 else |l.queue| - 1)
            && l.granted <= l.entered
            && l.entered == l.granted + (if l.queue == [] then [] else l.queue[1..])
    ensures forall a :: a in s.tasks ==>
              && multiset(s.line.entered)[a] == s.tasks[a].pipe.pushes
              && s.tasks[a].pipe.pushes == s.tasks[a].pipe.pops + if a in s.line.queue then 1 else 0
  {
    hide Inv, Ordered, PlaceOf;
    ReachableSystemInv(cfgs, s);
    OrderedLine(s.line);
    forall a | a in s.tasks
      ensures s.tasks[a].pipe.pushes == s.tasks[a].pipe.pops + if a in s.line.queue then 1 else 0
    {
      InvQueued(s.tasks[a]);
      assert PlacesOf(s)[a] == PlaceOf(s.tasks[a]);
    }
  }

  lemma OrderedLine(l: Line)
    requires Ordered(l)
    ensures |l.granted| == |l.entered| - (if l.queue == [] then 0 else |l.queue| - 1)
    ensures l.granted <= l.entered
    ensures l.entered == l.granted + (if l.queue == [] then [] else l.queue[1..])
  {
    var n := |l.entered| - |l.queue|;
    assert l.entered == l.entered[..n] + l.queue;
  }

  lemma InvQueued(t: Task)
    requires Inv(t)
    ensures t.pipe.pushes == t.pipe.pops + if PlaceOf(t) != Out then 1 else 0
  {
  }

  // ---------------------------------------------------------------- no deadlock

  ghost predicate SystemStuck(s: System) {
    forall id, e :: !CanStep(s, id, e)
  }

  predicate AllDone(s: System) {
    forall id :: id in s.tasks ==> s.tasks[id].log.dones > 0
  }

  lemma OnTheMove(t: Task)
    requires Inv(t) && t.pipe.remote != Idle
    ensures Enabled(t, RemoteEvent)
  {
  }

  lemma TaskEnabled(t: Task)
    requires Inv(t) && t.log.dones == 0
    ensures exists e :: Enabled(t, e) && (t.pipe.remote != Idle ==> e == RemoteEvent)
  {
    if t.pipe.remote != Idle {
      OnTheMove(t);
      assert Enabled(t, RemoteEvent);
    } else if !t.started {
      assert Enabled(t, StartTask);
    } else if t.loc.subproc {
      assert Enabled(t, SubprocDone);
    } else {
      assert Enabled(t, Upload);
    }
  }

  /** A queue is never stuck: its front runs, or has been told to. */
  lemma FrontMoves(s: System)
    requires SystemInv(s) && s.line.queue != []
    ensures CanStep(s, s.line.queue[0], RemoteEvent)
  {
    hide Inv, Ordered, Enabled;
    var f := s.line.queue[0];
    assert PlacesOf(s)[f] == PlaceOf(s.tasks[f]);
    OnTheMove(s.tasks[f]);
  }

  lemma NoDeadlock(s: System)
    requires SystemInv(s) && !AllDone(s)
    ensures exists id, e :: CanStep(s, id, e)
  {
    hide Inv, Enabled, LineInv;
    if s.line.queue != [] {
      FrontMoves(s);
    } else {
      var id :| id in s.tasks && s.tasks[id].log.dones == 0;
      TaskEnabled(s.tasks[id]);
      var e :| Enabled(s.tasks[id], e) && (s.tasks[id].pipe.remote != Idle ==> e == RemoteEvent);
      NobodyWaits(s, id);
      assert CanStep(s, id, e);
    }
  }

  lemma NobodyWaits(s: System, id: nat)
    requires SystemInv(s) && s.line.queue == [] && id in s.tasks
    ensures PlaceOf(s.tasks[id]) == Out && s.line.ok
  {
    assert PlacesOf(s)[id] == PlaceOf(s.tasks[id]);
  }

  // ---------------------------------------------------------------- every task is done in the end

  /** Steps of the tasks, in any interleaving and with any pauses. */
  ghost predicate Interleaving(cfgs: map<nat, Config>, run: nat -> System) {
    && run(0) == NewSystem(cfgs)
    && forall i: nat :: Advances(run(i), run(i + 1)) || run(i + 1) == run(i)
  }

  /** An execution that never withholds every outstanding event of every task. */
  ghost predicate SystemExecution(cfgs: map<nat, Config>, run: nat -> System) {
    && Interleaving(cfgs, run)
    && forall i: nat :: SystemStuck(run(i)) || Advances(run(i), run(i + 1))
  }

  lemma {:induction false} InterleavingKeeps(cfgs: map<nat, Config>, run: nat -> System, i: nat)
    requires AllConsistent(cfgs) && Interleaving(cfgs, run)
    ensures SystemInv(run(i)) && run(i).tasks.Keys == cfgs.Keys
  {
    hide SystemInv, Advances;
    if i == 0 {
      NewSystemInv(cfgs);
    } else {
      hide Interleaving;
      InterleavingKeeps(cfgs, run, i - 1);
      InterleavingSteps(cfgs, run, i - 1);
      if Advances(run(i - 1), run(i)) {
        AdvanceKeeps(run(i - 1), run(i));
        AdvanceSameTasks(run(i - 1), run(i));
      }
    }
  }

  lemma AdvanceSameTasks(s: System, s': System)
    requires Advances(s, s')
    ensures s'.tasks.Keys == s.tasks.Keys
  {
    hide Step, Replay, PlaceOf, Enabled;
    var id :| Moves(s, s', id);
    var e: Event, o: Oracle :| CanStep(s, id, e) && o.front == FindsEmpty(s, id) && s' == SystemStep(s, id, e, o);
  }

  /** Task id does not move from step i on. */
  ghost predicate Quiet(run: nat -> System, id: nat, i: nat) {
    forall k: nat :: k >= i ==> !Moves(run(k), run(k + 1), id)
  }

  lemma OthersStay(s: System, s': System, id: nat)
    requires Advances(s, s') && !Moves(s, s', id) && id in s.tasks
    ensures id in s'.tasks && s'.tasks[id] == s.tasks[id]
  {
    hide Step, Replay, PlaceOf, Enabled;
    var a :| Moves(s, s', a);
    var e: Event, o: Oracle :| CanStep(s, a, e) && o.front == FindsEmpty(s, a) && s' == SystemStep(s, a, e, o);
  }

  lemma {:induction false} StaysUntil(cfgs: map<nat, Config>, run: nat -> System, id: nat, i: nat, k: nat)
    requires AllConsistent(cfgs) && Interleaving(cfgs, run) && id in cfgs && i <= k
    requires Rests(run, id, i, k)
    ensures id in run(i).tasks && id in run(k).tasks && run(k).tasks[id] == run(i).tasks[id]
    decreases k - i
  {
    hide Advances, Moves, SystemInv, Interleaving, Rests;
    InterleavingKeeps(cfgs, run, i);
    if i < k {
      RestsBefore(run, id, i, k);
      StaysUntil(cfgs, run, id, i, k - 1);
      InterleavingSteps(cfgs, run, k - 1);
      if Advances(run(k - 1), run(k)) {
        OthersStay(run(k - 1), run(k), id);
      }
    }
  }

  /** Task id does not move from step i up to step k. */
  ghost predicate Rests(run: nat -> System, id: nat, i: nat, k: nat) {
    forall j: nat :: i <= j < k ==> !Moves(run(j), run(j + 1), id)
  }

  lemma RestsBefore(run: nat -> System, id: nat, i: nat, k: nat)
    requires Rests(run, id, i, k) && i < k
    ensures Rests(run, id, i, k - 1) && !Moves(run(k - 1), run(k), id)
  {
    hide Moves;
    assert !Moves(run(k - 1), run(k - 1 + 1), id);
  }

  lemma InterleavingSteps(cfgs: map<nat, Config>, run: nat -> System, i: nat)
    requires Interleaving(cfgs, run)
    ensures Advances(run(i), run(i + 1)) || run(i + 1) == run(i)
  {
    hide Advances;
  }

  lemma MoverDescends(s: System, s': System, id: nat)
    requires SystemInv(s) && Moves(s, s', id)
    ensures id in s.tasks && id in s'.tasks && Descends(s.tasks[id], s'.tasks[id])
  {
    hide Step, Replay, PlaceOf, Inv, LineInv, Descends, FindsEmpty, Delivers;
    var e: Event, o: Oracle :| CanStep(s, id, e) && o.front == FindsEmpty(s, id) && s' == SystemStep(s, id, e, o);
    StepDescends(s.tasks[id], e, o);
  }

  /** The first step from i on at which the task moves. */
  lemma {:induction false} FirstMove(run: nat -> System, id: nat, i: nat, k: nat) returns (j: nat)
    requires i <= k && Moves(run(k), run(k + 1), id)
    ensures i <= j <= k && Moves(run(j), run(j + 1), id)
    ensures Rests(run, id, i, j)
    decreases k - i
  {
    hide Moves;
    if Moves(run(i), run(i + 1), id) {
      j := i;
    } else {
      j := FirstMove(run, id, i + 1, k);
    }
  }

  /** A task moves only finitely often, however its steps interleave with the others'. */
  lemma {:induction false} FallsQuiet(cfgs: map<nat, Config>, run: nat -> System, id: nat, i: nat, t: Task)
    returns (j: nat)
    requires AllConsistent(cfgs) && Interleaving(cfgs, run) && id in cfgs
    requires id in run(i).tasks && run(i).tasks[id] == t
    ensures Quiet(run, id, j)
    decreases Ahead(t), RetriesLeft(t), Weight(t.pipe.remote), Reports(t),
              One(t.loc.delayed), One(t.loc.subproc), Uploads(t), One(t.fact.closable)
  {
    hide Moves, SystemInv, Interleaving;
    if Quiet(run, id, i) {
      j := i;
    } else {
      var k: nat :| k >= i && Moves(run(k), run(k + 1), id);
      var m := FirstMove(run, id, i, k);
      StaysUntil(cfgs, run, id, i, m);
      InterleavingKeeps(cfgs, run, m);
      MoverDescends(run(m), run(m + 1), id);
      j := FallsQuiet(cfgs, run, id, m + 1, run(m + 1).tasks[id]);
    }
  }

  lemma {:induction false} AllFallQuiet(cfgs: map<nat, Config>, run: nat -> System, ids: set<nat>) returns (j: nat)
    requires AllConsistent(cfgs) && Interleaving(cfgs, run) && ids <= cfgs.Keys
    ensures forall id :: id in ids ==> Quiet(run, id, j)
    decreases ids
  {
    hide Moves, SystemInv, Interleaving;
    if ids == {} {
      j := 0;
    } else {
      var id :| id in ids;
      var a := AllFallQuiet(cfgs, run, ids - {id});
      InterleavingKeeps(cfgs, run, 0);
      var b := FallsQuiet(cfgs, run, id, 0, run(0).tasks[id]);
      j := if a < b then b else a;
      QuietLater(run, id, b, j);
      forall x | x in ids - {id}
        ensures Quiet(run, x, j)
      {
        QuietLater(run, x, a, j);
      }
    }
  }

  lemma QuietLater(run: nat -> System, id: nat, i: nat, j: nat)
    requires Quiet(run, id, i) && i <= j
    ensures Quiet(run, id, j)
  {
  }

  /** Every execution of every set of tasks over the shared queue comes to an end in which
      each task has answered its gomacc exactly once and is done, the queue is empty, and
      every arrival was granted once, in order. */
  lemma EveryTaskIsDone(cfgs: map<nat, Config>, run: nat -> System)
    requires AllConsistent(cfgs) && SystemExecution(cfgs, run)
    ensures exists j: nat :: Settles(cfgs, run(j))
  {
    var j := AllFallQuiet(cfgs, run, cfgs.Keys);
    InterleavingKeeps(cfgs, run, j);
    assert SystemStuck(run(j)) by { QuietIsStuck(cfgs, run, j); }
    hide SystemExecution;
    assert AllDone(run(j)) by {
      if !AllDone(run(j)) { NoDeadlock(run(j)); }
    }
    hide SystemStuck;
    DoneSettles(cfgs, run(j));
  }

  ghost predicate Settles(cfgs: map<nat, Config>, s: System) {
    && s.tasks.Keys == cfgs.Keys && s.line.ok && SystemStuck(s)
    && s.line.queue == [] && s.line.granted == s.line.entered && s.line.posted == multiset{}
    && forall id :: id in s.tasks ==>
         s.tasks[id].ok && s.tasks[id].log.dones == 1 && s.tasks[id].log.replies == 1
  }

  lemma QuietIsStuck(cfgs: map<nat, Config>, run: nat -> System, j: nat)
    requires SystemExecution(cfgs, run) && run(j).tasks.Keys == cfgs.Keys
    requires forall id :: id in cfgs.Keys ==> Quiet(run, id, j)
    ensures SystemStuck(run(j))
  {
    var s, s' := run(j), run(j + 1);
    forall id
      ensures !Moves(s, s', id)
    {
      if id in cfgs.Keys { assert Quiet(run, id, j); }
    }
    assert !Advances(s, s');
    assert SystemStuck(s) || Advances(s, s');
  }

  lemma DoneSettles(cfgs: map<nat, Config>, s: System)
    requires SystemInv(s) && SystemStuck(s) && AllDone(s) && s.tasks.Keys == cfgs.Keys
    ensures Settles(cfgs, s)
  {
    hide Inv, CanStep;
    forall id | id in s.tasks
      ensures s.tasks[id].ok && s.tasks[id].log.dones == 1 && s.tasks[id].log.replies == 1
      ensures PlaceOf(s.tasks[id]) == Out
    {
      DoneOnce(s.tasks[id]);
    }
    forall id
      ensures id !in s.line.queue
    {
      if id in s.tasks { assert PlacesOf(s)[id] == Out; }
    }
  }

  lemma DoneOnce(t: Task)
    requires Inv(t) && t.log.dones > 0
    ensures t.ok && t.log.dones == 1 && t.log.replies == 1 && PlaceOf(t) == Out
  {
  }
}
