/**
 link_file_req_tasks_: the queue through which linking tasks take turns at reading their
 input files (client/compile_task.cc). TryProcessFileRequest joins it and starts at once
 when alone; ProcessPendingFileRequest leaves it and posts ProcessFileRequest to the next.

 The second half composes any number of compile tasks over this one queue: every task
 runs the machine of TaskMachine, and whether it finds itself at the front is no longer
 an outside choice but what the queue says.
 */
module LinkQueue {
  import opened Basics
  import opened TaskMachine
  import opened TaskInvariant
  import opened TaskProgress
  import opened TaskRuns

  /** Where a task stands: not queued, queued behind another, or in the section. */
  datatype Place = Out | Waiting | Holding

  type Places = map<nat, Place>

  /** The queue, with what an observer records about it. */
  datatype Line = Line(
    queue: seq<nat>,
    entered: seq<nat>,       // every push_back, in order
    granted: seq<nat>,       // every task told to run ProcessFileRequest, in order
    posted: multiset<nat>,   // ProcessFileRequest closures not yet run
    ok: bool)                // DCHECK_EQ(this, front()) has held so far

  const NoLine := Line([], [], [], multiset{}, true)

  /** push_back; whoever finds the queue empty goes on at once. */
  function Push(l: Line, id: nat): Line {
    l.(queue := l.queue + [id], entered := l.entered + [id],
       granted := if l.queue == [] then l.granted + [id] else l.granted)
  }

  /** ProcessPendingFileRequest. */
  function Pop(l: Line, id: nat): Line {
    if l.queue == [] || l.queue[0] != id then
      l.(ok := false)
    else if |l.queue| == 1 then
      l.(queue := [])
    else
      l.(queue := l.queue[1..], granted := l.granted + [l.queue[1]],
         posted := l.posted + multiset{l.queue[1]})
  }

  /** The posted closure starts to run. */
  function Wake(l: Line, id: nat): Line {
    l.(posted := l.posted - multiset{id})
  }

  /** The queue operations of one handler run. A task is never queued twice, so the
      numbers of its pushes and pops and where it began determine their order. */
  function Replay(l: Line, id: nat, queued: bool, pushes: nat, pops: nat): Line
    decreases pushes + pops
  {
    if queued then
      if pops == 0 then l else Replay(Pop(l, id), id, false, pushes, pops - 1)
    else
      if pushes == 0 then l else Replay(Push(l, id), id, true, pushes - 1, pops)
  }

  // ---------------------------------------------------------------- the queue as an object

  class LinkFileReqTasks {
    var line: Line

    constructor ()
      ensures line == NoLine
    {
      line := NoLine;
    }

    /** TryProcessFileRequest under global_mu_: whether the caller may go on. */
    method Join(id: nat) returns (front: bool)
      modifies this
      ensures line == Push(old(line), id)
      ensures front <==> old(line.queue) == []
      ensures id !in old(line.queue) ==> (front <==> line.queue[0] == id)
    {
      front := line.queue == [];
      line := line.(queue := line.queue + [id], entered := line.entered + [id]);
      if front {
        line := line.(granted := line.granted + [id]);
      }
    }

    /** ProcessPendingFileRequest under global_mu_: the task to be woken, if any. */
    method Leave(id: nat) returns (woken: seq<nat>)
      requires line.queue != [] && line.queue[0] == id
      modifies this
      ensures line == Pop(old(line), id)
      ensures woken == line.queue[..if |line.queue| > 0 then 1 else 0]
      ensures line.granted == old(line.granted) + woken
    {
      line := line.(queue := line.queue[1..]);
      woken := [];
      if line.queue != [] {
        woken := [line.queue[0]];
        line := line.(granted := line.granted + woken, posted := line.posted + multiset{line.queue[0]});
      }
    }
  }

  // ---------------------------------------------------------------- what every operation keeps

  /** How many tasks have been told to go: all that left, and the front. */
  function Told(l: Line): int {
    |l.entered| - |l.queue| + (if l.queue == [] then 0 else 1)
  }

  predicate Ordered(l: Line) {
    && |l.queue| <= |l.entered|
    && l.queue == l.entered[|l.entered| - |l.queue|..]
    && l.granted == l.entered[..Told(l)]
  }

  ghost predicate LineInv(l: Line, p: Places) {
    && l.ok && Unique(l.queue) && Ordered(l)
    && (forall id :: id in l.queue ==> id in p)
    && (forall id :: id in p ==> (id in l.queue <==> p[id] != Out))
    && (forall i :: 0 < i < |l.queue| ==> p[l.queue[i]] == Waiting)
    && l.posted == (if l.queue != [] && p[l.queue[0]] == Waiting then multiset{l.queue[0]} else multiset{})
  }

  lemma PushOrdered(l: Line, id: nat)
    requires Ordered(l)
    ensures Ordered(Push(l, id))
  {
    var m := Push(l, id);
    var n := |l.entered| - |l.queue|;
    assert l.entered == l.entered[..n] + l.queue;
    assert m.entered == l.entered[..n] + m.queue;
    assert m.granted == m.entered[..Told(m)];
  }

  lemma PopOrdered(l: Line, id: nat)
    requires Ordered(l) && l.queue != [] && l.queue[0] == id
    ensures Ordered(Pop(l, id))
  {
    var m := Pop(l, id);
    assert m.queue == m.entered[|m.entered| - |m.queue|..];
    if |l.queue| > 1 {
      assert l.queue[1] == l.entered[|l.entered| - |l.queue| + 1];
      assert m.granted == m.entered[..Told(m)];
    }
  }

  lemma PushKeeps(l: Line, p: Places, id: nat)
    requires LineInv(l, p) && id in p && p[id] == Out
    ensures LineInv(Push(l, id), p[id := if l.queue == [] then Holding else Waiting])
  {
    hide Ordered;
    PushOrdered(l, id);
    var m := Push(l, id);
    assert m.queue == l.queue + [id];
    if l.queue != [] {
      assert m.queue[0] == l.queue[0];
      forall i | 0 < i < |l.queue|
        ensures p[m.queue[i]] == Waiting
      {
        assert m.queue[i] == l.queue[i];
      }
    }
  }

  /** Only the front holds the section, so the DCHECK holds and exactly the next is woken. */
  lemma PopKeeps(l: Line, p: Places, id: nat)
    requires LineInv(l, p) && id in p && p[id] == Holding
    ensures l.queue != [] && l.queue[0] == id
    ensures LineInv(Pop(l, id), p[id := Out])
  {
    hide Ordered, Unique;
    var m := Pop(l, id);
    FrontHolds(l, p, id);
    PopOrdered(l, id);
    UniqueTail(l.queue);
    assert m.queue == l.queue[1..];
    if m.queue != [] {
      assert m.queue[0] == l.queue[1];
      assert p[l.queue[1]] == Waiting;
      forall i | 0 < i < |m.queue|
        ensures p[m.queue[i]] == Waiting
      {
        assert m.queue[i] == l.queue[i + 1];
      }
    }
  }

  lemma FrontHolds(l: Line, p: Places, id: nat)
    requires LineInv(l, p) && id in p && p[id] == Holding
    ensures l.queue != [] && l.queue[0] == id
  {
    var i :| 0 <= i < |l.queue| && l.queue[i] == id;
  }

  lemma UniqueTail(s: seq<nat>)
    requires Unique(s) && s != []
    ensures Unique(s[1..]) && s[0] !in s[1..]
    ensures forall x :: x in s <==> x == s[0] || x in s[1..]
  {
    assert s == [s[0]] + s[1..];
  }

  lemma WakeKeeps(l: Line, p: Places, id: nat)
    requires LineInv(l, p) && id in l.posted
    ensures l.queue != [] && l.queue[0] == id && id in p && p[id] == Waiting
    ensures LineInv(Wake(l, id), p[id := Holding])
  {
    hide Ordered;
    assert Ordered(Wake(l, id)) by { WakeOrdered(l, id); }
    assert Wake(l, id).posted == multiset{};
  }

  lemma WakeOrdered(l: Line, id: nat)
    requires Ordered(l)
    ensures Ordered(Wake(l, id))
  {
  }

  // ---------------------------------------------------------------- one handler run, seen by the queue

  function PlaceOf(t: Task): Place {
    if !t.cfg.linking then Out
    else if t.pipe.remote == AwaitLink then Waiting
    else if t.pipe.remote == AwaitInputs then Holding
    else Out
  }

  function Grown(a: nat, b: nat): nat {
    if a <= b then b - a else 0
  }

  /** What a task outside the queue may do next: stay out, pass through or hold the
      section when it finds itself alone, or line up. */
  predicate Joins(pushes: nat, pops: nat, place: Place, front: bool) {
    || (pushes == 0 && pops == 0 && place == Out)
    || (pushes == 1 && pops == 0 && place == (if front then Holding else Waiting))
    || (pushes == 1 && pops == 1 && place == Out && front)
  }

  /** A task holding the section keeps it, or leaves and goes on from outside. */
  predicate Holds(pushes: nat, pops: nat, place: Place, front: bool) {
    || (pushes == 0 && pops == 0 && place == Holding)
    || (pops > 0 && Joins(pushes, pops - 1, place, front))
  }

  predicate Queues(before: Place, pushes: nat, pops: nat, after: Place, front: bool) {
    if before == Out then Joins(pushes, pops, after, front) else Holds(pushes, pops, after, front)
  }

  lemma HandledQueues(p: Pipe, q: Pipe, front: bool)
    requires Handled(p, q, true, front) && p.remote != Idle
    ensures p.pushes <= q.pushes && p.pops <= q.pops
    ensures var out := p.remote != AwaitLink && p.remote != AwaitInputs;
            var place := if q.remote == AwaitLink then Waiting else if q.remote == AwaitInputs then Holding else Out;
            if out then Joins(q.pushes - p.pushes, q.pops - p.pops, place, front)
            else Holds(q.pushes - p.pushes, q.pops - p.pops, place, front)
  {
  }

  lemma HandledApart(p: Pipe, q: Pipe, front: bool)
    requires Handled(p, q, false, front)
    ensures p.pushes == q.pushes && p.pops == q.pops
  {
  }

  /** Only remote events touch the queue. */
  predicate Aloof(t: Task, u: Task) {
    && u.cfg == t.cfg && u.pipe.pushes == t.pipe.pushes && u.pipe.pops == t.pipe.pops
    && (u.pipe.remote == t.pipe.remote || (t.pipe.remote == Idle && u.pipe.remote == AwaitInfo))
  }

  lemma SetupAloof(t: Task, o: Oracle)
    requires t.pipe.remote == Idle
    ensures Aloof(t, ProcessSetup(t, o))
  {
    hide ShouldStopGoma;
  }

  lemma RaceAloof(t: Task, o: Oracle)
    requires t.pipe.remote == Idle
    ensures Aloof(t, StartRace(SetupRace(t, o), o))
  {
    hide ShouldStopGoma, ProcessSetup, SetupRace;
    SetupRaceStill(t, o);
    SetupAloof(SetupRace(t, o), o);
  }

  lemma SetupRaceStill(t: Task, o: Oracle)
    ensures SetupRace(t, o).pipe == t.pipe && SetupRace(t, o).cfg == t.cfg
  {
  }

  lemma StartAloof(t: Task, o: Oracle)
    requires t.pipe.remote == Idle && t.ctl.phase == Init
    ensures Aloof(t, Start(t, o))
  {
    hide StartWith;
    StartWithAloof(
      t.(started := true,
         fact := t.fact.(closable := true, gomacc := o.hasPid, success := !o.startFails && o.copied),
         loc := t.loc.(wantFallback := t.cfg.fallback,
                       shouldFallback := !o.startFails && o.wantsFallback && !t.cfg.verifyCommand)), o);
  }

  lemma StartWithAloof(t: Task, o: Oracle)
    requires t.pipe.remote == Idle && t.ctl.phase == Init
    ensures Aloof(t, StartWith(t, o))
  {
    hide ProcessFinished, StartRace, SetupRace;
    if o.startFails {
      InitFinishedStill(t, o);
    } else if !t.cfg.verify && !t.loc.shouldFallback && !o.rampedDown {
      RaceAloof(t, o);
    }
  }

  lemma InitFinishedStill(t: Task, o: Oracle)
    requires t.ctl.phase == Init
    ensures ProcessFinished(t, o, false).pipe == t.pipe && ProcessFinished(t, o, false).cfg == t.cfg
  {
    hide ReplyResponse;
    var u := Check(t, && Rank(t.ctl.phase) < Rank(Finished) && !t.ctl.finished
                      && (false && !Stopped(t) ==> t.fact.success && t.ctl.phase == FileResp))
             .(ctl := t.ctl.(finished := true));
    ReplyStill(To(Check(u, !t.loc.subproc && !t.loc.delayed && !t.ctl.abort), Finished), InitFailure);
  }

  lemma SubprocAloof(t: Task, o: Oracle)
    requires Settled(t) && t.loc.subproc
    ensures Aloof(t, FinishSubProcess(t, o))
  {
    hide FinishSubProcess;
    if t.cfg.verify && !t.loc.shouldFallback {
      VerifyAloof(t, o);
    } else {
      SubprocGone(t, o);
    }
  }

  lemma VerifyAloof(t: Task, o: Oracle)
    requires t.loc.subproc && t.cfg.verify && !t.loc.shouldFallback && t.ctl.phase == Init
    requires t.pipe.remote == Idle && !t.ctl.abort
    ensures Aloof(t, FinishSubProcess(t, o))
  {
    hide FinishSubProcess, LocalFinish;
    FinishSubProcessIs(t, o);
    VerifiedAloof(t.(loc := t.loc.(subproc := false, run := t.loc.run || o.procStarted),
                     fact := t.fact.(success := t.fact.success && !Broken(o))), o);
  }

  lemma VerifiedAloof(t: Task, o: Oracle)
    requires t.cfg.verify && !t.loc.shouldFallback && t.ctl.phase == Init && t.pipe.remote == Idle
    ensures Aloof(t, LocalFinish(t, o))
  {
    hide ProcessSetup;
    SetupAloof(SetSuccess(t, o.status == 0), o);
  }

  lemma OthersAloof(t: Task, e: Event, o: Oracle)
    requires Inv(t) && Enabled(t, e) && e != RemoteEvent
    ensures Aloof(t, Step(t, e, o))
  {
    hide Settled, Start, FinishSubProcess, SetupSubProcess, UploadStep, GomaccClosed;
    if Settled(t) { SettledStarted(t); }
    match e
    case StartTask => StartAloof(t, o);
    case SubprocDone => SubprocAloof(t, o);
    case DelayedSetup => assert Aloof(t, SetupSubProcess(t)) by { DelayedAloof(t); }
    case Upload => UploadAloof(t);
    case GomaccClose => ClosedAloof(t, o);
  }

  lemma DelayedAloof(t: Task)
    ensures Aloof(t, SetupSubProcess(t))
  {
  }

  lemma UploadAloof(t: Task)
    ensures Aloof(t, UploadStep(t))
  {
  }

  lemma ClosedAloof(t: Task, o: Oracle)
    ensures Aloof(t, GomaccClosed(t, o))
  {
  }

  predicate Delivers(t: Task, e: Event) {
    e == RemoteEvent && PlaceOf(t) == Waiting
  }

  /** A queued task sleeps until it is woken; otherwise it follows the pattern above. */
  predicate Behaves(t: Task, u: Task, woken: bool, front: bool) {
    && t.pipe.pushes <= u.pipe.pushes && t.pipe.pops <= u.pipe.pops
    && if PlaceOf(t) == Waiting && !woken then
         PlaceOf(u) == Waiting && u.pipe.pushes == t.pipe.pushes && u.pipe.pops == t.pipe.pops
       else
         Queues(PlaceOf(t), u.pipe.pushes - t.pipe.pushes, u.pipe.pops - t.pipe.pops, PlaceOf(u), front)
  }

  lemma StepQueues(t: Task, e: Event, o: Oracle)
    requires Inv(t) && Enabled(t, e)
    ensures Step(t, e, o).cfg == t.cfg
    ensures Behaves(t, Step(t, e, o), Delivers(t, e), o.front)
  {
    hide Start, RemoteStep, FinishSubProcess, SetupSubProcess, UploadStep, GomaccClosed;
    var u := Step(t, e, o);
    if e == RemoteEvent {
      hide Handled;
      RemoteStepMoves(t, o);
      if t.cfg.linking {
        HandledQueues(t.pipe, u.pipe, o.front);
      } else {
        HandledApart(t.pipe, u.pipe, o.front);
      }
    } else {
      OthersAloof(t, e, o);
    }
  }

  // ---------------------------------------------------------------- many tasks, one queue

  datatype System = System(tasks: map<nat, Task>, line: Line)

  function NewSystem(cfgs: map<nat, Config>): System {
    System(map id | id in cfgs :: NewTask(cfgs[id]), NoLine)
  }

  /** A queued task takes no remote event before it is woken. */
  predicate CanStep(s: System, id: nat, e: Event) {
    && id in s.tasks && s.line.ok && Enabled(s.tasks[id], e)
    && (Delivers(s.tasks[id], e) ==> id in s.line.posted)
  }

  function LineAt(l: Line, id: nat, t: Task, e: Event): Line {
    if Delivers(t, e) then Wake(l, id) else l
  }

  /** Whether a push_back in this handler run would find the queue empty. */
  predicate FindsEmpty(s: System, id: nat)
    requires id in s.tasks
  {
    if PlaceOf(s.tasks[id]) == Out then s.line.queue == [] else |s.line.queue| <= 1
  }

  function SystemStep(s: System, id: nat, e: Event, o: Oracle): System
    requires id in s.tasks
  {
    var t := s.tasks[id];
    var u := Step(t, e, o);
    System(s.tasks[id := u],
           Replay(LineAt(s.line, id, t, e), id, PlaceOf(t) != Out,
                  Grown(t.pipe.pushes, u.pipe.pushes), Grown(t.pipe.pops, u.pipe.pops)))
  }

  /** One handler run of task id; the queue decides what it sees at the front. */
  ghost predicate Moves(s: System, s': System, id: nat) {
    exists e: Event, o: Oracle :: CanStep(s, id, e) && o.front == FindsEmpty(s, id) && s' == SystemStep(s, id, e, o)
  }

  function PlacesOf(s: System): Places {
    map id | id in s.tasks :: PlaceOf(s.tasks[id])
  }

  ghost predicate SystemInv(s: System) {
    && (forall id :: id in s.tasks ==> Inv(s.tasks[id]))
    && LineInv(s.line, PlacesOf(s))
    && (forall id :: id in s.tasks ==> multiset(s.line.entered)[id] == s.tasks[id].pipe.pushes)
  }

  /** From outside the queue. */
  lemma JoinsKeeps(l: Line, p: Places, id: nat, pushes: nat, pops: nat, after: Place, front: bool)
    requires LineInv(l, p) && id in p && p[id] == Out
    requires Joins(pushes, pops, after, front) && front == (l.queue == [])
    ensures LineInv(Replay(l, id, false, pushes, pops), p[id := after])
    ensures Replay(l, id, false, pushes, pops).entered == l.entered + if pushes == 0 then [] else [id]
  {
    hide LineInv;
    if pushes == 0 {
      assert p[id := Out] == p;
    } else {
      var q := p[id := if l.queue == [] then Holding else Waiting];
      PushKeeps(l, p, id);
      if pops == 1 {
        PopKeeps(Push(l, id), q, id);
        assert q[id := Out] == p[id := Out];
      }
    }
  }

  /** From inside the section. */
  lemma HoldsKeeps(l: Line, p: Places, id: nat, pushes: nat, pops: nat, after: Place, front: bool)
    requires LineInv(l, p) && id in p && p[id] == Holding
    requires Holds(pushes, pops, after, front) && front == (|l.queue| <= 1)
    ensures LineInv(Replay(l, id, true, pushes, pops), p[id := after])
    ensures Replay(l, id, true, pushes, pops).entered == l.entered + if pushes == 0 then [] else [id]
  {
    hide LineInv;
    if pops == 0 {
      assert p[id := Holding] == p;
    } else {
      PopKeeps(l, p, id);
      JoinsKeeps(Pop(l, id), p[id := Out], id, pushes, pops - 1, after, front);
      assert p[id := Out][id := after] == p[id := after];
    }
  }

  lemma LineStepKeeps(l: Line, p: Places, id: nat, t: Task, u: Task, woken: bool, front: bool)
    requires LineInv(l, p) && id in p && p[id] == PlaceOf(t) && Behaves(t, u, woken, front)
    requires woken ==> id in l.posted
    requires front == if PlaceOf(t) == Out then l.queue == [] else |l.queue| <= 1
    ensures var m := Replay(if woken then Wake(l, id) else l, id, PlaceOf(t) != Out,
                            u.pipe.pushes - t.pipe.pushes, u.pipe.pops - t.pipe.pops);
            && LineInv(m, p[id := PlaceOf(u)])
            && m.entered == l.entered + (if u.pipe.pushes == t.pipe.pushes then [] else [id])
            && u.pipe.pushes <= t.pipe.pushes + 1
  {
    hide LineInv, PlaceOf, Wake, Replay;
    var pushes, pops := u.pipe.pushes - t.pipe.pushes, u.pipe.pops - t.pipe.pops;
    if woken {
      WakeKeeps(l, p, id);
      WakeSame(l, id);
      HoldsKeeps(Wake(l, id), p[id := Holding], id, pushes, pops, PlaceOf(u), front);
      assert p[id := Holding][id := PlaceOf(u)] == p[id := PlaceOf(u)];
    } else if PlaceOf(t) == Waiting {
      assert p[id := Waiting] == p;
      ReplayNothing(l, id, true);
    } else if PlaceOf(t) == Out {
      JoinsKeeps(l, p, id, pushes, pops, PlaceOf(u), front);
    } else {
      HoldsKeeps(l, p, id, pushes, pops, PlaceOf(u), front);
    }
  }

  lemma WakeSame(l: Line, id: nat)
    ensures Wake(l, id).queue == l.queue && Wake(l, id).entered == l.entered
  {
  }

  lemma ReplayNothing(l: Line, id: nat, queued: bool)
    ensures Replay(l, id, queued, 0, 0) == l
  {
  }

  lemma SystemStepKeeps(s: System, id: nat, e: Event, o: Oracle)
    requires SystemInv(s) && CanStep(s, id, e) && o.front == FindsEmpty(s, id)
    ensures SystemInv(SystemStep(s, id, e, o))
  {
    hide Step, Inv, LineInv, Behaves, Settled, PlaceOf, Replay, Enabled, Delivers, FindsEmpty;
    var t := s.tasks[id];
    var u := Step(t, e, o);
    StepKeeps(t, e, o);
    StepQueues(t, e, o);
    SettledIsInv(u);
    BehavesKeeps(s, id, u, Delivers(t, e), o.front);
    BehavesGrows(t, u, Delivers(t, e), o.front);
  }

  lemma BehavesKeeps(s: System, id: nat, u: Task, woken: bool, front: bool)
    requires SystemInv(s) && id in s.tasks && Behaves(s.tasks[id], u, woken, front)
    requires woken ==> id in s.line.posted
    requires front == FindsEmpty(s, id) && Inv(u)
    ensures var t := s.tasks[id];
            && t.pipe.pushes <= u.pipe.pushes && t.pipe.pops <= u.pipe.pops
            && SystemInv(System(s.tasks[id := u],
                                Replay(if woken then Wake(s.line, id) else s.line, id, PlaceOf(t) != Out,
                                       u.pipe.pushes - t.pipe.pushes, u.pipe.pops - t.pipe.pops)))
  {
    hide Inv, LineInv, Behaves, PlaceOf, Replay, Wake;
    var t := s.tasks[id];
    BehavesGrows(t, u, woken, front);
    var m := Replay(if woken then Wake(s.line, id) else s.line, id, PlaceOf(t) != Out,
                    u.pipe.pushes - t.pipe.pushes, u.pipe.pops - t.pipe.pops);
    LineStepKeeps(s.line, PlacesOf(s), id, t, u, woken, front);
    assert PlacesOf(System(s.tasks[id := u], m)) == PlacesOf(s)[id := PlaceOf(u)];
  }

  lemma SettledIsInv(t: Task)
    requires Settled(t)
    ensures Inv(t)
  {
  }

  lemma BehavesGrows(t: Task, u: Task, woken: bool, front: bool)
    requires Behaves(t, u, woken, front)
    ensures t.pipe.pushes <= u.pipe.pushes && t.pipe.pops <= u.pipe.pops
  {
  }
}
