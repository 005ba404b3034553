/**
 Whole runs of a compile task: any number of handler runs, in any interleaving of
 the remote pipeline, the subprocess, the delayed setup, the upload of local
 outputs and the loss of gomacc, with any outcome of each.
 */
module TaskRuns {
  import opened Basics
  import opened TaskMachine
  import opened TaskInvariant
  import opened TaskProgress

  ghost predicate IsRun(s: seq<Task>) {
    |s| > 0 && forall i :: 0 <= i < |s| - 1 ==> Next(s[i], s[i + 1])
  }

  /** Some run of a new task with configuration c ends in t. */
  ghost predicate Reachable(c: Config, t: Task) {
    exists s :: IsRun(s) && s[0] == NewTask(c) && s[|s| - 1] == t
  }

  lemma {:induction false} RunKeeps(s: seq<Task>)
    requires IsRun(s) && Inv(s[0])
    ensures Inv(s[|s| - 1])
  {
    if |s| > 1 {
      hide Next, Inv;
      RunKeeps(s[..|s| - 1]);
      NextKeeps(s[|s| - 2], s[|s| - 1]);
    }
  }

  lemma NextKeeps(t: Task, u: Task)
    requires Inv(t) && Next(t, u)
    ensures Inv(u)
  {
    hide Step, Settled, Enabled, Unstarted;
    var e, o :| Enabled(t, e) && u == Step(t, e, o);
    StepKeeps(t, e, o);
  }

  lemma ReachableInv(c: Config, t: Task)
    requires Consistent(c) && Reachable(c, t)
    ensures Inv(t)
  {
    var s :| IsRun(s) && s[0] == NewTask(c) && s[|s| - 1] == t;
    hide Settled;
    RunKeeps(s);
  }

  // ---------------------------------------------------------------- safety

  /** Something other than gomacc can still move the task. */
  predicate Live(t: Task) {
    !t.started || t.pipe.remote != Idle || t.loc.subproc || t.io.upload.cb
  }

  /** A task is in order: no CHECK has failed, and it is either done or can go on. */
  predicate InOrder(t: Task) {
    t.ok && (t.log.dones == 0 ==> Live(t))
  }

  /** gomacc is answered at most once, the task is done at most once and only after
      the answer, and no continuation outlives it. */
  lemma AnsweredOnce(c: Config, t: Task)
    requires Consistent(c) && Reachable(c, t)
    ensures t.ok
    ensures t.log.replies <= 1 && t.log.dones <= t.log.replies
    ensures t.ctl.rpc <==> t.log.replies == 0
    ensures t.log.dones == 1 <==> !t.ctl.rpc && t.ctl.finished && !t.io.upload.cb
    ensures t.log.dones == 1 ==>
              && t.pipe.remote == Idle && !t.loc.subproc && !t.loc.delayed
              && !t.io.input.cb && !t.io.output.cb && t.io.infos == 0
    ensures t.log.dones == 1 ==> t.ctl.phase == Finished || t.ctl.phase == LocalFinished || t.ctl.abort
  {
    ReachableInv(c, t);
  }

  /** No task is lost: what keeps it going, state by state. */
  lemma NeverLost(c: Config, t: Task)
    requires Consistent(c) && Reachable(c, t) && t.started && t.log.dones == 0
    ensures Live(t)
    ensures t.ctl.finished ==> t.pipe.remote == Idle
    ensures t.ctl.phase == LocalRun || t.ctl.phase == Init ==> t.loc.subproc && t.pipe.remote == Idle
    ensures t.ctl.phase == Finished && t.ctl.rpc ==> t.loc.subproc
    ensures !t.ctl.rpc ==> !t.loc.subproc && (t.io.upload.cb || (t.ctl.abort && t.pipe.remote != Idle))
    ensures t.loc.delayed ==> t.pipe.remote != Idle && !t.loc.subproc
  {
    ReachableInv(c, t);
  }

  /** Local results never mix with remote output: outputs are committed at most once,
      only for an answer that carries the remote result, and a download writes final
      file names only while no local compiler exists or is due to start. */
  lemma OutputsDoNotMix(c: Config, t: Task)
    requires Consistent(c) && Reachable(c, t)
    ensures t.log.remoteCommits <= t.log.commits <= 1
    ensures t.log.commits == 1 ==> t.log.answer == RemoteResult
    ensures t.ctl.abort || t.ctl.phase == LocalFinished ==> t.log.commits == 0
    ensures t.pipe.remote == AwaitOutputs && t.io.direct ==> !t.loc.subproc && !t.loc.delayed
  {
    ReachableInv(c, t);
  }

  /** The three retry sites share one budget. */
  lemma RetriesShareBudget(c: Config, t: Task)
    requires Consistent(c) && Reachable(c, t)
    ensures t.pipe.retry <= 5
    ensures t.pipe.retry == 5 ==> t.ctl.finished
    ensures t.pipe.execCalls <= 5
  {
    ReachableInv(c, t);
  }

  // ---------------------------------------------------------------- termination

  /** Set-up still ahead: 2 before Start, 1 while verify_output runs the local compiler first. */
  function Ahead(t: Task): nat {
    if !t.started then 2 else if t.ctl.phase == Init && !t.loc.shouldFallback then 1 else 0
  }

  function Weight(r: Remote): nat {
    match r
    case Idle => 0
    case AwaitOutputs => 1
    case AwaitExec => 2
    case AwaitExecRetry => 3
    case AwaitInputs => 4
    case AwaitLink => 5
    case AwaitFileRetry => 6
    case AwaitInclude => 7
    case AwaitInfo => 8
  }

  function RetriesLeft(t: Task): nat {
    if t.pipe.retry <= MaxExecRetry + 1 then MaxExecRetry + 1 - t.pipe.retry else 0
  }

  function Uploads(t: Task): nat {
    if t.io.upload.cb then t.io.upload.tasks + 1 else 0
  }

  /** u comes after t in the lexicographic order of (set-up ahead, retries left, weight of
      the continuation, file tasks to report, delayed set-up, subprocess, uploads, close). */
  predicate Descends(t: Task, u: Task) {
    || Ahead(u) < Ahead(t)
    || (Ahead(u) == Ahead(t) &&
        (|| RetriesLeft(u) < RetriesLeft(t)
         || (RetriesLeft(u) == RetriesLeft(t) &&
             (|| Weight(u.pipe.remote) < Weight(t.pipe.remote)
              || (Weight(u.pipe.remote) == Weight(t.pipe.remote) && DescendsWithin(t, u))))))
  }

  predicate DescendsWithin(t: Task, u: Task) {
    || Reports(u) < Reports(t)
    || (Reports(u) == Reports(t) &&
        (|| One(u.loc.delayed) < One(t.loc.delayed)
         || (u.loc.delayed == t.loc.delayed &&
             (|| One(u.loc.subproc) < One(t.loc.subproc)
              || (u.loc.subproc == t.loc.subproc &&
                  (|| Uploads(u) < Uploads(t)
                   || (Uploads(u) == Uploads(t) && One(u.fact.closable) < One(t.fact.closable))))))))
  }

  /** Each remote event spends a retry or makes the continuation lighter. */
  lemma HandledDescends(p: Pipe, q: Pipe, linking: bool, front: bool)
    requires Handled(p, q, linking, front) && p.remote != Idle && p.retry <= MaxExecRetry
    ensures q.retry == p.retry || q.retry == p.retry + 1
    ensures q.retry == p.retry ==> q == p || Weight(q.remote) < Weight(p.remote)
  {
  }

  lemma RemoteDescends(t: Task, o: Oracle)
    requires Settled(t) && t.pipe.remote != Idle
    ensures Descends(t, RemoteStep(t, o))
  {
    hide RemoteStep, Handled, DescendsWithin;
    RemoteStepMoves(t, o);
    var u := RemoteStep(t, o);
    assert t.pipe.retry <= MaxExecRetry;
    HandledDescends(t.pipe, u.pipe, t.cfg.linking, o.front);
    if u.pipe == t.pipe {
      assert Reports(u) < Reports(t);
      assert DescendsWithin(t, u) by { ReportsDescend(t, u); }
    }
  }

  lemma ReportsDescend(t: Task, u: Task)
    requires Reports(u) < Reports(t)
    ensures DescendsWithin(t, u)
  {
  }

  /** Replying touches neither the pipeline nor the subprocess nor file tasks. */
  predicate Framed(t: Task, u: Task) {
    && u.cfg == t.cfg && u.started == t.started && u.pipe == t.pipe && u.ctl.phase == t.ctl.phase
    && u.loc == t.loc
    && u.io.input == t.io.input && u.io.output == t.io.output
  }

  lemma ReplyFramed(t: Task, how: Answer)
    ensures Framed(t, ReplyResponse(t, how))
  {
  }

  lemma ProcessReplyFramed(t: Task, o: Oracle)
    ensures Framed(t, ProcessReply(t, o))
  {
    hide ReplyRemote, Check;
    var c := t.ctl.phase == Finished && !t.loc.subproc && !t.loc.delayed && !t.ctl.abort;
    CheckIs(t, c);
    ReplyRemoteFramed(SetGomacc(Check(t, c), t.fact.gomacc && o.aliveAtReply));
  }

  lemma ReplyRemoteFramed(t: Task)
    ensures Framed(t, ReplyRemote(t))
  {
    hide ReplyResponse;
    ReplyFramed(if t.fact.gomacc then CommitOutput(t, !(t.loc.run && t.cfg.dontKill)) else t, RemoteResult);
  }

  /** The subprocess is gone, everything before it in the order stands still. */
  predicate LocalGone(t: Task, u: Task) {
    && u.cfg == t.cfg && u.started == t.started && u.pipe == t.pipe
    && u.loc.delayed == t.loc.delayed && !u.loc.subproc
    && u.loc.shouldFallback == t.loc.shouldFallback && u.loc.failFallback == t.loc.failFallback
    && u.io.input == t.io.input && u.io.output == t.io.output
    && (u.ctl.phase == Init ==> t.ctl.phase == Init)
  }

  lemma ReplyLocalGone(t: Task, gomaFailure: bool)
    requires !t.loc.subproc
    ensures LocalGone(t, ReplyLocal(t, gomaFailure))
  {
    hide ReplyResponse;
    if t.loc.shouldFallback {
      ReplyFramed(LocalDone(Check(t, t.ctl.phase == Init)), SetupFallback);
    } else if t.loc.failFallback {
      ReplyFramed(Check(t, t.ctl.phase == Finished), FailFallback);
    } else if t.ctl.phase == LocalRun {
      ReplyFramed(LocalDone(t), LocalOnly);
    } else if !gomaFailure {
      ReplyFramed(t.(ctl := t.ctl.(abort := true)), LocalFirst);
    }
  }

  lemma LocalResultGone(t: Task, o: Oracle)
    requires !t.loc.subproc && !(t.cfg.verify && !t.loc.shouldFallback)
    ensures LocalGone(t, UseLocalResult(t, o))
  {
    hide ReplyLocal, RunFailed, GomaFailure, ProcessLocalFileOutput;
    if !t.cfg.gch {
      if !RunFailed(t, o) { UploadFramed(t, o); }
      ReplyLocalGone(if RunFailed(t, o) then t else ProcessLocalFileOutput(t, o), GomaFailure(t, o));
    }
  }

  lemma UploadFramed(t: Task, o: Oracle)
    ensures Framed(t, ProcessLocalFileOutput(t, o))
  {
  }

  lemma SubprocGone(t: Task, o: Oracle)
    requires t.loc.subproc && !t.ctl.abort
    requires t.cfg.verify && !t.loc.shouldFallback ==> t.ctl.phase == Finished && !t.loc.failFallback
    ensures LocalGone(t, FinishSubProcess(t, o))
  {
    hide FinishSubProcess, LocalFinish;
    FinishSubProcessIs(t, o);
    LocalFinishGone(t.(loc := t.loc.(subproc := false, run := t.loc.run || o.procStarted),
                       fact := t.fact.(success := t.fact.success && !Broken(o))), o);
  }

  lemma LocalFinishGone(t: Task, o: Oracle)
    requires !t.loc.subproc
    requires t.cfg.verify && !t.loc.shouldFallback ==> t.ctl.phase == Finished && !t.loc.failFallback
    ensures LocalGone(t, LocalFinish(t, o))
  {
    hide ProcessReply, UseLocalResult;
    if t.ctl.phase == Finished && !t.loc.failFallback {
      ProcessReplyFramed(t, o);
    } else {
      LocalResultGone(SetSuccess(t, o.status == 0), o);
    }
  }

  /** verify_output: the local run is over, the remote pipeline starts. */
  lemma VerifySetsUp(t: Task, o: Oracle)
    requires t.loc.subproc && t.cfg.verify && !t.loc.shouldFallback && t.ctl.phase == Init && t.started
    ensures Ahead(FinishSubProcess(t, o)) == 0
  {
  }

  lemma SubprocDescends(t: Task, o: Oracle)
    requires Settled(t) && t.loc.subproc
    ensures Descends(t, FinishSubProcess(t, o))
  {
    hide FinishSubProcess;
    if t.cfg.verify && !t.loc.shouldFallback {
      VerifySetsUp(t, o);
    } else {
      SubprocGone(t, o);
    }
  }

  lemma StartDescends(t: Task, o: Oracle)
    requires Unstarted(t)
    ensures Descends(t, Start(t, o))
  {
    hide Start, Settled;
    StartKeeps(t, o);
    SettledStarted(Start(t, o));
  }

  lemma StepDescends(t: Task, e: Event, o: Oracle)
    requires Inv(t) && Enabled(t, e)
    ensures Descends(t, Step(t, e, o))
  {
    hide Start, RemoteStep, FinishSubProcess, SetupSubProcess, UploadStep, GomaccClosed, Settled, Descends;
    if Settled(t) { SettledStarted(t); }
    match e
    case StartTask => StartDescends(t, o);
    case RemoteEvent => RemoteDescends(t, o);
    case SubprocDone => SubprocDescends(t, o);
    case DelayedSetup => DelayedDescends(t);
    case Upload => UploadDescends(t);
    case GomaccClose => ClosedDescends(t, o);
  }

  lemma DelayedDescends(t: Task)
    requires t.started && t.loc.delayed
    ensures Descends(t, SetupSubProcess(t))
  {
  }

  lemma UploadDescends(t: Task)
    requires t.started && t.io.upload.cb
    ensures Descends(t, UploadStep(t))
  {
  }

  lemma ClosedDescends(t: Task, o: Oracle)
    requires t.started && t.fact.closable
    ensures Descends(t, GomaccClosed(t, o))
  {
  }

  lemma NextDescends(t: Task, u: Task)
    requires Inv(t) && Next(t, u)
    ensures Descends(t, u)
  {
    hide Step, Inv, Enabled, Descends;
    var e, o :| Enabled(t, e) && u == Step(t, e, o);
    StepDescends(t, e, o);
  }

  predicate Stuck(t: Task) {
    forall e :: !Enabled(t, e)
  }

  /** An execution that never withholds every outstanding event. */
  ghost predicate Execution(c: Config, run: nat -> Task) {
    && run(0) == NewTask(c)
    && forall i: nat :: Next(run(i), run(i + 1)) || (Stuck(run(i)) && run(i + 1) == run(i))
  }

  lemma LiveIsEnabled(t: Task)
    requires Inv(t) && t.log.dones == 0
    ensures !Stuck(t)
  {
    if !t.started {
      assert Enabled(t, StartTask);
    } else if t.pipe.remote != Idle {
      assert Enabled(t, RemoteEvent);
    } else if t.loc.subproc {
      assert Enabled(t, SubprocDone);
    } else {
      assert Enabled(t, Upload);
    }
  }

  lemma {:induction false} ReachesDone(c: Config, run: nat -> Task, i: nat) returns (j: nat)
    requires Execution(c, run) && Inv(run(i))
    ensures j >= i && Inv(run(j)) && run(j).log.dones > 0
    decreases Ahead(run(i)), RetriesLeft(run(i)), Weight(run(i).pipe.remote), Reports(run(i)),
              One(run(i).loc.delayed), One(run(i).loc.subproc), Uploads(run(i)), One(run(i).fact.closable)
  {
    if run(i).log.dones > 0 {
      j := i;
    } else {
      LiveIsEnabled(run(i));
      assert Next(run(i), run(i + 1));
      hide Inv, Next;
      NextKeeps(run(i), run(i + 1));
      NextDescends(run(i), run(i + 1));
      j := ReachesDone(c, run, i + 1);
    }
  }

  /** Every execution answers gomacc exactly once and then is done, whatever the
      network, the compilers, the file system and gomacc do. */
  lemma EveryExecutionEnds(c: Config, run: nat -> Task)
    requires Consistent(c) && Execution(c, run)
    ensures exists j: nat :: run(j).log.dones == 1 && run(j).log.replies == 1 && run(j).ok && Stuck(run(j))
  {
    var j := ReachesDone(c, run, 0);
    assert run(j).log.dones == 1 && run(j).log.replies == 1 && run(j).ok && Stuck(run(j));
  }
}
