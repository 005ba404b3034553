/**
 Who answers gomacc, when, and with what: over every run of a compile task, each event
 brings exactly the answer that its outcome calls for, outputs are committed exactly for a
 remote answer to a gomacc that is still there, the remote side gives way exactly after a
 failure that may be made good, and no success is claimed that nobody had.
 */
module TaskAnswers {
  import opened Basics
  import opened TaskMachine
  import opened TaskInvariant
  import opened TaskRuns
  import opened TaskTable
  import opened TaskFollows
  import TaskConflicts

  // ---------------------------------------------------------------- the answer

  /** The event ends the remote side, which has nothing more to wait for. */
  predicate RemoteEnds(t: Task, o: Oracle) {
    t.pipe.remote != Idle && Pending(t).tasks <= 1 && CourseOf(t, o).fate == Ends
  }

  /** The remote side ends in a failure that the local compiler is to make good. */
  predicate RemoteHopes(t: Task, o: Oracle) {
    && RemoteEnds(t, o) && !t.ctl.abort && !t.cfg.verify
    && Hopes(SideOf(t), CourseOf(t, o).mind, o)
  }

  /** The answer that event e brings to a compile task that has not answered. */
  function AnswerOf(t: Task, e: Event, o: Oracle): Answer {
    match e
    case StartTask => if o.startFails then InitFailure else Unanswered
    case RemoteEvent =>
      if !RemoteEnds(t, o) then Unanswered
      else if t.cfg.verify then Verified
      else if t.loc.subproc || (RemoteHopes(t, o) && o.limiterAllows) then Unanswered
      else RemoteResult
    case SubprocDone => LocalAnswer(t, o)
    case _ => Unanswered
  }

  /** gomacc is connected, and found alive whenever it is asked for. */
  predicate StillThere(t: Task, e: Event, o: Oracle) {
    && o.aliveAtReply
    && if e == RemoteEvent then Alive(SideOf(t), CourseOf(t, o).mind, o) else t.fact.gomacc
  }

  /** The answer is there exactly if one was due, and outputs were committed exactly if it
      carries the remote result to a gomacc that is still there. */
  predicate Replies(t: Task, e: Event, o: Oracle, u: Task) {
    && u.cfg == t.cfg
    && if t.log.answer != Unanswered then
         u.log == t.log.(dones := u.log.dones)
       else
         var answer := AnswerOf(t, e, o);
         var commits := answer == RemoteResult && StillThere(t, e, o);
         && u.log.answer == answer && (answer == RemoteResult ==> u.log.dones > 0)
         && u.log.replies == t.log.replies + (if answer != Unanswered then 1 else 0)
         && u.log.commits == t.log.commits + (if commits then 1 else 0)
         && u.log.remoteCommits == t.log.remoteCommits + (if commits && !(u.loc.run && t.cfg.dontKill) then 1 else 0)
  }

  lemma RemoteReplies(t: Task, o: Oracle)
    requires Settled(t) && t.pipe.remote != Idle
    ensures Replies(t, RemoteEvent, o, RemoteStep(t, o))
    ensures RemoteStep(t, o).loc.failFallback <==> RemoteHopes(t, o)
  {
    hide RemoteStep, Settled, CourseOf;
    RemoteTable(t, o);
    RemoteRuns(t);
  }

  /** While the pipeline is at work, no fallback has begun, and only abort_ has answered. */
  lemma RemoteRuns(t: Task)
    requires Settled(t) && t.pipe.remote != Idle
    ensures !t.ctl.finished && !t.loc.failFallback && t.log.answer == (if t.ctl.abort then LocalFirst else Unanswered)
    ensures !(t.ctl.abort && t.cfg.verify)
    ensures t.ctl.abort ==> !t.loc.subproc
  {
  }

  lemma SubprocReplies(t: Task, o: Oracle)
    requires Settled(t) && t.loc.subproc
    ensures Replies(t, SubprocDone, o, FinishSubProcess(t, o))
    ensures FinishSubProcess(t, o).loc.failFallback == t.loc.failFallback
  {
    hide FinishSubProcess, Settled, Faulty, Useful;
    SubprocTable(t, o);
    SubprocWaits(t);
  }

  lemma SubprocWaits(t: Task)
    requires Settled(t) && t.loc.subproc
    ensures t.log.answer == Unanswered
  {
  }

  lemma StartReplies(t: Task, o: Oracle)
    requires Unstarted(t)
    ensures Replies(t, StartTask, o, Start(t, o)) && !Start(t, o).loc.failFallback
  {
    hide Start, Outrun;
    StartTable(t, o);
  }

  lemma OthersReply(t: Task, e: Event, o: Oracle)
    requires e == DelayedSetup || e == Upload || e == GomaccClose
    ensures Replies(t, e, o, Step(t, e, o)) && Step(t, e, o).loc.failFallback == t.loc.failFallback
  {
    hide StillThere;
    OthersLog(t, e, o);
    hide Step;
  }

  lemma OthersLog(t: Task, e: Event, o: Oracle)
    requires e == DelayedSetup || e == Upload || e == GomaccClose
    ensures var u := Step(t, e, o);
            u.cfg == t.cfg && u.log == t.log.(dones := u.log.dones) && u.loc.failFallback == t.loc.failFallback
  {
    hide UploadStep;
    match e
    case DelayedSetup =>
    case Upload => UploadLog(t);
    case GomaccClose =>
  }

  lemma UploadLog(t: Task)
    ensures var u := UploadStep(t); u.cfg == t.cfg && u.log == t.log.(dones := u.log.dones) && u.loc == t.loc
  {
  }

  lemma StepReplies(t: Task, e: Event, o: Oracle)
    requires Inv(t) && Enabled(t, e)
    ensures Replies(t, e, o, Step(t, e, o))
    ensures Step(t, e, o).loc.failFallback <==> t.loc.failFallback || (e == RemoteEvent && RemoteHopes(t, o))
  {
    hide Start, RemoteStep, FinishSubProcess, SetupSubProcess, UploadStep, GomaccClosed, Replies, RemoteHopes, Settled;
    match e
    case StartTask =>
      assert Unstarted(t) by { if Settled(t) { SettledStarted(t); } }
      StartReplies(t, o);
    case RemoteEvent =>
      assert Settled(t);
      RemoteRuns(t);
      RemoteReplies(t, o);
    case SubprocDone => SubprocReplies(t, o);
    case DelayedSetup => OthersReply(t, e, o);
    case Upload => OthersReply(t, e, o);
    case GomaccClose => OthersReply(t, e, o);
  }

  /** In every run, each event brings exactly the answer that its outcome calls for, and none
      where none is due: the remote side answers in its own name, the subprocess in the name
      that its state gives it, and once there is an answer it stands. Outputs are committed
      with it exactly when it carries the remote result to a gomacc that is still there, and
      the remote ones unless a local run was left to finish. */
  lemma AnswerTellsWho(c: Config, t: Task, e: Event, o: Oracle)
    requires Consistent(c) && Reachable(c, t) && Enabled(t, e)
    ensures Replies(t, e, o, Step(t, e, o))
  {
    hide Step, Settled, Enabled, Replies;
    ReachableInv(c, t);
    StepReplies(t, e, o);
  }

  /** The remote side hands over to the local compiler exactly when it ends in a failure, the
      failure may be made good, and gomacc is still there to profit; so no successful remote
      result is replaced, and no failure of this kind is passed on untried. */
  lemma FallsBackOnFailure(c: Config, t: Task, e: Event, o: Oracle)
    requires Consistent(c) && Reachable(c, t) && Enabled(t, e) && !t.loc.failFallback
    ensures var u := Step(t, e, o);
            && (u.loc.failFallback <==> e == RemoteEvent && RemoteHopes(t, o))
            && (u.loc.failFallback ==> MayMakeGood(t, u) && t.fact.gomacc && o.aliveAtFinish)
            && (e == RemoteEvent && MayMakeGood(t, u) && t.fact.gomacc && o.aliveAtResponse && o.aliveAtFinish ==>
                  u.loc.failFallback)
  {
    hide Settled, Step, Enabled, RemoteHopes;
    ReachableInv(c, t);
    StepReplies(t, e, o);
    if e == RemoteEvent { HopesShow(t, o); }
  }

  /** The remote side is over with a failure, nothing has been answered, and the local compiler
      may still make it good. */
  predicate MayMakeGood(t: Task, u: Task) {
    && u.ctl.finished && !t.ctl.abort && !t.cfg.verify && t.cfg.fallback
    && !u.fact.success && u.loc.wantFallback
  }

  lemma HopesShow(t: Task, o: Oracle)
    requires Inv(t) && Enabled(t, RemoteEvent) && !t.loc.failFallback
    ensures var u := Step(t, RemoteEvent, o);
            && (u.loc.failFallback ==> MayMakeGood(t, u) && t.fact.gomacc && o.aliveAtFinish)
            && (MayMakeGood(t, u) && t.fact.gomacc && o.aliveAtResponse && o.aliveAtFinish ==> u.loc.failFallback)
  {
    hide RemoteStep, Settled, CourseOf;
    assert Settled(t);
    RemoteTable(t, o);
    RemoteRuns(t);
  }

  // ---------------------------------------------------------------- what a local answer carries

  /** A local answer is a success exactly when the local compiler exited with 0, and it comes
      for every exit status: only a compiler that could not be run, or that was run with a
      negative status, leaves a remote side at work to answer. */
  lemma LocalAnswerCarries(c: Config, t: Task, o: Oracle)
    requires Consistent(c) && Reachable(c, t) && Enabled(t, SubprocDone)
    ensures var u := Step(t, SubprocDone, o);
            && (u.log.answer != RemoteResult ==> (u.fact.success <==> o.status == 0))
            && (t.loc.shouldFallback && t.ctl.phase == Init ==> u.log.answer == SetupFallback)
            && (t.loc.failFallback ==> u.log.answer == FailFallback)
            && (t.ctl.phase == LocalRun ==> u.log.answer == LocalOnly)
            && (InPipeline(t.ctl.phase) ==>
                  u.log.answer == if (!o.procStarted && o.status == InternalError)
                                     || (o.procStarted && !t.loc.killed && o.status < 0) then Unanswered
                                  else LocalFirst)
  {
    hide Settled, FinishSubProcess;
    ReachableInv(c, t);
    assert Settled(t);
    SubprocTable(t, o);
    SubprocStates(t);
  }

  lemma SubprocStates(t: Task)
    requires Settled(t) && t.loc.subproc
    ensures t.log.answer == Unanswered
    ensures t.loc.failFallback ==> t.ctl.phase == Finished && !t.loc.shouldFallback && !t.cfg.verify
    ensures t.ctl.phase == LocalRun ==> !t.loc.shouldFallback && !t.cfg.verify
    ensures InPipeline(t.ctl.phase) ==> !t.loc.shouldFallback && !t.cfg.verify && !t.loc.failFallback
  {
  }

  // ---------------------------------------------------------------- what is committed

  /** What was committed is the remote output, unless a local run was left to finish. */
  predicate CommitsRight(t: Task) {
    && t.log.commits <= 1
    && (t.log.commits == 1 ==> t.log.answer == RemoteResult) && (t.log.answer == RemoteResult ==> t.log.dones > 0)
    && t.log.remoteCommits == if t.log.commits == 1 && !(t.loc.run && t.cfg.dontKill) then 1 else 0
  }

  lemma StepCommits(t: Task, e: Event, o: Oracle)
    requires Inv(t) && Enabled(t, e) && CommitsRight(t)
    ensures CommitsRight(Step(t, e, o))
  {
    hide Step, Inv, AnswerOf, StillThere;
    StepReplies(t, e, o);
  }

  lemma {:induction false} RunCommits(s: seq<Task>)
    requires IsRun(s) && Inv(s[0]) && CommitsRight(s[0])
    ensures Inv(s[|s| - 1]) && CommitsRight(s[|s| - 1])
  {
    if |s| > 1 {
      hide Inv, CommitsRight, Step, Enabled;
      var t, u := s[|s| - 2], s[|s| - 1];
      RunCommits(s[..|s| - 1]);
      NextKeeps(t, u);
      var e, o :| Enabled(t, e) && u == Step(t, e, o);
      StepCommits(t, e, o);
    }
  }

  /** Over every run: outputs are committed at most once, only with the remote result, and
      then the remote ones are, unless a local run was left to finish. */
  lemma CommitsRemote(c: Config, t: Task)
    requires Consistent(c) && Reachable(c, t)
    ensures t.log.commits <= 1 && (t.log.commits == 1 ==> t.log.answer == RemoteResult)
    ensures t.log.commits == 1 ==> (t.log.remoteCommits == 1 <==> !(t.loc.run && t.cfg.dontKill))
    ensures t.log.remoteCommits <= t.log.commits
  {
    hide Inv;
    var s :| IsRun(s) && s[0] == NewTask(c) && s[|s| - 1] == t;
    NewInv(c);
    RunCommits(s);
  }

  lemma NewInv(c: Config)
    requires Consistent(c)
    ensures Inv(NewTask(c))
  {
  }

  // ---------------------------------------------------------------- where a success comes from

  /** Nothing but the exit status can make the compile fail. */
  predicate Undisturbed(t: Task, o: Oracle) {
    && !Stopped(t) && !o.rpcErr && !o.execMissing && !o.serverError && !o.specError
    && t.fact.gomacc && o.aliveAtResponse
  }

  /** The server's exit status is the result of the remote compile: success is never made up,
      and where nothing else goes wrong it is not lost either. */
  lemma ExecStatusCounts(c: Config, t: Task, o: Oracle)
    requires Consistent(c) && Reachable(c, t) && Enabled(t, RemoteEvent) && t.pipe.remote == AwaitExec
    ensures var u := Step(t, RemoteEvent, o);
            && (u.fact.success ==> o.execSuccess)
            && (Undisturbed(t, o) ==> (u.fact.success <==> o.execSuccess))
  {
    hide Settled, RemoteStep;
    ReachableInv(c, t);
    assert Settled(t);
    RemoteTable(t, o);
  }

  /** An event of a run, with all that was learned in it. */
  datatype Deed = Deed(e: Event, o: Oracle)

  ghost predicate IsStory(c: Config, s: seq<Task>, d: seq<Deed>) {
    && |s| == |d| + 1 && s[0] == NewTask(c)
    && forall i :: 0 <= i < |d| ==> Enabled(s[i], d[i].e) && s[i + 1] == Step(s[i], d[i].e, d[i].o)
  }

  /** What the event brings from outside as a result, if anything: for the remote side, the
      exit status in an Exec response, or a hit in the local output cache; and, if `local`
      results count too, a header copied for precompilation and the exit status of the
      subprocess, unless the remote side was through. */
  function ResultIn(t: Task, d: Deed, local: bool): Option<bool> {
    if local && d.e == StartTask then Some(d.o.copied && !d.o.startFails)
    else if local && d.e == SubprocDone then
      if LocalAnswer(t, d.o) == RemoteResult then None else Some(d.o.status == 0)
    else if d.e != RemoteEvent then None
    else if t.pipe.remote == AwaitExec then Some(d.o.execSuccess)
    else if t.pipe.remote == AwaitInputs && Pending(t).tasks <= 1 && AllGood(t, d.o) && !Stopped(t) && d.o.cacheHit then
      Some(true)
    else None
  }

  /** The last such result. */
  function LastResult(s: seq<Task>, d: seq<Deed>, local: bool): Option<bool>
    requires |s| == |d| + 1
  {
    if d == [] then None
    else
      var n := |d| - 1;
      Newer(s[n], d[n], local, LastResult(s[..n + 1], d[..n], local))
  }

  /** A success on its way to an answer of the remote side was brought from outside. */
  predicate Earned(t: Task, last: Option<bool>) {
    && t.fact.success && !t.fact.canceled && (t.pipe.remote == AwaitOutputs || t.ctl.phase == Finished)
    && (t.log.answer == Unanswered || t.log.answer == RemoteResult || t.log.answer == Verified)
    ==> last == Some(true)
  }

  function Newer(t: Task, d: Deed, local: bool, last: Option<bool>): Option<bool> {
    if ResultIn(t, d, local).Some? then ResultIn(t, d, local) else last
  }

  /** The rows of the table in which a success survives. */
  lemma SuccessSurvives(t: Task, o: Oracle)
    requires t.pipe.remote != Idle && Pending(t).tasks <= 1 && !Stopped(t)
    ensures var c := CourseOf(t, o);
            c.mind.success && (c.fate == Ends || c.fate == Waits(AwaitOutputs)) ==>
              || ResultIn(t, Deed(RemoteEvent, o), false) == Some(true)
              || (t.pipe.remote == AwaitOutputs && t.fact.success)
  {
    hide Outrun, Sends, Requests, Calls, Misses, Responds, Rejected, Judged, Stops;
    var s := SideOf(t);
    assert !Stops(s) by { StopsIs(t); }
    SubcoursesKeep(s, MindOf(t), o);
    match t.pipe.remote
    case AwaitInfo =>
    case AwaitInclude =>
      SubcoursesKeep(s, MindOf(t).(success := t.fact.success && (o.includeOk || !o.includeError)), o);
    case AwaitLink =>
    case AwaitFileRetry =>
    case AwaitInputs =>
      SubcoursesKeep(s, Heard(t, o), o);
      SubcoursesKeep(s, Heard(t, o).(success := true), o);
    case AwaitExecRetry =>
    case AwaitExec =>
      var n := MindOf(t).(success := o.execSuccess, missing := o.execMissing);
      SubcoursesKeep(s, n, o);
      SubcoursesKeep(s, Fail(n), o);
      SubcoursesKeep(s, Judged(n, o), o);
    case AwaitOutputs =>
      SubcoursesKeep(s, Heard(t, o), o);
  }

  lemma StopsIs(t: Task)
    ensures Stops(SideOf(t)) <==> Stopped(t)
  {
  }

  /** Where only a stop ends the pipeline, and where a success outlives it. */
  lemma SubcoursesKeep(s: Side, m: Mind, o: Oracle)
    requires !Stops(s)
    ensures Sends(s, m, o).fate != Ends && Sends(s, m, o).fate != Waits(AwaitOutputs)
    ensures Requests(s, m, o).fate != Ends && Requests(s, m, o).fate != Waits(AwaitOutputs)
    ensures Calls(s, m, o).fate != Ends && Calls(s, m, o).fate != Waits(AwaitOutputs)
    ensures Misses(s, m, o).fate != Waits(AwaitOutputs)
    ensures Misses(s, m, o).fate == Ends ==> !Misses(s, m, o).mind.success
    ensures Judged(m, o).success ==> m.success
  {
    hide Outrun, Misses, Requests;
    RequestsKeep(s, m, o);
    RequestsKeep(s, Fail(m), o);
  }

  lemma RequestsKeep(s: Side, m: Mind, o: Oracle)
    requires !Stops(s)
    ensures Requests(s, m, o).fate != Ends && Requests(s, m, o).fate != Waits(AwaitOutputs)
    ensures Misses(s, m, o).fate != Waits(AwaitOutputs)
    ensures Misses(s, m, o).fate == Ends ==> !Misses(s, m, o).mind.success
  {
    hide Outrun;
  }

  lemma EarnedRemote(t: Task, o: Oracle, last: Option<bool>)
    requires Settled(t) && t.pipe.remote != Idle && t.log.dones == 0 && Earned(t, last)
    ensures Earned(RemoteStep(t, o), Newer(t, Deed(RemoteEvent, o), false, last))
  {
    hide RemoteStep, Settled, CourseOf, AllGood, Hopes;
    RemoteTable(t, o);
    RemoteRuns(t);
    RemoteStepKeeps(t, o);
    FinishedIsOver(RemoteStep(t, o));
    if Pending(t).tasks <= 1 && !Stopped(t) { SuccessSurvives(t, o); }
  }

  lemma FinishedIsOver(t: Task)
    requires Settled(t)
    ensures t.ctl.phase == Finished ==> t.ctl.finished
  {
  }

  lemma EarnedLocal(t: Task, o: Oracle, last: Option<bool>)
    requires Settled(t) && t.loc.subproc && Earned(t, last)
    ensures Earned(FinishSubProcess(t, o), last)
  {
    hide FinishSubProcess, Settled, Useful;
    SubprocTable(t, o);
    SubprocStates(t);
    FinishedIsOver(t);
  }

  lemma EarnedStart(t: Task, o: Oracle, last: Option<bool>)
    requires Unstarted(t)
    ensures Earned(Start(t, o), last)
  {
    hide Start, Outrun;
    StartTable(t, o);
  }

  lemma EarnedOther(t: Task, e: Event, o: Oracle, last: Option<bool>)
    requires Inv(t) && Enabled(t, e) && (e == DelayedSetup || e == Upload || e == GomaccClose) && Earned(t, last)
    ensures Earned(Step(t, e, o), last)
  {
    match e
    case DelayedSetup =>
    case Upload =>
    case GomaccClose =>
  }

  lemma EarnedStep(t: Task, d: Deed, last: Option<bool>)
    requires Inv(t) && Enabled(t, d.e) && Earned(t, last)
    ensures Earned(Step(t, d.e, d.o), Newer(t, d, false, last))
  {
    hide Start, RemoteStep, FinishSubProcess, SetupSubProcess, UploadStep, GomaccClosed, Settled, Earned, AllGood;
    match d.e
    case StartTask =>
      assert Unstarted(t) by { if Settled(t) { SettledStarted(t); } }
      EarnedStart(t, d.o, last);
    case RemoteEvent =>
      assert Settled(t);
      EarnedRemote(t, d.o, last);
    case SubprocDone =>
      assert Settled(t);
      EarnedLocal(t, d.o, last);
    case DelayedSetup => EarnedOther(t, d.e, d.o, last);
    case Upload => EarnedOther(t, d.e, d.o, last);
    case GomaccClose => EarnedOther(t, d.e, d.o, last);
  }

  lemma {:induction false} StoryEarned(c: Config, s: seq<Task>, d: seq<Deed>)
    requires Consistent(c) && IsStory(c, s, d)
    ensures Inv(s[|d|]) && Earned(s[|d|], LastResult(s, d, false))
    decreases |d|
  {
    hide Inv, Earned, Step, Enabled, ResultIn;
    if d == [] {
      NewInv(c);
      NewEarned(c);
    } else {
      var n := |d| - 1;
      var s', d' := s[..n + 1], d[..n];
      StoryEarned(c, s', d');
      StepKeepsInv(s[n], d[n].e, d[n].o);
      EarnedStep(s[n], d[n], LastResult(s', d', false));
    }
  }

  lemma NewEarned(c: Config)
    ensures Earned(NewTask(c), None)
  {
  }

  lemma StepKeepsInv(t: Task, e: Event, o: Oracle)
    requires Inv(t) && Enabled(t, e)
    ensures Inv(Step(t, e, o))
  {
    hide Step, Settled, Enabled;
    StepKeeps(t, e, o);
  }

  /** Over every run: when gomacc is told of a success in the name of the remote side, the
      last thing that came from outside was an Exec response with exit status 0 or a hit in
      the local output cache. */
  lemma SuccessIsEarned(c: Config, s: seq<Task>, d: seq<Deed>)
    requires Consistent(c) && IsStory(c, s, d)
    ensures var t := s[|d|];
            t.fact.success && !t.fact.canceled && (t.log.answer == RemoteResult || t.log.answer == Verified) ==>
              LastResult(s, d, false) == Some(true)
  {
    hide LastResult, Inv;
    StoryEarned(c, s, d);
    RemoteAnswerEnds(s[|d|]);
  }

  /** A remote answer is the end of the remote side. */
  lemma RemoteAnswerEnds(t: Task)
    requires Inv(t)
    ensures t.log.answer == RemoteResult || t.log.answer == Verified ==> t.ctl.phase == Finished
  {
  }

  /** A success was brought from outside, and nothing worse came after it. */
  predicate Backed(t: Task, last: Option<bool>) {
    t.fact.success ==> last == Some(true)
  }

  lemma BackedRemote(t: Task, o: Oracle, last: Option<bool>)
    requires Settled(t) && t.pipe.remote != Idle && Backed(t, last)
    ensures Backed(RemoteStep(t, o), Newer(t, Deed(RemoteEvent, o), true, last))
  {
    hide RemoteStep, Settled, AfterInfo, AfterInclude, Sends, Requests, Calls, AfterExec, AfterInputs, AfterOutputs;
    RemoteTable(t, o);
  }

  lemma BackedLocal(t: Task, o: Oracle, last: Option<bool>)
    requires Settled(t) && t.loc.subproc && Backed(t, last)
    ensures Backed(FinishSubProcess(t, o), Newer(t, Deed(SubprocDone, o), true, last))
  {
    hide FinishSubProcess, Settled, Faulty, Useful;
    SubprocTable(t, o);
  }

  lemma BackedStart(t: Task, o: Oracle, last: Option<bool>)
    requires Unstarted(t)
    ensures Backed(Start(t, o), Newer(t, Deed(StartTask, o), true, last))
  {
    hide Start, Outrun;
    StartTable(t, o);
  }

  lemma BackedOther(t: Task, e: Event, o: Oracle, last: Option<bool>)
    requires (e == DelayedSetup || e == Upload || e == GomaccClose) && Backed(t, last)
    ensures Backed(Step(t, e, o), last)
  {
    match e
    case DelayedSetup =>
    case Upload =>
    case GomaccClose =>
  }

  lemma BackedStep(t: Task, d: Deed, last: Option<bool>)
    requires Inv(t) && Enabled(t, d.e) && Backed(t, last)
    ensures Backed(Step(t, d.e, d.o), Newer(t, d, true, last))
  {
    hide Start, RemoteStep, FinishSubProcess, SetupSubProcess, UploadStep, GomaccClosed, Settled, Backed, AllGood,
      LocalAnswer;
    match d.e
    case StartTask =>
      assert Unstarted(t) by { if Settled(t) { SettledStarted(t); } }
      BackedStart(t, d.o, last);
    case RemoteEvent =>
      assert Settled(t);
      BackedRemote(t, d.o, last);
    case SubprocDone =>
      assert Settled(t);
      BackedLocal(t, d.o, last);
    case DelayedSetup => BackedOther(t, d.e, d.o, last);
    case Upload => BackedOther(t, d.e, d.o, last);
    case GomaccClose => BackedOther(t, d.e, d.o, last);
  }

  /** Over every run, at every moment, canceled or not: a success goes back to the last result
      that came from outside, an Exec response, a hit in the local output cache, the local
      compiler, or a copied header. */
  lemma {:induction false} SuccessIsNeverMadeUp(c: Config, s: seq<Task>, d: seq<Deed>)
    requires Consistent(c) && IsStory(c, s, d)
    ensures Inv(s[|d|])
    ensures s[|d|].fact.success ==> LastResult(s, d, true) == Some(true)
    decreases |d|
  {
    hide Inv, Step, Enabled, ResultIn;
    if d == [] {
      NewInv(c);
    } else {
      var n := |d| - 1;
      var s', d' := s[..n + 1], d[..n];
      SuccessIsNeverMadeUp(c, s', d');
      StepKeepsInv(s[n], d[n].e, d[n].o);
      BackedStep(s[n], d[n], LastResult(s', d', true));
    }
  }

  /** Some run leads to t, with this last result from outside. */
  ghost predicate Told(c: Config, t: Task, last: Option<bool>) {
    exists s, d :: IsStory(c, s, d) && s[|d|] == t && LastResult(s, d, false) == last
  }

  lemma ToldFirst(c: Config)
    ensures Told(c, NewTask(c), None)
  {
    var s, d: seq<Deed> := [NewTask(c)], [];
    assert IsStory(c, s, d) && s[|d|] == NewTask(c) && LastResult(s, d, false) == None;
  }

  lemma ToldOn(c: Config, t: Task, last: Option<bool>, d: Deed)
    requires Told(c, t, last) && Enabled(t, d.e)
    ensures Told(c, Step(t, d.e, d.o), Newer(t, d, false, last))
  {
    hide Step, Enabled, ResultIn;
    var s, ds :| IsStory(c, s, ds) && s[|ds|] == t && LastResult(s, ds, false) == last;
    var n := |ds|;
    var s', ds' := s + [Step(t, d.e, d.o)], ds + [d];
    assert s'[..n + 1] == s && ds'[..n] == ds;
    assert IsStory(c, s', ds') && s'[|ds'|] == Step(t, d.e, d.o);
    assert LastResult(s', ds', false) == Newer(t, d, false, last);
  }

  /** Compiler info is asked for, and no subprocess is there. */
  predicate Asks(t: Task) {
    && t.pipe.remote == AwaitInfo && t.ctl.phase == Setup && t.fact.success && t.fact.closable
    && !t.loc.subproc && !t.ctl.abort && t.log.dones == 0
  }

  lemma ReachesSetup(c: Config) returns (t: Task)
    requires Consistent(c)
    ensures Told(c, t, None) && Inv(t) && t.ok && t.cfg == c && Asks(t)
  {
    hide Start, FinishSubProcess, Settled, Told, Outrun, Useful;
    var o := TaskConflicts.Plain.(copied := true);
    var first := NewTask(c);
    NewInv(c);
    ToldFirst(c);
    ToldOn(c, first, None, Deed(StartTask, o));
    t := Step(first, StartTask, o);
    StepKeeps(first, StartTask, o);
    SettledOk(t);
    StartTable(first, o);
    if c.verify {
      var u := t;
      ToldOn(c, u, None, Deed(SubprocDone, o));
      t := Step(u, SubprocDone, o);
      StepKeeps(u, SubprocDone, o);
      SettledOk(t);
      SubprocTable(u, o);
    }
  }

  lemma SettledOk(t: Task)
    requires Settled(t)
    ensures t.ok
  {
  }

  /** Without !canceled the last statement fails, in every configuration: a header was copied
      for precompilation or, to compare, the local compiler ran; gomacc leaves while compiler
      info is asked for, and the pipeline ends with that success. */
  lemma CanceledClaimsSuccess(c: Config)
    requires Consistent(c)
    ensures exists t :: && Told(c, t, None) && t.fact.canceled && t.fact.success
                        && t.log.answer == (if c.verify then Verified else RemoteResult)
  {
    hide GomaccClosed, RemoteStep, Settled, Told, CourseOf, Inv;
    var o := TaskConflicts.Plain;
    var t := ReachesSetup(c);
    var u := Step(t, GomaccClose, o);
    ToldOn(c, t, None, Deed(GomaccClose, o));
    StepKeeps(t, GomaccClose, o);
    SettledOk(u);
    CloseIs(t, o);
    ToldOn(c, u, None, Deed(RemoteEvent, o));
    RemoteTable(u, o);
    CanceledCourse(u, o);
    CanceledSeen(u, Step(u, RemoteEvent, o), o);
  }

  lemma CanceledCourse(t: Task, o: Oracle)
    requires t.pipe.remote == AwaitInfo && t.fact.canceled && o.info == InfoFound && o.depsCached
    ensures CourseOf(t, o) == Course(Ends, MindOf(t))
  {
  }

  lemma CanceledSeen(t: Task, u: Task, o: Oracle)
    requires Shows(SideOf(t), u, o, Course(Ends, MindOf(t)))
    requires !t.ctl.abort && !t.fact.gomacc && !t.loc.subproc && t.fact.canceled && t.fact.success
    ensures u.fact.canceled && u.fact.success && u.log.answer == if t.cfg.verify then Verified else RemoteResult
  {
  }

  lemma CloseIs(t: Task, o: Oracle)
    requires !t.loc.subproc
    ensures GomaccClosed(t, o) == t.(fact := t.fact.(canceled := true, gomacc := false, closable := false))
  {
  }

  // ---------------------------------------------------------------- ordinary results and retries

  /** A complete download of the remote result, in an ordinary race: its status is the result;
      a success stops the local side, and a failure calls it in where that is allowed; and
      without a local side the result is answered at once, with the remote outputs committed
      for a gomacc that is still there. */
  predicate Downloaded(t: Task, u: Task, o: Oracle) {
    var local := t.cfg.fallback && !t.fact.success && t.loc.wantFallback && t.fact.gomacc && o.aliveAtFinish;
    && u.ctl.finished && u.ctl.phase == Finished && u.fact.success == t.fact.success
    && (u.loc.failFallback <==> local)
    && (if local && o.limiterAllows then u.loc.subproc && u.log.answer == Unanswered
        else if t.loc.subproc then u.loc.subproc && u.loc.killed == o.killed && u.log.answer == Unanswered
        else u.log.answer == RemoteResult && u.log.dones == 1)
    && (t.fact.success && !t.loc.subproc && !t.loc.run ==>
          u.log.remoteCommits == if t.fact.gomacc && o.aliveAtReply then 1 else 0)
  }

  /** Every complete download is used in this way. */
  lemma DownloadedIsUsed(c: Config, t: Task, o: Oracle)
    requires Consistent(c) && Reachable(c, t) && Enabled(t, RemoteEvent) && t.pipe.remote == AwaitOutputs
    requires t.io.output.tasks <= 1 && t.io.output.good && o.taskOk && !Stopped(t) && !t.cfg.verify
    ensures Downloaded(t, Step(t, RemoteEvent, o), o)
  {
    hide Settled, RemoteStep, CourseOf, Shows, Downloaded;
    ReachableInv(c, t);
    assert Settled(t);
    RemoteTable(t, o);
    NothingYet(t);
    DownloadedCourse(t, o);
    DownloadedSeen(t, RemoteStep(t, o), o);
  }

  lemma DownloadedSeen(t: Task, u: Task, o: Oracle)
    requires Shows(SideOf(t), u, o, Course(Ends, MindOf(t))) && !Stopped(t) && !t.cfg.verify
    requires t.log.answer == Unanswered && t.log.remoteCommits == 0 && t.log.dones == 0
    ensures Downloaded(t, u, o)
  {
  }

  lemma DownloadedCourse(t: Task, o: Oracle)
    requires t.pipe.remote == AwaitOutputs
    requires t.io.output.tasks <= 1 && t.io.output.good && o.taskOk && !Stopped(t) && !t.cfg.verify
    ensures CourseOf(t, o) == Course(Ends, MindOf(t))
  {
  }

  lemma NothingYet(t: Task)
    requires Settled(t) && t.pipe.remote != Idle && !t.ctl.abort
    ensures t.log.answer == Unanswered && t.log.remoteCommits == 0 && t.log.dones == 0
  {
  }

  /** A failure that may pass is retried while the budget of four lasts, and not beyond. */
  lemma RetriesWhilePaid(c: Config, t: Task, o: Oracle)
    requires Consistent(c) && Reachable(c, t) && Enabled(t, RemoteEvent) && !Stopped(t) && !t.loc.subproc
    requires MayPass(t, o)
    ensures var u := Step(t, RemoteEvent, o);
            && u.pipe.retry == t.pipe.retry + 1 && (t.pipe.retry < 4 <==> u.pipe.remote != Idle)
            && (u.pipe.remote == Idle ==> u.ctl.finished)
  {
    hide Settled, RemoteStep, CourseOf;
    ReachableInv(c, t);
    assert Settled(t);
    RemoteTable(t, o);
    PassingCourse(t, o);
  }

  lemma PassingCourse(t: Task, o: Oracle)
    requires MayPass(t, o) && !Stopped(t) && !t.loc.subproc
    ensures var c := CourseOf(t, o);
            && c.mind.retry == t.pipe.retry + 1
            && (if t.pipe.retry < 4 then c.fate.Waits? && c.fate.next != Idle else c.fate == Ends)
  {
    match t.pipe.remote
    case AwaitInputs =>
    case AwaitExec =>
    case AwaitOutputs =>
  }

  /** Inputs could not be uploaded, the server failed without a verdict, or outputs could not be
      downloaded, while http is healthy. */
  predicate MayPass(t: Task, o: Oracle) {
    && o.healthy
    && match t.pipe.remote
       case AwaitInputs => t.io.input.tasks == 1 && !o.taskOk && o.uploading
       case AwaitExec => !o.rpcErr && !o.execMissing && o.serverError && !o.fatal
       case AwaitOutputs => t.io.output.tasks == 1 && !o.taskOk && !o.compilerDisabled
       case _ => false
  }
}
