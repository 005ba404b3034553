/**
 The remote pipeline of a compile task as one decision table: for each continuation, what
 the handlers behind it decide, as a condition on what the task knows and what it learns,
 and what gomacc, the subprocess and the next continuation see of the decision.

 The table knows nothing of the handlers of client/compile_task.cc, of the order in which
 they call each other, or of their CHECKs; it says for all of them together when the
 pipeline goes on, gives way, or ends, and with which result.
 */
module TaskTable {
  import opened TaskMachine

  /** What no decision of the pipeline touches before it is carried out. */
  datatype Side = Side(
    cfg: Config, abort: bool, canceled: bool, subproc: bool, delayed: bool, run: bool, upload: bool,
    calls: nat, log: Log)

  /** What the pipeline knows when it decides. */
  datatype Mind = Mind(success: bool, want: bool, retry: nat, gomacc: bool, missing: bool)

  datatype Fate =
    | Waits(next: Remote)   // another continuation is posted
    | Yields                // the subprocess has the field: LOCAL_RUN
    | Diverts               // set-up failed: the local compiler runs instead
    | Ends                  // the remote side is over

  datatype Course = Course(fate: Fate, mind: Mind)

  function SideOf(t: Task): Side {
    Side(t.cfg, t.ctl.abort, t.fact.canceled, t.loc.subproc, t.loc.delayed, t.loc.run, t.io.upload.cb,
         t.pipe.execCalls, t.log)
  }

  function MindOf(t: Task): Mind {
    Mind(t.fact.success, t.loc.wantFallback, t.pipe.retry, t.fact.gomacc, t.fact.missing)
  }

  // ---------------------------------------------------------------- the table

  const RetryBudget := 4

  predicate Stops(s: Side) {
    s.abort || s.canceled
  }

  /** In a race, the remote side gives way in phase p: to a local compiler that already runs,
      if it is not to be killed anyway or is preferred from this phase on; and to one that
      soon may, if http is ramped down or, after retries, few subprocesses are pending. */
  predicate Outrun(s: Side, m: Mind, p: Phase, o: Oracle) {
    && s.subproc && !s.cfg.verify && !s.cfg.gch
    && (|| (p in o.running && (s.cfg.dontKill || Rank(p) <= s.cfg.localPreference))
        || (m.retry <= 1 && p in o.httpDisabled) || (m.retry > 1 && p in o.fewPending))
  }

  function Fail(m: Mind): Mind { m.(success := false) }

  function Retry(m: Mind): Mind { m.(success := false, retry := m.retry + 1) }

  /** A command spec that does not match fails the compile, and may rule out a fallback. */
  function Judged(m: Mind, o: Oracle): Mind {
    m.(success := m.success && !o.specError, want := m.want && (o.specError ==> o.hermeticFallback))
  }

  /** Inputs are to be sent, by a task at the front of the queue if it links. */
  function Sends(s: Side, m: Mind, o: Oracle): (c: Course)
    ensures c.mind.gomacc == m.gomacc
    ensures c.mind.success ==> m.success
  {
    if Stops(s) then Course(Ends, m)
    else if Outrun(s, m, FileReq, o) then Course(Yields, m)
    else Course(Waits(AwaitInputs), m)
  }

  /** Inputs are to be sent, after queueing if it links. */
  function Requests(s: Side, m: Mind, o: Oracle): (c: Course)
    ensures c.mind.gomacc == m.gomacc
    ensures c.mind.success ==> m.success
  {
    if s.cfg.linking && !o.front then Course(Waits(AwaitLink), m) else Sends(s, m, o)
  }

  /** Exec is to be called. */
  function Calls(s: Side, m: Mind, o: Oracle): (c: Course)
    ensures c.mind.gomacc == m.gomacc
    ensures c.mind.success ==> m.success
  {
    if Stops(s) then Course(Ends, m)
    else if Outrun(s, m, CallExec, o) then Course(Yields, m)
    else Course(Waits(AwaitExec), m)
  }

  /** The outputs could not be had, or inputs were missing. */
  function Misses(s: Side, m: Mind, o: Oracle): (c: Course)
    ensures c.mind.gomacc == m.gomacc
    ensures c.mind.success ==> m.success
  {
    if !s.cfg.gch && s.subproc && o.runningLate then Course(Yields, m)
    else if o.compilerDisabled || !o.healthy then Course(Ends, Fail(m))
    else if m.retry < RetryBudget then Requests(s, Retry(m), o)
    else Course(Ends, Retry(m))
  }

  /** A result is there, to be downloaded. */
  function Responds(s: Side, m: Mind, o: Oracle): (c: Course)
    ensures (c.mind.gomacc ==> m.gomacc) && (m.gomacc && o.aliveAtResponse ==> c.mind.gomacc)
    ensures c.mind.success ==> m.success
  {
    if Stops(s) then Course(Ends, m)
    else if Outrun(s, m, FileResp, o) then Course(Yields, m)
    else if m.missing then Misses(s, Fail(m), o)
    else if m.gomacc && o.aliveAtResponse then Course(Waits(AwaitOutputs), m)
    else Course(Ends, m.(success := false, gomacc := false))
  }

  /** The server, or the way to it, gave a reason to retry. */
  function Rejected(s: Side, m: Mind, o: Oracle): (c: Course)
    ensures c.mind.gomacc == m.gomacc
    ensures c.mind.success ==> m.success
  {
    if !o.healthy then Course(Ends, Judged(m, o))
    else if m.retry < RetryBudget && !o.fatal then Course(Waits(AwaitExecRetry), m.(retry := m.retry + 1))
    else Course(Ends, Judged(Mind(m.success && !o.unsupported, m.want && !o.unsupported, m.retry + 1,
                                  m.gomacc, m.missing), o))
  }

  /** Set-up is over; `forced` if the local compiler is to run in any case. */
  function AfterSetup(s: Side, m: Mind, done: bool, forced: bool, o: Oracle): (c: Course)
    ensures c.mind.gomacc == m.gomacc
    ensures c.mind.success ==> m.success
  {
    if Stops(s) then Course(Ends, m)
    else if done then Requests(s, m, o)
    else if forced then Course(Diverts, m)
    else Course(Ends, Fail(m))
  }

  /** The include processor has found the required files, or has not. */
  function AfterFiles(s: Side, m: Mind, done: bool, o: Oracle): (c: Course)
    ensures c.mind.gomacc == m.gomacc
    ensures c.mind.success ==> m.success
  {
    AfterSetup(s, m, done || s.cfg.verifyCommand, true, o)
  }

  function AfterInfo(s: Side, m: Mind, o: Oracle): (c: Course)
    ensures c.mind.gomacc == m.gomacc
    ensures c.mind.success ==> m.success
  {
    if o.info == InfoFound && !o.depsCached then Course(Waits(AwaitInclude), m)
    else if Stops(s) then Course(Ends, m.(success := m.success && o.info == InfoFound))
    else if o.info == InfoFound then Requests(s, m, o)
    else if o.info != NoInfo && m.want && !s.cfg.failFast then Course(Diverts, Fail(m))
    else Course(Ends, Fail(m))
  }

  function AfterInclude(s: Side, m: Mind, o: Oracle): (c: Course)
    ensures c.mind.gomacc == m.gomacc
    ensures c.mind.success ==> m.success
  {
    var skipped := Stops(s) && o.includeSkipped;
    var n := m.(success := m.success && (skipped || o.includeOk || !o.includeError));
    if Stops(s) then Course(Ends, n)
    else if o.includeOk || s.cfg.verifyCommand then Requests(s, n, o)
    else Course(Diverts, n)
  }

  /** The last input file task has reported; `good` if none of them failed. */
  function AfterInputs(s: Side, m: Mind, good: bool, o: Oracle): (c: Course)
    ensures (c.mind.gomacc ==> m.gomacc) && (m.gomacc && o.aliveAtResponse ==> c.mind.gomacc)
    ensures c.mind.success ==> m.success || (!Stops(s) && good && o.cacheHit)
  {
    if Stops(s) then Course(Ends, m)
    else if good then
      if o.cacheHit then Responds(s, m.(success := true), o) else Calls(s, m, o)
    else if s.subproc && o.runningLate then Course(Yields, m)
    else if !o.healthy || !o.uploading then Course(Ends, Fail(m))
    else Course(if m.retry < RetryBudget then Waits(AwaitFileRetry) else Ends, Retry(m))
  }

  function AfterExec(s: Side, m: Mind, o: Oracle): (c: Course)
    ensures (c.mind.gomacc ==> m.gomacc) && (m.gomacc && o.aliveAtResponse ==> c.mind.gomacc)
    ensures c.mind.success ==> o.execSuccess
  {
    var n := m.(success := o.execSuccess, missing := o.execMissing);
    if Stops(s) then Course(Ends, n)
    else if o.rpcErr then
      if s.subproc && o.runningLate && !o.receiving then Course(Yields, n)
      else if o.serverError || o.retryable || o.receiving then Rejected(s, Fail(n), o)
      else Course(Ends, Fail(n))
    else if o.execMissing then Responds(s, n, o)
    else if o.serverError then Rejected(s, n, o)
    else Responds(s, Judged(n, o), o)
  }

  /** The last output file task has reported; `good` if none of them failed. */
  function AfterOutputs(s: Side, m: Mind, good: bool, o: Oracle): (c: Course)
    ensures c.mind.gomacc == m.gomacc
    ensures c.mind.success ==> m.success
  {
    if Stops(s) then Course(Ends, m)
    else if !good then Misses(s, m, o)
    else Course(Ends, m.(success := m.success && (s.cfg.verify ==> o.verifyOk)))
  }

  // ---------------------------------------------------------------- what is seen of a decision

  /** gomacc is taken to be there at the end of the remote side. */
  predicate Alive(s: Side, m: Mind, o: Oracle) {
    m.gomacc && (s.cfg.fallback && !m.success ==> o.aliveAtFinish)
  }

  /** The remote result is a failure that a local run may make good. */
  predicate Hopes(s: Side, m: Mind, o: Oracle) {
    s.cfg.fallback && !m.success && m.want && Alive(s, m, o)
  }

  /** The answer that carries the remote result: outputs are committed exactly for a gomacc
      that is still there, and the remote ones unless a local run was left to finish. */
  function RemoteReply(log: Log, alive: bool, local: bool): Log {
    Log(commits := log.commits + if alive then 1 else 0,
        remoteCommits := log.remoteCommits + if alive && !local then 1 else 0,
        replies := log.replies + 1, dones := log.dones + 1, answer := RemoteResult)
  }

  /** The end of the remote side: what was answered first stands; verify_output reports; a
      failure that may fall back does so if it is allowed to; otherwise the remote result is
      answered, at once or when the subprocess is gone. */
  predicate Over(s: Side, m: Mind, u: Task, o: Oracle) {
    if s.abort then
      u.log == s.log.(dones := s.log.dones + if s.upload then 0 else 1) && !u.loc.failFallback
    else
      && u.ctl.phase == Finished && !u.loc.delayed
      && if s.cfg.verify then
           && u.log == s.log.(replies := s.log.replies + 1, dones := s.log.dones + 1, answer := Verified)
           && !u.loc.subproc && !u.loc.failFallback
         else
           && (u.loc.failFallback <==> Hopes(s, m, o))
           && if Hopes(s, m, o) && o.limiterAllows then
                u.loc.subproc && u.log == s.log
              else if s.subproc then
                u.loc.subproc && u.loc.killed == o.killed && u.log == s.log
              else
                && !u.loc.subproc
                && u.log == RemoteReply(s.log, Alive(s, m, o) && o.aliveAtReply, s.run && s.cfg.dontKill)
  }

  /** u shows that course c was taken. */
  predicate Shows(s: Side, u: Task, o: Oracle, c: Course) {
    && u.fact.success == c.mind.success && u.loc.wantFallback == c.mind.want && u.pipe.retry == c.mind.retry
    && u.fact.canceled == s.canceled && u.cfg == s.cfg && u.loc.run == s.run
    && u.pipe.execCalls == s.calls + (if c.fate == Waits(AwaitExec) then 1 else 0)
    && match c.fate
       case Waits(r) =>
         var heavy := r == AwaitExec && s.cfg.heavy && s.cfg.useLocal;
         && u.pipe.remote == r && !u.ctl.finished && !u.loc.failFallback && u.log == s.log
         && u.fact.gomacc == c.mind.gomacc && u.fact.missing == c.mind.missing
         && (u.loc.subproc <==> s.subproc || heavy)
         && (r == AwaitInputs ==> u.io.input == Batch(true, o.inputCount, true))
         && (r == AwaitOutputs ==>
               && u.io.output == Batch(true, o.outputCount, true) && u.io.infos == o.outputCount
               && (u.io.direct <==> c.mind.success && !s.cfg.verify && !s.subproc)
               && (u.loc.delayed <==> s.delayed && (s.cfg.verify || !c.mind.success)))
         && (r != AwaitOutputs && !heavy ==> u.loc.delayed == s.delayed)
       case Yields =>
         && u.pipe.remote == Idle && u.ctl.phase == LocalRun && !u.ctl.finished
         && u.loc.subproc && !u.loc.failFallback && u.log == s.log
       case Diverts =>
         && u.pipe.remote == Idle && u.ctl.phase == Init && !u.ctl.finished
         && u.loc.subproc && u.loc.shouldFallback && !u.loc.failFallback && u.log == s.log
       case Ends =>
         u.pipe.remote == Idle && u.ctl.finished && Over(s, c.mind, u, o)
  }

  // ---------------------------------------------------------------- one remote event

  /** The batch that the task waits for, if any. */
  function Pending(t: Task): Batch {
    if t.pipe.remote == AwaitInputs then t.io.input
    else if t.pipe.remote == AwaitOutputs then t.io.output
    else NoBatch
  }

  /** What is known once the last file task has reported: a file task that fails, other than
      after abort_, costs the success, unless only the input was bad. */
  function Heard(t: Task, o: Oracle): Mind {
    var b := Pending(t);
    MindOf(t).(success := t.fact.success && (|| b.tasks == 0 || o.taskOk || t.ctl.abort
                                             || (t.pipe.remote == AwaitInputs && o.badInput)))
  }

  /** All file tasks of the batch did well. */
  predicate AllGood(t: Task, o: Oracle) {
    Pending(t).good && (Pending(t).tasks == 0 || (o.taskOk && !t.ctl.abort))
  }

  /** The table. */
  function CourseOf(t: Task, o: Oracle): (c: Course)
    ensures (c.mind.gomacc ==> t.fact.gomacc) && (t.fact.gomacc && o.aliveAtResponse ==> c.mind.gomacc)
  {
    var s, m := SideOf(t), MindOf(t);
    match t.pipe.remote
    case Idle => Course(Ends, m)
    case AwaitInfo => AfterInfo(s, m, o)
    case AwaitInclude => AfterInclude(s, m, o)
    case AwaitLink => Sends(s, m, o)
    case AwaitFileRetry => Requests(s, m, o)
    case AwaitInputs => AfterInputs(s, Heard(t, o), AllGood(t, o), o)
    case AwaitExecRetry => Calls(s, m, o)
    case AwaitExec => AfterExec(s, m, o)
    case AwaitOutputs => AfterOutputs(s, Heard(t, o), AllGood(t, o), o)
  }

  /** One file task of several has reported: nothing is decided yet. */
  predicate CountsDown(t: Task, u: Task, o: Oracle)
    requires Pending(t).tasks > 1
  {
    && u.pipe == t.pipe && u.ctl == t.ctl && u.loc == t.loc && u.log == t.log && u.cfg == t.cfg
    && u.fact == t.fact.(success := Heard(t, o).success)
    && Pending(u) == Batch(Pending(t).cb, Pending(t).tasks - 1, AllGood(t, o))
  }

  // ---------------------------------------------------------------- the start

  /** How a request begins: refused at once; with the local compiler alone, to compare or
      because the remote side is not to be used; or with the remote side, and the local one
      beside it now, later or never. There is no result yet, but a header copied for
      precompilation counts as one. */
  predicate Begins(c: Config, u: Task, o: Oracle) {
    var first := NewTask(c);
    var forced := o.wantsFallback && !c.verifyCommand;
    var races := c.fallback && c.useLocal && !c.heavy;
    && u.cfg == c && u.started && u.fact.closable && u.fact.success == (!o.startFails && o.copied)
    && u.loc.wantFallback == c.fallback && !u.loc.failFallback
    && if o.startFails then
         && u.log == first.log.(replies := 1, dones := 1, answer := InitFailure)
         && !u.loc.subproc && !u.loc.delayed && u.pipe == first.pipe
       else
         && u.log == first.log && u.fact.gomacc == o.hasPid
         && if c.verify || forced || o.rampedDown then
              && u.loc.subproc && u.pipe == first.pipe && u.ctl == first.ctl
              && (u.loc.shouldFallback <==> forced || (!c.verify && o.rampedDown))
            else
              var gives := races && o.localNow
                           && (Outrun(SideOf(u), MindOf(u), Init, o) || Outrun(SideOf(u), MindOf(u), Setup, o));
              && !u.loc.shouldFallback && (u.loc.subproc <==> races && o.localNow)
              && (u.loc.delayed <==> races && !o.localNow)
              && u.ctl == first.ctl.(phase := if gives then LocalRun else Setup)
              && u.pipe == first.pipe.(remote := if gives then Idle else AwaitInfo)
  }

  // ---------------------------------------------------------------- the end of the subprocess

  /** The compiler could not be run, or the way it was run failed: no fault of the compile. */
  predicate Faulty(t: Task, o: Oracle) {
    if o.procStarted then !t.loc.killed && o.status < 0 else o.status == InternalError
  }

  /** The local outputs are of use. */
  predicate Useful(t: Task, o: Oracle) {
    if o.procStarted then t.loc.killed || o.status == 0 else o.status != InternalError
  }

  /** The answer that the end of the subprocess brings, if any: the remote result if the remote
      side is through; nothing yet if results are to be compared, or if the remote side is
      still at work and the local one failed through no fault of the compile. */
  function LocalAnswer(t: Task, o: Oracle): Answer {
    if t.ctl.phase == Finished && !t.loc.failFallback then RemoteResult
    else if t.loc.shouldFallback then SetupFallback
    else if t.cfg.verify then Unanswered
    else if t.loc.failFallback then FailFallback
    else if t.ctl.phase == LocalRun then LocalOnly
    else if Faulty(t, o) then Unanswered
    else LocalFirst
  }

  /** The local outputs are uploaded. */
  predicate Uploads(t: Task, o: Oracle) {
    && t.cfg.storeOutput && Useful(t, o)
    && LocalAnswer(t, o) != RemoteResult && (LocalAnswer(t, o) == Unanswered ==> !t.cfg.verify)
  }

  /** The answer to gomacc is the last thing that the compile task has to do. */
  predicate Concludes(answer: Answer) {
    answer != LocalFirst && answer != Unanswered
  }

  function Answered(log: Log, answer: Answer, done: bool): Log {
    log.(replies := log.replies + 1, answer := answer, dones := log.dones + if done then 1 else 0)
  }

  function LogAfter(t: Task, o: Oracle): Log {
    var answer := LocalAnswer(t, o);
    if answer == RemoteResult then
      RemoteReply(t.log, t.fact.gomacc && o.aliveAtReply, (t.loc.run || o.procStarted) && t.cfg.dontKill)
    else if answer == Unanswered then t.log
    else Answered(t.log, answer, Concludes(answer) && !Uploads(t, o))
  }

  /** What is seen when the subprocess has ended: its exit status becomes the result, unless
      the remote side is through; and either the answer is out, or the remote side goes on. */
  predicate Closes(t: Task, u: Task, o: Oracle) {
    var answer := LocalAnswer(t, o);
    && u.loc == t.loc.(subproc := false, run := t.loc.run || o.procStarted) && u.cfg == t.cfg
    && u.log == LogAfter(t, o)
    && (u.ctl.abort <==> answer == LocalFirst) && (u.ctl.finished <==> t.ctl.finished || Concludes(answer))
    && u.fact == t.fact.(gomacc := t.fact.gomacc && answer == Unanswered,
                         success := if answer == RemoteResult then
                                      t.fact.success && (o.procStarted || o.status != InternalError)
                                    else o.status == 0)
    && (u.io.upload == if Uploads(t, o) then Batch(true, o.uploadCount, true) else t.io.upload)
    && if t.cfg.verify && answer == Unanswered then
         u.pipe == t.pipe.(remote := AwaitInfo) && u.ctl.phase == Setup
       else
         && u.pipe == t.pipe
         && u.ctl.phase == if answer == SetupFallback || answer == LocalOnly then LocalFinished else t.ctl.phase
  }
}
