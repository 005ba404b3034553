/**
 The limiter on concurrent fail fallbacks (client/compile_service.cc): a counter of local
 runs started because the remote compile failed, and the time since which it has been
 above its maximum. Past the allowed duration, further fallbacks are refused.
 */
module FailFallback {
  import opened Basics

  /** What an observer records: the counter after each event that changes it. */
  datatype Sample = Raised(now: int, num: int) | Lowered(num: int)

  datatype Limiter = Limiter(
    max: int,                // max_active_fail_fallback_tasks_; negative means no limit
    allowed: int,            // allowed_max_active_fail_fallback_duration_
    num: int,                // num_active_fail_fallback_tasks_
    reached: Option<int>,    // reached_max_active_fail_fallback_time_
    open: set<nat>,          // tasks with fail_fallback_ set that have not completed
    lost: set<nat>,          // such tasks that completed after being canceled
    samples: seq<Sample>)

  function NewLimiter(max: int, allowed: int): Limiter {
    Limiter(max, allowed, 0, None, {}, {}, [])
  }

  // ---------------------------------------------------------------- operations

  /** IncrementActiveFailFallbackTasks by task id, at time now. */
  function Raise(l: Limiter, id: nat, now: int): Limiter {
    var num := l.num + 1;
    l.(num := num,
       reached := if l.max < 0 || num <= l.max || l.reached.Some? then l.reached else Some(now),
       open := l.open + {id},
       samples := l.samples + [Raised(now, num)])
  }

  predicate Allows(l: Limiter, now: int) {
    || l.max < 0 || l.num + 1 <= l.max
    || now < (if l.reached.Some? then l.reached.value else now) + l.allowed
  }

  /** CompileTaskDone: only a task that was not canceled gives its place back. */
  function Complete(l: Limiter, id: nat, canceled: bool): Limiter {
    if id !in l.open then
      l
    else if canceled then
      l.(open := l.open - {id}, lost := l.lost + {id})
    else
      l.(num := l.num - 1,
         reached := if l.num - 1 <= l.max then None else l.reached,
         open := l.open - {id},
         samples := l.samples + [Lowered(l.num - 1)])
  }

  datatype Op = RaiseOp(id: nat, now: int) | CompleteOp(id: nat, canceled: bool)

  /** A task falls back at most once, before it completes. */
  predicate Allowed(l: Limiter, op: Op) {
    match op
    case RaiseOp(id, _) => id !in l.open && id !in l.lost
    case CompleteOp(_, _) => true
  }

  function Apply(l: Limiter, op: Op): Limiter {
    match op
    case RaiseOp(id, now) => Raise(l, id, now)
    case CompleteOp(id, canceled) => Complete(l, id, canceled)
  }

  function After(l: Limiter, ops: seq<Op>): Limiter {
    if ops == [] then l else Apply(After(l, ops[..|ops| - 1]), ops[|ops| - 1])
  }

  predicate Legal(l: Limiter, ops: seq<Op>) {
    ops != [] ==>
      Legal(l, ops[..|ops| - 1]) && Allowed(After(l, ops[..|ops| - 1]), ops[|ops| - 1])
  }

  // ---------------------------------------------------------------- what every operation keeps

  /** The counter has been above max since sample k, and was not before. */
  predicate AboveSince(samples: seq<Sample>, max: int, k: int) {
    && 0 <= k < |samples| && samples[k].Raised?
    && (if k == 0 then max >= 0 else samples[k - 1].num <= max)
    && forall i :: k <= i < |samples| ==> samples[i].num > max
  }

  /** reached_max_active_fail_fallback_time_ dates the start of the present excess. */
  ghost predicate Dated(l: Limiter) {
    && (l.reached.None? <==> l.max < 0 || l.num <= l.max)
    && (l.reached.Some? ==>
          exists k :: AboveSince(l.samples, l.max, k) && l.samples[k].now == l.reached.value)
  }

  ghost predicate Inv(l: Limiter) {
    && l.open !! l.lost && l.num == |l.open| + |l.lost|
    && l.num == (if l.samples == [] then 0 else l.samples[|l.samples| - 1].num)
    && Dated(l)
  }

  lemma RaiseKeeps(l: Limiter, id: nat, now: int)
    requires Inv(l) && id !in l.open && id !in l.lost
    ensures Inv(Raise(l, id, now))
  {
    var m := Raise(l, id, now);
    if l.reached.Some? {
      var k :| AboveSince(l.samples, l.max, k) && l.samples[k].now == l.reached.value;
      assert AboveSince(m.samples, m.max, k) && m.samples[k].now == m.reached.value;
    } else if m.reached.Some? {
      var k := |l.samples|;
      assert AboveSince(m.samples, m.max, k) && m.samples[k].now == m.reached.value;
    }
  }

  lemma CompleteKeeps(l: Limiter, id: nat, canceled: bool)
    requires Inv(l)
    ensures Inv(Complete(l, id, canceled))
  {
    var m := Complete(l, id, canceled);
    if l.reached.Some? {
      var k :| AboveSince(l.samples, l.max, k) && l.samples[k].now == l.reached.value;
      if m.reached.Some? {
        assert AboveSince(m.samples, m.max, k) && m.samples[k].now == m.reached.value;
      }
    }
  }

  lemma {:induction false} AfterKeeps(max: int, allowed: int, ops: seq<Op>)
    requires Legal(NewLimiter(max, allowed), ops)
    ensures Inv(After(NewLimiter(max, allowed), ops))
    ensures After(NewLimiter(max, allowed), ops).max == max && After(NewLimiter(max, allowed), ops).allowed == allowed
  {
    var l := NewLimiter(max, allowed);
    if ops != [] {
      AfterKeeps(max, allowed, ops[..|ops| - 1]);
      var m := After(l, ops[..|ops| - 1]);
      match ops[|ops| - 1]
      case RaiseOp(id, now) => RaiseKeeps(m, id, now);
      case CompleteOp(id, canceled) => CompleteKeeps(m, id, canceled);
    }
  }

  // ---------------------------------------------------------------- whole runs

  /** Some task completed canceled while it was falling back. */
  ghost predicate CanceledInFallback(l: Limiter, ops: seq<Op>) {
    exists i, id :: 0 <= i < |ops| && ops[i] == CompleteOp(id, true) && id in After(l, ops[..i]).open
  }

  lemma CanceledBefore(l: Limiter, ops: seq<Op>)
    requires ops != []
    ensures var n := |ops| - 1;
            CanceledInFallback(l, ops) <==>
            || CanceledInFallback(l, ops[..n])
            || (ops[n].CompleteOp? && ops[n].canceled && ops[n].id in After(l, ops[..n]).open)
  {
    var n := |ops| - 1;
    hide After;
    if CanceledInFallback(l, ops) {
      var i, id :| 0 <= i < |ops| && ops[i] == CompleteOp(id, true) && id in After(l, ops[..i]).open;
      if i < n { assert ops[..n][i] == CompleteOp(id, true) && ops[..n][..i] == ops[..i]; }
    }
    if CanceledInFallback(l, ops[..n]) {
      var i, id :| 0 <= i < n && ops[..n][i] == CompleteOp(id, true) && id in After(l, ops[..n][..i]).open;
      assert ops[i] == CompleteOp(id, true) && ops[..n][..i] == ops[..i];
    }
  }

  lemma {:induction false} LostExactly(max: int, allowed: int, ops: seq<Op>)
    ensures var l := NewLimiter(max, allowed);
            After(l, ops).lost != {} <==> CanceledInFallback(l, ops)
  {
    var l := NewLimiter(max, allowed);
    if ops != [] {
      var n := |ops| - 1;
      LostExactly(max, allowed, ops[..n]);
      CanceledBefore(l, ops);
      hide CanceledInFallback;
      var m := After(l, ops[..n]);
      assert After(l, ops) == Apply(m, ops[n]);
      hide After;
      if ops[n].CompleteOp? && ops[n].canceled && ops[n].id in m.open {
        assert ops[n].id in Apply(m, ops[n]).lost;
      }
    }
  }

  /** The DCHECK on the counter never fails. Beyond the tasks now falling back it counts
      those that completed canceled, which never give their place back; so it is the number
      of tasks now falling back exactly when no task ever completed canceled during its
      fallback. */
  lemma CounterIs(max: int, allowed: int, ops: seq<Op>)
    requires Legal(NewLimiter(max, allowed), ops)
    ensures var l := After(NewLimiter(max, allowed), ops);
            && l.num >= 0 && l.num == |l.open| + |l.lost|
            && (l.num == |l.open| <==> !CanceledInFallback(NewLimiter(max, allowed), ops))
            && (forall id, canceled :: Complete(l, id, canceled).num >= 0)
  {
    AfterKeeps(max, allowed, ops);
    LostExactly(max, allowed, ops);
    hide CanceledInFallback;
    var l := After(NewLimiter(max, allowed), ops);
    assert l.lost == {} <==> |l.lost| == 0;
    forall id, canceled
      ensures Complete(l, id, canceled).num >= 0
    {
      CompleteKeeps(l, id, canceled);
    }
  }

  /** One canceled fallback, and the limiter stays a place short for ever. */
  lemma CanceledTaskLeaks()
    ensures exists ops :: Legal(NewLimiter(0, 10), ops) && After(NewLimiter(0, 10), ops).open == {}
                          && After(NewLimiter(0, 10), ops).num == 1 && !Allows(After(NewLimiter(0, 10), ops), 15)
  {
    var l := NewLimiter(0, 10);
    var raise, complete := RaiseOp(0, 5), CompleteOp(0, true);
    var ops := [raise, complete];
    assert ops[..1] == [raise] && ops[..1][..0] == [];
    assert After(l, [raise]) == Raise(l, 0, 5);
    assert After(l, ops) == Complete(Raise(l, 0, 5), 0, true);
    assert Legal(l, [raise]);
    assert Legal(l, ops);
  }

  /** A fallback is refused exactly when, counting it, the counter is above a non-negative
      maximum and has been so without a break for the allowed duration. */
  lemma RefusedExactly(max: int, allowed: int, ops: seq<Op>, id: nat, now: int)
    requires Legal(NewLimiter(max, allowed), ops)
    requires var l := After(NewLimiter(max, allowed), ops); id !in l.open && id !in l.lost
    ensures var l := After(NewLimiter(max, allowed), ops);
            var m := Raise(l, id, now);
            !Allows(l, now) <==>
            max >= 0 && exists k :: AboveSince(m.samples, max, k) && now >= m.samples[k].now + allowed
  {
    AfterKeeps(max, allowed, ops);
    var l := After(NewLimiter(max, allowed), ops);
    RaiseKeeps(l, id, now);
    var m := Raise(l, id, now);
    forall j, k | AboveSince(m.samples, max, j) && AboveSince(m.samples, max, k)
      ensures j == k
    {
      OneStart(m.samples, max, j, k);
    }
  }

  lemma OneStart(samples: seq<Sample>, max: int, j: int, k: int)
    requires AboveSince(samples, max, j) && AboveSince(samples, max, k)
    ensures j == k
  {
  }

  // ---------------------------------------------------------------- the limiter as an object

  class FailFallbackLimiter {
    const max: int
    const allowed: int
    var num: int
    var reached: Option<int>
    ghost var open: set<nat>
    ghost var lost: set<nat>
    ghost var samples: seq<Sample>

    ghost function View(): Limiter
      reads this
    {
      Limiter(max, allowed, num, reached, open, lost, samples)
    }

    constructor (max: int, allowed: int)
      ensures View() == NewLimiter(max, allowed)
    {
      this.max, this.allowed, num, reached := max, allowed, 0, None;
      open, lost, samples := {}, {}, [];
    }

    method IncrementActiveFailFallbackTasks(ghost id: nat, now: int) returns (allow: bool)
      modifies this
      ensures View() == Raise(old(View()), id, now)
      ensures allow == Allows(old(View()), now)
    {
      num := num + 1;
      open := open + {id};
      samples := samples + [Raised(now, num)];
      if max < 0 || num <= max {
        return true;
      }
      if reached.None? {
        reached := Some(now);
      }
      return now < reached.value + allowed;
    }

    /** The part of CompileTaskDone for a task that had fallen back. */
    method TaskDone(ghost id: nat, canceled: bool)
      requires id in open && Inv(View())
      modifies this
      ensures View() == Complete(old(View()), id, canceled)
      ensures num >= 0
    {
      CompleteKeeps(View(), id, canceled);
      open := open - {id};
      if canceled {
        lost := lost + {id};
      } else {
        num := num - 1;
        samples := samples + [Lowered(num)];
        if num <= max {
          reached := None;
        }
      }
    }
  }
}
