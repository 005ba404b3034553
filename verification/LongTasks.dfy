/**
 long_tasks_ of client/compile_service.cc: the max_long_tasks_ slowest completed tasks,
 kept as a heap whose first element is the fastest of them. push_heap and pop_heap are
 those of the C++ library, ordered by CompareTaskHandlerTime.
 */
module LongTasks {

  /** A completed task and its handler time. */
  datatype Entry = Entry(id: nat, time: int)

  function Parent(i: int): int
    requires i > 0
  {
    (i - 1) / 2
  }

  predicate IsHeap(v: seq<Entry>) {
    forall i :: 0 < i < |v| ==> v[Parent(i)].time <= v[i].time
  }

  lemma {:induction false} FirstIsShortest(v: seq<Entry>, i: int)
    requires IsHeap(v) && 0 <= i < |v|
    ensures v[0].time <= v[i].time
    decreases i
  {
    if i > 0 { FirstIsShortest(v, Parent(i)); }
  }

  function Swap(v: seq<Entry>, i: int, j: int): (w: seq<Entry>)
    requires 0 <= i < |v| && 0 <= j < |v|
    ensures multiset(w) == multiset(v)
  {
    v[i := v[j]][j := v[i]]
  }

  /** A heap, except that the element at i may be too small for its place. */
  predicate RisingHeap(v: seq<Entry>, i: int) {
    && 0 <= i < |v|
    && (forall j :: 0 < j < |v| && j != i ==> v[Parent(j)].time <= v[j].time)
    && (forall j :: 0 < j < |v| && Parent(j) == i && i > 0 ==> v[Parent(i)].time <= v[j].time)
  }

  /** push_heap: the last element joins the heap formed by those before it. */
  method PushHeap(v: seq<Entry>) returns (w: seq<Entry>)
    requires |v| > 0 && IsHeap(v[..|v| - 1])
    ensures multiset(w) == multiset(v) && |w| == |v| && IsHeap(w)
  {
    w := v;
    var i := |v| - 1;
    forall j | 0 < j < |v| && j != i
      ensures v[Parent(j)].time <= v[j].time
    {
      assert v[..i][Parent(j)].time <= v[..i][j].time;
    }
    while i > 0 && w[i].time < w[Parent(i)].time
      invariant |w| == |v| && multiset(w) == multiset(v) && RisingHeap(w, i)
    {
      RiseOnce(w, i);
      w := Swap(w, i, Parent(i));
      i := Parent(i);
    }
  }

  lemma RiseOnce(v: seq<Entry>, i: int)
    requires RisingHeap(v, i) && i > 0 && v[i].time < v[Parent(i)].time
    ensures RisingHeap(Swap(v, i, Parent(i)), Parent(i))
  {
    var p := Parent(i);
    var w := Swap(v, i, p);
    forall j | 0 < j < |w| && j != p
      ensures w[Parent(j)].time <= w[j].time
    {
      if Parent(j) == p && j != i {
        assert v[p].time <= v[j].time;
      }
    }
    if p > 0 {
      forall j | 0 < j < |w| && Parent(j) == p
        ensures w[Parent(p)].time <= w[j].time
      {
        assert v[Parent(p)].time <= v[p].time;
        if j != i { assert v[p].time <= v[j].time; }
      }
    }
  }

  /** A heap on the first n elements, except that the one at i may be too large. */
  predicate SinkingHeap(v: seq<Entry>, n: int, i: int) {
    && 0 <= i && 0 <= n <= |v|
    && (forall j :: 0 < j < n && Parent(j) != i ==> v[Parent(j)].time <= v[j].time)
    && (forall j :: 0 < j < n && Parent(j) == i && 0 < i < n ==> v[Parent(i)].time <= v[j].time)
  }

  lemma SinkOnce(v: seq<Entry>, n: int, i: int, c: int)
    requires SinkingHeap(v, n, i) && 0 < c < n && Parent(c) == i && v[c].time < v[i].time
    requires forall j :: 0 < j < n && Parent(j) == i ==> v[c].time <= v[j].time
    ensures SinkingHeap(Swap(v, i, c), n, c)
  {
    var w := Swap(v, i, c);
    forall j | 0 < j < n && Parent(j) != c
      ensures w[Parent(j)].time <= w[j].time
    {
      if Parent(j) == i {
        assert v[c].time <= v[j].time;
      } else if j == i {
        assert Parent(c) == i && v[Parent(i)].time <= v[c].time;
      } else {
        assert v[Parent(j)].time <= v[j].time;
      }
    }
  }

  lemma SwappedSinks(v: seq<Entry>, n: int)
    requires IsHeap(v) && n == |v| - 1 >= 0
    ensures SinkingHeap(Swap(v, 0, n), n, 0)
  {
    forall j | 0 < j < n && Parent(j) != 0
      ensures Swap(v, 0, n)[Parent(j)].time <= Swap(v, 0, n)[j].time
    {
      assert v[Parent(j)].time <= v[j].time;
    }
  }

  /** The child with the smaller time; the only one there is, near the end. */
  function SmallerChild(v: seq<Entry>, n: int, i: int): (c: int)
    requires 0 <= i && 2 * i + 1 < n <= |v|
    ensures 0 < c < n && Parent(c) == i && c > i
    ensures forall j :: 0 < j < n && Parent(j) == i ==> v[c].time <= v[j].time
  {
    assert forall j :: 0 < j < n && Parent(j) == i ==> j == 2 * i + 1 || j == 2 * i + 2;
    if 2 * i + 2 < n && v[2 * i + 2].time < v[2 * i + 1].time then 2 * i + 2 else 2 * i + 1
  }

  predicate Sunk(v: seq<Entry>, n: int, i: int) {
    && 0 <= i && 0 <= n <= |v|
    && (forall j :: 0 < j < n && Parent(j) == i ==> v[i].time <= v[j].time)
  }

  lemma SunkIsHeap(v: seq<Entry>, n: int, i: int)
    requires SinkingHeap(v, n, i) && Sunk(v, n, i)
    ensures IsHeap(v[..n])
  {
    forall j | 0 < j < n
      ensures v[..n][Parent(j)].time <= v[..n][j].time
    {
      if Parent(j) != i { assert v[Parent(j)].time <= v[j].time; }
    }
  }

  /** pop_heap: the first element goes last, the others form a heap again. */
  method PopHeap(v: seq<Entry>) returns (w: seq<Entry>)
    requires |v| > 0 && IsHeap(v)
    ensures multiset(w) == multiset(v) && |w| == |v| && w[|w| - 1] == v[0]
    ensures IsHeap(w[..|w| - 1])
  {
    var n := |v| - 1;
    w := Swap(v, 0, n);
    SwappedSinks(v, n);
    hide SinkingHeap, IsHeap;
    var i := 0;
    while 2 * i + 1 < n
      invariant 0 <= i && |w| == |v| && multiset(w) == multiset(v) && w[n] == v[0]
      invariant SinkingHeap(w, n, i)
      decreases n - i
    {
      var c := SmallerChild(w, n, i);
      if w[i].time <= w[c].time {
        break;
      }
      SinkOnce(w, n, i, c);
      w := Swap(w, i, c);
      i := c;
    }
    assert Sunk(w, n, i);
    SunkIsHeap(w, n, i);
  }

  // ---------------------------------------------------------------- the K slowest tasks

  /** kept are the k entries of all with the largest times, or all of them. */
  predicate IsTop(kept: multiset<Entry>, all: multiset<Entry>, k: int) {
    && kept <= all
    && |kept| == (if |all| < k then |all| else k)
    && forall a, b :: a in kept && b in all - kept ==> a.time >= b.time
  }

  /** The entry that must leave long_tasks_ for e, if any. */
  function Evicted(long: seq<Entry>, max: int, e: Entry): seq<Entry> {
    if |long| >= max && |long| > 0 && e.time > long[0].time then [long[0]] else []
  }

  predicate Admits(long: seq<Entry>, max: int, e: Entry) {
    |long| < max || (|long| > 0 && e.time > long[0].time)
  }

  /** What long_tasks_ may be after e: a heap of the old entries, less the evicted one,
      with e. Where e is too fast, nothing changes. */
  predicate Recorded(long: seq<Entry>, max: int, e: Entry, w: seq<Entry>) {
    if Admits(long, max, e) then
      IsHeap(w) && multiset(w) == multiset(long) - multiset(Evicted(long, max, e)) + multiset{e}
    else
      w == long
  }

  /** CompileTaskDone, as far as long_tasks_ is concerned. */
  method Record(long: seq<Entry>, max: int, e: Entry) returns (w: seq<Entry>, evicted: seq<Entry>)
    requires IsHeap(long) && max >= 1
    ensures Recorded(long, max, e, w) && evicted == Evicted(long, max, e)
  {
    w, evicted := long, [];
    var isLongest := false;
    if |long| < max {
      w := w + [e];
      isLongest := true;
      assert w[..|w| - 1] == long;
    } else if e.time > w[0].time {
      w := PopHeap(w);
      evicted := [w[|w| - 1]];
      ghost var rest := w[..|w| - 1];
      assert w == rest + evicted;
      w := w[|w| - 1 := e];
      isLongest := true;
      assert w[..|w| - 1] == rest && w == rest + [e];
    }
    if isLongest {
      w := PushHeap(w);
    }
  }

  /** A task is kept exactly if there is room, or if it took longer than one that is kept; on a
      tie the older one stays. */
  lemma RecordsExactly(long: seq<Entry>, max: int, e: Entry, w: seq<Entry>)
    requires max >= 1 && IsHeap(long) && Recorded(long, max, e, w)
    ensures |long| < max ==> multiset(w) == multiset(long) + multiset{e}
    ensures |long| >= max && (forall i :: 0 <= i < |long| ==> e.time <= long[i].time) ==> w == long
    ensures |long| >= max && (exists i :: 0 <= i < |long| && e.time > long[i].time) ==>
              multiset(w) == multiset(long) - multiset{long[0]} + multiset{e}
  {
    if i :| 0 <= i < |long| && e.time > long[i].time { FirstIsShortest(long, i); }
  }

  /** multiset facts, element by element. */
  lemma SubsetOfSameSize(a: multiset<Entry>, b: multiset<Entry>)
    requires a <= b && |a| == |b|
    ensures a == b
  {
    assert b == a + (b - a);
    assert |b - a| == 0;
  }

  lemma NotFullKeepsTop(kept: multiset<Entry>, all: multiset<Entry>, k: int, e: Entry)
    requires IsTop(kept, all, k) && |kept| < k
    ensures IsTop(kept + multiset{e}, all + multiset{e}, k)
  {
    SubsetOfSameSize(kept, all);
  }

  lemma TooFastKeepsTop(kept: multiset<Entry>, all: multiset<Entry>, k: int, e: Entry)
    requires IsTop(kept, all, k) && |kept| == k
    requires forall a :: a in kept ==> a.time >= e.time
    ensures IsTop(kept, all + multiset{e}, k)
  {
    assert all + multiset{e} - kept == (all - kept) + multiset{e};
  }

  lemma ReplacedKeepsTop(kept: multiset<Entry>, all: multiset<Entry>, k: int, m: Entry, e: Entry)
    requires IsTop(kept, all, k) && |kept| == k && m in kept && e.time > m.time
    requires forall a :: a in kept ==> a.time >= m.time
    ensures IsTop(kept - multiset{m} + multiset{e}, all + multiset{e}, k)
  {
    var kept' := kept - multiset{m} + multiset{e};
    assert all + multiset{e} - kept' == (all - kept) + multiset{m};
    forall a, b | a in kept' && b in all + multiset{e} - kept'
      ensures a.time >= b.time
    {
      if b in all - kept { assert m.time >= b.time; }
    }
  }

  /** Whatever completes, long_tasks_ stays a heap of exactly the slowest tasks so far. */
  lemma RecordKeepsTop(long: seq<Entry>, all: multiset<Entry>, max: int, e: Entry, w: seq<Entry>)
    requires max >= 1 && IsHeap(long) && IsTop(multiset(long), all, max) && Recorded(long, max, e, w)
    ensures IsHeap(w) && IsTop(multiset(w), all + multiset{e}, max)
  {
    forall a | a in multiset(long)
      ensures long[0].time <= a.time
    {
      var i :| 0 <= i < |long| && long[i] == a;
      FirstIsShortest(long, i);
    }
    if |long| < max {
      NotFullKeepsTop(multiset(long), all, max, e);
    } else if e.time > long[0].time {
      ReplacedKeepsTop(multiset(long), all, max, long[0], e);
    } else {
      TooFastKeepsTop(multiset(long), all, max, e);
    }
  }
}
