/**
 The allocator of in-memory output buffers (client/compile_service.cc) and the way a
 compile task uses it (client/compile_task.cc). Sizes are size_t: sums wrap at 2^64, and
 the guards against that are written out as the source computes them.

 A task acquires a buffer of the announced file size, the download fills it (and leaves
 it as long as what it received), and the task gives it back when it commits the output
 or clears its output files; clearing skips buffers that are empty by then.
 */
module OutputBuffers {

  const Wrap := 0x1_0000_0000_0000_0000

  function Plus(a: nat, b: nat): nat {
    (a + b) % Wrap
  }

  /** One OutputFileInfo in memory: its size field and the length of its content. */
  datatype Buffer = Buffer(size: nat, content: nat)

  datatype Pool = Pool(
    max: nat,                  // max_sum_output_size_
    req: nat,                  // req_sum_output_size_
    cur: nat,                  // cur_sum_output_size_
    held: map<nat, Buffer>,    // buffers in the hands of tasks
    refused: nat,              // observer: bytes requested in vain, but not rejected
    clamped: bool)             // observer: "output buf size error" was logged

  function NewPool(max: nat): Pool {
    Pool(max, 0, 0, map[], 0, false)
  }

  // ---------------------------------------------------------------- AcquireOutputBuffer

  predicate TooLarge(p: Pool, filesize: nat) {
    filesize > p.max || Plus(p.req, filesize) < p.req || Plus(p.cur, filesize) < p.cur
  }

  predicate Grants(p: Pool, filesize: nat) {
    !TooLarge(p, filesize) && Plus(p.cur, filesize) < p.max
  }

  function Acquire(p: Pool, id: nat, filesize: nat): Pool {
    if TooLarge(p, filesize) then
      p
    else if Grants(p, filesize) then
      p.(req := Plus(p.req, filesize), cur := Plus(p.cur, filesize),
         held := p.held[id := Buffer(filesize, filesize)])
    else
      p.(req := Plus(p.req, filesize), refused := p.refused + filesize)
  }

  // ---------------------------------------------------------------- ReleaseOutputBuffer

  function LessOrZero(a: nat, b: nat): nat {
    if a < b then 0 else a - b
  }

  function Release(p: Pool, b: Buffer): Pool {
    p.(req := LessOrZero(p.req, b.size), cur := LessOrZero(p.cur, b.content),
       clamped := p.clamped || b.content > p.cur)
  }

  // ---------------------------------------------------------------- the task's side

  /** The download leaves n bytes in the buffer. */
  function Fill(p: Pool, id: nat, n: nat): Pool {
    if id in p.held then p.(held := p.held[id := p.held[id].(content := n)]) else p
  }

  /** CommitOutput: the buffer goes back whatever it holds. */
  function Commit(p: Pool, id: nat): Pool {
    if id in p.held then Release(p, p.held[id]).(held := p.held - {id}) else p
  }

  /** ClearOutputFile: an empty buffer is only forgotten. */
  function Clear(p: Pool, id: nat): Pool {
    if id !in p.held then p
    else if p.held[id].content > 0 then Commit(p, id)
    else p.(held := p.held - {id})
  }

  datatype Op = AcquireOp(id: nat, filesize: nat) | FillOp(id: nat, n: nat) | CommitOp(id: nat) | ClearOp(id: nat)

  predicate Allowed(p: Pool, op: Op) {
    match op
    case AcquireOp(id, filesize) => id !in p.held && filesize < Wrap
    case FillOp(_, n) => n < Wrap
    case CommitOp(_) => true
    case ClearOp(_) => true
  }

  function Apply(p: Pool, op: Op): Pool {
    match op
    case AcquireOp(id, filesize) => Acquire(p, id, filesize)
    case FillOp(id, n) => Fill(p, id, n)
    case CommitOp(id) => Commit(p, id)
    case ClearOp(id) => Clear(p, id)
  }

  function After(p: Pool, ops: seq<Op>): Pool {
    if ops == [] then p else Apply(After(p, ops[..|ops| - 1]), ops[|ops| - 1])
  }

  predicate Legal(p: Pool, ops: seq<Op>) {
    ops != [] ==> Legal(p, ops[..|ops| - 1]) && Allowed(After(p, ops[..|ops| - 1]), ops[|ops| - 1])
  }

  // ---------------------------------------------------------------- the bytes held

  ghost function Bytes(held: map<nat, Buffer>): nat
    decreases |held|
  {
    if held == map[] then 0 else var id :| id in held; held[id].size + Bytes(held - {id})
  }

  lemma {:induction false} BytesWithout(held: map<nat, Buffer>, id: nat)
    requires id in held
    ensures Bytes(held) == held[id].size + Bytes(held - {id})
    decreases |held|
  {
    var x :| x in held && Bytes(held) == held[x].size + Bytes(held - {x});
    if x != id {
      BytesWithout(held - {x}, id);
      BytesWithout(held - {id}, x);
      assert held - {x} - {id} == held - {id} - {x};
    }
  }

  lemma BytesWith(held: map<nat, Buffer>, id: nat, b: Buffer)
    requires id !in held
    ensures Bytes(held[id := b]) == Bytes(held) + b.size
  {
    BytesWithout(held[id := b], id);
    assert held[id := b] - {id} == held;
  }

  lemma BytesRefilled(held: map<nat, Buffer>, id: nat, n: nat)
    requires id in held
    ensures Bytes(held[id := held[id].(content := n)]) == Bytes(held)
  {
    var h := held[id := held[id].(content := n)];
    BytesWithout(held, id);
    BytesWithout(h, id);
    assert h - {id} == held - {id};
  }

  // ---------------------------------------------------------------- what every operation keeps

  /** Whatever tasks do: sums fit in size_t, and the pool is empty or below its limit. */
  predicate Bounded(p: Pool) {
    p.max < Wrap && p.req < Wrap && (p.cur == 0 || p.cur < p.max)
  }

  lemma ApplyBounded(p: Pool, op: Op)
    requires Bounded(p) && Allowed(p, op)
    ensures Bounded(Apply(p, op)) && Apply(p, op).max == p.max
  {
  }

  /** Where a request is not rejected, its sums do not wrap, and conversely: the guards
      refuse exactly the sizes above the limit and the sums that would overflow. */
  lemma GuardsAreExact(p: Pool, filesize: nat)
    requires Bounded(p) && filesize < Wrap
    ensures TooLarge(p, filesize) <==>
            filesize > p.max || p.req + filesize >= Wrap || p.cur + filesize >= Wrap
    ensures Grants(p, filesize) <==>
            filesize <= p.max && p.req + filesize < Wrap && p.cur + filesize < p.max
  {
  }

  /** What cur_sum_output_size_ should be. */
  ghost predicate Balanced(p: Pool) {
    p.cur == Bytes(p.held)
  }

  /** Giving this buffer back keeps the balance: it is as long as when it was acquired, or
      it grew while nothing else was held, so that the clamp hides the difference. */
  ghost predicate Fits(p: Pool, id: nat) {
    id in p.held ==>
      || p.held[id].content == p.held[id].size
      || (p.held[id].content > p.held[id].size && Bytes(p.held - {id}) == 0)
  }

  ghost predicate Faithful(p: Pool, op: Op) {
    match op
    case AcquireOp(_, _) => true
    case FillOp(_, _) => true
    case CommitOp(id) => Fits(p, id)
    case ClearOp(id) => Fits(p, id)
  }

  lemma AcquireBalance(p: Pool, id: nat, filesize: nat)
    requires Bounded(p) && Balanced(p) && id !in p.held && filesize < Wrap
    ensures Balanced(Acquire(p, id, filesize))
  {
    GuardsAreExact(p, filesize);
    BytesWith(p.held, id, Buffer(filesize, filesize));
  }

  lemma FillBalance(p: Pool, id: nat, n: nat)
    requires Balanced(p)
    ensures Balanced(Fill(p, id, n))
  {
    if id in p.held { BytesRefilled(p.held, id, n); }
  }

  lemma CommitBalance(p: Pool, id: nat)
    requires Balanced(p)
    ensures Balanced(Commit(p, id)) <==> Fits(p, id)
    ensures id in p.held && p.held[id].content == p.held[id].size ==> Commit(p, id).clamped == p.clamped
  {
    if id in p.held { BytesWithout(p.held, id); }
  }

  lemma ClearBalance(p: Pool, id: nat)
    requires Balanced(p)
    ensures Balanced(Clear(p, id)) <==> Fits(p, id)
    ensures id in p.held && p.held[id].content == p.held[id].size ==> Clear(p, id).clamped == p.clamped
  {
    CommitBalance(p, id);
    if id in p.held { BytesWithout(p.held, id); }
  }

  /** One step keeps the balance exactly when it is faithful. */
  lemma StepBalance(p: Pool, op: Op)
    requires Bounded(p) && Balanced(p) && Allowed(p, op)
    ensures Balanced(Apply(p, op)) <==> Faithful(p, op)
  {
    match op
    case AcquireOp(id, filesize) => AcquireBalance(p, id, filesize);
    case FillOp(id, n) => FillBalance(p, id, n);
    case CommitOp(id) => CommitBalance(p, id);
    case ClearOp(id) => ClearBalance(p, id);
  }

  // ---------------------------------------------------------------- whole runs

  /** The pool after the first i operations. */
  function At(max: nat, ops: seq<Op>, i: nat): Pool
    requires i <= |ops|
  {
    After(NewPool(max), ops[..i])
  }

  lemma {:induction false} LegalPrefix(p: Pool, ops: seq<Op>, i: nat)
    requires Legal(p, ops) && i <= |ops|
    ensures Legal(p, ops[..i])
    decreases |ops|
  {
    if i < |ops| {
      LegalPrefix(p, ops[..|ops| - 1], i);
      assert ops[..|ops| - 1][..i] == ops[..i];
    } else {
      assert ops[..i] == ops;
    }
  }

  lemma AtNext(max: nat, ops: seq<Op>, i: nat)
    requires Legal(NewPool(max), ops) && i < |ops|
    ensures At(max, ops, i + 1) == Apply(At(max, ops, i), ops[i])
    ensures Allowed(At(max, ops, i), ops[i])
  {
    LegalPrefix(NewPool(max), ops, i + 1);
    assert ops[..i + 1][..i] == ops[..i];
  }

  lemma {:induction false} AtBounded(max: nat, ops: seq<Op>, i: nat)
    requires Legal(NewPool(max), ops) && max < Wrap && i <= |ops|
    ensures Bounded(At(max, ops, i)) && At(max, ops, i).max == max
  {
    if i > 0 {
      AtBounded(max, ops, i - 1);
      AtNext(max, ops, i - 1);
      ApplyBounded(At(max, ops, i - 1), ops[i - 1]);
    }
  }

  /** In every run: the pool stays empty or below the limit, and no accepted sum wraps. */
  lemma PoolIsBounded(max: nat, ops: seq<Op>, filesize: nat)
    requires Legal(NewPool(max), ops) && max < Wrap && filesize < Wrap
    ensures var p := After(NewPool(max), ops);
            && (p.cur == 0 || p.cur < max)
            && (!TooLarge(p, filesize) <==> filesize <= max && p.req + filesize < Wrap && p.cur + filesize < Wrap)
            && (Grants(p, filesize) <==> filesize <= max && p.req + filesize < Wrap && p.cur + filesize < max)
  {
    AtBounded(max, ops, |ops|);
    assert ops[..|ops|] == ops;
    GuardsAreExact(After(NewPool(max), ops), filesize);
  }

  ghost predicate AlwaysBalanced(max: nat, ops: seq<Op>) {
    forall i: nat :: i <= |ops| ==> Balanced(At(max, ops, i))
  }

  ghost predicate AlwaysFaithful(max: nat, ops: seq<Op>) {
    forall i: nat :: i < |ops| ==> Faithful(At(max, ops, i), ops[i])
  }

  lemma {:induction false} FaithfulBalances(max: nat, ops: seq<Op>, i: nat)
    requires Legal(NewPool(max), ops) && max < Wrap && i <= |ops| && AlwaysFaithful(max, ops)
    ensures Balanced(At(max, ops, i))
  {
    if i > 0 {
      FaithfulBalances(max, ops, i - 1);
      AtNext(max, ops, i - 1);
      AtBounded(max, ops, i - 1);
      assert Faithful(At(max, ops, i - 1), ops[i - 1]);
      StepBalance(At(max, ops, i - 1), ops[i - 1]);
    }
  }

  /** cur_sum_output_size_ is the total size of the buffers held, throughout a run, exactly
      when every buffer given back is as long as it was when acquired (or grew while it was
      the only one that counted). */
  lemma BalancedExactlyWhenFaithful(max: nat, ops: seq<Op>)
    requires Legal(NewPool(max), ops) && max < Wrap
    ensures AlwaysBalanced(max, ops) <==> AlwaysFaithful(max, ops)
  {
    if AlwaysFaithful(max, ops) {
      forall i: nat | i <= |ops|
        ensures Balanced(At(max, ops, i))
      {
        FaithfulBalances(max, ops, i);
      }
    }
    if AlwaysBalanced(max, ops) {
      forall i: nat | i < |ops|
        ensures Faithful(At(max, ops, i), ops[i])
      {
        AtNext(max, ops, i);
        AtBounded(max, ops, i);
        assert Balanced(At(max, ops, i)) && Balanced(At(max, ops, i + 1));
        StepBalance(At(max, ops, i), ops[i]);
      }
    }
  }

  /** A failed download leaves its buffer empty; clearing forgets it, and its bytes count
      against the limit for ever. */
  lemma FailedDownloadLeaks()
    ensures exists ops :: Legal(NewPool(100), ops) && After(NewPool(100), ops).held == map[]
                          && After(NewPool(100), ops).cur == 60 && !Grants(After(NewPool(100), ops), 60)
  {
    var p := NewPool(100);
    var a, b, c := AcquireOp(0, 60), FillOp(0, 0), ClearOp(0);
    var q := Fill(Acquire(p, 0, 60), 0, 0);
    OneMore(p, [], a);
    OneMore(p, [a], b);
    OneMore(p, [a, b], c);
    assert [] + [a] == [a] && [a] + [b] == [a, b] && [a, b] + [c] == [a, b, c];
    assert After(p, [a, b]) == q && Legal(p, [a, b, c]) && After(p, [a, b, c]) == Clear(q, 0);
    assert map[0 := Buffer(60, 0)] - {0} == map[];
  }

  lemma OneMore(p: Pool, ops: seq<Op>, op: Op)
    ensures After(p, ops + [op]) == Apply(After(p, ops), op)
    ensures Legal(p, ops) && Allowed(After(p, ops), op) ==> Legal(p, ops + [op])
  {
    assert (ops + [op])[..|ops|] == ops;
  }

  // ---------------------------------------------------------------- complete downloads

  predicate Whole(p: Pool, id: nat) {
    id in p.held ==> p.held[id].content == p.held[id].size
  }

  /** Buffers are given back as long as they were when acquired. */
  predicate Strict(p: Pool, op: Op) {
    match op
    case AcquireOp(_, _) => true
    case FillOp(_, _) => true
    case CommitOp(id) => Whole(p, id)
    case ClearOp(id) => Whole(p, id)
  }

  ghost predicate Settled(p: Pool) {
    Balanced(p) && !p.clamped && p.req == Bytes(p.held) + p.refused
  }

  lemma StrictStep(p: Pool, op: Op)
    requires Bounded(p) && Settled(p) && Allowed(p, op) && Strict(p, op)
    ensures Settled(Apply(p, op))
  {
    hide Bytes;
    match op
    case AcquireOp(id, filesize) => StrictAcquire(p, id, filesize);
    case FillOp(id, n) => if id in p.held { BytesRefilled(p.held, id, n); }
    case CommitOp(id) => if id in p.held { BytesWithout(p.held, id); }
    case ClearOp(id) => if id in p.held { BytesWithout(p.held, id); }
  }

  lemma StrictAcquire(p: Pool, id: nat, filesize: nat)
    requires Bounded(p) && Settled(p) && id !in p.held && filesize < Wrap
    ensures Settled(Acquire(p, id, filesize))
  {
    hide Bytes;
    GuardsAreExact(p, filesize);
    BytesWith(p.held, id, Buffer(filesize, filesize));
  }

  /** With complete downloads the accounts are exact throughout and no clamp is taken; of
      the bytes requested, only those refused are never taken off again. */
  lemma {:induction false} WholeDownloadsSettle(max: nat, ops: seq<Op>, i: nat)
    requires Legal(NewPool(max), ops) && max < Wrap && i <= |ops|
    requires forall j: nat :: j < |ops| ==> Strict(At(max, ops, j), ops[j])
    ensures var p := At(max, ops, i);
            && p.cur == Bytes(p.held) && !p.clamped && p.req == Bytes(p.held) + p.refused
            && (p.held == map[] ==> p.cur == 0)
  {
    if i > 0 {
      WholeDownloadsSettle(max, ops, i - 1);
      AtNext(max, ops, i - 1);
      AtBounded(max, ops, i - 1);
      StrictStep(At(max, ops, i - 1), ops[i - 1]);
    }
  }

  /** ClearOutputFile over all output files of a task. */
  function ClearAll(p: Pool, ids: seq<nat>): Pool {
    if ids == [] then p else Clear(ClearAll(p, ids[..|ids| - 1]), ids[|ids| - 1])
  }

  /** Done leaves nothing of the task in the pool and nothing of the others touched; what
      it held whole comes off the account, byte for byte. */
  lemma {:induction false} DoneClears(p: Pool, ids: seq<nat>)
    ensures var q := ClearAll(p, ids);
            && (forall id :: id in q.held <==> id in p.held && id !in ids)
            && (forall id :: id in q.held ==> q.held[id] == p.held[id])
            && (Balanced(p) && (forall id :: id in ids ==> Whole(p, id)) ==> Balanced(q))
  {
    if ids != [] {
      var n := |ids| - 1;
      var q := ClearAll(p, ids[..n]);
      DoneClears(p, ids[..n]);
      assert ids == ids[..n] + [ids[n]];
      if Balanced(p) && (forall id :: id in ids ==> Whole(p, id)) {
        assert Whole(p, ids[n]) && Balanced(q);
        ClearBalance(q, ids[n]);
      }
    }
  }

  // ---------------------------------------------------------------- the allocator as an object

  class OutputBufferPool {
    const max: nat
    var req: nat
    var cur: nat
    ghost var held: map<nat, Buffer>
    ghost var refused: nat
    ghost var clamped: bool

    ghost function View(): Pool
      reads this
    {
      Pool(max, req, cur, held, refused, clamped)
    }

    constructor (max: nat)
      ensures View() == NewPool(max)
    {
      this.max, req, cur := max, 0, 0;
      held, refused, clamped := map[], 0, false;
    }

    /** Whether the caller gets a buffer; it is resized to filesize, or cleared. */
    method AcquireOutputBuffer(ghost id: nat, filesize: nat) returns (success: bool, content: nat)
      modifies this
      ensures View() == Acquire(old(View()), id, filesize)
      ensures success == Grants(old(View()), filesize)
      ensures content == if success then filesize else 0
    {
      success, content := false, 0;
      if filesize > max || (req + filesize) % Wrap < req || (cur + filesize) % Wrap < cur {
        return;
      }
      req := (req + filesize) % Wrap;
      if (cur + filesize) % Wrap < max {
        cur := (cur + filesize) % Wrap;
        held := held[id := Buffer(filesize, filesize)];
        success, content := true, filesize;
      } else {
        refused := refused + filesize;
      }
    }

    method ReleaseOutputBuffer(ghost id: nat, filesize: nat, content: nat)
      requires id in held && held[id] == Buffer(filesize, content)
      modifies this
      ensures View() == Commit(old(View()), id)
      ensures held == old(held) - {id} && Bytes(held) == Bytes(old(held)) - filesize
      ensures Balanced(old(View())) ==> (Balanced(View()) <==> Fits(old(View()), id))
      ensures Balanced(old(View())) && content == filesize ==> cur == old(cur) - filesize && clamped == old(clamped)
    {
      BytesWithout(held, id);
      if Balanced(View()) {
        CommitBalance(View(), id);
      }
      if req < filesize {
        req := 0;
      } else {
        req := req - filesize;
      }
      held := held - {id};
      if content > cur {
        clamped := true;
        cur := 0;
        return;
      }
      cur := cur - content;
    }

    /** ClearOutputFile, for a task whose output files i are the buffers ids[i]. */
    method ClearOutputFile(ids: seq<nat>, infos: seq<Buffer>)
      requires |ids| == |infos|
      requires forall i, j :: 0 <= i < j < |ids| ==> ids[i] != ids[j]
      requires forall i :: 0 <= i < |ids| ==> ids[i] in held && held[ids[i]] == infos[i]
      modifies this
      ensures View() == ClearAll(old(View()), ids)
    {
      var i := 0;
      assert ids[..0] == [];
      while i < |ids|
        invariant 0 <= i <= |ids|
        invariant View() == ClearAll(old(View()), ids[..i])
        invariant forall j :: i <= j < |ids| ==> ids[j] in held && held[ids[j]] == infos[j]
      {
        assert ids[..i + 1][..i] == ids[..i];
        if infos[i].content > 0 {
          ReleaseOutputBuffer(ids[i], infos[i].size, infos[i].content);
        } else {
          held := held - {ids[i]};
        }
        i := i + 1;
      }
      assert ids[..|ids|] == ids;
    }
  }
}
