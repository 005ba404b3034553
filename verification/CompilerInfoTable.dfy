/**
 The persistent form of CompilerInfoCache (client/compiler_info_cache.cc): Marshal groups
 the enabled, found, error-free entries by content and keeps the most recently used
 contents; Unmarshal creates one state per content and binds its keys to it.
 */
module CompilerInfoTable {
  import opened Basics
  import Sorting
  import opened CompilerInfoStates
  import opened CompilerInfoCache

  /** CompilerInfoDataTable::Entry. */
  datatype Row = Row(data: Data, keys: seq<string>)

  function KeySet(r: Row): set<string> {
    set k | k in r.keys
  }

  /** HashKey tells contents apart. */
  ghost predicate CollisionFree(hash: Data -> string) {
    forall a, b :: hash(a) == hash(b) ==> a == b
  }

  /** The entries that may be saved. */
  predicate Saveable(h: Heap, k: string) {
    && k in h.keys && h.keys[k] in h.states && !h.states[h.keys[k]].disabled
    && h.states[h.keys[k]].data.found && h.states[h.keys[k]].data.error == ""
  }

  function DataAt(h: Heap, k: string): Data
    requires k in h.keys && h.keys[k] in h.states
  {
    h.states[h.keys[k]].data
  }

  // ---------------------------------------------------------------- Marshal

  predicate DistinctData(rows: seq<Row>) {
    forall i, j :: 0 <= i < j < |rows| ==> rows[i].data != rows[j].data
  }

  /** Row r holds saveable keys of h with the data of the row, and at least one. */
  predicate RowOf(h: Heap, r: Row) {
    && r.keys != []
    && forall k :: k in r.keys ==> Saveable(h, k) && DataAt(h, k) == r.data
  }

  /** rows hold the saveable entries among `keys`, one row per content. */
  ghost predicate TableOf(h: Heap, keys: set<string>, rows: seq<Row>) {
    && DistinctData(rows)
    && (forall r :: r in rows ==> RowOf(h, r) && KeySet(r) <= keys)
    && (forall k :: k in keys && Saveable(h, k) ==> exists r :: r in rows && k in r.keys)
  }

  /** by_hash points to the row of each content. */
  ghost predicate Indexed(hash: Data -> string, rows: seq<Row>, at: map<string, nat>) {
    && (forall x :: x in at ==> at[x] < |rows| && hash(rows[at[x]].data) == x)
    && (forall i :: 0 <= i < |rows| ==> hash(rows[i].data) in at && at[hash(rows[i].data)] == i)
  }

  /** MarshalUnlocked before the table is limited. */
  method Collect(h: Heap, hash: Data -> string) returns (rows: seq<Row>)
    requires Sound(h) && CollisionFree(hash)
    ensures TableOf(h, h.keys.Keys, rows)
  {
    hide TableOf, Indexed, Saveable;
    rows := [];
    var at: map<string, nat> := map[];
    var todo := h.keys.Keys;
    NoRows(h, hash);
    ghost var done: set<string> := {};
    while todo != {}
      invariant todo !! done && todo + done == h.keys.Keys
      invariant TableOf(h, done, rows) && Indexed(hash, rows, at)
      decreases |todo|
    {
      var k :| k in todo;
      todo := todo - {k};
      var state := h.states[h.keys[k]];
      SaveableIs(h, k);
      if !state.disabled && state.data.found && state.data.error == "" {
        var d := state.data;
        var x := hash(d);
        if x !in at {
          AddRow(h, hash, done, rows, at, k);
          at := at[x := |rows|];
          rows := rows + [Row(d, [k])];
        } else {
          var i := at[x];
          AddToRow(h, hash, done, rows, at, k);
          rows := rows[i := rows[i].(keys := rows[i].keys + [k])];
        }
      } else {
        SkipKey(h, done, rows, k);
      }
      done := done + {k};
    }
  }

  lemma NoRows(h: Heap, hash: Data -> string)
    ensures TableOf(h, {}, []) && Indexed(hash, [], map[])
  {
  }

  lemma SaveableIs(h: Heap, k: string)
    requires k in h.keys && h.keys[k] in h.states
    ensures var s := h.states[h.keys[k]];
            && (Saveable(h, k) <==> !s.disabled && s.data.found && s.data.error == "") && DataAt(h, k) == s.data
  {
  }

  lemma SkipKey(h: Heap, done: set<string>, rows: seq<Row>, k: string)
    requires TableOf(h, done, rows) && !Saveable(h, k)
    ensures TableOf(h, done + {k}, rows)
  {
  }

  lemma AddRow(h: Heap, hash: Data -> string, done: set<string>, rows: seq<Row>, at: map<string, nat>, k: string)
    requires TableOf(h, done, rows) && Indexed(hash, rows, at) && Saveable(h, k) && hash(DataAt(h, k)) !in at
    ensures var d := DataAt(h, k);
            TableOf(h, done + {k}, rows + [Row(d, [k])]) && Indexed(hash, rows + [Row(d, [k])], at[hash(d) := |rows|])
  {
    var r := Row(DataAt(h, k), [k]);
    var more := rows + [r];
    assert r in more && k in r.keys;
    forall x | x in done + {k} && Saveable(h, x)
      ensures exists s :: s in more && x in s.keys
    {
      if x != k {
        var s :| s in rows && x in s.keys;
        assert s in more;
      }
    }
  }

  lemma AddToRow(h: Heap, hash: Data -> string, done: set<string>, rows: seq<Row>, at: map<string, nat>, k: string)
    requires TableOf(h, done, rows) && Indexed(hash, rows, at) && CollisionFree(hash)
    requires Saveable(h, k) && hash(DataAt(h, k)) in at
    ensures var i := at[hash(DataAt(h, k))];
            && i < |rows|
            && TableOf(h, done + {k}, rows[i := rows[i].(keys := rows[i].keys + [k])])
            && Indexed(hash, rows[i := rows[i].(keys := rows[i].keys + [k])], at)
  {
    var i := at[hash(DataAt(h, k))];
    var more := rows[i := rows[i].(keys := rows[i].keys + [k])];
    assert rows[i].data == DataAt(h, k) && rows[i] in rows;
    forall r | r in more
      ensures RowOf(h, r) && KeySet(r) <= done + {k}
    {
      var j :| 0 <= j < |more| && more[j] == r;
      assert rows[j] in rows;
    }
    forall x | x in done + {k} && Saveable(h, x)
      ensures exists s :: s in more && x in s.keys
    {
      if x == k {
        assert more[i] in more && k in more[i].keys;
      } else {
        var s :| s in rows && x in s.keys;
        var j :| 0 <= j < |rows| && rows[j] == s;
        assert more[j] in more && x in more[j].keys;
      }
    }
  }

  // ---------------------------------------------------------------- LimitTableEntries

  /** last_used_desc */
  predicate LastUsedDesc(a: Row, b: Row) {
    a.data.lastUsed >= b.data.lastUsed
  }

  predicate Descending(rows: seq<Row>) {
    Sorting.Sorted(LastUsedDesc, rows)
  }

  /** The table sorted, most recently used first, and cut off at num entries; `dropped` is
      what DeleteSubrange removes. */
  method LimitTableEntries(rows: seq<Row>, num: nat) returns (kept: seq<Row>, dropped: seq<Row>)
    ensures multiset(kept) + multiset(dropped) == multiset(rows) && Descending(kept + dropped)
    ensures |kept| == if |rows| < num then |rows| else num
  {
    var sorted := Sorting.Sort(LastUsedDesc, rows);
    assert |sorted| == |multiset(sorted)| == |rows|;
    kept, dropped := sorted, [];
    if |sorted| > num {
      kept, dropped := sorted[..num], sorted[num..];
    }
    assert kept + dropped == sorted;
  }

  /** MarshalUnlocked. */
  method Marshal(h: Heap, hash: Data -> string, max: nat) returns (kept: seq<Row>, dropped: seq<Row>)
    requires Sound(h) && CollisionFree(hash)
    ensures Saved(h, max, kept, dropped)
  {
    var rows := Collect(h, hash);
    kept, dropped := LimitTableEntries(rows, max);
    Permuted(h, rows, kept + dropped);
    assert multiset(kept + dropped) == multiset(rows);
    assert |kept + dropped| == |multiset(rows)|;
  }

  /** What a saved table is: the rows kept and dropped make up the whole table, the kept
      ones are as many as the limit admits and used at least as recently. */
  ghost predicate Saved(h: Heap, max: nat, kept: seq<Row>, dropped: seq<Row>) {
    && TableOf(h, h.keys.Keys, kept + dropped) && Descending(kept + dropped)
    && |kept| == if |kept| + |dropped| < max then |kept| + |dropped| else max
  }

  lemma Permuted(h: Heap, rows: seq<Row>, sorted: seq<Row>)
    requires TableOf(h, h.keys.Keys, rows) && multiset(sorted) == multiset(rows)
    ensures TableOf(h, h.keys.Keys, sorted)
  {
    forall r
      ensures r in sorted <==> r in rows
    {
      assert r in multiset(sorted) <==> r in multiset(rows);
    }
    DistinctPermuted(rows, sorted);
  }

  lemma DistinctPermuted(a: seq<Row>, b: seq<Row>)
    requires DistinctData(a) && multiset(a) == multiset(b)
    ensures DistinctData(b)
  {
    forall i, j | 0 <= i < j < |b|
      ensures b[i].data != b[j].data
    {
      if b[i].data == b[j].data {
        assert b[i] in multiset(a) && b[j] in multiset(a);
        OneRow(a, b[i], b[j]);
        TwiceIn(b, i, j);
        OnceIn(a, b[i]);
      }
    }
  }

  lemma OneRow(a: seq<Row>, r: Row, s: Row)
    requires DistinctData(a) && r in a && s in a && r.data == s.data
    ensures r == s
  {
  }

  lemma TwiceIn(b: seq<Row>, i: int, j: int)
    requires 0 <= i < j < |b| && b[i] == b[j]
    ensures multiset(b)[b[i]] >= 2
  {
    assert b == b[..j] + [b[j]] + b[j + 1..];
    assert b[i] in b[..j];
  }

  lemma {:induction false} OnceIn(a: seq<Row>, r: Row)
    requires DistinctData(a)
    ensures multiset(a)[r] <= 1
  {
    if a != [] {
      var n := |a| - 1;
      assert a == a[..n] + [a[n]];
      OnceIn(a[..n], r);
      if a[n] == r { assert r !in a[..n]; }
    }
  }

  // ---------------------------------------------------------------- Unmarshal

  predicate Loadable(d: Data) {
    d.extension && d.found && d.error == ""
  }

  /** One row: a new state with one reference per key. compiler_info_.insert leaves keys that
      are already bound alone, but their reference is taken all the same. */
  function Loaded(h: Heap, d: Data, id: nat, keys: set<string>): Heap {
    h.(states := if keys == {} then h.states else h.states[id := State(d, |keys|, false)],
       keys := h.keys + map k | k in keys && k !in h.keys :: id)
  }

  function LoadRow(c: Cache, hash: Data -> string, r: Row, id: nat): Cache {
    if !Loadable(r.data) then c
    else Cache(Loaded(c.heap, r.data, id, KeySet(r)),
               if hash(r.data) in c.byHash then c.byHash else c.byHash[hash(r.data) := KeySet(r)])
  }

  /** UnmarshalUnlocked, the new state of rows[i] being at ids[i]. */
  function LoadAll(c: Cache, hash: Data -> string, rows: seq<Row>, ids: seq<nat>): Cache
    requires |ids| == |rows|
  {
    if rows == [] then c
    else LoadRow(LoadAll(c, hash, rows[..|rows| - 1], ids[..|ids| - 1]), hash, rows[|rows| - 1], ids[|ids| - 1])
  }

  /** Each row that is found, free of errors and has a language extension is there with its
      data, enabled, with one reference per key; no other row left anything, and the states
      that were there stay as they were. */
  predicate HoldsPositive(was: map<nat, State>, states: map<nat, State>, rows: seq<Row>, ids: seq<nat>)
    requires |ids| == |rows|
  {
    && (forall id :: id in was ==> id in states && states[id] == was[id])
    && (forall id :: id in states ==> id in was || id in ids)
    && (forall i :: 0 <= i < |rows| ==>
          var d := rows[i].data;
          if d.extension && d.found && d.error == "" && rows[i].keys != [] then
            ids[i] in states && states[ids[i]] == State(d, |KeySet(rows[i])|, false)
          else
            ids[i] !in states)
  }

  /** Unmarshal, whatever is in the table. */
  lemma {:induction false} LoadsPositive(c: Cache, hash: Data -> string, rows: seq<Row>, ids: seq<nat>)
    requires |ids| == |rows| && Unique(ids) && forall id :: id in ids ==> id !in c.heap.states
    ensures HoldsPositive(c.heap.states, LoadAll(c, hash, rows, ids).heap.states, rows, ids)
  {
    if rows != [] {
      hide HoldsPositive;
      var n := |rows| - 1;
      var rs, at := rows[..n], ids[..n];
      assert rows == rs + [rows[n]] && ids == at + [ids[n]] && ids[n] !in at;
      LoadsPositive(c, hash, rs, at);
      OnePositive(c.heap.states, LoadAll(c, hash, rs, at), hash, rs, at, rows[n], ids[n]);
    }
  }

  lemma OnePositive(was: map<nat, State>, c: Cache, hash: Data -> string, rows: seq<Row>, ids: seq<nat>,
                    r: Row, id: nat)
    requires |ids| == |rows| && HoldsPositive(was, c.heap.states, rows, ids) && id !in ids && id !in was
    ensures HoldsPositive(was, LoadRow(c, hash, r, id).heap.states, rows + [r], ids + [id])
  {
    assert KeySet(r) == {} <==> r.keys == [] by {
      if r.keys != [] { assert r.keys[0] in KeySet(r); }
    }
    hide KeySet;
  }

  /** Loading a row keeps the counts exact exactly when none of its keys was bound before. */
  lemma LoadExactly(h: Heap, d: Data, id: nat, keys: set<string>)
    requires Exact(h) && id !in h.states
    ensures Exact(Loaded(h, d, id, keys)) <==> keys !! h.keys.Keys
  {
    hide Loaded, Count, Holders;
    var g := Loaded(h, d, id, keys);
    forall x: nat | x != id
      ensures Count(g.states, x) == Holders(g, x)
    {
      LoadedElsewhere(h, d, id, keys, x);
    }
    LoadedCount(h, d, id, keys);
    if keys !! h.keys.Keys {
      assert keys - h.keys.Keys == keys;
      assert Positive(g) by { LoadedPositive(h, d, id, keys); }
    } else {
      var k :| k in keys && k in h.keys;
      Smaller(keys, h.keys.Keys, k);
      assert Count(g.states, id) != Holders(g, id);
    }
  }

  predicate Positive(h: Heap) {
    forall id :: id in h.states ==> h.states[id].refcnt > 0
  }

  lemma LoadedPositive(h: Heap, d: Data, id: nat, keys: set<string>)
    requires Positive(h)
    ensures Positive(Loaded(h, d, id, keys))
  {
  }

  lemma LoadedElsewhere(h: Heap, d: Data, id: nat, keys: set<string>, x: nat)
    requires Exact(h) && x != id
    ensures Count(Loaded(h, d, id, keys).states, x) == Holders(Loaded(h, d, id, keys), x)
  {
    assert KeysOf(Loaded(h, d, id, keys).keys, x) == KeysOf(h.keys, x);
    assert Count(h.states, x) == Holders(h, x);
  }

  lemma LoadedCount(h: Heap, d: Data, id: nat, keys: set<string>)
    requires Exact(h) && id !in h.states
    ensures Count(Loaded(h, d, id, keys).states, id) == |keys|
    ensures Holders(Loaded(h, d, id, keys), id) == |keys - h.keys.Keys|
  {
    NotBound(h, id);
    assert KeysOf(Loaded(h, d, id, keys).keys, id) == keys - h.keys.Keys;
    assert Count(h.states, id) == Holders(h, id);
  }

  lemma Smaller(a: set<string>, b: set<string>, k: string)
    requires k in a && k in b
    ensures |a - b| < |a|
  {
    assert a - b <= a - {k};
    var rest := a - {k} - (a - b);
    assert a - {k} == (a - b) + rest;
    assert |a - {k}| == |a| - 1;
  }

  lemma NotBound(h: Heap, id: nat)
    requires Exact(h) && id !in h.states
    ensures KeysOf(h.keys, id) == {}
  {
    assert Count(h.states, id) == Holders(h, id);
  }

  // ---------------------------------------------------------------- the round trip

  /** Rows that Marshal may have written: distinct contents, no key twice, all loadable. */
  ghost predicate WellFormed(rows: seq<Row>) {
    && DistinctData(rows)
    && (forall r :: r in rows ==> r.keys != [] && Loadable(r.data))
    && (forall i, j, k :: 0 <= i < j < |rows| && k in rows[i].keys ==> k !in rows[j].keys)
  }

  /** The keys of each row, and no others, are bound to the state of that row. */
  ghost predicate HoldsKeys(keys: Keys, rows: seq<Row>, ids: seq<nat>)
    requires |ids| == |rows|
  {
    && (forall k :: k in keys ==> exists i :: 0 <= i < |rows| && k in rows[i].keys)
    && (forall i, k :: 0 <= i < |rows| && k in rows[i].keys ==> k in keys && keys[k] == ids[i])
  }

  /** Each row has its state, enabled and with one reference per key. */
  ghost predicate HoldsStates(states: map<nat, State>, rows: seq<Row>, ids: seq<nat>)
    requires |ids| == |rows|
  {
    && (forall id :: id in states ==> id in ids)
    && (forall i :: 0 <= i < |rows| ==>
          ids[i] in states && states[ids[i]] == State(rows[i].data, |KeySet(rows[i])|, false))
  }

  /** Each row has its hash, and the hash its keys. */
  ghost predicate HoldsIndex(byHash: Index, hash: Data -> string, rows: seq<Row>) {
    && (forall x :: x in byHash ==> exists i :: 0 <= i < |rows| && hash(rows[i].data) == x)
    && (forall i :: 0 <= i < |rows| ==>
          hash(rows[i].data) in byHash && byHash[hash(rows[i].data)] == KeySet(rows[i]))
  }

  ghost predicate Holding(c: Cache, hash: Data -> string, rows: seq<Row>, ids: seq<nat>)
    requires |ids| == |rows|
  {
    && c.heap.scoped == multiset{} && HoldsKeys(c.heap.keys, rows, ids)
    && HoldsStates(c.heap.states, rows, ids) && HoldsIndex(c.byHash, hash, rows)
  }

  lemma MoreKeys(keys: Keys, rows: seq<Row>, ids: seq<nat>, r: Row, id: nat)
    requires |ids| == |rows| && HoldsKeys(keys, rows, ids) && forall k :: k in r.keys ==> k !in keys
    ensures HoldsKeys(keys + map k | k in KeySet(r) && k !in keys :: id, rows + [r], ids + [id])
  {
    var rs, at := rows + [r], ids + [id];
    var more := keys + map k | k in KeySet(r) && k !in keys :: id;
    forall k | k in more
      ensures exists i :: 0 <= i < |rs| && k in rs[i].keys
    {
      if k in keys {
        var i :| 0 <= i < |rows| && k in rows[i].keys;
        assert k in rs[i].keys;
      } else {
        assert k in rs[|rows|].keys;
      }
    }
  }

  lemma MoreStates(states: map<nat, State>, rows: seq<Row>, ids: seq<nat>, r: Row, id: nat)
    requires |ids| == |rows| && HoldsStates(states, rows, ids) && id !in ids && r.keys != []
    ensures KeySet(r) != {}
    ensures HoldsStates(states[id := State(r.data, |KeySet(r)|, false)], rows + [r], ids + [id])
  {
    assert r.keys[0] in KeySet(r);
  }

  lemma MoreIndex(byHash: Index, hash: Data -> string, rows: seq<Row>, r: Row)
    requires HoldsIndex(byHash, hash, rows)
    requires forall i :: 0 <= i < |rows| ==> hash(rows[i].data) != hash(r.data)
    ensures hash(r.data) !in byHash
    ensures HoldsIndex(byHash[hash(r.data) := KeySet(r)], hash, rows + [r])
  {
    var rs := rows + [r];
    var more := byHash[hash(r.data) := KeySet(r)];
    forall x | x in more
      ensures exists i :: 0 <= i < |rs| && hash(rs[i].data) == x
    {
      if x in byHash {
        var i :| 0 <= i < |rows| && hash(rows[i].data) == x;
        assert hash(rs[i].data) == x;
      } else {
        assert hash(rs[|rows|].data) == x;
      }
    }
  }

  /** The last row of a well-formed table has keys, data and address of its own. */
  lemma LastApart(keys: Keys, rows: seq<Row>, ids: seq<nat>, r: Row, id: nat)
    requires |ids| == |rows| && HoldsKeys(keys, rows, ids) && WellFormed(rows + [r]) && Unique(ids + [id])
    ensures id !in ids && r.keys != [] && Loadable(r.data)
    ensures forall k :: k in r.keys ==> k !in keys
    ensures forall i :: 0 <= i < |rows| ==> rows[i].data != r.data
  {
    var rs, at := rows + [r], ids + [id];
    assert rs[|rows|] == r && at[|ids|] == id && r in rs;
    forall i | 0 <= i < |rows|
      ensures rows[i].data != r.data && ids[i] != id
    {
      assert rs[i].data != rs[|rows|].data && at[i] != at[|ids|];
    }
    forall k | k in keys
      ensures k !in r.keys
    {
      var i :| 0 <= i < |rows| && k in rows[i].keys;
      assert k in rs[i].keys && k !in rs[|rows|].keys;
    }
  }

  lemma LoadsOne(c: Cache, hash: Data -> string, rows: seq<Row>, ids: seq<nat>, r: Row, id: nat)
    requires |ids| == |rows| && Holding(c, hash, rows, ids) && CollisionFree(hash)
    requires WellFormed(rows + [r]) && Unique(ids + [id])
    ensures Holding(LoadRow(c, hash, r, id), hash, rows + [r], ids + [id])
  {
    LastApart(c.heap.keys, rows, ids, r, id);
    hide HoldsKeys, HoldsStates, HoldsIndex, WellFormed;
    MoreKeys(c.heap.keys, rows, ids, r, id);
    MoreStates(c.heap.states, rows, ids, r, id);
    MoreIndex(c.byHash, hash, rows, r);
  }

  lemma {:induction false} LoadsAll(hash: Data -> string, rows: seq<Row>, ids: seq<nat>)
    requires |ids| == |rows| && WellFormed(rows) && Unique(ids) && CollisionFree(hash)
    ensures Holding(LoadAll(NoCache, hash, rows, ids), hash, rows, ids)
  {
    if rows != [] {
      var n := |rows| - 1;
      var rs, at := rows[..n], ids[..n];
      assert rows == rs + [rows[n]] && ids == at + [ids[n]];
      FirstRows(rows, n);
      LoadsAll(hash, rs, at);
      LoadsOne(LoadAll(NoCache, hash, rs, at), hash, rs, at, rows[n], ids[n]);
    }
  }

  lemma SavedIsWellFormed(h: Heap, max: nat, kept: seq<Row>, dropped: seq<Row>)
    requires Sound(h) && Saved(h, max, kept, dropped)
    requires Extended(h)
    ensures WellFormed(kept)
  {
    forall i | 0 <= i < |kept|
      ensures kept[i] == (kept + dropped)[i] && RowOf(h, kept[i])
    {
      assert kept[i] in kept + dropped;
    }
    forall r | r in kept
      ensures r.keys != [] && Loadable(r.data)
    {
      assert r in kept + dropped;
      assert Saveable(h, r.keys[0]) && DataAt(h, r.keys[0]) == r.data;
    }
    forall i, j, k | 0 <= i < j < |kept| && k in kept[i].keys
      ensures k !in kept[j].keys
    {
      assert (kept + dropped)[i].data != (kept + dropped)[j].data;
    }
  }

  predicate IsKept(rows: seq<Row>, d: Data) {
    exists r :: r in rows && r.data == d
  }

  /** The rows kept hold exactly the saveable keys whose data they have. */
  lemma KeptKeys(h: Heap, max: nat, kept: seq<Row>, dropped: seq<Row>)
    requires Saved(h, max, kept, dropped)
    ensures forall i, k :: 0 <= i < |kept| && k in kept[i].keys ==> Saveable(h, k) && DataAt(h, k) == kept[i].data
    ensures forall i, k :: 0 <= i < |kept| && Saveable(h, k) && DataAt(h, k) == kept[i].data ==> k in kept[i].keys
  {
    var rows := kept + dropped;
    forall i, k | 0 <= i < |kept| && k in kept[i].keys
      ensures Saveable(h, k) && DataAt(h, k) == kept[i].data
    {
      assert rows[i] in rows;
    }
    forall i, k | 0 <= i < |kept| && Saveable(h, k) && DataAt(h, k) == kept[i].data
      ensures k in kept[i].keys
    {
      var r :| r in rows && k in r.keys;
      var j :| 0 <= j < |rows| && rows[j] == r;
      assert RowOf(h, r);
      assert rows[i] == kept[i];
    }
  }

  /** A content that was dropped found the table full of contents used no less recently. */
  lemma DroppedIsOlder(h: Heap, max: nat, kept: seq<Row>, dropped: seq<Row>, k: string)
    requires Saved(h, max, kept, dropped) && Saveable(h, k) && !IsKept(kept, DataAt(h, k))
    ensures |kept| == max && forall r :: r in kept ==> r.data.lastUsed >= DataAt(h, k).lastUsed
  {
    var rows := kept + dropped;
    var r :| r in rows && k in r.keys;
    var j :| 0 <= j < |rows| && rows[j] == r;
    assert RowOf(h, r);
    forall i | 0 <= i < |kept|
      ensures kept[i].data != DataAt(h, k)
    {
      assert kept[i] in kept;
    }
    forall s | s in kept
      ensures s.data.lastUsed >= DataAt(h, k).lastUsed
    {
      var i :| 0 <= i < |kept| && kept[i] == s;
      assert rows[i].data.lastUsed >= rows[j].data.lastUsed;
    }
  }

  /** What Unmarshal has built, key by key. */
  lemma HeldKeys(h: Heap, g: Heap, kept: seq<Row>, ids: seq<nat>)
    requires |ids| == |kept| && HoldsKeys(g.keys, kept, ids) && HoldsStates(g.states, kept, ids) && Unique(ids)
    requires DistinctData(kept)
    requires forall i, k :: 0 <= i < |kept| && k in kept[i].keys ==> Saveable(h, k) && DataAt(h, k) == kept[i].data
    requires forall i, k :: 0 <= i < |kept| && Saveable(h, k) && DataAt(h, k) == kept[i].data ==> k in kept[i].keys
    ensures Restored(h, g, kept)
  {
    hide HoldsKeys, HoldsStates, DistinctData, Unique, WasKept, SameData;
    forall k
      ensures k in g.keys <==> WasKept(h, kept, k)
      ensures k in g.keys ==> SameData(h, g, k)
    {
      HeldKey(h, g, kept, ids, k);
    }
    forall a, b | a in g.keys && b in g.keys
      ensures g.keys[a] in g.states && g.keys[b] in g.states
      ensures g.keys[a] == g.keys[b] <==> DataAt(g, a) == DataAt(g, b)
    {
      HeldShared(g, kept, ids, a, b);
    }
  }

  lemma HeldKey(h: Heap, g: Heap, kept: seq<Row>, ids: seq<nat>, k: string)
    requires |ids| == |kept| && HoldsKeys(g.keys, kept, ids) && HoldsStates(g.states, kept, ids)
    requires forall i :: 0 <= i < |kept| && k in kept[i].keys ==> Saveable(h, k) && DataAt(h, k) == kept[i].data
    requires forall i :: 0 <= i < |kept| && Saveable(h, k) && DataAt(h, k) == kept[i].data ==> k in kept[i].keys
    ensures k in g.keys <==> WasKept(h, kept, k)
    ensures k in g.keys ==> SameData(h, g, k)
  {
    if k in g.keys {
      var i :| 0 <= i < |kept| && k in kept[i].keys;
      assert kept[i] in kept;
    }
    if WasKept(h, kept, k) {
      var r :| r in kept && r.data == DataAt(h, k);
      var i :| 0 <= i < |kept| && kept[i] == r;
      assert k in kept[i].keys;
    }
  }

  lemma HeldShared(g: Heap, kept: seq<Row>, ids: seq<nat>, a: string, b: string)
    requires |ids| == |kept| && HoldsKeys(g.keys, kept, ids) && HoldsStates(g.states, kept, ids)
    requires Unique(ids) && DistinctData(kept) && a in g.keys && b in g.keys
    ensures g.keys[a] in g.states && g.keys[b] in g.states
    ensures g.keys[a] == g.keys[b] <==> DataAt(g, a) == DataAt(g, b)
  {
    var i :| 0 <= i < |kept| && a in kept[i].keys;
    var j :| 0 <= j < |kept| && b in kept[j].keys;
    assert g.keys[a] == ids[i] && g.keys[b] == ids[j];
    if i != j { assert kept[i].data != kept[j].data && ids[i] != ids[j]; }
  }

  /** The key was bound to an enabled state, found and free of errors, and its content was not
      dropped. */
  predicate WasKept(h: Heap, kept: seq<Row>, k: string) {
    && k in h.keys && h.keys[k] in h.states
    && var s := h.states[h.keys[k]];
    !s.disabled && s.data.found && s.data.error == "" && IsKept(kept, s.data)
  }

  /** Both caches bind the key to the same data, the new one to an enabled state. */
  predicate SameData(h: Heap, g: Heap, k: string) {
    && k in h.keys && h.keys[k] in h.states && k in g.keys && g.keys[k] in g.states
    && DataAt(g, k) == DataAt(h, k) && !g.states[g.keys[k]].disabled
  }

  /** g binds exactly the keys that were kept, to their data, one state per content. */
  ghost predicate Restored(h: Heap, g: Heap, kept: seq<Row>) {
    && Sound(g)
    && (forall k :: k in g.keys <==> WasKept(h, kept, k))
    && (forall k :: k in g.keys ==> SameData(h, g, k))
    && (forall a, b :: a in g.keys && b in g.keys ==> (g.keys[a] == g.keys[b] <==> DataAt(g, a) == DataAt(g, b)))
  }

  /** The index is exact: each hash in it leads to all keys with that content, and to no other. */
  lemma HeldIndex(c: Cache, hash: Data -> string, kept: seq<Row>, ids: seq<nat>)
    requires |ids| == |kept| && Holding(c, hash, kept, ids) && CollisionFree(hash) && DistinctData(kept)
    requires forall r :: r in kept ==> r.keys != []
    ensures ExactIndex(c, hash)
  {
    hide HoldsKeys, HoldsStates, HoldsIndex, FoundByHash;
    forall k | k in c.heap.keys
      ensures FoundByHash(c, hash, k)
    {
      KeyIndexed(c, hash, kept, ids, k);
    }
    forall x | x in c.byHash
      ensures c.byHash[x] != {}
      ensures forall k :: k in c.byHash[x] ==> k in c.heap.keys && HasHash(c.heap, hash, k, x)
    {
      HashExact(c, hash, kept, ids, x);
    }
  }

  lemma KeyIndexed(c: Cache, hash: Data -> string, kept: seq<Row>, ids: seq<nat>, k: string)
    requires |ids| == |kept| && Holding(c, hash, kept, ids) && k in c.heap.keys
    ensures FoundByHash(c, hash, k)
  {
    var i :| 0 <= i < |kept| && k in kept[i].keys;
    assert c.heap.keys[k] == ids[i] && DataAt(c.heap, k) == kept[i].data && k in KeySet(kept[i]);
  }

  lemma HashExact(c: Cache, hash: Data -> string, kept: seq<Row>, ids: seq<nat>, x: string)
    requires |ids| == |kept| && Holding(c, hash, kept, ids) && x in c.byHash
    requires forall r :: r in kept ==> r.keys != []
    ensures c.byHash[x] != {}
    ensures forall k :: k in c.byHash[x] ==> k in c.heap.keys && HasHash(c.heap, hash, k, x)
  {
    var i :| 0 <= i < |kept| && hash(kept[i].data) == x;
    assert kept[i] in kept && kept[i].keys[0] in c.byHash[x];
    forall k | k in c.byHash[x]
      ensures k in c.heap.keys && HasHash(c.heap, hash, k, x)
    {
      assert k in kept[i].keys;
      assert c.heap.keys[k] == ids[i];
    }
  }

  predicate HasHash(h: Heap, hash: Data -> string, k: string, x: string)
    requires k in h.keys
  {
    h.keys[k] in h.states && hash(DataAt(h, k)) == x
  }

  predicate FoundByHash(c: Cache, hash: Data -> string, k: string)
    requires k in c.heap.keys
  {
    && c.heap.keys[k] in c.heap.states
    && hash(DataAt(c.heap, k)) in c.byHash && k in c.byHash[hash(DataAt(c.heap, k))]
  }

  ghost predicate ExactIndex(c: Cache, hash: Data -> string) {
    && (forall k :: k in c.heap.keys ==> FoundByHash(c, hash, k))
    && (forall x :: x in c.byHash ==> c.byHash[x] != {})
    && (forall x, k :: x in c.byHash && k in c.byHash[x] ==> k in c.heap.keys && HasHash(c.heap, hash, k, x))
  }

  lemma RoundTripOf(h: Heap, hash: Data -> string, max: nat, kept: seq<Row>, dropped: seq<Row>, ids: seq<nat>)
    requires Sound(h) && Saved(h, max, kept, dropped) && CollisionFree(hash)
    requires Extended(h)
    requires |ids| == |kept| && Unique(ids)
    ensures var c := LoadAll(NoCache, hash, kept, ids);
            Restored(h, c.heap, kept) && ExactIndex(c, hash)
  {
    hide Saved, LoadAll, HoldsKeys, HoldsStates, HoldsIndex, ExactIndex, Restored, DistinctData, Unique, CollisionFree;
    SavedIsWellFormed(h, max, kept, dropped);
    LoadsAll(hash, kept, ids);
    KeptKeys(h, max, kept, dropped);
    var c := LoadAll(NoCache, hash, kept, ids);
    HeldKeys(h, c.heap, kept, ids);
    HeldIndex(c, hash, kept, ids);
  }

  /** Marshal and then Unmarshal into an empty cache. The new cache binds exactly the enabled,
      found, error-free keys whose content was kept, to the same data; keys share a state
      exactly when they had equal data; all states are enabled, and the index is exact. */
  lemma RoundTrip(hash: Data -> string, first: Cache, c: Cache, max: nat, kept: seq<Row>, dropped: seq<Row>,
                  ids: seq<nat>)
    requires Inv(first) && Reachable(hash, first, c) && CollisionFree(hash)
    requires Saved(c.heap, max, kept, dropped) && |ids| == |kept| && Unique(ids)
    ensures var restored := LoadAll(NoCache, hash, kept, ids);
            Restored(c.heap, restored.heap, kept) && ExactIndex(restored, hash)
  {
    var r :| IsRun(hash, r) && r[0] == first && r[|r| - 1] == c;
    RunKeeps(hash, r);
    hide Exact, Closed, Reachable, LoadAll, Saved, Restored, ExactIndex;
    RoundTripOf(c.heap, hash, max, kept, dropped, ids);
  }

  lemma {:induction false} LoadsExact(hash: Data -> string, rows: seq<Row>, ids: seq<nat>)
    requires |ids| == |rows| && WellFormed(rows) && Unique(ids) && CollisionFree(hash)
    ensures Exact(LoadAll(NoCache, hash, rows, ids).heap)
  {
    if rows == [] {
      EmptyInv();
    } else {
      var n := |rows| - 1;
      var rs, at := rows[..n], ids[..n];
      assert rows == rs + [rows[n]] && ids == at + [ids[n]];
      assert WellFormed(rs) by { FirstRows(rows, n); }
      hide Exact, WellFormed;
      LoadsExact(hash, rs, at);
      LoadsAll(hash, rs, at);
      var c := LoadAll(NoCache, hash, rs, at);
      hide LoadAll;
      LastApart(c.heap.keys, rs, at, rows[n], ids[n]);
      assert KeySet(rows[n]) !! c.heap.keys.Keys;
      LoadExactly(c.heap, rows[n].data, ids[n], KeySet(rows[n]));
    }
  }

  lemma FirstRows(rows: seq<Row>, n: int)
    requires WellFormed(rows) && 0 <= n <= |rows|
    ensures WellFormed(rows[..n])
  {
    forall i, j, k | 0 <= i < j < n && k in rows[..n][i].keys
      ensures k !in rows[..n][j].keys
    {
      assert k in rows[i].keys;
    }
  }

  /** No state read back is disabled, and each has a language extension. */
  lemma HeldEnabled(h: Heap, rows: seq<Row>, ids: seq<nat>)
    requires |ids| == |rows| && (forall r :: r in rows ==> Loadable(r.data)) && HoldsStates(h.states, rows, ids)
    ensures Closed(h) && Extended(h)
  {
    forall id | id in h.states
      ensures !h.states[id].disabled && h.states[id].data.extension
    {
      var i :| 0 <= i < |rows| && ids[i] == id;
      assert rows[i] in rows;
    }
  }

  /** A cache read back is in order, so all that is proved of runs holds from there on. */
  lemma RestoredInv(hash: Data -> string, rows: seq<Row>, ids: seq<nat>)
    requires |ids| == |rows| && WellFormed(rows) && Unique(ids) && CollisionFree(hash)
    ensures Inv(LoadAll(NoCache, hash, rows, ids))
  {
    LoadsExact(hash, rows, ids);
    LoadsAll(hash, rows, ids);
    var c := LoadAll(NoCache, hash, rows, ids);
    hide LoadAll, Exact;
    ExactSound(c.heap);
    hide Closed, Extended;
    HeldEnabled(c.heap, rows, ids);
  }
}
