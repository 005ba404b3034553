/**
 CompilerInfoCache as the object it is in client/compiler_info_cache.cc: its maps are
 updated in place, entry by entry, and walked in whatever order they come.
 */
module CompilerInfoCacheObject {
  import opened Basics
  import opened CompilerInfoStates
  import C = CompilerInfoCache
  import T = CompilerInfoTable

  class CompilerInfoCache {
    const hash: Data -> string
    var heap: Heap
    var byHash: C.Index

    function View(): C.Cache
      reads this
    {
      C.Cache(heap, byHash)
    }

    constructor (hash: Data -> string)
      ensures View() == C.NoCache && C.Inv(View()) && this.hash == hash
    {
      this.hash := hash;
      heap := NoStates;
      byHash := map[];
      new;
      C.EmptyInv();
    }

    /** Store; the returned state is held by the caller's ScopedCompilerInfoState. */
    method Store(d: Data, o: C.Choice) returns (s: nat)
      requires C.Inv(View()) && o.id !in heap.states && d.extension
      requires hash(d) in byHash && byHash[hash(d)] != {} ==> o.pick in byHash[hash(d)]
      modifies this
      ensures View() == C.Store(old(View()), hash, d, o) && C.Inv(View())
      ensures s in heap.states && o.text in heap.keys && heap.keys[o.text] == s
      ensures C.BoundTo(old(heap), heap, d, o, C.Duplicate(old(View()), hash(d), o))
      ensures C.Elsewhere(old(heap), heap, o.text)
    {
      hide C.Inv, C.BoundTo, C.Elsewhere, C.Duplicate, C.SomeDisabled, C.Reindexed, C.Taken, C.Shared, Bind;
      ghost var before := View();
      StoreDoes(before, hash, d, o);
      var h := hash(d);
      s := TakeState(h, d, o);
      var oldHash := "";
      if o.text in heap.keys {
        oldHash := hash(heap.states[heap.keys[o.text]].data);
      }
      heap := Bind(heap, o.text, s);
      Index(h, o.text, oldHash);
      InheritDisabled(s);
    }

    /** The state of a key with the same hash, if it is still good, and a new one otherwise. */
    method TakeState(h: string, d: Data, o: C.Choice) returns (s: nat)
      requires C.Sound(heap) && o.id !in heap.states
      requires h in byHash && byHash[h] != {} ==> o.pick in byHash[h]
      modifies this`heap
      ensures var shared := C.Shared(old(View()), h, o);
              s == C.StoredId(o, shared) && heap == C.Taken(old(heap), d, o, shared)
      ensures heap.keys == old(heap.keys) && s in heap.states && C.Sound(heap)
      ensures forall k :: k in heap.keys ==> heap.states[heap.keys[k]].data == old(heap.states[heap.keys[k]].data)
    {
      var shared: Option<nat> := None;
      if h in byHash && byHash[h] != {} {
        shared := C.LookupUnlocked(heap, o.pick, o.validated, o.now);
      }
      s := C.StoredId(o, shared);
      if shared.None? {
        heap := Adopt(heap, o.id, d);
      } else {
        heap := Hold(heap, s);
      }
    }

    /** keys_by_hash_: the key joins its new hash and leaves its old one. */
    method Index(h: string, text: string, oldHash: string)
      modifies this`byHash
      ensures byHash == C.Reindexed(old(byHash), h, text, oldHash)
      ensures h != oldHash || oldHash == "" ==> h in byHash && text in byHash[h]
      ensures oldHash != "" && oldHash in byHash ==> byHash[oldHash] != {} && text !in byHash[oldHash]
      ensures forall x, k :: k != text && x in old(byHash) && k in old(byHash)[x] ==> x in byHash && k in byHash[x]
      ensures forall x, k :: k != text && x in byHash && k in byHash[x] ==> x in old(byHash) && k in old(byHash)[x]
      ensures forall x :: x != h && x != oldHash ==>
                (x in byHash <==> x in old(byHash)) && (x in byHash ==> byHash[x] == old(byHash)[x])
    {
      byHash := byHash[h := (if h in byHash then byHash[h] else {}) + {text}];
      if oldHash != "" && oldHash in byHash {
        var keys := byHash[oldHash] - {text};
        if keys == {} {
          byHash := byHash - {oldHash};
        } else {
          byHash := byHash[oldHash := keys];
        }
      }
    }

    /** Check if the same local compiler was already disabled. */
    method InheritDisabled(s: nat)
      requires s in heap.states && C.Sound(heap)
      modifies this`heap
      ensures heap == C.Inherited(old(heap), s)
    {
      var compiler := heap.states[s].data.compiler;
      var todo := heap.keys.Keys;
      while todo != {}
        invariant todo <= heap.keys.Keys && heap == old(heap)
        invariant forall k :: k in heap.keys && k !in todo ==> !C.IsDisabled(heap, heap.keys[k], compiler)
        decreases |todo|
      {
        var k :| k in todo;
        if C.IsDisabled(heap, heap.keys[k], compiler) {
          heap := C.SetDisabled(heap, s);
          return;
        }
        todo := todo - {k};
      }
    }

    /** Disable: whether the state itself was still enabled. */
    method Disable(id: nat) returns (disabled: bool)
      requires C.Inv(View()) && id in heap.states
      modifies this`heap
      ensures heap == C.Disable(old(heap), id) && C.Inv(View())
      ensures disabled <==> !old(heap.states[id].disabled)
      ensures heap.keys == old(heap.keys) && heap.scoped == old(heap.scoped)
      ensures heap.states.Keys == old(heap.states.Keys)
      ensures forall x :: x in heap.states ==>
                heap.states[x] == old(heap.states)[x].(disabled := Reached(old(heap), id, {}, x))
    {
      ghost var h := heap;
      C.DisableKeeps(heap, id);
      assert C.Sound(h);
      hide C.Inv, C.Closed, C.Sound, C.Disable, Exact, Reached;
      disabled := !heap.states[id].disabled;
      if disabled {
        heap := C.SetDisabled(heap, id);
      }
      var compiler := heap.states[id].data.compiler;
      var todo := heap.keys.Keys;
      FirstReached(h, id, heap);
      while todo != {}
        invariant todo <= h.keys.Keys && InProgress(h, id, todo, heap)
        decreases |todo|
      {
        var k :| k in todo;
        Visited(h, id, todo, k, heap);
        hide InProgress;
        todo := todo - {k};
        var x := heap.keys[k];
        if !heap.states[x].disabled && heap.states[x].data.compiler == compiler {
          heap := C.SetDisabled(heap, x);
        }
      }
      AllReached(h, id, heap);
    }

    /** UpdateOlderCompilerInfoUnlocked: `outdated` are the keys whose state has not been used
        for too long, or is no longer valid. */
    method UpdateOlderCompilerInfo(outdated: set<string>)
      requires C.Inv(View())
      modifies this`heap
      ensures C.Inv(View()) && heap.keys == old(heap.keys) - outdated && heap.scoped == old(heap.scoped)
      ensures C.Kept(old(heap), heap)
    {
      hide C.Inv, C.Kept;
      var keysToRemove: seq<string> := [];
      var todo := heap.keys.Keys;
      while todo != {}
        invariant todo <= heap.keys.Keys && heap == old(heap)
        invariant forall k :: k in keysToRemove <==> k in heap.keys && k !in todo && k in outdated
        decreases |todo|
      {
        var k :| k in todo;
        todo := todo - {k};
        if k in outdated {
          keysToRemove := keysToRemove + [k];
        }
      }
      var i := 0;
      KeptSelf(heap);
      while i < |keysToRemove|
        invariant 0 <= i <= |keysToRemove| && C.Inv(View()) && heap.scoped == old(heap.scoped)
        invariant C.Kept(old(heap), heap) && heap.states.Keys <= old(heap.states.Keys)
        invariant forall k :: k in heap.keys <==> k in old(heap.keys) && k !in keysToRemove[..i]
        invariant forall k :: k in heap.keys ==> heap.keys[k] == old(heap.keys)[k]
      {
        var k := keysToRemove[i];
        if k in heap.keys {
          EvictOne(View(), k);
          KeptUnbound(old(heap), heap, k);
          heap := Unbind(heap, k);
        }
        i := i + 1;
      }
    }

    /** UnmarshalUnlocked. */
    method Unmarshal(rows: seq<T.Row>, ids: seq<nat>)
      requires |ids| == |rows| && Unique(ids) && C.Inv(View())
      requires forall id :: id in ids ==> id !in heap.states
      modifies this
      ensures View() == T.LoadAll(old(View()), hash, rows, ids)
      ensures T.HoldsPositive(old(heap.states), heap.states, rows, ids)
    {
      var i := 0;
      NoneScoped(View(), ids);
      hide C.Inv;
      assert rows[..0] == [] && ids[..0] == [];
      while i < |rows|
        invariant 0 <= i <= |rows| && heap.scoped == old(heap.scoped)
        invariant View() == T.LoadAll(old(View()), hash, rows[..i], ids[..i])
        invariant forall j :: i <= j < |ids| ==> ids[j] !in heap.states && ids[j] !in heap.scoped
      {
        var r := rows[i];
        assert rows[..i + 1][..i] == rows[..i] && ids[..i + 1][..i] == ids[..i];
        if r.data.extension && r.data.found && r.data.error == "" {
          LoadState(r.data, ids[i], T.KeySet(r));
          if hash(r.data) !in byHash {
            byHash := byHash[hash(r.data) := T.KeySet(r)];
          }
        }
        i := i + 1;
      }
      assert rows[..|rows|] == rows && ids[..|ids|] == ids;
      T.LoadsPositive(old(View()), hash, rows, ids);
    }

    /** A new state for one row, and its keys. */
    method LoadState(d: Data, id: nat, keys: set<string>)
      requires id !in heap.states && id !in heap.scoped && d.found
      modifies this`heap
      ensures heap == T.Loaded(old(heap), d, id, keys)
    {
      ghost var h := heap;
      PartialStart(h, d, id);
      PartialDone(h, d, id, keys);
      hide Partial, Inserted, T.Loaded, Release, Adopt;
      heap := Adopt(heap, id, d);
      var todo := keys;
      ghost var done: set<string> := {};
      while todo != {}
        invariant todo !! done && todo + done == keys && heap == Partial(h, d, id, done)
        decreases |todo|
      {
        var k :| k in todo;
        InsertOne(h, d, id, done, k);
        InsertKey(k, id);
        todo := todo - {k};
        done := done + {k};
      }
      assert done == keys;
      heap := Release(heap, id);
    }

    /** compiler_info_.insert, and Ref whether or not the key was free. */
    method InsertKey(k: string, id: nat)
      requires id in heap.states
      modifies this`heap
      ensures heap == Inserted(old(heap), k, id)
    {
      if k !in heap.keys {
        heap := heap.(keys := heap.keys[k := id]);
      }
      heap := heap.(states := Ref(heap.states, id));
    }

    /** ClearUnlocked: afterwards only scoped holders keep states alive. */
    method Clear()
      requires C.Inv(View())
      modifies this
      ensures C.Inv(View()) && heap.keys == map[] && byHash == map[] && heap.scoped == old(heap.scoped)
      ensures heap.scoped == multiset{} ==> heap.states == map[]
    {
      hide C.Inv;
      byHash := map[];
      C.ApplyKeeps(old(View()), hash, C.ClearIndexOp);
      var todo := heap.keys.Keys;
      while todo != {}
        invariant C.Inv(View()) && heap.keys.Keys == todo && heap.scoped == old(heap.scoped) && byHash == map[]
        decreases |todo|
      {
        var k :| k in todo;
        EvictOne(View(), k);
        heap := Unbind(heap, k);
        todo := todo - {k};
      }
      NothingLeft(View());
    }
  }

  // ---------------------------------------------------------------- lemmas for the methods

  lemma StoreDoes(c: C.Cache, hash: Data -> string, d: Data, o: C.Choice)
    requires C.Inv(c) && o.id !in c.heap.states && d.extension
    ensures C.Sound(c.heap) && C.Inv(C.Store(c, hash, d, o))
    ensures C.BoundTo(c.heap, C.Store(c, hash, d, o).heap, d, o, C.Duplicate(c, hash(d), o))
    ensures C.Elsewhere(c.heap, C.Store(c, hash, d, o).heap, o.text)
    ensures var b := C.Bound(c.heap, d, o, C.Shared(c, hash(d), o));
            C.Sound(b) && C.StoredId(o, C.Shared(c, hash(d), o)) in b.states
    ensures var g := C.Store(c, hash, d, o).heap;
            o.text in g.keys && g.keys[o.text] == C.StoredId(o, C.Shared(c, hash(d), o)) && g.keys[o.text] in g.states
  {
    hide C.Store, C.BoundTo, C.Elsewhere, C.Duplicate;
    C.StoreKeeps(c, hash, d, o);
    C.StoreShares(c, hash, d, o);
    StoreGives(c, hash, d, o);
  }

  lemma StoreGives(c: C.Cache, hash: Data -> string, d: Data, o: C.Choice)
    requires C.Inv(c) && o.id !in c.heap.states
    ensures var b := C.Bound(c.heap, d, o, C.Shared(c, hash(d), o));
            C.Sound(b) && C.StoredId(o, C.Shared(c, hash(d), o)) in b.states
    ensures var g := C.Store(c, hash, d, o).heap;
            o.text in g.keys && g.keys[o.text] == C.StoredId(o, C.Shared(c, hash(d), o)) && g.keys[o.text] in g.states
  {
    C.StoreExact(c.heap, d, o, C.Shared(c, hash(d), o));
    C.BoundExact(c.heap, d, o, C.Shared(c, hash(d), o));
    C.ExactSound(C.Bound(c.heap, d, o, C.Shared(c, hash(d), o)));
  }

  /** Part of a row's keys have been inserted. */
  function Partial(h: Heap, d: Data, id: nat, keys: set<string>): Heap {
    Heap(h.states[id := State(d, |keys| + 1, false)],
         h.keys + map k | k in keys && k !in h.keys :: id,
         h.scoped + multiset{id})
  }

  function Inserted(h: Heap, k: string, id: nat): Heap
    requires id in h.states
  {
    h.(states := Ref(h.states, id), keys := if k in h.keys then h.keys else h.keys[k := id])
  }

  lemma InsertOne(h: Heap, d: Data, id: nat, keys: set<string>, k: string)
    requires k !in keys && id !in h.states
    ensures var g := Partial(h, d, id, keys);
            id in g.states && Partial(h, d, id, keys + {k}) == Inserted(g, k, id)
  {
    var g := Partial(h, d, id, keys);
    assert |keys + {k}| == |keys| + 1;
    assert Partial(h, d, id, keys + {k}).keys == if k in g.keys then g.keys else g.keys[k := id];
  }

  lemma PartialDone(h: Heap, d: Data, id: nat, keys: set<string>)
    requires id !in h.states && id !in h.scoped
    ensures id in Partial(h, d, id, keys).states
    ensures Release(Partial(h, d, id, keys), id) == T.Loaded(h, d, id, keys)
  {
    assert h.states[id := State(d, 1, false)] - {id} == h.states;
    assert h.scoped + multiset{id} - multiset{id} == h.scoped;
  }

  lemma PartialStart(h: Heap, d: Data, id: nat)
    requires d.found
    ensures Partial(h, d, id, {}) == Adopt(h, id, d)
  {
    assert h.keys + (map k | k in {} && k !in h.keys :: id) == h.keys;
  }

  /** Disabled already, or reached by Disable once only `todo` is left to visit. */
  predicate Reached(h: Heap, id: nat, todo: set<string>, x: nat)
    requires id in h.states && x in h.states
  {
    || h.states[x].disabled || x == id
    || (h.states[x].data.compiler == h.states[id].data.compiler
        && exists k :: k in h.keys && k !in todo && h.keys[k] == x)
  }

  lemma Reaches(h: Heap, id: nat, todo: set<string>, k: string, x: nat)
    requires id in h.states && x in h.states && k in h.keys && k !in todo
    ensures Reached(h, id, todo, x) <==>
            Reached(h, id, todo + {k}, x)
            || (h.keys[k] == x && h.states[x].data.compiler == h.states[id].data.compiler)
  {
  }

  /** Disable has still to visit `todo`. */
  predicate InProgress(h: Heap, id: nat, todo: set<string>, g: Heap) {
    && id in h.states && g.keys == h.keys && g.scoped == h.scoped && g.states.Keys == h.states.Keys
    && forall x :: x in h.states ==> g.states[x] == h.states[x].(disabled := Reached(h, id, todo, x))
  }

  lemma FirstReached(h: Heap, id: nat, g: Heap)
    requires id in h.states && g == (if h.states[id].disabled then h else C.SetDisabled(h, id))
    ensures InProgress(h, id, h.keys.Keys, g)
  {
  }

  lemma Visited(h: Heap, id: nat, todo: set<string>, k: string, g: Heap)
    requires C.Sound(h) && InProgress(h, id, todo, g) && k in h.keys && k in todo
    ensures g.keys == h.keys && id in h.states && h.keys[k] in h.states && g.states.Keys == h.states.Keys
    ensures g.states[h.keys[k]].data == h.states[h.keys[k]].data && g.states[id].data == h.states[id].data
    ensures var x := h.keys[k];
            InProgress(h, id, todo - {k},
                       if !g.states[x].disabled && g.states[x].data.compiler == h.states[id].data.compiler
                       then C.SetDisabled(g, x) else g)
  {
    assert todo - {k} + {k} == todo;
    forall y | y in h.states
      ensures Reached(h, id, todo - {k}, y) <==>
              Reached(h, id, todo, y)
              || (h.keys[k] == y && h.states[y].data.compiler == h.states[id].data.compiler)
    {
      Reaches(h, id, todo - {k}, k, y);
    }
  }

  lemma AllReached(h: Heap, id: nat, g: Heap)
    requires InProgress(h, id, {}, g)
    ensures g == C.Disable(h, id)
  {
    forall x | x in h.states
      ensures g.states[x] == C.Disable(h, id).states[x]
    {
      assert x in h.keys.Values <==> exists k :: k in h.keys && h.keys[k] == x;
    }
    assert g.states == C.Disable(h, id).states;
  }

  lemma EvictOne(c: C.Cache, k: string)
    requires C.Inv(c) && k in c.heap.keys
    ensures c.heap.keys[k] in c.heap.states
    ensures C.Inv(c.(heap := Unbind(c.heap, k)))
  {
    C.EvictKeeps(c.heap, k);
  }

  lemma KeptSelf(h: Heap)
    ensures C.Kept(h, h)
  {
  }

  lemma KeptUnbound(h: Heap, g: Heap, k: string)
    requires C.Kept(h, g) && g.states.Keys <= h.states.Keys && k in g.keys && g.keys[k] in g.states
    ensures C.Kept(h, Unbind(g, k)) && Unbind(g, k).states.Keys <= h.states.Keys
  {
  }

  lemma NoneScoped(c: C.Cache, ids: seq<nat>)
    requires C.Inv(c) && forall id :: id in ids ==> id !in c.heap.states
    ensures forall id :: id in ids ==> id !in c.heap.scoped
  {
    forall id | id in ids
      ensures id !in c.heap.scoped
    {
      assert Count(c.heap.states, id) == Holders(c.heap, id);
    }
  }

  lemma NothingLeft(c: C.Cache)
    requires C.Inv(c) && c.heap.keys == map[]
    ensures c.heap.scoped == multiset{} ==> c.heap.states == map[]
  {
    if c.heap.scoped == multiset{} {
      forall id: nat
        ensures id !in c.heap.states
      {
        assert KeysOf(c.heap.keys, id) == {};
        assert Count(c.heap.states, id) == Holders(c.heap, id);
      }
    }
  }
}
