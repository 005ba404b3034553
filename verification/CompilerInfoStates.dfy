/**
 CompilerInfoState and ScopedCompilerInfoState (client/compiler_info_state.cc and .h): what
 is known about one compiler, shared by reference counting between the cache and the
 tasks that use it.

 `Heap` stands for the states that exist, by address. A state is held by every cache key
 bound to it and by every ScopedCompilerInfoState that points to it.
 */
module CompilerInfoStates {
  import opened Basics

  /** The five fields that IsSameCompiler compares. */
  datatype Compiler = Compiler(target: string, version: string, lang: string, hash: string, realPath: string)

  /** CompilerInfoData, as far as the cache looks into it. */
  datatype Data = Data(
    compiler: Compiler,
    found: bool,
    error: string,
    failedAt: int,
    lastUsed: int,
    extension: bool,      // a language extension is set
    rest: string)         // everything else, serialized

  /** The constructor's repair: what is not found carries an error. */
  function Repaired(d: Data): Data {
    if !d.found && d.error == "" then d.(error := "compiler not found") else d
  }

  datatype State = State(data: Data, refcnt: int, disabled: bool)

  type Keys = map<string, nat>

  datatype Heap = Heap(
    states: map<nat, State>,
    keys: Keys,                // compiler_info_: what the cache holds
    scoped: multiset<nat>)     // what ScopedCompilerInfoState objects hold

  const NoStates := Heap(map[], map[], multiset{})

  // ---------------------------------------------------------------- Ref and Deref

  function Count(states: map<nat, State>, id: nat): int {
    if id in states then states[id].refcnt else 0
  }

  function Ref(states: map<nat, State>, id: nat): map<nat, State>
    requires id in states
  {
    states[id := states[id].(refcnt := states[id].refcnt + 1)]
  }

  /** The last Deref deletes the state. */
  function Deref(states: map<nat, State>, id: nat): map<nat, State>
    requires id in states
  {
    if states[id].refcnt == 1 then states - {id}
    else states[id := states[id].(refcnt := states[id].refcnt - 1)]
  }

  // ---------------------------------------------------------------- who holds what

  function KeysOf(keys: Keys, id: nat): set<string> {
    set k | k in keys && keys[k] == id
  }

  function Holders(h: Heap, id: nat): nat {
    |KeysOf(h.keys, id)| + h.scoped[id]
  }

  /** Every state is counted exactly, and exists exactly while something holds it. */
  ghost predicate Exact(h: Heap) {
    && (forall id :: id in h.states ==> h.states[id].refcnt > 0)
    && (forall id :: Count(h.states, id) == Holders(h, id))
  }

  lemma BindKeys(keys: Keys, k: string, id: nat, x: nat)
    ensures |KeysOf(keys[k := id], x)|
         == |KeysOf(keys, x)| + One(x == id) - One(k in keys && keys[k] == x)
  {
    var a, b := KeysOf(keys, x), KeysOf(keys[k := id], x);
    if x == id {
      assert b == a + {k};
    } else {
      assert b == a - {k};
    }
  }

  lemma UnbindKeys(keys: Keys, k: string, x: nat)
    ensures |KeysOf(keys - {k}, x)| == |KeysOf(keys, x)| - One(k in keys && keys[k] == x)
  {
    assert KeysOf(keys - {k}, x) == KeysOf(keys, x) - {k};
  }

  lemma BoundExists(h: Heap, k: string)
    requires Exact(h) && k in h.keys
    ensures h.keys[k] in h.states
  {
    assert k in KeysOf(h.keys, h.keys[k]);
    assert Count(h.states, h.keys[k]) == Holders(h, h.keys[k]);
  }

  lemma ScopedExists(h: Heap, id: nat)
    requires Exact(h) && id in h.scoped
    ensures id in h.states
  {
    assert Count(h.states, id) == Holders(h, id);
  }

  // ---------------------------------------------------------------- elementary moves

  /** ScopedCompilerInfoState(new CompilerInfoState(data)). */
  function Adopt(h: Heap, id: nat, d: Data): Heap {
    h.(states := h.states[id := State(Repaired(d), 1, false)], scoped := h.scoped + multiset{id})
  }

  /** A ScopedCompilerInfoState comes to point to the state. */
  function Hold(h: Heap, id: nat): Heap
    requires id in h.states
  {
    h.(states := Ref(h.states, id), scoped := h.scoped + multiset{id})
  }

  /** A ScopedCompilerInfoState lets go. */
  function Release(h: Heap, id: nat): Heap
    requires id in h.states
  {
    h.(states := Deref(h.states, id), scoped := h.scoped - multiset{id})
  }

  /** A key comes to point to the state: Ref for the new binding, then Deref for the old. */
  function Bind(h: Heap, k: string, id: nat): Heap
    requires id in h.states && (k in h.keys ==> h.keys[k] in h.states)
  {
    var states := Ref(h.states, id);
    h.(states := if k in h.keys then Deref(states, h.keys[k]) else states, keys := h.keys[k := id])
  }

  /** A key is removed. */
  function Unbind(h: Heap, k: string): Heap
    requires k in h.keys && h.keys[k] in h.states
  {
    h.(states := Deref(h.states, h.keys[k]), keys := h.keys - {k})
  }

  lemma CountExact(h: Heap, g: Heap)
    requires forall id :: id in g.states ==> g.states[id].refcnt > 0
    requires forall x: nat :: Count(g.states, x) - Count(h.states, x) == Holders(g, x) - Holders(h, x)
    requires Exact(h)
    ensures Exact(g)
  {
    hide Holders;
    forall x: nat
      ensures Count(g.states, x) == Holders(g, x)
    {
      assert Count(h.states, x) == Holders(h, x);
    }
  }

  lemma AdoptExact(h: Heap, id: nat, d: Data)
    requires Exact(h) && id !in h.states
    ensures Exact(Adopt(h, id, d))
  {
    CountExact(h, Adopt(h, id, d));
  }

  lemma HoldExact(h: Heap, id: nat)
    requires Exact(h) && id in h.states
    ensures Exact(Hold(h, id))
  {
    CountExact(h, Hold(h, id));
  }

  lemma ReleaseExact(h: Heap, id: nat)
    requires Exact(h) && id in h.scoped
    ensures id in h.states && Exact(Release(h, id))
  {
    ScopedExists(h, id);
    CountExact(h, Release(h, id));
  }

  lemma BindExact(h: Heap, k: string, id: nat)
    requires Exact(h) && id in h.states
    ensures k in h.keys ==> h.keys[k] in h.states
    ensures Exact(Bind(h, k, id)) && id in Bind(h, k, id).states
  {
    if k in h.keys { BoundExists(h, k); }
    var g := Bind(h, k, id);
    forall x: nat
      ensures Count(g.states, x) - Count(h.states, x) == Holders(g, x) - Holders(h, x)
    {
      BindKeys(h.keys, k, id, x);
    }
    CountExact(h, g);
    BoundExists(g, k);
  }

  lemma UnbindExact(h: Heap, k: string)
    requires Exact(h) && k in h.keys
    ensures h.keys[k] in h.states && Exact(Unbind(h, k))
  {
    BoundExists(h, k);
    var g := Unbind(h, k);
    forall x: nat
      ensures Count(g.states, x) - Count(h.states, x) == Holders(g, x) - Holders(h, x)
    {
      UnbindKeys(h.keys, k, x);
    }
    CountExact(h, g);
  }

  // ---------------------------------------------------------------- ScopedCompilerInfoState

  /** reset: Ref comes before Deref, so resetting to the state it already holds is safe. */
  function Reset(h: Heap, held: Option<nat>, s: Option<nat>): Heap
    requires s.Some? ==> s.value in h.states
    requires held.Some? ==> held.value in h.states
  {
    var g := if s.Some? then Hold(h, s.value) else h;
    if held.Some? then Release(g, held.value) else g
  }

  lemma ResetExact(h: Heap, held: Option<nat>, s: Option<nat>)
    requires Exact(h) && (s.Some? ==> s.value in h.states) && (held.Some? ==> held.value in h.scoped)
    ensures held.Some? ==> held.value in h.states
    ensures Exact(Reset(h, held, s))
    ensures s.Some? ==> s.value in Reset(h, held, s).states
  {
    if held.Some? { ScopedExists(h, held.value); }
    var g := if s.Some? then Hold(h, s.value) else h;
    if s.Some? { HoldExact(h, s.value); }
    if held.Some? { ReleaseExact(g, held.value); }
    if s.Some? { ScopedExists(Reset(h, held, s), s.value); }
  }

  class StateHeap {
    var heap: Heap

    constructor ()
      ensures heap == NoStates
    {
      heap := NoStates;
    }
  }

  class ScopedCompilerInfoState {
    var state: Option<nat>

    /** The state held exists, and the heap knows of the hold. */
    predicate Holds(h: StateHeap)
      reads this, h
    {
      state.Some? ==> state.value in h.heap.scoped
    }

    constructor ()
      ensures state == None
    {
      state := None;
    }

    /** The move constructor takes the pointer and leaves the source empty. */
    constructor Move(other: ScopedCompilerInfoState)
      modifies other
      ensures state == old(other.state) && other.state == None
    {
      state := other.state;
      new;
      other.state := None;
    }

    method Assign(other: ScopedCompilerInfoState)
      modifies this, other
      ensures state == old(other.state) && other.state == old(state)
    {
      Swap(other);
    }

    method Swap(other: ScopedCompilerInfoState)
      modifies this, other
      ensures state == old(other.state) && other.state == old(state)
    {
      var otherState := other.state;
      other.state := state;
      state := otherState;
    }

    method Reset(h: StateHeap, s: Option<nat>)
      requires Exact(h.heap) && Holds(h) && (s.Some? ==> s.value in h.heap.states)
      modifies this, h
      ensures Exact(h.heap) && Holds(h) && state == s
      ensures h.heap.keys == old(h.heap.keys)
      ensures h.heap.scoped + (if old(state).Some? then multiset{old(state).value} else multiset{})
           == old(h.heap.scoped) + (if s.Some? then multiset{s.value} else multiset{})
      ensures s.Some? ==> s.value in h.heap.states && h.heap.states[s.value].data == old(h.heap.states[s.value].data)
    {
      ResetExact(h.heap, state, s);
      if s.Some? {
        h.heap := Hold(h.heap, s.value);
      }
      if state.Some? {
        h.heap := Release(h.heap, state.value);
      }
      state := s;
    }
  }
}
