/**
 CompilerInfoCache (client/compiler_info_cache.cc): a map from key text to shared compiler
 info states, deduplicated through an index from content hash to keys.

 The index is a hint: data change after they were hashed, eviction leaves the index
 alone, and storing the same content again under the same key takes the key out of it.
 What is proved below does not rely on it. The validator, the clock, the choice among
 the keys of one hash and the address of a new state are inputs of each operation.
 */
module CompilerInfoCache {
  import opened Basics
  import opened CompilerInfoStates

  const NegativeCacheSeconds := 600

  type Index = map<string, set<string>>

  datatype Cache = Cache(heap: Heap, byHash: Index)

  const NoCache := Cache(NoStates, map[])

  // ---------------------------------------------------------------- Lookup

  /** Whether LookupUnlocked accepts an entry that it has found. */
  predicate Usable(d: Data, validated: bool, now: int) {
    validated && (d.error == "" || now < d.failedAt + NegativeCacheSeconds)
  }

  function LookupUnlocked(h: Heap, k: string, validated: bool, now: int): Option<nat>
    requires k in h.keys ==> h.keys[k] in h.states
  {
    if k in h.keys && Usable(h.states[h.keys[k]].data, validated, now) then Some(h.keys[k]) else None
  }

  /** UpdateLastUsedAt and UpdateFileStatIfHashMatch: data change in place, never the compiler. */
  function Amend(h: Heap, id: nat, lastUsed: int, rest: string): (g: Heap)
    requires id in h.states
    ensures id in g.states && g.states[id].data.lastUsed == lastUsed && g.states[id].data.rest == rest
    ensures g.keys == h.keys && g.scoped == h.scoped && g.states.Keys == h.states.Keys
    ensures forall x :: x in g.states ==> g.states[x].data.compiler == h.states[x].data.compiler
  {
    var s := h.states[id];
    h.(states := h.states[id := s.(data := s.data.(lastUsed := lastUsed, rest := rest))])
  }

  // ---------------------------------------------------------------- Store

  /** What the outside decides during one Store. */
  datatype Choice = Choice(
    text: string,         // key text under which the state is stored
    id: nat,              // address of a new state
    pick: string,         // first key in the set found for the hash
    validated: bool,
    now: int)

  /** The state to be shared, if the index leads to one. */
  function Shared(c: Cache, hash: string, o: Choice): Option<nat>
    requires o.pick in c.heap.keys ==> c.heap.keys[o.pick] in c.heap.states
  {
    if hash in c.byHash && o.pick in c.byHash[hash] then LookupUnlocked(c.heap, o.pick, o.validated, o.now)
    else None
  }

  function StoredId(o: Choice, shared: Option<nat>): nat {
    if shared.Some? then shared.value else o.id
  }

  /** The local ScopedCompilerInfoState takes the shared state, or a new one. */
  function Taken(h: Heap, d: Data, o: Choice, shared: Option<nat>): Heap
    requires shared.Some? ==> shared.value in h.states
  {
    if shared.Some? then Hold(h, shared.value) else Adopt(h, o.id, d)
  }

  /** Some key is bound to a disabled state of this compiler. */
  predicate SomeDisabled(h: Heap, compiler: Compiler) {
    exists k :: k in h.keys && IsDisabled(h, h.keys[k], compiler)
  }

  predicate IsDisabled(h: Heap, id: nat, compiler: Compiler) {
    id in h.states && h.states[id].disabled && h.states[id].data.compiler == compiler
  }

  function SetDisabled(h: Heap, id: nat): Heap
    requires id in h.states
  {
    h.(states := h.states[id := h.states[id].(disabled := true)])
  }

  /** A compiler that is disabled under another key is disabled here too. */
  function Inherited(h: Heap, id: nat): Heap {
    if id in h.states && SomeDisabled(h, h.states[id].data.compiler) then SetDisabled(h, id) else h
  }

  /** keys_by_hash_ after Store: the key joins the new hash, then leaves the old one. */
  function Reindexed(byHash: Index, hash: string, text: string, was: string): Index {
    var joined := byHash[hash := (if hash in byHash then byHash[hash] else {}) + {text}];
    if was == "" || was !in joined then joined
    else if joined[was] == {text} || joined[was] == {} then joined - {was}
    else joined[was := joined[was] - {text}]
  }

  /** Every key is bound to a state that exists. */
  predicate Sound(h: Heap) {
    forall k :: k in h.keys ==> h.keys[k] in h.states
  }

  /** The heap when Store reaches its DCHECKs on the reference count. */
  function Bound(h: Heap, d: Data, o: Choice, shared: Option<nat>): Heap
    requires Sound(h) && (shared.Some? ==> shared.value in h.states)
  {
    Bind(Taken(h, d, o, shared), o.text, StoredId(o, shared))
  }

  /** The heap after Store, once the caller's ScopedCompilerInfoState holds the result. */
  function Stored(h: Heap, d: Data, o: Choice, shared: Option<nat>): Heap
    requires Sound(h) && (shared.Some? ==> shared.value in h.states)
  {
    Inherited(Bound(h, d, o, shared), StoredId(o, shared))
  }

  function OldHash(h: Heap, hash: Data -> string, text: string): string
    requires Sound(h)
  {
    if text in h.keys then hash(h.states[h.keys[text]].data) else ""
  }

  /** Store, and the caller's reset to its result. The local ScopedCompilerInfoState lets go
      at the same moment, so the caller's hold takes the place of the local one. */
  function Store(c: Cache, hash: Data -> string, d: Data, o: Choice): Cache
    requires Sound(c.heap)
  {
    Cache(Stored(c.heap, d, o, Shared(c, hash(d), o)),
          Reindexed(c.byHash, hash(d), o.text, OldHash(c.heap, hash, o.text)))
  }

  // ---------------------------------------------------------------- reference counts in Store

  lemma ExactSound(h: Heap)
    requires Exact(h)
    ensures Sound(h)
  {
    forall k | k in h.keys
      ensures h.keys[k] in h.states
    {
      BoundExists(h, k);
    }
  }

  lemma TakenExact(h: Heap, d: Data, o: Choice, shared: Option<nat>)
    requires Exact(h) && o.id !in h.states && (shared.Some? ==> shared.value in h.states)
    ensures Exact(Taken(h, d, o, shared)) && StoredId(o, shared) in Taken(h, d, o, shared).states
  {
    if shared.Some? { HoldExact(h, shared.value); } else { AdoptExact(h, o.id, d); }
  }

  lemma BoundExact(h: Heap, d: Data, o: Choice, shared: Option<nat>)
    requires Exact(h) && Sound(h) && o.id !in h.states && (shared.Some? ==> shared.value in h.states)
    ensures Exact(Bound(h, d, o, shared)) && StoredId(o, shared) in Bound(h, d, o, shared).states
    ensures Bound(h, d, o, shared).keys == h.keys[o.text := StoredId(o, shared)]
  {
    TakenExact(h, d, o, shared);
    BindExact(Taken(h, d, o, shared), o.text, StoredId(o, shared));
  }

  lemma DisabledExact(h: Heap, id: nat)
    requires Exact(h) && id in h.states
    ensures Exact(SetDisabled(h, id))
  {
    CountExact(h, SetDisabled(h, id));
  }

  /** Store leaves every count exact and the result bound to its key and held by the caller. */
  lemma StoreExact(h: Heap, d: Data, o: Choice, shared: Option<nat>)
    requires Exact(h) && Sound(h) && o.id !in h.states && (shared.Some? ==> shared.value in h.states)
    ensures var g := Stored(h, d, o, shared); var s := StoredId(o, shared);
            && Exact(g) && s in g.states && g.keys == h.keys[o.text := s] && g.scoped == h.scoped + multiset{s}
  {
    BoundExact(h, d, o, shared);
    DisabledExact(Bound(h, d, o, shared), StoredId(o, shared));
  }

  /** The DCHECKs at the end of Store. For a new state the count is 2. For a shared state it
      is above 2 unless its only key is the very key being stored and no one else holds it. */
  lemma StoreChecks(h: Heap, d: Data, o: Choice, shared: Option<nat>)
    requires Exact(h) && Sound(h) && o.id !in h.states
    requires shared.Some? ==> o.pick in h.keys && h.keys[o.pick] == shared.value && shared.value in h.states
    ensures shared.None? ==> Count(Bound(h, d, o, shared).states, o.id) == 2
    ensures shared.Some? ==>
              (Count(Bound(h, d, o, shared).states, shared.value) > 2 <==>
               !(KeysOf(h.keys, shared.value) == {o.text} && shared.value !in h.scoped))
  {
    BoundExact(h, d, o, shared);
    var s := StoredId(o, shared);
    var g := Bound(h, d, o, shared);
    assert Count(g.states, s) == Holders(g, s) && Count(h.states, s) == Holders(h, s);
    BindKeys(h.keys, o.text, s, s);
    var ks := KeysOf(h.keys, s);
    if shared.Some? {
      assert o.pick in ks;
      if |ks| == 1 && o.text in ks { OnlyOne(ks, o.text); }
    } else {
      assert |ks| == 0;
    }
  }

  lemma OnlyOne(ks: set<string>, k: string)
    requires k in ks && |ks| == 1
    ensures ks == {k}
  {
    assert |ks - {k}| == 0;
  }

  // ---------------------------------------------------------------- sharing by content

  /** Some key of the same content leads to a state that is still good: the compiler has not
      changed since, and an error is younger than ten minutes. */
  predicate Duplicate(c: Cache, hash: string, o: Choice) {
    && hash in c.byHash && o.pick in c.byHash[hash]
    && o.pick in c.heap.keys && c.heap.keys[o.pick] in c.heap.states && o.validated
    && var d := c.heap.states[c.heap.keys[o.pick]].data; d.error == "" || o.now < d.failedAt + 600
  }

  /** What Store leaves: the key is bound to the state of the duplicate, and no state is
      added; or, where there is none, to a new state with the data, and to no older one. */
  predicate BoundTo(h: Heap, g: Heap, d: Data, o: Choice, dup: bool) {
    && o.text in g.keys && g.keys[o.text] in g.states
    && if dup then
         && o.pick in h.keys && g.keys[o.text] == h.keys[o.pick] && g.keys[o.text] in h.states
         && g.states.Keys <= h.states.Keys && g.states[g.keys[o.text]].data == h.states[g.keys[o.text]].data
       else
         && g.keys[o.text] == o.id && g.states.Keys <= h.states.Keys + {o.id} && g.states[o.id].refcnt == 2
         && g.states[o.id].data == d.(error := if d.found || d.error != "" then d.error else "compiler not found")
  }

  /** Other keys keep their states, and other states their data and whether they are disabled. */
  predicate Elsewhere(h: Heap, g: Heap, text: string) {
    && text in g.keys && g.keys == h.keys[text := g.keys[text]]
    && (forall x :: x in g.states && x != g.keys[text] ==>
          x in h.states && g.states[x].data == h.states[x].data && g.states[x].disabled == h.states[x].disabled)
  }

  /** Equal contents share one state, found by their hash, whatever their keys. */
  lemma StoreShares(c: Cache, hash: Data -> string, d: Data, o: Choice)
    requires Exact(c.heap) && Sound(c.heap) && o.id !in c.heap.states
    ensures var g := Store(c, hash, d, o).heap;
            BoundTo(c.heap, g, d, o, Duplicate(c, hash(d), o)) && Elsewhere(c.heap, g, o.text)
  {
    var shared := Shared(c, hash(d), o);
    assert shared.Some? <==> Duplicate(c, hash(d), o);
    StoreExact(c.heap, d, o, shared);
    StoreChecks(c.heap, d, o, shared);
    hide Exact, Shared, Duplicate;
    StoredElsewhere(c.heap, d, o, shared);
  }

  lemma StoredElsewhere(h: Heap, d: Data, o: Choice, shared: Option<nat>)
    requires Sound(h) && o.id !in h.states && (shared.Some? ==> shared.value in h.states)
    requires StoredId(o, shared) in Bound(h, d, o, shared).states
    ensures var g := Stored(h, d, o, shared); var s := StoredId(o, shared);
            && g.states.Keys <= h.states.Keys + {s} && Elsewhere(h, g, o.text)
            && g.states[s].data == (if shared.Some? then h.states[s].data else Repaired(d))
            && g.states[s].refcnt == Bound(h, d, o, shared).states[s].refcnt
  {
    hide Bound, Repaired, SomeDisabled, Sound;
    BoundElsewhere(h, d, o, shared);
  }

  lemma TakenIs(h: Heap, d: Data, o: Choice, shared: Option<nat>)
    requires o.id !in h.states && (shared.Some? ==> shared.value in h.states)
    ensures var g := Taken(h, d, o, shared); var s := StoredId(o, shared);
            && g.keys == h.keys && g.states.Keys == h.states.Keys + {s}
            && g.states[s].data == (if shared.Some? then h.states[s].data else Repaired(d))
            && (forall x :: x in g.states && x != s ==> x in h.states && g.states[x] == h.states[x])
  {
  }

  lemma BindIs(h: Heap, k: string, id: nat)
    requires id in h.states && (k in h.keys ==> h.keys[k] in h.states)
    ensures var g := Bind(h, k, id);
            && g.keys == h.keys[k := id] && g.states.Keys <= h.states.Keys
            && (forall x :: x in g.states ==>
                  g.states[x].data == h.states[x].data && g.states[x].disabled == h.states[x].disabled)
  {
  }

  lemma BoundElsewhere(h: Heap, d: Data, o: Choice, shared: Option<nat>)
    requires Sound(h) && o.id !in h.states && (shared.Some? ==> shared.value in h.states)
    requires StoredId(o, shared) in Bound(h, d, o, shared).states
    ensures var b := Bound(h, d, o, shared); var s := StoredId(o, shared);
            && b.states.Keys <= h.states.Keys + {s} && Elsewhere(h, b, o.text) && b.keys[o.text] == s
            && b.states[s].data == (if shared.Some? then h.states[s].data else Repaired(d))
  {
    hide Taken, Repaired, Bind;
    TakenIs(h, d, o, shared);
    BindIs(Taken(h, d, o, shared), o.text, StoredId(o, shared));
  }

  // ---------------------------------------------------------------- Disable, eviction

  /** Disable: the given state, and every cached state of the same compiler. */
  function Disable(h: Heap, id: nat): Heap
    requires id in h.states
  {
    var compiler := h.states[id].data.compiler;
    h.(states := map x | x in h.states ::
         if x == id || (x in h.keys.Values && h.states[x].data.compiler == compiler)
         then h.states[x].(disabled := true) else h.states[x])
  }

  lemma DisableExact(h: Heap, id: nat)
    requires Exact(h) && id in h.states
    ensures Exact(Disable(h, id))
  {
    CountExact(h, Disable(h, id));
  }

  // ---------------------------------------------------------------- disabled compilers

  /** Cached states of one compiler are all disabled or all enabled. */
  predicate Closed(h: Heap) {
    forall a, b :: a in h.keys && b in h.keys ==> Agree(h, h.keys[a], h.keys[b])
  }

  predicate Agree(h: Heap, x: nat, y: nat) {
    x in h.states && y in h.states && h.states[x].data.compiler == h.states[y].data.compiler ==>
      h.states[x].disabled == h.states[y].disabled
  }

  /** g differs from h in counts, in which states exist and in data, but in no state's
      compiler or disabled flag. */
  predicate Kept(h: Heap, g: Heap) {
    forall id :: id in g.states && id in h.states ==>
      g.states[id].data.compiler == h.states[id].data.compiler && g.states[id].disabled == h.states[id].disabled
  }

  lemma KeptClosed(h: Heap, g: Heap)
    requires Closed(h) && Sound(h) && Kept(h, g)
    requires forall k :: k in g.keys ==> k in h.keys && g.keys[k] == h.keys[k]
    ensures Closed(g)
  {
    forall a, b | a in g.keys && b in g.keys
      ensures Agree(g, g.keys[a], g.keys[b])
    {
      assert Agree(h, h.keys[a], h.keys[b]);
    }
  }

  lemma DisableClosed(h: Heap, id: nat)
    requires Closed(h) && Sound(h) && id in h.states
    ensures Closed(Disable(h, id))
  {
    var g := Disable(h, id);
    forall a, b | a in g.keys && b in g.keys
      ensures Agree(g, g.keys[a], g.keys[b])
    {
      assert Agree(h, h.keys[a], h.keys[b]);
      assert h.keys[a] in h.keys.Values && h.keys[b] in h.keys.Values;
    }
  }

  /** What Store does to compilers and flags, before the disabled check. */
  lemma BoundKept(h: Heap, d: Data, o: Choice, shared: Option<nat>)
    requires Sound(h) && o.id !in h.states && (shared.Some? ==> shared.value in h.states)
    requires StoredId(o, shared) in Bound(h, d, o, shared).states
    ensures Kept(h, Bound(h, d, o, shared))
    ensures shared.None? ==>
              var s := Bound(h, d, o, shared).states[o.id]; !s.disabled && s.data.compiler == d.compiler
  {
    var g := Taken(h, d, o, shared);
    assert h.states.Keys <= g.states.Keys && Kept(h, g);
    BindKept(g, o.text, StoredId(o, shared));
    hide Bind, Taken;
  }

  lemma BindKept(h: Heap, k: string, id: nat)
    requires id in h.states && (k in h.keys ==> h.keys[k] in h.states)
    ensures Kept(h, Bind(h, k, id)) && Bind(h, k, id).states.Keys <= h.states.Keys
  {
  }

  lemma StoreClosed(h: Heap, d: Data, o: Choice, shared: Option<nat>)
    requires Exact(h) && Sound(h) && Closed(h) && o.id !in h.states
    requires shared.Some? ==> o.pick in h.keys && h.keys[o.pick] == shared.value && shared.value in h.states
    ensures Closed(Stored(h, d, o, shared))
  {
    BoundExact(h, d, o, shared);
    BoundKept(h, d, o, shared);
    var s := StoredId(o, shared);
    var g := Bound(h, d, o, shared);
    hide Bound, Exact;
    ExactSound(g);
    OthersAgree(h, g, o, s, shared);
    InheritedClosed(g, s);
  }

  /** All bound states but s agree among each other, and with s if it was shared. */
  predicate AgreeBut(h: Heap, s: nat) {
    forall a, b :: a in h.keys && b in h.keys && h.keys[a] != s && h.keys[b] != s ==> Agree(h, h.keys[a], h.keys[b])
  }

  lemma OthersAgree(h: Heap, g: Heap, o: Choice, s: nat, shared: Option<nat>)
    requires Sound(h) && Closed(h) && Kept(h, g) && s in g.states
    requires g.keys == h.keys[o.text := s] && (shared.None? ==> s !in h.states && !g.states[s].disabled)
    requires shared.Some? ==> o.pick in h.keys && h.keys[o.pick] == s
    ensures AgreeBut(g, s)
    ensures g.states[s].disabled ==> forall a :: a in g.keys ==> Agree(g, g.keys[a], s)
  {
    forall a, b | a in g.keys && b in g.keys && g.keys[a] != s && g.keys[b] != s
      ensures Agree(g, g.keys[a], g.keys[b])
    {
      assert Agree(h, h.keys[a], h.keys[b]);
    }
    if shared.Some? {
      forall a | a in g.keys
        ensures Agree(g, g.keys[a], s)
      {
        if a != o.text { assert Agree(h, h.keys[a], h.keys[o.pick]); }
      }
    }
  }

  /** A bound state of the compiler of s, other than s, is disabled exactly when some is. */
  lemma OneForAll(g: Heap, s: nat, b: string)
    requires Sound(g) && s in g.states && AgreeBut(g, s) && b in g.keys && g.keys[b] != s
    requires g.states[s].disabled ==> forall a :: a in g.keys ==> Agree(g, g.keys[a], s)
    requires g.states[g.keys[b]].data.compiler == g.states[s].data.compiler
    ensures g.states[g.keys[b]].disabled <==> SomeDisabled(g, g.states[s].data.compiler)
  {
    var compiler := g.states[s].data.compiler;
    if g.states[g.keys[b]].disabled {
      assert IsDisabled(g, g.keys[b], compiler);
    }
    if SomeDisabled(g, compiler) {
      var k :| k in g.keys && IsDisabled(g, g.keys[k], compiler);
      if g.keys[k] == s {
        assert Agree(g, g.keys[b], s);
      } else {
        assert Agree(g, g.keys[k], g.keys[b]);
      }
    }
  }

  lemma InheritedClosed(g: Heap, s: nat)
    requires Sound(g) && s in g.states && AgreeBut(g, s)
    requires g.states[s].disabled ==> forall a :: a in g.keys ==> Agree(g, g.keys[a], s)
    ensures Closed(Inherited(g, s))
  {
    var f := Inherited(g, s);
    var compiler := g.states[s].data.compiler;
    forall a, b | a in f.keys && b in f.keys
      ensures Agree(f, f.keys[a], f.keys[b])
    {
      var x, y := g.keys[a], g.keys[b];
      if x != s && y != s {
        assert Agree(g, x, y);
      } else if x == s && y != s && g.states[y].data.compiler == compiler {
        OneForAll(g, s, b);
        if g.states[s].disabled { assert IsDisabled(g, x, compiler); }
      } else if x != s && y == s && g.states[x].data.compiler == compiler {
        OneForAll(g, s, a);
        if g.states[s].disabled { assert IsDisabled(g, y, compiler); }
      }
    }
  }

  /** A new state comes out of Store disabled exactly when its compiler is disabled under
      some other key: replacing the only disabled entry of a compiler enables it again. */
  lemma StoreDisables(h: Heap, d: Data, o: Choice)
    requires Exact(h) && Sound(h) && o.id !in h.states
    ensures var g := Stored(h, d, o, None);
            && o.id in g.states
            && (g.states[o.id].disabled <==>
                exists k :: k in h.keys && k != o.text && IsDisabled(h, h.keys[k], d.compiler))
  {
    StoreExact(h, d, o, None);
    BoundExact(h, d, o, None);
    BoundKept(h, d, o, None);
    var g := Bound(h, d, o, None);
    hide Bound, Exact;
    ExactSound(g);
    if SomeDisabled(g, d.compiler) {
      var k :| k in g.keys && IsDisabled(g, g.keys[k], d.compiler);
      assert k != o.text && IsDisabled(h, h.keys[k], d.compiler);
    }
    if k :| k in h.keys && k != o.text && IsDisabled(h, h.keys[k], d.compiler) {
      assert IsDisabled(g, g.keys[k], d.compiler);
    }
  }

  // ---------------------------------------------------------------- whole runs

  datatype Op =
    | StoreOp(d: Data, o: Choice)
    | LookupOp(k: string, validated: bool, now: int)   // and the caller's reset to what was found
    | ReleaseOp(id: nat)                               // a ScopedCompilerInfoState ends
    | AmendOp(id: nat, lastUsed: int, rest: string)
    | DisableOp(id: nat)
    | EvictOp(k: string)
    | ClearIndexOp                                     // the rest of Clear is evictions

  /** New states get an unused address; only states that are held are used; and data without a
      language extension never get into a state (MakeCompilerInfo ends the process). */
  predicate Allowed(c: Cache, op: Op) {
    match op
    case StoreOp(d, o) => o.id !in c.heap.states && d.extension
    case LookupOp(_, _, _) => true
    case ReleaseOp(id) => id in c.heap.scoped
    case AmendOp(id, _, _) => id in c.heap.states
    case DisableOp(id) => id in c.heap.states
    case EvictOp(k) => true
    case ClearIndexOp => true
  }

  function Apply(c: Cache, hash: Data -> string, op: Op): Cache
    requires Sound(c.heap) && Allowed(c, op) && (op.ReleaseOp? ==> op.id in c.heap.states)
  {
    match op
    case StoreOp(d, o) => Store(c, hash, d, o)
    case LookupOp(k, validated, now) =>
      var s := LookupUnlocked(c.heap, k, validated, now);
      if s.Some? then c.(heap := Hold(c.heap, s.value)) else c
    case ReleaseOp(id) => c.(heap := Release(c.heap, id))
    case AmendOp(id, lastUsed, rest) => c.(heap := Amend(c.heap, id, lastUsed, rest))
    case DisableOp(id) => c.(heap := Disable(c.heap, id))
    case EvictOp(k) => if k in c.heap.keys then c.(heap := Unbind(c.heap, k)) else c
    case ClearIndexOp => c.(byHash := map[])
  }

  predicate Extended(h: Heap) {
    forall id :: id in h.states ==> h.states[id].data.extension
  }

  ghost predicate InOrder(h: Heap) {
    Exact(h) && Sound(h) && Closed(h) && Extended(h)
  }

  ghost predicate Inv(c: Cache) {
    InOrder(c.heap)
  }

  lemma StoreKeeps(c: Cache, hash: Data -> string, d: Data, o: Choice)
    requires Inv(c) && o.id !in c.heap.states && d.extension
    ensures Inv(Store(c, hash, d, o))
  {
    var shared := Shared(c, hash(d), o);
    StoreExact(c.heap, d, o, shared);
    ExactSound(Stored(c.heap, d, o, shared));
    StoreExtended(c.heap, d, o, shared);
    hide Exact, Closed, Stored, Extended;
    StoreClosed(c.heap, d, o, shared);
  }

  lemma StoreExtended(h: Heap, d: Data, o: Choice, shared: Option<nat>)
    requires Sound(h) && (shared.Some? ==> shared.value in h.states) && Extended(h) && d.extension
    ensures Extended(Stored(h, d, o, shared))
  {
    var g := Taken(h, d, o, shared);
    assert Extended(g);
    hide Taken;
    var f := Bind(g, o.text, StoredId(o, shared));
    assert Extended(f);
  }

  lemma HoldKeeps(h: Heap, id: nat)
    requires InOrder(h) && id in h.states
    ensures InOrder(Hold(h, id))
  {
    HoldExact(h, id);
    hide Exact, Closed;
    ExactSound(Hold(h, id));
    KeptClosed(h, Hold(h, id));
  }

  lemma ReleaseKeeps(h: Heap, id: nat)
    requires InOrder(h) && id in h.scoped
    ensures id in h.states
    ensures InOrder(Release(h, id))
  {
    ReleaseExact(h, id);
    hide Exact, Closed;
    ExactSound(Release(h, id));
    KeptClosed(h, Release(h, id));
  }

  lemma EvictKeeps(h: Heap, k: string)
    requires InOrder(h) && k in h.keys
    ensures InOrder(Unbind(h, k))
  {
    UnbindExact(h, k);
    hide Exact, Closed;
    ExactSound(Unbind(h, k));
    KeptClosed(h, Unbind(h, k));
  }

  lemma AmendKeeps(h: Heap, id: nat, lastUsed: int, rest: string)
    requires InOrder(h) && id in h.states
    ensures InOrder(Amend(h, id, lastUsed, rest))
  {
    var g := Amend(h, id, lastUsed, rest);
    CountExact(h, g);
    hide Exact, Closed;
    KeptClosed(h, g);
  }

  lemma DisableKeeps(h: Heap, id: nat)
    requires InOrder(h) && id in h.states
    ensures InOrder(Disable(h, id))
  {
    DisableExact(h, id);
    DisableClosed(h, id);
  }

  lemma ApplyKeeps(c: Cache, hash: Data -> string, op: Op)
    requires Inv(c) && Allowed(c, op)
    ensures op.ReleaseOp? ==> op.id in c.heap.states
    ensures Inv(Apply(c, hash, op))
  {
    hide InOrder;
    InOrderSound(c.heap);
    match op
    case StoreOp(d, o) => hide Store; StoreKeeps(c, hash, d, o);
    case LookupOp(k, validated, now) =>
      var s := LookupUnlocked(c.heap, k, validated, now);
      if s.Some? { HoldKeeps(c.heap, s.value); }
    case ReleaseOp(id) => ReleaseKeeps(c.heap, id);
    case AmendOp(id, lastUsed, rest) => AmendKeeps(c.heap, id, lastUsed, rest);
    case DisableOp(id) => DisableKeeps(c.heap, id);
    case EvictOp(k) => if k in c.heap.keys { EvictKeeps(c.heap, k); }
    case ClearIndexOp =>
  }

  lemma InOrderSound(h: Heap)
    requires InOrder(h)
    ensures Sound(h)
  {
  }

  predicate Defined(c: Cache, op: Op) {
    Sound(c.heap) && Allowed(c, op) && (op.ReleaseOp? ==> op.id in c.heap.states)
  }

  ghost predicate Next(hash: Data -> string, c: Cache, c': Cache) {
    exists op :: Defined(c, op) && c' == Apply(c, hash, op)
  }

  ghost predicate IsRun(hash: Data -> string, r: seq<Cache>) {
    |r| > 0 && forall i :: 0 <= i < |r| - 1 ==> Next(hash, r[i], r[i + 1])
  }

  ghost predicate Reachable(hash: Data -> string, first: Cache, c: Cache) {
    exists r :: IsRun(hash, r) && r[0] == first && r[|r| - 1] == c
  }

  lemma NextKeeps(hash: Data -> string, c: Cache, c': Cache)
    requires Inv(c) && Next(hash, c, c')
    ensures Inv(c')
  {
    var op :| Defined(c, op) && c' == Apply(c, hash, op);
    hide Inv, Apply;
    ApplyKeeps(c, hash, op);
  }

  lemma {:induction false} RunKeeps(hash: Data -> string, r: seq<Cache>)
    requires IsRun(hash, r) && Inv(r[0])
    ensures Inv(r[|r| - 1])
  {
    if |r| > 1 {
      hide Inv, Next;
      RunKeeps(hash, r[..|r| - 1]);
      NextKeeps(hash, r[|r| - 2], r[|r| - 1]);
    }
  }

  lemma EmptyInv()
    ensures Inv(NoCache)
  {
    forall x: nat
      ensures Count(NoStates.states, x) == Holders(NoStates, x)
    {
      assert KeysOf(NoStates.keys, x) == {};
    }
  }

  /** From an empty cache, or from any other that is in order: every state's count is the
      number of keys bound to it plus the scoped holders, it exists exactly while there are
      any, and no operation ever meets a state that was freed. */
  lemma CountsStayExact(hash: Data -> string, first: Cache, c: Cache, op: Op)
    requires Inv(first) && Reachable(hash, first, c)
    ensures Exact(c.heap)
    ensures forall k :: k in c.heap.keys ==> c.heap.keys[k] in c.heap.states
    ensures forall id :: id in c.heap.scoped ==> id in c.heap.states
    ensures Allowed(c, op) ==> Defined(c, op)
  {
    var r :| IsRun(hash, r) && r[0] == first && r[|r| - 1] == c;
    RunKeeps(hash, r);
    forall id | id in c.heap.scoped
      ensures id in c.heap.states
    {
      ScopedExists(c.heap, id);
    }
  }

  /** Two cached states of one compiler are both disabled or both enabled, always. */
  lemma DisabledTogether(hash: Data -> string, first: Cache, c: Cache)
    requires Inv(first) && Reachable(hash, first, c)
    ensures Sound(c.heap) && Closed(c.heap)
  {
    var r :| IsRun(hash, r) && r[0] == first && r[|r| - 1] == c;
    RunKeeps(hash, r);
  }

  /** A state that was disabled stays disabled as long as it exists. */
  lemma NeverEnabled(hash: Data -> string, c: Cache, op: Op, id: nat)
    requires Inv(c) && Defined(c, op)
    requires id in c.heap.states && c.heap.states[id].disabled && id in Apply(c, hash, op).heap.states
    ensures Apply(c, hash, op).heap.states[id].disabled
  {
    hide Exact, Closed;
    match op
    case StoreOp(d, o) => StoreNeverEnables(c.heap, d, o, Shared(c, hash(d), o), id);
    case LookupOp(_, _, _) =>
    case ReleaseOp(_) =>
    case AmendOp(_, _, _) =>
    case DisableOp(_) =>
    case EvictOp(_) =>
    case ClearIndexOp =>
  }

  lemma StoreNeverEnables(h: Heap, d: Data, o: Choice, shared: Option<nat>, id: nat)
    requires Exact(h) && Sound(h) && o.id !in h.states && (shared.Some? ==> shared.value in h.states)
    requires id in h.states && h.states[id].disabled && id in Stored(h, d, o, shared).states
    ensures Stored(h, d, o, shared).states[id].disabled
  {
    BoundExact(h, d, o, shared);
    BoundKept(h, d, o, shared);
    hide Bound, Exact;
  }

  lemma Extends(hash: Data -> string, first: Cache, c: Cache, op: Op)
    requires Reachable(hash, first, c) && Defined(c, op)
    ensures Reachable(hash, first, Apply(c, hash, op))
  {
    var r :| IsRun(hash, r) && r[0] == first && r[|r| - 1] == c;
    var next := Apply(c, hash, op);
    hide Apply;
    var s := r + [next];
    assert Next(hash, c, next);
    hide Next;
    forall i | 0 <= i < |s| - 1
      ensures Next(hash, s[i], s[i + 1])
    {
      if i < |r| - 1 {
        assert Next(hash, r[i], r[i + 1]);
      }
    }
    assert IsRun(hash, s) && s[0] == first && s[|s| - 1] == next;
  }

  /** The cache that a first Store under `text` leaves once its caller lets go. */
  function OneState(hash: Data -> string, d: Data, text: string): Cache {
    Cache(Heap(map[0 := State(d, 1, false)], map[text := 0], multiset{}), map[hash(d) := {text}])
  }

  lemma OneStateReachable(hash: Data -> string, d: Data, o: Choice)
    requires d.found && d.error == "" && d.extension && o.id == 0
    ensures Reachable(hash, NoCache, OneState(hash, d, o.text))
  {
    var c := Apply(NoCache, hash, StoreOp(d, o));
    assert c.heap == Heap(map[0 := State(d, 2, false)], map[o.text := 0], multiset{0});
    var none: set<string> := {};
    assert none + {o.text} == {o.text} && c.byHash == map[hash(d) := {o.text}];
    assert Apply(c, hash, ReleaseOp(0)) == OneState(hash, d, o.text);
    assert Defined(NoCache, StoreOp(d, o)) && Defined(c, ReleaseOp(0));
    hide Apply, Defined;
    var r := [NoCache];
    assert IsRun(hash, r) && r[0] == NoCache && r[|r| - 1] == NoCache;
    Extends(hash, NoCache, NoCache, StoreOp(d, o));
    Extends(hash, NoCache, c, ReleaseOp(0));
  }

  /** Whatever the hash, a run leads to where storing the same content again under the same
      key shares its state and fails the DCHECK: store, let go, store. */
  lemma SecondStoreFailsCheck(hash: Data -> string, d: Data, text: string)
    requires d.found && d.error == "" && d.extension
    ensures exists c, o, id ::
              && Reachable(hash, NoCache, c) && Defined(c, StoreOp(d, o)) && o.text == text
              && Shared(c, hash(d), o) == Some(id) && Count(Bound(c.heap, d, o, Some(id)).states, id) == 2
  {
    hide Reachable;
    var o := Choice(text, 1, text, true, 0);
    OneStateReachable(hash, d, o.(id := 0));
    var c := OneState(hash, d, text);
    assert Defined(c, StoreOp(d, o)) && Shared(c, hash(d), o) == Some(0);
    assert Count(Bound(c.heap, d, o, Some(0)).states, 0) == 2;
  }
}
