/**
 Single flight of GetCompilerInfo (client/compile_service.cc): any number of callers ask
 for compiler info, by the cwd-relative text of their key; for each key one of them looks
 again and builds the info, the others wait on compiler_info_waiters_ for its callback.

 Lookups, critical sections and callbacks of different callers interleave freely. A
 cached entry may go stale at any time, and storing info for one key may make it known
 under others (an absolute compiler path is cached without its directory).
 */
module SingleFlight {
  import opened Basics

  type Key = string

  /** How far a caller has come. */
  datatype Stage =
    | Fresh       // GetCompilerInfo called
    | Missed      // first lookup failed
    | Leading     // owns the waiter list, GetCompilerInfoInternal posted
    | Building    // second lookup failed too
    | Ready       // has its state, waiter list not yet taken
    | Waiting     // on a waiter list
    | InHand      // off the list, callback about to be scheduled
    | Answered    // callback scheduled

  type Stages = map<nat, Stage>

  datatype Flight = Flight(
    key: map<nat, Key>,              // what each caller asks for
    stage: Stages,
    waiters: map<Key, seq<nat>>,     // compiler_info_waiters_
    known: map<Key, nat>,            // the state that a lookup of the key finds
    got: map<nat, nat>,              // param->state of each caller, once it has one
    leader: map<Key, nat>,           // observer: who owns each list
    calls: map<nat, nat>,            // observer: callbacks scheduled per caller
    builds: map<Key, nat>,           // observer: BuildCompilerInfoData per key
    seen: set<(Key, nat)>,           // observer: states ever known under a key
    stale: bool,                     // observer: some entry was lost
    ok: bool)                        // no CHECK has failed

  function NewFlight(key: map<nat, Key>, known: map<Key, nat>): Flight {
    Flight(key, map id | id in key :: Fresh, map[], known, map[], map[], map id | id in key :: 0, map[],
           set k | k in known :: (k, known[k]), false, true)
  }

  function At(f: Flight, id: nat, s: Stage): Flight {
    f.(stage := f.stage[id := s])
  }

  function Called(f: Flight, id: nat): (g: Flight)
    ensures g.key == f.key && g.stale == f.stale
    ensures g.stage == f.stage[id := Answered]
  {
    At(f, id, Answered).(calls := OneMore(f.calls, id))
  }

  function OneMore(calls: map<nat, nat>, id: nat): map<nat, nat> {
    calls[id := (if id in calls then calls[id] else 0) + 1]
  }

  function Times(builds: map<Key, nat>, k: Key): nat {
    if k in builds then builds[k] else 0
  }

  // ---------------------------------------------------------------- steps

  /** The lookup at the head of GetCompilerInfo. */
  function Ask(f: Flight, id: nat, k: Key): (g: Flight)
    ensures g.key == f.key && g.stale == f.stale
    ensures g.stage == f.stage[id := if k in f.known then Answered else Missed]
  {
    if k in f.known then Called(f, id).(got := f.got[id := f.known[k]]) else At(f, id, Missed)
  }

  /** The critical section of GetCompilerInfo. */
  function Enroll(f: Flight, id: nat, k: Key): (g: Flight)
    ensures g.key == f.key && g.stale == f.stale
    ensures g.stage == f.stage[id := if k in f.waiters then Waiting else Leading]
  {
    if k in f.waiters then
      At(f, id, Waiting).(waiters := f.waiters[k := f.waiters[k] + [id]])
    else
      At(f, id, Leading).(waiters := f.waiters[k := []], leader := f.leader[k := id])
  }

  /** The lookup at the head of GetCompilerInfoInternal. */
  function LookAgain(f: Flight, id: nat, k: Key): (g: Flight)
    ensures g.key == f.key && g.stale == f.stale
    ensures g.stage == f.stage[id := if k in f.known then Ready else Building]
  {
    if k in f.known then At(f, id, Ready).(got := f.got[id := f.known[k]]) else At(f, id, Building)
  }

  /** BuildCompilerInfoData and Store, which may be found under further keys. */
  function Build(f: Flight, id: nat, k: Key, also: set<Key>, s: nat): (g: Flight)
    ensures g.key == f.key && g.stale == f.stale
    ensures g.stage == f.stage[id := Ready]
  {
    At(f, id, Ready).(known := Learned(f.known, {k} + also, s), got := f.got[id := s],
                      builds := f.builds[k := Times(f.builds, k) + 1],
                      seen := Noted(f.seen, {k} + also, s))
  }

  function Learned(known: map<Key, nat>, keys: set<Key>, s: nat): map<Key, nat> {
    known + map k | k in keys :: s
  }

  function Noted(seen: set<(Key, nat)>, keys: set<Key>, s: nat): set<(Key, nat)> {
    seen + set k | k in keys :: (k, s)
  }

  /** The critical section of GetCompilerInfoInternal and the leader's own callback. */
  function Land(f: Flight, id: nat, k: Key): (g: Flight)
    ensures g.key == f.key && g.stale == f.stale
  {
    if k !in f.waiters then
      f.(ok := false)
    else
      f.(waiters := f.waiters - {k}, leader := f.leader - {k},
         stage := Landed(f.stage, f.waiters[k], id), calls := OneMore(f.calls, id),
         got := Handed(f.got, f.waiters[k], id))
  }

  /** The waiters' params take the leader's state. */
  function Handed(got: map<nat, nat>, list: seq<nat>, id: nat): map<nat, nat> {
    if id in got then got + map x | x in list :: got[id] else got
  }

  function Landed(stage: Stages, list: seq<nat>, id: nat): Stages {
    (map x | x in stage :: if x in list then InHand else stage[x])[id := Answered]
  }

  datatype Step = AskStep | EnrollStep | LookStep | BuildStep(also: set<Key>, state: nat) | LandStep | CallStep

  predicate CanStep(f: Flight, id: nat, s: Step) {
    && f.ok && id in f.key && id in f.stage
    && match s
       case AskStep => f.stage[id] == Fresh
       case EnrollStep => f.stage[id] == Missed
       case LookStep => f.stage[id] == Leading
       case BuildStep(_, _) => f.stage[id] == Building
       case LandStep => f.stage[id] == Ready
       case CallStep => f.stage[id] == InHand
  }

  function Apply(f: Flight, id: nat, s: Step): Flight
    requires id in f.key
  {
    var k := f.key[id];
    match s
    case AskStep => Ask(f, id, k)
    case EnrollStep => Enroll(f, id, k)
    case LookStep => LookAgain(f, id, k)
    case BuildStep(also, s) => Build(f, id, k, also, s)
    case LandStep => Land(f, id, k)
    case CallStep => Called(f, id)
  }

  /** An entry goes stale, or is evicted. */
  function Forget(f: Flight, k: Key): Flight {
    f.(known := f.known - {k}, stale := true)
  }

  ghost predicate Moves(f: Flight, g: Flight) {
    exists id, s :: CanStep(f, id, s) && g == Apply(f, id, s)
  }

  ghost predicate Next(f: Flight, g: Flight) {
    Moves(f, g) || exists k :: g == Forget(f, k)
  }

  // ---------------------------------------------------------------- the waiter map as an object

  class CompilerInfoWaiters {
    var waiters: map<Key, seq<nat>>

    constructor ()
      ensures waiters == map[]
    {
      waiters := map[];
    }

    /** Whether the caller is the first for this key. */
    method Enlist(id: nat, k: Key) returns (first: bool)
      modifies this
      ensures first <==> k !in old(waiters)
      ensures forall f: Flight :: f.waiters == old(waiters) ==> waiters == Enroll(f, id, k).waiters
    {
      first := k !in waiters;
      if first {
        waiters := waiters[k := []];
      } else {
        waiters := waiters[k := waiters[k] + [id]];
      }
    }

    /** The waiters of a key whose leader has its state. */
    method Take(k: Key) returns (list: seq<nat>)
      requires k in waiters
      modifies this
      ensures list == old(waiters)[k]
      ensures forall f: Flight, id :: f.waiters == old(waiters) ==> waiters == Land(f, id, k).waiters
    {
      list := waiters[k];
      waiters := waiters - {k};
    }
  }

  // ---------------------------------------------------------------- what every step keeps

  predicate Leads(s: Stage) {
    s == Leading || s == Building || s == Ready
  }

  /** A list exists exactly while its one leader is in flight. */
  ghost predicate Led(key: map<nat, Key>, stage: Stages, leader: map<Key, nat>) {
    && (forall k :: k in leader ==>
          && leader[k] in key && key[leader[k]] == k
          && leader[k] in stage && Leads(stage[leader[k]]))
    && (forall id :: id in key && id in stage && Leads(stage[id]) ==>
          key[id] in leader && leader[key[id]] == id)
  }

  /** A waiting caller is on the list of its key, once. */
  ghost predicate Listed(key: map<nat, Key>, stage: Stages, waiters: map<Key, seq<nat>>) {
    && (forall k, id :: k in waiters && id in waiters[k] ==>
          id in key && key[id] == k && id in stage && stage[id] == Waiting)
    && (forall id :: id in key && id in stage && stage[id] == Waiting ==>
          key[id] in waiters && id in waiters[key[id]])
    && (forall k :: k in waiters ==> Unique(waiters[k]))
  }

  ghost predicate Counted(stage: Stages, calls: map<nat, nat>) {
    && stage.Keys == calls.Keys
    && forall id :: id in stage ==> calls[id] == if stage[id] == Answered then 1 else 0
  }

  /** While nothing goes stale, what was built stays known and is not built again. */
  ghost predicate BuiltOnce(key: map<nat, Key>, stage: Stages, known: set<Key>, builds: map<Key, nat>) {
    && (forall k :: Times(builds, k) <= 1)
    && (forall k :: Times(builds, k) > 0 ==> k in known)
    && (forall id :: id in key && id in stage && stage[id] == Building ==> Times(builds, key[id]) == 0)
  }

  ghost predicate Witnessed(known: map<Key, nat>, seen: set<(Key, nat)>) {
    forall k :: k in known ==> (k, known[k]) in seen
  }

  predicate Served(s: Stage) {
    s == Ready || s == InHand || s == Answered
  }

  /** A caller that is served has a state, and one that was known under its own key. */
  ghost predicate Given(key: map<nat, Key>, stage: Stages, got: map<nat, nat>, seen: set<(Key, nat)>) {
    forall id :: id in key && id in stage && Served(stage[id]) ==> id in got && (key[id], got[id]) in seen
  }

  ghost predicate Inv(f: Flight) {
    && f.ok && f.stage.Keys == f.key.Keys && f.waiters.Keys == f.leader.Keys
    && Led(f.key, f.stage, f.leader)
    && Listed(f.key, f.stage, f.waiters)
    && Counted(f.stage, f.calls)
    && (f.stale || BuiltOnce(f.key, f.stage, f.known.Keys, f.builds))
    && Witnessed(f.known, f.seen) && Given(f.key, f.stage, f.got, f.seen)
  }

  // One caller changes its stage.

  lemma LedAt(key: map<nat, Key>, stage: Stages, leader: map<Key, nat>, id: nat, s: Stage)
    requires Led(key, stage, leader) && id in stage && Leads(s) == Leads(stage[id])
    ensures Led(key, stage[id := s], leader)
  {
  }

  lemma ListedAt(key: map<nat, Key>, stage: Stages, waiters: map<Key, seq<nat>>, id: nat, s: Stage)
    requires Listed(key, stage, waiters) && id in stage && s != Waiting && stage[id] != Waiting
    ensures Listed(key, stage[id := s], waiters)
  {
  }

  lemma CountedAt(stage: Stages, calls: map<nat, nat>, id: nat, s: Stage)
    requires Counted(stage, calls) && id in stage && s != Answered && stage[id] != Answered
    ensures Counted(stage[id := s], calls)
  {
  }

  lemma CountedCall(stage: Stages, calls: map<nat, nat>, id: nat)
    requires Counted(stage, calls) && id in stage && stage[id] != Answered
    ensures Counted(stage[id := Answered], OneMore(calls, id))
  {
  }

  lemma BuiltAt(key: map<nat, Key>, stage: Stages, known: set<Key>, builds: map<Key, nat>, id: nat, s: Stage)
    requires BuiltOnce(key, stage, known, builds)
    requires s == Building && id in key ==> key[id] !in known
    ensures BuiltOnce(key, stage[id := s], known, builds)
  {
  }

  lemma GivenAt(key: map<nat, Key>, stage: Stages, got: map<nat, nat>, seen: set<(Key, nat)>, id: nat, s: Stage)
    requires Given(key, stage, got, seen) && id in stage && (Served(s) ==> Served(stage[id]))
    ensures Given(key, stage[id := s], got, seen)
  {
  }

  /** The caller takes the state x for its key. */
  lemma GivenNow(key: map<nat, Key>, stage: Stages, got: map<nat, nat>, seen: set<(Key, nat)>,
                 id: nat, s: Stage, x: nat)
    requires Given(key, stage, got, seen) && id in key && (key[id], x) in seen
    ensures Given(key, stage[id := s], got[id := x], seen)
  {
  }

  lemma KnownIsSeen(known: map<Key, nat>, seen: set<(Key, nat)>, k: Key)
    requires Witnessed(known, seen) && k in known
    ensures (k, known[k]) in seen
  {
  }

  lemma AskKeeps(f: Flight, id: nat)
    requires Inv(f) && CanStep(f, id, AskStep)
    ensures Inv(Ask(f, id, f.key[id]))
  {
    hide Led, Listed, Counted, BuiltOnce, Given, Witnessed;
    var s := if f.key[id] in f.known then Answered else Missed;
    LedAt(f.key, f.stage, f.leader, id, s);
    ListedAt(f.key, f.stage, f.waiters, id, s);
    if s == Answered {
      CountedCall(f.stage, f.calls, id);
      KnownIsSeen(f.known, f.seen, f.key[id]);
      GivenNow(f.key, f.stage, f.got, f.seen, id, s, f.known[f.key[id]]);
    } else {
      CountedAt(f.stage, f.calls, id, s);
      GivenAt(f.key, f.stage, f.got, f.seen, id, s);
    }
    if !f.stale { BuiltAt(f.key, f.stage, f.known.Keys, f.builds, id, s); }
  }

  lemma JoinListed(key: map<nat, Key>, stage: Stages, waiters: map<Key, seq<nat>>, id: nat)
    requires Listed(key, stage, waiters) && id in stage && stage[id] != Waiting
    requires id in key && key[id] in waiters
    ensures Listed(key, stage[id := Waiting], waiters[key[id] := waiters[key[id]] + [id]])
  {
  }

  lemma OpenListed(key: map<nat, Key>, stage: Stages, waiters: map<Key, seq<nat>>, id: nat)
    requires Listed(key, stage, waiters) && id in stage && stage[id] != Waiting
    requires id in key && key[id] !in waiters
    ensures Listed(key, stage[id := Leading], waiters[key[id] := []])
  {
  }

  lemma OpenLed(key: map<nat, Key>, stage: Stages, leader: map<Key, nat>, id: nat)
    requires Led(key, stage, leader) && id in stage && !Leads(stage[id]) && id in key && key[id] !in leader
    ensures Led(key, stage[id := Leading], leader[key[id] := id])
  {
  }

  lemma EnrollKeeps(f: Flight, id: nat)
    requires Inv(f) && CanStep(f, id, EnrollStep)
    ensures Inv(Enroll(f, id, f.key[id]))
  {
    hide Led, Listed, Counted, BuiltOnce, Given, Witnessed;
    var k := f.key[id];
    var s := if k in f.waiters then Waiting else Leading;
    CountedAt(f.stage, f.calls, id, s);
    GivenAt(f.key, f.stage, f.got, f.seen, id, s);
    if !f.stale { BuiltAt(f.key, f.stage, f.known.Keys, f.builds, id, s); }
    if k in f.waiters {
      JoinListed(f.key, f.stage, f.waiters, id);
      LedAt(f.key, f.stage, f.leader, id, s);
    } else {
      OpenListed(f.key, f.stage, f.waiters, id);
      OpenLed(f.key, f.stage, f.leader, id);
    }
  }

  lemma LookKeeps(f: Flight, id: nat)
    requires Inv(f) && CanStep(f, id, LookStep)
    ensures Inv(LookAgain(f, id, f.key[id]))
  {
    hide Led, Listed, Counted, BuiltOnce, Given, Witnessed;
    var s := if f.key[id] in f.known then Ready else Building;
    if s == Ready {
      KnownIsSeen(f.known, f.seen, f.key[id]);
      GivenNow(f.key, f.stage, f.got, f.seen, id, s, f.known[f.key[id]]);
    } else {
      GivenAt(f.key, f.stage, f.got, f.seen, id, s);
    }
    LedAt(f.key, f.stage, f.leader, id, s);
    ListedAt(f.key, f.stage, f.waiters, id, s);
    CountedAt(f.stage, f.calls, id, s);
    if !f.stale { BuiltAt(f.key, f.stage, f.known.Keys, f.builds, id, s); }
  }

  /** Only its one leader builds a key, and only while it was never built. */
  lemma BuildBuilds(key: map<nat, Key>, stage: Stages, leader: map<Key, nat>, known: set<Key>, more: set<Key>,
                    builds: map<Key, nat>, id: nat)
    requires Led(key, stage, leader) && BuiltOnce(key, stage, known, builds)
    requires id in key && id in stage && stage[id] == Building && known <= more && key[id] in more
    ensures BuiltOnce(key, stage[id := Ready], more, builds[key[id] := Times(builds, key[id]) + 1])
  {
    var k := key[id];
    forall x | x in key && x in stage && x != id && stage[x] == Building
      ensures key[x] != k
    {
      assert leader[key[x]] == x && leader[k] == id;
    }
    assert Times(builds, k) == 0;
    var after := builds[k := Times(builds, k) + 1];
    forall l
      ensures Times(after, l) <= 1 && (Times(after, l) > 0 ==> l in more)
      ensures l != k ==> Times(after, l) == Times(builds, l)
    {
      assert Times(builds, l) <= 1;
    }
  }

  lemma BuildGives(f: Flight, id: nat, also: set<Key>, s: nat)
    requires Inv(f) && CanStep(f, id, BuildStep(also, s))
    ensures var g := Build(f, id, f.key[id], also, s);
            Witnessed(g.known, g.seen) && Given(g.key, g.stage, g.got, g.seen)
  {
    hide Led, Listed, Counted, BuiltOnce;
  }

  lemma BuildKeeps(f: Flight, id: nat, also: set<Key>, s: nat)
    requires Inv(f) && CanStep(f, id, BuildStep(also, s))
    ensures Inv(Build(f, id, f.key[id], also, s))
  {
    hide Led, Listed, Counted, BuiltOnce, Given, Witnessed;
    LedAt(f.key, f.stage, f.leader, id, Ready);
    ListedAt(f.key, f.stage, f.waiters, id, Ready);
    CountedAt(f.stage, f.calls, id, Ready);
    if !f.stale {
      var g := Build(f, id, f.key[id], also, s);
      BuildBuilds(f.key, f.stage, f.leader, f.known.Keys, g.known.Keys, f.builds, id);
    }
    BuildGives(f, id, also, s);
  }

  lemma LandLed(key: map<nat, Key>, stage: Stages, leader: map<Key, nat>, list: seq<nat>, id: nat)
    requires Led(key, stage, leader) && id in key && id in stage && Leads(stage[id])
    requires forall x :: x in list ==> x in stage && stage[x] == Waiting
    ensures key[id] in leader && id !in list
    ensures Led(key, Landed(stage, list, id), leader - {key[id]})
  {
    var s := Landed(stage, list, id);
    forall x | x in key && x in s && Leads(s[x])
      ensures key[x] in leader - {key[id]} && (leader - {key[id]})[key[x]] == x
    {
      assert leader[key[x]] == x && leader[key[id]] == id;
    }
  }

  lemma LandListed(key: map<nat, Key>, stage: Stages, waiters: map<Key, seq<nat>>, id: nat)
    requires Listed(key, stage, waiters) && id in key && id in stage && key[id] in waiters
    ensures Listed(key, Landed(stage, waiters[key[id]], id), waiters - {key[id]})
  {
  }

  lemma LandCounted(stage: Stages, calls: map<nat, nat>, list: seq<nat>, id: nat)
    requires Counted(stage, calls) && id in stage && stage[id] != Answered
    requires forall x :: x in list ==> x in stage && stage[x] == Waiting
    ensures Counted(Landed(stage, list, id), OneMore(calls, id))
  {
  }

  lemma LandBuilt(key: map<nat, Key>, stage: Stages, known: set<Key>, builds: map<Key, nat>, list: seq<nat>, id: nat)
    requires BuiltOnce(key, stage, known, builds)
    ensures BuiltOnce(key, Landed(stage, list, id), known, builds)
  {
  }

  /** Every waiter leaves with the state of its leader. */
  lemma LandGives(key: map<nat, Key>, stage: Stages, got: map<nat, nat>, seen: set<(Key, nat)>, list: seq<nat>, id: nat)
    requires Given(key, stage, got, seen) && id in key && id in stage && stage[id] == Ready && id !in list
    requires forall x :: x in list ==> x in key && key[x] == key[id]
    ensures Given(key, Landed(stage, list, id), Handed(got, list, id), seen)
    ensures id in got && forall x :: x in list ==> x in Handed(got, list, id) && Handed(got, list, id)[x] == got[id]
  {
  }

  /** The CHECK on compiler_info_waiters_ holds, and all of the list is taken in hand. */
  lemma LandKeeps(f: Flight, id: nat)
    requires Inv(f) && CanStep(f, id, LandStep)
    ensures f.key[id] in f.waiters
    ensures Inv(Land(f, id, f.key[id]))
  {
    hide Led, Listed, Counted, BuiltOnce, Given, Witnessed, Landed, OneMore, Handed;
    var k := f.key[id];
    LeaderListed(f, id);
    var list := f.waiters[k];
    OnList(f.key, f.stage, f.waiters, k);
    LandLed(f.key, f.stage, f.leader, list, id);
    LandCounted(f.stage, f.calls, list, id);
    LandListed(f.key, f.stage, f.waiters, id);
    LandGives(f.key, f.stage, f.got, f.seen, list, id);
    if !f.stale { LandBuilt(f.key, f.stage, f.known.Keys, f.builds, list, id); }
    assert Landed(f.stage, list, id).Keys == f.stage.Keys by { LandedKeys(f.stage, list, id); }
  }

  lemma LeaderListed(f: Flight, id: nat)
    requires Inv(f) && id in f.key && Leads(f.stage[id])
    ensures f.key[id] in f.waiters && f.leader[f.key[id]] == id
  {
  }

  lemma LandedKeys(stage: Stages, list: seq<nat>, id: nat)
    requires id in stage
    ensures Landed(stage, list, id).Keys == stage.Keys
  {
  }

  lemma OnList(key: map<nat, Key>, stage: Stages, waiters: map<Key, seq<nat>>, k: Key)
    requires Listed(key, stage, waiters) && k in waiters
    ensures forall x :: x in waiters[k] ==> x in stage && stage[x] == Waiting && x in key && key[x] == k
  {
  }

  lemma CallKeeps(f: Flight, id: nat)
    requires Inv(f) && CanStep(f, id, CallStep)
    ensures Inv(Called(f, id))
  {
    hide Led, Listed, Counted, BuiltOnce, Given, Witnessed;
    LedAt(f.key, f.stage, f.leader, id, Answered);
    ListedAt(f.key, f.stage, f.waiters, id, Answered);
    CountedCall(f.stage, f.calls, id);
    GivenAt(f.key, f.stage, f.got, f.seen, id, Answered);
    if !f.stale { BuiltAt(f.key, f.stage, f.known.Keys, f.builds, id, Answered); }
  }

  lemma ApplyKeeps(f: Flight, id: nat, s: Step)
    requires Inv(f) && CanStep(f, id, s)
    ensures Inv(Apply(f, id, s))
  {
    hide Inv, Ask, Enroll, LookAgain, Build, Land, Called;
    match s
    case AskStep => AskKeeps(f, id);
    case EnrollStep => EnrollKeeps(f, id);
    case LookStep => LookKeeps(f, id);
    case BuildStep(also, x) => BuildKeeps(f, id, also, x);
    case LandStep => LandKeeps(f, id);
    case CallStep => CallKeeps(f, id);
  }

  // ---------------------------------------------------------------- whole runs

  ghost predicate IsRun(r: seq<Flight>) {
    |r| > 0 && forall i :: 0 <= i < |r| - 1 ==> Next(r[i], r[i + 1])
  }

  /** Some run of the callers `key`, on a cache that knows `known`, ends in f. */
  ghost predicate Reachable(key: map<nat, Key>, known: map<Key, nat>, f: Flight) {
    exists r :: IsRun(r) && r[0] == NewFlight(key, known) && r[|r| - 1] == f
  }

  lemma NewInv(key: map<nat, Key>, known: map<Key, nat>)
    ensures Inv(NewFlight(key, known))
  {
  }

  lemma ApplySame(f: Flight, id: nat, s: Step)
    requires id in f.key
    ensures Apply(f, id, s).key == f.key && Apply(f, id, s).stale == f.stale
  {
    hide Ask, Enroll, LookAgain, Build, Land, Called;
  }

  lemma NextKeeps(f: Flight, g: Flight)
    requires Inv(f) && Next(f, g)
    ensures Inv(g) && g.key == f.key
  {
    if Moves(f, g) {
      hide Inv, Apply;
      var id, s :| CanStep(f, id, s) && g == Apply(f, id, s);
      ApplyKeeps(f, id, s);
      ApplySame(f, id, s);
    }
  }

  lemma {:induction false} RunKeeps(r: seq<Flight>)
    requires IsRun(r) && Inv(r[0])
    ensures Inv(r[|r| - 1]) && r[|r| - 1].key == r[0].key
  {
    if |r| > 1 {
      hide Inv, Next;
      RunKeeps(r[..|r| - 1]);
      NextKeeps(r[|r| - 2], r[|r| - 1]);
    }
  }

  lemma ReachableInv(key: map<nat, Key>, known: map<Key, nat>, f: Flight)
    requires Reachable(key, known, f)
    ensures Inv(f) && f.key == key
  {
    var r :| IsRun(r) && r[0] == NewFlight(key, known) && r[|r| - 1] == f;
    NewInv(key, known);
    hide Inv, Next;
    RunKeeps(r);
  }

  /** A key has a waiter list exactly while one caller for it leads; every waiting caller is
      on the list of its key, once; no callback is scheduled twice; the CHECK that the list
      exists when the leader takes it never fails; while no cached entry goes stale, no key
      is built twice; and whoever is answered has a state that was known under its key. */
  lemma OneFlightPerKey(key: map<nat, Key>, known: map<Key, nat>, f: Flight)
    requires Reachable(key, known, f)
    ensures f.ok && f.stage.Keys == key.Keys && f.calls.Keys == key.Keys
    ensures forall k :: k in f.waiters <==> exists id :: id in key && key[id] == k && Leads(f.stage[id])
    ensures forall a, b :: a in key && b in key && Leads(f.stage[a]) && Leads(f.stage[b]) && key[a] == key[b] ==> a == b
    ensures forall id :: id in key ==>
              (f.stage[id] == Waiting <==> key[id] in f.waiters && id in f.waiters[key[id]])
    ensures forall k :: k in f.waiters ==> Unique(f.waiters[k])
    ensures forall id :: id in key ==> f.calls[id] == if f.stage[id] == Answered then 1 else 0
    ensures !f.stale ==> forall k :: Times(f.builds, k) <= 1
    ensures forall id :: id in key && f.stage[id] == Answered ==> id in f.got && (key[id], f.got[id]) in f.seen
  {
    ReachableInv(key, known, f);
    hide Unique;
    forall k
      ensures k in f.waiters <==> exists id :: id in key && key[id] == k && Leads(f.stage[id])
    {
      if k in f.waiters {
        var id := f.leader[k];
        assert id in key && key[id] == k && Leads(f.stage[id]);
      }
    }
  }

  // ---------------------------------------------------------------- everybody is answered

  function Ahead(s: Stage): nat {
    match s
    case Fresh => 7
    case Missed => 6
    case Leading => 5
    case Building => 4
    case Ready => 3
    case Waiting => 2
    case InHand => 1
    case Answered => 0
  }

  function Value(stage: Stages, id: nat): nat {
    if id in stage then Ahead(stage[id]) else 0
  }

  /** Steps still to come, at most. */
  ghost function Total(stage: Stages, ids: set<nat>): nat {
    if ids == {} then 0 else var id :| id in ids; Value(stage, id) + Total(stage, ids - {id})
  }

  lemma {:induction false} TotalPick(stage: Stages, ids: set<nat>, x: nat)
    requires x in ids
    ensures Total(stage, ids) == Value(stage, x) + Total(stage, ids - {x})
  {
    var y :| y in ids && Total(stage, ids) == Value(stage, y) + Total(stage, ids - {y});
    if y != x {
      TotalPick(stage, ids - {y}, x);
      TotalPick(stage, ids - {x}, y);
      assert ids - {y} - {x} == ids - {x} - {y};
    }
  }

  lemma {:induction false} TotalAtMost(a: Stages, b: Stages, ids: set<nat>)
    requires forall id :: id in ids ==> Value(b, id) <= Value(a, id)
    ensures Total(b, ids) <= Total(a, ids)
    decreases ids
  {
    if ids != {} {
      var x :| x in ids;
      TotalPick(a, ids, x);
      TotalPick(b, ids, x);
      TotalAtMost(a, b, ids - {x});
    }
  }

  predicate Waits(f: Flight) {
    exists id :: id in f.key && id in f.stage && f.stage[id] != Answered
  }

  lemma LandAdvances(stage: Stages, list: seq<nat>, id: nat)
    requires id in stage && stage[id] == Ready && forall x :: x in list ==> x in stage && stage[x] == Waiting
    ensures Value(Landed(stage, list, id), id) < Value(stage, id)
    ensures forall x :: Value(Landed(stage, list, id), x) <= Value(stage, x)
  {
  }

  lemma StageAdvances(f: Flight, id: nat, s: Step)
    requires Inv(f) && CanStep(f, id, s)
    ensures Value(Apply(f, id, s).stage, id) < Value(f.stage, id)
    ensures forall x :: Value(Apply(f, id, s).stage, x) <= Value(f.stage, x)
  {
    if s == LandStep {
      LeaderListed(f, id);
      hide Inv, Landed, OneMore, Value;
      ListOf(f, f.key[id]);
      LandAdvances(f.stage, f.waiters[f.key[id]], id);
    } else {
      hide Inv, Landed, OneMore, Times;
      var t := OthersAdvance(f, id, s);
    }
  }

  lemma OthersAdvance(f: Flight, id: nat, s: Step) returns (t: Stage)
    requires CanStep(f, id, s) && s != LandStep
    ensures Apply(f, id, s).stage == f.stage[id := t] && Ahead(t) < Ahead(f.stage[id])
  {
    hide Ask, Enroll, LookAgain, Build, Called;
    var k := f.key[id];
    match s
    case AskStep => t := if k in f.known then Answered else Missed;
    case EnrollStep => t := if k in f.waiters then Waiting else Leading;
    case LookStep => t := if k in f.known then Ready else Building;
    case BuildStep(_, _) => t := Ready;
    case CallStep => t := Answered;
  }

  lemma ListOf(f: Flight, k: Key)
    requires Inv(f) && k in f.waiters
    ensures forall x :: x in f.waiters[k] ==> x in f.stage && f.stage[x] == Waiting
  {
    hide Led, Counted, BuiltOnce, Given;
    OnList(f.key, f.stage, f.waiters, k);
  }

  /** Every step brings some caller closer to its callback, and none further away. */
  lemma StepAdvances(f: Flight, id: nat, s: Step)
    requires Inv(f) && CanStep(f, id, s)
    ensures Total(Apply(f, id, s).stage, f.key.Keys) < Total(f.stage, f.key.Keys)
  {
    var g := Apply(f, id, s);
    StageAdvances(f, id, s);
    hide Apply, Inv, Value;
    TotalPick(f.stage, f.key.Keys, id);
    TotalPick(g.stage, f.key.Keys, id);
    TotalAtMost(f.stage, g.stage, f.key.Keys - {id});
  }

  /** No waiter is dropped: someone unanswered means someone can go on. */
  lemma NobodyIsStuck(f: Flight)
    requires Inv(f) && Waits(f)
    ensures Enabled(f)
  {
    var id :| id in f.key && id in f.stage && f.stage[id] != Answered;
    var x := if f.stage[id] == Waiting then f.leader[f.key[id]] else id;
    match f.stage[x]
    case Fresh => assert CanStep(f, x, AskStep);
    case Missed => assert CanStep(f, x, EnrollStep);
    case Leading => assert CanStep(f, x, LookStep);
    case Building => assert CanStep(f, x, BuildStep({}, 0));
    case Ready => assert CanStep(f, x, LandStep);
    case InHand => assert CanStep(f, x, CallStep);
  }

  /** Any interleaving in which a caller that can go on is not held back for ever. */
  ghost predicate Execution(key: map<nat, Key>, known: map<Key, nat>, run: nat -> Flight) {
    && run(0) == NewFlight(key, known)
    && (forall i: nat :: Next(run(i), run(i + 1)) || run(i + 1) == run(i))
    && (forall i: nat :: Enabled(run(i)) ==> exists j: nat :: j >= i && Moves(run(j), run(j + 1)))
  }

  ghost predicate Enabled(f: Flight) {
    exists id, s :: CanStep(f, id, s)
  }

  lemma ExecutionSteps(key: map<nat, Key>, known: map<Key, nat>, run: nat -> Flight, i: nat)
    requires Execution(key, known, run)
    ensures Next(run(i), run(i + 1)) || run(i + 1) == run(i)
  {
    hide Next, Moves, Enabled;
  }

  lemma SomeoneMoves(key: map<nat, Key>, known: map<Key, nat>, run: nat -> Flight, i: nat) returns (j: nat)
    requires Execution(key, known, run) && Enabled(run(i))
    ensures j >= i && Moves(run(j), run(j + 1))
  {
    hide Next, Moves, Enabled;
    j :| j >= i && Moves(run(j), run(j + 1));
  }

  lemma {:induction false} ExecutionInv(key: map<nat, Key>, known: map<Key, nat>, run: nat -> Flight, i: nat)
    requires Execution(key, known, run)
    ensures Inv(run(i)) && run(i).key == key
  {
    hide Inv, Next;
    if i == 0 {
      NewInv(key, known);
    } else {
      hide Execution;
      ExecutionInv(key, known, run, i - 1);
      ExecutionSteps(key, known, run, i - 1);
      if Next(run(i - 1), run(i)) { NextKeeps(run(i - 1), run(i)); }
    }
  }

  lemma NextAtMost(f: Flight, g: Flight)
    requires Inv(f) && (Next(f, g) || f == g)
    ensures Total(g.stage, f.key.Keys) <= Total(f.stage, f.key.Keys)
    ensures Moves(f, g) ==> Total(g.stage, f.key.Keys) < Total(f.stage, f.key.Keys)
  {
    hide Inv, Total, Apply;
    if Moves(f, g) {
      var id, s :| CanStep(f, id, s) && g == Apply(f, id, s);
      StepAdvances(f, id, s);
    }
  }

  lemma {:induction false} NeverBack(key: map<nat, Key>, known: map<Key, nat>, run: nat -> Flight, i: nat, j: nat)
    requires Execution(key, known, run) && i <= j
    ensures Total(run(j).stage, key.Keys) <= Total(run(i).stage, key.Keys)
    decreases j - i
  {
    hide Inv, Next, Total, Execution;
    if i < j {
      NeverBack(key, known, run, i, j - 1);
      ExecutionInv(key, known, run, j - 1);
      ExecutionSteps(key, known, run, j - 1);
      NextAtMost(run(j - 1), run(j));
    }
  }

  lemma MoveIsNext(f: Flight, g: Flight)
    requires Moves(f, g)
    ensures Next(f, g)
  {
  }

  /** However lookups, builds, evictions and callbacks interleave, in the end every caller's
      callback has been scheduled, exactly once. */
  lemma {:induction false} EverybodyIsAnswered(key: map<nat, Key>, known: map<Key, nat>, run: nat -> Flight, i: nat)
    returns (j: nat)
    requires Execution(key, known, run)
    ensures forall id :: id in key ==> id in run(j).calls && run(j).calls[id] == 1
    decreases Total(run(i).stage, key.Keys)
  {
    hide Execution, Next, Moves, Total, Inv, CanStep, Waits, Enabled;
    ExecutionInv(key, known, run, i);
    if Waits(run(i)) {
      NobodyIsStuck(run(i));
      var m := SomeoneMoves(key, known, run, i);
      NeverBack(key, known, run, i, m);
      ExecutionInv(key, known, run, m);
      MoveIsNext(run(m), run(m + 1));
      NextAtMost(run(m), run(m + 1));
      j := EverybodyIsAnswered(key, known, run, m + 1);
    } else {
      j := i;
      NobodyWaits(run(i));
    }
  }

  lemma NobodyWaits(f: Flight)
    requires Inv(f) && !Waits(f)
    ensures forall id :: id in f.key ==> id in f.calls && f.calls[id] == 1
  {
  }
}
