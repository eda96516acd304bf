/** Initialising modules from the states of `ParallelLoad`: every parameter is created on every rank and
  filled by a broadcast from the rank that owns it. Modules are given as the list of slots in the order
  of the walk; a state is a parameter or buffer object, which several slots may share. */
module ParallelInit {
  import opened ParallelLoad
  import opened Prelude

  datatype Slot = Slot(state: nat, isParam: bool, isMeta: bool)

  datatype Outcome = Running | NotLoaded(name: Name) | NotPersistent(name: Name) | NoNameLeft(state: nat)

  // ---------------------------------------------------------------- names of states

  /** The places before `n` at which state `s` is paired with a name. */
  function Places(pairs: seq<(nat, Name)>, s: nat, n: nat): set<nat>
    requires n <= |pairs|
  {
    set j: nat | j < n && pairs[j].0 == s
  }

  /** Name number `i` is in the list of its state, behind those that the state was paired with before. */
  ghost predicate Stands(names: map<nat, seq<Name>>, pairs: seq<(nat, Name)>, i: nat)
    requires i < |pairs|
  {
    var s, place := pairs[i].0, |Places(pairs, pairs[i].0, i)|;
    s in names && place < |names[s]| && names[s][place] == pairs[i].1
  }

  /** Each name stands behind the names that its state was paired with earlier, and nothing else is listed. */
  ghost predicate InOrder(names: map<nat, seq<Name>>, pairs: seq<(nat, Name)>, n: nat)
    requires n <= |pairs|
  {
    && (forall s :: s in names ==> |names[s]| == |Places(pairs, s, n)| > 0)
    && forall i :: 0 <= i < n ==> Stands(names, pairs, i)
  }

  lemma PlacesNext(pairs: seq<(nat, Name)>, n: nat)
    requires n < |pairs|
    ensures forall s: nat :: |Places(pairs, s, n + 1)| == |Places(pairs, s, n)| + if pairs[n].0 == s then 1 else 0
  {
    forall s: nat ensures |Places(pairs, s, n + 1)| == |Places(pairs, s, n)| + if pairs[n].0 == s then 1 else 0 {
      assert Places(pairs, s, n + 1) == Places(pairs, s, n) + if pairs[n].0 == s then {n} else {};
    }
  }

  /** A state without names has not been met. */
  lemma NotPlaced(names: map<nat, seq<Name>>, pairs: seq<(nat, Name)>, n: nat, s: nat)
    requires n <= |pairs| && InOrder(names, pairs, n) && s !in names
    ensures |Places(pairs, s, n)| == 0
  {
    forall j | 0 <= j < n ensures pairs[j].0 in names {
      assert Stands(names, pairs, j);
    }
    assert Places(pairs, s, n) == {};
  }

  lemma InOrderNext(names: map<nat, seq<Name>>, pairs: seq<(nat, Name)>, n: nat)
    requires n < |pairs| && InOrder(names, pairs, n)
    ensures var s := pairs[n].0;
            InOrder(names[s := (if s in names then names[s] else []) + [pairs[n].1]], pairs, n + 1)
  {
    PlacesNext(pairs, n);
    var s := pairs[n].0;
    if s !in names {
      NotPlaced(names, pairs, n, s);
    }
    hide Places;
    var after := names[s := (if s in names then names[s] else []) + [pairs[n].1]];
    assert |after[s]| == |Places(pairs, s, n)| + 1;
    forall t | t in after ensures |after[t]| == |Places(pairs, t, n + 1)| > 0 {
    }
    forall i | 0 <= i < n + 1 ensures Stands(after, pairs, i) {
      assert i < n ==> Stands(names, pairs, i);
    }
  }

  lemma NothingInOrder(pairs: seq<(nat, Name)>)
    ensures InOrder(map[], pairs, 0)
  {
  }

  lemma NamesCounted(names: map<nat, seq<Name>>, pairs: seq<(nat, Name)>, s: nat)
    requires InOrder(names, pairs, |pairs|)
    ensures |Places(pairs, s, |pairs|)| == if s in names then |names[s]| else 0
  {
    if s !in names {
      NotPlaced(names, pairs, |pairs|, s);
    }
  }

  /** `state2fqn` and the states with more than one name. */
  method StateToFqn(pairs: seq<(nat, Name)>) returns (names: map<nat, seq<Name>>, shared: set<nat>)
    ensures InOrder(names, pairs, |pairs|)
    ensures forall s: nat :: s in shared <==> |Places(pairs, s, |pairs|)| > 1
  {
    hide InOrder, Places;
    names := map[];
    NothingInOrder(pairs);
    for i := 0 to |pairs|
      invariant InOrder(names, pairs, i)
    {
      InOrderNext(names, pairs, i);
      var s := pairs[i].0;
      names := names[s := (if s in names then names[s] else []) + [pairs[i].1]];
    }
    shared := set s | s in names && |names[s]| > 1;
    forall s: nat ensures s in shared <==> |Places(pairs, s, |pairs|)| > 1 {
      NamesCounted(names, pairs, s);
    }
  }

  // ---------------------------------------------------------------- the walk, without any rank

  /** The walk so far: names not yet used, parameters left, first names of shared states, the parameters and
    states synchronised, and the parameter each slot got. No rank occurs in it. */
  datatype Walk = Walk(outcome: Outcome, names: map<nat, seq<Name>>, left: set<Name>, first: map<nat, Name>,
                       synced: seq<Name>, states: seq<nat>, got: seq<Option<Name>>)

  function Visit(w: Walk, slot: Slot, shared: set<nat>): Walk
    requires slot.state in w.names
  {
    if !slot.isMeta then w.(got := w.got + [None])
    else if w.names[slot.state] == [] then w.(outcome := NoNameLeft(slot.state))
    else
      var p := w.names[slot.state][0];
      var w1 := w.(names := w.names[slot.state := w.names[slot.state][1..]]);
      if !slot.isParam && p !in w.left then w1.(outcome := NotPersistent(p))
      else if slot.state in shared && slot.state in w.first then
        w1.(left := w.left - {p}, got := w.got + [Some(w.first[slot.state])])
      else if p !in w.left then w1.(outcome := NotLoaded(p))
      else
        w1.(left := w.left - {p}, synced := w.synced + [p], states := w.states + [slot.state],
            first := if slot.state in shared then w.first[slot.state := p] else w.first, got := w.got + [Some(p)])
  }

  function Start(names: map<nat, seq<Name>>, keys: set<Name>): Walk {
    Walk(Running, names, keys, map[], [], [], [])
  }

  /** The walk over the slots, up to the first failure. */
  function WalkOf(start: Walk, slots: seq<Slot>, shared: set<nat>): (w: Walk)
    requires forall i :: 0 <= i < |slots| ==> slots[i].state in start.names
    ensures w.names.Keys == start.names.Keys
  {
    if slots == [] then start
    else
      var w := WalkOf(start, slots[..|slots| - 1], shared);
      if w.outcome.Running? then Visit(w, slots[|slots| - 1], shared) else w
  }

  lemma {:induction false} WalkStops(start: Walk, slots: seq<Slot>, shared: set<nat>, i: nat)
    requires i <= |slots| && forall k :: 0 <= k < |slots| ==> slots[k].state in start.names
    ensures var w := WalkOf(start, slots[..i], shared);
            !w.outcome.Running? ==> WalkOf(start, slots, shared) == w
    decreases |slots| - i
  {
    if i == |slots| {
      assert slots[..i] == slots;
    } else {
      assert slots[..i + 1][..i] == slots[..i];
      WalkStops(start, slots, shared, i + 1);
    }
  }

  lemma VisitGrows(w: Walk, slot: Slot, shared: set<nat>)
    requires slot.state in w.names
    ensures w.synced <= Visit(w, slot, shared).synced
  {
  }

  /** What a walk has synchronised stays synchronised. */
  lemma {:induction false} SyncedGrows(start: Walk, slots: seq<Slot>, shared: set<nat>, i: nat)
    requires i <= |slots| && forall k :: 0 <= k < |slots| ==> slots[k].state in start.names
    ensures WalkOf(start, slots[..i], shared).synced <= WalkOf(start, slots, shared).synced
    decreases |slots| - i
  {
    if i == |slots| {
      assert slots[..i] == slots;
    } else {
      assert slots[..i + 1][..i] == slots[..i];
      SyncedGrows(start, slots, shared, i + 1);
      VisitGrows(WalkOf(start, slots[..i], shared), slots[i], shared);
      hide Visit;
    }
  }

  /** Only parameters of the checkpoint are synchronised, each once, and slots get synchronised ones. */
  ghost predicate Known(w: Walk, keys: set<Name>) {
    && w.left <= keys
    && (forall k :: 0 <= k < |w.synced| ==> w.synced[k] in keys && w.synced[k] !in w.left)
    && (forall j, k :: 0 <= j < k < |w.synced| ==> w.synced[j] != w.synced[k])
    && (forall s :: s in w.first ==> w.first[s] in w.synced)
    && (forall k :: 0 <= k < |w.got| && w.got[k].Some? ==> w.got[k].value in w.synced)
  }

  lemma StartUsesKeys(names: map<nat, seq<Name>>, keys: set<Name>)
    ensures Start(names, keys).names == names && Known(Start(names, keys), keys)
  {
  }

  lemma VisitUsesKeys(w: Walk, slot: Slot, shared: set<nat>, keys: set<Name>)
    requires slot.state in w.names && Known(w, keys)
    ensures Known(Visit(w, slot, shared), keys)
  {
  }

  lemma {:induction false} WalkUsesKeys(names: map<nat, seq<Name>>, keys: set<Name>, slots: seq<Slot>, shared: set<nat>)
    requires forall i :: 0 <= i < |slots| ==> slots[i].state in names
    ensures Known(WalkOf(Start(names, keys), slots, shared), keys)
  {
    hide Known, Visit, Start;
    StartUsesKeys(names, keys);
    if slots != [] {
      WalkUsesKeys(names, keys, slots[..|slots| - 1], shared);
      var w := WalkOf(Start(names, keys), slots[..|slots| - 1], shared);
      if w.outcome.Running? {
        VisitUsesKeys(w, slots[|slots| - 1], shared, keys);
      }
    }
  }

  // ---------------------------------------------------------------- each state once

  ghost predicate Spent(w: Walk, shared: set<nat>) {
    && (forall k :: 0 <= k < |w.states| ==>
          w.states[k] in w.names && if w.states[k] in shared then w.states[k] in w.first else w.names[w.states[k]] == [])
    && (forall s :: s in w.names && s !in shared ==> |w.names[s]| <= 1)
    && (forall j, k :: 0 <= j < k < |w.states| ==> w.states[j] != w.states[k])
  }

  lemma VisitSpends(w: Walk, slot: Slot, shared: set<nat>)
    requires slot.state in w.names && Spent(w, shared)
    ensures Spent(Visit(w, slot, shared), shared)
  {
    var after := Visit(w, slot, shared);
    if |after.states| == |w.states| {
      assert after.states == w.states;
    } else {
      assert after.states == w.states + [slot.state];
    }
  }

  /** No state is synchronised twice, however many slots share it. */
  lemma {:induction false} EachStateOnce(start: Walk, slots: seq<Slot>, shared: set<nat>)
    requires Spent(start, shared) && forall i :: 0 <= i < |slots| ==> slots[i].state in start.names
    ensures Spent(WalkOf(start, slots, shared), shared)
  {
    hide Spent, Visit;
    if slots != [] {
      EachStateOnce(start, slots[..|slots| - 1], shared);
      var w := WalkOf(start, slots[..|slots| - 1], shared);
      if w.outcome.Running? {
        VisitSpends(w, slots[|slots| - 1], shared);
      }
    }
  }

  /** With the names of `StateToFqn` the walk synchronises no state twice. */
  lemma SynchronisedOnce(pairs: seq<(nat, Name)>, names: map<nat, seq<Name>>, shared: set<nat>, keys: set<Name>,
                         slots: seq<Slot>, j: nat, k: nat)
    requires InOrder(names, pairs, |pairs|) && forall s: nat :: s in shared <==> |Places(pairs, s, |pairs|)| > 1
    requires forall i :: 0 <= i < |slots| ==> slots[i].state in names
    requires var w := WalkOf(Start(names, keys), slots, shared); j < k < |w.states|
    ensures var w := WalkOf(Start(names, keys), slots, shared); w.states[j] != w.states[k]
  {
    EachStateOnce(Start(names, keys), slots, shared);
  }

  // ---------------------------------------------------------------- the walk on one rank

  /** One broadcast as a rank takes part in it: its source, and the data afterwards. */
  datatype Sync<T> = Sync(src: nat, data: T)

  method CreateAndSync<T>(states: map<Name, State<T>>, p: Name, rank: nat, delivered: T)
    returns (after: map<Name, State<T>>, sync: Sync<T>)
    requires p in states
    ensures after == states - {p}
    ensures sync == if states[p].Loaded? then Sync(rank, states[p].t) else Sync(states[p].src, delivered)
  {
    after := states - {p};
    match states[p]
    case Loaded(t) => sync := Sync(rank, t);
    case Remote(src) => sync := Sync(src, delivered);
  }

  /** The values the slots have on this rank are those the walk assigns. */
  ghost predicate Filled<T>(out: seq<Option<T>>, got: seq<Option<Name>>, value: map<Name, T>) {
    |out| == |got| && forall i :: 0 <= i < |got| ==>
      match got[i] case None => out[i] == None case Some(p) => p in value && out[i] == Some(value[p])
  }

  /** The broadcasts of this rank have the owners as sources and the checkpoint's values as data. */
  ghost predicate Synced<T>(syncs: seq<Sync<T>>, names: seq<Name>, owner: map<Name, nat>, value: map<Name, T>) {
    |syncs| == |names| && forall k :: 0 <= k < |names| ==>
      names[k] in owner && names[k] in value && syncs[k] == Sync(owner[names[k]], value[names[k]])
  }

  /** The variables of a rank: names and states left, tensors made for shared states, the slots' tensors so far,
    and the broadcasts so far. */
  datatype Memory<T> = Memory(names: map<nat, seq<Name>>, states: map<Name, State<T>>, made: map<nat, T>,
                              out: seq<Option<T>>, syncs: seq<Sync<T>>)

  /** How the variables of a rank relate to the walk. */
  ghost predicate Follows<T>(w: Walk, m: Memory<T>, owner: map<Name, nat>, value: map<Name, T>, rank: nat) {
    && m.names == w.names && m.states.Keys == w.left && Known(w, owner.Keys) && owner.Keys == value.Keys
    && (forall p :: p in m.states ==> m.states[p] == if owner[p] == rank then Loaded(value[p]) else Remote(owner[p]))
    && m.made.Keys == w.first.Keys
    && (forall s :: s in m.made ==> w.first[s] in value && m.made[s] == value[w.first[s]])
    && Filled(m.out, w.got, value)
    && Synced(m.syncs, w.synced, owner, value)
  }

  lemma FollowsMeans<T>(w: Walk, m: Memory<T>, owner: map<Name, nat>, value: map<Name, T>, rank: nat)
    requires Follows(w, m, owner, value, rank)
    ensures |m.syncs| == |w.synced| && m.names == w.names && m.states.Keys == w.left && m.made.Keys == w.first.Keys
    ensures Filled(m.out, w.got, value) && Synced(m.syncs, w.synced, owner, value)
  {
  }

  function NextNames<T>(m: Memory<T>, state: nat): map<nat, seq<Name>>
    requires state in m.names && m.names[state] != []
  {
    m.names[state := m.names[state][1..]]
  }

  lemma FollowsSkip<T>(w: Walk, m: Memory<T>, slot: Slot, shared: set<nat>,
                       owner: map<Name, nat>, value: map<Name, T>, rank: nat)
    requires Follows(w, m, owner, value, rank) && slot.state in m.names && !slot.isMeta
    ensures Visit(w, slot, shared).outcome == w.outcome
    ensures Follows(Visit(w, slot, shared), m.(out := m.out + [None]), owner, value, rank)
  {
    VisitUsesKeys(w, slot, shared, owner.Keys);
    hide Known;
  }

  lemma FollowsNoName<T>(w: Walk, m: Memory<T>, slot: Slot, shared: set<nat>,
                         owner: map<Name, nat>, value: map<Name, T>, rank: nat)
    requires Follows(w, m, owner, value, rank) && slot.state in m.names && slot.isMeta && m.names[slot.state] == []
    ensures Visit(w, slot, shared).outcome == NoNameLeft(slot.state)
    ensures Follows(Visit(w, slot, shared), m, owner, value, rank)
  {
    VisitUsesKeys(w, slot, shared, owner.Keys);
    hide Known;
  }

  lemma FollowsMissing<T>(w: Walk, m: Memory<T>, slot: Slot, shared: set<nat>,
                          owner: map<Name, nat>, value: map<Name, T>, rank: nat)
    requires Follows(w, m, owner, value, rank) && slot.state in m.names && slot.isMeta && m.names[slot.state] != []
    requires m.names[slot.state][0] !in m.states && (slot.isParam ==> !(slot.state in shared && slot.state in m.made))
    ensures var p := m.names[slot.state][0];
            Visit(w, slot, shared).outcome == if slot.isParam then NotLoaded(p) else NotPersistent(p)
    ensures Follows(Visit(w, slot, shared), m.(names := NextNames(m, slot.state)), owner, value, rank)
  {
    VisitUsesKeys(w, slot, shared, owner.Keys);
    hide Known;
  }

  lemma FollowsShared<T>(w: Walk, m: Memory<T>, slot: Slot, shared: set<nat>,
                         owner: map<Name, nat>, value: map<Name, T>, rank: nat)
    requires Follows(w, m, owner, value, rank) && slot.state in m.names && slot.isMeta && m.names[slot.state] != []
    requires slot.isParam || m.names[slot.state][0] in m.states
    requires slot.state in shared && slot.state in m.made
    ensures Visit(w, slot, shared).outcome == w.outcome
    ensures Follows(Visit(w, slot, shared),
                    m.(names := NextNames(m, slot.state), states := m.states - {m.names[slot.state][0]},
                       out := m.out + [Some(m.made[slot.state])]), owner, value, rank)
  {
    VisitUsesKeys(w, slot, shared, owner.Keys);
    hide Known;
  }

  /** `sync` is the broadcast of parameter `p`. */
  ghost predicate Right<T>(sync: Sync<T>, p: Name, owner: map<Name, nat>, value: map<Name, T>) {
    p in owner && p in value && sync == Sync(owner[p], value[p])
  }

  lemma FilledMore<T>(out: seq<Option<T>>, got: seq<Option<Name>>, value: map<Name, T>, data: T, p: Name)
    requires Filled(out, got, value) && p in value && data == value[p]
    ensures Filled(out + [Some(data)], got + [Some(p)], value)
  {
  }

  lemma SyncedMore<T>(syncs: seq<Sync<T>>, names: seq<Name>, owner: map<Name, nat>, value: map<Name, T>,
                      sync: Sync<T>, p: Name)
    requires Synced(syncs, names, owner, value) && Right(sync, p, owner, value)
    ensures Synced(syncs + [sync], names + [p], owner, value)
  {
  }

  lemma FollowsCreate<T>(w: Walk, m: Memory<T>, slot: Slot, shared: set<nat>, sync: Sync<T>,
                         owner: map<Name, nat>, value: map<Name, T>, rank: nat)
    requires Follows(w, m, owner, value, rank) && slot.state in m.names && slot.isMeta && m.names[slot.state] != []
    requires m.names[slot.state][0] in m.states && !(slot.state in shared && slot.state in m.made)
    requires Right(sync, m.names[slot.state][0], owner, value)
    ensures Visit(w, slot, shared).outcome == w.outcome
    ensures Follows(Visit(w, slot, shared),
                    m.(names := NextNames(m, slot.state), states := m.states - {m.names[slot.state][0]},
                       made := if slot.state in shared then m.made[slot.state := sync.data] else m.made,
                       out := m.out + [Some(sync.data)], syncs := m.syncs + [sync]), owner, value, rank)
  {
    VisitUsesKeys(w, slot, shared, owner.Keys);
    hide Known;
    var p := m.names[slot.state][0];
    FilledMore(m.out, w.got, value, sync.data, p);
    SyncedMore(m.syncs, w.synced, owner, value, sync, p);
    hide Filled, Synced;
  }

  /** The broadcast that visiting the slot needs, if any, brings the owner's value. */
  ghost predicate Brings<T>(w: Walk, slot: Slot, shared: set<nat>, delivered: T,
                            owner: map<Name, nat>, value: map<Name, T>, rank: nat)
    requires slot.state in w.names
  {
    var after, k := Visit(w, slot, shared).synced, |w.synced|;
    (k < |after| && after[k] in owner && after[k] in value && owner[after[k]] != rank) ==> delivered == value[after[k]]
  }

  /** What a broadcast brings is the owner's value, when that is what other ranks' broadcasts bring. */
  lemma SyncIsRight<T>(w: Walk, m: Memory<T>, slot: Slot, shared: set<nat>, delivered: T, sync: Sync<T>,
                       owner: map<Name, nat>, value: map<Name, T>, rank: nat)
    requires Follows(w, m, owner, value, rank) && slot.state in m.names && slot.isMeta && m.names[slot.state] != []
    requires m.names[slot.state][0] in m.states && !(slot.state in shared && slot.state in m.made)
    requires var s := m.states[m.names[slot.state][0]];
             sync == if s.Loaded? then Sync(rank, s.t) else Sync(s.src, delivered)
    requires Brings(w, slot, shared, delivered, owner, value, rank)
    ensures Right(sync, m.names[slot.state][0], owner, value)
  {
    var p := m.names[slot.state][0];
    assert p in owner.Keys && p in value.Keys;
    assert Visit(w, slot, shared).synced == w.synced + [p];
  }

  /** One slot: fails, or leaves the rank following the walk. `delivered` is what the next broadcast brings. */
  method VisitSlot<T>(slot: Slot, shared: set<nat>, m: Memory<T>, rank: nat, delivered: T,
                      ghost w: Walk, ghost owner: map<Name, nat>, ghost value: map<Name, T>)
    returns (outcome: Outcome, after: Memory<T>)
    requires slot.state in m.names && slot.state in w.names && w.outcome.Running?
    requires Follows(w, m, owner, value, rank) && Brings(w, slot, shared, delivered, owner, value, rank)
    ensures outcome == Visit(w, slot, shared).outcome
    ensures Follows(Visit(w, slot, shared), after, owner, value, rank)
  {
    hide *;
    if !slot.isMeta {
      FollowsSkip(w, m, slot, shared, owner, value, rank);
      return Running, m.(out := m.out + [None]);
    }
    if m.names[slot.state] == [] {
      FollowsNoName(w, m, slot, shared, owner, value, rank);
      return NoNameLeft(slot.state), m;
    }
    var p := m.names[slot.state][0];
    var names := NextNames(m, slot.state);
    if !slot.isParam && p !in m.states {
      FollowsMissing(w, m, slot, shared, owner, value, rank);
      return NotPersistent(p), m.(names := names);
    }
    if slot.state in shared && slot.state in m.made {
      FollowsShared(w, m, slot, shared, owner, value, rank);
      return Running, m.(names := names, states := m.states - {p}, out := m.out + [Some(m.made[slot.state])]);
    }
    if p !in m.states {
      FollowsMissing(w, m, slot, shared, owner, value, rank);
      return NotLoaded(p), m.(names := names);
    }
    var states, sync := CreateAndSync(m.states, p, rank, delivered);
    SyncIsRight(w, m, slot, shared, delivered, sync, owner, value, rank);
    FollowsCreate(w, m, slot, shared, sync, owner, value, rank);
    var made := if slot.state in shared then m.made[slot.state := sync.data] else m.made;
    outcome, after := Running, Memory(names, states, made, m.out + [Some(sync.data)], m.syncs + [sync]);
  }

  lemma AtStart<T>(m: Memory<T>, slots: seq<Slot>, shared: set<nat>,
                   owner: map<Name, nat>, value: map<Name, T>, rank: nat)
    requires Agrees(m.states, owner, value, rank) && m.made == map[] && m.out == [] && m.syncs == []
    ensures var w := Start(m.names, owner.Keys);
            w.names == m.names && w.outcome.Running? && WalkOf(w, slots[..0], shared) == w
            && Follows(w, m, owner, value, rank)
  {
  }

  lemma NextVisit(start: Walk, slots: seq<Slot>, shared: set<nat>, i: nat)
    requires i < |slots| && forall k :: 0 <= k < |slots| ==> slots[k].state in start.names
    requires WalkOf(start, slots[..i], shared).outcome.Running?
    ensures var w := WalkOf(start, slots[..i], shared);
            slots[i].state in w.names && WalkOf(start, slots[..i + 1], shared) == Visit(w, slots[i], shared)
            && Visit(w, slots[i], shared).synced <= WalkOf(start, slots, shared).synced
  {
    assert slots[..i + 1][..i] == slots[..i];
    SyncedGrows(start, slots, shared, i + 1);
    hide Visit;
  }

  /** Broadcasts of other ranks bring the checkpoint's values. */
  ghost predicate Delivers<T>(deliver: nat -> T, names: seq<Name>, owner: map<Name, nat>, value: map<Name, T>, rank: nat) {
    forall k: nat :: k < |names| && names[k] in owner && names[k] in value && owner[names[k]] != rank ==>
      deliver(k) == value[names[k]]
  }

  lemma DeliversNext<T>(deliver: nat -> T, names: seq<Name>, owner: map<Name, nat>, value: map<Name, T>, rank: nat,
                        w: Walk, slot: Slot, shared: set<nat>)
    requires Delivers(deliver, names, owner, value, rank)
    requires slot.state in w.names && Visit(w, slot, shared).synced <= names
    ensures Brings(w, slot, shared, deliver(|w.synced|), owner, value, rank)
  {
    hide Visit;
  }

  /** On every rank initialisation ends in the same way after the same broadcasts, and fills every slot with the
    owner's value, when each broadcast of another rank brings that value. */
  method InitModules<T>(states0: map<Name, State<T>>, names0: map<nat, seq<Name>>, shared: set<nat>, slots: seq<Slot>,
                        rank: nat, deliver: nat -> T, ghost owner: map<Name, nat>, ghost value: map<Name, T>)
    returns (outcome: Outcome, out: seq<Option<T>>, syncs: seq<Sync<T>>)
    requires Agrees(states0, owner, value, rank) && forall i :: 0 <= i < |slots| ==> slots[i].state in names0
    requires Delivers(deliver, WalkOf(Start(names0, owner.Keys), slots, shared).synced, owner, value, rank)
    ensures var w := WalkOf(Start(names0, owner.Keys), slots, shared);
            && outcome == w.outcome
            && Filled(out, w.got, value)
            && Synced(syncs, w.synced, owner, value)
  {
    hide *;
    ghost var start := Start(names0, owner.Keys);
    var m := Memory(names0, states0, map[], [], []);
    outcome := Running;
    AtStart(m, slots, shared, owner, value, rank);
    for i := 0 to |slots|
      invariant outcome.Running? && outcome == WalkOf(start, slots[..i], shared).outcome
      invariant Follows(WalkOf(start, slots[..i], shared), m, owner, value, rank)
    {
      ghost var w := WalkOf(start, slots[..i], shared);
      NextVisit(start, slots, shared, i);
      FollowsMeans(w, m, owner, value, rank);
      DeliversNext(deliver, WalkOf(start, slots, shared).synced, owner, value, rank, w, slots[i], shared);
      outcome, m := VisitSlot(slots[i], shared, m, rank, deliver(|m.syncs|), w, owner, value);
      if !outcome.Running? {
        WalkStops(start, slots, shared, i + 1);
        FollowsMeans(Visit(w, slots[i], shared), m, owner, value, rank);
        return outcome, m.out, m.syncs;
      }
    }
    assert slots[..|slots|] == slots;
    FollowsMeans(WalkOf(start, slots, shared), m, owner, value, rank);
    out, syncs := m.out, m.syncs;
  }

  // ---------------------------------------------------------------- all ranks together

  function Position(names: seq<Name>, p: Name): (k: nat)
    ensures p in names ==> k < |names| && names[k] == p
  {
    if names == [] || names[0] == p then 0 else 1 + Position(names[1..], p)
  }

  /** What a rank takes a parameter's value to be: its own, or what the broadcast brought. */
  function Effective<T>(owner: map<Name, nat>, value: map<Name, T>, rank: nat, names: seq<Name>, deliver: nat -> T): map<Name, T>
    requires owner.Keys == value.Keys
  {
    map p | p in value :: if owner[p] != rank && p in names then deliver(Position(names, p)) else value[p]
  }

  /** Whatever the broadcasts bring, `InitModules` can be called with the values they bring. */
  lemma AnyDelivery<T>(states: map<Name, State<T>>, owner: map<Name, nat>, value: map<Name, T>, rank: nat,
                       names0: map<nat, seq<Name>>, slots: seq<Slot>, shared: set<nat>, deliver: nat -> T)
    requires Agrees(states, owner, value, rank) && forall i :: 0 <= i < |slots| ==> slots[i].state in names0
    ensures var names := WalkOf(Start(names0, owner.Keys), slots, shared).synced;
            var seen := Effective(owner, value, rank, names, deliver);
            Agrees(states, owner, seen, rank) && Delivers(deliver, names, owner, seen, rank)
  {
    var w := WalkOf(Start(names0, owner.Keys), slots, shared);
    WalkUsesKeys(names0, owner.Keys, slots, shared);
    hide WalkOf;
    var seen := Effective(owner, value, rank, w.synced, deliver);
    assert seen.Keys == value.Keys;
    forall k: nat | k < |w.synced| && w.synced[k] in owner && w.synced[k] in seen && owner[w.synced[k]] != rank
      ensures deliver(k) == seen[w.synced[k]]
    {
      var j := Position(w.synced, w.synced[k]);
      assert j == k;
    }
  }

  /** A broadcast gives every rank the data of its source. */
  ghost predicate Transported<T>(syncs: seq<seq<Sync<T>>>, n: nat) {
    && (forall r :: 0 <= r < |syncs| ==> |syncs[r]| == n)
    && forall r, k :: 0 <= r < |syncs| && 0 <= k < n && syncs[r][k].src < |syncs| ==>
         syncs[r][k].data == syncs[syncs[r][k].src][k].data
  }

  lemma SyncedMeans<T>(syncs: seq<Sync<T>>, names: seq<Name>, owner: map<Name, nat>, value: map<Name, T>, k: nat)
    requires Synced(syncs, names, owner, value) && k < |names|
    ensures |syncs| == |names| && names[k] in owner && names[k] in value
    ensures syncs[k] == Sync(owner[names[k]], value[names[k]])
  {
  }

  /** No assumption on the data is left: when every rank runs `InitModules` and broadcasts do what broadcasts do,
    every slot of every rank holds the checkpoint's value. */
  lemma EveryRankIsFilled<T>(w: Walk, owner: map<Name, nat>, value: map<Name, T>, seen: seq<map<Name, T>>,
                             outs: seq<seq<Option<T>>>, syncs: seq<seq<Sync<T>>>, r: nat)
    requires Known(w, owner.Keys) && owner.Keys == value.Keys && |seen| == |outs| == |syncs| && r < |seen|
    requires forall p :: p in owner ==> owner[p] < |seen|
    requires forall q, p :: 0 <= q < |seen| && p in owner && owner[p] == q ==> p in seen[q] && seen[q][p] == value[p]
    requires forall q :: 0 <= q < |seen| ==> Filled(outs[q], w.got, seen[q]) && Synced(syncs[q], w.synced, owner, seen[q])
    requires Transported(syncs, |w.synced|)
    ensures Filled(outs[r], w.got, value) && Synced(syncs[r], w.synced, owner, value)
  {
    forall k | 0 <= k < |w.synced|
      ensures w.synced[k] in value && w.synced[k] in seen[r] && seen[r][w.synced[k]] == value[w.synced[k]]
    {
      SyncedMeans(syncs[r], w.synced, owner, seen[r], k);
      var src := owner[w.synced[k]];
      SyncedMeans(syncs[src], w.synced, owner, seen[src], k);
      assert syncs[r][k].data == syncs[src][k].data;
    }
    hide Transported;
  }

  /** The owners and values of a checkpoint that `world` ranks load. */
  function OwnersOf<T>(c: Checkpoint<T>, world: nat): map<Name, nat>
    requires c.Valid() && world > 0
  {
    AllReached(c.order, world);
    Owners(c, ChunkSize(|c.order|, world), |c.order|)
  }

  function ValuesOf<T>(c: Checkpoint<T>): map<Name, T>
    requires c.Valid()
  {
    Values(c, |c.order|)
  }

  function StatesOf<T>(c: Checkpoint<T>, world: nat, rank: nat): map<Name, State<T>>
    requires c.Valid() && world > 0
  {
    AllReached(c.order, world);
    StatesAfter(c, ChunkSize(|c.order|, world), rank, |c.order|)
  }

  lemma OwnersOfWorld<T>(c: Checkpoint<T>, world: nat, rank: nat)
    requires c.Valid() && world > 0
    ensures Agrees(StatesOf(c, world, rank), OwnersOf(c, world), ValuesOf(c), rank)
    ensures forall p :: p in OwnersOf(c, world) ==> OwnersOf(c, world)[p] < world
  {
    AllReached(c.order, world);
    RanksAgree(c, ChunkSize(|c.order|, world), rank, |c.order|);
    forall p | p in OwnersOf(c, world) ensures OwnersOf(c, world)[p] < world {
      OwnersExist(c, world, |c.order|, p);
    }
  }

  /** What rank `q` can be taken to see, given what its broadcasts bring. */
  function SeenBy<T>(c: Checkpoint<T>, world: nat, q: nat, synced: seq<Name>, deliver: nat -> T): map<Name, T>
    requires c.Valid() && world > 0
  {
    OwnersOfWorld(c, world, q);
    Effective(OwnersOf(c, world), ValuesOf(c), q, synced, deliver)
  }

  function WalkFrom<T>(c: Checkpoint<T>, world: nat, names0: map<nat, seq<Name>>, slots: seq<Slot>, shared: set<nat>): Walk
    requires c.Valid() && world > 0 && forall i :: 0 <= i < |slots| ==> slots[i].state in names0
  {
    WalkOf(Start(names0, OwnersOf(c, world).Keys), slots, shared)
  }

  /** What rank `q` has loaded lets it initialise its modules, whatever broadcasts bring. */
  lemma CanInitialise<T>(c: Checkpoint<T>, world: nat, q: nat, names0: map<nat, seq<Name>>, slots: seq<Slot>,
                         shared: set<nat>, deliver: nat -> T)
    requires c.Valid() && world > 0 && forall i :: 0 <= i < |slots| ==> slots[i].state in names0
    ensures var synced := WalkFrom(c, world, names0, slots, shared).synced;
            && Agrees(StatesOf(c, world, q), OwnersOf(c, world), SeenBy(c, world, q, synced, deliver), q)
            && Delivers(deliver, synced, OwnersOf(c, world), SeenBy(c, world, q, synced, deliver), q)
  {
    OwnersOfWorld(c, world, q);
    AnyDelivery(StatesOf(c, world, q), OwnersOf(c, world), ValuesOf(c), q, names0, slots, shared, deliver);
    hide WalkOf, Agrees, Delivers, Effective;
  }

  /** Rank `q` has initialised its modules, as `InitModules` does. */
  ghost predicate Initialised<T>(c: Checkpoint<T>, world: nat, q: nat, w: Walk, deliver: nat -> T,
                                 out: seq<Option<T>>, syncs: seq<Sync<T>>)
    requires c.Valid() && world > 0
  {
    && Filled(out, w.got, SeenBy(c, world, q, w.synced, deliver))
    && Synced(syncs, w.synced, OwnersOf(c, world), SeenBy(c, world, q, w.synced, deliver))
  }

  lemma AgreesKeys<T>(states: map<Name, State<T>>, owner: map<Name, nat>, value: map<Name, T>, rank: nat)
    requires Agrees(states, owner, value, rank)
    ensures owner.Keys == value.Keys
  {
  }

  lemma InitialisedIs<T>(c: Checkpoint<T>, world: nat, q: nat, w: Walk, deliver: nat -> T,
                         out: seq<Option<T>>, syncs: seq<Sync<T>>)
    requires c.Valid() && world > 0 && Initialised(c, world, q, w, deliver, out, syncs)
    ensures Filled(out, w.got, SeenBy(c, world, q, w.synced, deliver))
    ensures Synced(syncs, w.synced, OwnersOf(c, world), SeenBy(c, world, q, w.synced, deliver))
  {
  }

  /** A rank sees its own parameters as they are. */
  lemma SeenOwn<T>(c: Checkpoint<T>, world: nat, q: nat, synced: seq<Name>, deliver: nat -> T, p: Name)
    requires c.Valid() && world > 0 && p in OwnersOf(c, world) && OwnersOf(c, world)[p] == q
    ensures var seen := SeenBy(c, world, q, synced, deliver);
            p in seen && p in ValuesOf(c) && seen[p] == ValuesOf(c)[p]
  {
    OwnersOfWorld(c, world, q);
    AgreesKeys(StatesOf(c, world, q), OwnersOf(c, world), ValuesOf(c), q);
    hide OwnersOf, ValuesOf, Agrees, StatesOf;
    assert p in OwnersOf(c, world).Keys;
  }

  lemma CheckpointFacts<T>(c: Checkpoint<T>, names0: map<nat, seq<Name>>, slots: seq<Slot>, shared: set<nat>,
                           world: nat, r: nat)
    requires c.Valid() && world > 0 && forall i :: 0 <= i < |slots| ==> slots[i].state in names0
    ensures Known(WalkFrom(c, world, names0, slots, shared), OwnersOf(c, world).Keys)
    ensures OwnersOf(c, world).Keys == ValuesOf(c).Keys
    ensures forall p :: p in OwnersOf(c, world) ==> OwnersOf(c, world)[p] < world
  {
    OwnersOfWorld(c, world, r);
    WalkUsesKeys(names0, OwnersOf(c, world).Keys, slots, shared);
    AgreesKeys(StatesOf(c, world, r), OwnersOf(c, world), ValuesOf(c), r);
    hide WalkOf, Known, Agrees, OwnersOf, ValuesOf, StatesOf;
  }

  /** Every rank has initialised its modules, and broadcasts brought every rank their source's data. */
  ghost predicate RanksInitialised<T>(c: Checkpoint<T>, names0: map<nat, seq<Name>>, slots: seq<Slot>, shared: set<nat>,
                                      delivers: seq<nat -> T>, outs: seq<seq<Option<T>>>, syncs: seq<seq<Sync<T>>>)
    requires c.Valid() && 0 < |delivers| == |outs| == |syncs|
  {
    && (forall i :: 0 <= i < |slots| ==> slots[i].state in names0)
    && var w := WalkFrom(c, |delivers|, names0, slots, shared);
       && (forall q :: 0 <= q < |delivers| ==> Initialised(c, |delivers|, q, w, delivers[q], outs[q], syncs[q]))
       && Transported(syncs, |w.synced|)
  }

  /** From the files to the modules: when every rank has loaded its share of the checkpoint and initialised its modules,
    and broadcasts brought every rank their source's data, every slot of every rank holds the checkpoint's value. */
  lemma CheckpointFillsRanks<T>(c: Checkpoint<T>, names0: map<nat, seq<Name>>, slots: seq<Slot>, shared: set<nat>,
                                delivers: seq<nat -> T>, outs: seq<seq<Option<T>>>, syncs: seq<seq<Sync<T>>>, r: nat)
    requires c.Valid() && r < |delivers| == |outs| == |syncs|
    requires RanksInitialised(c, names0, slots, shared, delivers, outs, syncs)
    ensures var w := WalkFrom(c, |delivers|, names0, slots, shared);
            Filled(outs[r], w.got, ValuesOf(c)) && Synced(syncs[r], w.synced, OwnersOf(c, |delivers|), ValuesOf(c))
  {
    var world := |delivers|;
    var owner, value, w := OwnersOf(c, world), ValuesOf(c), WalkFrom(c, world, names0, slots, shared);
    CheckpointFacts(c, names0, slots, shared, world, r);
    hide *;
    var seen := seq(world, q requires 0 <= q < world => SeenBy(c, world, q, w.synced, delivers[q]));
    forall q, p | 0 <= q < world && p in owner && owner[p] == q ensures p in seen[q] && seen[q][p] == value[p] {
      SeenOwn(c, world, q, w.synced, delivers[q], p);
    }
    forall q | 0 <= q < world ensures Filled(outs[q], w.got, seen[q]) && Synced(syncs[q], w.synced, owner, seen[q]) {
      InitialisedIs(c, world, q, w, delivers[q], outs[q], syncs[q]);
    }
    EveryRankIsFilled(w, owner, value, seen, outs, syncs, r);
  }
}
