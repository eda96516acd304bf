/** Which parameter each slot gets in the walk over the modules, which parameters are broadcast, and when the walk fails. */
module ParallelSlots {
  import opened ParallelLoad
  import opened ParallelInit
  import opened Prelude

  /** How many of the first `n` slots are on meta and hold state `s`. */
  function Visits(slots: seq<Slot>, n: nat, s: nat): nat
    requires n <= |slots|
  {
    if n == 0 then 0 else Visits(slots, n - 1, s) + if slots[n - 1].isMeta && slots[n - 1].state == s then 1 else 0
  }

  /** Slot `i` takes the next of its state's names off the list. */
  ghost predicate Takes(names: map<nat, seq<Name>>, slots: seq<Slot>, i: nat, p: Name)
    requires i < |slots|
  {
    var s := slots[i].state;
    slots[i].isMeta && s in names && Visits(slots, i, s) < |names[s]| && names[s][Visits(slots, i, s)] == p
  }

  /** Parameter `p` was loaded and none of the first `n` slots has taken its name. */
  ghost predicate IsLeft(names: map<nat, seq<Name>>, keys: set<Name>, slots: seq<Slot>, n: nat, p: Name)
    requires n <= |slots|
  {
    p in keys && forall j :: 0 <= j < n ==> !Takes(names, slots, j, p)
  }

  /** The slot's tensor was made for an earlier slot of its state. */
  predicate Reuses(slots: seq<Slot>, shared: set<nat>, i: nat)
    requires i < |slots|
  {
    slots[i].state in shared && Visits(slots, i, slots[i].state) > 0
  }

  /** Slot `i` succeeds and gets `got`: nothing if it is not on meta, otherwise the parameter of its own name, or of the
    first name of its state when another slot made the tensor. */
  ghost predicate Gets(names: map<nat, seq<Name>>, keys: set<Name>, slots: seq<Slot>, shared: set<nat>, i: nat, got: Option<Name>)
    requires i < |slots|
  {
    if !slots[i].isMeta then got == None
    else
      exists p :: Takes(names, slots, i, p)
        && (IsLeft(names, keys, slots, i, p) || (slots[i].isParam && Reuses(slots, shared, i)))
        && got == Some(if Reuses(slots, shared, i) then names[slots[i].state][0] else p)
  }

  /** Why slot `i` fails: its state has no name left; a buffer's name was not loaded; or that of a parameter which no
    earlier slot made was not. */
  ghost predicate Fails(names: map<nat, seq<Name>>, keys: set<Name>, slots: seq<Slot>, shared: set<nat>, i: nat, why: Outcome)
    requires i < |slots|
  {
    match why
    case Running => false
    case NoNameLeft(s) =>
      slots[i].isMeta && slots[i].state == s && s in names && Visits(slots, i, s) == |names[s]|
    case NotPersistent(p) => Takes(names, slots, i, p) && !slots[i].isParam && !IsLeft(names, keys, slots, i, p)
    case NotLoaded(p) =>
      Takes(names, slots, i, p) && slots[i].isParam && !Reuses(slots, shared, i) && !IsLeft(names, keys, slots, i, p)
  }

  /** The parameters that slots make, in the order of the slots. */
  function Made(slots: seq<Slot>, shared: set<nat>, got: seq<Option<Name>>): seq<Name>
    requires |got| <= |slots|
  {
    if got == [] then []
    else
      var i := |got| - 1;
      Made(slots, shared, got[..i]) + if got[i].Some? && !Reuses(slots, shared, i) then [got[i].value] else []
  }

  /** Every state has the names that its slots have not taken. */
  ghost predicate NamesLeft(names: map<nat, seq<Name>>, slots: seq<Slot>, left: map<nat, seq<Name>>, n: nat)
    requires n <= |slots|
  {
    && left.Keys == names.Keys
    && forall s :: s in names ==> Visits(slots, n, s) <= |names[s]| && left[s] == names[s][Visits(slots, n, s)..]
  }

  /** The shared states met so far, with their first names. */
  ghost predicate FirstNames(names: map<nat, seq<Name>>, slots: seq<Slot>, shared: set<nat>, first: map<nat, Name>, n: nat)
    requires n <= |slots|
  {
    && (forall s :: s in first <==> s in names && s in shared && Visits(slots, n, s) > 0)
    && (forall s :: s in first ==> s in names && |names[s]| > 0 && first[s] == names[s][0])
  }

  ghost predicate AllGet(names: map<nat, seq<Name>>, keys: set<Name>, slots: seq<Slot>, shared: set<nat>, got: seq<Option<Name>>)
  {
    |got| <= |slots| && forall i :: 0 <= i < |got| ==> Gets(names, keys, slots, shared, i, got[i])
  }

  ghost predicate AllLeft(names: map<nat, seq<Name>>, keys: set<Name>, slots: seq<Slot>, left: set<Name>, n: nat)
    requires n <= |slots|
  {
    forall p :: p in left <==> IsLeft(names, keys, slots, n, p)
  }

  /** The walk over all slots: what the slots got, up to the first that fails. */
  ghost predicate WalkIs(names: map<nat, seq<Name>>, keys: set<Name>, slots: seq<Slot>, shared: set<nat>, w: Walk) {
    && AllGet(names, keys, slots, shared, w.got) && w.synced == Made(slots, shared, w.got)
    && if w.outcome.Running? then |w.got| == |slots|
       else |w.got| < |slots| && Fails(names, keys, slots, shared, |w.got|, w.outcome)
  }

  /** The variables of a walk that still runs after `n` slots. */
  ghost predicate Underway(names: map<nat, seq<Name>>, keys: set<Name>, slots: seq<Slot>, shared: set<nat>, w: Walk, n: nat)
    requires n <= |slots|
  {
    && w.outcome.Running? && |w.got| == n && AllGet(names, keys, slots, shared, w.got)
    && NamesLeft(names, slots, w.names, n) && FirstNames(names, slots, shared, w.first, n)
    && AllLeft(names, keys, slots, w.left, n) && w.synced == Made(slots, shared, w.got)
  }

  lemma NothingVisited(names: map<nat, seq<Name>>, keys: set<Name>, slots: seq<Slot>, shared: set<nat>)
    ensures Underway(names, keys, slots, shared, Start(names, keys), 0)
  {
  }

  lemma LeftNext(names: map<nat, seq<Name>>, keys: set<Name>, slots: seq<Slot>, n: nat, p: Name)
    requires n < |slots|
    ensures IsLeft(names, keys, slots, n + 1, p) <==> IsLeft(names, keys, slots, n, p) && !Takes(names, slots, n, p)
  {
    hide Takes;
  }

  lemma MadeNext(slots: seq<Slot>, shared: set<nat>, got: seq<Option<Name>>, g: Option<Name>)
    requires |got| < |slots|
    ensures Made(slots, shared, got + [g])
            == Made(slots, shared, got) + if g.Some? && !Reuses(slots, shared, |got|) then [g.value] else []
  {
    assert (got + [g])[..|got|] == got;
  }

  /** What the next slot takes, in terms of the variables. */
  lemma TakesNext(names: map<nat, seq<Name>>, keys: set<Name>, slots: seq<Slot>, shared: set<nat>, w: Walk, n: nat)
    requires n < |slots| && slots[n].state in names && Underway(names, keys, slots, shared, w, n) && slots[n].isMeta
    ensures slots[n].state in w.names
    ensures w.names[slots[n].state] == [] <==> Visits(slots, n, slots[n].state) == |names[slots[n].state]|
    ensures w.names[slots[n].state] != [] ==> Takes(names, slots, n, w.names[slots[n].state][0])
    ensures forall p :: Takes(names, slots, n, p) ==> w.names[slots[n].state] != [] && p == w.names[slots[n].state][0]
    ensures slots[n].state in shared && slots[n].state in w.first <==> Reuses(slots, shared, n)
  {
    hide Gets, IsLeft;
  }

  lemma VisitsNext(slots: seq<Slot>, n: nat, s: nat)
    requires n < |slots|
    ensures Visits(slots, n + 1, s) == Visits(slots, n, s) + if slots[n].isMeta && slots[n].state == s then 1 else 0
  {
  }

  lemma GetsNext(names: map<nat, seq<Name>>, keys: set<Name>, slots: seq<Slot>, shared: set<nat>, w: Walk, n: nat)
    requires n < |slots| && slots[n].state in names && Underway(names, keys, slots, shared, w, n)
    requires slots[n].state in w.names && Visit(w, slots[n], shared).outcome.Running?
    ensures |Visit(w, slots[n], shared).got| == n + 1
    ensures Gets(names, keys, slots, shared, n, Visit(w, slots[n], shared).got[n])
  {
    if slots[n].isMeta {
      TakesNext(names, keys, slots, shared, w, n);
      hide Takes, IsLeft, Visits, Reuses;
      var p := w.names[slots[n].state][0];
      assert Takes(names, slots, n, p);
    }
  }

  lemma VisitTakes(w: Walk, slot: Slot, shared: set<nat>)
    requires slot.state in w.names && Visit(w, slot, shared).outcome.Running? && w.outcome.Running?
    ensures var after := Visit(w, slot, shared).names;
            if slot.isMeta then w.names[slot.state] != [] && after == w.names[slot.state := w.names[slot.state][1..]]
            else after == w.names
  {
  }

  lemma NamesLeftNext(names: map<nat, seq<Name>>, slots: seq<Slot>, w: Walk, shared: set<nat>, n: nat)
    requires n < |slots| && slots[n].state in w.names && NamesLeft(names, slots, w.names, n)
    requires Visit(w, slots[n], shared).outcome.Running? && w.outcome.Running?
    ensures NamesLeft(names, slots, Visit(w, slots[n], shared).names, n + 1)
  {
    var after := Visit(w, slots[n], shared);
    VisitTakes(w, slots[n], shared);
    hide Visit, Visits;
    forall s | s in names
      ensures Visits(slots, n + 1, s) <= |names[s]| && after.names[s] == names[s][Visits(slots, n + 1, s)..]
    {
      VisitsNext(slots, n, s);
    }
  }

  lemma FirstNamesNext(names: map<nat, seq<Name>>, slots: seq<Slot>, w: Walk, shared: set<nat>, n: nat)
    requires n < |slots| && slots[n].state in w.names && slots[n].state in names
    requires NamesLeft(names, slots, w.names, n) && FirstNames(names, slots, shared, w.first, n)
    requires Visit(w, slots[n], shared).outcome.Running? && w.outcome.Running?
    ensures FirstNames(names, slots, shared, Visit(w, slots[n], shared).first, n + 1)
  {
    var after, s := Visit(w, slots[n], shared), slots[n].state;
    forall t ensures Visits(slots, n + 1, t) == Visits(slots, n, t) + if slots[n].isMeta && s == t then 1 else 0 {
      VisitsNext(slots, n, t);
    }
    assert w.names[s] == names[s][Visits(slots, n, s)..];
    hide Visits;
  }

  lemma AllLeftNext(names: map<nat, seq<Name>>, keys: set<Name>, slots: seq<Slot>, shared: set<nat>, w: Walk, n: nat)
    requires n < |slots| && slots[n].state in names && Underway(names, keys, slots, shared, w, n)
    requires slots[n].state in w.names && Visit(w, slots[n], shared).outcome.Running?
    ensures AllLeft(names, keys, slots, Visit(w, slots[n], shared).left, n + 1)
  {
    if slots[n].isMeta {
      TakesNext(names, keys, slots, shared, w, n);
    } else {
      assert forall p :: !Takes(names, slots, n, p);
    }
    var after := Visit(w, slots[n], shared);
    forall p ensures p in after.left <==> IsLeft(names, keys, slots, n + 1, p) {
      LeftNext(names, keys, slots, n, p);
      hide Takes, IsLeft, NamesLeft, FirstNames, AllGet, Made, Reuses;
    }
  }

  lemma SyncedNext(names: map<nat, seq<Name>>, keys: set<Name>, slots: seq<Slot>, shared: set<nat>, w: Walk, n: nat)
    requires n < |slots| && slots[n].state in names && Underway(names, keys, slots, shared, w, n)
    requires slots[n].state in w.names && Visit(w, slots[n], shared).outcome.Running?
    ensures var after := Visit(w, slots[n], shared);
            after.got == w.got + [after.got[n]] && after.synced == Made(slots, shared, after.got)
  {
    if slots[n].isMeta {
      TakesNext(names, keys, slots, shared, w, n);
    }
    hide Takes, IsLeft, NamesLeft, FirstNames, AllGet, AllLeft, Made, Reuses;
    var g := Visit(w, slots[n], shared).got[n];
    MadeNext(slots, shared, w.got, g);
  }

  /** A slot that succeeds. */
  lemma VisitSucceeds(names: map<nat, seq<Name>>, keys: set<Name>, slots: seq<Slot>, shared: set<nat>, w: Walk, n: nat)
    requires n < |slots| && slots[n].state in names && Underway(names, keys, slots, shared, w, n)
    requires slots[n].state in w.names && Visit(w, slots[n], shared).outcome.Running?
    ensures Underway(names, keys, slots, shared, Visit(w, slots[n], shared), n + 1)
  {
    GetsNext(names, keys, slots, shared, w, n);
    AllLeftNext(names, keys, slots, shared, w, n);
    SyncedNext(names, keys, slots, shared, w, n);
    NamesLeftNext(names, slots, w, shared, n);
    FirstNamesNext(names, slots, w, shared, n);
    hide Visit, NamesLeft, FirstNames, AllLeft, Made, Gets;
  }

  /** A slot that fails. */
  lemma VisitFails(names: map<nat, seq<Name>>, keys: set<Name>, slots: seq<Slot>, shared: set<nat>, w: Walk, n: nat)
    requires n < |slots| && slots[n].state in names && Underway(names, keys, slots, shared, w, n)
    requires slots[n].state in w.names && !Visit(w, slots[n], shared).outcome.Running?
    ensures Visit(w, slots[n], shared).got == w.got
    ensures Fails(names, keys, slots, shared, n, Visit(w, slots[n], shared).outcome)
  {
    if slots[n].isMeta {
      TakesNext(names, keys, slots, shared, w, n);
    }
    hide Takes, IsLeft, Visits, Reuses, Gets, Made;
  }

  lemma FailedSyncs(w: Walk, slot: Slot, shared: set<nat>)
    requires slot.state in w.names && !Visit(w, slot, shared).outcome.Running? && w.outcome.Running?
    ensures Visit(w, slot, shared).synced == w.synced
  {
  }

  lemma FailedWalk(names: map<nat, seq<Name>>, keys: set<Name>, slots: seq<Slot>, shared: set<nat>, w: Walk, n: nat)
    requires n < |slots| && slots[n].state in names && Underway(names, keys, slots, shared, w, n)
    requires slots[n].state in w.names && !Visit(w, slots[n], shared).outcome.Running?
    ensures WalkIs(names, keys, slots, shared, Visit(w, slots[n], shared))
  {
    VisitFails(names, keys, slots, shared, w, n);
    FailedSyncs(w, slots[n], shared);
    hide Visit, Fails, AllGet, Made, NamesLeft, FirstNames, AllLeft;
  }

  lemma {:induction false} WalkProceeds(names: map<nat, seq<Name>>, keys: set<Name>, slots: seq<Slot>, shared: set<nat>, n: nat)
    requires n <= |slots| && forall i :: 0 <= i < |slots| ==> slots[i].state in names
    ensures var w := WalkOf(Start(names, keys), slots[..n], shared);
            if w.outcome.Running? then Underway(names, keys, slots, shared, w, n) else WalkIs(names, keys, slots, shared, w)
  {
    hide Visit, Underway, WalkIs;
    if n == 0 {
      NothingVisited(names, keys, slots, shared);
    } else {
      WalkProceeds(names, keys, slots, shared, n - 1);
      assert slots[..n][..n - 1] == slots[..n - 1];
      var w := WalkOf(Start(names, keys), slots[..n - 1], shared);
      if w.outcome.Running? {
        if Visit(w, slots[n - 1], shared).outcome.Running? {
          VisitSucceeds(names, keys, slots, shared, w, n - 1);
        } else {
          FailedWalk(names, keys, slots, shared, w, n - 1);
        }
      }
    }
  }

  /** The walk fails exactly at the first slot that has a reason to; every slot before gets the parameter of its own name, or
    of its state's first name; and the parameters synchronised are those that slots make, in order. */
  lemma WalkLaw(names: map<nat, seq<Name>>, keys: set<Name>, slots: seq<Slot>, shared: set<nat>)
    requires forall i :: 0 <= i < |slots| ==> slots[i].state in names
    ensures WalkIs(names, keys, slots, shared, WalkOf(Start(names, keys), slots, shared))
  {
    WalkProceeds(names, keys, slots, shared, |slots|);
    assert slots[..|slots|] == slots;
    hide WalkOf, AllGet, Made, NamesLeft, FirstNames, AllLeft;
  }

  lemma FirstPlace(pairs: seq<(nat, Name)>, names: map<nat, seq<Name>>, j: nat)
    requires InOrder(names, pairs, |pairs|) && j < |pairs| && forall k :: 0 <= k < j ==> pairs[k].0 != pairs[j].0
    ensures var s := pairs[j].0;
            s in names && |names[s]| == |Places(pairs, s, |pairs|)| > 0 && names[s][0] == pairs[j].1
  {
    assert Places(pairs, pairs[j].0, j) == {};
    assert Stands(names, pairs, j);
  }

  lemma WalkGets(names: map<nat, seq<Name>>, keys: set<Name>, slots: seq<Slot>, shared: set<nat>, w: Walk, i: nat)
    requires WalkIs(names, keys, slots, shared, w) && i < |w.got| && i < |slots|
    ensures Gets(names, keys, slots, shared, i, w.got[i])
  {
    hide Gets;
  }

  lemma GetsFirst(names: map<nat, seq<Name>>, keys: set<Name>, slots: seq<Slot>, shared: set<nat>, i: nat, got: Option<Name>)
    requires i < |slots| && slots[i].isMeta && slots[i].state in names && Gets(names, keys, slots, shared, i, got)
    requires |names[slots[i].state]| > 0 && (slots[i].state in shared <==> |names[slots[i].state]| > 1)
    ensures got == Some(names[slots[i].state][0])
  {
    hide IsLeft, Visits;
  }

  /** With the names in which `pairs` list them, a slot on meta gets the parameter of the first name of its state. */
  lemma SlotGetsFirstName(pairs: seq<(nat, Name)>, names: map<nat, seq<Name>>, shared: set<nat>, keys: set<Name>,
                          slots: seq<Slot>, i: nat, j: nat)
    requires InOrder(names, pairs, |pairs|) && forall s: nat :: s in shared <==> |Places(pairs, s, |pairs|)| > 1
    requires forall i :: 0 <= i < |slots| ==> slots[i].state in names
    requires i < |WalkOf(Start(names, keys), slots, shared).got| && i < |slots| && slots[i].isMeta
    requires j < |pairs| && pairs[j].0 == slots[i].state && forall k :: 0 <= k < j ==> pairs[k].0 != pairs[j].0
    ensures WalkOf(Start(names, keys), slots, shared).got[i] == Some(pairs[j].1)
  {
    hide WalkOf, InOrder, Places, Gets, WalkIs, Visits, Takes, Reuses;
    var w := WalkOf(Start(names, keys), slots, shared);
    WalkLaw(names, keys, slots, shared);
    FirstPlace(pairs, names, j);
    WalkGets(names, keys, slots, shared, w, i);
    GetsFirst(names, keys, slots, shared, i, w.got[i]);
  }

  lemma FilledLength<T>(out: seq<Option<T>>, got: seq<Option<Name>>, value: map<Name, T>)
    requires Filled(out, got, value)
    ensures |out| == |got|
  {
  }

  lemma FilledAt<T>(out: seq<Option<T>>, got: seq<Option<Name>>, value: map<Name, T>, i: nat, p: Name)
    requires Filled(out, got, value) && i < |got| && got[i] == Some(p)
    ensures i < |out| && p in value && out[i] == Some(value[p])
  {
  }

  /** What `CheckpointFillsRanks` puts into the slots of a module whose states have the names in `pairs`: every slot on meta,
    on every rank, ends with the checkpoint's value for the first name of its state. */
  lemma SlotsHoldCheckpoint<T>(c: Checkpoint<T>, pairs: seq<(nat, Name)>, names: map<nat, seq<Name>>, shared: set<nat>,
                               slots: seq<Slot>, delivers: seq<nat -> T>, outs: seq<seq<Option<T>>>,
                               syncs: seq<seq<Sync<T>>>, r: nat, i: nat, j: nat, f: nat)
    requires c.Valid() && r < |delivers| == |outs| == |syncs|
    requires InOrder(names, pairs, |pairs|) && forall s: nat :: s in shared <==> |Places(pairs, s, |pairs|)| > 1
    requires RanksInitialised(c, names, slots, shared, delivers, outs, syncs)
    requires i < |outs[r]| && i < |slots| && slots[i].isMeta && j < |pairs| && c.Lists(f, pairs[j].1)
    requires pairs[j].0 == slots[i].state && forall k :: 0 <= k < j ==> pairs[k].0 != pairs[j].0
    ensures outs[r][i] == Some(c.contents[c.order[f]][pairs[j].1])
  {
    var w := WalkFrom(c, |delivers|, names, slots, shared);
    CheckpointFillsRanks(c, names, slots, shared, delivers, outs, syncs, r);
    assert i < |w.got| by { FilledLength(outs[r], w.got, ValuesOf(c)); }
    SlotGetsFirstName(pairs, names, shared, OwnersOf(c, |delivers|).Keys, slots, i, j);
    AllReached(c.order, |delivers|);
    OwnerHasFile(c, ChunkSize(|c.order|, |delivers|), |c.order|, f, pairs[j].1);
    FilledAt(outs[r], w.got, ValuesOf(c), i, pairs[j].1);
  }
}
