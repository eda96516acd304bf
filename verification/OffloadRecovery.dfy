/** What comes back of the tensors that were pushed: those of a group that was copied out come back as the copy
  that has their key, all others as they were. */
module OffloadRecovery {
  import opened OffloadWindows
  import opened OffloadState

  /** The tensors of group `g` have been copied out, to be recovered from the copies. */
  ghost predicate Taken(s: Store, g: nat) {
    g in s.mapping && InTime(s, g)
  }

  function OfGroup(ts: map<Tag, Tensor>, g: nat): map<Tag, Tensor> {
    map tag | tag in ts && tag.group == g :: ts[tag]
  }

  /** The group comes back as copies, one for each key, of its own tensors. */
  ghost predicate Recovered(pushed: map<Tag, Tensor>, due: map<Tag, Tensor>, g: nat) {
    exists copies :: IsCopyOf(OfGroup(pushed, g), copies) && OfGroup(due, g) == FromCopies(OfGroup(pushed, g), g, copies)
  }

  ghost predicate AsPushed(pushed: map<Tag, Tensor>, due: map<Tag, Tensor>, g: nat) {
    OfGroup(due, g) == OfGroup(pushed, g)
  }

  /** How what is due back in a forward pass relates to what was pushed. */
  ghost predicate Accords(s: Store, pushed: map<Tag, Tensor>, due: map<Tag, Tensor>) {
    due.Keys == pushed.Keys
    && forall g: nat :: if Taken(s, g) then Recovered(pushed, due, g) else AsPushed(pushed, due, g)
  }

  // ---------------------------------------------------------------- push

  lemma OtherGroup(ts: map<Tag, Tensor>, tag: Tag, t: Tensor, g: nat)
    requires tag.group != g
    ensures OfGroup(ts[tag := t], g) == OfGroup(ts, g)
  {
  }

  lemma OwnGroup(ts: map<Tag, Tensor>, tag: Tag, t: Tensor)
    ensures OfGroup(ts[tag := t], tag.group) == OfGroup(ts, tag.group)[tag := t]
  {
  }

  lemma SameGroups(pushed: map<Tag, Tensor>, due: map<Tag, Tensor>,
                   pushed': map<Tag, Tensor>, due': map<Tag, Tensor>, g: nat)
    requires OfGroup(pushed', g) == OfGroup(pushed, g) && OfGroup(due', g) == OfGroup(due, g)
    ensures Recovered(pushed', due', g) == Recovered(pushed, due, g)
    ensures AsPushed(pushed', due', g) == AsPushed(pushed, due, g)
  {
    hide OfGroup;
  }

  lemma PushAccords(s: Store, pushed: map<Tag, Tensor>, due: map<Tag, Tensor>, t: Tensor)
    requires Inv(s, due, Forward) && Accords(s, pushed, due)
    ensures var tag := Tag(s.current, s.tensorCount);
            Accords(Push(s, t), pushed[tag := t], due[tag := t])
  {
    CurrentGroupStays(s);
    hide Inv, InTime, Recovered, OfGroup;
    var tag, s' := Tag(s.current, s.tensorCount), Push(s, t);
    forall g: nat
      ensures if Taken(s', g) then Recovered(pushed[tag := t], due[tag := t], g)
              else AsPushed(pushed[tag := t], due[tag := t], g)
    {
      InTimeFrame(s, s', g);
      assert Taken(s', g) == Taken(s, g);
      if g == tag.group {
        OwnGroup(pushed, tag, t);
        OwnGroup(due, tag, t);
      } else {
        OtherGroup(pushed, tag, t, g);
        OtherGroup(due, tag, t, g);
        SameGroups(pushed, due, pushed[tag := t], due[tag := t], g);
      }
    }
  }

  // ---------------------------------------------------------------- forward commits

  lemma GroupWas(s: Store, due: map<Tag, Tensor>, g: nat)
    requires StateOk(s, due, Forward) && g !in s.mapping
    ensures GroupTensors(s.state, g) == OfGroup(due, g)
  {
    hide InTime;
    forall tag | tag in due && tag.group == g ensures tag in s.state && s.state[tag] == OnDevice(due[tag]) {
      assert Restorable(s, Forward, tag, due[tag]);
    }
    hide Restorable;
  }

  lemma RecoveredGroup(due: map<Tag, Tensor>, g: nat, copies: map<TensorKey, Tensor>)
    ensures OfGroup(FromCopies(due, g, copies), g) == FromCopies(OfGroup(due, g), g, copies)
  {
  }

  lemma CopiedGroup(s: Store, due: map<Tag, Tensor>, g: nat, s': Store)
    requires StateOk(s, due, Forward) && Offloads(s, g, s') && g !in s.mapping
    ensures IsCopyOf(OfGroup(due, g), CopiesOf(s', g))
    ensures OfGroup(FromCopies(due, g, CopiesOf(s', g)), g) == FromCopies(OfGroup(due, g), g, CopiesOf(s', g))
  {
    hide IsCopyOf, StateOk, OfGroup, FromCopies, GroupTensors;
    GroupWas(s, due, g);
    RecoveredGroup(due, g, CopiesOf(s', g));
  }

  lemma CopiedElsewhere(due: map<Tag, Tensor>, g: nat, copies: map<TensorKey, Tensor>, h: nat)
    requires h != g
    ensures OfGroup(FromCopies(due, g, copies), h) == OfGroup(due, h)
  {
  }

  lemma NoTags(pushed: map<Tag, Tensor>, due: map<Tag, Tensor>, g: nat)
    requires due.Keys == pushed.Keys
    ensures (forall tag :: tag in due ==> tag.group != g) ==> AsPushed(pushed, due, g)
  {
    if forall tag :: tag in due ==> tag.group != g {
      assert forall tag :: tag in pushed ==> tag in due.Keys;
      assert OfGroup(due, g) == map[] && OfGroup(pushed, g) == map[];
    }
  }

  lemma CopiedAccords(s: Store, pushed: map<Tag, Tensor>, due: map<Tag, Tensor>, g: nat, s': Store)
    requires StateOk(s, due, Forward) && Offloads(s, g, s') && g !in s.mapping && AsPushed(pushed, due, g)
    ensures Recovered(pushed, FromCopies(due, g, CopiesOf(s', g)), g)
  {
    CopiedGroup(s, due, g, s');
    hide StateOk, IsCopyOf, OfGroup, FromCopies, CopiesOf, Offloads;
  }

  lemma OffloadAccords(s: Store, pushed: map<Tag, Tensor>, due: map<Tag, Tensor>, g: nat, s': Store)
    requires StateOk(s, due, Forward) && Accords(s, pushed, due) && Offloads(s, g, s') && g !in s.mapping
    requires InTime(s, g) || forall tag :: tag in due ==> tag.group != g
    ensures Accords(s', pushed, FromCopies(due, g, CopiesOf(s', g)))
  {
    hide StateOk, IsCopyOf, InTime, OfGroup, CopiesOf, Recovered, AsPushed, Offloads;
    var due' := FromCopies(due, g, CopiesOf(s', g));
    OffloadFrame(s, g, s');
    assert !Taken(s, g);
    CopiedAccords(s, pushed, due, g, s');
    assert due'.Keys == pushed.Keys;
    NoTags(pushed, due', g);
    hide FromCopies;
    forall h: nat ensures if Taken(s', h) then Recovered(pushed, due', h) else AsPushed(pushed, due', h) {
      InTimeFrame(s, s', h);
      assert h in s'.mapping.Keys <==> h in s.mapping.Keys || h == g;
      if h != g {
        CopiedElsewhere(due, g, CopiesOf(s', g), h);
        SameGroups(pushed, due, pushed, due', h);
      }
    }
  }

  /** Nothing but the copies made matters. */
  lemma SameMapping(s: Store, s': Store, pushed: map<Tag, Tensor>, due: map<Tag, Tensor>)
    requires s'.mapping.Keys == s.mapping.Keys && s'.window == s.window && Accords(s, pushed, due)
    ensures Accords(s', pushed, due)
  {
    hide InTime, Recovered, AsPushed;
    forall g: nat ensures Taken(s', g) == Taken(s, g) {
      InTimeFrame(s, s', g);
      assert g in s'.mapping.Keys <==> g in s.mapping.Keys;
    }
  }

  lemma FirstAccords(s: Store, mid: Store, pushed: map<Tag, Tensor>, due: map<Tag, Tensor>)
    requires Inv(s, due, Forward) && StartsCommit(s, mid) && Accords(s, pushed, due)
    ensures Accords(mid, pushed, FirstDue(s, mid, due))
  {
    hide StateOk, Offloads, InTime, FromCopies, CopiesOf, Accords;
    if s.current == 0 {
      FirstCopy(s, due);
      OffloadAccords(s, pushed, due, 0, mid);
    }
  }

  lemma ForwardAccords(s: Store, mid: Store, next: Store, s': Store, pushed: map<Tag, Tensor>, due: map<Tag, Tensor>)
    requires Inv(s, due, Forward) && s.current < s.layers && CommitsForward(s, mid, next, s') && Accords(s, pushed, due)
    ensures Accords(s', pushed, CommitDue(s, mid, next, due))
  {
    hide Inv, StateOk, Offloads, InTime, FromCopies, CopiesOf, Accords, FirstDue, Freed;
    FirstKeepsState(s, mid, due);
    FirstAccords(s, mid, pushed, due);
    var first := FirstDue(s, mid, due);
    if Closes(mid) {
      var freed := Freed(mid, mid.offloaded);
      FreeKeeps(mid, first, mid.offloaded);
      FreedFrame(mid, mid.offloaded);
      SameMapping(mid, freed, pushed, first);
      if mid.offloaded + 1 < mid.groups {
        NextCopyAllowed(s, mid, due);
        OffloadAccords(freed, pushed, first, mid.offloaded + 1, next);
      }
      SameMapping(next, s', pushed, CommitDue(s, mid, next, due));
    } else {
      SameMapping(mid, s', pushed, first);
    }
  }

  // ---------------------------------------------------------------- after the forward pass

  /** The groups whose tensors leave the device: with every layer offloaded only the first one does, since the copy of
    any other is made before its layer has run. */
  predicate LeavesDevice(layers: nat, groups: nat, g: nat) {
    g < groups && (g == 0 || groups < layers)
  }

  lemma TakenAtEnd(s: Store, due: map<Tag, Tensor>, g: nat)
    requires Inv(s, due, Forward) && s.current == s.layers
    ensures Taken(s, g) <==> LeavesDevice(s.layers, s.groups, g)
  {
    hide StateOk, BufOk, TagsOk;
    LastWindow(s.layers, s.groups);
    assert s.groups - 1 in s.window;
    if 0 < g < s.groups {
      assert g - 1 in s.window;
      WindowAfterOwnLayer(s.layers, s.groups, g - 1);
      if s.groups == s.layers {
        EveryLayerOffloaded(s.layers, g - 1);
      }
    }
  }

  /** The tensors of group `g` come back with the values that were pushed. */
  ghost predicate Restored(pushed: map<Tag, Tensor>, due: map<Tag, Tensor>, g: nat) {
    forall tag :: tag in pushed && tag in due && tag.group == g ==> SameValue(due[tag], pushed[tag])
  }

  lemma RecoveredTensor(pushed: map<Tag, Tensor>, due: map<Tag, Tensor>, g: nat, copies: map<TensorKey, Tensor>, tag: Tag)
    requires due.Keys == pushed.Keys && tag in pushed && tag.group == g
    requires IsCopyOf(OfGroup(pushed, g), copies) && OfGroup(due, g) == FromCopies(OfGroup(pushed, g), g, copies)
    ensures tag in OfGroup(pushed, g) && OfGroup(pushed, g)[tag] == pushed[tag] && pushed[tag].key in copies
    ensures tag in due && (SameValue(due[tag], pushed[tag]) <==> copies[pushed[tag].key].data == pushed[tag].data)
  {
    assert tag in due.Keys;
    assert OfGroup(due, g)[tag] == due[tag];
  }

  lemma RecoveredIsExact(pushed: map<Tag, Tensor>, due: map<Tag, Tensor>, g: nat)
    requires due.Keys == pushed.Keys && Recovered(pushed, due, g)
    ensures Restored(pushed, due, g) <==> Faithful(OfGroup(pushed, g))
  {
    var own := OfGroup(pushed, g);
    var copies: map<TensorKey, Tensor> :| IsCopyOf(own, copies) && OfGroup(due, g) == FromCopies(own, g, copies);
    RecoveryIsExact(own, copies);
    forall tag | tag in pushed && tag.group == g
      ensures tag in own && own[tag] == pushed[tag] && pushed[tag].key in copies
      ensures tag in due && (SameValue(due[tag], pushed[tag]) <==> copies[pushed[tag].key].data == pushed[tag].data)
    {
      RecoveredTensor(pushed, due, g, copies, tag);
    }
    hide Faithful, IsCopyOf, FromCopies, SameValue;
    assert forall tag :: tag in own ==> tag in pushed && tag.group == g;
  }

  lemma AsPushedIsRestored(pushed: map<Tag, Tensor>, due: map<Tag, Tensor>, g: nat)
    requires AsPushed(pushed, due, g)
    ensures Restored(pushed, due, g)
  {
    forall tag | tag in pushed && tag in due && tag.group == g ensures SameValue(due[tag], pushed[tag]) {
      assert OfGroup(due, g)[tag] == OfGroup(pushed, g)[tag];
    }
  }

  /** Every group comes back as it was pushed exactly when, in each group that leaves the device, equal keys mean equal
    elements. */
  lemma AllRestoredIsExact(s: Store, pushed: map<Tag, Tensor>, due: map<Tag, Tensor>)
    requires Inv(s, due, Forward) && s.current == s.layers && Accords(s, pushed, due)
    ensures (forall g: nat :: Restored(pushed, due, g))
            <==> forall g: nat :: LeavesDevice(s.layers, s.groups, g) ==> Faithful(OfGroup(pushed, g))
  {
    forall g: nat
      ensures Restored(pushed, due, g) <==> (LeavesDevice(s.layers, s.groups, g) ==> Faithful(OfGroup(pushed, g)))
    {
      TakenAtEnd(s, due, g);
      hide Inv, Recovered, Faithful, LeavesDevice, Taken;
      if Taken(s, g) {
        RecoveredIsExact(pushed, due, g);
      } else {
        AsPushedIsRestored(pushed, due, g);
      }
    }
  }
}
