/** The asynchronous double-buffer offload handler as an object.

  Copies on the side streams are taken at the synchronisation points, where they are complete.
  A tensor reloaded from the host lies in new memory, whose address is arbitrary. */
module ActivationOffload {
  import opened OffloadWindows
  import opened OffloadState
  import opened OffloadRecovery
  import opened Prelude

  /** What `tensor_push` returns: a tag, or the tensor itself when it is not to be offloaded. */
  datatype Ticket = ByTag(tag: Tag) | Direct(t: Tensor)

  /** `now` is `before` with the tensors of group `g` outside `todo` replaced by their key and shape. */
  ghost predicate SwappedOut(before: map<Tag, Saved>, now: map<Tag, Saved>, g: nat, todo: set<Tag>) {
    && now.Keys == before.Keys
    && forall tag :: tag in before ==>
         now[tag] == if tag !in todo && tag.group == g && before[tag].OnDevice?
                     then Swapped(before[tag].t.key, before[tag].t.shape) else before[tag]
  }

  /** `now` is `before` with the swapped tensors of group `g` outside `todo` rebuilt from their copies. */
  ghost predicate BroughtBack(before: map<Tag, Saved>, now: map<Tag, Saved>, g: nat,
                              copies: map<TensorKey, Tensor>, todo: set<Tag>)
  {
    && now.Keys == before.Keys
    && forall tag :: tag in before ==>
         if tag !in todo && tag.group == g && before[tag].Swapped?
         then before[tag].key in copies && now[tag].OnDevice? && now[tag].t.shape == before[tag].shape
              && now[tag].t.data == copies[before[tag].key].data
         else now[tag] == before[tag]
  }

  /** Keeping one tensor for each key as tags are visited. */
  lemma CopyOne(before: map<Tag, Saved>, g: nat, todo: set<Tag>, tag: Tag, copies: map<TensorKey, Tensor>)
    requires tag in todo && tag in before && IsCopyOf(GroupTensors(before, g) - todo, copies)
    requires tag.group == g ==> before[tag].OnDevice?
    ensures IsCopyOf(GroupTensors(before, g) - (todo - {tag}),
                     if tag.group != g || before[tag].t.key in copies then copies
                     else copies[before[tag].t.key := before[tag].t])
  {
    var ts, ts' := GroupTensors(before, g) - todo, GroupTensors(before, g) - (todo - {tag});
    if tag.group != g {
      assert ts' == ts;
    } else {
      var t := before[tag].t;
      assert tag in ts' && ts'[tag] == t;
      var now := if t.key in copies then copies else copies[t.key := t];
      forall a | a in ts' ensures ts'[a].key in now {
        if a != tag {
          assert a in ts && ts[a] == ts'[a];
        }
      }
      forall k | k in now ensures exists a :: a in ts' && ts'[a].key == k && SameValue(now[k], ts'[a]) {
        if k in copies {
          var a :| a in ts && ts[a].key == k && SameValue(copies[k], ts[a]);
          assert a in ts' && ts'[a] == ts[a];
        }
      }
    }
  }

  lemma KeysAgree(s: Store, due: map<Tag, Tensor>, phase: Phase)
    requires Inv(s, due, phase)
    ensures s.state.Keys == due.Keys
  {
  }

  lemma FreshTag(s: Store, due: map<Tag, Tensor>)
    requires Inv(s, due, Forward)
    ensures Tag(s.current, s.tensorCount) !in due
  {
  }

  lemma FitsAtAnyLayer(s: Store, t: Store, g: nat)
    requires t == s.(current := t.current)
    ensures Fits(t, g) <==> Fits(s, g)
  {
    hide Numel;
  }

  lemma RestAccords(s: Store)
    requires AtRest(s)
    ensures Accords(s, map[], map[])
  {
    forall g: nat ensures !Taken(s, g) && AsPushed(map[], map[], g) {
    }
  }

  lemma ReloadsAtAnyLayer(s: Store, g: nat, t: Store)
    requires Reloads(s.(current := t.current), g, t)
    ensures Reloads(s, g, t.(current := s.current))
  {
  }

  /** Before a forward commit: the lookup is defined, and the first group can be copied at the first commit. */
  lemma CommitFacts(s: Store, due: map<Tag, Tensor>)
    requires Inv(s, due, Forward) && s.current < s.layers
    ensures s.offloaded in s.window && s.groups > 0
    ensures s.current == 0 ==> forall tag :: tag in s.state && tag.group == 0 ==> s.state[tag].OnDevice?
  {
    hide Restorable, BufOk;
    WindowToLookUp(s);
  }

  lemma NextGroupIsOnDevice(s: Store, mid: Store, due: map<Tag, Tensor>)
    requires Inv(s, due, Forward) && (if s.current == 0 then Offloads(s, 0, mid) else mid == s)
    ensures forall tag :: tag in mid.state && tag.group == s.offloaded + 1 ==> mid.state[tag].OnDevice?
  {
    hide Restorable, BufOk, IsCopyOf;
  }

  lemma SwappedHasCopy(s: Store, due: map<Tag, Tensor>, phase: Phase, tag: Tag)
    requires StateOk(s, due, phase) && tag in s.state && s.state[tag].Swapped?
    ensures tag.group in s.mapping && s.state[tag].key in s.mapping[tag.group] && tag in due
    ensures |s.mapping[tag.group][s.state[tag].key].data| == Numel(s.state[tag].shape) <==> WellFormed(due[tag])
  {
    hide InTime, Numel;
    assert Restorable(s, phase, tag, due[tag]);
  }

  /** Before a backward commit: the lookup is defined, and the copies to reload are there. */
  lemma ReloadFacts(s: Store, due: map<Tag, Tensor>)
    requires Inv(s, due, Backward) && s.current > 0
    ensures s.offloaded > 0 && s.offloaded - 1 in s.window
    ensures s.window[s.offloaded - 1] == s.current - 1 ==> s.offloaded - 1 in s.mapping
    ensures forall tag :: tag in s.state && s.state[tag].Swapped? ==>
              tag.group in s.mapping && s.state[tag].key in s.mapping[tag.group]
  {
    ReloadIsDefined(s);
    hide CountOk, MappingOk, BufOk, TagsOk, StateOk;
    forall tag | tag in s.state && s.state[tag].Swapped?
      ensures tag.group in s.mapping && s.state[tag].key in s.mapping[tag.group]
    {
      SwappedHasCopy(s, due, Backward, tag);
    }
  }

  /** Copies with the shapes of what is due back can always be reloaded. */
  lemma WellFormedFits(s: Store, due: map<Tag, Tensor>)
    requires Inv(s, due, Backward) && s.current > 0 && forall tag :: tag in due ==> WellFormed(due[tag])
    ensures !ReloadFails(s)
  {
    ReloadFacts(s, due);
    hide CountOk, MappingOk, BufOk, TagsOk, StateOk, WellFormed, Numel;
    forall tag | tag in s.state && s.state[tag].Swapped?
      ensures tag.group in s.mapping && s.state[tag].key in s.mapping[tag.group]
              && |s.mapping[tag.group][s.state[tag].key].data| == Numel(s.state[tag].shape)
    {
      SwappedHasCopy(s, due, Backward, tag);
    }
  }

  lemma StillSaved(before: map<Tag, Saved>, now: map<Tag, Saved>, g: nat, copies: map<TensorKey, Tensor>,
                   todo: set<Tag>, tag: Tag)
    requires BroughtBack(before, now, g, copies, todo) && tag in todo && tag in before
    ensures tag in now && now[tag] == before[tag]
  {
  }

  /** The swapped tensors of group `g` outside `todo` have as many elements as their copies. */
  ghost predicate Sized(before: map<Tag, Saved>, g: nat, copies: map<TensorKey, Tensor>, todo: set<Tag>) {
    forall tag :: tag in before && tag !in todo && tag.group == g && before[tag].Swapped? ==>
      before[tag].key in copies && |copies[before[tag].key].data| == Numel(before[tag].shape)
  }

  lemma SizedNext(before: map<Tag, Saved>, g: nat, copies: map<TensorKey, Tensor>, todo: set<Tag>, tag: Tag)
    requires Sized(before, g, copies, todo) && tag in todo && tag in before
    ensures if tag.group == g && before[tag].Swapped?
                 && !(before[tag].key in copies && |copies[before[tag].key].data| == Numel(before[tag].shape))
            then !Sized(before, g, copies, {}) else Sized(before, g, copies, todo - {tag})
  {
    hide Numel;
  }

  lemma BringBack(before: map<Tag, Saved>, now: map<Tag, Saved>, g: nat, copies: map<TensorKey, Tensor>,
                  todo: set<Tag>, tag: Tag, t: Tensor)
    requires BroughtBack(before, now, g, copies, todo) && tag in todo && tag in before
    requires tag.group == g && before[tag].Swapped? && before[tag].key in copies
    requires t.shape == before[tag].shape && t.data == copies[before[tag].key].data
    ensures BroughtBack(before, now[tag := OnDevice(t)], g, copies, todo - {tag})
  {
  }

  lemma LeaveBe(before: map<Tag, Saved>, now: map<Tag, Saved>, g: nat, copies: map<TensorKey, Tensor>,
                todo: set<Tag>, tag: Tag)
    requires BroughtBack(before, now, g, copies, todo) && tag in todo && tag in before
    requires !(tag.group == g && before[tag].Swapped?)
    ensures BroughtBack(before, now, g, copies, todo - {tag})
  {
  }

  class OffloadHandler {
    const groups: nat
    const layers: nat
    const layerWindow: map<nat, int>

    var currentGroup: nat
    var tensorCount: nat
    var offloadedCount: nat
    var tagToState: map<Tag, Saved>
    var tagToBuf: map<Tag, Option<Tensor>>
    var groupMapping: map<nat, map<TensorKey, Tensor>>

    // specification: the tensors pushed and not yet popped, what comes back of them, and the direction of the pass
    ghost var pushed: map<Tag, Tensor>
    ghost var due: map<Tag, Tensor>
    ghost var phase: Phase

    ghost function View(): Store
      reads this
    {
      Store(groups, layers, layerWindow, currentGroup, tensorCount, offloadedCount, tagToState, tagToBuf, groupMapping)
    }

    ghost predicate Valid()
      reads this
    {
      && Inv(View(), due, phase) && due.Keys == pushed.Keys
      && (phase == Forward ==> Accords(View(), pushed, due))
    }

    constructor (groups: nat, layers: nat)
      requires 0 < groups <= layers
      ensures this.groups == groups && this.layers == layers
      ensures Valid() && AtRest(View()) && pushed == due == map[] && phase == Forward
    {
      var window: map<nat, int> := map[];
      var constant := 0;
      for i := 0 to groups
        invariant constant == Min(i, layers % groups)
        invariant forall j: nat :: j in window <==> j < i
        invariant forall j: nat :: j in window ==> window[j] == WindowEnd(layers, groups, j)
      {
        window := window[i := (layers / groups) * (i + 1) - 1];
        if i < layers % groups {
          window := window[i := window[i] + i + 1];
          constant := i + 1;
        } else {
          window := window[i := window[i] + constant];
        }
      }
      this.groups, this.layers, this.layerWindow := groups, layers, window;
      currentGroup, tensorCount, offloadedCount := 0, 0, 0;
      tagToState, tagToBuf, groupMapping := map[], map[], map[];
      pushed, due, phase := map[], map[], Forward;
      new;
      RestIsInvariant(View());
      RestAccords(View());
    }

    // -------------------------------------------------------------- push and pop

    method TensorPush(t: Tensor, needOffload: bool) returns (ticket: Ticket)
      requires Valid() && phase == Forward && currentGroup < layers
      modifies this`tensorCount, this`tagToState, this`tagToBuf, this`pushed, this`due
      ensures Valid()
      ensures if needOffload
              then ticket == ByTag(Tag(currentGroup, old(tensorCount))) && View() == Push(old(View()), t)
                   && ticket.tag !in old(pushed) && pushed == old(pushed)[ticket.tag := t]
              else ticket == Direct(t) && View() == old(View()) && pushed == old(pushed)
    {
      hide Inv, Accords;
      if needOffload {
        PushKeeps(View(), due, t);
        PushAccords(View(), pushed, due, t);
        FreshTag(View(), due);
        assert Tag(currentGroup, tensorCount) !in pushed.Keys;
        var tag := Tag(currentGroup, tensorCount);
        tensorCount := tensorCount + 1;
        assert tag !in tagToState;
        tagToState := tagToState[tag := OnDevice(t)];
        if currentGroup < groups {
          tagToBuf := tagToBuf[tag := Some(t)];
        }
        pushed, due := pushed[tag := t], due[tag := t];
        ticket := ByTag(tag);
      } else {
        ticket := Direct(t);
      }
    }

    /** Popping gives back what is due, and the assertion that it is a tensor holds. */
    method TensorPop(ticket: Ticket) returns (t: Tensor)
      requires Valid() && phase == Backward
      requires ticket.ByTag? ==> ticket.tag in due && ticket.tag.group >= currentGroup
      modifies this`tagToState, this`tagToBuf, this`pushed, this`due
      ensures Valid()
      ensures if ticket.ByTag?
              then SameValue(t, old(due)[ticket.tag]) && View() == Pop(old(View()), ticket.tag)
                   && pushed == old(pushed) - {ticket.tag} && due == old(due) - {ticket.tag}
              else t == ticket.t && View() == old(View()) && pushed == old(pushed) && due == old(due)
    {
      hide Inv;
      if ticket.Direct? {
        return ticket.t;
      }
      var tag := ticket.tag;
      OnDeviceWhenNeeded(View(), due, tag);
      PopKeeps(View(), due, tag);
      assert tag in tagToState by { KeysAgree(View(), due, phase); }
      var saved := tagToState[tag];
      tagToState := tagToState - {tag};
      tagToBuf := tagToBuf - {tag};
      assert !saved.Swapped?;
      t := saved.t;
      pushed, due := pushed - {tag}, due - {tag};
      assert due.Keys == pushed.Keys;
    }

    // -------------------------------------------------------------- bulk transfers

    /** The first loop: collect one tensor for each key and leave key and shape behind. */
    method SwapOut(g: nat) returns (copies: map<TensorKey, Tensor>)
      requires forall tag :: tag in tagToState && tag.group == g ==> tagToState[tag].OnDevice?
      modifies this`tagToState
      ensures SwappedOut(old(tagToState), tagToState, g, {}) && IsCopyOf(GroupTensors(old(tagToState), g), copies)
    {
      copies := map[];
      ghost var before := tagToState;
      var todo := tagToState.Keys;
      while todo != {}
        invariant todo <= before.Keys && SwappedOut(before, tagToState, g, todo)
        invariant IsCopyOf(GroupTensors(before, g) - todo, copies)
        decreases |todo|
      {
        hide IsCopyOf;
        var tag :| tag in todo;
        CopyOne(before, g, todo, tag, copies);
        var saved := tagToState[tag];
        if tag.group == g {
          assert !saved.Swapped?;
          var key := saved.t.key;
          if key !in copies {
            copies := copies[key := saved.t];
          }
          tagToState := tagToState[tag := Swapped(key, saved.t.shape)];
        }
        todo := todo - {tag};
      }
      assert GroupTensors(before, g) - {} == GroupTensors(before, g);
    }

    /** `offload`: the host copy has the shape and the elements of the source. */
    static function HostCopy(t: Tensor): (r: Tensor)
      ensures SameValue(r, t)
    {
      t
    }

    /** The second loop: replace each tensor by its host copy. */
    static method CopyToHost(tensors: map<TensorKey, Tensor>, ghost ts: map<Tag, Tensor>)
      returns (copies: map<TensorKey, Tensor>)
      requires IsCopyOf(ts, tensors)
      ensures IsCopyOf(ts, copies)
    {
      copies := tensors;
      var left := copies.Keys;
      while left != {}
        invariant left <= copies.Keys == tensors.Keys
        invariant forall k :: k in copies ==> SameValue(copies[k], tensors[k])
        decreases |left|
      {
        var key :| key in left;
        copies := copies[key := HostCopy(copies[key])];
        left := left - {key};
      }
      forall k | k in copies ensures exists a :: a in ts && ts[a].key == k && SameValue(copies[k], ts[a]) {
        var a :| a in ts && ts[a].key == k && SameValue(tensors[k], ts[a]);
        assert SameValue(copies[k], ts[a]);
      }
    }

    method BulkOffloadGroup(g: nat)
      requires forall tag :: tag in tagToState && tag.group == g ==> tagToState[tag].OnDevice?
      modifies this`tagToState, this`groupMapping
      ensures Offloads(old(View()), g, View())
    {
      var copies := SwapOut(g);
      copies := CopyToHost(copies, GroupTensors(old(tagToState), g));
      groupMapping := groupMapping[g := copies];
    }

    static method CopyToDevice(hostCopies: map<TensorKey, Tensor>) returns (copies: map<TensorKey, Tensor>)
      ensures copies.Keys == hostCopies.Keys && forall k :: k in copies ==> SameValue(copies[k], hostCopies[k])
    {
      copies := hostCopies;
      var left := copies.Keys;
      while left != {}
        invariant left <= copies.Keys == hostCopies.Keys
        invariant forall k :: k in copies ==> SameValue(copies[k], hostCopies[k])
        decreases |left|
      {
        var key :| key in left;
        var address: int := *;
        copies := copies[key := copies[key].(key := TensorKey(address, key.dtype))];
        left := left - {key};
      }
    }

    /** `tensor.view(shape)`, which raises unless the number of elements agrees. */
    static function Viewed(t: Tensor, shape: seq<nat>): (r: Tensor)
      requires |t.data| == Numel(shape)
      ensures r.shape == shape && r.data == t.data
    {
      t.(shape := shape)
    }

    /** The second loop: rebuild each swapped tensor from the copy with its key, as long as they agree in size. */
    method Rebuild(g: nat, copies: map<TensorKey, Tensor>, ghost hostCopies: map<TensorKey, Tensor>) returns (ok: bool)
      requires copies.Keys == hostCopies.Keys && forall k :: k in copies ==> SameValue(copies[k], hostCopies[k])
      requires forall tag :: tag in tagToState && tag.group == g && tagToState[tag].Swapped? ==>
                 tagToState[tag].key in hostCopies
      modifies this`tagToState
      ensures ok <==> Sized(old(tagToState), g, hostCopies, {})
      ensures ok ==> BroughtBack(old(tagToState), tagToState, g, hostCopies, {})
    {
      ghost var before := tagToState;
      var todo := tagToState.Keys;
      while todo != {}
        invariant todo <= before.Keys && Sized(before, g, hostCopies, todo)
        invariant BroughtBack(before, tagToState, g, hostCopies, todo)
        decreases |todo|
      {
        var tag :| tag in todo;
        StillSaved(before, tagToState, g, hostCopies, todo, tag);
        SizedNext(before, g, hostCopies, todo, tag);
        var saved := tagToState[tag];
        hide BroughtBack, Sized;
        if tag.group == g && saved.Swapped? {
          var whole := copies[saved.key];
          if |whole.data| != Numel(saved.shape) {
            return false;
          }
          BringBack(before, tagToState, g, hostCopies, todo, tag, Viewed(whole, saved.shape));
          tagToState := tagToState[tag := OnDevice(Viewed(whole, saved.shape))];
        } else {
          LeaveBe(before, tagToState, g, hostCopies, todo, tag);
        }
        todo := todo - {tag};
      }
      ok := true;
    }

    /** Fails when a copy does not have as many elements as a tensor that is to be rebuilt from it. */
    method BulkReloadGroup(g: nat) returns (ok: bool)
      requires g in groupMapping
      requires forall tag :: tag in tagToState && tag.group == g && tagToState[tag].Swapped? ==>
                 tagToState[tag].key in groupMapping[g]
      modifies this`tagToState, this`groupMapping
      ensures ok <==> Fits(old(View()), g)
      ensures ok ==> Reloads(old(View()), g, View())
    {
      var copies := CopyToDevice(groupMapping[g]);
      ghost var hostCopies := groupMapping[g];
      groupMapping := groupMapping - {g};
      ok := Rebuild(g, copies, hostCopies);
    }

    // -------------------------------------------------------------- commits

    /** The loop that drops the references to the group whose window has closed. */
    method FreeBuffers()
      modifies this`tagToBuf
      ensures View() == Freed(old(View()), offloadedCount)
    {
      var keys := tagToBuf.Keys;
      ghost var buf := tagToBuf;
      while keys != {}
        invariant keys <= tagToBuf.Keys == buf.Keys
        invariant forall tag :: tag in buf ==>
                    tagToBuf[tag] == if tag !in keys && tag.group == offloadedCount then None else buf[tag]
        decreases |keys|
      {
        var tag :| tag in keys;
        if tag.group == offloadedCount {
          tagToBuf := tagToBuf[tag := None];
        }
        keys := keys - {tag};
      }
      assert tagToBuf == Freed(old(View()), offloadedCount).buf;
    }

    /** The body of the window test: free the group that is out, copy the next one, count. */
    method CloseWindow(ghost s: Store) returns (ghost next: Store)
      requires Inv(s, due, Forward) && s.offloaded == offloadedCount && s.groups == groups
      requires if s.current == 0 then Offloads(s, 0, View()) else View() == s
      modifies this`offloadedCount, this`tagToState, this`tagToBuf, this`groupMapping
      ensures var freed := Freed(old(View()), old(offloadedCount));
              if old(offloadedCount) + 1 < groups then Offloads(freed, old(offloadedCount) + 1, next) else next == freed
      ensures View() == next.(offloaded := old(offloadedCount) + 1)
    {
      hide Inv, Offloads;
      ghost var mid := View();
      FreeBuffers();
      if offloadedCount + 1 < groups {
        NextGroupIsOnDevice(s, mid, due);
        BulkOffloadGroup(offloadedCount + 1);
      }
      next := View();
      offloadedCount := offloadedCount + 1;
    }

    /** `mid` and `next` are the states after the first group's copy and after the next group's. */
    method SynchronizeOnGroupCommitForward() returns (ghost mid: Store, ghost next: Store)
      requires Valid() && phase == Forward && currentGroup < layers
      modifies this`offloadedCount, this`tagToState, this`tagToBuf, this`groupMapping
      ensures CommitsForward(old(View()), mid, next, View().(current := currentGroup + 1, tensorCount := 0))
    {
      hide Inv, Offloads, Freed;
      ghost var s := View();
      CommitFacts(s, due);
      if currentGroup == 0 {
        BulkOffloadGroup(currentGroup);
      }
      mid, next := View(), View();
      if layerWindow[offloadedCount] == currentGroup {
        next := CloseWindow(s);
      }
    }

    method OnGroupCommitForward()
      requires Valid() && phase == Forward && currentGroup < layers
      modifies this`currentGroup, this`tensorCount, this`offloadedCount, this`tagToState, this`tagToBuf, this`groupMapping
      modifies this`due
      ensures Valid() && currentGroup == old(currentGroup) + 1 && tensorCount == 0
    {
      hide Inv, CommitsForward, Accords, CommitDue;
      ghost var s := View();
      ghost var mid, next := SynchronizeOnGroupCommitForward();
      currentGroup := currentGroup + 1;
      tensorCount := 0;
      ForwardKeeps(s, mid, next, View(), due);
      ForwardAccords(s, mid, next, View(), pushed, due);
      CommitDueKeys(s, mid, next, due);
      due := CommitDue(s, mid, next, due);
    }

    /** Fails exactly when the group to reload has a copy of the wrong size. */
    method OnGroupCommitBackward() returns (ok: bool)
      requires Valid() && currentGroup > 0 && (phase == Forward ==> currentGroup == layers)
      modifies this`currentGroup, this`offloadedCount, this`tagToState, this`groupMapping, this`phase
      ensures ok <==> !ReloadFails(old(View()))
      ensures ok ==> Valid() && phase == Backward && currentGroup == old(currentGroup) - 1
    {
      hide Inv, Reloads, Accords, Fits;
      if phase == Forward {
        TurnAround(View(), due);
      }
      phase := Backward;
      ghost var s := View();
      ReloadFacts(s, due);
      currentGroup := currentGroup - 1;
      ghost var mid := s;
      if layerWindow[offloadedCount - 1] == currentGroup {
        FitsAtAnyLayer(s, View(), offloadedCount - 1);
        ok := BulkReloadGroup(offloadedCount - 1);
        if !ok {
          return;
        }
        ReloadsAtAnyLayer(s, offloadedCount - 1, View());
        mid := View().(current := s.current);
        offloadedCount := offloadedCount - (if offloadedCount > 1 then 1 else 0);
      }
      if currentGroup == 0 {
        offloadedCount := 0;
      }
      assert CommitsBackward(s, mid, View());
      BackwardKeeps(s, mid, View(), due);
      ok := true;
    }

    /** A finished pass leaves the handler as it was when new, so the next pass can begin. */
    ghost method NextPass()
      requires Valid() && phase == Backward && currentGroup == 0 && due == map[]
      modifies this`phase
      ensures Valid() && phase == Forward && AtRest(View()) && pushed == map[]
    {
      PassRestores(View());
      assert pushed.Keys == {};
      phase := Forward;
      RestIsInvariant(View());
      RestAccords(View());
    }
  }
}
