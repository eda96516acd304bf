/** The handler's fields as a value, its invariant over a pass, and what each operation does to it. */
module OffloadState {
  import opened OffloadWindows
  import opened Prelude

  /** What `_get_unique_tensor_key` reads: the address of the first element and the dtype. */
  datatype TensorKey = TensorKey(address: int, dtype: string)

  datatype Tensor = Tensor(key: TensorKey, shape: seq<nat>, data: seq<int>)

  datatype Tag = Tag(group: nat, index: nat)

  /** `tensor_tag_to_state` holds the tensor itself, or the key and shape to find it again by. */
  datatype Saved = OnDevice(t: Tensor) | Swapped(key: TensorKey, shape: seq<nat>)

  datatype Phase = Forward | Backward

  predicate WellFormed(t: Tensor) { |t.data| == Numel(t.shape) }

  /** The same activation, whatever memory it lies in. */
  predicate SameValue(a: Tensor, b: Tensor) { a.shape == b.shape && a.data == b.data }

  // ---------------------------------------------------------------- one group's copies

  /** Tensors of one group that share a key hold the same elements. */
  ghost predicate Faithful(ts: map<Tag, Tensor>) {
    forall a, b :: a in ts && b in ts && ts[a].key == ts[b].key ==> ts[a].data == ts[b].data
  }

  /** `copies` has one tensor for each key in use, and it is one of the tensors with that key. */
  ghost predicate IsCopyOf(ts: map<Tag, Tensor>, copies: map<TensorKey, Tensor>) {
    && (forall a :: a in ts ==> ts[a].key in copies)
    && (forall k :: k in copies ==> exists a :: a in ts && ts[a].key == k && SameValue(copies[k], ts[a]))
  }

  /** Offloading by key gives every tensor its own elements back exactly when equal keys mean equal elements. */
  lemma RecoveryIsExact(ts: map<Tag, Tensor>, copies: map<TensorKey, Tensor>)
    requires IsCopyOf(ts, copies)
    ensures (forall a :: a in ts ==> copies[ts[a].key].data == ts[a].data) <==> Faithful(ts)
  {
    if Faithful(ts) {
      forall a | a in ts ensures copies[ts[a].key].data == ts[a].data {
        assert ts[a].key in copies;
      }
    }
  }

  /** Two views of one storage that start together but differ in extent. */
  const OVERLAPPING_VIEWS: map<Tag, Tensor> :=
    map[Tag(0, 0) := Tensor(TensorKey(64, "bf16"), [2], [5, 6]), Tag(0, 1) := Tensor(TensorKey(64, "bf16"), [1], [5])]

  /** One of the overlapping views is not restored, whichever of them the copy was made from. */
  lemma OverlappingViewsBreakRecovery(copies: map<TensorKey, Tensor>)
    requires IsCopyOf(OVERLAPPING_VIEWS, copies)
    ensures exists a :: a in OVERLAPPING_VIEWS && copies[OVERLAPPING_VIEWS[a].key].data != OVERLAPPING_VIEWS[a].data
  {
    var a, b := Tag(0, 0), Tag(0, 1);
    assert a in OVERLAPPING_VIEWS && b in OVERLAPPING_VIEWS;
    assert |OVERLAPPING_VIEWS[a].data| != |OVERLAPPING_VIEWS[b].data|;
    assert !Faithful(OVERLAPPING_VIEWS);
    RecoveryIsExact(OVERLAPPING_VIEWS, copies);
  }

  // ---------------------------------------------------------------- the fields

  datatype Store = Store(
    groups: nat, layers: nat, window: map<nat, int>,
    current: nat, tensorCount: nat, offloaded: nat,
    state: map<Tag, Saved>, buf: map<Tag, Option<Tensor>>, mapping: map<nat, map<TensorKey, Tensor>>)

  /** The tensors of group `g` that are on the device. */
  function GroupTensors(state: map<Tag, Saved>, g: nat): map<Tag, Tensor> {
    map tag | tag in state && tag.group == g && state[tag].OnDevice? :: state[tag].t
  }

  /** `bulk_offload_group`. */
  ghost predicate Offloads(s: Store, g: nat, s': Store) {
    && g in s'.mapping && s' == s.(state := s'.state, mapping := s.mapping[g := s'.mapping[g]])
    && IsCopyOf(GroupTensors(s.state, g), s'.mapping[g])
    && s'.state.Keys == s.state.Keys
    && forall tag :: tag in s.state ==>
         s'.state[tag] == if tag.group == g && s.state[tag].OnDevice?
                          then Swapped(s.state[tag].t.key, s.state[tag].t.shape) else s.state[tag]
  }

  /** `bulk_reload_group`: the copy goes back to the device, in new memory. */
  ghost predicate Reloads(s: Store, g: nat, s': Store) {
    && g in s.mapping && s' == s.(state := s'.state, mapping := s.mapping - {g})
    && s'.state.Keys == s.state.Keys
    && forall tag :: tag in s.state ==>
         if tag.group == g && s.state[tag].Swapped?
         then s.state[tag].key in s.mapping[g] && s'.state[tag].OnDevice? && s'.state[tag].t.shape == s.state[tag].shape
              && s'.state[tag].t.data == s.mapping[g][s.state[tag].key].data
         else s'.state[tag] == s.state[tag]
  }

  /** Every tensor to be rebuilt has its copy, with as many elements as its shape asks for. */
  ghost predicate Fits(s: Store, g: nat) {
    && g in s.mapping
    && forall tag :: tag in s.state && tag.group == g && s.state[tag].Swapped? ==>
         s.state[tag].key in s.mapping[g] && |s.mapping[g][s.state[tag].key].data| == Numel(s.state[tag].shape)
  }

  /** Dropping the references the handler keeps while group `g` is copied. */
  function Freed(s: Store, g: nat): Store {
    s.(buf := map tag | tag in s.buf :: if tag.group == g then None else s.buf[tag])
  }

  function Push(s: Store, t: Tensor): Store {
    var tag := Tag(s.current, s.tensorCount);
    s.(tensorCount := s.tensorCount + 1, state := s.state[tag := OnDevice(t)],
       buf := if s.current < s.groups then s.buf[tag := Some(t)] else s.buf)
  }

  function Pop(s: Store, tag: Tag): Store {
    s.(state := s.state - {tag}, buf := s.buf - {tag})
  }

  /** `synchronize_on_group_commit_forward` with `mid` between its two parts, then the group increment. */
  ghost predicate CommitsForward(s: Store, mid: Store, next: Store, s': Store) {
    && (if s.current == 0 then Offloads(s, 0, mid) else mid == s)
    && mid.offloaded in mid.window
    && (if mid.window[mid.offloaded] == mid.current then
          var freed := Freed(mid, mid.offloaded);
          && (if mid.offloaded + 1 < mid.groups then Offloads(freed, mid.offloaded + 1, next) else next == freed)
          && s' == next.(offloaded := mid.offloaded + 1, current := mid.current + 1, tensorCount := 0)
        else
          next == mid && s' == mid.(current := mid.current + 1, tensorCount := 0))
  }

  ghost predicate CommitsBackward(s: Store, mid: Store, s': Store) {
    && s.current > 0 && s.offloaded > 0 && s.offloaded - 1 in s.window
    && var hit := s.window[s.offloaded - 1] == s.current - 1;
       && (if hit then Reloads(s, s.offloaded - 1, mid) else mid == s)
       && s' == mid.(current := s.current - 1,
                     offloaded := if s.current - 1 == 0 then 0
                                  else if hit && s.offloaded > 1 then s.offloaded - 1 else s.offloaded)
  }

  // ---------------------------------------------------------------- the invariant

  ghost predicate Config(s: Store) {
    && 0 < s.groups <= s.layers && s.current <= s.layers
    && (forall g: nat :: g in s.window <==> g < s.groups)
    && (forall g: nat :: g in s.window ==> s.window[g] == WindowEnd(s.layers, s.groups, g))
  }

  /** Exactly `k` windows have closed before layer `c`. */
  ghost predicate Closed(s: Store, k: nat, c: nat) {
    && k <= s.groups
    && (forall g: nat :: g in s.window && g < k ==> s.window[g] < c)
    && (forall g: nat :: g in s.window && g >= k ==> s.window[g] >= c)
  }

  ghost predicate CountOk(s: Store, phase: Phase) {
    if phase == Forward then Closed(s, s.offloaded, s.current)
    else if s.current == 0 then s.offloaded == 0
    else s.offloaded > 0 && (Closed(s, s.offloaded, s.current) || (s.offloaded == 1 && Closed(s, 0, s.current)))
  }

  /** The groups with a host copy. */
  ghost predicate MappingOk(s: Store, phase: Phase) {
    forall g: nat :: g in s.mapping <==>
      g in s.window && if phase == Forward then s.current > 0 && g <= s.offloaded else s.window[g] < s.current
  }

  /** The group's layer is over when its copy is made. */
  ghost predicate InTime(s: Store, g: nat) {
    g == 0 || (g - 1 in s.window && g <= s.window[g - 1])
  }

  /** The saved state stands for the tensor that is due back. */
  ghost predicate Restorable(s: Store, phase: Phase, tag: Tag, was: Tensor)
    requires tag in s.state
  {
    match s.state[tag]
    case OnDevice(t) => SameValue(t, was) && (phase == Forward ==> t == was)
    case Swapped(key, shape) =>
      && tag.group in s.mapping && key in s.mapping[tag.group]
      && shape == was.shape && s.mapping[tag.group][key].data == was.data
  }

  ghost predicate StateOk(s: Store, due: map<Tag, Tensor>, phase: Phase) {
    && s.state.Keys == due.Keys
    && (forall tag :: tag in s.state ==> Restorable(s, phase, tag, due[tag]))
    && (forall tag :: tag in s.state ==> (s.state[tag].Swapped? <==> tag.group in s.mapping && InTime(s, tag.group)))
  }

  ghost predicate BufOk(s: Store, due: map<Tag, Tensor>, phase: Phase) {
    && (forall tag :: tag in s.buf <==> tag in due && tag.group < s.groups)
    && (forall tag :: tag in s.buf ==> (s.buf[tag].Some? <==> phase == Forward && tag.group >= s.offloaded))
  }

  ghost predicate TagsOk(s: Store, due: map<Tag, Tensor>, phase: Phase) {
    if phase == Forward then
      && (forall tag :: tag in due ==> tag.group < s.current || (tag.group == s.current && tag.index < s.tensorCount))
      && (s.current == s.layers ==> s.tensorCount == 0)
    else s.tensorCount == 0
  }

  ghost predicate Inv(s: Store, due: map<Tag, Tensor>, phase: Phase) {
    && Config(s) && CountOk(s, phase) && MappingOk(s, phase) && StateOk(s, due, phase)
    && BufOk(s, due, phase) && TagsOk(s, due, phase)
  }

  // ---------------------------------------------------------------- push and pop

  /** The group being filled has no copy that was made in time. */
  lemma CurrentGroupStays(s: Store)
    requires Config(s) && CountOk(s, Forward) && MappingOk(s, Forward)
    ensures !(s.current in s.mapping && InTime(s, s.current))
  {
  }

  lemma SameAsItself(t: Tensor)
    ensures SameValue(t, t)
  {
  }

  lemma PushState(s: Store, due: map<Tag, Tensor>, t: Tensor)
    requires Inv(s, due, Forward) && s.current < s.layers
    ensures Tag(s.current, s.tensorCount) !in s.state
    ensures StateOk(Push(s, t), due[Tag(s.current, s.tensorCount) := t], Forward)
  {
    hide BufOk, SameValue;
    CurrentGroupStays(s);
    var tag, s' := Tag(s.current, s.tensorCount), Push(s, t);
    forall a | a in s'.state ensures Restorable(s', Forward, a, due[tag := t][a]) {
      if a != tag {
        assert Restorable(s, Forward, a, due[a]);
      } else {
        assert SameValue(t, t) by { SameAsItself(t); }
      }
    }
  }

  /** The group to be freed next has begun. */
  lemma CountWithin(s: Store)
    requires Config(s) && CountOk(s, Forward)
    ensures s.offloaded <= s.current
  {
    if s.offloaded > 0 {
      assert s.offloaded - 1 in s.window;
      WindowAfterOwnLayer(s.layers, s.groups, s.offloaded - 1);
    }
  }

  lemma PushBuf(s: Store, due: map<Tag, Tensor>, t: Tensor)
    requires Config(s) && CountOk(s, Forward) && BufOk(s, due, Forward) && TagsOk(s, due, Forward) && s.current < s.layers
    ensures BufOk(Push(s, t), due[Tag(s.current, s.tensorCount) := t], Forward)
    ensures TagsOk(Push(s, t), due[Tag(s.current, s.tensorCount) := t], Forward)
  {
    hide Closed;
    CountWithin(s);
  }

  lemma PushCounts(s: Store, t: Tensor)
    requires Config(s) && CountOk(s, Forward) && MappingOk(s, Forward)
    ensures Config(Push(s, t)) && CountOk(Push(s, t), Forward) && MappingOk(Push(s, t), Forward)
  {
  }

  lemma PushKeeps(s: Store, due: map<Tag, Tensor>, t: Tensor)
    requires Inv(s, due, Forward) && s.current < s.layers
    ensures Tag(s.current, s.tensorCount) !in s.state
    ensures Inv(Push(s, t), due[Tag(s.current, s.tensorCount) := t], Forward)
  {
    PushState(s, due, t);
    hide StateOk, Config, CountOk, MappingOk, BufOk, TagsOk, Push;
    PushCounts(s, t);
    PushBuf(s, due, t);
  }

  /** A layer's tensors are back on the device when its own backward starts. */
  lemma OnDeviceWhenNeeded(s: Store, due: map<Tag, Tensor>, tag: Tag)
    requires Inv(s, due, Backward) && tag in due && tag.group >= s.current
    ensures s.state[tag].OnDevice? && SameValue(s.state[tag].t, due[tag])
  {
    if tag.group in s.window {
      WindowAfterOwnLayer(s.layers, s.groups, tag.group);
    }
    assert Restorable(s, Backward, tag, due[tag]);
  }

  lemma PopState(s: Store, due: map<Tag, Tensor>, tag: Tag)
    requires StateOk(s, due, Backward)
    ensures StateOk(Pop(s, tag), due - {tag}, Backward)
  {
    var s' := Pop(s, tag);
    forall a | a in s'.state ensures Restorable(s', Backward, a, (due - {tag})[a]) {
      assert Restorable(s, Backward, a, due[a]);
    }
  }

  lemma PopKeeps(s: Store, due: map<Tag, Tensor>, tag: Tag)
    requires Inv(s, due, Backward)
    ensures Inv(Pop(s, tag), due - {tag}, Backward)
  {
    hide StateOk;
    PopState(s, due, tag);
  }

  // ---------------------------------------------------------------- commits

  lemma InTimeFrames(s: Store, s': Store)
    requires s'.window == s.window
    ensures forall g: nat :: InTime(s', g) == InTime(s, g)
  {
  }

  /** The copies of group `g`, if there are any. */
  function CopiesOf(s: Store, g: nat): map<TensorKey, Tensor> {
    if g in s.mapping then s.mapping[g] else map[]
  }

  /** What is due back once the tensors of group `g` are to be recovered from the copies, key by key. */
  function FromCopies(due: map<Tag, Tensor>, g: nat, copies: map<TensorKey, Tensor>): map<Tag, Tensor> {
    map tag | tag in due ::
      if tag.group == g && due[tag].key in copies then due[tag].(data := copies[due[tag].key].data) else due[tag]
  }

  /** When a group is copied all its tensors are on the device, and each key is copied. */
  lemma GroupIsOnDevice(s: Store, due: map<Tag, Tensor>, g: nat, s': Store, tag: Tag)
    requires StateOk(s, due, Forward) && Offloads(s, g, s') && g !in s.mapping && tag in due && tag.group == g
    ensures tag in s.state && s.state[tag] == OnDevice(due[tag])
    ensures tag in GroupTensors(s.state, g) && GroupTensors(s.state, g)[tag] == due[tag]
    ensures due[tag].key in CopiesOf(s', g)
  {
    hide InTime;
    assert Restorable(s, Forward, tag, due[tag]);
    assert tag in GroupTensors(s.state, g);
  }

  lemma OffloadRestores(s: Store, due: map<Tag, Tensor>, g: nat, s': Store, tag: Tag)
    requires StateOk(s, due, Forward) && Offloads(s, g, s') && g !in s.mapping && tag in s.state
    ensures tag in s'.state && tag in due && Restorable(s', Forward, tag, FromCopies(due, g, CopiesOf(s', g))[tag])
  {
    hide IsCopyOf, InTime;
    assert Restorable(s, Forward, tag, due[tag]);
    if tag.group == g {
      GroupIsOnDevice(s, due, g, s', tag);
    }
  }

  /** Copying a group out keeps every tensor recoverable, as the copy that has its key. */
  lemma OffloadKeepsState(s: Store, due: map<Tag, Tensor>, g: nat, s': Store)
    requires StateOk(s, due, Forward) && Offloads(s, g, s') && g !in s.mapping
    requires InTime(s, g) || forall tag :: tag in due ==> tag.group != g
    ensures StateOk(s', FromCopies(due, g, CopiesOf(s', g)), Forward)
  {
    hide IsCopyOf, InTime;
    var after := FromCopies(due, g, CopiesOf(s', g));
    forall tag | tag in s.state ensures tag in after && Restorable(s', Forward, tag, after[tag]) {
      OffloadRestores(s, due, g, s', tag);
    }
    assert after.Keys == due.Keys;
    InTimeFrames(s, s');
    hide Restorable, FromCopies;
  }

  lemma ReloadKeepsState(s: Store, due: map<Tag, Tensor>, g: nat, s': Store)
    requires StateOk(s, due, Backward) && Reloads(s, g, s')
    ensures StateOk(s', due, Backward)
  {
    forall tag | tag in s.state ensures Restorable(s', Backward, tag, due[tag]) {
      assert Restorable(s, Backward, tag, due[tag]);
    }
  }

  lemma FreeKeeps(s: Store, due: map<Tag, Tensor>, g: nat)
    requires StateOk(s, due, Forward)
    ensures StateOk(Freed(s, g), due, Forward)
  {
    forall tag | tag in s.state ensures Restorable(Freed(s, g), Forward, tag, due[tag]) {
      assert Restorable(s, Forward, tag, due[tag]);
    }
  }

  /** The counters do not matter to the saved tensors. */
  lemma CountersKeepState(s: Store, s': Store, due: map<Tag, Tensor>, phase: Phase)
    requires StateOk(s, due, phase)
    requires s' == s.(current := s'.current, tensorCount := s'.tensorCount, offloaded := s'.offloaded)
    ensures StateOk(s', due, phase)
  {
    forall tag | tag in s.state ensures Restorable(s', phase, tag, due[tag]) {
      assert Restorable(s, phase, tag, due[tag]);
    }
  }

  /** The windows that have closed before layer `c + 1`, given those closed before layer `c`. */
  lemma NextClosed(s: Store, k: nat, c: nat)
    requires Config(s) && Closed(s, k, c)
    ensures if k in s.window && s.window[k] == c then Closed(s, k + 1, c + 1) else Closed(s, k, c + 1)
  {
    if k in s.window {
      forall g: nat | g in s.window && g > k ensures s.window[g] > s.window[k] {
        WindowsIncrease(s.layers, s.groups, k, g);
      }
    }
  }

  /** Before the last layer's commit there is always a window left to look up. */
  lemma WindowToLookUp(s: Store)
    requires Config(s) && CountOk(s, Forward) && s.current < s.layers
    ensures s.offloaded in s.window
  {
    LastWindow(s.layers, s.groups);
    assert s.groups - 1 in s.window;
  }

  /** Group `count + 1` is copied at the end of window `count`; its layer is over by then, or has not begun. */
  lemma NextGroupInTime(s: Store, due: map<Tag, Tensor>)
    requires Config(s) && TagsOk(s, due, Forward) && s.offloaded in s.window && s.window[s.offloaded] == s.current
    ensures InTime(s, s.offloaded + 1) || forall tag :: tag in due ==> tag.group != s.offloaded + 1
  {
  }

  lemma InTimeFrame(s: Store, s': Store, g: nat)
    requires s'.window == s.window
    ensures InTime(s', g) == InTime(s, g)
  {
  }

  lemma FirstCopy(s: Store, due: map<Tag, Tensor>)
    requires Inv(s, due, Forward) && s.current == 0
    ensures 0 !in s.mapping && InTime(s, 0)
  {
    hide StateOk, BufOk;
  }

  lemma OffloadFrame(s: Store, g: nat, s': Store)
    requires Offloads(s, g, s')
    ensures s'.mapping.Keys == s.mapping.Keys + {g} && s' == s.(state := s'.state, mapping := s'.mapping)
  {
    hide IsCopyOf;
  }

  lemma NextCopyIsNew(s: Store, mid: Store)
    requires Config(s) && CountOk(s, Forward) && MappingOk(s, Forward)
    requires if s.current == 0 then mid.mapping.Keys == s.mapping.Keys + {0} else mid == s
    requires mid.offloaded == s.offloaded
    ensures s.offloaded + 1 !in mid.mapping
  {
  }

  /** Whether the commit closes a window. */
  predicate Closes(s: Store) {
    s.offloaded in s.window && s.window[s.offloaded] == s.current
  }

  lemma FreedFrame(s: Store, g: nat)
    ensures Freed(s, g) == s.(buf := Freed(s, g).buf)
  {
  }

  lemma FreedSame(s: Store, s': Store)
    requires s'.buf == s.buf
    ensures Freed(s', s.offloaded).buf == Freed(s, s.offloaded).buf
  {
  }

  /** What is due back after the first part of a forward commit, and after the whole of it. */
  function FirstDue(s: Store, mid: Store, due: map<Tag, Tensor>): map<Tag, Tensor> {
    if s.current == 0 then FromCopies(due, 0, CopiesOf(mid, 0)) else due
  }

  function CommitDue(s: Store, mid: Store, next: Store, due: map<Tag, Tensor>): map<Tag, Tensor> {
    var first := FirstDue(s, mid, due);
    if Closes(mid) && mid.offloaded + 1 < mid.groups
    then FromCopies(first, mid.offloaded + 1, CopiesOf(next, mid.offloaded + 1)) else first
  }

  lemma CommitDueKeys(s: Store, mid: Store, next: Store, due: map<Tag, Tensor>)
    ensures FirstDue(s, mid, due).Keys == due.Keys && CommitDue(s, mid, next, due).Keys == due.Keys
  {
  }

  /** The first part of a forward commit. */
  ghost predicate StartsCommit(s: Store, mid: Store) {
    if s.current == 0 then Offloads(s, 0, mid) else mid == s
  }

  lemma FirstKeepsState(s: Store, mid: Store, due: map<Tag, Tensor>)
    requires Inv(s, due, Forward) && StartsCommit(s, mid)
    ensures StateOk(mid, FirstDue(s, mid, due), Forward)
  {
    hide StateOk, Offloads, InTime, FromCopies, CopiesOf;
    if s.current == 0 {
      FirstCopy(s, due);
      OffloadKeepsState(s, due, 0, mid);
    }
  }

  /** The copy that the second part makes is new, and made in time or of a group without tensors. */
  lemma NextCopyAllowed(s: Store, mid: Store, due: map<Tag, Tensor>)
    requires Inv(s, due, Forward) && StartsCommit(s, mid) && Closes(mid)
    ensures var freed, g := Freed(mid, mid.offloaded), mid.offloaded + 1;
            g !in freed.mapping && (InTime(freed, g) || forall tag :: tag in FirstDue(s, mid, due) ==> tag.group != g)
  {
    hide StateOk, BufOk, Offloads, Closed, InTime, FromCopies, CopiesOf;
    if s.current == 0 {
      OffloadFrame(s, 0, mid);
    }
    NextGroupInTime(s, due);
    InTimeFrame(s, Freed(mid, mid.offloaded), mid.offloaded + 1);
    NextCopyIsNew(s, mid);
    CommitDueKeys(s, mid, mid, due);
    assert forall tag :: tag in FirstDue(s, mid, due).Keys <==> tag in due.Keys;
  }

  /** The part of the invariant about saved tensors survives a forward commit. */
  lemma ForwardKeepsState(s: Store, mid: Store, next: Store, s': Store, due: map<Tag, Tensor>)
    requires Inv(s, due, Forward) && s.current < s.layers && CommitsForward(s, mid, next, s')
    ensures StateOk(s', CommitDue(s, mid, next, due), Forward)
  {
    hide Inv, StateOk, Offloads, InTime, FromCopies, CopiesOf, FirstDue, Freed;
    FirstKeepsState(s, mid, due);
    var first := FirstDue(s, mid, due);
    if Closes(mid) {
      FreeKeeps(mid, first, mid.offloaded);
      if mid.offloaded + 1 < mid.groups {
        NextCopyAllowed(s, mid, due);
        OffloadKeepsState(Freed(mid, mid.offloaded), first, mid.offloaded + 1, next);
      }
      CountersKeepState(next, s', CommitDue(s, mid, next, due), Forward);
    } else {
      CountersKeepState(mid, s', first, Forward);
    }
  }

  /** The first part of a forward commit copies group 0 when layer 0 is committed. */
  lemma FirstPart(s: Store, mid: Store)
    requires if s.current == 0 then Offloads(s, 0, mid) else mid == s
    ensures mid == s.(state := mid.state, mapping := mid.mapping)
    ensures mid.mapping.Keys == s.mapping.Keys + (if s.current == 0 then {0} else {})
    ensures Freed(mid, s.offloaded).buf == Freed(s, s.offloaded).buf
  {
    hide Offloads, Freed;
    if s.current == 0 {
      OffloadFrame(s, 0, mid);
      FreedSame(s, mid);
    }
  }

  lemma SecondPart(s: Store, mid: Store, next: Store, s': Store)
    requires CommitsForward(s, mid, next, s')
    ensures s' == mid.(current := mid.current + 1, tensorCount := 0, state := s'.state, mapping := s'.mapping,
                       offloaded := if Closes(mid) then mid.offloaded + 1 else mid.offloaded,
                       buf := if Closes(mid) then Freed(mid, mid.offloaded).buf else mid.buf)
    ensures s'.mapping.Keys == mid.mapping.Keys
                               + if Closes(mid) && mid.offloaded + 1 < mid.groups then {mid.offloaded + 1} else {}
  {
    hide Offloads, Freed;
    FreedFrame(mid, mid.offloaded);
    if Closes(mid) && mid.offloaded + 1 < mid.groups {
      OffloadFrame(Freed(mid, mid.offloaded), mid.offloaded + 1, next);
    }
  }

  /** The fields after a forward commit, the saved tensors aside. */
  lemma ForwardFields(s: Store, mid: Store, next: Store, s': Store)
    requires CommitsForward(s, mid, next, s')
    ensures s'.groups == s.groups && s'.layers == s.layers && s'.window == s.window
    ensures s'.current == s.current + 1 && s'.tensorCount == 0
    ensures s'.offloaded == if Closes(s) then s.offloaded + 1 else s.offloaded
    ensures s'.buf == if Closes(s) then Freed(s, s.offloaded).buf else s.buf
    ensures s'.mapping.Keys == s.mapping.Keys + (if s.current == 0 then {0} else {})
                               + (if Closes(s) && s.offloaded + 1 < s.groups then {s.offloaded + 1} else {})
  {
    FirstPart(s, mid);
    SecondPart(s, mid, next, s');
    hide Offloads, Freed, CommitsForward;
  }

  lemma ClosedFrame(s: Store, s': Store)
    requires s'.groups == s.groups && s'.window == s.window
    ensures forall k: nat, c: nat :: Closed(s', k, c) == Closed(s, k, c)
  {
  }

  lemma NothingClosedYet(s: Store)
    requires Config(s) && Closed(s, s.offloaded, 0)
    ensures s.offloaded == 0
  {
    if s.offloaded > 0 {
      assert 0 in s.window && s.window[0] < 0;
      WindowAfterOwnLayer(s.layers, s.groups, 0);
    }
  }

  lemma NextMapping(s: Store, s': Store)
    requires Config(s) && Closed(s, s.offloaded, s.current) && MappingOk(s, Forward)
    requires s'.window == s.window && s'.groups == s.groups && s'.current == s.current + 1
    requires s'.offloaded == if Closes(s) then s.offloaded + 1 else s.offloaded
    requires s'.mapping.Keys == s.mapping.Keys + (if s.current == 0 then {0} else {})
                                + (if Closes(s) && s.offloaded + 1 < s.groups then {s.offloaded + 1} else {})
    ensures MappingOk(s', Forward)
  {
    if s.current == 0 {
      NothingClosedYet(s);
    }
    forall g: nat ensures g in s'.mapping <==> g in s'.window && g <= s'.offloaded {
      assert g in s'.mapping <==> g in s'.mapping.Keys;
      assert g in s.mapping <==> g in s.mapping.Keys;
    }
  }

  lemma ForwardKeepsMapping(s: Store, mid: Store, next: Store, s': Store)
    requires Config(s) && CountOk(s, Forward) && MappingOk(s, Forward)
    requires s.current < s.layers && CommitsForward(s, mid, next, s')
    ensures Config(s') && CountOk(s', Forward) && MappingOk(s', Forward)
  {
    hide CommitsForward;
    ForwardFields(s, mid, next, s');
    NextClosed(s, s.offloaded, s.current);
    ClosedFrame(s, s');
    NextMapping(s, s');
  }

  lemma ForwardKeepsBuf(s: Store, mid: Store, next: Store, s': Store, due: map<Tag, Tensor>)
    requires BufOk(s, due, Forward) && TagsOk(s, due, Forward) && CommitsForward(s, mid, next, s')
    ensures BufOk(s', CommitDue(s, mid, next, due), Forward) && TagsOk(s', CommitDue(s, mid, next, due), Forward)
  {
    hide CommitsForward, CommitDue;
    ForwardFields(s, mid, next, s');
    CommitDueKeys(s, mid, next, due);
    assert forall tag :: tag in CommitDue(s, mid, next, due).Keys <==> tag in due.Keys;
  }

  lemma InvIs(s: Store, due: map<Tag, Tensor>, phase: Phase)
    ensures Inv(s, due, phase) <==>
            (Config(s) && CountOk(s, phase) && MappingOk(s, phase) && StateOk(s, due, phase)
             && BufOk(s, due, phase) && TagsOk(s, due, phase))
  {
  }

  lemma ForwardKeeps(s: Store, mid: Store, next: Store, s': Store, due: map<Tag, Tensor>)
    requires Inv(s, due, Forward) && s.current < s.layers && CommitsForward(s, mid, next, s')
    ensures Inv(s', CommitDue(s, mid, next, due), Forward)
  {
    hide *;
    InvIs(s, due, Forward);
    ForwardKeepsState(s, mid, next, s', due);
    ForwardKeepsMapping(s, mid, next, s');
    ForwardKeepsBuf(s, mid, next, s', due);
    InvIs(s', CommitDue(s, mid, next, due), Forward);
  }

  // ---------------------------------------------------------------- the way back

  /** After the last layer's commit every group is out and the handler is ready for the backward pass. */
  lemma TurnAround(s: Store, due: map<Tag, Tensor>)
    requires Inv(s, due, Forward) && s.current == s.layers
    ensures Inv(s, due, Backward)
  {
    hide InTime;
    LastWindow(s.layers, s.groups);
    assert s.groups - 1 in s.window;
    assert s.offloaded == s.groups;
    forall tag | tag in s.state ensures Restorable(s, Backward, tag, due[tag]) {
      assert Restorable(s, Forward, tag, due[tag]);
    }
  }

  /** The windows that have closed before layer `c - 1`, given those closed before layer `c`. */
  lemma PreviousClosed(s: Store, k: nat, c: nat)
    requires Config(s) && Closed(s, k, c) && c > 0
    ensures if k > 0 && k - 1 in s.window && s.window[k - 1] == c - 1 then Closed(s, k - 1, c - 1) else Closed(s, k, c - 1)
  {
    if k > 0 {
      assert k - 1 in s.window;
      forall g: nat | g in s.window && g < k - 1 ensures s.window[g] < s.window[k - 1] {
        WindowsIncrease(s.layers, s.groups, g, k - 1);
      }
    }
  }

  /** There is a window to look up at every backward commit, and a copy to reload when it matches. */
  lemma ReloadIsDefined(s: Store)
    requires Config(s) && CountOk(s, Backward) && MappingOk(s, Backward) && s.current > 0
    ensures s.offloaded > 0 && s.offloaded - 1 in s.window
    ensures s.window[s.offloaded - 1] == s.current - 1 ==> s.offloaded - 1 in s.mapping
  {
  }

  lemma ReloadFrame(s: Store, g: nat, s': Store)
    requires Reloads(s, g, s')
    ensures s'.mapping.Keys == s.mapping.Keys - {g} && s' == s.(state := s'.state, mapping := s'.mapping)
  {
  }

  /** The fields after a backward commit that counting groups is about. */
  lemma BackwardFields(s: Store, mid: Store, s': Store)
    requires CommitsBackward(s, mid, s')
    ensures s'.groups == s.groups && s'.layers == s.layers && s'.window == s.window && s'.current == s.current - 1
    ensures s'.offloaded == if s.current == 1 then 0
                            else if s.window[s.offloaded - 1] == s.current - 1 && s.offloaded > 1 then s.offloaded - 1
                            else s.offloaded
  {
    hide Reloads;
    if s.window[s.offloaded - 1] == s.current - 1 {
      ReloadFrame(s, s.offloaded - 1, mid);
    }
  }

  /** The backward commit that comes next rebuilds a group whose copies do not have its shapes. */
  ghost predicate ReloadFails(s: Store) {
    s.offloaded > 0 && s.offloaded - 1 in s.window && s.window[s.offloaded - 1] == s.current - 1 && !Fits(s, s.offloaded - 1)
  }

  lemma BackwardKeepsCount(s: Store, mid: Store, s': Store)
    requires Config(s) && CountOk(s, Backward) && MappingOk(s, Backward) && CommitsBackward(s, mid, s')
    ensures Config(s') && CountOk(s', Backward)
  {
    BackwardFields(s, mid, s');
    hide CommitsBackward, MappingOk;
    ClosedFrame(s, s');
    if Closed(s, s.offloaded, s.current) {
      PreviousClosed(s, s.offloaded, s.current);
      assert s.offloaded - 1 in s.window;
      hide Closed;
    } else {
      PreviousClosed(s, 0, s.current);
      assert s.window[0] >= s.current;
      hide Closed;
    }
  }

  lemma OneWindowPerLayer(s: Store, g: nat, h: nat)
    requires Config(s) && g in s.window && h in s.window && s.window[g] == s.window[h]
    ensures g == h
  {
    if g < h {
      WindowsIncrease(s.layers, s.groups, g, h);
    } else if h < g {
      WindowsIncrease(s.layers, s.groups, h, g);
    }
  }

  /** The window that closed last is the one the counter points at. */
  lemma ClosingGroup(s: Store, g: nat)
    requires Config(s) && CountOk(s, Backward) && s.current > 0 && g in s.window && s.window[g] == s.current - 1
    ensures s.offloaded > 0 && s.offloaded - 1 in s.window && s.window[s.offloaded - 1] == s.current - 1
  {
    assert Closed(s, s.offloaded, s.current);
    if g < s.offloaded - 1 {
      WindowsIncrease(s.layers, s.groups, g, s.offloaded - 1);
    }
  }

  lemma BackwardKeepsMapping(s: Store, mid: Store, s': Store)
    requires Config(s) && CountOk(s, Backward) && MappingOk(s, Backward) && CommitsBackward(s, mid, s')
    ensures MappingOk(s', Backward)
  {
    hide Reloads;
    var hit := s.window[s.offloaded - 1] == s.current - 1;
    if hit {
      ReloadFrame(s, s.offloaded - 1, mid);
    }
    forall g: nat ensures g in s'.mapping <==> g in s.window && s.window[g] < s.current - 1 {
      assert g in s'.mapping <==> g in s'.mapping.Keys;
      assert g in s.mapping <==> g in s.mapping.Keys;
      if g in s.window && s.window[g] == s.current - 1 {
        assert hit by { ClosingGroup(s, g); }
        OneWindowPerLayer(s, g, s.offloaded - 1);
      }
    }
  }

  lemma BackwardKeepsState(s: Store, mid: Store, s': Store, due: map<Tag, Tensor>)
    requires StateOk(s, due, Backward) && CommitsBackward(s, mid, s')
    ensures StateOk(s', due, Backward)
  {
    hide StateOk, Reloads;
    if s.window[s.offloaded - 1] == s.current - 1 {
      ReloadKeepsState(s, due, s.offloaded - 1, mid);
      ReloadFrame(s, s.offloaded - 1, mid);
    }
    CountersKeepState(mid, s', due, Backward);
  }

  lemma BackwardKeepsBuf(s: Store, mid: Store, s': Store, due: map<Tag, Tensor>)
    requires BufOk(s, due, Backward) && TagsOk(s, due, Backward) && CommitsBackward(s, mid, s')
    ensures BufOk(s', due, Backward) && TagsOk(s', due, Backward)
  {
    hide Reloads;
    if s.window[s.offloaded - 1] == s.current - 1 {
      ReloadFrame(s, s.offloaded - 1, mid);
    }
  }

  lemma BackwardKeeps(s: Store, mid: Store, s': Store, due: map<Tag, Tensor>)
    requires Inv(s, due, Backward) && CommitsBackward(s, mid, s')
    ensures Inv(s', due, Backward)
  {
    hide *;
    InvIs(s, due, Backward);
    BackwardKeepsCount(s, mid, s');
    BackwardKeepsMapping(s, mid, s');
    BackwardKeepsState(s, mid, s', due);
    BackwardKeepsBuf(s, mid, s', due);
    InvIs(s', due, Backward);
  }

  // ---------------------------------------------------------------- whole passes

  /** The fields of a new handler. */
  ghost predicate AtRest(s: Store) {
    s.current == 0 && s.tensorCount == 0 && s.offloaded == 0 && s.state == map[] && s.buf == map[] && s.mapping == map[]
  }

  lemma RestIsInvariant(s: Store)
    requires Config(s) && AtRest(s)
    ensures Inv(s, map[], Forward)
  {
    forall g: nat | g in s.window ensures s.window[g] >= 0 {
      WindowAfterOwnLayer(s.layers, s.groups, g);
    }
  }

  /** Once layer 0 has been committed and everything popped, the handler is as good as new. */
  lemma PassRestores(s: Store)
    requires Inv(s, map[], Backward) && s.current == 0
    ensures AtRest(s)
  {
    forall g: nat | g in s.window ensures s.window[g] >= 0 {
      WindowAfterOwnLayer(s.layers, s.groups, g);
    }
    assert s.state.Keys == {};
    assert forall g: nat :: g !in s.mapping;
    assert forall tag :: tag !in s.buf;
    assert s.mapping == map[] && s.buf == map[] && s.state == map[];
  }

  // ---------------------------------------------------------------- device memory

  /** The handler still refers to the tensor's device memory. */
  predicate Resident(s: Store, tag: Tag) {
    (tag in s.state && s.state[tag].OnDevice?) || (tag in s.buf && s.buf[tag].Some?)
  }

  /** A resident tensor belongs to a group that is never offloaded or whose window is still open. */
  lemma ResidentGroups(s: Store, due: map<Tag, Tensor>, phase: Phase, tag: Tag)
    requires Inv(s, due, phase) && s.groups < s.layers && Resident(s, tag)
    ensures tag in due && (tag.group in s.window ==> s.window[tag.group] >= s.current)
  {
    hide Restorable;
    if tag.group in s.window {
      WindowAfterOwnLayer(s.layers, s.groups, tag.group);
      if tag.group > 0 {
        assert tag.group - 1 in s.window;
        WindowAfterOwnLayer(s.layers, s.groups, tag.group - 1);
      }
    }
  }

  /** With every layer but the last offloaded, at most two groups are on the device at any time: the
    current one and the one before it, provided each layer pops its tensors in its own backward. */
  lemma AtMostTwoGroups(s: Store, due: map<Tag, Tensor>, phase: Phase, tag: Tag)
    requires Inv(s, due, phase) && s.groups == s.layers - 1 && Resident(s, tag)
    requires phase == Backward ==> forall a :: a in due ==> a.group <= s.current
    ensures tag.group == s.current || tag.group + 1 == s.current
  {
    hide StateOk, BufOk, MappingOk, CountOk;
    ResidentGroups(s, due, phase, tag);
    if tag.group in s.window {
      TightWindows(s.layers, tag.group);
    }
  }
}
