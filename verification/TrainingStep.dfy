/** A whole training step over the offload handler: every layer forward, then every layer backward. */
module TrainingStep {
  import opened OffloadState
  import opened OffloadRecovery
  import opened ActivationOffload
  import opened Prelude

  /** What one layer saves: its tensors, which of them the filter lets be offloaded, and the order in which its
    backward asks for them. */
  datatype Layer = Layer(saved: seq<Tensor>, offload: seq<bool>, order: seq<nat>)

  /** Every index below `n` once. */
  ghost predicate IsOrder(order: seq<nat>, n: nat) {
    && (forall k :: 0 <= k < |order| ==> order[k] < n)
    && (forall j: nat :: j < n ==> j in order)
    && (forall k, m :: 0 <= k < m < |order| ==> order[k] != order[m])
  }

  ghost predicate LayerOk(l: Layer) {
    && |l.offload| == |l.saved| && IsOrder(l.order, |l.saved|)
    && forall j :: 0 <= j < |l.saved| ==> WellFormed(l.saved[j])
  }

  /** Of the tensors to be offloaded, those that share a key hold the same elements. */
  ghost predicate LayerFaithful(l: Layer)
    requires LayerOk(l)
  {
    forall i, j ::
      0 <= i < |l.saved| && 0 <= j < |l.saved| && l.offload[i] && l.offload[j] && l.saved[i].key == l.saved[j].key ==>
        l.saved[i].data == l.saved[j].data
  }

  /** The layer's backward got, in its order, the values that its forward saved. */
  ghost predicate LayerRestored(got: seq<Tensor>, l: Layer)
    requires LayerOk(l)
  {
    |got| == |l.order| && forall k :: 0 <= k < |got| ==> SameValue(got[k], l.saved[l.order[k]])
  }

  // ---------------------------------------------------------------- tickets

  /** The first `n` tensors of the layer have their tickets: the tensor itself, or a tag of group `g` of its own. */
  ghost predicate Issued(tickets: seq<Ticket>, l: Layer, g: nat, n: nat)
    requires LayerOk(l)
  {
    && |tickets| == n <= |l.saved|
    && (forall j :: 0 <= j < n ==>
          if l.offload[j] then tickets[j].ByTag? && tickets[j].tag.group == g else tickets[j] == Direct(l.saved[j]))
    && (forall i, j :: 0 <= i < j < n && l.offload[i] && l.offload[j] ==> tickets[i].tag != tickets[j].tag)
  }

  /** `ts` holds, for group `g`, exactly the tensors that tickets were issued for. */
  ghost predicate Filed(ts: map<Tag, Tensor>, tickets: seq<Ticket>, l: Layer, g: nat, n: nat)
    requires LayerOk(l) && Issued(tickets, l, g, n)
  {
    && (forall j :: 0 <= j < n && l.offload[j] ==> tickets[j].tag in ts && ts[tickets[j].tag] == l.saved[j])
    && (forall tag :: tag in ts && tag.group == g ==> exists j :: 0 <= j < n && l.offload[j] && tickets[j].tag == tag)
  }

  lemma FiledNext(ts: map<Tag, Tensor>, tickets: seq<Ticket>, l: Layer, g: nat, n: nat, ticket: Ticket, ts': map<Tag, Tensor>)
    requires LayerOk(l) && Issued(tickets, l, g, n) && Filed(ts, tickets, l, g, n) && n < |l.saved|
    requires if l.offload[n]
             then ticket.ByTag? && ticket.tag.group == g && ticket.tag !in ts && ts' == ts[ticket.tag := l.saved[n]]
             else ticket == Direct(l.saved[n]) && ts' == ts
    ensures Issued(tickets + [ticket], l, g, n + 1) && Filed(ts', tickets + [ticket], l, g, n + 1)
  {
    var after := tickets + [ticket];
    assert forall j :: 0 <= j < n ==> after[j] == tickets[j];
    assert after[n] == ticket;
    forall tag | tag in ts' && tag.group == g ensures exists j :: 0 <= j < n + 1 && l.offload[j] && after[j].tag == tag {
      if tag in ts {
        var j :| 0 <= j < n && l.offload[j] && tickets[j].tag == tag;
        assert after[j].tag == tag;
      }
    }
  }

  /** Tensors of other groups do not matter. */
  lemma FiledFrame(ts: map<Tag, Tensor>, ts': map<Tag, Tensor>, tickets: seq<Ticket>, l: Layer, g: nat, n: nat)
    requires LayerOk(l) && Issued(tickets, l, g, n) && Filed(ts, tickets, l, g, n)
    requires forall tag: Tag :: tag.group == g ==> (tag in ts <==> tag in ts') && (tag in ts ==> ts'[tag] == ts[tag])
    ensures Filed(ts', tickets, l, g, n)
  {
  }

  /** In terms of the tags of its group, a layer's tensors with equal keys hold equal elements. */
  lemma FaithfulIs(ts: map<Tag, Tensor>, tickets: seq<Ticket>, l: Layer, g: nat)
    requires LayerOk(l) && Issued(tickets, l, g, |l.saved|) && Filed(ts, tickets, l, g, |l.saved|)
    ensures Faithful(OfGroup(ts, g)) <==> LayerFaithful(l)
  {
    var own := OfGroup(ts, g);
    if Faithful(own) {
      forall i, j | 0 <= i < |l.saved| && 0 <= j < |l.saved| && l.offload[i] && l.offload[j]
                    && l.saved[i].key == l.saved[j].key
        ensures l.saved[i].data == l.saved[j].data
      {
        assert own[tickets[i].tag] == l.saved[i] && own[tickets[j].tag] == l.saved[j];
      }
    }
    if LayerFaithful(l) {
      forall a, b | a in own && b in own && own[a].key == own[b].key ensures own[a].data == own[b].data {
        var i :| 0 <= i < |l.saved| && l.offload[i] && tickets[i].tag == a;
        var j :| 0 <= j < |l.saved| && l.offload[j] && tickets[j].tag == b;
        assert own[a] == l.saved[i] && own[b] == l.saved[j];
      }
    }
  }

  // ---------------------------------------------------------------- one layer

  method PushLayer(h: OffloadHandler, l: Layer) returns (tickets: seq<Ticket>)
    requires LayerOk(l) && h.Valid() && h.phase == Forward && h.currentGroup < h.layers
    requires forall tag :: tag in h.pushed ==> tag.group < h.currentGroup
    modifies h`tensorCount, h`tagToState, h`tagToBuf, h`pushed, h`due
    ensures h.Valid() && Issued(tickets, l, h.currentGroup, |l.saved|)
    ensures Filed(h.pushed, tickets, l, h.currentGroup, |l.saved|)
    ensures forall tag :: tag in h.pushed ==> tag.group <= h.currentGroup
    ensures forall tag: Tag :: tag.group != h.currentGroup ==>
              (tag in h.pushed <==> tag in old(h.pushed)) && (tag in h.pushed ==> h.pushed[tag] == old(h.pushed)[tag])
  {
    hide Inv, Accords, IsOrder, WellFormed;
    tickets := [];
    for j := 0 to |l.saved|
      invariant h.Valid() && Issued(tickets, l, h.currentGroup, j) && Filed(h.pushed, tickets, l, h.currentGroup, j)
      invariant forall tag :: tag in h.pushed ==> tag.group <= h.currentGroup
      invariant forall tag: Tag :: tag.group != h.currentGroup ==>
                  (tag in h.pushed <==> tag in old(h.pushed)) && (tag in h.pushed ==> h.pushed[tag] == old(h.pushed)[tag])
    {
      ghost var was := h.pushed;
      var ticket := h.TensorPush(l.saved[j], l.offload[j]);
      FiledNext(was, tickets, l, h.currentGroup, j, ticket, h.pushed);
      tickets := tickets + [ticket];
    }
  }

  /** What a ticket is good for. */
  function Behind(ticket: Ticket, due: map<Tag, Tensor>): Tensor
    requires ticket.ByTag? ==> ticket.tag in due
  {
    match ticket
    case ByTag(tag) => due[tag]
    case Direct(t) => t
  }

  /** All tickets of the layer can be redeemed. */
  ghost predicate Redeemable(tickets: seq<Ticket>, l: Layer, g: nat, due: map<Tag, Tensor>)
    requires LayerOk(l)
  {
    Issued(tickets, l, g, |l.saved|) && forall j :: 0 <= j < |tickets| && l.offload[j] ==> tickets[j].tag in due
  }

  /** `due` is `was` without the tags of the first `k` tickets in the order asked for. */
  ghost predicate Redeemed(due: map<Tag, Tensor>, was: map<Tag, Tensor>, tickets: seq<Ticket>, order: seq<nat>, k: nat)
    requires k <= |order| && forall i :: 0 <= i < |order| ==> order[i] < |tickets|
  {
    && (forall tag :: tag in due <==> tag in was && forall i :: 0 <= i < k ==> tickets[order[i]] != ByTag(tag))
    && (forall tag :: tag in due ==> due[tag] == was[tag])
  }

  lemma StillDue(due: map<Tag, Tensor>, was: map<Tag, Tensor>, tickets: seq<Ticket>, l: Layer, g: nat, k: nat)
    requires LayerOk(l) && Redeemable(tickets, l, g, was) && k < |l.order| && Redeemed(due, was, tickets, l.order, k)
    ensures var ticket := tickets[l.order[k]];
            && (ticket.ByTag? ==> ticket.tag in due && ticket.tag.group == g && due[ticket.tag] == was[ticket.tag])
            && Redeemed(if ticket.ByTag? then due - {ticket.tag} else due, was, tickets, l.order, k + 1)
  {
    hide WellFormed;
    var ticket := tickets[l.order[k]];
    if ticket.ByTag? {
      forall i | 0 <= i < k ensures tickets[l.order[i]] != ByTag(ticket.tag) {
        assert l.order[i] != l.order[k];
      }
    }
  }

  lemma NothingRedeemed(was: map<Tag, Tensor>, tickets: seq<Ticket>, order: seq<nat>)
    requires forall i :: 0 <= i < |order| ==> order[i] < |tickets|
    ensures Redeemed(was, was, tickets, order, 0)
  {
  }

  method PopLayer(h: OffloadHandler, l: Layer, tickets: seq<Ticket>, ghost g: nat) returns (got: seq<Tensor>)
    requires LayerOk(l) && h.Valid() && h.phase == Backward && h.currentGroup <= g && Redeemable(tickets, l, g, h.due)
    modifies h`tagToState, h`tagToBuf, h`pushed, h`due
    ensures h.Valid() && Redeemed(h.due, old(h.due), tickets, l.order, |l.order|)
    ensures |got| == |l.order|
    ensures forall k :: 0 <= k < |got| ==> SameValue(got[k], Behind(tickets[l.order[k]], old(h.due)))
  {
    hide Inv, Accords, SameValue, Redeemed, WellFormed;
    ghost var was := h.due;
    got := [];
    NothingRedeemed(was, tickets, l.order);
    for k := 0 to |l.order|
      invariant h.Valid() && Redeemed(h.due, was, tickets, l.order, k) && |got| == k
      invariant forall i :: 0 <= i < k ==> SameValue(got[i], Behind(tickets[l.order[i]], was))
    {
      StillDue(h.due, was, tickets, l, g, k);
      var ticket := tickets[l.order[k]];
      var t := h.TensorPop(ticket);
      assert SameValue(t, Behind(ticket, was)) by { SameAsItself(t); }
      got := got + [t];
    }
  }

  // ---------------------------------------------------------------- the whole step

  /** The layers before `n` have been pushed, and nothing else. */
  ghost predicate AllFiled(pushed: map<Tag, Tensor>, tickets: seq<seq<Ticket>>, layers: seq<Layer>, n: nat)
    requires forall i :: 0 <= i < |layers| ==> LayerOk(layers[i])
  {
    && |tickets| == n <= |layers| && (forall tag :: tag in pushed ==> tag.group < n)
    && forall i :: 0 <= i < n ==>
         Issued(tickets[i], layers[i], i, |layers[i].saved|)
         && Filed(pushed, tickets[i], layers[i], i, |layers[i].saved|)
  }

  /** The layers from `n` on have been popped. */
  ghost predicate Remaining(due: map<Tag, Tensor>, all: map<Tag, Tensor>, n: nat) {
    && (forall tag :: tag in due <==> tag in all && tag.group < n)
    && (forall tag :: tag in due ==> due[tag] == all[tag])
  }

  lemma FiledLayer(pushed: map<Tag, Tensor>, pushed': map<Tag, Tensor>, tickets: seq<seq<Ticket>>, layers: seq<Layer>,
                   n: nat, more: seq<Ticket>)
    requires forall i :: 0 <= i < |layers| ==> LayerOk(layers[i])
    requires n < |layers| && AllFiled(pushed, tickets, layers, n)
    requires Issued(more, layers[n], n, |layers[n].saved|) && Filed(pushed', more, layers[n], n, |layers[n].saved|)
    requires forall tag :: tag in pushed' ==> tag.group <= n
    requires forall tag: Tag :: tag.group != n ==>
               (tag in pushed' <==> tag in pushed) && (tag in pushed' ==> pushed'[tag] == pushed[tag])
    ensures AllFiled(pushed', tickets + [more], layers, n + 1)
  {
    hide Issued, Filed, LayerOk;
    forall i | 0 <= i < n
      ensures Issued(tickets[i], layers[i], i, |layers[i].saved|)
      ensures Filed(pushed', tickets[i], layers[i], i, |layers[i].saved|)
    {
      FiledFrame(pushed, pushed', tickets[i], layers[i], i, |layers[i].saved|);
    }
  }

  /** Popping layer `n` leaves the layers before it. */
  lemma PoppedLayer(due: map<Tag, Tensor>, was: map<Tag, Tensor>, all: map<Tag, Tensor>, pushed: map<Tag, Tensor>,
                    tickets: seq<Ticket>, l: Layer, n: nat)
    requires LayerOk(l) && Issued(tickets, l, n, |l.saved|) && Filed(pushed, tickets, l, n, |l.saved|)
    requires all.Keys == pushed.Keys && Remaining(was, all, n + 1)
    requires Redeemed(due, was, tickets, l.order, |l.order|)
    ensures Remaining(due, all, n)
  {
    hide WellFormed;
    forall tag ensures tag in due <==> tag in all && tag.group < n {
      if tag in was && tag.group == n {
        assert tag in all.Keys && tag in pushed;
        var j: nat :| j < |l.saved| && l.offload[j] && tickets[j].tag == tag;
        assert j in l.order;
        var k :| 0 <= k < |l.order| && l.order[k] == j;
        assert tickets[l.order[k]] == ByTag(tag);
      } else if tag in was && tag.group < n {
        forall k | 0 <= k < |l.order| ensures tickets[l.order[k]] != ByTag(tag) {
        }
      }
    }
  }

  lemma CanRedeem(due: map<Tag, Tensor>, all: map<Tag, Tensor>, pushed: map<Tag, Tensor>, tickets: seq<Ticket>, l: Layer, n: nat)
    requires LayerOk(l) && Issued(tickets, l, n, |l.saved|) && Filed(pushed, tickets, l, n, |l.saved|)
    requires all.Keys == pushed.Keys && Remaining(due, all, n + 1)
    ensures Redeemable(tickets, l, n, due) && Redeemable(tickets, l, n, all)
    ensures forall k :: 0 <= k < |l.order| ==>
              l.order[k] < |tickets| && Behind(tickets[l.order[k]], due) == Behind(tickets[l.order[k]], all)
  {
    forall j | 0 <= j < |tickets| && l.offload[j] ensures tickets[j].tag in due && tickets[j].tag in all {
      assert tickets[j].tag in pushed.Keys;
    }
  }

  /** What the backward of a layer got is what its forward saved exactly when the group comes back as pushed. */
  lemma LayerRestoredIs(got: seq<Tensor>, all: map<Tag, Tensor>, pushed: map<Tag, Tensor>, tickets: seq<Ticket>, l: Layer, n: nat)
    requires LayerOk(l) && Redeemable(tickets, l, n, all) && Filed(pushed, tickets, l, n, |l.saved|)
    requires all.Keys == pushed.Keys && |got| == |l.order|
    requires forall k :: 0 <= k < |got| ==> SameValue(got[k], Behind(tickets[l.order[k]], all))
    ensures LayerRestored(got, l) <==> Restored(pushed, all, n)
  {
    hide WellFormed;
    if LayerRestored(got, l) {
      forall tag | tag in pushed && tag in all && tag.group == n ensures SameValue(all[tag], pushed[tag]) {
        var j: nat :| j < |l.saved| && l.offload[j] && tickets[j].tag == tag;
        assert j in l.order;
        var k :| 0 <= k < |l.order| && l.order[k] == j;
        assert SameValue(got[k], all[tag]) && SameValue(got[k], l.saved[j]);
      }
    }
    if Restored(pushed, all, n) {
      forall k | 0 <= k < |got| ensures SameValue(got[k], l.saved[l.order[k]]) {
        var j := l.order[k];
        if l.offload[j] {
          assert tickets[j].tag in pushed.Keys && SameValue(all[tickets[j].tag], pushed[tickets[j].tag]);
        }
      }
    }
  }

  /** In every layer whose tensors leave the device, equal keys mean equal elements. */
  ghost predicate StepFaithful(layers: seq<Layer>, groups: nat)
    requires forall i :: 0 <= i < |layers| ==> LayerOk(layers[i])
  {
    forall i :: 0 <= i < |layers| && LeavesDevice(|layers|, groups, i) ==> LayerFaithful(layers[i])
  }

  ghost predicate StepRestored(restored: seq<seq<Tensor>>, layers: seq<Layer>)
    requires forall i :: 0 <= i < |layers| ==> LayerOk(layers[i])
  {
    |restored| == |layers| && forall i :: 0 <= i < |layers| ==> LayerRestored(restored[i], layers[i])
  }

  lemma AccordsKeys(s: Store, pushed: map<Tag, Tensor>, due: map<Tag, Tensor>)
    requires Accords(s, pushed, due)
    ensures due.Keys == pushed.Keys
  {
  }

  lemma GroupsWithin(s: Store, due: map<Tag, Tensor>)
    requires Inv(s, due, Forward)
    ensures forall g: nat :: LeavesDevice(s.layers, s.groups, g) ==> g < s.layers
  {
    hide CountOk, MappingOk, StateOk, BufOk, TagsOk;
  }

  lemma RestoredShape(pushed: map<Tag, Tensor>, due: map<Tag, Tensor>, tag: Tag, tickets: seq<Ticket>, l: Layer)
    requires LayerOk(l) && Issued(tickets, l, tag.group, |l.saved|) && Filed(pushed, tickets, l, tag.group, |l.saved|)
    requires tag in pushed && tag in due && Restored(pushed, due, tag.group)
    ensures WellFormed(due[tag])
  {
    var j :| 0 <= j < |l.saved| && l.offload[j] && tickets[j].tag == tag;
    assert WellFormed(l.saved[j]) && SameValue(due[tag], pushed[tag]);
  }

  /** After the forward pass: every group comes back as pushed exactly when the step is faithful. */
  lemma StepFaithfulIs(s: Store, pushed: map<Tag, Tensor>, due: map<Tag, Tensor>, tickets: seq<seq<Ticket>>, layers: seq<Layer>)
    requires forall i :: 0 <= i < |layers| ==> LayerOk(layers[i])
    requires Inv(s, due, Forward) && Accords(s, pushed, due) && s.current == s.layers == |layers|
    requires AllFiled(pushed, tickets, layers, |layers|)
    ensures (forall g: nat :: Restored(pushed, due, g)) <==> StepFaithful(layers, s.groups)
    ensures (forall g: nat :: Restored(pushed, due, g)) ==> forall tag :: tag in due ==> WellFormed(due[tag])
  {
    AllRestoredIsExact(s, pushed, due);
    GroupsWithin(s, due);
    hide Inv, Accords, Faithful, LayerFaithful, LeavesDevice, Restored;
    forall g: nat | g < |layers| ensures Faithful(OfGroup(pushed, g)) <==> LayerFaithful(layers[g]) {
      FaithfulIs(pushed, tickets[g], layers[g], g);
    }
    if forall g: nat :: Restored(pushed, due, g) {
      forall tag | tag in due ensures WellFormed(due[tag]) {
        assert due.Keys == pushed.Keys by { AccordsKeys(s, pushed, due); }
        RestoredShape(pushed, due, tag, tickets[tag.group], layers[tag.group]);
      }
    }
  }

  lemma NothingFiled(layers: seq<Layer>)
    requires forall i :: 0 <= i < |layers| ==> LayerOk(layers[i])
    ensures AllFiled(map[], [], layers, 0)
  {
  }

  lemma FiledBelow(pushed: map<Tag, Tensor>, tickets: seq<seq<Ticket>>, layers: seq<Layer>, n: nat)
    requires (forall i :: 0 <= i < |layers| ==> LayerOk(layers[i])) && AllFiled(pushed, tickets, layers, n)
    ensures |tickets| == n <= |layers| && forall tag :: tag in pushed ==> tag.group < n
  {
  }

  lemma FiledOf(pushed: map<Tag, Tensor>, tickets: seq<seq<Ticket>>, layers: seq<Layer>, i: nat)
    requires (forall i :: 0 <= i < |layers| ==> LayerOk(layers[i])) && AllFiled(pushed, tickets, layers, |layers|)
    requires i < |layers|
    ensures |tickets| == |layers| && Issued(tickets[i], layers[i], i, |layers[i].saved|)
    ensures Filed(pushed, tickets[i], layers[i], i, |layers[i].saved|)
  {
  }

  lemma AllRemain(pushed: map<Tag, Tensor>, all: map<Tag, Tensor>, n: nat)
    requires all.Keys == pushed.Keys && forall tag :: tag in pushed ==> tag.group < n
    ensures Remaining(all, all, n)
  {
    assert forall tag :: tag in all ==> tag in pushed.Keys;
  }

  lemma NothingRemains(due: map<Tag, Tensor>, all: map<Tag, Tensor>)
    requires Remaining(due, all, 0)
    ensures due == map[]
  {
  }

  /** When every group comes back as pushed no reload fails. */
  lemma CommitFitsWhenFaithful(s: Store, due: map<Tag, Tensor>, phase: Phase, all: map<Tag, Tensor>, n: nat)
    requires Inv(s, due, phase) && s.current > 0 && (phase == Forward ==> s.current == s.layers)
    requires Remaining(due, all, n) && forall tag :: tag in all ==> WellFormed(all[tag])
    ensures !ReloadFails(s)
  {
    if phase == Forward {
      TurnAround(s, due);
    }
    hide Inv, ReloadFails, WellFormed;
    WellFormedFits(s, due);
  }

  /** The layers from `n` on got what they saved exactly when their groups come back as pushed. */
  ghost predicate RestoredFrom(restored: seq<seq<Tensor>>, layers: seq<Layer>, n: nat,
                               pushed: map<Tag, Tensor>, due: map<Tag, Tensor>)
    requires forall i :: 0 <= i < |layers| ==> LayerOk(layers[i])
  {
    n + |restored| == |layers|
    && forall k :: 0 <= k < |restored| ==>
         (LayerRestored(restored[k], layers[n + k]) <==> Restored(pushed, due, n + k))
  }

  lemma AllRestoredLayers(restored: seq<seq<Tensor>>, layers: seq<Layer>, pushed: map<Tag, Tensor>, all: map<Tag, Tensor>)
    requires (forall i :: 0 <= i < |layers| ==> LayerOk(layers[i])) && RestoredFrom(restored, layers, 0, pushed, all)
    requires forall tag :: tag in pushed ==> tag.group < |layers|
    ensures StepRestored(restored, layers) <==> forall g: nat :: Restored(pushed, all, g)
  {
    hide LayerRestored, LayerOk;
    forall g: nat | g >= |layers| ensures Restored(pushed, all, g) {
    }
    assert forall k :: 0 <= k < |layers| ==> layers[0 + k] == layers[k];
    hide Restored;
    forall k | 0 <= k < |layers| ensures LayerRestored(restored[k], layers[k]) <==> Restored(pushed, all, k) {
      assert LayerRestored(restored[k], layers[0 + k]) <==> Restored(pushed, all, 0 + k);
    }
  }

  method ForwardPass(h: OffloadHandler, layers: seq<Layer>) returns (tickets: seq<seq<Ticket>>)
    requires h.Valid() && h.phase == Forward && h.currentGroup == 0 && h.pushed == map[] && |layers| == h.layers
    requires forall i :: 0 <= i < |layers| ==> LayerOk(layers[i])
    modifies h
    ensures h.Valid() && h.phase == Forward && h.currentGroup == |layers|
    ensures AllFiled(h.pushed, tickets, layers, |layers|)
  {
    hide Inv, Accords, LayerOk, Issued, Filed, AllFiled;
    tickets := [];
    NothingFiled(layers);
    for i := 0 to |layers|
      invariant h.Valid() && h.phase == Forward && h.currentGroup == i && AllFiled(h.pushed, tickets, layers, i)
    {
      FiledBelow(h.pushed, tickets, layers, i);
      ghost var was := h.pushed;
      var more := PushLayer(h, layers[i]);
      FiledLayer(was, h.pushed, tickets, layers, i, more);
      tickets := tickets + [more];
      h.OnGroupCommitForward();
    }
  }

  lemma RestoredMore(restored: seq<seq<Tensor>>, layers: seq<Layer>, n: nat, pushed: map<Tag, Tensor>, due: map<Tag, Tensor>,
                     got: seq<Tensor>)
    requires (forall i :: 0 <= i < |layers| ==> LayerOk(layers[i])) && n < |layers|
    requires RestoredFrom(restored, layers, n + 1, pushed, due)
    requires LayerRestored(got, layers[n]) <==> Restored(pushed, due, n)
    ensures RestoredFrom([got] + restored, layers, n, pushed, due)
  {
    hide LayerRestored, Restored, LayerOk;
    var after := [got] + restored;
    assert forall k :: 1 <= k < |after| ==> after[k] == restored[k - 1];
    forall k | 0 <= k < |after| ensures LayerRestored(after[k], layers[n + k]) <==> Restored(pushed, due, n + k) {
      if k > 0 {
        assert layers[n + 1 + (k - 1)] == layers[n + k];
        assert LayerRestored(restored[k - 1], layers[n + 1 + (k - 1)]) <==> Restored(pushed, due, n + 1 + (k - 1));
      }
    }
  }

  /** One layer of the backward pass. */
  method BackwardLayer(h: OffloadHandler, l: Layer, tickets: seq<Ticket>, ghost n: nat,
                       ghost pushed: map<Tag, Tensor>, ghost all: map<Tag, Tensor>)
    returns (ok: bool, got: seq<Tensor>)
    requires h.Valid() && h.currentGroup == n + 1 && (h.phase == Forward ==> h.currentGroup == h.layers)
    requires LayerOk(l) && Issued(tickets, l, n, |l.saved|) && Filed(pushed, tickets, l, n, |l.saved|)
    requires all.Keys == pushed.Keys && Remaining(h.due, all, n + 1)
    modifies h
    ensures (forall tag :: tag in all ==> WellFormed(all[tag])) ==> ok
    ensures ok ==> h.Valid() && h.phase == Backward && h.currentGroup == n && Remaining(h.due, all, n)
    ensures ok ==> (LayerRestored(got, l) <==> Restored(pushed, all, n))
  {
    hide Inv, Accords, LayerOk, Issued, Filed, WellFormed, Remaining, Redeemed, LayerRestored, Restored, ReloadFails, Redeemable;
    ghost var was := h.due;
    if forall tag :: tag in all ==> WellFormed(all[tag]) {
      CommitFitsWhenFaithful(h.View(), h.due, h.phase, all, n + 1);
    }
    ok := h.OnGroupCommitBackward();
    if !ok {
      return ok, [];
    }
    CanRedeem(was, all, pushed, tickets, l, n);
    got := PopLayer(h, l, tickets, n);
    PoppedLayer(h.due, was, all, pushed, tickets, l, n);
    LayerRestoredIs(got, all, pushed, tickets, l, n);
  }

  lemma NoneRestored(layers: seq<Layer>, pushed: map<Tag, Tensor>, all: map<Tag, Tensor>)
    requires forall i :: 0 <= i < |layers| ==> LayerOk(layers[i])
    ensures RestoredFrom([], layers, |layers|, pushed, all)
  {
  }

  method BackwardPass(h: OffloadHandler, layers: seq<Layer>, tickets: seq<seq<Ticket>>) returns (r: Result<seq<seq<Tensor>>>)
    requires h.Valid() && h.phase == Forward && h.currentGroup == h.layers == |layers| > 0
    requires forall i :: 0 <= i < |layers| ==> LayerOk(layers[i])
    requires AllFiled(h.pushed, tickets, layers, |layers|)
    modifies h
    ensures r.Ok? || r.RuntimeError?
    ensures (forall tag :: tag in old(h.due) ==> WellFormed(old(h.due)[tag])) ==> r.Ok?
    ensures r.Ok? ==> h.Valid() && h.phase == Backward && h.currentGroup == 0 && h.due == map[]
    ensures r.Ok? ==> RestoredFrom(r.value, layers, 0, old(h.pushed), old(h.due))
  {
    hide Inv, Accords, LayerOk, Issued, Filed, AllFiled, WellFormed, Remaining, LayerRestored, Restored, RestoredFrom;
    ghost var pushed, all := h.pushed, h.due;
    var restored: seq<seq<Tensor>> := [];
    var i := |layers|;
    FiledBelow(pushed, tickets, layers, i);
    AllRemain(pushed, all, i);
    NoneRestored(layers, pushed, all);
    while i > 0
      invariant 0 <= i <= |layers| && h.Valid() && h.currentGroup == i && Remaining(h.due, all, i)
      invariant h.phase == if i == |layers| then Forward else Backward
      invariant RestoredFrom(restored, layers, i, pushed, all)
    {
      i := i - 1;
      FiledOf(pushed, tickets, layers, i);
      var ok, got := BackwardLayer(h, layers[i], tickets[i], i, pushed, all);
      if !ok {
        return RuntimeError;
      }
      RestoredMore(restored, layers, i, pushed, all, got);
      restored := [got] + restored;
    }
    NothingRemains(h.due, all);
    r := Ok(restored);
  }

  lemma SomeLayers(s: Store, due: map<Tag, Tensor>, phase: Phase)
    requires Inv(s, due, phase)
    ensures s.layers > 0
  {
    hide CountOk, MappingOk, StateOk, BufOk, TagsOk;
  }

  /** Offloading is invisible, to any backward order and any choice of tensors, if and only if in each layer whose tensors
    leave the device equal keys mean equal elements: then the step succeeds and every layer's backward gets the
    values its forward saved. The handler ends as it began, so steps can follow one another without end. */
  method TrainStep(h: OffloadHandler, layers: seq<Layer>) returns (r: Result<seq<seq<Tensor>>>)
    requires h.Valid() && h.phase == Forward && AtRest(h.View()) && h.pushed == map[] && |layers| == h.layers
    requires forall i :: 0 <= i < |layers| ==> LayerOk(layers[i])
    modifies h
    ensures r.Ok? || r.RuntimeError?
    ensures r.Ok? && StepRestored(r.value, layers) <==> StepFaithful(layers, h.groups)
    ensures r.Ok? ==> h.Valid() && h.phase == Forward && AtRest(h.View()) && h.pushed == map[]
  {
    hide Inv, Accords, LayerOk, StepFaithful, StepRestored, AllFiled, WellFormed, Restored, RestoredFrom;
    SomeLayers(h.View(), h.due, h.phase);
    var tickets := ForwardPass(h, layers);
    ghost var pushed, due := h.pushed, h.due;
    FiledBelow(pushed, tickets, layers, |layers|);
    StepFaithfulIs(h.View(), pushed, due, tickets, layers);
    r := BackwardPass(h, layers, tickets);
    if r.Ok? {
      AllRestoredLayers(r.value, layers, pushed, due);
      h.NextPass();
    }
  }
}
