/** How steps act across the links of the chain, and the invariant of the whole system. */
module NixlLinks {
  import opened Packing
  import opened Prelude
  import opened NixlAgents
  import opened NixlRelay
  import opened NixlInvariant
  import opened NixlSteps

  // ---------------------------------------------------------------- statements of the program

  function Delivered(r: nat, q: Rank, out: Option<Message>): Rank {
    if out.Some? then q.(box := Deliver(q.box, Tagged(r, out.value))) else q
  }

  lemma OfferOverLink(bs: seq<Bucket>, r: nat, p: Rank, p': Rank, q: Rank, out: Option<Message>)
    requires LinkInv(bs, r, p, q) && Offered(bs, r, p, p', out)
    ensures LinkInv(bs, r, p', Delivered(r, q, out))
  {
    DeliverPending(q.box, Tagged(r, out.value), r);
  }

  lemma AckOverLink(bs: seq<Bucket>, r: nat, p: Rank, p': Rank, q: Rank)
    requires LinkInv(bs, r, p, q) && Acked(r, p, p', None)
    ensures LinkInv(bs, r, p', q)
  {
    assert PendingNotes(p.box, r + 1) == [Queue(p.box.notifications, r + 1)[0]] + PendingNotes(p'.box, r + 1);
  }

  lemma QuietNotes(r: nat, p: Rank, p': Rank)
    requires Quiet(p, p', None)
    ensures PendingNotes(p'.box, r + 1) == PendingNotes(p.box, r + 1)
  {
  }

  lemma QuietCopied(p: Rank, p': Rank, q: Rank)
    requires Quiet(p, p', None) && p.op.Some? && q.xfer.Some? && CopiedSoFar(p, q)
    ensures CopiedSoFar(p', q)
  {
    hide Window;
  }

  lemma QuietOverLink(bs: seq<Bucket>, r: nat, p: Rank, p': Rank, q: Rank)
    requires LinkInv(bs, r, p, q) && Quiet(p, p', None)
    ensures LinkInv(bs, r, p', q)
  {
    hide PendingMessages, PendingNotes, CopiedSoFar, MetaOf;
    QuietNotes(r, p, p');
    if p.op.Some? && q.xfer.Some? && CopiedSoFar(p, q) {
      QuietCopied(p, p', q);
    }
  }

  lemma ParentSteps(bs: seq<Bucket>, r: nat, p: Rank, p': Rank, q: Rank, out: Option<Message>)
    requires LinkInv(bs, r, p, q) && ToSuccessor(bs, r, p, p', out)
    ensures LinkInv(bs, r, p', Delivered(r, q, out))
  {
    if Offered(bs, r, p, p', out) {
      OfferOverLink(bs, r, p, p', q, out);
    } else if Acked(r, p, p', out) {
      AckOverLink(bs, r, p, p', q);
    } else {
      QuietOverLink(bs, r, p, p', q);
    }
  }

  lemma StartTokens(r: nat, p: Rank, q: Rank, q': Rank)
    requires LinkTokens(r, p, q) && Started(r + 1, q, q')
    ensures PendingMessages(q.box, r) != [] && PendingMessages(q.box, r)[0] == Queue(q.box.messages, r)[0]
    ensures LinkTokens(r, p, q') && PendingMessages(q'.box, r) == [] && PendingNotes(p.box, r + 1) == []
  {
    assert PendingMessages(q.box, r) == [Queue(q.box.messages, r)[0]] + PendingMessages(q'.box, r);
    hide PendingMessages, PendingNotes, Queue, Dequeue;
  }

  lemma NothingCopied(p: Rank, q: Rank)
    requires p.op.Some? && q.xfer.Some? && q.xfer.value.copied == 0
    requires q.xfer.value.key == p.op.value.key && q.xfer.value.src == p.op.value.buf
    ensures CopiedSoFar(p, q)
  {
  }

  lemma StartOverLink(bs: seq<Bucket>, r: nat, p: Rank, q: Rank, q': Rank)
    requires LinkInv(bs, r, p, q) && Started(r + 1, q, q')
    ensures LinkInv(bs, r, p, q')
  {
    StartTokens(r, p, q, q');
    hide PendingMessages, PendingNotes, LinkTokens, CopiedSoFar, OnlySuccessor, MetaOf;
    NothingCopied(p, q');
  }

  lemma StillOverLink(bs: seq<Bucket>, r: nat, p: Rank, q: Rank, q': Rank)
    requires LinkInv(bs, r, p, q) && Still(q, q')
    ensures LinkInv(bs, r, p, q')
  {
    assert PendingMessages(q'.box, r) == PendingMessages(q.box, r);
  }

  lemma ChildSteps(bs: seq<Bucket>, r: nat, p: Rank, q: Rank, q': Rank)
    requires LinkInv(bs, r, p, q) && ToPredecessor(r + 1, q, q')
    ensures LinkInv(bs, r, p, q')
  {
    if Still(q, q') {
      StillOverLink(bs, r, p, q, q');
    } else {
      StartOverLink(bs, r, p, q, q');
    }
  }

  // ---------------------------------------------------------------- mail and transfers

  lemma RecvOverLink(bs: seq<Bucket>, r: nat, p: Rank, q: Rank)
    requires LinkInv(bs, r, p, q) && q.box.inbox != []
    ensures LinkInv(bs, r, p, q.(box := RecvOne(q.box)))
  {
    RecvKeepsPending(q.box, r);
  }

  lemma PollOverLink(bs: seq<Bucket>, r: nat, p: Rank, q: Rank, name: nat)
    requires LinkInv(bs, r, p, q)
    ensures LinkInv(bs, r, p.(box := PollNotes(p.box), remoteName := name), q)
  {
    PollKeepsPending(p.box, r + 1);
  }

  lemma SpliceWindow(src: seq<byte>, dst: seq<byte>, lo: nat, n: nat)
    requires |src| == |dst| && lo + n <= |src| && Window(dst, 0, lo) == Window(src, 0, lo)
    ensures var now := Splice(dst, lo, Window(src, lo, lo + n));
            |now| == |dst| && Window(now, 0, lo + n) == Window(src, 0, lo + n)
  {
    var now := Splice(dst, lo, Window(src, lo, lo + n));
    assert dst[..lo] == src[..lo];
    assert now == src[..lo] + src[lo..lo + n] + dst[lo + n..];
    assert now[..lo + n] == src[..lo + n];
  }

  lemma CopyOverLink(bs: seq<Bucket>, r: nat, cap: nat, p: Rank, q: Rank, n: nat)
    requires LinkInv(bs, r, p, q) && Active(q) && q.xfer.value.copied + n <= cap
    requires BufsInv(cap, p) && BufsInv(cap, q)
    ensures LinkInv(bs, r, p, CopyBytes(p, q, n)) && BufsInv(cap, CopyBytes(p, q, n))
  {
    hide PendingMessages, PendingNotes, Splice, Window;
    var x := q.xfer.value;
    SpliceWindow(p.bufs.At(x.src), q.bufs.At(x.dst), x.copied, n);
  }

  /** Copying writes only into `recv_buf`: neither the bucket being yielded nor the one on offer moves. */
  lemma CopyKeepsReceiver(bs: seq<Bucket>, r: nat, cap: nat, hasNext: bool, p: Rank, q: Rank, n: nat)
    requires ReceiverInv(bs, cap, hasNext, q) && OpInv(bs, r, q) && Active(q) && q.xfer.value.copied + n <= cap
    ensures ReceiverInv(bs, cap, hasNext, CopyBytes(p, q, n)) && OpInv(bs, r, CopyBytes(p, q, n))
    ensures Quiet(q, CopyBytes(p, q, n), None)
  {
    assert CopyBytes(p, q, n).bufs.At(q.send) == q.bufs.At(q.send);
  }

  lemma CopyStep(c: Config, bs: seq<Bucket>, r: nat, p: Rank, q: Rank, n: nat)
    requires RankInv(c, bs, r, p) && RankInv(c, bs, r + 1, q) && LinkInv(bs, r, p, q)
    requires Active(q) && q.xfer.value.copied + n <= c.cap
    ensures RankInv(c, bs, r + 1, CopyBytes(p, q, n)) && LinkInv(bs, r, p, CopyBytes(p, q, n))
    ensures Quiet(q, CopyBytes(p, q, n), None)
  {
    hide LinkInv, ReceiverInv;
    CopyOverLink(bs, r, c.cap, p, q, n);
    CopyKeepsReceiver(bs, r + 1, c.cap, HasNext(c, r + 1), p, q, n);
  }

  function Completed(q: Rank): Rank
    requires Active(q)
  {
    q.(xfer := Some(q.xfer.value.(done := true)))
  }

  function Notified(r: nat, p: Rank, q: Rank): Rank
    requires Active(q)
  {
    p.(box := Notify(p.box, Tagged(r + 1, q.xfer.value.key)))
  }

  lemma CompleteOverLink(bs: seq<Bucket>, r: nat, p: Rank, q: Rank)
    requires LinkInv(bs, r, p, q) && Active(q)
    ensures LinkInv(bs, r, Notified(r, p, q), Completed(q))
  {
    NotifyPending(p.box, Tagged(r + 1, q.xfer.value.key), r + 1);
  }

  /** A finished transfer has brought over the bucket on offer. */
  lemma CompletedHolds(bs: seq<Bucket>, r: nat, cap: nat, p: Rank, q: Rank)
    requires LinkInv(bs, r, p, q) && OpInv(bs, r, p) && BufsInv(cap, p) && BufsInv(cap, q)
    requires Active(q) && q.xfer.value.copied == cap
    ensures 0 < q.seen && Holds(bs, q.seen - 1, q.bufs.At(q.xfer.value.dst))
  {
    hide PendingMessages, PendingNotes, Holds, MetaOf, OnlySuccessor;
    var x := q.xfer.value;
    assert Window(q.bufs.At(x.dst), 0, cap) == q.bufs.At(x.dst);
    assert Window(p.bufs.At(x.src), 0, cap) == p.bufs.At(x.src);
    assert q.bufs.At(x.dst) == p.bufs.At(x.src);
    assert q.seen == p.offers;
  }

  lemma CompletedKeeps(bs: seq<Bucket>, cap: nat, hasNext: bool, q: Rank)
    requires ReceiverInv(bs, cap, hasNext, q) && Active(q)
    requires 0 < q.seen && Holds(bs, q.seen - 1, q.bufs.At(q.xfer.value.dst))
    ensures ReceiverInv(bs, cap, hasNext, Completed(q))
  {
    hide Holds, MetaOf, Decode, Items;
  }

  lemma CompleteKeepsReceiver(bs: seq<Bucket>, r: nat, cap: nat, hasNext: bool, p: Rank, q: Rank)
    requires LinkInv(bs, r, p, q) && OpInv(bs, r, p) && BufsInv(cap, p) && BufsInv(cap, q)
    requires ReceiverInv(bs, cap, hasNext, q) && OpInv(bs, r + 1, q) && Active(q) && q.xfer.value.copied == cap
    ensures ReceiverInv(bs, cap, hasNext, Completed(q)) && OpInv(bs, r + 1, Completed(q))
  {
    OpFrame(bs, r + 1, q, Completed(q));
    hide *;
    CompletedHolds(bs, r, cap, p, q);
    CompletedKeeps(bs, cap, hasNext, q);
  }

  /** What lies in a rank's mailbox does not concern its own invariant. */
  lemma MailKeepsRank(c: Config, bs: seq<Bucket>, r: nat, k: Rank, box: Mailbox)
    requires RankInv(c, bs, r, k)
    ensures RankInv(c, bs, r, k.(box := box))
  {
  }

  lemma CompleteStep(c: Config, bs: seq<Bucket>, r: nat, p: Rank, q: Rank)
    requires RankInv(c, bs, r, p) && RankInv(c, bs, r + 1, q) && LinkInv(bs, r, p, q)
    requires Active(q) && q.xfer.value.copied == c.cap
    ensures RankInv(c, bs, r, Notified(r, p, q)) && RankInv(c, bs, r + 1, Completed(q))
    ensures LinkInv(bs, r, Notified(r, p, q), Completed(q))
  {
    hide LinkInv, ReceiverInv;
    CompleteOverLink(bs, r, p, q);
    CompleteKeepsReceiver(bs, r, c.cap, HasNext(c, r + 1), p, q);
    MailKeepsRank(c, bs, r, p, Notified(r, p, q).box);
  }

  lemma PollKeepsRank(c: Config, bs: seq<Bucket>, r: nat, k: Rank)
    requires RankInv(c, bs, r, k)
    ensures RankInv(c, bs, r, k.(box := PollNotes(k.box), remoteName := r + 1))
  {
  }

  /** The last rank never waits for an acknowledgement. */
  lemma AwaitingHasSuccessor(c: Config, bs: seq<Bucket>, r: nat, k: Rank)
    requires RankInv(c, bs, r, k) && Awaiting(k)
    ensures r == 0 || r < c.receivers
  {
  }

  // ---------------------------------------------------------------- the whole system

  /** After a step that replaced ranks `r` and `r + 1` at most, only the links around them need a look. */
  lemma Reassemble(c: Config, s: System, t: System, r: nat)
    requires Inv(c, s) && |t| == |s| && r < |s|
    requires forall i :: 0 <= i < |s| && i != r && i != r + 1 ==> t[i] == s[i]
    requires RankInv(c, Buckets(c.ws, c.cap), r, t[r])
    requires r + 1 < |s| ==> RankInv(c, Buckets(c.ws, c.cap), r + 1, t[r + 1])
    requires r > 0 ==> LinkInv(Buckets(c.ws, c.cap), r - 1, t[r - 1], t[r])
    requires r + 1 < |s| ==> LinkInv(Buckets(c.ws, c.cap), r, t[r], t[r + 1])
    requires r + 2 < |s| ==> LinkInv(Buckets(c.ws, c.cap), r + 1, t[r + 1], t[r + 2])
    ensures Inv(c, t)
  {
    hide RankInv, LinkInv;
    var bs := Buckets(c.ws, c.cap);
    forall i | 0 <= i < |t| ensures RankInv(c, bs, i, t[i]) {
      if i != r && i != r + 1 {
        assert RankInv(c, bs, i, s[i]);
      }
    }
    forall i | 0 <= i < |t| - 1 ensures LinkInv(bs, i, t[i], t[i + 1]) {
      if i != r && i != r + 1 && i + 1 != r {
        assert LinkInv(bs, i, s[i], s[i + 1]);
      }
    }
  }

  /** The links of rank `r` make its next message and notification the expected ones. */
  lemma RankLinks(c: Config, s: System, r: nat)
    requires Inv(c, s) && r < |s|
    ensures RankInv(c, Buckets(c.ws, c.cap), r, s[r])
    ensures r > 0 ==> RankInv(c, Buckets(c.ws, c.cap), r - 1, s[r - 1])
                      && LinkInv(Buckets(c.ws, c.cap), r - 1, s[r - 1], s[r])
    ensures r + 1 < |s| ==> RankInv(c, Buckets(c.ws, c.cap), r + 1, s[r + 1])
                            && LinkInv(Buckets(c.ws, c.cap), r, s[r], s[r + 1])
    ensures r + 2 < |s| ==> LinkInv(Buckets(c.ws, c.cap), r + 1, s[r + 1], s[r + 2])
    ensures r > 1 ==> LinkInv(Buckets(c.ws, c.cap), r - 2, s[r - 2], s[r - 1])
  {
    hide RankInv, LinkInv;
    if r > 0 {
      assert s[r - 1 + 1] == s[r];
    }
    if r > 1 {
      assert s[r - 2 + 1] == s[r - 1];
    }
  }

  lemma LastRankHears(c: Config, bs: seq<Bucket>, r: nat, k: Rank)
    requires c.receivers > 0 && r == c.receivers && RankInv(c, bs, r, k)
    ensures NoteOk(k)
  {
  }

  lemma RankZeroHears(bs: seq<Bucket>, k: Rank)
    ensures MsgOk(bs, 0, k)
  {
  }

  lemma RankHears(c: Config, s: System, r: nat)
    requires Inv(c, s) && r < |s|
    ensures NoteOk(s[r]) && MsgOk(Buckets(c.ws, c.cap), r, s[r])
  {
    hide RankInv, LinkInv, NoteOk, MsgOk;
    var bs := Buckets(c.ws, c.cap);
    RankLinks(c, s, r);
    if r + 1 < |s| {
      LinkGivesNoteOk(c, bs, r, s[r], s[r + 1]);
    } else {
      LastRankHears(c, bs, r, s[r]);
    }
    if r > 0 {
      LinkGivesMsgOk(bs, r - 1, s[r - 1], s[r]);
    } else {
      assert MsgOk(bs, r, s[r]) by { RankZeroHears(bs, s[r]); }
    }
  }

  lemma ExecKeepsInv(c: Config, s: System, r: nat)
    requires ValidWeights(c.ws) && Inv(c, s) && r < |s| && ExecRank(c, r, s[r]).Go?
    ensures Inv(c, Next(c, s, Exec(r)))
  {
    hide RankInv, LinkInv, NoteOk, MsgOk, ExecRank, ToSuccessor, ToPredecessor, Inv;
    var bs := Buckets(c.ws, c.cap);
    var o, t := ExecRank(c, r, s[r]), Next(c, s, Exec(r));
    RankLinks(c, s, r);
    RankHears(c, s, r);
    forall k | 0 <= k < |bs| ensures InBounds(bs[k]) { BucketsInBounds(c.ws, c.cap, k); }
    RankStep(c, bs, r, s[r]);
    RankEffects(c, bs, r, s[r]);
    if r + 1 < |s| {
      ParentSteps(bs, r, s[r], o.rank, s[r + 1], o.out);
      if o.out.Some? {
        MailKeepsRank(c, bs, r + 1, s[r + 1], t[r + 1].box);
        if r + 2 < |s| {
          QuietOverLink(bs, r + 1, s[r + 1], t[r + 1], s[r + 2]);
        }
      }
    }
    if r > 0 {
      ChildSteps(bs, r - 1, s[r - 1], s[r], o.rank);
    }
    Reassemble(c, s, t, r);
  }

  lemma RecvKeepsInv(c: Config, s: System, r: nat)
    requires Inv(c, s) && r < |s| && s[r].box.inbox != []
    ensures Inv(c, Next(c, s, Recv(r)))
  {
    hide RankInv, LinkInv, Inv;
    var bs := Buckets(c.ws, c.cap);
    var t := Next(c, s, Recv(r));
    RankLinks(c, s, r);
    MailKeepsRank(c, bs, r, s[r], t[r].box);
    if r > 0 {
      RecvOverLink(bs, r - 1, s[r - 1], s[r]);
    }
    if r + 1 < |s| {
      QuietOverLink(bs, r, s[r], t[r], s[r + 1]);
    }
    Reassemble(c, s, t, r);
  }

  lemma PollHearsSuccessor(bs: seq<Bucket>, r: nat, p: Rank, q: Rank, last: nat)
    requires LinkInv(bs, r, p, q)
    requires exists i :: 0 <= i < |p.box.arrived| && p.box.arrived[i].sender == last
    ensures last == r + 1
  {
  }

  lemma InvShape(c: Config, s: System)
    requires Inv(c, s)
    ensures c.receivers > 0 && |s| == c.receivers + 1
  {
    hide RankInv, LinkInv;
  }

  lemma PollKeepsInv(c: Config, s: System, r: nat, last: nat)
    requires Inv(c, s) && Enabled(c, s, Poll(r, last))
    ensures Inv(c, Next(c, s, Poll(r, last)))
  {
    hide RankInv, LinkInv, Inv;
    var bs := Buckets(c.ws, c.cap);
    var t := Next(c, s, Poll(r, last));
    InvShape(c, s);
    RankLinks(c, s, r);
    AwaitingHasSuccessor(c, bs, r, s[r]);
    PollHearsSuccessor(bs, r, s[r], s[r + 1], last);
    PollKeepsRank(c, bs, r, s[r]);
    PollOverLink(bs, r, s[r], s[r + 1], last);
    if r > 0 {
      StillOverLink(bs, r - 1, s[r - 1], s[r], t[r]);
    }
    Reassemble(c, s, t, r);
  }

  lemma CopyKeepsInv(c: Config, s: System, r: nat, n: nat)
    requires Inv(c, s) && Enabled(c, s, Copy(r, n))
    ensures Inv(c, Next(c, s, Copy(r, n)))
  {
    hide RankInv, LinkInv, Inv;
    var bs := Buckets(c.ws, c.cap);
    var t := Next(c, s, Copy(r, n));
    RankLinks(c, s, r);
    CopyStep(c, bs, r - 1, s[r - 1], s[r], n);
    if r + 1 < |s| {
      QuietOverLink(bs, r, s[r], t[r], s[r + 1]);
    }
    Reassemble(c, s, t, r);
  }

  lemma CompleteKeepsInv(c: Config, s: System, r: nat)
    requires Inv(c, s) && Enabled(c, s, Complete(r))
    ensures Inv(c, Next(c, s, Complete(r)))
  {
    hide RankInv, LinkInv, Inv;
    var bs := Buckets(c.ws, c.cap);
    var t := Next(c, s, Complete(r));
    var p, q := s[r - 1], s[r];
    RankLinks(c, s, r);
    CompleteStep(c, bs, r - 1, p, q);
    assert t[r] == Completed(q) && t[r - 1] == Notified(r - 1, p, q);
    if r + 1 < |s| {
      QuietOverLink(bs, r, q, t[r], s[r + 1]);
    }
    if r > 1 {
      StillOverLink(bs, r - 2, s[r - 2], p, t[r - 1]);
    }
    Reassemble(c, s, t, r - 1);
  }

  /** Every step, by any rank or by the network, keeps the invariant. */
  lemma StepKeepsInv(c: Config, s: System, a: Action)
    requires ValidWeights(c.ws) && Inv(c, s) && Enabled(c, s, a)
    ensures Inv(c, Next(c, s, a))
  {
    match a
    case Exec(r) => ExecKeepsInv(c, s, r);
    case Recv(r) => RecvKeepsInv(c, s, r);
    case Poll(r, last) => PollKeepsInv(c, s, r, last);
    case Copy(r, n) => CopyKeepsInv(c, s, r, n);
    case Complete(r) => CompleteKeepsInv(c, s, r);
  }

  /** The invariant holds in every state of every run. */
  lemma {:induction false} RunKeepsInv(c: Config, s0: System, run: seq<Action>)
    requires ValidWeights(c.ws) && Init(c, s0) && After(c, s0, run).Some?
    ensures Inv(c, After(c, s0, run).value)
  {
    if run == [] {
      InitInv(c, s0);
    } else {
      RunKeepsInv(c, s0, run[..|run| - 1]);
      StepKeepsInv(c, After(c, s0, run[..|run| - 1]).value, run[|run| - 1]);
    }
  }
}
