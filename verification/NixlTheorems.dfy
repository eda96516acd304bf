/** What the relay guarantees in every run: in-order delivery, buffer safety, no deadlock, termination. */
module NixlTheorems {
  import opened Packing
  import opened Prelude
  import opened NixlAgents
  import opened NixlRelay
  import opened NixlInvariant
  import opened NixlLinks

  // ---------------------------------------------------------------- delivery

  lemma ReceiverDelivers(bs: seq<Bucket>, cap: nat, hasNext: bool, k: Rank)
    requires ReceiverInv(bs, cap, hasNext, k)
    ensures k.yielded <= Decode(bs)
    ensures k.pc.RDone? ==> k.yielded == Decode(bs)
  {
    if !k.pc.RFirstMeta? && !k.pc.RFirstRead? {
      var cur := Current(k.pc, k.seen);
      DecodeSnoc(bs, cur);
      DecodePrefix(bs, cur + 1);
      assert k.yielded <= Decode(bs[..cur + 1]);
      if k.pc.RDone? {
        assert bs[..cur + 1] == bs;
      }
    }
  }

  lemma ReceiverOf(c: Config, s: System, r: nat)
    requires 0 < r < |s| && RankInv(c, Buckets(c.ws, c.cap), r, s[r])
    ensures ReceiverInv(Buckets(c.ws, c.cap), c.cap, HasNext(c, r), s[r])
  {
    hide ReceiverInv;
  }

  /** In every state of every run each receiver has yielded a prefix of the decoded buckets, and a receiver
    that is done has yielded all of them. */
  lemma YieldsArePrefixes(c: Config, s0: System, run: seq<Action>, s: System, r: nat)
    requires ValidWeights(c.ws) && Init(c, s0) && After(c, s0, run) == Some(s) && 0 < r < |s|
    ensures s[r].yielded <= Decode(Buckets(c.ws, c.cap))
    ensures s[r].pc.RDone? ==> s[r].yielded == Decode(Buckets(c.ws, c.cap))
  {
    hide RankInv, LinkInv, Inv;
    RunKeepsInv(c, s0, run);
    RankLinks(c, s, r);
    ReceiverOf(c, s, r);
    ReceiverDelivers(Buckets(c.ws, c.cap), c.cap, HasNext(c, r), s[r]);
  }

  /** The promise of the engine: with distinct names, what a receiver has yielded is always a prefix of the
    weights, names, shapes, dtypes and bytes alike, and is the whole list once it is done. */
  lemma InOrderDelivery(c: Config, s0: System, run: seq<Action>, s: System, r: nat)
    requires ValidWeights(c.ws) && DistinctNames(c.ws)
    requires Init(c, s0) && After(c, s0, run) == Some(s) && 0 < r < |s|
    ensures s[r].yielded <= c.ws
    ensures s[r].pc.RDone? ==> s[r].yielded == c.ws
  {
    YieldsArePrefixes(c, s0, run, s, r);
    PackingIsLossless(c.ws, c.cap);
  }

  /** A receiver that is done has the exact weight list if and only if no bucket was given a name twice. */
  lemma ExactDelivery(c: Config, s0: System, run: seq<Action>, s: System, r: nat)
    requires ValidWeights(c.ws) && Init(c, s0) && After(c, s0, run) == Some(s) && 0 < r < |s| && s[r].pc.RDone?
    ensures s[r].yielded == c.ws <==> NamesFresh(c.ws, c.cap, |c.ws|)
  {
    YieldsArePrefixes(c, s0, run, s, r);
    DecodeRestoresWeights(c.ws, c.cap);
  }

  // ---------------------------------------------------------------- buffers and keys

  /** The buffer a rank is filling or reading into. */
  function WriteTarget(k: Rank): Option<bool> {
    if k.pc.SFill? || k.pc.SPut? then Some(k.send)
    else if Active(k) then Some(k.xfer.value.dst)
    else None
  }

  predicate Disjoint(r: nat, p: Rank, q: Rank) {
    var w := WriteTarget(p);
    w.Some? ==>
      && (PendingMessages(q.box, r) != [] ==> PendingMessages(q.box, r)[0].remoteBuf != w.value)
      && (Active(q) ==> q.xfer.value.src != w.value)
  }

  lemma TargetIsNotOnOffer(c: Config, bs: seq<Bucket>, r: nat, k: Rank)
    requires RankInv(c, bs, r, k) && WriteTarget(k).Some?
    ensures k.op.Some? ==> k.op.value.buf != WriteTarget(k).value
    ensures r > 0 && Holding(k.pc) ==> WriteTarget(k).value != k.send
  {
  }

  lemma LinkIsDisjoint(c: Config, bs: seq<Bucket>, r: nat, p: Rank, q: Rank)
    requires RankInv(c, bs, r, p) && LinkInv(bs, r, p, q)
    ensures Disjoint(r, p, q)
  {
    hide RankInv;
    if WriteTarget(p).Some? {
      TargetIsNotOnOffer(c, bs, r, p);
    }
  }

  /** No rank ever writes a buffer it has an unacknowledged offer on, a buffer its successor has been told
    to read or is reading, or the buffer it is yielding tensors from. */
  lemma BufferSafety(c: Config, s0: System, run: seq<Action>, s: System, r: nat)
    requires ValidWeights(c.ws) && Init(c, s0) && After(c, s0, run) == Some(s) && r < |s| && WriteTarget(s[r]).Some?
    ensures s[r].op.Some? ==> s[r].op.value.buf != WriteTarget(s[r]).value
    ensures r > 0 && Holding(s[r].pc) ==> WriteTarget(s[r]).value != s[r].send
    ensures r + 1 < |s| ==> Disjoint(r, s[r], s[r + 1])
  {
    hide RankInv, LinkInv, Inv;
    RunKeepsInv(c, s0, run);
    RankLinks(c, s, r);
    TargetIsNotOnOffer(c, Buckets(c.ws, c.cap), r, s[r]);
    if r + 1 < |s| {
      LinkIsDisjoint(c, Buckets(c.ws, c.cap), r, s[r], s[r + 1]);
    }
  }

  lemma NeverCrashedRank(c: Config, bs: seq<Bucket>, r: nat, k: Rank)
    requires RankInv(c, bs, r, k)
    ensures k.pc != Crashed
    ensures k.pc == SFailed ==> !AllFit(c.ws, c.cap)
  {
  }

  lemma AwaitsSuccessor(c: Config, bs: seq<Bucket>, r: nat, k: Rank)
    requires RankInv(c, bs, r, k)
    ensures k.op.Some? ==> k.remoteName == r + 1
  {
  }

  lemma LinkTokensOf(bs: seq<Bucket>, r: nat, p: Rank, q: Rank)
    requires LinkInv(bs, r, p, q)
    ensures OnlySuccessor(r, p) && LinkTokens(r, p, q)
    ensures PendingMessages(q.box, r) != [] ==> p.offers <= |bs|
  {
    hide LinkTokens, OnlySuccessor, CopiedSoFar;
  }

  /** The key assertion never fails; an agent has at most one offer in flight; and only the successor's
    notifications ever reach a rank, so reassigning `remote_name` is harmless. */
  lemma OneOfferInFlight(c: Config, s0: System, run: seq<Action>, s: System, r: nat)
    requires ValidWeights(c.ws) && Init(c, s0) && After(c, s0, run) == Some(s) && r < |s|
    ensures s[r].pc != Crashed
    ensures s[r].op.Some? ==> s[r].remoteName == r + 1
    ensures r + 1 < |s| ==> OnlySuccessor(r, s[r])
    ensures r + 1 < |s| ==>
              |PendingMessages(s[r + 1].box, r)| + Count(Active(s[r + 1])) + |PendingNotes(s[r].box, r + 1)|
              == Count(s[r].op.Some?)
  {
    hide RankInv, LinkInv, Inv;
    RunKeepsInv(c, s0, run);
    RankLinks(c, s, r);
    NeverCrashedRank(c, Buckets(c.ws, c.cap), r, s[r]);
    AwaitsSuccessor(c, Buckets(c.ws, c.cap), r, s[r]);
    if r + 1 < |s| {
      LinkTokensOf(Buckets(c.ws, c.cap), r, s[r], s[r + 1]);
    }
  }

  // ---------------------------------------------------------------- deadlock freedom

  ghost predicate Stuck(c: Config, s: System) {
    forall a :: !Enabled(c, s, a)
  }

  predicate Finished(r: nat, k: Rank) {
    if r == 0 then k.pc.SDone? else k.pc.RDone?
  }

  lemma StuckRank(c: Config, s: System, r: nat)
    requires Stuck(c, s) && r < |s|
    ensures ExecRank(c, r, s[r]) == Blocked
    ensures s[r].box.inbox == []
    ensures r > 0 && Active(s[r]) ==> s[r].xfer.value.copied > c.cap
    ensures Awaiting(s[r]) && Queue(s[r].box.notifications, s[r].remoteName) == [] ==> s[r].box.arrived == []
  {
    hide ExecRank, Awaiting;
    assert !Enabled(c, s, Exec(r)) && !Enabled(c, s, Recv(r)) && !Enabled(c, s, Complete(r)) && !Enabled(c, s, Copy(r, 1));
    if Awaiting(s[r]) && s[r].box.arrived != [] {
      assert !Enabled(c, s, Poll(r, s[r].box.arrived[0].sender));
    }
  }

  /** A receiver that nothing can move, and that is not waiting for an acknowledgement, waits for a message or is done. */
  lemma BlockedReceiver(c: Config, bs: seq<Bucket>, r: nat, k: Rank)
    requires r > 0 && RankInv(c, bs, r, k) && !Awaiting(k) && ExecRank(c, r, k) == Blocked && !Active(k)
    ensures k.pc.RDone? || ((k.pc.RFirstMeta? || k.pc.RMeta?) && Queue(k.box.messages, r - 1) == [])
    ensures k.pc.RFirstMeta? ==> k.seen == 0
    ensures k.pc.RMeta? ==> k.seen < |bs|
    ensures k.pc.RDone? ==> k.seen == |bs| && k.op == None && (HasNext(c, r) ==> k.offers == |bs|)
  {
  }

  lemma BlockedSender(c: Config, bs: seq<Bucket>, k: Rank)
    requires RankInv(c, bs, 0, k) && !Awaiting(k) && ExecRank(c, 0, k) == Blocked
    ensures k.pc.SDone? || k.pc.SFailed?
    ensures k.pc.SDone? ==> k.offers == |bs| && k.op == None && AllFit(c.ws, c.cap)
  {
  }

  lemma InactiveReceiver(c: Config, bs: seq<Bucket>, r: nat, k: Rank)
    requires r > 0 && RankInv(c, bs, r, k)
    ensures Active(k) ==> k.xfer.value.copied <= c.cap
  {
  }

  lemma AwaitingIsBlocked(c: Config, r: nat, k: Rank)
    requires Awaiting(k) && ExecRank(c, r, k) == Blocked
    requires if r == 0 then k.pc.SFlushWait? || k.pc.SLastWait? || k.pc.SFinalWait? else k.pc.RAck? || k.pc.RLastAck?
    ensures Queue(k.box.notifications, k.remoteName) == []
  {
  }

  lemma AwaitingPc(c: Config, bs: seq<Bucket>, r: nat, k: Rank)
    requires RankInv(c, bs, r, k) && Awaiting(k)
    ensures if r == 0 then k.pc.SFlushWait? || k.pc.SLastWait? || k.pc.SFinalWait? else k.pc.RAck? || k.pc.RLastAck?
  {
  }

  lemma TokenIsMessage(bs: seq<Bucket>, r: nat, p: Rank, q: Rank)
    requires LinkInv(bs, r, p, q) && p.op.Some? && !Active(q)
    requires Queue(p.box.notifications, r + 1) == [] && p.box.arrived == [] && q.box.inbox == []
    ensures Queue(q.box.messages, r) != [] && q.seen < |bs|
  {
    LinkTokensOf(bs, r, p, q);
  }

  /** Nobody waits for an acknowledgement in a stuck system: the wait would have to be passed on down the
    chain, and the last rank has nobody to wait for. */
  lemma {:induction false} NobodyAwaits(c: Config, s: System, r: nat)
    requires Inv(c, s) && Stuck(c, s) && r < |s|
    ensures !Awaiting(s[r]) && !(r > 0 && Active(s[r]))
    decreases |s| - r
  {
    hide RankInv, LinkInv, Inv, Stuck, ExecRank, LinkTokens;
    var bs, p := Buckets(c.ws, c.cap), s[r];
    InvShape(c, s);
    RankLinks(c, s, r);
    StuckRank(c, s, r);
    if r > 0 {
      InactiveReceiver(c, bs, r, p);
    }
    if Awaiting(p) {
      AwaitingHasSuccessor(c, bs, r, p);
      AwaitingPc(c, bs, r, p);
      AwaitsSuccessor(c, bs, r, p);
      AwaitingIsBlocked(c, r, p);
      var q := s[r + 1];
      NobodyAwaits(c, s, r + 1);
      StuckRank(c, s, r + 1);
      BlockedReceiver(c, bs, r + 1, q);
      TokenIsMessage(bs, r, p, q);
      assert false;
    }
  }

  lemma NothingOnOffer(bs: seq<Bucket>, r: nat, p: Rank, q: Rank)
    requires LinkInv(bs, r, p, q) && p.op == None
    ensures q.seen == p.offers
  {
    LinkTokensOf(bs, r, p, q);
  }

  lemma SomeBucket(c: Config)
    ensures |Buckets(c.ws, c.cap)| > 0
  {
  }

  lemma {:induction false} StuckChain(c: Config, s: System, r: nat)
    requires Inv(c, s) && Stuck(c, s) && r < |s| && s[0].pc.SDone?
    ensures Finished(r, s[r])
    ensures s[r].op == None && (r == 0 || HasNext(c, r) ==> s[r].offers == |Buckets(c.ws, c.cap)|)
  {
    hide RankInv, LinkInv, Inv, Stuck, ExecRank, Buckets;
    var bs := Buckets(c.ws, c.cap);
    assert |bs| > 0 by { SomeBucket(c); }
    InvShape(c, s);
    RankLinks(c, s, r);
    NobodyAwaits(c, s, r);
    StuckRank(c, s, r);
    if r == 0 {
      BlockedSender(c, bs, s[0]);
    } else {
      StuckChain(c, s, r - 1);
      NothingOnOffer(bs, r - 1, s[r - 1], s[r]);
      BlockedReceiver(c, bs, r, s[r]);
    }
  }

  /** No deadlock: a run can only stop when every rank has finished, or when rank 0's size assertion has
    failed, which happens exactly when some weight is larger than a bucket. */
  lemma NoDeadlock(c: Config, s0: System, run: seq<Action>, s: System)
    requires ValidWeights(c.ws) && Init(c, s0) && After(c, s0, run) == Some(s) && Stuck(c, s)
    ensures s[0].pc.SFailed? || forall r :: 0 <= r < |s| ==> Finished(r, s[r])
    ensures s[0].pc.SFailed? <==> !AllFit(c.ws, c.cap)
  {
    hide RankInv, LinkInv, Inv, Stuck, ExecRank, Buckets;
    var bs := Buckets(c.ws, c.cap);
    RunKeepsInv(c, s0, run);
    InvShape(c, s);
    RankLinks(c, s, 0);
    NobodyAwaits(c, s, 0);
    StuckRank(c, s, 0);
    BlockedSender(c, bs, s[0]);
    NeverCrashedRank(c, bs, 0, s[0]);
    if s[0].pc.SDone? {
      forall r | 0 <= r < |s| ensures Finished(r, s[r]) {
        StuckChain(c, s, r);
      }
    }
  }
}
