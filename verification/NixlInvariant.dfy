/** The inductive invariant of the relay: what each rank knows, and what holds across each link. */
module NixlInvariant {
  import opened Packing
  import opened Prelude
  import opened NixlAgents
  import opened NixlRelay

  // `bs` is the list of buckets rank 0 puts on the wire

  function MetaOf(bs: seq<Bucket>, k: nat): Metadata
    requires k < |bs|
  {
    Metadata(bs[k].meta, k == |bs| - 1)
  }

  /** The buffer starts with the bytes of bucket `k`. */
  predicate Holds(bs: seq<Bucket>, k: nat, buf: seq<byte>) {
    k < |bs| && |bs[k].data| <= |buf| && buf[..|bs[k].data|] == bs[k].data
  }

  predicate FitUpTo(c: Config, i: nat) {
    i <= |c.ws| && forall j :: 0 <= j < i ==> |c.ws[j].bytes| <= c.cap
  }

  // ---------------------------------------------------------------- one rank

  predicate BufsInv(cap: nat, k: Rank) {
    |k.bufs.b0| == cap && |k.bufs.b1| == cap
  }

  /** An outstanding offer names the latest bucket, which its buffer still holds. */
  predicate OpInv(bs: seq<Bucket>, r: nat, k: Rank) {
    k.op.Some? ==>
      && 0 < k.offers && Holds(bs, k.offers - 1, k.bufs.At(k.op.value.buf))
      && k.op.value.key == Key(r, k.offers - 1)
      && k.remoteName == r + 1
  }

  /** The open bucket of the sender agrees with packing the first `i` weights. */
  predicate Filled(c: Config, k: Rank, i: nat)
    requires i <= |c.ws|
  {
    var p := Fill(c.ws, c.cap, i);
    && k.offset == |p.open.data| <= |k.bufs.At(k.send)|
    && k.bufs.At(k.send)[..k.offset] == p.open.data
    && k.meta.bucketMeta == p.open.meta
    && k.offers == |p.closed|
  }

  predicate SenderInv(c: Config, bs: seq<Bucket>, k: Rank) {
    && k.xfer == None && k.seen == 0 && k.yielded == []
    && match k.pc
       case SFill(i) => FitUpTo(c, i) && Filled(c, k, i) && (k.op.Some? ==> k.op.value.buf == !k.send)
       case SFlushWait(i) =>
         && FitUpTo(c, i) && i < |c.ws| && Filled(c, k, i) && Overflows(Fill(c.ws, c.cap, i).open, c.ws[i], c.cap)
         && (k.op.Some? ==> k.op.value.buf == !k.send)
       case SPut(i) =>
         && FitUpTo(c, i) && i < |c.ws| && Overflows(Fill(c.ws, c.cap, i).open, c.ws[i], c.cap)
         && k.offset == 0 && k.meta.bucketMeta == [] && k.offers == |Fill(c.ws, c.cap, i).closed| + 1
         && k.op.Some? && k.op.value.buf == !k.send
       case SLastWait =>
         FitUpTo(c, |c.ws|) && Filled(c, k, |c.ws|) && (k.op.Some? ==> k.op.value.buf == !k.send)
       case SFinalWait => FitUpTo(c, |c.ws|) && k.offers == |bs|
       case SDone => FitUpTo(c, |c.ws|) && k.offers == |bs| && k.op == None
       case SFailed => !AllFit(c.ws, c.cap) && k.offers < |bs|
       case _ => false
  }

  /** Offers made by a receiver that stands at `pc` and has read `seen` metadata messages. */
  function OffersAt(pc: Pc, seen: nat): int {
    if pc.RFirstMeta? || pc.RFirstRead? then 0
    else if pc.RHold? || pc.RYield? || pc.RAck? || pc.RRead? then seen - 1
    else seen
  }

  /** The bucket whose tensors the receiver is handing out or is about to hand out. */
  function Current(pc: Pc, seen: nat): int {
    if pc.RYield? || pc.RAck? || pc.RRead? then seen - 2 else seen - 1
  }

  predicate Holding(pc: Pc) {
    pc.RHold? || pc.RMeta? || pc.RYield? || pc.RAck? || pc.RRead? || pc.RLastYield? || pc.RLastAck?
  }

  predicate Reading(pc: Pc) {
    pc.RFirstRead? || pc.RYield? || pc.RAck? || pc.RRead?
  }

  /** Tensors handed out while bucket `cur` is current. */
  predicate YieldInv(bs: seq<Bucket>, k: Rank, cur: nat)
    requires cur < |bs|
  {
    var prior := Decode(bs[..cur]);
    var items := Items(bs[cur]);
    match k.pc
    case RYield(j) => j <= |items| && k.yielded == prior + items[..j]
    case RLastYield(j) => j <= |items| && k.yielded == prior + items[..j]
    case RAck => k.yielded == prior + items
    case RRead => k.yielded == prior + items
    case RLastAck => k.yielded == prior + items
    case RDone => k.yielded == prior + items
    case _ => k.yielded == prior
  }

  predicate XferInv(bs: seq<Bucket>, cap: nat, k: Rank) {
    && (k.xfer.Some? <==> Reading(k.pc))
    && (k.xfer.Some? ==>
          var x := k.xfer.value;
          && x.dst == !k.send && x.copied <= cap
          && (x.done ==> 0 < k.seen && Holds(bs, k.seen - 1, k.bufs.At(x.dst))))
  }

  predicate ReceiverOpInv(hasNext: bool, k: Rank) {
    && k.offers == (if hasNext then OffersAt(k.pc, k.seen) else 0)
    && (k.op.Some? ==> hasNext && k.op.value.buf == k.send
                       && (k.pc.RMeta? || k.pc.RYield? || k.pc.RAck? || k.pc.RLastYield? || k.pc.RLastAck?))
    && (hasNext && (k.pc.RMeta? || k.pc.RYield? || k.pc.RLastYield?) ==> k.op.Some?)
  }

  /** The receiver holds at least one bucket. */
  predicate SteadyInv(bs: seq<Bucket>, k: Rank)
    requires k.seen <= |bs|
  {
    var cur := Current(k.pc, k.seen);
    && (Holding(k.pc) || k.pc.RDone?) && 0 <= cur && k.meta == MetaOf(bs, cur) && YieldInv(bs, k, cur)
    && (Holding(k.pc) ==> Holds(bs, cur, k.bufs.At(k.send)))
    && (Reading(k.pc) ==> k.nextMeta == MetaOf(bs, cur + 1))
    && (k.pc.RMeta? ==> k.seen < |bs|)
    && (k.pc.RLastYield? || k.pc.RLastAck? || k.pc.RDone? ==> k.seen == |bs|)
  }

  predicate ReceiverInv(bs: seq<Bucket>, cap: nat, hasNext: bool, k: Rank) {
    && k.seen <= |bs|
    && XferInv(bs, cap, k) && ReceiverOpInv(hasNext, k)
    && if k.pc.RFirstMeta? then k.seen == 0 && k.yielded == []
       else if k.pc.RFirstRead? then k.seen == 1 && k.yielded == [] && k.meta == MetaOf(bs, 0)
       else SteadyInv(bs, k)
  }

  predicate RankInv(c: Config, bs: seq<Bucket>, r: nat, k: Rank) {
    && BufsInv(c.cap, k) && OpInv(bs, r, k)
    && if r == 0 then SenderInv(c, bs, k) else ReceiverInv(bs, c.cap, HasNext(c, r), k)
  }

  // ---------------------------------------------------------------- one link

  function Count(b: bool): nat { if b then 1 else 0 }

  /** Rank `p = r` and its successor `q = r + 1`: an outstanding offer is in exactly one place, as a
    message on its way, a transfer under way, or a notification on its way back. */
  predicate LinkTokens(r: nat, p: Rank, q: Rank) {
    && q.seen + |PendingMessages(q.box, r)| == p.offers
    && |PendingMessages(q.box, r)| + Count(Active(q)) + |PendingNotes(p.box, r + 1)| == Count(p.op.Some?)
  }

  predicate CopiedSoFar(p: Rank, q: Rank)
    requires p.op.Some? && q.xfer.Some?
  {
    var x := q.xfer.value;
    && x.key == p.op.value.key && x.src == p.op.value.buf
    && Window(q.bufs.At(x.dst), 0, x.copied) == Window(p.bufs.At(x.src), 0, x.copied)
  }

  predicate LinkContent(bs: seq<Bucket>, r: nat, p: Rank, q: Rank) {
    && (PendingMessages(q.box, r) != [] ==>
          && p.op.Some? && 0 < p.offers <= |bs|
          && PendingMessages(q.box, r)[0] == Message(p.op.value.key, p.op.value.buf, MetaOf(bs, p.offers - 1)))
    && (PendingNotes(p.box, r + 1) != [] ==> p.op.Some? && PendingNotes(p.box, r + 1)[0] == p.op.value.key)
    && (Active(q) ==> p.op.Some? && CopiedSoFar(p, q))
  }

  /** Only the successor ever notifies. */
  predicate OnlySuccessor(r: nat, p: Rank) {
    forall i :: 0 <= i < |p.box.arrived| ==> p.box.arrived[i].sender == r + 1
  }

  predicate LinkInv(bs: seq<Bucket>, r: nat, p: Rank, q: Rank) {
    LinkTokens(r, p, q) && LinkContent(bs, r, p, q) && OnlySuccessor(r, p)
  }

  predicate Inv(c: Config, s: System) {
    var bs := Buckets(c.ws, c.cap);
    && c.receivers > 0 && |s| == c.receivers + 1
    && (forall r :: 0 <= r < |s| ==> RankInv(c, bs, r, s[r]))
    && (forall r :: 0 <= r < |s| - 1 ==> LinkInv(bs, r, s[r], s[r + 1]))
  }

  lemma InitInv(c: Config, s: System)
    requires Init(c, s)
    ensures Inv(c, s)
  {
    forall r | 0 <= r < |s| ensures RankInv(c, Buckets(c.ws, c.cap), r, s[r]) {
      assert InitRank(c, r, s[r]);
    }
    forall r | 0 <= r < |s| - 1 ensures LinkInv(Buckets(c.ws, c.cap), r, s[r], s[r + 1]) {
      assert InitRank(c, r, s[r]) && InitRank(c, r + 1, s[r + 1]);
    }
  }
}
