/** Every step of the relay keeps its invariant. */
module NixlSteps {
  import opened Packing
  import opened Prelude
  import opened NixlAgents
  import opened NixlRelay
  import opened NixlInvariant

  predicate AllInBounds(bs: seq<Bucket>) {
    forall k :: 0 <= k < |bs| ==> InBounds(bs[k])
  }

  // ---------------------------------------------------------------- what a rank learns from its links

  /** The notification at the head of the awaited queue is the one for the outstanding offer. */
  predicate NoteOk(k: Rank) {
    k.op.Some? && Queue(k.box.notifications, k.remoteName) != [] ==>
      Queue(k.box.notifications, k.remoteName)[0] == k.op.value.key
  }

  /** The message at the head of the predecessor's queue describes the next bucket. */
  predicate MsgOk(bs: seq<Bucket>, r: nat, k: Rank) {
    r > 0 && Queue(k.box.messages, r - 1) != [] ==>
      k.seen < |bs| && Queue(k.box.messages, r - 1)[0].metadata == MetaOf(bs, k.seen)
  }

  lemma LinkGivesNoteOk(c: Config, bs: seq<Bucket>, r: nat, p: Rank, q: Rank)
    requires RankInv(c, bs, r, p) && LinkInv(bs, r, p, q)
    ensures NoteOk(p)
  {
    if p.op.Some? && Queue(p.box.notifications, p.remoteName) != [] {
      assert PendingNotes(p.box, r + 1)[0] == Queue(p.box.notifications, r + 1)[0];
    }
  }

  lemma LinkGivesMsgOk(bs: seq<Bucket>, r: nat, p: Rank, q: Rank)
    requires LinkInv(bs, r, p, q)
    ensures MsgOk(bs, r + 1, q)
  {
    if Queue(q.box.messages, r) != [] {
      assert PendingMessages(q.box, r)[0] == Queue(q.box.messages, r)[0];
    }
  }

  // ---------------------------------------------------------------- how a statement touches the links

  /** Seen from the successor, a statement is silent, consumes the acknowledgement, or makes an offer. */
  predicate Quiet(k: Rank, k': Rank, out: Option<Message>) {
    && out == None && k'.op == k.op && k'.offers == k.offers
    && k'.box.notifications == k.box.notifications && k'.box.arrived == k.box.arrived
    && (k.op.Some? ==> k'.bufs.At(k.op.value.buf) == k.bufs.At(k.op.value.buf))
  }

  predicate Acked(r: nat, k: Rank, k': Rank, out: Option<Message>) {
    && out == None && k.op.Some? && k'.op == None && k'.offers == k.offers
    && Queue(k.box.notifications, r + 1) != [] && k'.box == PopNote(k.box, r + 1)
  }

  predicate Offered(bs: seq<Bucket>, r: nat, k: Rank, k': Rank, out: Option<Message>) {
    && k.op == None && k'.op.Some? && k.offers < |bs| && k'.offers == k.offers + 1 && k'.box == k.box
    && out == Some(Message(k'.op.value.key, k'.op.value.buf, MetaOf(bs, k.offers)))
  }

  predicate ToSuccessor(bs: seq<Bucket>, r: nat, k: Rank, k': Rank, out: Option<Message>) {
    Quiet(k, k', out) || Acked(r, k, k', out) || Offered(bs, r, k, k', out)
  }

  /** Seen from the predecessor, a statement does nothing or turns a message into a transfer. */
  predicate Still(k: Rank, k': Rank) {
    && k'.seen == k.seen && k'.box.inbox == k.box.inbox && k'.box.messages == k.box.messages
    && Active(k') == Active(k) && (Active(k) ==> k'.xfer == k.xfer && k'.bufs == k.bufs)
  }

  predicate Started(r: nat, k: Rank, k': Rank)
    requires r > 0
  {
    && !Active(k) && Queue(k.box.messages, r - 1) != [] && k'.seen == k.seen + 1
    && k'.box.inbox == k.box.inbox && k'.box.messages == Dequeue(k.box.messages, r - 1)
    && Active(k') && k'.xfer.value.copied == 0
    && k'.xfer.value.src == Queue(k.box.messages, r - 1)[0].remoteBuf
    && k'.xfer.value.key == Queue(k.box.messages, r - 1)[0].notifyKey
  }

  predicate ToPredecessor(r: nat, k: Rank, k': Rank) {
    Still(k, k') || (r > 0 && Started(r, k, k'))
  }

  predicate Effects(bs: seq<Bucket>, r: nat, k: Rank, k': Rank, out: Option<Message>) {
    ToSuccessor(bs, r, k, k', out) && ToPredecessor(r, k, k')
  }

  lemma QuietEffects(bs: seq<Bucket>, r: nat, k: Rank, k': Rank)
    requires k'.op == k.op && k'.offers == k.offers && k'.box == k.box && k'.seen == k.seen
    requires k.op.Some? ==> k'.bufs.At(k.op.value.buf) == k.bufs.At(k.op.value.buf)
    requires Active(k') == Active(k) && (Active(k) ==> k'.xfer == k.xfer && k'.bufs == k.bufs)
    ensures Effects(bs, r, k, k', None)
  {
  }

  /** The awaited notification ends the offer; the key assertion holds. */
  lemma AwaitEffects(bs: seq<Bucket>, r: nat, k: Rank)
    requires OpInv(bs, r, k) && NoteOk(k) && k.op.Some? && Await(k).Go?
    ensures Queue(k.box.notifications, r + 1) != []
    ensures Await(k) == Go(k.(op := None, box := PopNote(k.box, r + 1)), None)
    ensures Effects(bs, r, k, Await(k).rank, None)
  {
    hide Holds, MetaOf;
  }

  lemma OfferEffects(bs: seq<Bucket>, r: nat, k: Rank, k': Rank, msg: Message)
    requires k.op == None && k.offers < |bs| && (k'.op, k'.offers) == (Some(Op(Key(r, k.offers), k.send)), k.offers + 1)
    requires msg == Message(Key(r, k.offers), k.send, MetaOf(bs, k.offers))
    requires k'.box == k.box && k'.seen == k.seen && k'.xfer == k.xfer && k'.bufs == k.bufs
    ensures Effects(bs, r, k, k', Some(msg))
  {
    hide MetaOf;
  }

  lemma StartEffects(bs: seq<Bucket>, r: nat, k: Rank, k': Rank)
    requires r > 0 && !Active(k) && Queue(k.box.messages, r - 1) != []
    requires k'.op == k.op && k'.offers == k.offers && k'.bufs == k.bufs
    requires k'.seen == k.seen + 1 && k'.xfer == BeginRead(r, k).xfer && k'.box == BeginRead(r, k).box
    ensures Effects(bs, r, k, k', None)
  {
  }

  // ---------------------------------------------------------------- the sender's statements

  /** An offer stands while its buffer is left alone. */
  lemma OpFrame(bs: seq<Bucket>, r: nat, k: Rank, k': Rank)
    requires OpInv(bs, r, k) && k'.op == k.op && k'.offers == k.offers && k'.remoteName == k.remoteName
    requires k.op.Some? ==> k'.bufs.At(k.op.value.buf) == k.bufs.At(k.op.value.buf)
    ensures OpInv(bs, r, k')
  {
  }

  lemma SplicePrefix(buf: seq<byte>, base: seq<byte>, data: seq<byte>)
    requires |base| + |data| <= |buf| && buf[..|base|] == base
    ensures var now := Splice(buf, |base|, data);
            |now| == |buf| && now[..|base| + |data|] == base + data
  {
    var now := Splice(buf, |base|, data);
    assert now == base + data + buf[|base| + |data|..];
  }

  lemma OversizeFails(c: Config, k: Rank, i: nat)
    requires i < |c.ws| && k.offset + |c.ws[i].bytes| > c.cap && k.offset <= c.cap
    requires var p := Fill(c.ws, c.cap, i);
             if Overflows(p.open, c.ws[i], c.cap)
             then k.offset == 0 && k.meta.bucketMeta == [] && k.offers == |p.closed| + 1
             else Filled(c, k, i)
    ensures !AllFit(c.ws, c.cap) && k.offers < |Buckets(c.ws, c.cap)|
  {
    ClosedBucket(c.ws, c.cap, i);
  }

  lemma PlaceOneFills(c: Config, k: Rank, i: nat)
    requires BufsInv(c.cap, k) && FitUpTo(c, i) && i < |c.ws| && k.offset + |c.ws[i].bytes| <= c.cap
    requires var p := Fill(c.ws, c.cap, i);
             if Overflows(p.open, c.ws[i], c.cap)
             then k.offset == 0 && k.meta.bucketMeta == [] && k.offers == |p.closed| + 1
             else Filled(c, k, i)
    ensures FitUpTo(c, i + 1) && Filled(c, PlaceOne(c, k, i), i + 1)
  {
    var p, w := Fill(c.ws, c.cap, i), c.ws[i];
    assert Fill(c.ws, c.cap, i + 1) == AddWeight(p, w, c.cap);
    var base := if Overflows(p.open, w, c.cap) then EMPTY_BUCKET else p.open;
    assert k.bufs.At(k.send)[..k.offset] == base.data;
    SplicePrefix(k.bufs.At(k.send), base.data, w.bytes);
    assert Fill(c.ws, c.cap, i + 1).open == Place(base, w);
  }

  /** The situation in which weight `i` is placed. */
  predicate ReadyToPlace(c: Config, k: Rank, i: nat) {
    && FitUpTo(c, i) && i < |c.ws| && k.offset <= c.cap
    && var p := Fill(c.ws, c.cap, i);
       if Overflows(p.open, c.ws[i], c.cap)
       then k.offset == 0 && k.meta.bucketMeta == [] && k.offers == |p.closed| + 1
       else Filled(c, k, i)
  }

  lemma PlaceOneKeepsBufs(c: Config, k: Rank, i: nat)
    requires BufsInv(c.cap, k) && i < |c.ws|
    ensures BufsInv(c.cap, PlaceOne(c, k, i)) && PlaceOne(c, k, i).bufs.At(!k.send) == k.bufs.At(!k.send)
  {
  }

  lemma PlaceOneKeeps(c: Config, bs: seq<Bucket>, k: Rank, i: nat)
    requires bs == Buckets(c.ws, c.cap)
    requires RankInv(c, bs, 0, k) && ReadyToPlace(c, k, i) && (k.op.Some? ==> k.op.value.buf == !k.send)
    ensures RankInv(c, bs, 0, PlaceOne(c, k, i))
  {
    hide Fill, Filled, Splice, PutMeta, MetaAt, Holds, Overflows, Buckets, AllFit, ReceiverInv;
    PlaceOneKeepsBufs(c, k, i);
    OpFrame(bs, 0, k, PlaceOne(c, k, i));
    hide OpInv, BufsInv;
    if k.offset + |c.ws[i].bytes| > c.cap {
      OversizeFails(c, k, i);
    } else {
      PlaceOneFills(c, k, i);
    }
  }

  predicate SenderPlaces(c: Config, k: Rank) {
    k.pc.SPut? || (k.pc.SFill? && k.pc.i < |c.ws| && k.offset + |c.ws[k.pc.i].bytes| <= c.cap)
  }

  lemma SenderPlacesWeight(c: Config, bs: seq<Bucket>, k: Rank)
    requires bs == Buckets(c.ws, c.cap) && RankInv(c, bs, 0, k) && SenderPlaces(c, k)
    ensures RankInv(c, bs, 0, ExecSender(c, 0, k).rank)
    ensures Effects(bs, 0, k, ExecSender(c, 0, k).rank, ExecSender(c, 0, k).out)
  {
    hide Fill, Splice, Holds, Buckets, Effects;
    PlaceOneKeeps(c, bs, k, k.pc.i);
    PlaceOneKeepsBufs(c, k, k.pc.i);
    QuietEffects(bs, 0, k, PlaceOne(c, k, k.pc.i));
  }

  lemma SenderFlushes(c: Config, bs: seq<Bucket>, k: Rank)
    requires bs == Buckets(c.ws, c.cap)
    requires RankInv(c, bs, 0, k) && k.op == None && k.pc.SFlushWait?
    ensures RankInv(c, bs, 0, ExecSender(c, 0, k).rank)
    ensures Effects(bs, 0, k, ExecSender(c, 0, k).rank, ExecSender(c, 0, k).out)
  {
    hide Fill, Buckets, Effects, ReceiverInv;
    ClosedBucket(c.ws, c.cap, k.pc.i);
    var o := ExecSender(c, 0, k);
    OfferEffects(bs, 0, k, o.rank, o.out.value);
  }

  lemma LastBucket(ws: seq<Weight>, cap: nat)
    ensures |Buckets(ws, cap)| == |Fill(ws, cap, |ws|).closed| + 1
    ensures Buckets(ws, cap)[|Buckets(ws, cap)| - 1] == Fill(ws, cap, |ws|).open
  {
  }

  lemma SenderEnds(c: Config, bs: seq<Bucket>, k: Rank)
    requires bs == Buckets(c.ws, c.cap)
    requires RankInv(c, bs, 0, k) && k.op == None && k.pc.SLastWait?
    ensures RankInv(c, bs, 0, ExecSender(c, 0, k).rank)
    ensures Effects(bs, 0, k, ExecSender(c, 0, k).rank, ExecSender(c, 0, k).out)
  {
    hide Fill, Buckets, Effects, ReceiverInv;
    LastBucket(c.ws, c.cap);
    var o := ExecSender(c, 0, k);
    OfferEffects(bs, 0, k, o.rank, o.out.value);
  }

  lemma SenderAwaits(c: Config, bs: seq<Bucket>, k: Rank)
    requires RankInv(c, bs, 0, k) && NoteOk(k) && Awaiting(k) && ExecSender(c, 0, k).Go?
    ensures RankInv(c, bs, 0, ExecSender(c, 0, k).rank)
    ensures Effects(bs, 0, k, ExecSender(c, 0, k).rank, ExecSender(c, 0, k).out)
  {
    hide Fill, Overflows, Effects, NoteOk, Await, ReceiverInv;
    AwaitEffects(bs, 0, k);
  }

  lemma SenderTurns(c: Config, bs: seq<Bucket>, k: Rank)
    requires RankInv(c, bs, 0, k) && !SenderPlaces(c, k) && (k.pc.SFill? || (k.pc.SFinalWait? && k.op == None))
    ensures RankInv(c, bs, 0, ExecSender(c, 0, k).rank)
    ensures Effects(bs, 0, k, ExecSender(c, 0, k).rank, ExecSender(c, 0, k).out)
  {
    hide Fill, Effects, Splice, ReceiverInv;
    QuietEffects(bs, 0, k, ExecSender(c, 0, k).rank);
  }

  lemma SenderMoves(c: Config, k: Rank)
    requires ExecSender(c, 0, k).Go?
    ensures k.pc.SFill? || k.pc.SPut? || Awaiting(k)
            || (k.op == None && (k.pc.SFlushWait? || k.pc.SLastWait? || k.pc.SFinalWait?))
  {
    hide PlaceOne, Await, Offer;
  }

  lemma SenderStep(c: Config, bs: seq<Bucket>, k: Rank)
    requires bs == Buckets(c.ws, c.cap)
    requires RankInv(c, bs, 0, k) && NoteOk(k) && ExecSender(c, 0, k).Go?
    ensures RankInv(c, bs, 0, ExecSender(c, 0, k).rank)
    ensures Effects(bs, 0, k, ExecSender(c, 0, k).rank, ExecSender(c, 0, k).out)
  {
    hide ExecSender, RankInv, Effects, NoteOk, Buckets;
    SenderMoves(c, k);
    if SenderPlaces(c, k) {
      SenderPlacesWeight(c, bs, k);
    } else if Awaiting(k) {
      SenderAwaits(c, bs, k);
    } else if k.pc.SFlushWait? {
      SenderFlushes(c, bs, k);
    } else if k.pc.SLastWait? {
      SenderEnds(c, bs, k);
    } else {
      SenderTurns(c, bs, k);
    }
  }

  // ---------------------------------------------------------------- the receivers' statements

  lemma ReceiverReads(bs: seq<Bucket>, cap: nat, hasNext: bool, r: nat, k: Rank)
    requires r > 0 && ReceiverInv(bs, cap, hasNext, k) && MsgOk(bs, r, k) && (k.pc.RFirstMeta? || k.pc.RMeta?)
    requires ExecReceiver(hasNext, r, k).Go?
    ensures ReceiverInv(bs, cap, hasNext, ExecReceiver(hasNext, r, k).rank)
  {
    if k.pc.RMeta? {
      assert Items(bs[k.seen - 1])[..0] == [];
    }
  }

  lemma ReceiverSwaps(bs: seq<Bucket>, cap: nat, hasNext: bool, r: nat, k: Rank)
    requires r > 0 && ReceiverInv(bs, cap, hasNext, k) && (k.pc.RFirstRead? || k.pc.RRead?) && ReadDone(k)
    ensures ReceiverInv(bs, cap, hasNext, ExecReceiver(hasNext, r, k).rank)
  {
    if k.pc.RRead? {
      DecodeSnoc(bs, k.seen - 2);
    } else {
      assert Decode(bs[..0]) == [];
    }
  }

  lemma ReceiverHolds(bs: seq<Bucket>, cap: nat, hasNext: bool, r: nat, k: Rank)
    requires r > 0 && ReceiverInv(bs, cap, hasNext, k) && k.pc.RHold?
    ensures ReceiverInv(bs, cap, hasNext, ExecReceiver(hasNext, r, k).rank)
  {
    assert Items(bs[k.seen - 1])[..0] == [];
  }

  lemma YieldedItem(bs: seq<Bucket>, k: Rank, cur: nat, j: nat)
    requires AllInBounds(bs) && cur < |bs| && k.meta == MetaOf(bs, cur) && j < |k.meta.bucketMeta|
    requires Holds(bs, cur, k.bufs.At(k.send))
    ensures var items := Items(bs[cur]);
            items[..j + 1] == items[..j] + [Item(k.bufs.At(k.send), k.meta.bucketMeta[j])]
  {
    ItemFromBuffer(k.bufs.At(k.send), bs[cur], j);
  }

  lemma YieldKeepsSteady(bs: seq<Bucket>, hasNext: bool, r: nat, k: Rank)
    requires r > 0 && AllInBounds(bs) && k.seen <= |bs| && SteadyInv(bs, k) && (k.pc.RYield? || k.pc.RLastYield?)
    ensures SteadyInv(bs, ExecReceiver(hasNext, r, k).rank)
  {
    hide AllInBounds, Decode, Items, Item, Await, Offer, BeginRead, Queue;
    var cur := Current(k.pc, k.seen);
    var j, items := k.pc.j, Items(bs[cur]);
    ItemsLength(bs[cur]);
    if j < |k.meta.bucketMeta| {
      YieldedItem(bs, k, cur, j);
      assert YieldOne(k, j).yielded == Decode(bs[..cur]) + items[..j + 1];
    } else {
      assert items[..j] == items;
    }
  }

  lemma ReceiverYields(bs: seq<Bucket>, cap: nat, hasNext: bool, r: nat, k: Rank)
    requires r > 0 && AllInBounds(bs) && ReceiverInv(bs, cap, hasNext, k) && (k.pc.RYield? || k.pc.RLastYield?)
    ensures ReceiverInv(bs, cap, hasNext, ExecReceiver(hasNext, r, k).rank)
  {
    hide SteadyInv;
    YieldKeepsSteady(bs, hasNext, r, k);
  }

  predicate ReceiverAwaits(k: Rank) {
    k.op.Some? && (k.pc.RAck? || k.pc.RLastAck?)
  }

  lemma ReceiverAcks(bs: seq<Bucket>, cap: nat, hasNext: bool, r: nat, k: Rank)
    requires r > 0 && ReceiverInv(bs, cap, hasNext, k) && OpInv(bs, r, k) && NoteOk(k) && ReceiverAwaits(k)
    requires ExecReceiver(hasNext, r, k).Go?
    ensures ReceiverInv(bs, cap, hasNext, ExecReceiver(hasNext, r, k).rank)
  {
    hide Effects, Await, Holds, MetaOf, Items, Decode, NoteOk, OpInv;
    AwaitEffects(bs, r, k);
  }

  lemma ReceiverAcked(bs: seq<Bucket>, cap: nat, hasNext: bool, r: nat, k: Rank)
    requires r > 0 && ReceiverInv(bs, cap, hasNext, k) && k.op == None && (k.pc.RAck? || k.pc.RLastAck?)
    ensures ReceiverInv(bs, cap, hasNext, ExecReceiver(hasNext, r, k).rank)
  {
    hide Holds, MetaOf, Items, Decode;
  }

  /** Statements that concern the rank alone. */
  predicate ReceiverIsQuiet(hasNext: bool, k: Rank) {
    || (k.pc.RHold? && !hasNext) || k.pc.RYield? || k.pc.RLastYield?
    || ((k.pc.RFirstRead? || k.pc.RRead?) && ReadDone(k)) || ((k.pc.RAck? || k.pc.RLastAck?) && k.op == None)
  }

  lemma ReceiverMoves(hasNext: bool, r: nat, k: Rank)
    requires r > 0 && ExecReceiver(hasNext, r, k).Go?
    ensures k.pc.RFirstMeta? || k.pc.RMeta? || ReceiverAwaits(k) || (k.pc.RHold? && hasNext) || ReceiverIsQuiet(hasNext, k)
  {
    hide Await, Offer, BeginRead, YieldOne;
  }

  lemma ReceiverStep(bs: seq<Bucket>, cap: nat, hasNext: bool, r: nat, k: Rank)
    requires r > 0 && AllInBounds(bs) && ReceiverInv(bs, cap, hasNext, k) && OpInv(bs, r, k) && NoteOk(k) && MsgOk(bs, r, k)
    requires ExecReceiver(hasNext, r, k).Go?
    ensures ReceiverInv(bs, cap, hasNext, ExecReceiver(hasNext, r, k).rank)
  {
    hide ReceiverInv, ExecReceiver, NoteOk, MsgOk, OpInv, AllInBounds;
    ReceiverMoves(hasNext, r, k);
    if k.pc.RFirstMeta? || k.pc.RMeta? {
      ReceiverReads(bs, cap, hasNext, r, k);
    } else if k.pc.RFirstRead? || k.pc.RRead? {
      ReceiverSwaps(bs, cap, hasNext, r, k);
    } else if k.pc.RHold? {
      ReceiverHolds(bs, cap, hasNext, r, k);
    } else if k.pc.RYield? || k.pc.RLastYield? {
      ReceiverYields(bs, cap, hasNext, r, k);
    } else if k.op.Some? {
      ReceiverAcks(bs, cap, hasNext, r, k);
    } else {
      ReceiverAcked(bs, cap, hasNext, r, k);
    }
  }

  lemma ReceiverOffers(bs: seq<Bucket>, cap: nat, hasNext: bool, r: nat, k: Rank)
    requires r > 0 && ReceiverInv(bs, cap, hasNext, k) && k.pc.RHold? && hasNext
    ensures Effects(bs, r, k, ExecReceiver(hasNext, r, k).rank, ExecReceiver(hasNext, r, k).out)
    ensures OpInv(bs, r, ExecReceiver(hasNext, r, k).rank)
  {
    hide Effects, YieldInv, XferInv;
    var o := ExecReceiver(hasNext, r, k);
    OfferEffects(bs, r, k, o.rank, o.out.value);
  }

  lemma ReceiverStarts(bs: seq<Bucket>, cap: nat, hasNext: bool, r: nat, k: Rank)
    requires r > 0 && ReceiverInv(bs, cap, hasNext, k) && (k.pc.RFirstMeta? || k.pc.RMeta?)
    requires ExecReceiver(hasNext, r, k).Go?
    ensures Effects(bs, r, k, ExecReceiver(hasNext, r, k).rank, ExecReceiver(hasNext, r, k).out)
  {
    hide Effects, SteadyInv, ReceiverOpInv;
    StartEffects(bs, r, k, ExecReceiver(hasNext, r, k).rank);
  }

  /** The statement does not touch the links, the offer or the buffers. */
  predicate QuietStep(bs: seq<Bucket>, r: nat, k: Rank, o: Outcome) {
    && o.Go? && Effects(bs, r, k, o.rank, o.out) && o.rank.bufs == k.bufs && o.rank.remoteName == k.remoteName
    && o.rank.op == k.op && o.rank.offers == k.offers
  }

  lemma ReceiverRestsAfterRead(bs: seq<Bucket>, hasNext: bool, r: nat, k: Rank)
    requires r > 0 && (k.pc.RFirstRead? || k.pc.RRead?) && ReadDone(k)
    ensures QuietStep(bs, r, k, ExecReceiver(hasNext, r, k))
  {
    hide Effects, Item, Await, Offer, BeginRead, Queue, YieldOne;
    QuietEffects(bs, r, k, ExecReceiver(hasNext, r, k).rank);
  }

  lemma ReceiverYieldsQuietly(bs: seq<Bucket>, hasNext: bool, r: nat, k: Rank)
    requires r > 0 && (k.pc.RYield? || k.pc.RLastYield?)
    ensures QuietStep(bs, r, k, ExecReceiver(hasNext, r, k))
  {
    hide Effects, Item, Await, Offer, BeginRead, Queue;
    QuietEffects(bs, r, k, ExecReceiver(hasNext, r, k).rank);
  }

  lemma ReceiverPasses(bs: seq<Bucket>, hasNext: bool, r: nat, k: Rank)
    requires r > 0 && ((k.pc.RHold? && !hasNext) || ((k.pc.RAck? || k.pc.RLastAck?) && k.op == None))
    ensures QuietStep(bs, r, k, ExecReceiver(hasNext, r, k))
  {
    hide Effects, Item, Await, Offer, BeginRead, Queue, YieldOne;
    QuietEffects(bs, r, k, ExecReceiver(hasNext, r, k).rank);
  }

  lemma ReceiverQuiet(bs: seq<Bucket>, hasNext: bool, r: nat, k: Rank)
    requires r > 0 && ReceiverIsQuiet(hasNext, k)
    ensures QuietStep(bs, r, k, ExecReceiver(hasNext, r, k))
  {
    hide QuietStep, ExecReceiver;
    if k.pc.RFirstRead? || k.pc.RRead? {
      ReceiverRestsAfterRead(bs, hasNext, r, k);
    } else if k.pc.RYield? || k.pc.RLastYield? {
      ReceiverYieldsQuietly(bs, hasNext, r, k);
    } else {
      ReceiverPasses(bs, hasNext, r, k);
    }
  }

  lemma ReceiverEffects(bs: seq<Bucket>, cap: nat, hasNext: bool, r: nat, k: Rank)
    requires r > 0 && ReceiverInv(bs, cap, hasNext, k) && OpInv(bs, r, k) && NoteOk(k)
    requires ExecReceiver(hasNext, r, k).Go?
    ensures Effects(bs, r, k, ExecReceiver(hasNext, r, k).rank, ExecReceiver(hasNext, r, k).out)
  {
    ReceiverMoves(hasNext, r, k);
    hide Effects, ReceiverInv, OpInv, NoteOk, Await, Offer, BeginRead, YieldOne;
    if k.pc.RFirstMeta? || k.pc.RMeta? {
      ReceiverStarts(bs, cap, hasNext, r, k);
    } else if ReceiverAwaits(k) {
      AwaitEffects(bs, r, k);
    } else if k.pc.RHold? && hasNext {
      ReceiverOffers(bs, cap, hasNext, r, k);
    } else {
      ReceiverQuiet(bs, hasNext, r, k);
    }
  }

  lemma NoOp(bs: seq<Bucket>, r: nat, k: Rank)
    requires k.op == None
    ensures OpInv(bs, r, k)
  {
  }

  lemma ReceiverOp(bs: seq<Bucket>, cap: nat, hasNext: bool, r: nat, k: Rank)
    requires r > 0 && ReceiverInv(bs, cap, hasNext, k) && OpInv(bs, r, k) && BufsInv(cap, k) && NoteOk(k)
    requires ExecReceiver(hasNext, r, k).Go?
    ensures OpInv(bs, r, ExecReceiver(hasNext, r, k).rank) && BufsInv(cap, ExecReceiver(hasNext, r, k).rank)
  {
    ReceiverMoves(hasNext, r, k);
    hide Effects, ReceiverInv, OpInv, NoteOk, Await, Holds;
    if k.pc.RFirstMeta? || k.pc.RMeta? {
      OpFrame(bs, r, k, ExecReceiver(hasNext, r, k).rank);
    } else if ReceiverAwaits(k) {
      AwaitEffects(bs, r, k);
      NoOp(bs, r, ExecReceiver(hasNext, r, k).rank);
    } else if k.pc.RHold? && hasNext {
      ReceiverOffers(bs, cap, hasNext, r, k);
    } else {
      ReceiverQuiet(bs, hasNext, r, k);
      hide ExecReceiver;
      OpFrame(bs, r, k, ExecReceiver(hasNext, r, k).rank);
    }
  }

  // ---------------------------------------------------------------- any rank

  lemma RankStep(c: Config, bs: seq<Bucket>, r: nat, k: Rank)
    requires bs == Buckets(c.ws, c.cap) && AllInBounds(bs)
    requires RankInv(c, bs, r, k) && NoteOk(k) && MsgOk(bs, r, k) && ExecRank(c, r, k).Go?
    ensures RankInv(c, bs, r, ExecRank(c, r, k).rank)
  {
    hide ExecSender, ExecReceiver, SenderInv, ReceiverInv, Effects, NoteOk, MsgOk;
    if r == 0 {
      SenderStep(c, bs, k);
    } else {
      ReceiverStep(bs, c.cap, HasNext(c, r), r, k);
      ReceiverOp(bs, c.cap, HasNext(c, r), r, k);
    }
  }

  lemma RankEffects(c: Config, bs: seq<Bucket>, r: nat, k: Rank)
    requires bs == Buckets(c.ws, c.cap)
    requires RankInv(c, bs, r, k) && NoteOk(k) && ExecRank(c, r, k).Go?
    ensures Effects(bs, r, k, ExecRank(c, r, k).rank, ExecRank(c, r, k).out)
  {
    hide ExecSender, ExecReceiver, SenderInv, ReceiverInv, Effects, NoteOk;
    if r == 0 {
      SenderStep(c, bs, k);
    } else {
      ReceiverEffects(bs, c.cap, HasNext(c, r), r, k);
    }
  }
}
