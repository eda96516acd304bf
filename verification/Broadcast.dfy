/** Weights broadcast from rank 0 to every other rank with two buffers per rank, as the NCCL and the HCCL
  checkpoint engines do it.

  A collective broadcast is asynchronous. Between its start and its completion the transport reads the bytes of
  rank 0's buffer one by one, each at a moment of its own choosing, and elsewhere it may write any byte at any
  time. The other buffer is filled, or yielded from, in the meantime. */
module Broadcast {
  import opened Packing

  /** One collective: the metadata sent ahead and the whole buffer. */
  datatype Message = Message(meta: seq<TensorMeta>, data: seq<byte>, isLast: bool)

  /** `m` carries bucket `b` at the front of a buffer of `cap` bytes. */
  predicate Carries(m: Message, b: Bucket, cap: nat, last: bool) {
    && m.meta == b.meta && m.isLast == last
    && |m.data| == cap && |b.data| <= cap && m.data[..|b.data|] == b.data
  }

  /** The messages carry the given buckets in order, none of them the last. */
  predicate CarryAll(wire: seq<Message>, bs: seq<Bucket>, cap: nat) {
    |wire| == |bs| && forall k :: 0 <= k < |bs| ==> Carries(wire[k], bs[k], cap, false)
  }

  /** `wire` holds every bucket of `ws`, and only the final message is marked as last. */
  predicate Sent(wire: seq<Message>, ws: seq<Weight>, cap: nat) {
    && |wire| == |Buckets(ws, cap)|
    && forall k :: 0 <= k < |wire| ==> Carries(wire[k], Buckets(ws, cap)[k], cap, k == |wire| - 1)
  }

  // ---------------------------------------------------------------- a broadcast in flight

  function Below(n: nat): (s: set<nat>)
    ensures forall i :: 0 <= i < n ==> i in s
  {
    if n == 0 then {} else Below(n - 1) + {n - 1}
  }

  /** A started broadcast. `read` is what the transport has read of the buffer, but for the bytes at `unread`. */
  class Collective {
    const buf: array<byte>
    const read: array<byte>
    const meta: seq<TensorMeta>
    const isLast: bool
    ghost const atStart: seq<byte>
    var unread: set<nat>

    /** The buffer is as it was when the broadcast started, and so is all that has been read of it. */
    ghost predicate Valid()
      reads this, buf, read
    {
      && buf != read && buf.Length == read.Length && buf[..] == atStart
      && forall i :: 0 <= i < read.Length && i !in unread ==> read[i] == atStart[i]
    }

    constructor (buf: array<byte>, meta: seq<TensorMeta>, isLast: bool)
      ensures Valid() && fresh(read) && this.buf == buf && this.meta == meta && this.isLast == isLast
      ensures atStart == buf[..]
    {
      this.buf, this.meta, this.isLast := buf, meta, isLast;
      read := new byte[buf.Length](_ => 0);
      atStart := buf[..];
      unread := Below(buf.Length);
    }

    /** The transport reads some bytes that it has not read before, as they are now. */
    method Progress()
      requires Valid()
      modifies this`unread, read
      ensures Valid()
    {
      var n: nat := *;
      while n > 0 && unread != {}
        invariant Valid()
      {
        var i :| i in unread;
        if i < read.Length {
          read[i] := buf[i];
        }
        unread := unread - {i};
        n := n - 1;
      }
    }

    /** The transport reads what is left, and the message is delivered as it was read. */
    method WaitForComplete() returns (m: Message)
      requires Valid()
      modifies this`unread, read
      ensures Valid() && m == Message(meta, atStart, isLast)
    {
      while unread != {}
        invariant Valid()
        decreases |unread|
      {
        var i :| i in unread;
        if i < read.Length {
          read[i] := buf[i];
        }
        unread := unread - {i};
      }
      assert read[..] == atStart;
      m := Message(meta, read[..], isLast);
    }
  }

  /** What a broadcast may change while the program goes on. */
  ghost function Footprint(op: Collective?): set<object> {
    if op == null then {} else {op, op.read}
  }

  // ---------------------------------------------------------------- sender

  /** A broadcast in flight uses the buffer that is not being filled. */
  ghost predicate InFlight(op: Collective?, filling: array<byte>, other: array<byte>)
    reads if op == null then {} else {op, op.buf, op.read}
  {
    op != null ==>
      op.Valid() && op.buf == other && filling != other && op.read != filling && op.read != other && !op.isLast
  }

  /** `buf[offset : offset + nbytes] = bytes`, the transport reading the buffer in flight between any two bytes. */
  method CopyInto(buf: array<byte>, offset: nat, bytes: seq<byte>, op: Collective?, ghost other: array<byte>)
    requires offset + |bytes| <= buf.Length && InFlight(op, buf, other)
    modifies buf, Footprint(op)
    ensures buf[..offset + |bytes|] == old(buf[..offset]) + bytes && InFlight(op, buf, other)
  {
    for i := 0 to |bytes|
      invariant buf[..offset + i] == old(buf[..offset]) + bytes[..i] && InFlight(op, buf, other)
    {
      buf[offset + i] := bytes[i];
      if op != null {
        op.Progress();
      }
    }
  }

  /** Messages delivered, followed by the one in flight as it was when it started. */
  ghost function Started(wire: seq<Message>, op: Collective?): (r: seq<Message>)
    ensures wire <= r
  {
    if op == null then wire else wire + [Message(op.meta, op.atStart, op.isLast)]
  }

  /** The first `i` weights have been packed: the closed buckets are started, the open one is `meta` and `data`. */
  ghost predicate Packed(ws: seq<Weight>, cap: nat, i: nat, started: seq<Message>, meta: seq<TensorMeta>, data: seq<byte>) {
    && i <= |ws| && (forall j :: 0 <= j < i ==> |ws[j].bytes| <= cap)
    && CarryAll(started, Fill(ws, cap, i).closed, cap)
    && Fill(ws, cap, i).open == Bucket(meta, data) && |data| <= cap
  }

  lemma NothingPacked(ws: seq<Weight>, cap: nat)
    ensures Packed(ws, cap, 0, [], [], [])
  {
  }

  /** The weight fits into the open bucket. */
  lemma PackedMore(ws: seq<Weight>, cap: nat, i: nat, started: seq<Message>, meta: seq<TensorMeta>, data: seq<byte>)
    requires i < |ws| && Packed(ws, cap, i, started, meta, data) && |data| + |ws[i].bytes| <= cap
    ensures Packed(ws, cap, i + 1, started, PutMeta(meta, MetaAt(ws[i], |data|)), data + ws[i].bytes)
  {
  }

  /** The weight does not fit: the broadcast of the open bucket has been started, and the weight opens the next. */
  lemma PackedNew(ws: seq<Weight>, cap: nat, i: nat, started: seq<Message>, meta: seq<TensorMeta>, data: seq<byte>,
                  buf: seq<byte>)
    requires i < |ws| && Packed(ws, cap, i, started, meta, data)
    requires |data| + |ws[i].bytes| > cap && |buf| == cap && buf[..|data|] == data
    ensures |ws[i].bytes| <= cap ==>
              Packed(ws, cap, i + 1, started + [Message(meta, buf, false)],
                     PutMeta([], MetaAt(ws[i], 0)), [] + ws[i].bytes)
  {
    assert Carries(Message(meta, buf, false), Bucket(meta, data), cap, false);
    hide Carries;
  }

  lemma AllPacked(ws: seq<Weight>, cap: nat, started: seq<Message>, meta: seq<TensorMeta>, data: seq<byte>, buf: seq<byte>)
    requires Packed(ws, cap, |ws|, started, meta, data) && |buf| == cap && buf[..|data|] == data
    ensures AllFit(ws, cap) && Sent(started + [Message(meta, buf, true)], ws, cap)
  {
  }

  lemma Oversized(ws: seq<Weight>, cap: nat, i: nat)
    requires i < |ws| && |ws[i].bytes| > cap
    ensures !AllFit(ws, cap)
  {
  }

  lemma NothingInFlight(filling: array<byte>, other: array<byte>)
    ensures InFlight(null, filling, other) && Footprint(null) == {} && Started([], null) == []
  {
  }

  /** Awaits the previous broadcast, if there is one, and starts that of `buf`. */
  method StartNext(previous: Collective?, wire: seq<Message>, buf: array<byte>, meta: seq<TensorMeta>, ghost other: array<byte>)
    returns (op: Collective, after: seq<Message>)
    requires InFlight(previous, buf, other) && buf != other
    modifies Footprint(previous)
    ensures InFlight(op, other, buf) && fresh(Footprint(op))
    ensures Started(after, op) == Started(wire, previous) + [Message(meta, old(buf[..]), false)]
  {
    after := wire;
    if previous != null {
      var m := previous.WaitForComplete();
      after := after + [m];
    }
    op := new Collective(buf, meta, false);
  }

  /** Awaits the previous broadcast, and starts and awaits that of the last bucket. */
  method SendLast(previous: Collective?, wire: seq<Message>, buf: array<byte>, meta: seq<TensorMeta>, ghost other: array<byte>)
    returns (after: seq<Message>)
    requires InFlight(previous, buf, other) && buf != other
    modifies Footprint(previous)
    ensures after == Started(wire, previous) + [Message(meta, old(buf[..]), true)]
  {
    after := wire;
    if previous != null {
      var m := previous.WaitForComplete();
      after := after + [m];
    }
    var op := new Collective(buf, meta, true);
    var m := op.WaitForComplete();
    after := after + [m];
  }

  /** Sends every bucket, last bucket included, or stops at the first weight larger than the buffers. Whenever the
    transport reads a byte, what is delivered is the message as it was when its broadcast started. */
  method SendWeights(sendBuf: array<byte>, recvBuf: array<byte>, ws: seq<Weight>)
    returns (ok: bool, wire: seq<Message>, ghost started: seq<Message>)
    requires sendBuf != recvBuf && sendBuf.Length == recvBuf.Length
    modifies sendBuf, recvBuf
    ensures ok <==> AllFit(ws, sendBuf.Length)
    ensures wire <= started && (ok ==> wire == started && Sent(wire, ws, sendBuf.Length))
  {
    hide *;
    var cap := sendBuf.Length;
    var filling, other := sendBuf, recvBuf;
    var op: Collective? := null;
    var meta: seq<TensorMeta> := [];
    var offset := 0;
    wire, started := [], [];
    NothingPacked(ws, cap);
    NothingInFlight(filling, other);
    for i := 0 to |ws|
      invariant {filling, other} == {sendBuf, recvBuf} && filling != other && filling.Length == cap
      invariant InFlight(op, filling, other) && fresh(Footprint(op)) && started == Started(wire, op)
      invariant 0 <= offset <= cap && Packed(ws, cap, i, started, meta, filling[..offset])
    {
      var w := ws[i];
      if offset + |w.bytes| > cap {
        PackedNew(ws, cap, i, started, meta, filling[..offset], filling[..]);
        started := started + [Message(meta, filling[..], false)];
        op, wire := StartNext(op, wire, filling, meta, other);
        filling, other := other, filling;
        meta, offset := [], 0;
      } else {
        PackedMore(ws, cap, i, started, meta, filling[..offset]);
      }
      if offset + |w.bytes| > cap {
        Oversized(ws, cap, i);
        return false, wire, started;
      }
      meta := PutMeta(meta, MetaAt(w, offset));
      CopyInto(filling, offset, w.bytes, op, other);
      offset := offset + |w.bytes|;
    }
    AllPacked(ws, cap, started, meta, filling[..offset], filling[..]);
    started := started + [Message(meta, filling[..], true)];
    wire := SendLast(op, wire, filling, meta, other);
    ok := true;
  }

  // ---------------------------------------------------------------- receiver

  /** A broadcast into `buf` is under way: its contents are unknown. */
  method Receiving(buf: array<byte>)
    modifies buf
  {
    for i := 0 to buf.Length {
      buf[i] := *;
    }
  }

  method CompleteReceive(buf: array<byte>, m: Message)
    requires |m.data| == buf.Length
    modifies buf
    ensures buf[..] == m.data
  {
    CopyInto(buf, 0, m.data, null, buf);
    assert buf[..] == buf[..|m.data|];
  }

  /** The tensors of one message. */
  function Unpacked(m: Message): seq<Weight> {
    seq(|m.meta|, j requires 0 <= j < |m.meta| => Item(m.data, m.meta[j]))
  }

  function Delivered(wire: seq<Message>): seq<Weight> {
    if wire == [] then [] else Delivered(wire[..|wire| - 1]) + Unpacked(wire[|wire| - 1])
  }

  /** The generator's inner loop: one view of the buffer for each entry, while the other buffer is written. */
  method YieldItems(buf: array<byte>, meta: seq<TensorMeta>, other: array<byte>) returns (items: seq<Weight>)
    requires buf != other
    modifies other
    ensures items == Unpacked(Message(meta, buf[..], false))
  {
    items := [];
    for j := 0 to |meta|
      invariant items == Unpacked(Message(meta, buf[..], false))[..j]
    {
      Receiving(other);
      items := items + [Item(buf[..], meta[j])];
    }
  }

  predicate Framed(wire: seq<Message>, cap: nat) {
    wire != [] && forall k :: 0 <= k < |wire| ==> |wire[k].data| == cap && (wire[k].isLast <==> k == |wire| - 1)
  }

  /** Yields the tensors of every message once and in order. A yielded tensor is a view of the buffer:
    `settled` is what the views show at the next synchronisation, after the following broadcast has
    filled the other buffer. */
  method ReceiveWeights(sendBuf: array<byte>, recvBuf: array<byte>, wire: seq<Message>)
    returns (yielded: seq<Weight>, ghost settled: seq<Weight>)
    requires sendBuf != recvBuf && sendBuf.Length == recvBuf.Length && Framed(wire, sendBuf.Length)
    modifies sendBuf, recvBuf
    ensures yielded == settled == Delivered(wire)
  {
    var sending, receiving := sendBuf, recvBuf;
    Receiving(receiving);
    CompleteReceive(receiving, wire[0]);
    var metadata := wire[0];
    sending, receiving := receiving, sending;
    yielded, settled := [], [];
    var k := 0;
    while !metadata.isLast
      invariant {sending, receiving} == {sendBuf, recvBuf} && sending != receiving
      invariant 0 <= k < |wire| && metadata == wire[k] && sending[..] == wire[k].data
      invariant yielded == settled == Delivered(wire[..k])
      decreases |wire| - k
    {
      Receiving(receiving);
      var items := YieldItems(sending, metadata.meta, receiving);
      yielded := yielded + items;
      ghost var shown := metadata.meta;
      k := k + 1;
      CompleteReceive(receiving, wire[k]);
      metadata := wire[k];
      settled := settled + Unpacked(Message(shown, sending[..], false));
      assert wire[..k][..k - 1] == wire[..k - 1];
      sending, receiving := receiving, sending;
    }
    var items := YieldItems(sending, metadata.meta, receiving);
    yielded := yielded + items;
    settled := settled + items;
    assert wire[..|wire| - 1] == wire[..k];
  }

  // ---------------------------------------------------------------- end to end

  lemma {:induction false} DeliveredIsDecoded(wire: seq<Message>, bs: seq<Bucket>, cap: nat)
    requires |wire| == |bs|
    requires forall k :: 0 <= k < |wire| ==> InBounds(bs[k]) && Carries(wire[k], bs[k], cap, wire[k].isLast)
    ensures Delivered(wire) == Decode(bs)
  {
    if wire != [] {
      var k := |wire| - 1;
      DeliveredIsDecoded(wire[..k], bs[..k], cap);
      forall j | 0 <= j < |wire[k].meta| ensures Unpacked(wire[k])[j] == Items(bs[k])[j] {
        ItemFromBuffer(wire[k].data, bs[k], j);
      }
      assert Unpacked(wire[k]) == Items(bs[k]);
    }
  }

  /** Every rank that receives what rank 0 sent yields exactly the weight list, in order, if and only if
    no bucket was given a name twice. */
  lemma BroadcastDelivers(ws: seq<Weight>, cap: nat, wire: seq<Message>)
    requires ValidWeights(ws) && Sent(wire, ws, cap)
    ensures Framed(wire, cap)
    ensures Delivered(wire) == ws <==> NamesFresh(ws, cap, |ws|)
  {
    forall k | 0 <= k < |wire| ensures InBounds(Buckets(ws, cap)[k]) {
      BucketsInBounds(ws, cap, k);
    }
    DeliveredIsDecoded(wire, Buckets(ws, cap), cap);
    DecodeRestoresWeights(ws, cap);
  }
}
