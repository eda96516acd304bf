/** The NIXL weight relay: rank 0 packs weights, ranks 1..R form a chain in which each rank reads
  buckets from the rank before it and offers them to the rank after it.

  A step of the system is one statement of one rank's program between two awaits, one envelope
  taken from a socket, one poll for notifications, or a piece of a background transfer. Any
  interleaving of such steps is a run. A transfer copies its bytes in arbitrarily many pieces,
  reading the source buffer as it is at that moment, so nothing but the protocol protects it. */
module NixlRelay {
  import opened Packing
  import opened Prelude
  import opened NixlAgents

  /** The weights, the bucket size in bytes, and the number of receiving ranks. */
  datatype Config = Config(ws: seq<Weight>, cap: nat, receivers: nat)

  datatype Bufs = Bufs(b0: seq<byte>, b1: seq<byte>) {
    function At(which: bool): seq<byte> { if which then b1 else b0 }

    function Put(which: bool, data: seq<byte>): Bufs {
      if which then Bufs(b0, data) else Bufs(data, b1)
    }
  }

  /** Where a rank's program stands. `Fill(i)` is about to handle weight `i`. */
  datatype Pc =
    | SFill(i: nat) | SFlushWait(i: nat) | SPut(i: nat) | SLastWait | SFinalWait | SDone
    | SFailed
    | RFirstMeta | RFirstRead | RHold | RMeta | RYield(j: nat) | RAck | RRead
    | RLastYield(j: nat) | RLastAck | RDone
    | Crashed

  /** A `ReadableOperation`: its notify key and the buffer its descriptors name. */
  datatype Op = Op(key: Key, buf: bool)

  /** A `ReadOperation` whose transfer has begun. */
  datatype Xfer = Xfer(src: bool, dst: bool, key: Key, copied: nat, done: bool)

  /** `send` says which buffer the local name `send_buf` denotes; `recv_buf` is the other one.
    `yielded`, `seen` and `offers` are history: the tensors yielded, the number of metadata messages
    read and the number of readable operations created. */
  datatype Rank = Rank(
    pc: Pc, bufs: Bufs, send: bool, offset: nat, meta: Metadata, nextMeta: Metadata,
    op: Option<Op>, remoteName: nat, xfer: Option<Xfer>, box: Mailbox,
    yielded: seq<Weight>, seen: nat, offers: nat)

  datatype Outcome = Blocked | Go(rank: Rank, out: Option<Message>)

  datatype Action =
    | Exec(r: nat)
    | Recv(r: nat)
    | Poll(r: nat, last: nat)
    | Copy(r: nat, n: nat)
    | Complete(r: nat)

  type System = seq<Rank>

  // ---------------------------------------------------------------- the programs

  function HasNext(c: Config, r: nat): bool { r < c.receivers }

  function Splice(buf: seq<byte>, off: nat, data: seq<byte>): seq<byte> {
    if off + |data| <= |buf| then buf[..off] + data + buf[off + |data|..] else buf
  }

  /** Creating a `ReadableOperation` over `send_buf`. */
  function Offer(r: nat, k: Rank, meta: Metadata): (Rank, Message) {
    var key := Key(r, k.offers);
    (k.(op := Some(Op(key, k.send)), remoteName := r + 1, offers := k.offers + 1), Message(key, k.send, meta))
  }

  /** The tail of `get_notification` and the key assertion. */
  function Await(k: Rank): Outcome
    requires k.op.Some?
  {
    var q := Queue(k.box.notifications, k.remoteName);
    if q == [] then Blocked
    else if q[0] == k.op.value.key then Go(k.(op := None, box := PopNote(k.box, k.remoteName)), None)
    else Go(k.(pc := Crashed), None)
  }

  /** Placing weight `i`, with the size assertion in front. */
  function PlaceOne(c: Config, k: Rank, i: nat): Rank
    requires i < |c.ws|
  {
    var w := c.ws[i];
    if k.offset + |w.bytes| > c.cap then k.(pc := SFailed)
    else k.(meta := Metadata(PutMeta(k.meta.bucketMeta, MetaAt(w, k.offset)), k.meta.isLast),
            bufs := k.bufs.Put(k.send, Splice(k.bufs.At(k.send), k.offset, w.bytes)),
            offset := k.offset + |w.bytes|, pc := SFill(i + 1))
  }

  function ExecSender(c: Config, r: nat, k: Rank): Outcome {
    match k.pc
    case SFill(i) =>
      if i >= |c.ws| then Go(k.(pc := SLastWait), None)
      else if k.offset + |c.ws[i].bytes| > c.cap then Go(k.(pc := SFlushWait(i)), None)
      else Go(PlaceOne(c, k, i), None)
    case SFlushWait(i) =>
      if k.op.Some? then Await(k)
      else
        var (k', msg) := Offer(r, k, Metadata(k.meta.bucketMeta, false));
        Go(k'.(send := !k.send, meta := Metadata([], false), offset := 0, pc := SPut(i)), Some(msg))
    case SPut(i) => if i >= |c.ws| then Blocked else Go(PlaceOne(c, k, i), None)
    case SLastWait =>
      if k.op.Some? then Await(k)
      else
        var (k', msg) := Offer(r, k, Metadata(k.meta.bucketMeta, true));
        Go(k'.(pc := SFinalWait), Some(msg))
    case SFinalWait => if k.op.Some? then Await(k) else Go(k.(pc := SDone), None)
    case _ => Blocked
  }

  /** `read_metadata` from the previous rank followed by `begin_read` into `recv_buf`. */
  function BeginRead(r: nat, k: Rank): Rank
    requires 0 < r && Queue(k.box.messages, r - 1) != []
  {
    var msg := Queue(k.box.messages, r - 1)[0];
    k.(box := PopMessage(k.box, r - 1), seen := k.seen + 1,
       xfer := Some(Xfer(msg.remoteBuf, !k.send, msg.notifyKey, 0, false)))
  }

  function IncomingMetadata(r: nat, k: Rank): Metadata
    requires 0 < r && Queue(k.box.messages, r - 1) != []
  {
    Queue(k.box.messages, r - 1)[0].metadata
  }

  predicate ReadDone(k: Rank) {
    k.xfer.Some? && k.xfer.value.done
  }

  function YieldOne(k: Rank, j: nat): Rank
    requires j < |k.meta.bucketMeta|
  {
    k.(yielded := k.yielded + [Item(k.bufs.At(k.send), k.meta.bucketMeta[j])])
  }

  function ExecReceiver(hasNext: bool, r: nat, k: Rank): Outcome
    requires 0 < r
  {
    match k.pc
    case RFirstMeta =>
      if Queue(k.box.messages, r - 1) == [] then Blocked
      else Go(BeginRead(r, k).(meta := IncomingMetadata(r, k), pc := RFirstRead), None)
    case RFirstRead =>
      if ReadDone(k) then Go(k.(xfer := None, send := !k.send, pc := RHold), None) else Blocked
    case RHold =>
      var next := if k.meta.isLast then RLastYield(0) else RMeta;
      if hasNext then
        var (k', msg) := Offer(r, k, k.meta);
        Go(k'.(pc := next), Some(msg))
      else Go(k.(pc := next), None)
    case RMeta =>
      if Queue(k.box.messages, r - 1) == [] then Blocked
      else Go(BeginRead(r, k).(nextMeta := IncomingMetadata(r, k), pc := RYield(0)), None)
    case RYield(j) =>
      if j < |k.meta.bucketMeta| then Go(YieldOne(k, j).(pc := RYield(j + 1)), None)
      else Go(k.(pc := RAck), None)
    case RAck => if k.op.Some? then Await(k) else Go(k.(pc := RRead), None)
    case RRead =>
      if ReadDone(k) then Go(k.(xfer := None, meta := k.nextMeta, send := !k.send, pc := RHold), None) else Blocked
    case RLastYield(j) =>
      if j < |k.meta.bucketMeta| then Go(YieldOne(k, j).(pc := RLastYield(j + 1)), None)
      else Go(k.(pc := RLastAck), None)
    case RLastAck => if k.op.Some? then Await(k) else Go(k.(pc := RDone), None)
    case _ => Blocked
  }

  function ExecRank(c: Config, r: nat, k: Rank): Outcome {
    if r == 0 then ExecSender(c, r, k) else ExecReceiver(HasNext(c, r), r, k)
  }

  /** The rank is inside `get_notification`. */
  predicate Awaiting(k: Rank) {
    k.op.Some? && (k.pc.SFlushWait? || k.pc.SLastWait? || k.pc.SFinalWait? || k.pc.RAck? || k.pc.RLastAck?)
  }

  // ---------------------------------------------------------------- the system

  function Active(k: Rank): bool { k.xfer.Some? && !k.xfer.value.done }

  /** `n` more bytes of the transfer from `p` to `k`. */
  function CopyBytes(p: Rank, k: Rank, n: nat): Rank
    requires Active(k)
  {
    var x := k.xfer.value;
    var piece := Window(p.bufs.At(x.src), x.copied, x.copied + n);
    k.(bufs := k.bufs.Put(x.dst, Splice(k.bufs.At(x.dst), x.copied, piece)),
       xfer := Some(x.(copied := x.copied + n)))
  }

  predicate Enabled(c: Config, s: System, a: Action) {
    a.r < |s| &&
    match a
    case Exec(r) => ExecRank(c, r, s[r]).Go?
    case Recv(r) => s[r].box.inbox != []
    case Poll(r, last) =>
      && Awaiting(s[r]) && Queue(s[r].box.notifications, s[r].remoteName) == []
      && exists i :: 0 <= i < |s[r].box.arrived| && s[r].box.arrived[i].sender == last
    case Copy(r, n) => r > 0 && Active(s[r]) && n > 0 && s[r].xfer.value.copied + n <= c.cap
    case Complete(r) => r > 0 && Active(s[r]) && s[r].xfer.value.copied == c.cap
  }

  function Next(c: Config, s: System, a: Action): System
    requires Enabled(c, s, a)
  {
    match a
    case Exec(r) =>
      var o := ExecRank(c, r, s[r]);
      var t := s[r := o.rank];
      if o.out.Some? && r + 1 < |t| then t[r + 1 := t[r + 1].(box := Deliver(t[r + 1].box, Tagged(r, o.out.value)))]
      else t
    case Recv(r) => s[r := s[r].(box := RecvOne(s[r].box))]
    case Poll(r, last) => s[r := s[r].(box := PollNotes(s[r].box), remoteName := last)]
    case Copy(r, n) => s[r := CopyBytes(s[r - 1], s[r], n)]
    case Complete(r) =>
      var x := s[r].xfer.value;
      var t := s[r := s[r].(xfer := Some(x.(done := true)))];
      t[r - 1 := t[r - 1].(box := Notify(t[r - 1].box, Tagged(r, x.key)))]
  }

  /** Buffers may hold anything at the start; every queue is empty. Rank 0 has a successor, which
    `send_weights` asserts. */
  predicate InitRank(c: Config, r: nat, k: Rank) {
    && |k.bufs.b0| == c.cap && |k.bufs.b1| == c.cap
    && k.pc == (if r == 0 then SFill(0) else RFirstMeta)
    && k.offset == 0 && k.meta == Metadata([], false) && k.op == None && k.xfer == None
    && k.box == EMPTY_MAILBOX && k.yielded == [] && k.seen == 0 && k.offers == 0
  }

  predicate Init(c: Config, s: System) {
    c.receivers > 0 && |s| == c.receivers + 1 && forall r :: 0 <= r < |s| ==> InitRank(c, r, s[r])
  }

  /** The state after the steps of `run`, if each is enabled when its turn comes. */
  function After(c: Config, s0: System, run: seq<Action>): Option<System> {
    if run == [] then Some(s0)
    else
      var m := After(c, s0, run[..|run| - 1]);
      var a := run[|run| - 1];
      if m.Some? && Enabled(c, m.value, a) then Some(Next(c, m.value, a)) else None
  }
}
