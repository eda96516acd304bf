/** Every run of the relay is finite, and a run that cannot go on has delivered everything. */
module NixlTermination {
  import opened Packing
  import opened Prelude
  import opened NixlAgents
  import opened NixlRelay
  import opened NixlInvariant
  import opened NixlSteps
  import opened NixlLinks
  import opened NixlTheorems

  // ---------------------------------------------------------------- the measure of one rank

  /** Statements left before the program needs the next bucket. */
  function Stage(pc: Pc): nat {
    match pc
    case RYield(_) => 20
    case RAck => 16
    case RFirstRead => 12
    case RRead => 12
    case RHold => 8
    case RLastYield(_) => 5
    case RMeta => 4
    case RLastAck => 4
    case _ => 0
  }

  function SenderWork(ws: seq<Weight>, pc: Pc): int {
    match pc
    case SFill(i) => 20 * (|ws| - i) + 30
    case SFlushWait(i) => 20 * (|ws| - i) + 26
    case SPut(i) => 20 * (|ws| - i) + 22
    case SLastWait => 26
    case SFinalWait => 22
    case _ => 0
  }

  /** An upper bound on the steps that `n` buckets still to come will take, their tensors aside. */
  function BucketWork(cap: nat, n: int): int {
    (cap + 32) * n
  }

  /** Buckets still to come, tensors still to yield, statements left. */
  function ReceiverWork(bs: seq<Bucket>, cap: nat, k: Rank): int {
    BucketWork(cap, |bs| - k.seen) + (|Decode(bs)| - |k.yielded|) + Stage(k.pc)
  }

  function MailWork(r: nat, b: Mailbox): nat {
    2 * |b.inbox| + (if r == 0 then 0 else |Queue(b.messages, r - 1)|)
    + 2 * |b.arrived| + |Queue(b.notifications, r + 1)|
  }

  function XferWork(cap: nat, k: Rank): int {
    if Active(k) then cap - k.xfer.value.copied + 4 else 0
  }

  function Work(c: Config, bs: seq<Bucket>, r: nat, k: Rank): int {
    MailWork(r, k.box) + XferWork(c.cap, k)
    + if r == 0 then SenderWork(c.ws, k.pc) else ReceiverWork(bs, c.cap, k)
  }

  lemma BucketWorkIs(cap: nat, n: int)
    ensures n >= 0 ==> BucketWork(cap, n) >= 0
    ensures BucketWork(cap, n - 1) == BucketWork(cap, n) - cap - 32
  {
  }

  lemma WorkIsNatural(c: Config, bs: seq<Bucket>, r: nat, k: Rank)
    requires RankInv(c, bs, r, k)
    ensures Work(c, bs, r, k) >= 0
  {
    if r > 0 {
      ReceiverDelivers(bs, c.cap, HasNext(c, r), k);
      BucketWorkIs(c.cap, |bs| - k.seen);
    }
  }

  // ---------------------------------------------------------------- one statement

  lemma DequeueWork<T>(m: map<nat, seq<T>>, a: nat)
    requires Queue(m, a) != []
    ensures |Queue(Dequeue(m, a), a)| == |Queue(m, a)| - 1
  {
  }

  /** What lies in the mailbox adds to the rest of the work. */
  lemma MailIsApart(c: Config, bs: seq<Bucket>, r: nat, k: Rank, k': Rank)
    requires k'.pc == k.pc && k'.xfer == k.xfer && k'.seen == k.seen && k'.yielded == k.yielded
    ensures Work(c, bs, r, k') - MailWork(r, k'.box) == Work(c, bs, r, k) - MailWork(r, k.box)
  {
    hide MailWork, BucketWork, Decode;
  }

  lemma AwaitWorks(c: Config, bs: seq<Bucket>, r: nat, k: Rank)
    requires OpInv(bs, r, k) && NoteOk(k) && k.op.Some? && Await(k).Go?
    ensures Await(k).out == None && Work(c, bs, r, Await(k).rank) == Work(c, bs, r, k) - 1
  {
    AwaitEffects(bs, r, k);
    DequeueWork(k.box.notifications, k.remoteName);
    hide Await, NoteOk, Work, Effects, Holds;
    MailIsApart(c, bs, r, k, Await(k).rank);
  }

  lemma SenderAwaitsWork(c: Config, bs: seq<Bucket>, k: Rank)
    requires OpInv(bs, 0, k) && NoteOk(k) && Awaiting(k) && ExecSender(c, 0, k).Go?
    ensures Work(c, bs, 0, ExecSender(c, 0, k).rank) < Work(c, bs, 0, k) && ExecSender(c, 0, k).out == None
  {
    hide Await, Work, OpInv, NoteOk;
    AwaitWorks(c, bs, 0, k);
  }

  lemma SenderMovesWork(c: Config, bs: seq<Bucket>, k: Rank)
    requires !Awaiting(k) && ExecSender(c, 0, k).Go? && (k.pc.SFill? ==> k.pc.i <= |c.ws|)
    ensures var o := ExecSender(c, 0, k);
            Work(c, bs, 0, o.rank) + (if o.out.Some? then 2 else 0) < Work(c, bs, 0, k)
  {
    hide Splice, PutMeta, MetaAt, MailWork, Await;
  }

  lemma SenderWorks(c: Config, bs: seq<Bucket>, k: Rank)
    requires RankInv(c, bs, 0, k) && NoteOk(k) && ExecSender(c, 0, k).Go?
    ensures var o := ExecSender(c, 0, k);
            Work(c, bs, 0, o.rank) + (if o.out.Some? then 2 else 0) < Work(c, bs, 0, k)
  {
    hide ExecSender, Work, OpInv, NoteOk, Filled, ReceiverInv;
    if Awaiting(k) {
      SenderAwaitsWork(c, bs, k);
    } else {
      SenderMovesWork(c, bs, k);
    }
  }

  lemma ReceiverReadsWork(c: Config, bs: seq<Bucket>, r: nat, k: Rank)
    requires r > 0 && (k.pc.RFirstMeta? || k.pc.RMeta?) && !Active(k) && ExecRank(c, r, k).Go?
    ensures Work(c, bs, r, ExecRank(c, r, k).rank) < Work(c, bs, r, k) && ExecRank(c, r, k).out == None
  {
    DequeueWork(k.box.messages, r - 1);
    BucketWorkIs(c.cap, |bs| - k.seen);
    hide BucketWork, Decode;
  }

  lemma ReceiverAwaitsWork(c: Config, bs: seq<Bucket>, r: nat, k: Rank)
    requires r > 0 && OpInv(bs, r, k) && NoteOk(k) && ReceiverAwaits(k) && ExecRank(c, r, k).Go?
    ensures Work(c, bs, r, ExecRank(c, r, k).rank) < Work(c, bs, r, k) && ExecRank(c, r, k).out == None
  {
    hide Await, Work, OpInv, NoteOk;
    AwaitWorks(c, bs, r, k);
  }

  lemma ReceiverOffersWork(c: Config, bs: seq<Bucket>, r: nat, k: Rank)
    requires r > 0 && k.pc.RHold?
    ensures var o := ExecRank(c, r, k);
            o.Go? && Work(c, bs, r, o.rank) + (if o.out.Some? then 2 else 0) < Work(c, bs, r, k)
  {
    hide MailWork, BucketWork, Decode, Await, BeginRead, YieldOne;
  }

  lemma ReceiverQuietWork(c: Config, bs: seq<Bucket>, r: nat, k: Rank)
    requires r > 0 && ReceiverIsQuiet(HasNext(c, r), k) && !k.pc.RHold?
    ensures Work(c, bs, r, ExecRank(c, r, k).rank) < Work(c, bs, r, k) && ExecRank(c, r, k).out == None
  {
    hide MailWork, BucketWork, Decode, Await, BeginRead, Item, Offer;
  }

  lemma NotReading(c: Config, bs: seq<Bucket>, r: nat, k: Rank)
    requires r > 0 && RankInv(c, bs, r, k) && (k.pc.RFirstMeta? || k.pc.RMeta?)
    ensures !Active(k)
  {
    hide SteadyInv, ReceiverOpInv;
  }

  lemma ReceiverWorks(c: Config, bs: seq<Bucket>, r: nat, k: Rank)
    requires r > 0 && RankInv(c, bs, r, k) && NoteOk(k) && ExecRank(c, r, k).Go?
    ensures var o := ExecRank(c, r, k);
            Work(c, bs, r, o.rank) + (if o.out.Some? then 2 else 0) < Work(c, bs, r, k)
  {
    ReceiverMoves(HasNext(c, r), r, k);
    hide Work, ReceiverInv, OpInv, NoteOk, Await, BeginRead, Offer, YieldOne;
    assert OpInv(bs, r, k);
    if k.pc.RFirstMeta? || k.pc.RMeta? {
      NotReading(c, bs, r, k);
      ReceiverReadsWork(c, bs, r, k);
    } else if ReceiverAwaits(k) {
      ReceiverAwaitsWork(c, bs, r, k);
    } else if k.pc.RHold? {
      ReceiverOffersWork(c, bs, r, k);
    } else {
      ReceiverQuietWork(c, bs, r, k);
    }
  }

  lemma ExecWorks(c: Config, bs: seq<Bucket>, r: nat, k: Rank)
    requires RankInv(c, bs, r, k) && NoteOk(k) && ExecRank(c, r, k).Go?
    ensures var o := ExecRank(c, r, k);
            Work(c, bs, r, o.rank) + (if o.out.Some? then 2 else 0) < Work(c, bs, r, k)
  {
    hide Work, ExecSender, ExecReceiver, RankInv, NoteOk;
    if r == 0 {
      SenderWorks(c, bs, k);
    } else {
      ReceiverWorks(c, bs, r, k);
    }
  }

  // ---------------------------------------------------------------- mail

  lemma {:induction false} SentByBound<T>(xs: seq<Tagged<T>>, a: nat)
    ensures |SentBy(xs, a)| <= |xs|
  {
    if xs != [] {
      SentByBound(xs[1..], a);
    }
  }

  lemma RecvWorks(c: Config, bs: seq<Bucket>, r: nat, k: Rank)
    requires k.box.inbox != []
    ensures Work(c, bs, r, k.(box := RecvOne(k.box))) < Work(c, bs, r, k)
  {
  }

  lemma PollWorks(c: Config, bs: seq<Bucket>, r: nat, k: Rank, last: nat)
    requires k.box.arrived != []
    ensures Work(c, bs, r, k.(box := PollNotes(k.box), remoteName := last)) < Work(c, bs, r, k)
  {
    EnqueueAllQueue(k.box.notifications, k.box.arrived, r + 1);
    SentByBound(k.box.arrived, r + 1);
    hide Work, EnqueueAll, SentBy, Queue;
    MailIsApart(c, bs, r, k, k.(box := PollNotes(k.box), remoteName := last));
  }

  // ---------------------------------------------------------------- the whole system

  function WorkUpTo(c: Config, bs: seq<Bucket>, s: System, n: nat): int
    requires n <= |s|
  {
    if n == 0 then 0 else WorkUpTo(c, bs, s, n - 1) + Work(c, bs, n - 1, s[n - 1])
  }

  /** An upper bound on the number of steps the system can still make. */
  function Measure(c: Config, s: System): int {
    WorkUpTo(c, Buckets(c.ws, c.cap), s, |s|)
  }

  lemma {:induction false} MeasureIsNatural(c: Config, s: System, n: nat)
    requires Inv(c, s) && n <= |s|
    ensures WorkUpTo(c, Buckets(c.ws, c.cap), s, n) >= 0
  {
    hide RankInv, LinkInv, Work, Inv;
    if n > 0 {
      MeasureIsNatural(c, s, n - 1);
      RankLinks(c, s, n - 1);
      WorkIsNatural(c, Buckets(c.ws, c.cap), n - 1, s[n - 1]);
    }
  }

  function Change(c: Config, bs: seq<Bucket>, s: System, t: System, r: nat): int
    requires r < |s| == |t|
  {
    Work(c, bs, r, t[r]) - Work(c, bs, r, s[r])
  }

  /** A step that touches ranks `r` and `r + 1` only changes the measure by their changes. */
  lemma {:induction false} MeasureChange(c: Config, bs: seq<Bucket>, s: System, t: System, r: nat, n: nat)
    requires |s| == |t| && r < |s| && n <= |s|
    requires forall i :: 0 <= i < |s| && i != r && i != r + 1 ==> t[i] == s[i]
    ensures WorkUpTo(c, bs, t, n) - WorkUpTo(c, bs, s, n)
            == (if r < n then Change(c, bs, s, t, r) else 0) + (if r + 1 < n then Change(c, bs, s, t, r + 1) else 0)
  {
    hide Work;
    if n > 0 {
      MeasureChange(c, bs, s, t, r, n - 1);
    }
  }

  lemma DeliverWork(c: Config, bs: seq<Bucket>, r: nat, k: Rank, x: Tagged<Message>)
    ensures Work(c, bs, r, k.(box := Deliver(k.box, x))) == Work(c, bs, r, k) + 2
  {
  }

  lemma CompleteWork(c: Config, bs: seq<Bucket>, r: nat, p: Rank, q: Rank)
    requires Active(q) && q.xfer.value.copied == c.cap
    ensures Work(c, bs, r, Notified(r, p, q)) == Work(c, bs, r, p) + 2
    ensures Work(c, bs, r + 1, Completed(q)) == Work(c, bs, r + 1, q) - 4
  {
  }

  lemma CopyWork(c: Config, bs: seq<Bucket>, r: nat, p: Rank, q: Rank, n: nat)
    requires Active(q)
    ensures Work(c, bs, r, CopyBytes(p, q, n)) == Work(c, bs, r, q) - n
  {
  }

  lemma StepDecreases(c: Config, s: System, a: Action)
    requires ValidWeights(c.ws) && Inv(c, s) && Enabled(c, s, a)
    ensures Measure(c, Next(c, s, a)) < Measure(c, s)
  {
    hide RankInv, LinkInv, Inv, Work, ExecRank, NoteOk, MsgOk, Buckets;
    var bs, t := Buckets(c.ws, c.cap), Next(c, s, a);
    var lead := if a.Complete? then a.r - 1 else a.r;
    RankLinks(c, s, a.r);
    MeasureChange(c, bs, s, t, lead, |s|);
    match a
    case Exec(r) =>
      RankHears(c, s, r);
      ExecWorks(c, bs, r, s[r]);
      var o := ExecRank(c, r, s[r]);
      if o.out.Some? && r + 1 < |s| {
        DeliverWork(c, bs, r + 1, s[r + 1], Tagged(r, o.out.value));
      }
    case Recv(r) => RecvWorks(c, bs, r, s[r]);
    case Poll(r, last) => PollWorks(c, bs, r, s[r], last);
    case Copy(r, n) => CopyWork(c, bs, r, s[r - 1], s[r], n);
    case Complete(r) =>
      assert t[r] == Completed(s[r]) && t[r - 1] == Notified(r - 1, s[r - 1], s[r]);
      CompleteWork(c, bs, r - 1, s[r - 1], s[r]);
  }

  lemma MeasureOf(c: Config, s: System)
    requires Inv(c, s)
    ensures Measure(c, s) >= 0
  {
    hide Inv, WorkUpTo;
    MeasureIsNatural(c, s, |s|);
  }

  /** Every run is finite: its length is bounded by the measure of the initial state. */
  lemma {:induction false} RunsAreBounded(c: Config, s0: System, run: seq<Action>)
    requires ValidWeights(c.ws) && Init(c, s0) && After(c, s0, run).Some?
    ensures |run| + Measure(c, After(c, s0, run).value) <= Measure(c, s0)
    ensures |run| <= Measure(c, s0)
  {
    hide Inv, Measure;
    RunKeepsInv(c, s0, run);
    if run != [] {
      var before := After(c, s0, run[..|run| - 1]).value;
      RunsAreBounded(c, s0, run[..|run| - 1]);
      RunKeepsInv(c, s0, run[..|run| - 1]);
      StepDecreases(c, before, run[|run| - 1]);
    }
    assert Measure(c, After(c, s0, run).value) >= 0 by {
      MeasureOf(c, After(c, s0, run).value);
    }
  }

  /** Total correctness: however the steps interleave, when nothing more can happen every receiver has
    yielded exactly the weights, in order, provided names are distinct and every weight fits in a bucket. */
  lemma EveryReceiverGetsEverything(c: Config, s0: System, run: seq<Action>, s: System, r: nat)
    requires ValidWeights(c.ws) && DistinctNames(c.ws) && AllFit(c.ws, c.cap)
    requires Init(c, s0) && After(c, s0, run) == Some(s) && Stuck(c, s) && 0 < r < |s|
    ensures s[r].pc.RDone? && s[r].yielded == c.ws
  {
    NoDeadlock(c, s0, run, s);
    assert Finished(r, s[r]);
    InOrderDelivery(c, s0, run, s, r);
  }
}
