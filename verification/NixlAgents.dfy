/** The message and notification queues of a NIXL agent.

  Messages arrive on one socket from any sender and are sorted into one queue per sender;
  notifications arrive in batches that are grouped by sender. The network is taken to be
  reliable and first-in first-out for each sender. */
module NixlAgents {
  import opened Packing
  import opened Prelude

  /** The notify key of a readable operation. `uuid4` is modelled as the owner's rank and a serial number. */
  datatype Key = Key(owner: nat, serial: nat)

  datatype Metadata = Metadata(bucketMeta: seq<TensorMeta>, isLast: bool)

  /** `remoteBuf` stands for the transfer descriptors: which of the sender's two buffers to read. */
  datatype Message = Message(notifyKey: Key, remoteBuf: bool, metadata: Metadata)

  datatype Tagged<+T> = Tagged(sender: nat, item: T)

  /** The agent's socket and notification intake, and the per-sender queues filled from them. */
  datatype Mailbox = Mailbox(inbox: seq<Tagged<Message>>, messages: map<nat, seq<Message>>,
                             arrived: seq<Tagged<Key>>, notifications: map<nat, seq<Key>>)

  const EMPTY_MAILBOX := Mailbox([], map[], [], map[])

  /** `defaultdict(deque)` lookup. */
  function Queue<T>(m: map<nat, seq<T>>, a: nat): seq<T> {
    if a in m then m[a] else []
  }

  function Enqueue<T>(m: map<nat, seq<T>>, x: Tagged<T>): map<nat, seq<T>> {
    m[x.sender := Queue(m, x.sender) + [x.item]]
  }

  function EnqueueAll<T>(m: map<nat, seq<T>>, xs: seq<Tagged<T>>): map<nat, seq<T>>
    decreases |xs|
  {
    if xs == [] then m else EnqueueAll(Enqueue(m, xs[0]), xs[1..])
  }

  function Dequeue<T>(m: map<nat, seq<T>>, a: nat): map<nat, seq<T>>
    requires Queue(m, a) != []
  {
    m[a := m[a][1..]]
  }

  function IfSentBy<T>(x: Tagged<T>, a: nat): seq<T> {
    if x.sender == a then [x.item] else []
  }

  /** The items of `xs` that `a` sent, in order. */
  function SentBy<T>(xs: seq<Tagged<T>>, a: nat): seq<T> {
    if xs == [] then [] else IfSentBy(xs[0], a) + SentBy(xs[1..], a)
  }

  lemma {:induction false} SentBySnoc<T>(xs: seq<Tagged<T>>, x: Tagged<T>, a: nat)
    ensures SentBy(xs + [x], a) == SentBy(xs, a) + IfSentBy(x, a)
  {
    var zs := xs + [x];
    if xs == [] {
      assert zs[0] == x && SentBy(zs[1..], a) == [];
    } else {
      assert zs[0] == xs[0] && zs[1..] == xs[1..] + [x];
      calc {
        SentBy(zs, a);
        IfSentBy(xs[0], a) + SentBy(xs[1..] + [x], a);
        { SentBySnoc(xs[1..], x, a); }
        IfSentBy(xs[0], a) + (SentBy(xs[1..], a) + IfSentBy(x, a));
        SentBy(xs, a) + IfSentBy(x, a);
      }
    }
  }

  lemma {:induction false} EnqueueAllQueue<T>(m: map<nat, seq<T>>, xs: seq<Tagged<T>>, a: nat)
    ensures Queue(EnqueueAll(m, xs), a) == Queue(m, a) + SentBy(xs, a)
    decreases |xs|
  {
    if xs != [] {
      EnqueueAllQueue(Enqueue(m, xs[0]), xs[1..], a);
    }
  }

  /** Everything from `a` that this agent has been sent and has not consumed. */
  function PendingMessages(b: Mailbox, a: nat): seq<Message> {
    Queue(b.messages, a) + SentBy(b.inbox, a)
  }

  function PendingNotes(b: Mailbox, a: nat): seq<Key> {
    Queue(b.notifications, a) + SentBy(b.arrived, a)
  }

  function Deliver(b: Mailbox, x: Tagged<Message>): Mailbox {
    b.(inbox := b.inbox + [x])
  }

  function Notify(b: Mailbox, x: Tagged<Key>): Mailbox {
    b.(arrived := b.arrived + [x])
  }

  /** One `socket.recv_pyobj` followed by the append to the sender's queue. */
  function RecvOne(b: Mailbox): Mailbox
    requires b.inbox != []
  {
    b.(inbox := b.inbox[1..], messages := Enqueue(b.messages, b.inbox[0]))
  }

  function PopMessage(b: Mailbox, a: nat): Mailbox
    requires Queue(b.messages, a) != []
  {
    b.(messages := Dequeue(b.messages, a))
  }

  /** One `get_new_notifs` and the loop that files its contents. */
  function PollNotes(b: Mailbox): Mailbox {
    b.(arrived := [], notifications := EnqueueAll(b.notifications, b.arrived))
  }

  function PopNote(b: Mailbox, a: nat): Mailbox
    requires Queue(b.notifications, a) != []
  {
    b.(notifications := Dequeue(b.notifications, a))
  }

  /** Filing an envelope moves nothing in or out of any sender's pending messages. */
  lemma RecvKeepsPending(b: Mailbox, a: nat)
    requires b.inbox != []
    ensures PendingMessages(RecvOne(b), a) == PendingMessages(b, a)
  {
    assert b.inbox == [b.inbox[0]] + b.inbox[1..];
  }

  lemma PollKeepsPending(b: Mailbox, a: nat)
    ensures PendingNotes(PollNotes(b), a) == PendingNotes(b, a)
  {
    EnqueueAllQueue(b.notifications, b.arrived, a);
  }

  lemma DeliverPending(b: Mailbox, x: Tagged<Message>, a: nat)
    ensures PendingMessages(Deliver(b, x), a) == PendingMessages(b, a) + IfSentBy(x, a)
  {
    SentBySnoc(b.inbox, x, a);
  }

  lemma NotifyPending(b: Mailbox, x: Tagged<Key>, a: nat)
    ensures PendingNotes(Notify(b, x), a) == PendingNotes(b, a) + IfSentBy(x, a)
  {
    SentBySnoc(b.arrived, x, a);
  }

  // ---------------------------------------------------------------- the agent object

  lemma NothingArrived(b: Mailbox, a: nat)
    requires Queue(b.notifications, a) == [] && b.arrived == []
    ensures PendingNotes(b, a) == []
  {
  }

  /** The agent's own queues, updated in place. */
  class NixlAgent {
    var inbox: seq<Tagged<Message>>
    var messages: map<nat, seq<Message>>
    var arrived: seq<Tagged<Key>>
    var notifications: map<nat, seq<Key>>

    constructor ()
      ensures Box() == EMPTY_MAILBOX
    {
      inbox, messages, arrived, notifications := [], map[], [], map[];
    }

    ghost function Box(): Mailbox
      reads this
    {
      Mailbox(inbox, messages, arrived, notifications)
    }

    /** `read_message`, run until it would have to wait for the network: the answer is the
      oldest message of the named agent, and no other agent loses or gains a message. */
    method ReadMessage(agentName: nat) returns (r: Option<Message>)
      modifies this`inbox, this`messages
      ensures r.None? <==> PendingMessages(old(Box()), agentName) == []
      ensures r.Some? ==> [r.value] + PendingMessages(Box(), agentName) == PendingMessages(old(Box()), agentName)
      ensures forall a: nat :: a != agentName ==> PendingMessages(Box(), a) == PendingMessages(old(Box()), a)
    {
      while Queue(messages, agentName) == [] && inbox != []
        invariant forall a: nat :: PendingMessages(Box(), a) == PendingMessages(old(Box()), a)
        decreases |inbox|
      {
        ghost var before := Box();
        messages := Enqueue(messages, inbox[0]);
        inbox := inbox[1..];
        assert Box() == RecvOne(before);
        forall a: nat ensures PendingMessages(Box(), a) == PendingMessages(before, a) {
          RecvKeepsPending(before, a);
        }
      }
      if Queue(messages, agentName) == [] {
        assert PendingMessages(Box(), agentName) == [];
        return None;
      }
      r := Some(messages[agentName][0]);
      messages := Dequeue(messages, agentName);
    }

    /** One poll, and the loop that files its notifications, of which the last gives the name. */
    method FileArrived(remoteAgent: nat) returns (remoteName: nat)
      modifies this`arrived, this`notifications
      ensures Box() == PollNotes(old(Box()))
      ensures remoteName == if old(arrived) == [] then remoteAgent else old(arrived)[|old(arrived)| - 1].sender
    {
      hide Enqueue;
      remoteName := remoteAgent;
      ghost var before := Box();
      var batch := arrived;
      arrived := [];
      while batch != []
        invariant arrived == []
        invariant batch == [] && before.arrived != [] ==> remoteName == before.arrived[|before.arrived| - 1].sender
        invariant batch != [] ==> batch[|batch| - 1] == before.arrived[|before.arrived| - 1]
        invariant before.arrived == [] ==> batch == [] && remoteName == remoteAgent
        invariant EnqueueAll(notifications, batch) == EnqueueAll(before.notifications, before.arrived)
        decreases |batch|
      {
        remoteName := batch[0].sender;
        notifications := Enqueue(notifications, batch[0]);
        batch := batch[1..];
      }
    }

    /** `get_notification`, run until it would poll again. The filing loop reassigns the local `remoteName`, here
      to the sender of the last notification of the batch, so the answer is the oldest notification of `who`,
      which is the awaited agent only as long as nobody else notifies. */
    method GetNotification(remoteAgent: nat) returns (r: Option<Key>, ghost who: nat)
      modifies this`arrived, this`notifications
      ensures r.None? <==> PendingNotes(old(Box()), who) == []
      ensures r.Some? ==> [r.value] + PendingNotes(Box(), who) == PendingNotes(old(Box()), who)
      ensures forall a: nat :: a != who ==> PendingNotes(Box(), a) == PendingNotes(old(Box()), a)
      ensures who == if Queue(old(notifications), remoteAgent) != [] || old(arrived) == [] then remoteAgent
                     else old(arrived)[|old(arrived)| - 1].sender
    {
      hide SentBy, EnqueueAll;
      var remoteName := remoteAgent;
      if Queue(notifications, remoteName) == [] {
        ghost var before := Box();
        remoteName := FileArrived(remoteName);
        forall a: nat ensures PendingNotes(Box(), a) == PendingNotes(before, a) {
          PollKeepsPending(before, a);
        }
      }
      who := remoteName;
      if Queue(notifications, remoteName) == [] {
        NothingArrived(Box(), remoteName);
        return None, who;
      }
      r := Some(notifications[remoteName][0]);
      notifications := Dequeue(notifications, remoteName);
    }
  }
}
