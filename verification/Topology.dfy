/** Who talks to whom: the NIXL chain built from the metadata of all workers. */
module Topology {
  import opened Prelude

  /** Where Python's slice bound `i` falls in a list of length `n`. */
  function Bound(i: int, n: nat): (r: nat)
    ensures r <= n
  {
    if i < 0 then (if n + i < 0 then 0 else n + i) else if i > n then n else i
  }

  function Slice<T>(s: seq<T>, lo: int, hi: int): seq<T> {
    var a, b := Bound(lo, |s|), Bound(hi, |s|);
    if a <= b then s[a..b] else []
  }

  function SliceFrom<T>(s: seq<T>, lo: int): seq<T> {
    s[Bound(lo, |s|)..]
  }

  /** Python's `s[i]`; `None` stands for the `IndexError`. */
  function Index<T>(s: seq<T>, i: int): Option<T> {
    if 0 <= i < |s| then Some(s[i]) else if -|s| <= i < 0 then Some(s[|s| + i]) else None
  }

  function Somes<T>(s: seq<T>): seq<Option<T>> {
    seq(|s|, i requires 0 <= i < |s| => Some(s[i]))
  }

  /** The keyword lists dispatched to one worker group. */
  datatype Kwargs<+M> = Kwargs(rank: seq<int>, worldSize: seq<nat>, prev: seq<Option<M>>, next: seq<Option<M>>)

  datatype Plan<+M> = Plan(trainer: Kwargs<M>, rollout: Kwargs<M>)

  /** `None` when indexing the metadata list raises. */
  function BuildTopology<M>(trainers: nat, rollouts: nat, metadata: seq<M>): Option<Plan<M>> {
    var first, second := Index(metadata, 0), Index(metadata, -(rollouts as int));
    if first.None? || second.None? then None
    else
      Some(Plan(
        Kwargs([0] + Repeat(-1, trainers - 1), Repeat(rollouts + 1, trainers), Repeat(None, trainers),
               [second] + Repeat(None, trainers - 1)),
        Kwargs(seq(rollouts, i => i + 1), Repeat(rollouts + 1, rollouts),
               [first] + Somes(Slice(metadata, -(rollouts as int), -1)),
               Somes(SliceFrom(metadata, -(rollouts as int) + 1)) + [None])))
  }

  predicate Lengths<M>(k: Kwargs<M>, n: nat) {
    |k.rank| == n && |k.worldSize| == n && |k.prev| == n && |k.next| == n
  }

  /** The length assertions of `build_process_group` on both worker groups. */
  predicate LengthsOk<M>(trainers: nat, rollouts: nat, metadata: seq<M>) {
    var p := BuildTopology(trainers, rollouts, metadata);
    p.Some? && Lengths(p.value.trainer, trainers) && Lengths(p.value.rollout, rollouts)
  }

  /** With one metadata entry per worker the plan is accepted exactly when there is a trainer and there
    are at least two rollout workers; with a single one the successor list is the whole metadata list. */
  lemma LengthContract<M>(trainers: nat, rollouts: nat, metadata: seq<M>)
    requires |metadata| == trainers + rollouts
    ensures LengthsOk(trainers, rollouts, metadata) <==> trainers >= 1 && rollouts >= 2
  {
    if trainers >= 1 && rollouts == 1 {
      assert |SliceFrom(metadata, 0)| == |metadata|;
    }
  }

  // ---------------------------------------------------------------- the chain

  /** The metadata of the worker that holds rank `r`. */
  function AgentOf<M>(trainers: nat, rollouts: nat, metadata: seq<M>, r: nat): M
    requires trainers >= 1 && |metadata| == trainers + rollouts && r <= rollouts
  {
    if r == 0 then metadata[0] else metadata[trainers + r - 1]
  }

  function NextOf<M>(p: Plan<M>, r: nat): Option<M>
    requires if r == 0 then |p.trainer.next| > 0 else r <= |p.rollout.next|
  {
    if r == 0 then p.trainer.next[0] else p.rollout.next[r - 1]
  }

  function PrevOf<M>(p: Plan<M>, r: nat): Option<M>
    requires if r == 0 then |p.trainer.prev| > 0 else r <= |p.rollout.prev|
  {
    if r == 0 then p.trainer.prev[0] else p.rollout.prev[r - 1]
  }

  function WorldOf<M>(p: Plan<M>, r: nat): nat
    requires if r == 0 then |p.trainer.worldSize| > 0 else r <= |p.rollout.worldSize|
  {
    if r == 0 then p.trainer.worldSize[0] else p.rollout.worldSize[r - 1]
  }

  function RankOf<M>(p: Plan<M>, r: nat): int
    requires if r == 0 then |p.trainer.rank| > 0 else r <= |p.rollout.rank|
  {
    if r == 0 then p.trainer.rank[0] else p.rollout.rank[r - 1]
  }

  /** The links form the one chain 0, 1, ..., R: each rank points forward to the next rank's agent, back to
    the previous rank's agent, and the ends point nowhere. Every rank knows the chain to have R + 1 members. */
  lemma OneChain<M>(trainers: nat, rollouts: nat, metadata: seq<M>, r: nat)
    requires trainers >= 1 && rollouts >= 2 && |metadata| == trainers + rollouts && r <= rollouts
    ensures LengthsOk(trainers, rollouts, metadata)
    ensures var p := BuildTopology(trainers, rollouts, metadata).value;
            && RankOf(p, r) == r && WorldOf(p, r) == rollouts + 1
            && NextOf(p, r) == (if r == rollouts then None else Some(AgentOf(trainers, rollouts, metadata, r + 1)))
            && PrevOf(p, r) == (if r == 0 then None else Some(AgentOf(trainers, rollouts, metadata, r - 1)))
  {
    LengthContract(trainers, rollouts, metadata);
    var p := BuildTopology(trainers, rollouts, metadata).value;
    assert Slice(metadata, -(rollouts as int), -1) == metadata[trainers..|metadata| - 1];
    assert SliceFrom(metadata, -(rollouts as int) + 1) == metadata[trainers + 1..];
  }

  /** Agents are told apart by their metadata: the predecessor of my successor is me, and the other way round. */
  lemma LinksAreInverse<M>(trainers: nat, rollouts: nat, metadata: seq<M>, i: nat, j: nat)
    requires trainers >= 1 && rollouts >= 2 && |metadata| == trainers + rollouts && i <= rollouts && j <= rollouts
    requires forall a, b :: 0 <= a < b < |metadata| ==> metadata[a] != metadata[b]
    ensures LengthsOk(trainers, rollouts, metadata)
    ensures var p := BuildTopology(trainers, rollouts, metadata).value;
            NextOf(p, i) == Some(AgentOf(trainers, rollouts, metadata, j))
            <==> PrevOf(p, j) == Some(AgentOf(trainers, rollouts, metadata, i))
  {
    OneChain(trainers, rollouts, metadata, i);
    OneChain(trainers, rollouts, metadata, j);
  }

  // ---------------------------------------------------------------- init_process_group

  /** Which of the assertions `init_process_group` reaches. */
  datatype Case = Idle | Source | Relay | Sink | Unchecked

  function CaseOf(rank: int, worldSize: nat): Case {
    if rank < 0 then Idle
    else if rank == 0 then Source
    else if rank < worldSize - 1 then Relay
    else if rank == worldSize - 1 then Sink
    else Unchecked
  }

  /** The assertion `init_process_group` makes for its rank. */
  predicate InitAsserts<M>(rank: int, worldSize: nat, prev: Option<M>, next: Option<M>) {
    match CaseOf(rank, worldSize)
    case Idle => prev.None? && next.None?
    case Source => prev.None? && next.Some?
    case Relay => prev.Some? && next.Some?
    case Sink => prev.Some? && next.None?
    case Unchecked => true
  }

  /** For a rank in its chain the assertion allows one combination of links: a predecessor for all but the first of the
    chain, and a successor for all but the last. */
  lemma AssertsAreExact<M>(rank: int, worldSize: nat, prev: Option<M>, next: Option<M>)
    requires worldSize > 1 && rank < worldSize
    ensures InitAsserts(rank, worldSize, prev, next) <==>
              (prev.Some? <==> 0 < rank) && (next.Some? <==> 0 <= rank < worldSize - 1)
  {
  }

  predicate GroupAsserts<M>(k: Kwargs<M>)
    requires |k.rank| == |k.worldSize| == |k.prev| == |k.next|
  {
    forall i :: 0 <= i < |k.rank| ==> InitAsserts(k.rank[i], k.worldSize[i], k.prev[i], k.next[i])
  }

  /** The trainers but the first stay outside the chain, with the world size of the others. */
  lemma OthersAreIdle<M>(trainers: nat, rollouts: nat, metadata: seq<M>, i: nat)
    requires trainers >= 1 && rollouts >= 2 && |metadata| == trainers + rollouts && 0 < i < trainers
    ensures LengthsOk(trainers, rollouts, metadata)
    ensures var k := BuildTopology(trainers, rollouts, metadata).value.trainer;
            k.rank[i] == -1 && k.worldSize[i] == rollouts + 1 && k.prev[i] == None && k.next[i] == None
  {
    LengthContract(trainers, rollouts, metadata);
  }

  /** Every worker's assertion passes, the idle trainers' included, and it is the one for the worker's place: rank 0 is
    the source, ranks 1, ..., R - 1 relay, rank R is the sink, and no rank goes unchecked. */
  lemma EveryWorkerInitialises<M>(trainers: nat, rollouts: nat, metadata: seq<M>)
    requires trainers >= 1 && rollouts >= 2 && |metadata| == trainers + rollouts
    ensures LengthsOk(trainers, rollouts, metadata)
    ensures var p := BuildTopology(trainers, rollouts, metadata).value;
            && GroupAsserts(p.trainer) && GroupAsserts(p.rollout)
            && (forall i :: 0 <= i < trainers ==>
                  CaseOf(p.trainer.rank[i], p.trainer.worldSize[i]) == if i == 0 then Source else Idle)
            && (forall i :: 0 <= i < rollouts ==>
                  CaseOf(p.rollout.rank[i], p.rollout.worldSize[i]) == if i == rollouts - 1 then Sink else Relay)
  {
    LengthContract(trainers, rollouts, metadata);
    var p := BuildTopology(trainers, rollouts, metadata).value;
    forall i | 0 <= i < rollouts
      ensures InitAsserts(p.rollout.rank[i], p.rollout.worldSize[i], p.rollout.prev[i], p.rollout.next[i])
    {
      OneChain(trainers, rollouts, metadata, i + 1);
    }
  }
}
