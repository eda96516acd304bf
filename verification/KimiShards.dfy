/** How the KIMI engine divides a weight list over the trainer ranks and into buckets. */
module KimiShards {
  import opened Arithmetic
  import opened Packing
  import opened Prelude
  import opened Tensors

  // ---------------------------------------------------------------- one rank's share

  predicate Mine(i: nat, world: nat, rank: nat)
    requires world > 0
  {
    i % world == rank
  }

  /** The weights among the first `n` that the rank keeps. */
  function Shard(ws: seq<Weight>, world: nat, rank: nat, n: nat): seq<Weight>
    requires world > 0 && n <= |ws|
  {
    if n == 0 then []
    else Shard(ws, world, rank, n - 1) + if Mine(n - 1, world, rank) then [ws[n - 1]] else []
  }

  lemma DivStep(n: nat, d: nat)
    requires d > 0
    ensures if n % d == d - 1 then (n + 1) / d == n / d + 1 && (n + 1) % d == 0
            else (n + 1) / d == n / d && (n + 1) % d == n % d + 1
  {
    var q, r := n / d, n % d;
    assert n == d * q + r;
    if r == d - 1 {
      assert n + 1 == d * (q + 1);
      DivIs(n + 1, d, q + 1, 0);
    } else {
      DivIs(n + 1, d, q, r + 1);
    }
  }

  lemma {:induction false} ShardLength(ws: seq<Weight>, world: nat, rank: nat, n: nat)
    requires world > rank && n <= |ws|
    ensures |Shard(ws, world, rank, n)| == n / world + if n % world > rank then 1 else 0
  {
    if n > 0 {
      ShardLength(ws, world, rank, n - 1);
      DivStep(n - 1, world);
    } else {
      DivIs(0, world, 0, 0);
    }
  }

  lemma {:induction false} ShardGrows(ws: seq<Weight>, world: nat, rank: nat, m: nat, n: nat)
    requires world > 0 && m <= n <= |ws|
    ensures Shard(ws, world, rank, m) <= Shard(ws, world, rank, n)
    decreases n - m
  {
    if m < n {
      ShardGrows(ws, world, rank, m, n - 1);
    }
  }

  /** Every weight is in the share of exactly one rank: weight `i` is entry `i / world` of rank `i % world`. */
  lemma EveryWeightIsKept(ws: seq<Weight>, world: nat, i: nat)
    requires world > 0 && i < |ws|
    ensures i / world < |Shard(ws, world, i % world, |ws|)|
    ensures Shard(ws, world, i % world, |ws|)[i / world] == ws[i]
  {
    ShardLength(ws, world, i % world, i);
    ShardGrows(ws, world, i % world, i + 1, |ws|);
    assert Mine(i, world, i % world);
  }

  lemma InShare(n: nat, world: nat, rank: nat, j: nat)
    requires rank < world && j < n / world + if n % world > rank then 1 else 0
    ensures world * j + rank < n
  {
    var q := n / world;
    assert n == world * q + n % world;
    if j < q {
      MulLe(j + 1, q, world);
    }
  }

  /** And nothing else is: entry `j` of a share is weight `j * world + rank`. */
  lemma NothingElseIsKept(ws: seq<Weight>, world: nat, rank: nat, j: nat)
    requires rank < world && j < |Shard(ws, world, rank, |ws|)|
    ensures world * j + rank < |ws| && Shard(ws, world, rank, |ws|)[j] == ws[world * j + rank]
  {
    ShardLength(ws, world, rank, |ws|);
    InShare(|ws|, world, rank, j);
    DivIs(world * j + rank, world, j, rank);
    EveryWeightIsKept(ws, world, world * j + rank);
  }

  // ---------------------------------------------------------------- buckets

  predicate Holds(b: seq<Weight>, name: string) {
    exists j :: 0 <= j < |b| && b[j].name == name
  }

  lemma HeldInRest(b: seq<Weight>, name: string)
    requires b != [] && b[0].name != name
    ensures Holds(b, name) <==> Holds(b[1..], name)
  {
    if j :| 0 <= j < |b| && b[j].name == name {
      assert b[1..][j - 1].name == name;
    }
    if j :| 0 <= j < |b[1..]| && b[1..][j].name == name {
      assert b[j + 1].name == name;
    }
  }

  function Total(b: seq<Weight>): nat {
    if b == [] then 0 else |b[0].bytes| + Total(b[1..])
  }

  /** `current_bucket[name] = tensor`: an existing key keeps its place and takes the new tensor. */
  function Put(b: seq<Weight>, w: Weight): (r: seq<Weight>)
    ensures r != []
    ensures Holds(b, w.name) ==> |r| == |b|
    ensures !Holds(b, w.name) ==> r == b + [w]
    ensures Total(r) <= Total(b) + |w.bytes|
  {
    if b == [] then [w]
    else if b[0].name == w.name then [w] + b[1..]
    else
      HeldInRest(b, w.name);
      assert b == [b[0]] + b[1..];
      [b[0]] + Put(b[1..], w)
  }

  lemma {:induction false} PutReplaces(b: seq<Weight>, w: Weight, k: nat)
    requires k < |b| && b[k].name == w.name && forall j :: 0 <= j < k ==> b[j].name != w.name
    ensures Put(b, w) == b[k := w]
  {
    if k > 0 {
      PutReplaces(b[1..], w, k - 1);
    }
  }

  lemma {:induction false} TotalAppend(b: seq<Weight>, w: Weight)
    ensures Total(b + [w]) == Total(b) + |w.bytes|
  {
    if b == [] {
      assert [w][1..] == [];
    } else {
      assert (b + [w])[1..] == b[1..] + [w];
      TotalAppend(b[1..], w);
    }
  }

  /** The buckets passed on, the one being filled, and the size counted for it. */
  datatype Filling = Filling(closed: seq<seq<Weight>>, open: seq<Weight>, size: nat)

  predicate Closes(p: Filling, w: Weight, limit: int) {
    p.size + |w.bytes| > limit && p.open != []
  }

  function AddTensor(p: Filling, w: Weight, limit: int): Filling {
    if Closes(p, w, limit) then Filling(p.closed + [p.open], Put([], w), |w.bytes|)
    else Filling(p.closed, Put(p.open, w), p.size + |w.bytes|)
  }

  /** The generator's state after the tensors of `share`. */
  function Filled(share: seq<Weight>, limit: int): Filling {
    if share == [] then Filling([], [], 0)
    else AddTensor(Filled(share[..|share| - 1], limit), share[|share| - 1], limit)
  }

  function BucketsOf(p: Filling): seq<seq<Weight>> {
    p.closed + if p.open == [] then [] else [p.open]
  }

  /** No bucket is given a name twice. */
  predicate NoneTwice(share: seq<Weight>, limit: int) {
    share == [] ||
      var init, w := share[..|share| - 1], share[|share| - 1];
      NoneTwice(init, limit) && (Closes(Filled(init, limit), w, limit) || !Holds(Filled(init, limit).open, w.name))
  }

  predicate WithinLimit(b: seq<Weight>, limit: int) {
    b != [] && (Total(b) <= limit || |b| == 1)
  }

  /** The bucket could not have taken the first tensor of the next one. */
  predicate Full(b: seq<Weight>, next: seq<Weight>, limit: int) {
    next != [] && Total(b) + |next[0].bytes| > limit
  }

  ghost predicate Greedy(bs: seq<seq<Weight>>, limit: int) {
    forall k, m :: 0 <= k < |bs| && 0 <= m < |bs| && m == k + 1 ==> Full(bs[k], bs[m], limit)
  }

  /** Every bucket is within the limit, the size counted being at least that of the open one. */
  predicate Bounded(p: Filling, limit: int) {
    && (forall k :: 0 <= k < |p.closed| ==> WithinLimit(p.closed[k], limit))
    && (p.open == [] ==> p.size == 0 && p.closed == [])
    && Total(p.open) <= p.size && (p.size <= limit || |p.open| == 1)
  }

  lemma {:induction false} FilledIsBounded(share: seq<Weight>, limit: int)
    requires limit > 0
    ensures Bounded(Filled(share, limit), limit)
  {
    if share != [] {
      FilledIsBounded(share[..|share| - 1], limit);
    }
  }

  /** What the state stands for: the share itself, cut greedily, or fewer tensors than that. */
  ghost predicate StandsFor(p: Filling, share: seq<Weight>, limit: int, noneTwice: bool) {
    if noneTwice then Cat(p.closed) + p.open == share && p.size == Total(p.open) && Greedy(BucketsOf(p), limit)
    else |Cat(p.closed)| + |p.open| < |share|
  }

  lemma CatMore(bs: seq<seq<Weight>>, b: seq<Weight>)
    ensures Cat(bs + [b]) == Cat(bs) + b
  {
    CatAppend(bs, [b]);
    assert [b][1..] == [];
  }

  lemma GreedyMore(bs: seq<seq<Weight>>, b: seq<Weight>, next: seq<Weight>, limit: int)
    requires Greedy(bs + [b], limit) && Full(b, next, limit)
    ensures Greedy(bs + [b] + [next], limit)
  {
    var before, after := bs + [b], bs + [b] + [next];
    assert forall k :: 0 <= k < |before| ==> after[k] == before[k];
  }

  lemma GreedyGrown(bs: seq<seq<Weight>>, b: seq<Weight>, w: Weight, limit: int)
    requires Greedy(bs + [b], limit) && b != []
    ensures Greedy(bs + [b + [w]], limit)
  {
    var before, after := bs + [b], bs + [b + [w]];
    assert forall k :: 0 <= k < |bs| ==> after[k] == before[k];
  }

  lemma FirstOpen(p: Filling, limit: int)
    requires Bounded(p, limit)
    ensures p.open == [] ==> p.closed == []
  {
  }

  lemma NothingHeld(name: string)
    ensures !Holds([], name) && Total([]) == 0
  {
  }

  lemma OneIsGreedy(b: seq<Weight>, limit: int)
    ensures Greedy([b], limit) && [] + [b] == [b]
  {
  }

  lemma BucketsIs(p: Filling)
    ensures BucketsOf(p) == if p.open == [] then p.closed else p.closed + [p.open]
  {
  }

  lemma StandsForNext(p: Filling, share: seq<Weight>, limit: int, noneTwice: bool, w: Weight)
    requires StandsFor(p, share, limit, noneTwice) && Bounded(p, limit)
    ensures StandsFor(AddTensor(p, w, limit), share + [w], limit,
                      noneTwice && (Closes(p, w, limit) || !Holds(p.open, w.name)))
  {
    hide Bounded, Greedy, Total, Holds, BucketsOf, Cat;
    TotalAppend(p.open, w);
    TotalAppend([], w);
    FirstOpen(p, limit);
    BucketsIs(p);
    BucketsIs(AddTensor(p, w, limit));
    NothingHeld(w.name);
    assert [] + [w] == [w];
    assert Cat(p.closed) + (p.open + [w]) == Cat(p.closed) + p.open + [w];
    if Closes(p, w, limit) {
      CatMore(p.closed, p.open);
      assert Put([], w) == [w];
      if noneTwice {
        GreedyMore(p.closed, p.open, [w], limit);
      }
    } else if noneTwice && !Holds(p.open, w.name) {
      if p.open == [] {
        OneIsGreedy([w], limit);
      } else {
        GreedyGrown(p.closed, p.open, w, limit);
      }
    }
  }

  lemma {:induction false} FilledStandsFor(share: seq<Weight>, limit: int)
    requires limit > 0
    ensures StandsFor(Filled(share, limit), share, limit, NoneTwice(share, limit))
  {
    if share != [] {
      var init, w := share[..|share| - 1], share[|share| - 1];
      FilledStandsFor(init, limit);
      FilledIsBounded(init, limit);
      hide StandsFor, Bounded, AddTensor, Closes, Holds;
      StandsForNext(Filled(init, limit), init, limit, NoneTwice(init, limit), w);
      assert init + [w] == share;
    }
  }

  lemma BucketsAreWithin(share: seq<Weight>, limit: int)
    requires limit > 0
    ensures forall k :: 0 <= k < |BucketsOf(Filled(share, limit))| ==> WithinLimit(BucketsOf(Filled(share, limit))[k], limit)
  {
    FilledIsBounded(share, limit);
  }

  lemma BucketsAreShare(share: seq<Weight>, limit: int)
    requires limit > 0
    ensures Cat(BucketsOf(Filled(share, limit))) == share <==> NoneTwice(share, limit)
    ensures NoneTwice(share, limit) ==> Greedy(BucketsOf(Filled(share, limit)), limit)
  {
    hide Greedy, Filled, NoneTwice, BucketsOf, Cat;
    FilledStandsFor(share, limit);
    var p := Filled(share, limit);
    BucketsIs(p);
    if p.open == [] {
      assert Cat(p.closed) + [] == Cat(p.closed);
    } else {
      CatMore(p.closed, p.open);
    }
  }

  lemma {:induction false} ShardNames(ws: seq<Weight>, world: nat, rank: nat, n: nat, name: string)
    requires world > 0 && n <= |ws| && Holds(Shard(ws, world, rank, n), name)
    ensures exists j :: 0 <= j < n && ws[j].name == name
  {
    if n > 0 {
      var s := Shard(ws, world, rank, n - 1);
      var j :| 0 <= j < |Shard(ws, world, rank, n)| && Shard(ws, world, rank, n)[j].name == name;
      if j < |s| {
        assert s[j].name == name;
        ShardNames(ws, world, rank, n - 1, name);
      }
    }
  }

  lemma NextIsNew(ws: seq<Weight>, world: nat, rank: nat, n: nat)
    requires world > 0 && n < |ws| && DistinctNames(ws)
    ensures !Holds(Shard(ws, world, rank, n), ws[n].name)
  {
    if Holds(Shard(ws, world, rank, n), ws[n].name) {
      ShardNames(ws, world, rank, n, ws[n].name);
    }
  }

  lemma HeldInWhole(a: seq<Weight>, b: seq<Weight>, name: string)
    ensures Holds(b, name) ==> Holds(a + b, name)
  {
    if j :| 0 <= j < |b| && b[j].name == name {
      assert (a + b)[|a| + j].name == name;
    }
  }

  /** With distinct names no bucket is given a name twice. */
  lemma {:induction false} DistinctNamesNotTwice(ws: seq<Weight>, world: nat, rank: nat, n: nat, limit: int)
    requires world > 0 && n <= |ws| && DistinctNames(ws) && limit > 0
    ensures NoneTwice(Shard(ws, world, rank, n), limit)
  {
    hide DistinctNames, Filled, Closes, Holds, Greedy, Cat, Total, BucketsOf, Mine;
    if n > 0 {
      DistinctNamesNotTwice(ws, world, rank, n - 1, limit);
      if Mine(n - 1, world, rank) {
        var init, w := Shard(ws, world, rank, n - 1), ws[n - 1];
        FilledStandsFor(init, limit);
        NextIsNew(ws, world, rank, n - 1);
        HeldInWhole(Cat(Filled(init, limit).closed), Filled(init, limit).open, w.name);
        assert (init + [w])[..|init|] == init;
      } else {
        assert Shard(ws, world, rank, n - 1) + [] == Shard(ws, world, rank, n - 1);
      }
    }
  }

  lemma NothingFilled(ws: seq<Weight>, world: nat, rank: nat, limit: int)
    requires world > 0
    ensures Filled(Shard(ws, world, rank, 0), limit) == Filling([], [], 0)
  {
  }

  lemma FilledNext(ws: seq<Weight>, world: nat, rank: nat, i: nat, limit: int)
    requires world > 0 && i < |ws|
    ensures var p := Filled(Shard(ws, world, rank, i), limit);
            Filled(Shard(ws, world, rank, i + 1), limit)
            == if !Mine(i, world, rank) then p
               else if p.size + |ws[i].bytes| > limit && p.open != []
               then Filling(p.closed + [p.open], Put([], ws[i]), |ws[i].bytes|)
               else Filling(p.closed, Put(p.open, ws[i]), p.size + |ws[i].bytes|)
  {
    hide Put, Mine;
    var share := Shard(ws, world, rank, i);
    if Mine(i, world, rank) {
      assert (share + [ws[i]])[..|share|] == share;
    } else {
      assert share + [] == share;
    }
  }

  /** The buckets are within the limit or hold one tensor. Together they are the rank's share, in order, if and only
    if no bucket is given a name twice, and then none could have taken one tensor more. */
  method NamedTensorBuckets(ws: seq<Weight>, bucketBytes: int, world: nat, rank: nat)
    returns (r: Result<seq<seq<Weight>>>)
    requires world > 0
    ensures r.Ok? || r.ValueError?
    ensures r.ValueError? <==> bucketBytes <= 0
    ensures r.Ok? ==> forall k :: 0 <= k < |r.value| ==> WithinLimit(r.value[k], bucketBytes)
    ensures r.Ok? ==> var share := Shard(ws, world, rank, |ws|);
                      && r.value == BucketsOf(Filled(share, bucketBytes))
                      && (Cat(r.value) == share <==> NoneTwice(share, bucketBytes))
                      && (NoneTwice(share, bucketBytes) ==> Greedy(r.value, bucketBytes))
  {
    if bucketBytes <= 0 {
      return ValueError;
    }
    hide *;
    var closed: seq<seq<Weight>>, bucket: seq<Weight>, size: nat := [], [], 0;
    NothingFilled(ws, world, rank, bucketBytes);
    for i := 0 to |ws|
      invariant Filling(closed, bucket, size) == Filled(Shard(ws, world, rank, i), bucketBytes)
    {
      FilledNext(ws, world, rank, i, bucketBytes);
      if Mine(i, world, rank) {
        var w := ws[i];
        if size + |w.bytes| > bucketBytes {
          if bucket != [] {
            closed := closed + [bucket];
            bucket, size := [], 0;
          }
        }
        bucket := Put(bucket, w);
        size := size + |w.bytes|;
      }
    }
    var share := Shard(ws, world, rank, |ws|);
    BucketsIs(Filling(closed, bucket, size));
    BucketsAreWithin(share, bucketBytes);
    BucketsAreShare(share, bucketBytes);
    if bucket != [] {
      closed := closed + [bucket];
    }
    r := Ok(closed);
  }
}
