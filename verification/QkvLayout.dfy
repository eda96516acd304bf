/** Fused attention and MLP weights: how the rows of q, k and v (or gate and up) are laid out in one
  tensor, and how merging a Megatron checkpoint takes them apart. A tensor is the sequence of its
  rows; `torch.chunk` and `torch.split` act on rows only. */
module QkvLayout {
  import opened Arithmetic
  import opened Prelude
  import opened Tensors

  datatype Qkv<T> = Qkv(q: seq<T>, k: seq<T>, v: seq<T>)

  // ---------------------------------------------------------------- splitting grouped q, k, v

  /** Rows `lo..hi` of every block. */
  function Cut<T>(bs: seq<seq<T>>, lo: nat, hi: nat): seq<seq<T>>
    requires lo <= hi && forall i :: 0 <= i < |bs| ==> hi <= |bs[i]|
  {
    seq(|bs|, i requires 0 <= i < |bs| => bs[i][lo..hi])
  }

  /** The lists `q_lst`, `k_lst` and `v_lst`. */
  datatype Lists<T> = Lists(qs: seq<seq<T>>, ks: seq<seq<T>>, vs: seq<seq<T>>)

  function CutAll<T>(bs: seq<seq<T>>, a: nat, b: nat): Lists<T>
    requires Uniform(bs, a + b + b)
  {
    Lists(Cut(bs, 0, a), Cut(bs, a, a + b), Cut(bs, a + b, a + b + b))
  }

  function CatAll<T>(x: Lists<T>): Qkv<T> {
    Qkv(Cat(x.qs), Cat(x.ks), Cat(x.vs))
  }

  /** Each block holds `qs` rows of q, then `ks` of k, then `ks` of v. */
  function Deinterleave<T>(bs: seq<seq<T>>, qs: nat, ks: nat): Qkv<T>
    requires Uniform(bs, qs + ks + ks)
  {
    CatAll(CutAll(bs, qs, ks))
  }

  /** Query heads, key heads and rows fit the layout of whole groups. */
  predicate Splittable(rows: nat, heads: nat, groups: nat) {
    && groups > 0
    && heads % groups == 0
    && rows % (heads / groups + 2) == 0
    && rows / (heads / groups + 2) % groups == 0
  }

  /** `kv_size`: the key rows of all groups together. */
  function KvRows(rows: nat, heads: nat, groups: nat): nat
    requires groups > 0
  {
    rows / (heads / groups + 2)
  }

  function Product(a: nat, b: nat): nat { a * b }

  /** The first entry of `split_size`: query rows in each chunk. */
  function QueryRows(rows: nat, heads: nat, groups: nat): nat
    requires groups > 0
  {
    Product(KvRows(rows, heads, groups), heads / groups) / groups
  }

  /** The other two entries of `split_size`: key rows, and value rows, in each chunk. */
  function HeadRows(rows: nat, heads: nat, groups: nat): nat
    requires groups > 0
  {
    KvRows(rows, heads, groups) / groups
  }

  function GroupRows(rows: nat, heads: nat, groups: nat): nat
    requires groups > 0
  {
    QueryRows(rows, heads, groups) + HeadRows(rows, heads, groups) + HeadRows(rows, heads, groups)
  }

  lemma Regroup(g: int, h: int, per: int)
    ensures g * h * (per + 2) == g * (h * per + h + h)
    ensures g * h * per == g * (h * per)
  {
  }

  lemma RowsOfGroups(rows: nat, heads: nat, groups: nat)
    requires Splittable(rows, heads, groups)
    ensures groups > 0 && rows == groups * GroupRows(rows, heads, groups)
    ensures QueryRows(rows, heads, groups) == HeadRows(rows, heads, groups) * (heads / groups)
  {
    var per, kv, h := heads / groups, KvRows(rows, heads, groups), HeadRows(rows, heads, groups);
    assert rows == kv * (per + 2) && kv == groups * h;
    Regroup(groups, h, per);
    Quotient(kv * per, groups, h * per);
  }

  lemma SplittableRows(rows: nat, heads: nat, groups: nat, h: nat)
    requires groups > 0 && heads % groups == 0 && rows % (heads / groups + 2) == 0
    requires KvRows(rows, heads, groups) == groups * h
    ensures Splittable(rows, heads, groups) && HeadRows(rows, heads, groups) == h
    ensures QueryRows(rows, heads, groups) == h * (heads / groups)
  {
    var per := heads / groups;
    Regroup(groups, h, per);
    Quotient(groups * h, groups, h);
    Quotient(groups * h * per, groups, h * per);
  }

  /** The layout that the rows of `groups` groups have. */
  lemma GroupsOf(rows: nat, groups: nat, per: nat, h: nat)
    requires groups > 0 && rows == groups * (h * per + h + h)
    ensures per * groups / groups == per && Splittable(rows, per * groups, groups)
    ensures HeadRows(rows, per * groups, groups) == h
    ensures QueryRows(rows, per * groups, groups) == h * per
  {
    hide QueryRows, HeadRows;
    Quotient(per * groups, groups, per);
    Regroup(groups, h, per);
    Quotient(rows, per + 2, groups * h);
    Quotient(groups * h, groups, h);
    SplittableRows(rows, per * groups, groups, h);
  }

  function Split<T>(t: seq<T>, heads: nat, groups: nat): Qkv<T>
    requires Splittable(|t|, heads, groups)
  {
    RowsOfGroups(|t|, heads, groups);
    Deinterleave(Blocks(t, GroupRows(|t|, heads, groups), groups),
                 QueryRows(|t|, heads, groups), HeadRows(|t|, heads, groups))
  }

  /** The loop `q, k, v = chunk.split([a, b, b])` over a list of chunks. */
  method SplitChunks<T>(chunks: seq<seq<T>>, a: nat, b: nat) returns (r: Result<Lists<T>>)
    ensures r.Ok? <==> Uniform(chunks, a + b + b)
    ensures r.Ok? ==> r.value == CutAll(chunks, a, b)
  {
    var qs, ks, vs := [], [], [];
    for i := 0 to |chunks|
      invariant Uniform(chunks[..i], a + b + b)
      invariant qs == Cut(chunks[..i], 0, a)
      invariant ks == Cut(chunks[..i], a, a + b)
      invariant vs == Cut(chunks[..i], a + b, a + b + b)
    {
      var chunk := chunks[i];
      if a + b + b != |chunk| {
        return Failed;
      }
      assert chunks[..i + 1] == chunks[..i] + [chunk];
      qs := qs + [chunk[0..a]];
      ks := ks + [chunk[a..a + b]];
      vs := vs + [chunk[a + b..a + b + b]];
    }
    assert chunks[..|chunks|] == chunks;
    r := Ok(Lists(qs, ks, vs));
  }

  lemma Below(g: int, q: int, h: int, rows: int)
    requires g * q + g * h + g * h < rows
    ensures g * (q + h + h) < rows
  {
  }

  lemma UnevenIsLess(rows: nat, heads: nat, groups: nat)
    requires groups > 0 && rows % (heads / groups + 2) == 0
    requires KvRows(rows, heads, groups) % groups != 0
    ensures rows > 0 && GroupRows(rows, heads, groups) < CeilDiv(rows, groups)
  {
    var per, kv := heads / groups, KvRows(rows, heads, groups);
    var q, h := QueryRows(rows, heads, groups), HeadRows(rows, heads, groups);
    assert rows == kv * (per + 2) == kv * per + kv + kv;
    assert kv * per == groups * q + kv * per % groups;
    assert kv == groups * h + kv % groups;
    CeilDivRange(rows, groups);
    Below(groups, q, h, rows);
    CancelLess(q + h + h, CeilDiv(rows, groups), groups);
  }

  /** Chunks all have the size the split asks for exactly when the groups come out even. */
  lemma EvenChunks<T>(t: seq<T>, heads: nat, groups: nat)
    requires groups > 0 && heads % groups == 0 && |t| % (heads / groups + 2) == 0
    ensures Uniform(Chunk(t, groups), GroupRows(|t|, heads, groups)) <==> Splittable(|t|, heads, groups)
    ensures Splittable(|t|, heads, groups) ==>
              |t| == groups * GroupRows(|t|, heads, groups)
              && Chunk(t, groups) == Blocks(t, GroupRows(|t|, heads, groups), groups)
  {
    if Splittable(|t|, heads, groups) {
      RowsOfGroups(|t|, heads, groups);
      ChunkEven(t, GroupRows(|t|, heads, groups), groups);
    } else {
      UnevenIsLess(|t|, heads, groups);
      assert |Chunk(t, groups)[0]| == CeilDiv(|t|, groups);
    }
  }

  /** Splitting succeeds on whole groups and on nothing else. */
  method SplitQkv<T>(t: seq<T>, heads: nat, groups: nat) returns (r: Result<Qkv<T>>)
    ensures r.Ok? <==> Splittable(|t|, heads, groups)
    ensures r.Ok? ==> r.value == Split(t, heads, groups)
  {
    if groups == 0 || heads % groups != 0 {
      return Failed;
    }
    var per := heads / groups;
    if |t| % (per + 2) != 0 {
      return Failed;
    }
    var kv := |t| / (per + 2);
    EvenChunks(t, heads, groups);
    assert kv * per / groups == QueryRows(|t|, heads, groups);
    var lists := SplitChunks(Chunk(t, groups), kv * per / groups, kv / groups);
    if !lists.Ok? {
      return Failed;
    }
    r := Ok(CatAll(lists.value));
  }

  // ---------------------------------------------------------------- interleaving

  /** `torch.cat([q, k, v], dim=1)` of the tensors viewed as `groups` blocks, flattened back to rows. */
  function Interleaved<T>(q: seq<seq<T>>, k: seq<seq<T>>, v: seq<seq<T>>): seq<seq<T>>
    requires |q| == |k| == |v|
  {
    seq(|q|, i requires 0 <= i < |q| => q[i] + k[i] + v[i])
  }

  function Interleave<T>(x: Qkv<T>, per: nat, h: nat, groups: nat): seq<T>
    requires |x.q| == groups * (h * per) && |x.k| == |x.v| == groups * h
  {
    Cat(Interleaved(Blocks(x.q, h * per, groups), Blocks(x.k, h, groups), Blocks(x.v, h, groups)))
  }

  lemma CutIs<T>(bs: seq<seq<T>>, lo: nat, hi: nat, r: seq<seq<T>>)
    requires lo <= hi && |bs| == |r| && forall i :: 0 <= i < |bs| ==> hi <= |bs[i]| && bs[i][lo..hi] == r[i]
    ensures Cut(bs, lo, hi) == r
  {
  }

  lemma CutBlock<T>(q: seq<T>, k: seq<T>, v: seq<T>)
    ensures var b, m := q + k + v, |q| + |k|;
            b[0..|q|] == q && b[|q|..m] == k && b[m..m + |v|] == v
  {
  }

  lemma CutsOfInterleaved<T>(q: seq<seq<T>>, k: seq<seq<T>>, v: seq<seq<T>>, qs: nat, ks: nat)
    requires |q| == |k| == |v| && Uniform(q, qs) && Uniform(k, ks) && Uniform(v, ks)
    ensures var bs := Interleaved(q, k, v);
            && Uniform(bs, qs + ks + ks) && Cut(bs, 0, qs) == q
            && Cut(bs, qs, qs + ks) == k && Cut(bs, qs + ks, qs + ks + ks) == v
  {
    var bs := Interleaved(q, k, v);
    forall i | 0 <= i < |q|
      ensures |bs[i]| == qs + ks + ks
      ensures bs[i][0..qs] == q[i] && bs[i][qs..qs + ks] == k[i] && bs[i][qs + ks..qs + ks + ks] == v[i]
    {
      CutBlock(q[i], k[i], v[i]);
    }
    CutIs(bs, 0, qs, q);
    CutIs(bs, qs, qs + ks, k);
    CutIs(bs, qs + ks, qs + ks + ks, v);
  }

  lemma CutInterleaved<T>(q: seq<seq<T>>, k: seq<seq<T>>, v: seq<seq<T>>, qs: nat, ks: nat)
    requires |q| == |k| == |v| && Uniform(q, qs) && Uniform(k, ks) && Uniform(v, ks)
    ensures Uniform(Interleaved(q, k, v), qs + ks + ks)
    ensures Deinterleave(Interleaved(q, k, v), qs, ks) == Qkv(Cat(q), Cat(k), Cat(v))
  {
    CutsOfInterleaved(q, k, v, qs, ks);
    hide Cut, Cat, Interleaved, Uniform;
  }

  /** Splitting what the converter interleaved gives back q, k and v, for all head counts and sizes. */
  lemma SplitUndoesInterleave<T>(x: Qkv<T>, per: nat, h: nat, groups: nat)
    requires groups > 0 && |x.q| == groups * (h * per) && |x.k| == |x.v| == groups * h
    ensures var t := Interleave(x, per, h, groups);
            Splittable(|t|, per * groups, groups) && Split(t, per * groups, groups) == x
  {
    hide Splittable, QueryRows, HeadRows;
    var qs := h * per;
    var q, k, v := Blocks(x.q, qs, groups), Blocks(x.k, h, groups), Blocks(x.v, h, groups);
    CatOfBlocks(x.q, qs, groups);
    CatOfBlocks(x.k, h, groups);
    CatOfBlocks(x.v, h, groups);
    BlocksOfCat(Interleaved(q, k, v), qs + h + h);
    GroupsOf(|Interleave(x, per, h, groups)|, groups, per, h);
    CutInterleaved(q, k, v, qs, h);
  }

  lemma InterleavedCuts<T>(bs: seq<seq<T>>, qs: nat, ks: nat)
    requires Uniform(bs, qs + ks + ks)
    ensures var q, k, v := Cut(bs, 0, qs), Cut(bs, qs, qs + ks), Cut(bs, qs + ks, qs + ks + ks);
            Uniform(q, qs) && Uniform(k, ks) && Uniform(v, ks) && Interleaved(q, k, v) == bs
  {
    var q, k, v := Cut(bs, 0, qs), Cut(bs, qs, qs + ks), Cut(bs, qs + ks, qs + ks + ks);
    forall i | 0 <= i < |bs| ensures Interleaved(q, k, v)[i] == bs[i] {
      assert q[i] + k[i] + v[i] == bs[i];
    }
  }

  /** Interleaving what was split gives back the tensor, so neither direction loses a row. */
  lemma InterleaveUndoesSplit<T>(t: seq<T>, heads: nat, groups: nat)
    requires Splittable(|t|, heads, groups)
    ensures var h, per, x := HeadRows(|t|, heads, groups), heads / groups, Split(t, heads, groups);
            |x.q| == groups * (h * per) && |x.k| == |x.v| == groups * h
            && Interleave(x, per, h, groups) == t
  {
    hide Splittable, QueryRows, HeadRows;
    RowsOfGroups(|t|, heads, groups);
    var qs, h := QueryRows(|t|, heads, groups), HeadRows(|t|, heads, groups);
    var bs := Blocks(t, qs + h + h, groups);
    InterleavedCuts(bs, qs, h);
    BlocksOfCat(Cut(bs, 0, qs), qs);
    BlocksOfCat(Cut(bs, qs, qs + h), h);
    BlocksOfCat(Cut(bs, qs + h, qs + h + h), h);
    CatOfBlocks(t, qs + h + h, groups);
  }

  // ---------------------------------------------------------------- merging over tensor-parallel ranks

  function AllChunks<T>(parts: seq<seq<T>>, n: nat): seq<seq<T>>
    requires n > 0
  {
    if parts == [] then [] else AllChunks(parts[..|parts| - 1], n) + Chunk(parts[|parts| - 1], n)
  }

  function Div(a: nat, b: nat): nat
    requires b > 0
  {
    a / b
  }

  /** Query heads that belong to one rank's groups. */
  function RankHeads(heads: nat, groups: nat, ranks: nat): nat
    requires groups > 0 && ranks > 0
  {
    Product(Div(heads, groups), Div(groups, ranks))
  }

  /** One rank holds the groups of the model divided by the ranks. */
  predicate RankSplittable(rows: nat, heads: nat, groups: nat, ranks: nat) {
    groups > 0 && heads % groups == 0 && ranks > 0
    && Splittable(rows, RankHeads(heads, groups, ranks), groups / ranks)
  }

  /** Groups on all ranks together: all of the model's when the ranks divide them. */
  function Kept(groups: nat, ranks: nat): nat
    requires ranks > 0
  {
    Product(ranks, Div(groups, ranks))
  }

  function KeptHeads(heads: nat, groups: nat, ranks: nat): nat
    requires groups > 0 && ranks > 0
  {
    Product(Div(heads, groups), Kept(groups, ranks))
  }

  /** Every rank holds the same number of whole groups. */
  predicate EqualShards<T>(parts: seq<seq<T>>, heads: nat, groups: nat) {
    parts != [] && Uniform(parts, |parts[0]|) && RankSplittable(|parts[0]|, heads, groups, |parts|)
  }

  /** And the ranks divide the groups of the model. */
  predicate WholeGroups<T>(parts: seq<seq<T>>, heads: nat, groups: nat) {
    EqualShards(parts, heads, groups) && groups % |parts| == 0
  }

  /** What the guards in front of the loops let through. */
  predicate Guarded<T>(parts: seq<seq<T>>, heads: nat, groups: nat) {
    && groups > 0 && heads % groups == 0 && parts != []
    && |parts[0]| % (heads / groups + 2) == 0 && groups / |parts| > 0
  }

  /** All chunks of all ranks have the size that the split asks for, which the first rank's shard decides. */
  predicate Mergeable<T>(parts: seq<seq<T>>, heads: nat, groups: nat) {
    Guarded(parts, heads, groups)
    && Uniform(AllChunks(parts, groups / |parts|),
               GroupRows(|parts[0]|, RankHeads(heads, groups, |parts|), groups / |parts|))
  }

  function Merged<T>(parts: seq<seq<T>>, heads: nat, groups: nat): Qkv<T>
    requires Mergeable(parts, heads, groups)
  {
    var n, own := groups / |parts|, RankHeads(heads, groups, |parts|);
    CatAll(CutAll(AllChunks(parts, n), QueryRows(|parts[0]|, own, n), HeadRows(|parts[0]|, own, n)))
  }

  lemma CutAppend<T>(a: seq<seq<T>>, b: seq<seq<T>>, lo: nat, hi: nat)
    requires lo <= hi && (forall i :: 0 <= i < |a| ==> hi <= |a[i]|) && forall i :: 0 <= i < |b| ==> hi <= |b[i]|
    ensures Cut(a + b, lo, hi) == Cut(a, lo, hi) + Cut(b, lo, hi)
  {
  }

  lemma CutAllAppend<T>(x: seq<seq<T>>, y: seq<seq<T>>, a: nat, b: nat)
    requires Uniform(x, a + b + b) && Uniform(y, a + b + b)
    ensures Uniform(x + y, a + b + b)
    ensures var xs, ys := CutAll(x, a, b), CutAll(y, a, b);
            CutAll(x + y, a, b) == Lists(xs.qs + ys.qs, xs.ks + ys.ks, xs.vs + ys.vs)
  {
    CutAppend(x, y, 0, a);
    CutAppend(x, y, a, a + b);
    CutAppend(x, y, a + b, a + b + b);
    hide Cut;
  }

  lemma AllChunksSnoc<T>(parts: seq<seq<T>>, i: nat, n: nat)
    requires i < |parts| && n > 0
    ensures AllChunks(parts[..i + 1], n) == AllChunks(parts[..i], n) + Chunk(parts[i], n)
  {
    assert parts[..i + 1][..i] == parts[..i];
  }

  lemma {:induction false} AllChunksPrefix<T>(parts: seq<seq<T>>, i: nat, n: nat)
    requires i <= |parts| && n > 0
    ensures AllChunks(parts[..i], n) <= AllChunks(parts, n)
    decreases |parts| - i
  {
    if i == |parts| {
      assert parts[..i] == parts;
    } else {
      AllChunksSnoc(parts, i, n);
      AllChunksPrefix(parts, i + 1, n);
    }
  }

  lemma UnevenRank<T>(parts: seq<seq<T>>, i: nat, n: nat, size: nat)
    requires i < |parts| && n > 0 && !Uniform(Chunk(parts[i], n), size)
    ensures !Uniform(AllChunks(parts, n), size)
  {
    hide AllChunks, Chunk;
    AllChunksSnoc(parts, i, n);
    AllChunksPrefix(parts, i + 1, n);
    var k :| 0 <= k < |Chunk(parts[i], n)| && |Chunk(parts[i], n)[k]| != size;
    var at := |AllChunks(parts[..i], n)| + k;
    assert AllChunks(parts, n)[at] == AllChunks(parts[..i + 1], n)[at] == Chunk(parts[i], n)[k];
  }

  /** The two nested loops over ranks and the chunks of each rank. */
  method CollectChunks<T>(parts: seq<seq<T>>, n: nat, a: nat, b: nat) returns (r: Result<Lists<T>>)
    requires n > 0
    ensures r.Ok? <==> Uniform(AllChunks(parts, n), a + b + b)
    ensures r.Ok? ==> r.value == CutAll(AllChunks(parts, n), a, b)
  {
    var all := Lists([], [], []);
    for i := 0 to |parts|
      invariant Uniform(AllChunks(parts[..i], n), a + b + b)
      invariant all == CutAll(AllChunks(parts[..i], n), a, b)
    {
      hide Uniform, CutAll, Chunk, AllChunks;
      var lists := SplitChunks(Chunk(parts[i], n), a, b);
      if !lists.Ok? {
        UnevenRank(parts, i, n, a + b + b);
        return Failed;
      }
      AllChunksSnoc(parts, i, n);
      CutAllAppend(AllChunks(parts[..i], n), Chunk(parts[i], n), a, b);
      all := Lists(all.qs + lists.value.qs, all.ks + lists.value.ks, all.vs + lists.value.vs);
    }
    assert parts[..|parts|] == parts;
    r := Ok(all);
  }

  lemma GuardedIs<T>(parts: seq<seq<T>>, heads: nat, groups: nat)
    ensures Guarded(parts, heads, groups) <==>
              groups > 0 && heads % groups == 0 && parts != []
              && |parts[0]| % (heads / groups + 2) == 0 && groups / |parts| > 0
    ensures Mergeable(parts, heads, groups) ==> Guarded(parts, heads, groups)
  {
    hide RankHeads, AllChunks;
  }

  lemma MergedIs<T>(parts: seq<seq<T>>, heads: nat, groups: nat)
    requires Guarded(parts, heads, groups)
    ensures groups > 0 && parts != [] && groups / |parts| > 0
    ensures var n, own := groups / |parts|, RankHeads(heads, groups, |parts|);
            var a, b := QueryRows(|parts[0]|, own, n), HeadRows(|parts[0]|, own, n);
            && (Mergeable(parts, heads, groups) <==> Uniform(AllChunks(parts, n), a + b + b))
            && (Mergeable(parts, heads, groups) ==> Merged(parts, heads, groups) == CatAll(CutAll(AllChunks(parts, n), a, b)))
  {
    hide RankHeads, AllChunks, QueryRows, HeadRows, CatAll, CutAll;
  }

  /** A rank's chunk sizes, in terms of the model's heads per group. */
  lemma RankRows(rows: nat, heads: nat, groups: nat, ranks: nat)
    requires groups > 0 && ranks > 0 && groups / ranks > 0
    ensures var n, per, own := groups / ranks, heads / groups, RankHeads(heads, groups, ranks);
            own / n == per && own % n == 0
            && KvRows(rows, own, n) == rows / (per + 2)
            && QueryRows(rows, own, n) == rows / (per + 2) * per / n
            && HeadRows(rows, own, n) == rows / (per + 2) / n
  {
    Quotient(RankHeads(heads, groups, ranks), groups / ranks, heads / groups);
  }

  lemma ShardsAre<T>(parts: seq<seq<T>>, heads: nat, groups: nat)
    ensures EqualShards(parts, heads, groups) <==>
              parts != [] && Uniform(parts, |parts[0]|) && RankSplittable(|parts[0]|, heads, groups, |parts|)
    ensures EqualShards(parts, heads, groups) ==> Guarded(parts, heads, groups)
    ensures WholeGroups(parts, heads, groups) ==> EqualShards(parts, heads, groups)
  {
    if EqualShards(parts, heads, groups) {
      RankRows(|parts[0]|, heads, groups, |parts|);
    }
  }

  lemma RowsIs(rows: nat, heads: nat, groups: nat)
    requires groups > 0
    ensures GroupRows(rows, heads, groups)
            == QueryRows(rows, heads, groups) + HeadRows(rows, heads, groups) + HeadRows(rows, heads, groups)
  {
  }

  lemma {:induction false} BlocksAppend<T>(a: seq<T>, b: seq<T>, size: nat, n: nat, m: nat)
    requires |a| == n * size && |b| == m * size
    ensures |a + b| == (n + m) * size && Blocks(a + b, size, n + m) == Blocks(a, size, n) + Blocks(b, size, m)
  {
    assert (n + m) * size == n * size + m * size;
    if n == 0 {
      assert a + b == b;
    } else {
      assert |a| == (n - 1) * size + size && (n - 1) * size >= 0;
      BlocksAppend(a[size..], b, size, n - 1, m);
      assert (a + b)[..size] == a[..size] && (a + b)[size..] == a[size..] + b;
    }
  }

  lemma {:induction false} AllChunksAre<T>(parts: seq<seq<T>>, size: nat, n: nat, total: nat)
    requires n > 0 && total == |parts| * n && Uniform(parts, n * size)
    ensures |Cat(parts)| == total * size
    ensures AllChunks(parts, n) == Blocks(Cat(parts), size, total)
  {
    if parts == [] {
      assert total == 0;
    } else {
      var k := |parts| - 1;
      var init, last := parts[..k], parts[k];
      assert total - n == k * n;
      AllChunksAre(init, size, n, total - n);
      ChunkEven(last, size, n);
      assert parts == init + [last];
      CatAppend(init, [last]);
      assert Cat([last]) == last + Cat([]);
      assert Cat(parts) == Cat(init) + last;
      BlocksAppend(Cat(init), last, size, total - n, n);
      assert AllChunks(parts, n) == AllChunks(init, n) + Chunk(last, n);
    }
  }

  lemma ShardsFit<T>(parts: seq<seq<T>>, heads: nat, groups: nat, n: nat)
    requires parts != [] && groups > 0 && heads % groups == 0 && n == groups / |parts| > 0
    requires |parts[0]| % (heads / groups + 2) == 0 && Uniform(parts, |parts[0]|)
    ensures Uniform(AllChunks(parts, n), GroupRows(|parts[0]|, RankHeads(heads, groups, |parts|), n))
            <==> RankSplittable(|parts[0]|, heads, groups, |parts|)
  {
    hide GroupRows, KvRows, QueryRows, HeadRows, RankHeads, Splittable, Chunk, AllChunks;
    var own := RankHeads(heads, groups, |parts|);
    RankRows(|parts[0]|, heads, groups, |parts|);
    EvenChunks(parts[0], own, n);
    if Splittable(|parts[0]|, own, n) {
      AllChunksAre(parts, GroupRows(|parts[0]|, own, n), n, |parts| * n);
    } else {
      UnevenRank(parts, 0, n, GroupRows(|parts[0]|, own, n));
    }
  }

  lemma SplitIs<T>(t: seq<T>, heads: nat, groups: nat, bs: seq<seq<T>>)
    requires groups > 0 && Splittable(|t|, heads, groups)
    requires var q, h := QueryRows(|t|, heads, groups), HeadRows(|t|, heads, groups);
             |t| == groups * (q + h + h) && bs == Blocks(t, q + h + h, groups)
    ensures Split(t, heads, groups)
            == CatAll(CutAll(bs, QueryRows(|t|, heads, groups), HeadRows(|t|, heads, groups)))
  {
    hide QueryRows, HeadRows, Splittable, CutAll, CatAll;
  }

  lemma SharesOf<T>(parts: seq<seq<T>>, heads: nat, groups: nat)
    requires EqualShards(parts, heads, groups)
    ensures groups > 0 && heads % groups == 0 && parts != [] && groups / |parts| > 0 && Uniform(parts, |parts[0]|)
    ensures Kept(groups, |parts|) == |parts| * (groups / |parts|) > 0
    ensures KeptHeads(heads, groups, |parts|) == heads / groups * Kept(groups, |parts|)
    ensures Splittable(|parts[0]|, RankHeads(heads, groups, |parts|), groups / |parts|)
  {
    hide Uniform, RankHeads;
    MulLe(1, groups / |parts|, |parts|);
  }

  /** The chunks of all ranks are those of the concatenated tensor. */
  lemma AllChunksFit<T>(parts: seq<seq<T>>, heads: nat, groups: nat)
    requires EqualShards(parts, heads, groups)
    ensures groups > 0 && parts != [] && groups / |parts| > 0 && Kept(groups, |parts|) > 0
    ensures Splittable(|Cat(parts)|, KeptHeads(heads, groups, |parts|), Kept(groups, |parts|))
    ensures var n, own := groups / |parts|, RankHeads(heads, groups, |parts|);
            var kept, keptHeads := Kept(groups, |parts|), KeptHeads(heads, groups, |parts|);
            var q, h := QueryRows(|Cat(parts)|, keptHeads, kept), HeadRows(|Cat(parts)|, keptHeads, kept);
            q == QueryRows(|parts[0]|, own, n) && h == HeadRows(|parts[0]|, own, n)
            && |Cat(parts)| == kept * (q + h + h)
            && AllChunks(parts, n) == Blocks(Cat(parts), q + h + h, kept)
  {
    hide *;
    SharesOf(parts, heads, groups);
    var n, own, rows := groups / |parts|, RankHeads(heads, groups, |parts|), |parts[0]|;
    RankRows(rows, heads, groups, |parts|);
    RowsOfGroups(rows, own, n);
    RowsIs(rows, own, n);
    AllChunksAre(parts, GroupRows(rows, own, n), n, Kept(groups, |parts|));
    GroupsOf(|Cat(parts)|, Kept(groups, |parts|), heads / groups, HeadRows(rows, own, n));
  }

  /** Merging equal shards is splitting their concatenation, for as many groups as the ranks hold. */
  lemma EqualShardsMerge<T>(parts: seq<seq<T>>, heads: nat, groups: nat)
    requires EqualShards(parts, heads, groups)
    ensures Mergeable(parts, heads, groups)
    ensures var kept, keptHeads := Kept(groups, |parts|), KeptHeads(heads, groups, |parts|);
            Splittable(|Cat(parts)|, keptHeads, kept)
            && Merged(parts, heads, groups) == Split(Cat(parts), keptHeads, kept)
  {
    hide *;
    ShardsAre(parts, heads, groups);
    GuardedIs(parts, heads, groups);
    MergedIs(parts, heads, groups);
    ShardsFit(parts, heads, groups, groups / |parts|);
    RowsIs(|parts[0]|, RankHeads(heads, groups, |parts|), groups / |parts|);
    AllChunksFit(parts, heads, groups);
    SplitIs(Cat(parts), KeptHeads(heads, groups, |parts|), Kept(groups, |parts|), AllChunks(parts, groups / |parts|));
  }

  lemma RanksDivide<T>(parts: seq<seq<T>>, heads: nat, groups: nat)
    requires WholeGroups(parts, heads, groups)
    ensures groups > 0 && parts != [] && Kept(groups, |parts|) == groups && KeptHeads(heads, groups, |parts|) == heads
  {
  }

  /** Equal shards are merged exactly when one of them is whole groups. */
  lemma MergeableShards<T>(parts: seq<seq<T>>, heads: nat, groups: nat)
    ensures parts != [] && Uniform(parts, |parts[0]|) ==>
              (Mergeable(parts, heads, groups) <==> RankSplittable(|parts[0]|, heads, groups, |parts|))
    ensures WholeGroups(parts, heads, groups) ==>
              Splittable(|Cat(parts)|, heads, groups) && Mergeable(parts, heads, groups)
              && Merged(parts, heads, groups) == Split(Cat(parts), heads, groups)
  {
    hide *;
    ShardsAre(parts, heads, groups);
    GuardedIs(parts, heads, groups);
    if EqualShards(parts, heads, groups) {
      EqualShardsMerge(parts, heads, groups);
    }
    if Guarded(parts, heads, groups) && Uniform(parts, |parts[0]|) {
      MergedIs(parts, heads, groups);
      RowsIs(|parts[0]|, RankHeads(heads, groups, |parts|), groups / |parts|);
      ShardsFit(parts, heads, groups, groups / |parts|);
    }
    if WholeGroups(parts, heads, groups) {
      RanksDivide(parts, heads, groups);
    }
  }

  /** The q, k and v of every rank, group after group, for shards of any size. */
  method MergeAcrossTp<T>(parts: seq<seq<T>>, heads: nat, groups: nat) returns (r: Result<Qkv<T>>)
    ensures r.Ok? <==> Mergeable(parts, heads, groups)
    ensures r.Ok? ==> r.value == Merged(parts, heads, groups)
    ensures parts != [] && Uniform(parts, |parts[0]|) ==>
              (r.Ok? <==> RankSplittable(|parts[0]|, heads, groups, |parts|))
    ensures WholeGroups(parts, heads, groups) ==>
              Splittable(|Cat(parts)|, heads, groups) && r == Ok(Split(Cat(parts), heads, groups))
  {
    hide *;
    GuardedIs(parts, heads, groups);
    if Guarded(parts, heads, groups) {
      MergedIs(parts, heads, groups);
    }
    MergeableShards(parts, heads, groups);
    if groups == 0 || heads % groups != 0 || parts == [] {
      return Failed;
    }
    var per := heads / groups;
    if |parts[0]| % (per + 2) != 0 {
      return Failed;
    }
    var kv := |parts[0]| / (per + 2);
    var n := groups / |parts|;
    if n == 0 {
      return Failed;
    }
    var a, b := kv * per / n, kv / n;
    RankRows(|parts[0]|, heads, groups, |parts|);
    var lists := CollectChunks(parts, n, a, b);
    if !lists.Ok? {
      return Failed;
    }
    r := Ok(CatAll(lists.value));
  }

  lemma InterleavedLength<T>(x: Qkv<T>, per: nat, h: nat, groups: nat)
    requires groups > 0 && |x.q| == groups * (h * per) && |x.k| == |x.v| == groups * h
    ensures |Interleave(x, per, h, groups)| == groups * (h * per + h + h)
  {
    var q, k, v := Blocks(x.q, h * per, groups), Blocks(x.k, h, groups), Blocks(x.v, h, groups);
    CatLength(Interleaved(q, k, v), h * per + h + h);
  }

  /** The rows and groups of one rank. */
  lemma RowsOfRank(ranks: nat, rows: nat, groups: nat, size: nat)
    requires ranks > 0 && groups > 0 && groups % ranks == 0 && ranks * rows == groups * size
    ensures groups / ranks > 0 && rows == groups / ranks * size
  {
    var n := groups / ranks;
    assert groups == ranks * n;
    assert ranks * rows == ranks * (n * size);
    if rows < n * size {
      CancelLess(n * size, rows, ranks);
    } else if n * size < rows {
      CancelLess(rows, n * size, ranks);
    }
  }

  lemma RankHeadsAre(per: nat, groups: nat, ranks: nat)
    requires groups > 0 && ranks > 0
    ensures per * groups % groups == 0 && RankHeads(per * groups, groups, ranks) == per * (groups / ranks)
  {
    Quotient(per * groups, groups, per);
  }

  /** Ranks that divide the groups of an interleaved tensor evenly hold whole groups each. */
  lemma EvenShards<T>(x: Qkv<T>, per: nat, h: nat, groups: nat, parts: seq<seq<T>>)
    requires groups > 0 && |x.q| == groups * (h * per) && |x.k| == |x.v| == groups * h
    requires Cat(parts) == Interleave(x, per, h, groups)
    requires parts != [] && Uniform(parts, |parts[0]|) && groups % |parts| == 0
    ensures WholeGroups(parts, per * groups, groups)
  {
    hide Interleave, Cat, RankHeads, Splittable;
    InterleavedLength(x, per, h, groups);
    CatLength(parts, |parts[0]|);
    RowsOfRank(|parts|, |parts[0]|, groups, h * per + h + h);
    GroupsOf(|parts[0]|, groups / |parts|, per, h);
    RankHeadsAre(per, groups, |parts|);
  }

  /** Merging the shards of an interleaved tensor, one of equal size for each rank, gives back q, k and v when the
    ranks divide the groups. */
  lemma ShardedRoundTrip<T>(x: Qkv<T>, per: nat, h: nat, groups: nat, parts: seq<seq<T>>)
    requires groups > 0 && |x.q| == groups * (h * per) && |x.k| == |x.v| == groups * h
    requires Cat(parts) == Interleave(x, per, h, groups)
    requires parts != [] && Uniform(parts, |parts[0]|) && groups % |parts| == 0
    ensures Mergeable(parts, per * groups, groups) && Merged(parts, per * groups, groups) == x
  {
    hide *;
    EvenShards(x, per, h, groups, parts);
    SplitUndoesInterleave(x, per, h, groups);
    MergeableShards(parts, per * groups, groups);
  }

  // ---------------------------------------------------------------- gate and up

  /** First and second pieces of `torch.chunk(2)` on every shard. */
  function Gates<T>(parts: seq<seq<T>>): seq<seq<T>> {
    seq(|parts|, i requires 0 <= i < |parts| => parts[i][..CeilDiv(|parts[i]|, 2)])
  }

  function Ups<T>(parts: seq<seq<T>>): seq<seq<T>> {
    seq(|parts|, i requires 0 <= i < |parts| => parts[i][CeilDiv(|parts[i]|, 2)..])
  }

  /** Every shard is its gate and then its up rows, one row more of the first if their number is odd. */
  lemma GatesAndUps<T>(parts: seq<seq<T>>, i: nat)
    requires i < |parts|
    ensures |Gates(parts)| == |Ups(parts)| == |parts| && Gates(parts)[i] + Ups(parts)[i] == parts[i]
    ensures |Gates(parts)[i]| - |Ups(parts)[i]| == |parts[i]| % 2
  {
  }

  lemma Halves<T>(t: seq<T>)
    ensures |Chunk(t, 2)| == 2 <==> |t| != 1
    ensures |Chunk(t, 2)| == 2 ==> Chunk(t, 2) == [t[..CeilDiv(|t|, 2)], t[CeilDiv(|t|, 2)..]]
  {
    if |t| > 1 {
      var c := CeilDiv(|t|, 2);
      assert Pieces(t, c) == [t[..c]] + Pieces(t[c..], c);
    }
  }

  /** Only a shard of a single row cannot be unpacked into two, and only an empty list cannot be concatenated. */
  method MergeGateUp<T>(parts: seq<seq<T>>) returns (r: Result<(seq<T>, seq<T>)>)
    ensures r.Ok? <==> parts != [] && forall i :: 0 <= i < |parts| ==> |parts[i]| != 1
    ensures r.Ok? ==> r.value == (Cat(Gates(parts)), Cat(Ups(parts)))
  {
    var gateList, upList := [], [];
    for i := 0 to |parts|
      invariant forall j :: 0 <= j < i ==> |parts[j]| != 1
      invariant gateList == Gates(parts[..i]) && upList == Ups(parts[..i])
    {
      var halves := Chunk(parts[i], 2);
      Halves(parts[i]);
      if |halves| != 2 {
        return Failed;
      }
      gateList, upList := gateList + [halves[0]], upList + [halves[1]];
    }
    assert parts[..|parts|] == parts;
    if gateList == [] {
      return Failed;
    }
    r := Ok((Cat(gateList), Cat(upList)));
  }

  /** `torch.cat([gate, up])`, the shard a rank holds. */
  function Stacked<T>(gates: seq<seq<T>>, ups: seq<seq<T>>): seq<seq<T>>
    requires |gates| == |ups|
  {
    seq(|gates|, i requires 0 <= i < |gates| => gates[i] + ups[i])
  }

  /** Merging undoes stacking on every rank, whatever the shard sizes. */
  lemma GateUpRoundTrip<T>(gates: seq<seq<T>>, ups: seq<seq<T>>)
    requires |gates| == |ups| && forall i :: 0 <= i < |gates| ==> |gates[i]| == |ups[i]|
    ensures Gates(Stacked(gates, ups)) == gates && Ups(Stacked(gates, ups)) == ups
    ensures forall i :: 0 <= i < |gates| ==> |Stacked(gates, ups)[i]| != 1
  {
    var parts := Stacked(gates, ups);
    forall i | 0 <= i < |gates| ensures Gates(parts)[i] == gates[i] && Ups(parts)[i] == ups[i] {
      assert CeilDiv(|parts[i]|, 2) == |gates[i]|;
    }
  }

  // ---------------------------------------------------------------- the vision tower

  /** `view(3, groups, ...).transpose(0, 1)` on blocks: the blocks of one group come together. */
  function Transposed<T>(bs: seq<seq<T>>, groups: nat): seq<seq<T>>
    requires |bs| == 3 * groups
  {
    seq(groups, g requires 0 <= g < groups => bs[g] + bs[groups + g] + bs[2 * groups + g])
  }

  function VisionLayout<T>(w: seq<T>, size: nat, groups: nat): seq<T>
    requires |w| == 3 * groups * size
  {
    Cat(Transposed(Blocks(w, size, 3 * groups), groups))
  }

  /** The permutation of the stacked vision weight is the interleaving of its three parts. */
  lemma VisionIsInterleaved<T>(x: Qkv<T>, size: nat, groups: nat)
    requires |x.q| == |x.k| == |x.v| == groups * size
    ensures |x.q + x.k + x.v| == 3 * groups * size && size * 1 == size
    ensures VisionLayout(x.q + x.k + x.v, size, groups) == Interleave(x, 1, size, groups)
  {
    var q, k, v := Blocks(x.q, size, groups), Blocks(x.k, size, groups), Blocks(x.v, size, groups);
    BlocksAppend(x.q, x.k, size, groups, groups);
    BlocksAppend(x.q + x.k, x.v, size, groups + groups, groups);
    assert groups + groups + groups == 3 * groups;
    assert Blocks(x.q + x.k + x.v, size, 3 * groups) == q + k + v;
    hide Blocks, Cat;
    assert Transposed(q + k + v, groups) == Interleaved(q, k, v);
  }

  /** Splitting the permuted vision weight, with one query row per key row, gives back its three parts. */
  lemma VisionRoundTrip<T>(x: Qkv<T>, size: nat, groups: nat)
    requires groups > 0 && |x.q| == |x.k| == |x.v| == groups * size
    ensures |x.q + x.k + x.v| == 3 * groups * size
    ensures var t := VisionLayout(x.q + x.k + x.v, size, groups);
            Splittable(|t|, groups, groups) && Split(t, groups, groups) == x
  {
    hide *;
    VisionIsInterleaved(x, size, groups);
    assert size * 1 == size && 1 * groups == groups;
    SplitUndoesInterleave(x, 1, size, groups);
  }
}
