/** Renumbering the layers of pipeline chunks while their state dictionaries are merged into one.

  Every chunk of a model numbers its layers from 0. The merge walks over the chunks, virtual stage by
  virtual stage, and shifts the numbers of a chunk by the layers counted so far. A parameter name is
  the datatype `Key`; splitting names on dots and the renaming tables are not part of this model. */
module LayerNumbering {

  /** A key of a chunk. Extra states and tied output layers are skipped. */
  datatype Key = Layer(no: nat, name: string) | Global(name: string) | Skipped(name: string)

  /** What merging over tensor-parallel ranks gives for one key. */
  datatype Merged<T> = Whole(t: T) | Qkv(q: T, k: T, v: T) | GateUp(gate: T, up: T)

  datatype Entry<T> = Entry(key: Key, merged: Merged<T>)

  /** A state dictionary in insertion order. */
  type Chunk<T> = seq<Entry<T>>

  datatype Part = All | Q | K | V | Gate | Up

  /** A key of the merged dictionary: the renumbered key, and the part its name is specialised to. */
  datatype HfKey = HfKey(key: Key, part: Part)

  predicate Distinct<T(==)>(c: Chunk<T>) {
    forall i, j :: 0 <= i < j < |c| ==> c[i].key != c[j].key
  }

  // ---------------------------------------------------------------- one entry, one chunk

  function Shift(k: Key, cum: nat): Key {
    match k
    case Layer(no, name) => Layer(no + cum, name)
    case _ => k
  }

  /** The new entries of `state_dict`. */
  function Outputs<T>(e: Entry<T>, cum: nat): map<HfKey, T> {
    var key := Shift(e.key, cum);
    if e.key.Skipped? then map[]
    else match e.merged
      case Whole(t) => map[HfKey(key, All) := t]
      case Qkv(q, k, v) => map[HfKey(key, Q) := q, HfKey(key, K) := k, HfKey(key, V) := v]
      case GateUp(g, u) => map[HfKey(key, Gate) := g, HfKey(key, Up) := u]
  }

  /** What is stored for a part: the one tensor, or the query, key or value, or the gate or up projection. */
  ghost predicate HasPart<T>(m: Merged<T>, part: Part, t: T) {
    match part
    case All => m == Whole(t)
    case Q => m.Qkv? && m.q == t
    case K => m.Qkv? && m.k == t
    case V => m.Qkv? && m.v == t
    case Gate => m.GateUp? && m.gate == t
    case Up => m.GateUp? && m.up == t
  }

  /** The entry stores `t` under `x`: that part of it, under its own key with the layer number shifted. */
  ghost predicate Stores<T>(e: Entry<T>, cum: nat, x: HfKey, t: T) {
    && HasPart(e.merged, x.part, t)
    && match e.key
       case Layer(no, name) => x.key == Layer(no + cum, name)
       case Global(name) => x.key == Global(name)
       case Skipped(_) => false
  }

  lemma OutputsAre<T>(e: Entry<T>, cum: nat, x: HfKey, t: T)
    ensures x in Outputs(e, cum) && Outputs(e, cum)[x] == t <==> Stores(e, cum, x, t)
  {
  }

  /** `layers_handled` after a chunk. */
  function Handled<T>(c: Chunk<T>): nat {
    if c == [] then 0 else
      var h, key := Handled(c[..|c| - 1]), c[|c| - 1].key;
      if key.Layer? && key.no > h then key.no else h
  }

  function AddChunk<T>(d: map<HfKey, T>, c: Chunk<T>, cum: nat): map<HfKey, T> {
    if c == [] then d else AddChunk(d, c[..|c| - 1], cum) + Outputs(c[|c| - 1], cum)
  }

  // ---------------------------------------------------------------- all chunks

  /** `layers_cum` after the chunks, from `start`. */
  function Cum<T>(start: nat, cs: seq<Chunk<T>>): nat {
    if cs == [] then start else Cum(start, cs[..|cs| - 1]) + Handled(cs[|cs| - 1]) + 1
  }

  function Merge<T>(start: nat, cs: seq<Chunk<T>>): map<HfKey, T> {
    if cs == [] then map[]
    else var init := cs[..|cs| - 1]; AddChunk(Merge(start, init), cs[|cs| - 1], Cum(start, init))
  }

  /** The chunks of virtual stage `v` on the first `p` pipeline ranks. */
  function Stage<T>(m: seq<seq<Chunk<T>>>, v: nat, p: nat): seq<Chunk<T>>
    requires p <= |m| && forall i :: 0 <= i < p ==> v < |m[i]|
  {
    if p == 0 then [] else Stage(m, v, p - 1) + [m[p - 1][v]]
  }

  function Stages<T>(m: seq<seq<Chunk<T>>>, v: nat): seq<Chunk<T>>
    requires forall i :: 0 <= i < |m| ==> v <= |m[i]|
  {
    if v == 0 then [] else Stages(m, v - 1) + Stage(m, v - 1, |m|)
  }

  /** Stores what one key contributes. */
  method AddEntry<T>(d: map<HfKey, T>, e: Entry<T>, cum: nat) returns (after: map<HfKey, T>)
    requires !e.key.Skipped?
    ensures after == d + Outputs(e, cum)
    ensures forall x, t :: Stores(e, cum, x, t) ==> x in after && after[x] == t
    ensures forall x :: x in after && x !in d ==> Stores(e, cum, x, after[x])
  {
    var key := Shift(e.key, cum);
    match e.merged
    case Whole(t) =>
      after := d[HfKey(key, All) := t];
    case Qkv(q, k, v) =>
      after := d[HfKey(key, Q) := q][HfKey(key, K) := k][HfKey(key, V) := v];
    case GateUp(g, u) =>
      after := d[HfKey(key, Gate) := g][HfKey(key, Up) := u];
  }

  /** The inner loop of the merge, over the keys of one chunk. */
  method MergeChunk<T>(d: map<HfKey, T>, c: Chunk<T>, cum: nat) returns (after: map<HfKey, T>, handled: nat)
    ensures after == AddChunk(d, c, cum) && handled == Handled(c)
  {
    after, handled := d, 0;
    for i := 0 to |c|
      invariant after == AddChunk(d, c[..i], cum) && handled == Handled(c[..i])
    {
      assert c[..i + 1][..i] == c[..i];
      var key := c[i].key;
      if key.Skipped? {
        assert after + map[] == after;
        continue;
      }
      if key.Layer? && key.no > handled {
        handled := key.no;
      }
      hide Outputs;
      after := AddEntry(after, c[i], cum);
    }
    assert c[..|c|] == c;
  }

  lemma Unmerged<T>(start: nat)
    ensures Merge<T>(start, []) == map[] && Cum<T>(start, []) == start
  {
  }

  lemma MergeNext<T>(start: nat, done: seq<Chunk<T>>, c: Chunk<T>)
    ensures Merge(start, done + [c]) == AddChunk(Merge(start, done), c, Cum(start, done))
    ensures Cum(start, done + [c]) == Cum(start, done) + Handled(c) + 1
  {
    assert (done + [c])[..|done|] == done;
  }

  lemma NoStages<T>(m: seq<seq<Chunk<T>>>)
    ensures Stages(m, 0) == []
  {
  }

  lemma StagesStart<T>(m: seq<seq<Chunk<T>>>, v: nat)
    requires forall i :: 0 <= i < |m| ==> v < |m[i]|
    ensures Stages(m, v) + Stage(m, v, 0) == Stages(m, v)
    ensures Stages(m, v + 1) == Stages(m, v) + Stage(m, v, |m|)
  {
  }

  lemma StageNext<T>(m: seq<seq<Chunk<T>>>, v: nat, p: nat)
    requires p < |m| && forall i :: 0 <= i <= p ==> v < |m[i]|
    requires forall i :: 0 <= i < |m| ==> v <= |m[i]|
    ensures Stages(m, v) + Stage(m, v, p + 1) == Stages(m, v) + Stage(m, v, p) + [m[p][v]]
  {
  }

  /** The merge over virtual and pipeline ranks; `m[p][v]` is the chunk of pipeline rank `p`. */
  method MergeStateDicts<T>(m: seq<seq<Chunk<T>>>) returns (d: map<HfKey, T>)
    requires m != [] && forall i :: 0 <= i < |m| ==> |m[i]| == |m[0]|
    ensures d == Merge(0, Stages(m, |m[0]|))
  {
    hide *;
    d := map[];
    var cum := 0;
    Unmerged<T>(0);
    NoStages(m);
    for v := 0 to |m[0]|
      invariant d == Merge(0, Stages(m, v)) && cum == Cum(0, Stages(m, v))
    {
      StagesStart(m, v);
      for p := 0 to |m|
        invariant d == Merge(0, Stages(m, v) + Stage(m, v, p)) && cum == Cum(0, Stages(m, v) + Stage(m, v, p))
      {
        MergeNext(0, Stages(m, v) + Stage(m, v, p), m[p][v]);
        StageNext(m, v, p);
        var handled;
        d, handled := MergeChunk(d, m[p][v], cum);
        cum := cum + handled + 1;
      }
    }
  }

  function SumOf(ns: seq<nat>): nat {
    if ns == [] then 0 else SumOf(ns[..|ns| - 1]) + ns[|ns| - 1]
  }

  /** The merge of one pipeline rank of a distributed run, whose layers start at those of the ranks before. */
  method MergeOwnStateDicts<T>(cs: seq<Chunk<T>>, shards: seq<nat>, rank: nat) returns (d: map<HfKey, T>)
    requires rank < |shards|
    ensures d == Merge(SumOf(shards[..rank]), cs)
  {
    d := map[];
    var cum := SumOf(shards[..rank]);
    for i := 0 to |cs|
      invariant d == Merge(SumOf(shards[..rank]), cs[..i]) && cum == Cum(SumOf(shards[..rank]), cs[..i])
    {
      assert cs[..i + 1][..i] == cs[..i];
      var handled;
      d, handled := MergeChunk(d, cs[i], cum);
      cum := cum + handled + 1;
    }
    assert cs[..|cs|] == cs;
  }

  // ---------------------------------------------------------------- exact numbering

  predicate HasLayer<T>(c: Chunk<T>, no: nat) {
    exists i :: 0 <= i < |c| && c[i].key.Layer? && c[i].key.no == no
  }

  /** The layers of the chunk are exactly 0, …, n-1. */
  ghost predicate HasLayers<T>(c: Chunk<T>, n: nat) {
    forall no: nat :: HasLayer(c, no) <==> no < n
  }

  lemma {:induction false} HandledBounds<T>(c: Chunk<T>)
    ensures forall i :: 0 <= i < |c| && c[i].key.Layer? ==> c[i].key.no <= Handled(c)
    ensures Handled(c) > 0 ==> exists i :: 0 <= i < |c| && c[i].key.Layer? && c[i].key.no == Handled(c)
  {
    if c != [] {
      HandledBounds(c[..|c| - 1]);
      var init := c[..|c| - 1];
      if Handled(c) > 0 && Handled(c) == Handled(init) {
        var i :| 0 <= i < |init| && init[i].key.Layer? && init[i].key.no == Handled(init);
        assert c[i].key.no == Handled(c);
      }
    }
  }

  /** A chunk without layers counts as one layer. */
  lemma HandledIs<T>(c: Chunk<T>, n: nat)
    requires HasLayers(c, n)
    ensures Handled(c) + 1 == if n == 0 then 1 else n
  {
    HandledBounds(c);
    if n > 0 {
      assert HasLayer(c, n - 1);
    }
    if Handled(c) > 0 {
      assert HasLayer(c, Handled(c));
    }
  }

  ghost predicate AllHaveLayers<T>(cs: seq<Chunk<T>>, ns: seq<nat>) {
    |cs| == |ns| && forall k :: 0 <= k < |cs| ==> HasLayers(cs[k], ns[k])
  }

  lemma {:induction false} CumIsSum<T>(start: nat, cs: seq<Chunk<T>>, ns: seq<nat>)
    requires AllHaveLayers(cs, ns)
    ensures if forall k :: 0 <= k < |ns| ==> ns[k] > 0 then Cum(start, cs) == start + SumOf(ns)
            else Cum(start, cs) > start + SumOf(ns)
  {
    if cs != [] {
      var n := |ns| - 1;
      CumIsSum(start, cs[..n], ns[..n]);
      HandledIs(cs[n], ns[n]);
      if forall k :: 0 <= k < n ==> ns[..n][k] > 0 {
        assert forall k :: 0 <= k < n ==> ns[k] == ns[..n][k];
      }
    }
  }

  /** Each chunk starts at the number of layers before it if and only if no chunk but the last is without layers. */
  lemma NumberingIsExact<T>(start: nat, cs: seq<Chunk<T>>, ns: seq<nat>)
    requires AllHaveLayers(cs, ns)
    ensures (forall k :: 0 <= k < |cs| ==> Cum(start, cs[..k]) == start + SumOf(ns[..k]))
            <==> forall k :: 0 <= k < |cs| - 1 ==> ns[k] > 0
  {
    forall k | 0 <= k < |cs|
      ensures Cum(start, cs[..k]) == start + SumOf(ns[..k]) <==> forall j :: 0 <= j < k ==> ns[j] > 0
    {
      CumIsSum(start, cs[..k], ns[..k]);
      assert forall j :: 0 <= j < k ==> ns[..k][j] == ns[j];
    }
    if !forall k :: 0 <= k < |cs| - 1 ==> ns[k] > 0 {
      assert Cum(start, cs[..|cs| - 1]) != start + SumOf(ns[..|cs| - 1]);
    }
  }

  /** Global layer `g` is layer `l` of chunk `k`. */
  predicate IsLayer(ns: seq<nat>, k: nat, l: nat, g: nat) {
    k < |ns| && l < ns[k] && SumOf(ns[..k]) + l == g
  }

  /** Every global layer below the total is a layer of some chunk, and of one only. */
  lemma {:induction false} LayersTile(ns: seq<nat>, g: nat) returns (k: nat, l: nat)
    requires g < SumOf(ns)
    ensures IsLayer(ns, k, l, g)
  {
    var n := |ns| - 1;
    if g < SumOf(ns[..n]) {
      k, l := LayersTile(ns[..n], g);
      assert ns[..n][..k] == ns[..k];
    } else {
      k, l := n, g - SumOf(ns[..n]);
    }
  }

  lemma {:induction false} SumGrows(ns: seq<nat>, k: nat, m: nat)
    requires k < m <= |ns|
    ensures SumOf(ns[..k]) + ns[k] <= SumOf(ns[..m])
    decreases m - k
  {
    assert ns[..m][..m - 1] == ns[..m - 1];
    if k < m - 1 {
      SumGrows(ns, k, m - 1);
    }
  }

  lemma LayerIsOnce(ns: seq<nat>, k: nat, l: nat, k': nat, l': nat, g: nat)
    requires IsLayer(ns, k, l, g) && IsLayer(ns, k', l', g)
    ensures k == k' && l == l'
  {
    if k < k' {
      SumGrows(ns, k, k');
    } else if k' < k {
      SumGrows(ns, k', k);
    }
  }

  lemma {:induction false} StageAt<T>(m: seq<seq<Chunk<T>>>, v: nat, p: nat)
    requires p <= |m| && forall i :: 0 <= i < p ==> v < |m[i]|
    ensures |Stage(m, v, p)| == p && forall i :: 0 <= i < p ==> Stage(m, v, p)[i] == m[i][v]
  {
    if p > 0 {
      StageAt(m, v, p - 1);
    }
  }

  /** The place of virtual stage `v` of pipeline rank `p` in the order of the merge over `pp` ranks. */
  function Place(pp: nat, v: nat, p: nat): nat {
    pp * v + p
  }

  lemma PlaceBounds(pp: nat, v: nat, p: nat)
    ensures Place(pp, 0, 0) == 0 && Place(pp, v, pp) == Place(pp, v + 1, 0) && Place(pp, v, p) == Place(pp, v, 0) + p
  {
  }

  lemma {:induction false} EarlierPlace(pp: nat, v: nat, p: nat, stages: nat)
    requires v < stages && p < pp
    ensures Place(pp, v, p) < Place(pp, stages, 0)
  {
    hide Place;
    PlaceBounds(pp, v, p);
    PlaceBounds(pp, stages - 1, pp);
    PlaceBounds(pp, v, pp);
    if v < stages - 1 {
      EarlierPlace(pp, v, p, stages - 1);
    }
  }

  lemma {:induction false} StagesAt<T>(m: seq<seq<Chunk<T>>>, stages: nat, v: nat, p: nat)
    requires forall i :: 0 <= i < |m| ==> stages <= |m[i]|
    ensures |Stages(m, stages)| == Place(|m|, stages, 0)
    ensures v < stages && p < |m| ==>
              Place(|m|, v, p) < |Stages(m, stages)| && Stages(m, stages)[Place(|m|, v, p)] == m[p][v]
  {
    hide Place, Stage;
    PlaceBounds(|m|, v, p);
    if stages > 0 {
      StagesAt(m, stages - 1, v, p);
      StageAt(m, stages - 1, |m|);
      PlaceBounds(|m|, stages - 1, |m|);
      if v < stages && p < |m| {
        EarlierPlace(|m|, v, p, stages);
      }
    }
  }

  lemma {:induction false} EqualChunks(ns: seq<nat>, k: nat, c: nat)
    requires c <= |ns| && forall i :: 0 <= i < |ns| ==> ns[i] == k
    ensures SumOf(ns[..c]) == c * k
  {
    if c > 0 {
      EqualChunks(ns, k, c - 1);
      assert ns[..c][..c - 1] == ns[..c - 1];
    }
  }

  lemma {:induction false} StagesHaveLayers<T>(m: seq<seq<Chunk<T>>>, stages: nat, k: nat)
    requires forall i :: 0 <= i < |m| ==> stages <= |m[i]|
    requires forall i, j :: 0 <= i < |m| && 0 <= j < stages ==> HasLayers(m[i][j], k)
    ensures forall c :: 0 <= c < |Stages(m, stages)| ==> HasLayers(Stages(m, stages)[c], k)
  {
    hide HasLayers;
    if stages > 0 {
      StagesHaveLayers(m, stages - 1, k);
      StageAt(m, stages - 1, |m|);
    }
  }

  /** With `k` layers in every chunk, virtual stage `v` of pipeline rank `p` starts at layer (pp · v + p) · k. */
  lemma InterleavedSchedule<T>(m: seq<seq<Chunk<T>>>, stages: nat, k: nat, v: nat, p: nat)
    requires (forall i :: 0 <= i < |m| ==> stages <= |m[i]|) && v < stages && p < |m| && k > 0
    requires forall i, j :: 0 <= i < |m| && 0 <= j < stages ==> HasLayers(m[i][j], k)
    ensures Place(|m|, v, p) < |Stages(m, stages)| && Stages(m, stages)[Place(|m|, v, p)] == m[p][v]
    ensures Cum(0, Stages(m, stages)[..Place(|m|, v, p)]) == Place(|m|, v, p) * k
  {
    hide Place, Stages;
    var cs, c := Stages(m, stages), Place(|m|, v, p);
    StagesAt(m, stages, v, p);
    var ns := seq(|cs|, _ => k);
    StagesHaveLayers(m, stages, k);
    NumberingIsExact(0, cs, ns);
    EqualChunks(ns, k, c);
  }

  // ---------------------------------------------------------------- nothing is overwritten

  /** Entry `i` of chunk `k` stores under the key `x`. */
  predicate Emits<T>(start: nat, cs: seq<Chunk<T>>, k: nat, i: nat, x: HfKey) {
    k < |cs| && i < |cs[k]| && x in Outputs(cs[k][i], Cum(start, cs[..k]))
  }

  ghost predicate AllDistinct<T>(cs: seq<Chunk<T>>) {
    forall k :: 0 <= k < |cs| ==> Distinct(cs[k])
  }

  lemma OutputKeys<T>(e: Entry<T>, cum: nat, x: HfKey)
    requires x in Outputs(e, cum)
    ensures !e.key.Skipped? && x.key == Shift(e.key, cum)
  {
  }

  /** The layers of a chunk end before those of any later chunk, whatever the chunks hold. */
  lemma {:induction false} CumGrows<T>(start: nat, cs: seq<Chunk<T>>, k: nat, m: nat)
    requires k < m <= |cs|
    ensures Cum(start, cs[..k]) + Handled(cs[k]) < Cum(start, cs[..m])
    decreases m - k
  {
    hide Handled;
    assert cs[..m][..m - 1] == cs[..m - 1];
    if k < m - 1 {
      CumGrows(start, cs, k, m - 1);
    }
  }

  /** The number of a layer stored by chunk `k` is one of those that the chunk takes up. */
  lemma LayerInChunk<T>(start: nat, cs: seq<Chunk<T>>, k: nat, i: nat, x: HfKey)
    requires Emits(start, cs, k, i, x) && x.key.Layer?
    ensures Cum(start, cs[..k]) <= x.key.no <= Cum(start, cs[..k]) + Handled(cs[k])
  {
    OutputKeys(cs[k][i], Cum(start, cs[..k]), x);
    HandledBounds(cs[k]);
  }

  /** No two entries store under one key with a layer number, and no two entries of one chunk under any key. */
  lemma EmittedOnce<T>(start: nat, cs: seq<Chunk<T>>, k: nat, i: nat, k': nat, j: nat, x: HfKey)
    requires AllDistinct(cs) && Emits(start, cs, k, i, x) && Emits(start, cs, k', j, x)
    ensures x.key.Layer? || k == k' ==> k == k' && i == j
  {
    if k == k' {
      OutputKeys(cs[k][i], Cum(start, cs[..k]), x);
      OutputKeys(cs[k][j], Cum(start, cs[..k]), x);
      assert Distinct(cs[k]);
    } else if x.key.Layer? {
      LayerInChunk(start, cs, k, i, x);
      LayerInChunk(start, cs, k', j, x);
      if k < k' {
        CumGrows(start, cs, k, k');
      } else {
        CumGrows(start, cs, k', k);
      }
    }
  }

  lemma {:induction false} ChunkKeeps<T>(d: map<HfKey, T>, c: Chunk<T>, cum: nat, i: nat, x: HfKey)
    requires i < |c| && x in Outputs(c[i], cum)
    requires forall j :: i < j < |c| ==> x !in Outputs(c[j], cum)
    ensures x in AddChunk(d, c, cum) && AddChunk(d, c, cum)[x] == Outputs(c[i], cum)[x]
  {
    if i < |c| - 1 {
      ChunkKeeps(d, c[..|c| - 1], cum, i, x);
    }
  }

  lemma {:induction false} ChunkLeaves<T>(d: map<HfKey, T>, c: Chunk<T>, cum: nat, x: HfKey)
    requires forall j :: 0 <= j < |c| ==> x !in Outputs(c[j], cum)
    ensures x in AddChunk(d, c, cum) <==> x in d
    ensures x in d ==> AddChunk(d, c, cum)[x] == d[x]
  {
    if c != [] {
      ChunkLeaves(d, c[..|c| - 1], cum, x);
    }
  }

  /** A key that no later entry stores under keeps its value. */
  lemma {:induction false} MergeKeeps<T>(start: nat, cs: seq<Chunk<T>>, k: nat, i: nat, x: HfKey)
    requires Emits(start, cs, k, i, x)
    requires forall k': nat, j: nat :: Emits(start, cs, k', j, x) ==> k' < k || (k' == k && j <= i)
    ensures x in Merge(start, cs) && Merge(start, cs)[x] == Outputs(cs[k][i], Cum(start, cs[..k]))[x]
  {
    var n := |cs| - 1;
    var init, cum := cs[..n], Cum(start, cs[..n]);
    if k == n {
      forall j | i < j < |cs[n]| ensures x !in Outputs(cs[n][j], cum) {
        if x in Outputs(cs[n][j], cum) {
          assert Emits(start, cs, n, j, x);
        }
      }
      ChunkKeeps(Merge(start, init), cs[n], cum, i, x);
    } else {
      forall k': nat, j: nat | Emits(start, init, k', j, x) ensures k' < k || (k' == k && j <= i) {
        assert init[..k'] == cs[..k'];
        assert Emits(start, cs, k', j, x);
      }
      assert init[..k] == cs[..k];
      MergeKeeps(start, init, k, i, x);
      forall j | 0 <= j < |cs[n]| ensures x !in Outputs(cs[n][j], cum) {
        if x in Outputs(cs[n][j], cum) {
          assert Emits(start, cs, n, j, x);
        }
      }
      ChunkLeaves(Merge(start, init), cs[n], cum, x);
    }
  }

  lemma {:induction false} ChunkHas<T>(d: map<HfKey, T>, c: Chunk<T>, cum: nat, x: HfKey)
    requires x in d || exists j :: 0 <= j < |c| && x in Outputs(c[j], cum)
    ensures x in AddChunk(d, c, cum)
  {
    if x !in d && !(x in Outputs(c[|c| - 1], cum)) {
      var j :| 0 <= j < |c| && x in Outputs(c[j], cum);
      assert x in Outputs(c[..|c| - 1][j], cum);
      ChunkHas(d, c[..|c| - 1], cum, x);
    } else if c != [] && x in d {
      ChunkHas(d, c[..|c| - 1], cum, x);
    }
  }

  lemma {:induction false} EmittedIsMerged<T>(start: nat, cs: seq<Chunk<T>>, k: nat, i: nat, x: HfKey)
    requires Emits(start, cs, k, i, x)
    ensures x in Merge(start, cs)
  {
    var n := |cs| - 1;
    if k < n {
      assert cs[..n][..k] == cs[..k];
      EmittedIsMerged(start, cs[..n], k, i, x);
    }
    ChunkHas(Merge(start, cs[..n]), cs[n], Cum(start, cs[..n]), x);
  }

  /** Every key of the merged dictionary was stored by some entry. */
  lemma {:induction false} MergeHasNothingElse<T>(start: nat, cs: seq<Chunk<T>>, x: HfKey)
    requires x in Merge(start, cs)
    ensures exists k: nat, i: nat :: Emits(start, cs, k, i, x)
  {
    var n := |cs| - 1;
    var init, cum := cs[..n], Cum(start, cs[..n]);
    if j :| 0 <= j < |cs[n]| && x in Outputs(cs[n][j], cum) {
      assert Emits(start, cs, n, j, x);
    } else {
      ChunkLeaves(Merge(start, init), cs[n], cum, x);
      MergeHasNothingElse(start, init, x);
      var k: nat, i: nat :| Emits(start, init, k, i, x);
      assert init[..k] == cs[..k];
      assert Emits(start, cs, k, i, x);
    }
  }

  /** A chunk after chunk `k` has the key. */
  predicate KeyLater<T>(cs: seq<Chunk<T>>, k: nat, key: Key) {
    exists k', j :: k < k' < |cs| && 0 <= j < |cs[k']| && cs[k'][j].key == key
  }

  lemma StoredIsKept<T>(start: nat, cs: seq<Chunk<T>>, k: nat, i: nat, x: HfKey)
    requires AllDistinct(cs) && Emits(start, cs, k, i, x)
    ensures x in Merge(start, cs)
    ensures x.key.Layer? || !KeyLater(cs, k, x.key) ==>
              Merge(start, cs)[x] == Outputs(cs[k][i], Cum(start, cs[..k]))[x]
  {
    hide Merge, Outputs;
    EmittedIsMerged(start, cs, k, i, x);
    if x.key.Layer? || !KeyLater(cs, k, x.key) {
      forall k': nat, j: nat | Emits(start, cs, k', j, x) ensures k' < k || (k' == k && j <= i) {
        EmittedOnce(start, cs, k, i, k', j, x);
        OutputKeys(cs[k'][j], Cum(start, cs[..k']), x);
      }
      MergeKeeps(start, cs, k, i, x);
    }
  }

  lemma EmittedIsKept<T>(start: nat, cs: seq<Chunk<T>>, x: HfKey)
    requires AllDistinct(cs)
    ensures x in Merge(start, cs) <==> exists k: nat, i: nat :: Emits(start, cs, k, i, x)
    ensures forall k: nat, i: nat :: Emits(start, cs, k, i, x) && (x.key.Layer? || !KeyLater(cs, k, x.key)) ==>
              x in Merge(start, cs) && Merge(start, cs)[x] == Outputs(cs[k][i], Cum(start, cs[..k]))[x]
  {
    hide Merge, Outputs, KeyLater;
    if x in Merge(start, cs) {
      MergeHasNothingElse(start, cs, x);
    }
    forall k: nat, i: nat | Emits(start, cs, k, i, x)
      ensures x in Merge(start, cs)
      ensures x.key.Layer? || !KeyLater(cs, k, x.key) ==>
                Merge(start, cs)[x] == Outputs(cs[k][i], Cum(start, cs[..k]))[x]
    {
      StoredIsKept(start, cs, k, i, x);
    }
  }

  /** Entry `i` of chunk `k` stores `t` under `x`. */
  ghost predicate StoresAt<T>(start: nat, cs: seq<Chunk<T>>, k: nat, i: nat, x: HfKey, t: T) {
    k < |cs| && i < |cs[k]| && Stores(cs[k][i], Cum(start, cs[..k]), x, t)
  }

  lemma StoresIsEmits<T>(start: nat, cs: seq<Chunk<T>>, k: nat, i: nat, x: HfKey, t: T)
    ensures StoresAt(start, cs, k, i, x, t) <==>
              Emits(start, cs, k, i, x) && Outputs(cs[k][i], Cum(start, cs[..k]))[x] == t
  {
    if k < |cs| && i < |cs[k]| {
      OutputsAre(cs[k][i], Cum(start, cs[..k]), x, t);
    }
    hide Stores, Outputs, Cum;
  }

  lemma EmitsIn<T>(start: nat, cs: seq<Chunk<T>>, k: nat, i: nat, x: HfKey)
    requires Emits(start, cs, k, i, x)
    ensures k < |cs| && i < |cs[k]| && x in Outputs(cs[k][i], Cum(start, cs[..k]))
  {
  }

  /** The merged dictionary has the keys that entries store under and no others. Every tensor with a layer number
    is in it under its own key; of those with one key without a number the last one is. */
  lemma MergeLosesNothing<T>(start: nat, cs: seq<Chunk<T>>, x: HfKey)
    requires AllDistinct(cs)
    ensures x in Merge(start, cs) <==> exists k: nat, i: nat, t :: StoresAt(start, cs, k, i, x, t)
    ensures forall k: nat, i: nat, t ::
              StoresAt(start, cs, k, i, x, t) && (x.key.Layer? || !KeyLater(cs, k, x.key)) ==>
                x in Merge(start, cs) && Merge(start, cs)[x] == t
  {
    hide Merge, Outputs, KeyLater, Stores, StoresAt, Emits;
    EmittedIsKept(start, cs, x);
    if x in Merge(start, cs) {
      var k: nat, i: nat :| Emits(start, cs, k, i, x);
      EmitsIn(start, cs, k, i, x);
      var t := Outputs(cs[k][i], Cum(start, cs[..k]))[x];
      StoresIsEmits(start, cs, k, i, x, t);
      assert StoresAt(start, cs, k, i, x, t);
    }
    forall k: nat, i: nat, t | StoresAt(start, cs, k, i, x, t)
      ensures x in Merge(start, cs) && (x.key.Layer? || !KeyLater(cs, k, x.key) ==> Merge(start, cs)[x] == t)
    {
      StoresIsEmits(start, cs, k, i, x, t);
    }
  }

  ghost predicate MapsTo<T>(d: map<HfKey, T>, key: Key, part: Part, t: T) {
    HfKey(key, part) in d && d[HfKey(key, part)] == t
  }

  /** An entry that stores under the key of another's layer is that entry. */
  lemma SameLayerEntry<T>(start: nat, cs: seq<Chunk<T>>, k: nat, i: nat, k': nat, j: nat, x: HfKey)
    requires AllDistinct(cs) && k < |cs| && i < |cs[k]| && k' < |cs| && j < |cs[k']|
    requires cs[k][i].key.Layer? && x.key == Layer(cs[k][i].key.no + Cum(start, cs[..k]), cs[k][i].key.name)
    requires cs[k'][j].key.Layer? && x.key == Layer(cs[k'][j].key.no + Cum(start, cs[..k']), cs[k'][j].key.name)
    ensures k == k' && i == j
  {
    hide Cum, Handled;
    HandledBounds(cs[k]);
    HandledBounds(cs[k']);
    if k < k' {
      CumGrows(start, cs, k, k');
    } else if k' < k {
      CumGrows(start, cs, k', k);
    } else {
      assert Distinct(cs[k]);
    }
  }

  lemma OnlyItsParts<T>(start: nat, cs: seq<Chunk<T>>, k: nat, i: nat, p: Part)
    requires AllDistinct(cs) && k < |cs| && i < |cs[k]| && cs[k][i].key.Layer?
    requires HfKey(Layer(cs[k][i].key.no + Cum(start, cs[..k]), cs[k][i].key.name), p) in Merge(start, cs)
    ensures exists t :: HasPart(cs[k][i].merged, p, t)
  {
    hide Merge, Cum, HasPart;
    var key := Layer(cs[k][i].key.no + Cum(start, cs[..k]), cs[k][i].key.name);
    var x := HfKey(key, p);
    MergeLosesNothing(start, cs, x);
    var k': nat, i': nat, t :| StoresAt(start, cs, k', i', x, t);
    SameLayerEntry(start, cs, k, i, k', i', x);
  }

  /** What an entry with a layer number becomes: q, k and v of an attention layer under their own names, gate and up under
    theirs, any other tensor as it is; and nothing else under that layer's name. */
  lemma PartsOfLayer<T>(start: nat, cs: seq<Chunk<T>>, k: nat, i: nat)
    requires AllDistinct(cs) && k < |cs| && i < |cs[k]| && cs[k][i].key.Layer?
    ensures var d, e := Merge(start, cs), cs[k][i];
            var key := Layer(e.key.no + Cum(start, cs[..k]), e.key.name);
            match e.merged
            case Whole(t) =>
              MapsTo(d, key, All, t) && forall p :: p != All ==> HfKey(key, p) !in d
            case Qkv(q, kk, v) =>
              MapsTo(d, key, Q, q) && MapsTo(d, key, K, kk) && MapsTo(d, key, V, v)
              && forall p :: p in {All, Gate, Up} ==> HfKey(key, p) !in d
            case GateUp(g, u) =>
              MapsTo(d, key, Gate, g) && MapsTo(d, key, Up, u) && forall p :: p in {All, Q, K, V} ==> HfKey(key, p) !in d
  {
    hide Merge, Cum;
    var e, cum := cs[k][i], Cum(start, cs[..k]);
    var key := Layer(e.key.no + cum, e.key.name);
    forall p: Part, t | HasPart(e.merged, p, t) ensures MapsTo(Merge(start, cs), key, p, t) {
      assert Stores(e, cum, HfKey(key, p), t);
      assert StoresAt(start, cs, k, i, HfKey(key, p), t);
      MergeLosesNothing(start, cs, HfKey(key, p));
    }
    forall p: Part | HfKey(key, p) in Merge(start, cs) ensures exists t :: HasPart(e.merged, p, t) {
      OnlyItsParts(start, cs, k, i, p);
    }
    match e.merged
    case Whole(t) => assert HasPart(e.merged, All, t);
    case Qkv(q, kk, v) => assert HasPart(e.merged, Q, q) && HasPart(e.merged, K, kk) && HasPart(e.merged, V, v);
    case GateUp(g, u) => assert HasPart(e.merged, Gate, g) && HasPart(e.merged, Up, u);
  }

  ghost predicate HasNumber<T>(d: map<HfKey, T>, g: nat) {
    exists x :: x in d && x.key.Layer? && x.key.no == g
  }

  /** Chunks of a checkpoint with `ns` layers each: none but the last may be without layers. */
  ghost predicate WellFormed<T>(cs: seq<Chunk<T>>, ns: seq<nat>) {
    AllHaveLayers(cs, ns) && AllDistinct(cs) && forall k :: 0 <= k < |cs| - 1 ==> ns[k] > 0
  }

  lemma OutputOf<T>(e: Entry<T>, cum: nat) returns (x: HfKey)
    requires !e.key.Skipped?
    ensures x in Outputs(e, cum) && x.key == Shift(e.key, cum)
  {
    match e.merged
    case Whole(t) => x := HfKey(Shift(e.key, cum), All);
    case Qkv(q, k, v) => x := HfKey(Shift(e.key, cum), Q);
    case GateUp(g, u) => x := HfKey(Shift(e.key, cum), Gate);
  }

  lemma LayerIsMerged<T>(start: nat, cs: seq<Chunk<T>>, ns: seq<nat>, k: nat, l: nat, g: nat)
    requires WellFormed(cs, ns) && g >= start && IsLayer(ns, k, l, g - start)
    ensures HasNumber(Merge(start, cs), g)
  {
    NumberingIsExact(start, cs, ns);
    assert HasLayer(cs[k], l);
    var i: nat :| i < |cs[k]| && cs[k][i].key.Layer? && cs[k][i].key.no == l;
    hide Merge, Outputs, Cum, HasLayer, HasLayers;
    var x := OutputOf(cs[k][i], Cum(start, cs[..k]));
    assert Emits(start, cs, k, i, x);
    EmittedIsMerged(start, cs, k, i, x);
  }

  lemma LayerBelow<T>(cs: seq<Chunk<T>>, ns: seq<nat>, k: nat, i: nat)
    requires AllHaveLayers(cs, ns) && k < |cs| && i < |cs[k]| && cs[k][i].key.Layer?
    ensures cs[k][i].key.no < ns[k]
  {
    assert HasLayer(cs[k], cs[k][i].key.no);
  }

  lemma MergedIsLayer<T>(start: nat, cs: seq<Chunk<T>>, ns: seq<nat>, g: nat)
    requires WellFormed(cs, ns) && HasNumber(Merge(start, cs), g)
    ensures start <= g < start + SumOf(ns)
  {
    var x :| x in Merge(start, cs) && x.key.Layer? && x.key.no == g;
    hide Merge, Outputs, Cum, SumOf, HasLayers;
    NumberingIsExact(start, cs, ns);
    MergeHasNothingElse(start, cs, x);
    var k: nat, i: nat :| Emits(start, cs, k, i, x);
    OutputKeys(cs[k][i], Cum(start, cs[..k]), x);
    LayerBelow(cs, ns, k, i);
    SumGrows(ns, k, |ns|);
    assert ns[..|ns|] == ns;
  }

  /** The layer numbers in the merged dictionary are `start`, …, `start` + number of layers - 1. */
  lemma MergedLayers<T>(start: nat, cs: seq<Chunk<T>>, ns: seq<nat>, g: nat)
    requires WellFormed(cs, ns)
    ensures HasNumber(Merge(start, cs), g) <==> start <= g < start + SumOf(ns)
  {
    hide *;
    if start <= g < start + SumOf(ns) {
      var k, l := LayersTile(ns, g - start);
      LayerIsMerged(start, cs, ns, k, l, g);
    }
    if HasNumber(Merge(start, cs), g) {
      MergedIsLayer(start, cs, ns, g);
    }
  }

  /** A chunk without layers in front: its empty place is counted, and layer 0 of the model is missing. */
  lemma EmptyChunkLeavesGap()
    ensures var c := [Entry(Layer(0, "w"), Whole(7))];
            Merge(0, [[], c]) == map[HfKey(Layer(1, "w"), All) := 7]
  {
    var c: Chunk<int> := [Entry(Layer(0, "w"), Whole(7))];
    var none: Chunk<int> := [];
    var cs := [none, c];
    assert cs[..1] == [none] && [none][..0] == [] && c[..0] == [];
    assert Cum(0, [none]) == 1;
    assert Merge(0, [none]) == map[];
    assert Merge(0, cs) == AddChunk(map[], c, 1) == map[] + Outputs(c[0], 1);
  }
}
