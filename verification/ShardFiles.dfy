/** Writing a merged checkpoint to numbered files: each pipeline rank writes a fixed number of files for
  each of its layers, and rank 0 gathers the index that maps every parameter to its file. */
module ShardFiles {
  import opened Arithmetic
  import opened LayerNumbering
  import opened Prelude
  import PipelineShards
  import opened Tensors

  /** What one rank writes: file contents by file number (from 0), and its part of the weight map. */
  datatype Saved<K, V> = Saved(files: map<nat, map<K, V>>, index: map<K, nat>)

  function SavesPerLayer(layers: nat): nat {
    if layers < 30 then 1 else 2
  }

  // ---------------------------------------------------------------- one rank

  predicate DistinctKeys<K(==)>(keys: seq<K>) {
    forall i, j :: 0 <= i < j < |keys| ==> keys[i] != keys[j]
  }

  /** `{k: merged_state_dict[k] for k in keys}` */
  function Pick<K, V>(sd: map<K, V>, keys: seq<K>): map<K, V>
    requires forall k :: k in keys ==> k in sd
  {
    map k | k in keys :: sd[k]
  }

  function AllTo<K>(keys: seq<K>, f: nat): map<K, nat> {
    map k | k in keys :: f
  }

  /** The files first, …, first + count - 1 hold the dictionary, each key in one file, and the index names it. */
  ghost predicate Stored<K, V>(s: Saved<K, V>, sd: map<K, V>, first: nat, count: nat) {
    && (forall f: nat :: f in s.files <==> first <= f < first + count)
    && s.index.Keys == sd.Keys
    && (forall k :: k in sd ==> s.index[k] in s.files && k in s.files[s.index[k]] && s.files[s.index[k]][k] == sd[k])
    && (forall f, k :: f in s.files && k in s.files[f] ==> k in sd && s.index[k] == f)
  }

  /** The state of the loop after the files for the keys of `done`. */
  ghost predicate Partly<K, V>(s: Saved<K, V>, sd: map<K, V>, done: seq<K>, first: nat, count: nat) {
    && (forall k :: k in done ==> k in sd)
    && Stored(s, Pick(sd, done), first, count)
  }

  lemma StoredNext<K, V>(s: Saved<K, V>, have: map<K, V>, more: map<K, V>, first: nat, count: nat, index: map<K, nat>)
    requires Stored(s, have, first, count) && have.Keys !! more.Keys
    requires index.Keys == more.Keys && forall k :: k in index ==> index[k] == first + count
    ensures Stored(Saved(s.files[first + count := more], s.index + index), have + more, first, count + 1)
  {
  }

  lemma PartlyNext<K, V>(s: Saved<K, V>, sd: map<K, V>, done: seq<K>, first: nat, count: nat, more: seq<K>)
    requires Partly(s, sd, done, first, count)
    requires forall k :: k in more ==> k in sd && k !in done
    ensures Partly(Saved(s.files[first + count := Pick(sd, more)], s.index + AllTo(more, first + count)),
                   sd, done + more, first, count + 1)
  {
    assert Pick(sd, done + more) == Pick(sd, done) + Pick(sd, more);
    hide Stored;
    StoredNext(s, Pick(sd, done), Pick(sd, more), first, count, AllTo(more, first + count));
  }

  lemma NothingTo<K>(index: map<K, nat>, f: nat)
    ensures index + AllTo([], f) == index
  {
  }

  lemma OneMoreTo<K>(index: map<K, nat>, keys: seq<K>, i: nat, f: nat)
    requires i < |keys|
    ensures (index + AllTo(keys[..i], f))[keys[i] := f] == index + AllTo(keys[..i + 1], f)
  {
    assert forall k :: k in keys[..i + 1] <==> k in keys[..i] || k == keys[i];
  }

  /** `for k in keys: saves_indexes[k] = name` */
  method Register<K(==)>(index: map<K, nat>, keys: seq<K>, f: nat) returns (after: map<K, nat>)
    ensures after == index + AllTo(keys, f)
  {
    hide AllTo;
    after := index;
    NothingTo(index, f);
    for i := 0 to |keys|
      invariant after == index + AllTo(keys[..i], f)
    {
      OneMoreTo(index, keys, i, f);
      after := after[keys[i] := f];
    }
    assert keys[..|keys|] == keys;
  }

  lemma SectionIsNew<K>(keys: seq<K>, m: nat, i: nat)
    requires DistinctKeys(keys) && i < m
    ensures Start(|keys|, m, i) <= Start(|keys|, m, i + 1) <= |keys|
    ensures keys[..Start(|keys|, m, i + 1)] == keys[..Start(|keys|, m, i)] + Section(keys, m, i)
    ensures forall k :: k in Section(keys, m, i) ==> k in keys && k !in keys[..Start(|keys|, m, i)]
  {
    StartBound(|keys|, m, i);
    hide Start;
    var a, b := Start(|keys|, m, i), Start(|keys|, m, i + 1);
    forall k | k in Section(keys, m, i) ensures k in keys && k !in keys[..a] {
      var j :| 0 <= j < b - a && Section(keys, m, i)[j] == k;
      assert keys[a + j] == k;
    }
  }

  lemma SomeFiles(shard: nat, layers: nat)
    ensures shard * SavesPerLayer(layers) == 0 <==> shard == 0
  {
  }

  lemma NothingStored<K, V>(sd: map<K, V>, keys: seq<K>, first: nat)
    ensures Partly(Saved(map[], map[]), sd, keys[..0], first, 0)
  {
  }

  lemma AllStoredNow<K, V>(s: Saved<K, V>, sd: map<K, V>, keys: seq<K>, first: nat, count: nat)
    requires sd.Keys == (set k | k in keys) && Partly(s, sd, keys[..|keys|], first, count)
    ensures Stored(s, sd, first, count)
  {
    hide Stored;
    assert keys[..|keys|] == keys;
    assert forall k :: k in sd ==> k in sd.Keys && k in keys;
    assert Pick(sd, keys) == sd;
  }

  /** The keys of `file` are `keys`. */
  ghost predicate HasKeys<K, V>(file: map<K, V>, keys: seq<K>) {
    (forall k :: k in file ==> k in keys) && forall k :: k in keys ==> k in file
  }

  /** File number `i` of this rank has the keys of section `i`. */
  ghost predicate HasSection<K, V>(files: map<nat, map<K, V>>, keys: seq<K>, m: nat, first: nat, i: nat) {
    i < m && first + i in files && HasKeys(files[first + i], Section(keys, m, i))
  }

  /** The files `first`, `first + 1`, … so far have the keys of the sections. */
  ghost predicate Sectioned<K, V>(files: map<nat, map<K, V>>, keys: seq<K>, m: nat, first: nat, n: nat) {
    forall i :: 0 <= i < n ==> HasSection(files, keys, m, first, i)
  }

  lemma NothingSectioned<K, V>(files: map<nat, map<K, V>>, keys: seq<K>, m: nat, first: nat)
    ensures Sectioned(files, keys, m, first, 0)
  {
  }

  lemma PickHas<K, V>(sd: map<K, V>, keys: seq<K>)
    requires forall k :: k in keys ==> k in sd
    ensures HasKeys(Pick(sd, keys), keys)
  {
  }

  lemma SectionedNext<K, V>(files: map<nat, map<K, V>>, keys: seq<K>, m: nat, first: nat, n: nat, file: map<K, V>)
    requires n < m && Sectioned(files, keys, m, first, n) && HasKeys(file, Section(keys, m, n))
    ensures Sectioned(files[first + n := file], keys, m, first, n + 1)
  {
    hide HasKeys, Section;
    var after := files[first + n := file];
    forall i | 0 <= i < n + 1 ensures HasSection(after, keys, m, first, i) {
      assert i < n ==> HasSection(files, keys, m, first, i);
    }
  }

  /** File number `i` of this rank has as many keys as any other, or one more. */
  ghost predicate HasShare<K, V>(files: map<nat, map<K, V>>, total: nat, m: nat, first: nat, i: nat)
    requires m > 0
  {
    first + i in files && |files[first + i]| == total / m + if i < total % m then 1 else 0
  }

  /** Keys are filed in order, and every file has its even share of them. */
  ghost predicate FiledEvenly<K, V>(s: Saved<K, V>, keys: seq<K>, first: nat, m: nat)
    requires m > 0
  {
    && (forall j :: 0 <= j < |keys| ==> keys[j] in s.index)
    && (forall j, k :: 0 <= j < k < |keys| ==> s.index[keys[j]] <= s.index[keys[k]])
    && forall i :: 0 <= i < m ==> HasShare(s.files, |keys|, m, first, i)
  }

  lemma {:induction false} DistinctSize<K>(keys: seq<K>, ks: set<K>)
    requires DistinctKeys(keys) && forall k :: k in ks <==> k in keys
    ensures |ks| == |keys|
  {
    if keys == [] {
      assert ks == {};
    } else {
      var n := |keys| - 1;
      DistinctSize(keys[..n], ks - {keys[n]});
    }
  }

  lemma FileOfKey<K, V>(s: Saved<K, V>, sd: map<K, V>, keys: seq<K>, first: nat, m: nat, j: nat) returns (i: nat)
    requires m > 0 && Stored(s, sd, first, m) && Sectioned(s.files, keys, m, first, m) && j < |keys|
    ensures i < m && Start(|keys|, m, i) <= j < Start(|keys|, m, i + 1)
    ensures keys[j] in s.index && s.index[keys[j]] == first + i
  {
    StartEnd(|keys|, m);
    i := SectionWith(|keys|, m, j, m);
    StartBound(|keys|, m, i);
    hide Start;
    assert HasSection(s.files, keys, m, first, i);
    assert Section(keys, m, i)[j - Start(|keys|, m, i)] == keys[j];
    assert keys[j] in s.files[first + i];
  }

  lemma KeysInOrder<K, V>(s: Saved<K, V>, sd: map<K, V>, keys: seq<K>, first: nat, m: nat, j: nat, k: nat)
    requires m > 0 && Stored(s, sd, first, m) && Sectioned(s.files, keys, m, first, m) && j < k < |keys|
    ensures keys[j] in s.index && keys[k] in s.index && s.index[keys[j]] <= s.index[keys[k]]
  {
    hide Stored, Sectioned, Start;
    var a := FileOfKey(s, sd, keys, first, m, j);
    var b := FileOfKey(s, sd, keys, first, m, k);
    if b < a {
      StartMonotone(|keys|, m, b + 1, a);
    }
  }

  lemma FileSize<K, V>(s: Saved<K, V>, keys: seq<K>, first: nat, m: nat, i: nat)
    requires i < m && DistinctKeys(keys) && Sectioned(s.files, keys, m, first, m)
    ensures HasShare(s.files, |keys|, m, first, i)
  {
    assert HasSection(s.files, keys, m, first, i);
    StartBound(|keys|, m, i);
    SectionSize(keys, m, i);
    hide Start;
    DistinctSize(Section(keys, m, i), s.files[first + i].Keys);
  }

  lemma SectionsAreEven<K, V>(s: Saved<K, V>, sd: map<K, V>, keys: seq<K>, first: nat, m: nat)
    requires m > 0 && DistinctKeys(keys) && Stored(s, sd, first, m) && Sectioned(s.files, keys, m, first, m)
    ensures FiledEvenly(s, keys, first, m)
  {
    hide Stored, Sectioned, Start, Section, DistinctKeys;
    forall j | 0 <= j < |keys| ensures keys[j] in s.index {
      var i := FileOfKey(s, sd, keys, first, m, j);
    }
    forall j, k | 0 <= j < k < |keys| ensures s.index[keys[j]] <= s.index[keys[k]] {
      KeysInOrder(s, sd, keys, first, m, j, k);
    }
    forall i | 0 <= i < m ensures HasShare(s.files, |keys|, m, first, i) {
      FileSize(s, keys, first, m, i);
    }
  }

  /** Fails only for a rank without layers, for which the keys cannot be split into sections. */
  method SaveOwn<K(==), V>(sd: map<K, V>, keys: seq<K>, shards: seq<nat>, rank: nat, layers: nat)
    returns (r: Result<Saved<K, V>>)
    requires rank < |shards| && DistinctKeys(keys) && sd.Keys == set k | k in keys
    ensures r.ValueError? <==> shards[rank] == 0
    ensures r.Ok? ==> var saves := SavesPerLayer(layers);
                      Stored(r.value, sd, SumOf(shards[..rank]) * saves, shards[rank] * saves)
                      && shards[rank] * saves > 0
                      && FiledEvenly(r.value, keys, SumOf(shards[..rank]) * saves, shards[rank] * saves)
  {
    hide *;
    var first, m := SumOf(shards[..rank]) * SavesPerLayer(layers), shards[rank] * SavesPerLayer(layers);
    SomeFiles(shards[rank], layers);
    if m == 0 {
      return ValueError;
    }
    var files: map<nat, map<K, V>>, index: map<K, nat> := map[], map[];
    StartEnd(|keys|, m);
    NothingStored(sd, keys, first);
    NothingSectioned(files, keys, m, first);
    for i := 0 to m
      invariant Start(|keys|, m, i) <= |keys| && Sectioned(files, keys, m, first, i)
      invariant Partly(Saved(files, index), sd, keys[..Start(|keys|, m, i)], first, i)
    {
      SectionIsNew(keys, m, i);
      var section := Section(keys, m, i);
      PartlyNext(Saved(files, index), sd, keys[..Start(|keys|, m, i)], first, i, section);
      PickHas(sd, section);
      SectionedNext(files, keys, m, first, i, Pick(sd, section));
      files := files[first + i := Pick(sd, section)];
      index := Register(index, section, first + i);
    }
    AllStoredNow(Saved(files, index), sd, keys, first, m);
    SectionsAreEven(Saved(files, index), sd, keys, first, m);
    r := Ok(Saved(files, index));
  }

  // ---------------------------------------------------------------- all ranks

  /** `{k: v for i in all_save_indexes for k, v in i.items()}` */
  function WeightMap<K, V>(all: seq<Saved<K, V>>): map<K, nat> {
    if all == [] then map[] else WeightMap(all[..|all| - 1]) + all[|all| - 1].index
  }

  /** Every rank has written its files. */
  ghost predicate AllStored<K, V>(all: seq<Saved<K, V>>, sds: seq<map<K, V>>, shards: seq<nat>, saves: nat) {
    && |all| == |sds| == |shards|
    && forall r :: 0 <= r < |all| ==> Stored(all[r], sds[r], SumOf(shards[..r]) * saves, shards[r] * saves)
  }

  predicate Wrote<K, V>(all: seq<Saved<K, V>>, r: nat, f: nat) {
    r < |all| && f in all[r].files
  }

  /** The layer whose files include `f`. */
  function LayerOf(f: nat, saves: nat): nat
    requires saves > 0
  {
    f / saves
  }

  lemma Below(a: nat, q: nat, r: nat, n: nat)
    requires r < n
    ensures a * n <= q * n + r <==> a <= q
  {
    if a <= q {
      MulLe(a, q, n);
    } else {
      MulLe(q + 1, a, n);
    }
  }

  /** File `f` is among the files of the layers `a`, …, `a + n - 1`. */
  lemma Scaled(f: nat, saves: nat, a: nat, n: nat)
    requires saves > 0
    ensures a * saves <= f < a * saves + n * saves <==> a <= f / saves < a + n
  {
    var q, r := f / saves, f % saves;
    assert f == q * saves + r;
    assert a * saves + n * saves == (a + n) * saves;
    Below(a, q, r, saves);
    Below(a + n, q, r, saves);
  }

  lemma WroteLayer<K, V>(all: seq<Saved<K, V>>, sds: seq<map<K, V>>, shards: seq<nat>, saves: nat, r: nat, f: nat)
    requires AllStored(all, sds, shards, saves) && saves > 0 && r < |all|
    ensures r < |shards|
    ensures Wrote(all, r, f) <==> SumOf(shards[..r]) <= LayerOf(f, saves) < SumOf(shards[..r]) + shards[r]
  {
    assert Stored(all[r], sds[r], SumOf(shards[..r]) * saves, shards[r] * saves);
    hide SumOf;
    Scaled(f, saves, SumOf(shards[..r]), shards[r]);
  }

  /** A file written by rank `r` is one of a layer of rank `r`. */
  lemma WroteIsLayer<K, V>(all: seq<Saved<K, V>>, sds: seq<map<K, V>>, shards: seq<nat>, saves: nat, r: nat, f: nat)
    returns (l: nat)
    requires AllStored(all, sds, shards, saves) && saves > 0 && Wrote(all, r, f)
    ensures IsLayer(shards, r, l, LayerOf(f, saves)) && LayerOf(f, saves) < SumOf(shards)
  {
    WroteLayer(all, sds, shards, saves, r, f);
    hide SumOf, LayerOf, Stored, AllStored;
    l := LayerOf(f, saves) - SumOf(shards[..r]);
    SumGrows(shards, r, |shards|);
    assert shards[..|shards|] == shards;
  }

  lemma Lengths<K, V>(all: seq<Saved<K, V>>, sds: seq<map<K, V>>, shards: seq<nat>, saves: nat)
    requires AllStored(all, sds, shards, saves)
    ensures |all| == |sds| == |shards|
  {
  }

  lemma LayerIsWritten<K, V>(all: seq<Saved<K, V>>, sds: seq<map<K, V>>, shards: seq<nat>, saves: nat, f: nat)
    returns (r: nat)
    requires AllStored(all, sds, shards, saves) && saves > 0 && LayerOf(f, saves) < SumOf(shards)
    ensures Wrote(all, r, f)
  {
    Lengths(all, sds, shards, saves);
    hide SumOf, LayerOf, Stored, AllStored;
    var l;
    r, l := LayersTile(shards, LayerOf(f, saves));
    WroteLayer(all, sds, shards, saves, r, f);
  }

  /** The files of all ranks are 0, …, sum of the shards · saves - 1. */
  lemma FilesCover<K, V>(all: seq<Saved<K, V>>, sds: seq<map<K, V>>, shards: seq<nat>, saves: nat, f: nat)
    requires AllStored(all, sds, shards, saves) && saves > 0
    ensures (exists r: nat :: Wrote(all, r, f)) <==> f < SumOf(shards) * saves
  {
    Scaled(f, saves, 0, SumOf(shards));
    assert LayerOf(f, saves) < SumOf(shards) <==> f < SumOf(shards) * saves;
    hide *;
    if LayerOf(f, saves) < SumOf(shards) {
      var r := LayerIsWritten(all, sds, shards, saves, f);
    }
    if r: nat :| Wrote(all, r, f) {
      var l := WroteIsLayer(all, sds, shards, saves, r, f);
    }
  }

  lemma {:induction false} SumsAgree(ns: seq<nat>)
    ensures PipelineShards.Sum(ns) == SumOf(ns)
  {
    if ns != [] {
      var n := |ns| - 1;
      SumsAgree(ns[..n]);
      assert ns == ns[..n] + [ns[n]];
      PipelineShards.SumAppend(ns[..n], [ns[n]]);
      assert [ns[n]][1..] == [];
    }
  }

  /** The split of the model gives every rank a layer, so none fails to save, and gives out all layers. */
  lemma SplitSaves(shards: seq<nat>, layers: nat, pp: nat)
    requires PipelineShards.Solvable(layers, pp) && shards == PipelineShards.ChosenSplit(layers, pp)
    ensures |shards| == pp && SumOf(shards) == layers && forall r :: 0 <= r < pp ==> shards[r] > 0
  {
    PipelineShards.ChosenSplitCovers(layers, pp);
    SumsAgree(shards);
  }

  /** With the split of a model of `layers` layers the files are the `layers` times `saves_per_layer` that their names
    count, no more and no fewer. */
  lemma ModelFilesCover<K, V>(all: seq<Saved<K, V>>, sds: seq<map<K, V>>, shards: seq<nat>, layers: nat, pp: nat, f: nat)
    requires PipelineShards.Solvable(layers, pp) && shards == PipelineShards.ChosenSplit(layers, pp)
    requires AllStored(all, sds, shards, SavesPerLayer(layers))
    ensures (exists r: nat :: Wrote(all, r, f)) <==> f < if layers < 30 then layers else 2 * layers
  {
    SplitSaves(shards, layers, pp);
    hide AllStored, SumOf;
    FilesCover(all, sds, shards, SavesPerLayer(layers), f);
  }

  /** And no file is written by two ranks. */
  lemma FilesAreDisjoint<K, V>(all: seq<Saved<K, V>>, sds: seq<map<K, V>>, shards: seq<nat>, saves: nat,
                               r: nat, r': nat, f: nat)
    requires AllStored(all, sds, shards, saves) && saves > 0 && Wrote(all, r, f) && Wrote(all, r', f)
    ensures r == r'
  {
    hide *;
    var l := WroteIsLayer(all, sds, shards, saves, r, f);
    var l' := WroteIsLayer(all, sds, shards, saves, r', f);
    LayerIsOnce(shards, r, l, r', l', LayerOf(f, saves));
  }

  /** Rank `r` holds the parameter in file `f`. */
  predicate Holds<K, V>(all: seq<Saved<K, V>>, r: nat, f: nat, k: K) {
    r < |all| && f in all[r].files && k in all[r].files[f]
  }

  lemma HeldIsIndexed<K, V>(all: seq<Saved<K, V>>, sds: seq<map<K, V>>, shards: seq<nat>, saves: nat, r: nat, f: nat, k: K)
    requires AllStored(all, sds, shards, saves) && Holds(all, r, f, k)
    ensures r < |sds| && k in sds[r] && all[r].index.Keys == sds[r].Keys && all[r].index[k] == f
  {
    assert Stored(all[r], sds[r], SumOf(shards[..r]) * saves, shards[r] * saves);
  }

  lemma IndexedIsHeld<K, V>(all: seq<Saved<K, V>>, sds: seq<map<K, V>>, shards: seq<nat>, saves: nat, r: nat, k: K)
    requires AllStored(all, sds, shards, saves) && r < |all| == |sds| && k in sds[r]
    ensures all[r].index.Keys == sds[r].Keys && Holds(all, r, all[r].index[k], k)
    ensures all[r].files[all[r].index[k]][k] == sds[r][k]
  {
    assert Stored(all[r], sds[r], SumOf(shards[..r]) * saves, shards[r] * saves);
  }

  lemma IndexKeys<K, V>(all: seq<Saved<K, V>>, sds: seq<map<K, V>>, shards: seq<nat>, saves: nat)
    requires AllStored(all, sds, shards, saves)
    ensures |all| == |sds| && forall i :: 0 <= i < |all| ==> all[i].index.Keys == sds[i].Keys
  {
    forall i | 0 <= i < |all| ensures all[i].index.Keys == sds[i].Keys {
      assert Stored(all[i], sds[i], SumOf(shards[..i]) * saves, shards[i] * saves);
    }
  }

  /** `r` is the last rank with the parameter. */
  ghost predicate LastWith<K, V>(sds: seq<map<K, V>>, r: nat, k: K) {
    r < |sds| && k in sds[r] && forall r' :: r < r' < |sds| ==> k !in sds[r']
  }

  lemma {:induction false} WeightMapIs<K, V>(all: seq<Saved<K, V>>, sds: seq<map<K, V>>, r: nat, k: K)
    requires |all| == |sds| && (forall i :: 0 <= i < |all| ==> all[i].index.Keys == sds[i].Keys) && LastWith(sds, r, k)
    ensures k in WeightMap(all) && WeightMap(all)[k] == all[r].index[k]
  {
    var n := |all| - 1;
    if r < n {
      WeightMapIs(all[..n], sds[..n], r, k);
      assert k !in sds[n];
    }
  }

  /** The gathered weight map sends a parameter to the one file of the last rank with it that holds it; no other
    file of any rank holds it unless another rank has it too. */
  lemma WeightMapFindsFile<K, V>(all: seq<Saved<K, V>>, sds: seq<map<K, V>>, shards: seq<nat>, saves: nat, r: nat, k: K)
    requires AllStored(all, sds, shards, saves) && LastWith(sds, r, k)
    ensures k in WeightMap(all) && Holds(all, r, WeightMap(all)[k], k)
    ensures all[r].files[WeightMap(all)[k]][k] == sds[r][k]
    ensures forall r': nat, f: nat :: Holds(all, r', f, k) ==>
              r' < |sds| && k in sds[r'] && (r' == r ==> f == WeightMap(all)[k])
  {
    IndexKeys(all, sds, shards, saves);
    WeightMapIs(all, sds, r, k);
    IndexedIsHeld(all, sds, shards, saves, r, k);
    hide WeightMap, AllStored;
    forall r': nat, f: nat | Holds(all, r', f, k)
      ensures r' < |sds| && k in sds[r'] && (r' == r ==> f == WeightMap(all)[k])
    {
      HeldIsIndexed(all, sds, shards, saves, r', f, k);
    }
  }

  // ---------------------------------------------------------------- merged and saved

  /** Rank `r` has merged its own chunks `css[r]`, which have `nss[r]` layers and together those of its shard. */
  ghost predicate MergedByRank<T>(sds: seq<map<HfKey, T>>, shards: seq<nat>, css: seq<seq<Chunk<T>>>, nss: seq<seq<nat>>) {
    && |sds| == |shards| == |css| == |nss|
    && forall r :: 0 <= r < |sds| ==>
         WellFormed(css[r], nss[r]) && SumOf(nss[r]) == shards[r] && sds[r] == Merge(SumOf(shards[..r]), css[r])
  }

  lemma RankOfLayer<T>(sds: seq<map<HfKey, T>>, shards: seq<nat>, css: seq<seq<Chunk<T>>>, nss: seq<seq<nat>>,
                       r: nat, x: HfKey)
    requires MergedByRank(sds, shards, css, nss) && x.key.Layer? && r < |sds| && x in sds[r]
    ensures r < |shards| && SumOf(shards[..r]) <= x.key.no < SumOf(shards[..r]) + shards[r]
  {
    hide SumOf, Merge, WellFormed;
    assert HasNumber(sds[r], x.key.no);
    MergedLayers(SumOf(shards[..r]), css[r], nss[r], x.key.no);
  }

  /** A key with a layer number is merged by one rank only. */
  lemma LayerHasOneRank<T>(sds: seq<map<HfKey, T>>, shards: seq<nat>, css: seq<seq<Chunk<T>>>, nss: seq<seq<nat>>,
                           r: nat, r': nat, x: HfKey)
    requires MergedByRank(sds, shards, css, nss) && x.key.Layer?
    requires r < |sds| && r' < |sds| && x in sds[r] && x in sds[r']
    ensures r == r'
  {
    hide SumOf, Merge, WellFormed;
    RankOfLayer(sds, shards, css, nss, r, x);
    RankOfLayer(sds, shards, css, nss, r', x);
    var g := x.key.no;
    LayerIsOnce(shards, r, g - SumOf(shards[..r]), r', g - SumOf(shards[..r']), g);
  }

  lemma MergedEntry<T>(sds: seq<map<HfKey, T>>, shards: seq<nat>, css: seq<seq<Chunk<T>>>, nss: seq<seq<nat>>,
                       r: nat, k: nat, i: nat, x: HfKey, t: T)
    requires MergedByRank(sds, shards, css, nss) && r < |sds| && StoresAt(SumOf(shards[..r]), css[r], k, i, x, t)
    requires x.key.Layer? || !KeyLater(css[r], k, x.key)
    ensures x in sds[r] && sds[r][x] == t
  {
    hide SumOf, Merge, Outputs, KeyLater, Cum, StoresAt;
    MergeLosesNothing(SumOf(shards[..r]), css[r], x);
  }

  /** Layer `g` is merged by some rank exactly when the model has it. */
  lemma EveryLayerIsMerged<T>(sds: seq<map<HfKey, T>>, shards: seq<nat>, css: seq<seq<Chunk<T>>>, nss: seq<seq<nat>>,
                              layers: nat, pp: nat, g: nat)
    requires PipelineShards.Solvable(layers, pp) && shards == PipelineShards.ChosenSplit(layers, pp)
    requires MergedByRank(sds, shards, css, nss)
    ensures (exists r :: 0 <= r < |sds| && HasNumber(sds[r], g)) <==> g < layers
  {
    SplitSaves(shards, layers, pp);
    hide SumOf, Merge, WellFormed, HasNumber;
    if g < layers {
      var r, l := LayersTile(shards, g);
      MergedLayers(SumOf(shards[..r]), css[r], nss[r], g);
      assert HasNumber(sds[r], g);
    }
    if r :| 0 <= r < |sds| && HasNumber(sds[r], g) {
      MergedLayers(SumOf(shards[..r]), css[r], nss[r], g);
      SumGrows(shards, r, |shards|);
      assert shards[..|shards|] == shards;
    }
  }

  /** From the chunks to the files: the tensor that an entry of a chunk of some rank stores under a key with a layer
    number is what the only file with that key holds, and the weight map names that file. For a key without a
    number the same file holds it when no later chunk and no later rank has the key. */
  lemma CheckpointIsComplete<T>(all: seq<Saved<HfKey, T>>, sds: seq<map<HfKey, T>>, shards: seq<nat>, saves: nat,
                                css: seq<seq<Chunk<T>>>, nss: seq<seq<nat>>, r: nat, k: nat, i: nat, x: HfKey, t: T)
    requires AllStored(all, sds, shards, saves) && MergedByRank(sds, shards, css, nss)
    requires r < |sds| && StoresAt(SumOf(shards[..r]), css[r], k, i, x, t)
    requires x.key.Layer? || (!KeyLater(css[r], k, x.key) && LastWith(sds, r, x))
    ensures x in WeightMap(all) && Holds(all, r, WeightMap(all)[x], x)
    ensures all[r].files[WeightMap(all)[x]][x] == t
    ensures x.key.Layer? ==>
              forall r': nat, f: nat :: Holds(all, r', f, x) ==> r' == r && f == WeightMap(all)[x]
  {
    MergedEntry(sds, shards, css, nss, r, k, i, x, t);
    if x.key.Layer? {
      forall r' | 0 <= r' < |sds| && x in sds[r'] ensures r' == r {
        LayerHasOneRank(sds, shards, css, nss, r, r', x);
      }
    }
    hide SumOf, WeightMap, AllStored, MergedByRank, StoresAt, KeyLater, Cum, Holds;
    WeightMapFindsFile(all, sds, shards, saves, r, x);
  }
}
