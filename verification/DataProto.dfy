/** Batches of rows: a `DataProto` holds tensor columns of one length, non-tensor columns, and metadata. The non-tensor
  columns have the length of the tensor batch if there is one, and otherwise any lengths.
  The "metrics" entry of the metadata, which concatenation aggregates, is not part of the model. */
module DataProto {
  import opened Arithmetic
  import opened Prelude
  import opened Tensors

  type Key = string

  datatype Column<T> = Column(key: Key, rows: seq<T>)

  /** A TensorDict with one batch dimension. */
  datatype Batch<T> = Batch(size: nat, columns: seq<Column<T>>)

  datatype Data<T, V> = Data(batch: Option<Batch<T>>, nonTensor: seq<Column<T>>, meta: map<Key, V>)

  /** Without a batch the first column decides. */
  function Len<T, V>(d: Data<T, V>): nat {
    if d.batch.Some? then d.batch.value.size else if d.nonTensor != [] then |d.nonTensor[0].rows| else 0
  }

  predicate Full<T>(cs: seq<Column<T>>, n: nat) {
    forall i :: 0 <= i < |cs| ==> |cs[i].rows| == n
  }

  predicate DistinctKeys<T>(cs: seq<Column<T>>) {
    forall i, j :: 0 <= i < j < |cs| ==> cs[i].key != cs[j].key
  }

  /** Columns are dictionaries; what `check_consistency` and the TensorDict ask for. */
  predicate Valid<T, V>(d: Data<T, V>) {
    && DistinctKeys(d.nonTensor)
    && (d.batch.Some? ==>
          DistinctKeys(d.batch.value.columns) && Full(d.batch.value.columns, d.batch.value.size)
          && Full(d.nonTensor, d.batch.value.size))
  }

  // ---------------------------------------------------------------- slicing

  /** The slice `lo : lo + count`. */
  datatype Range = Range(lo: nat, count: nat)

  /** `rows[lo : lo + count]`, bounds clamped to the length. */
  function Cut<T>(rows: seq<T>, r: Range): seq<T> {
    rows[Min(r.lo, |rows|)..Min(r.lo + r.count, |rows|)]
  }

  function CutSize(n: nat, r: Range): nat {
    Min(r.lo + r.count, n) - Min(r.lo, n)
  }

  function SliceColumns<T>(cs: seq<Column<T>>, r: Range): seq<Column<T>> {
    seq(|cs|, i requires 0 <= i < |cs| => Column(cs[i].key, Cut(cs[i].rows, r)))
  }

  function Slice<T, V>(d: Data<T, V>, r: Range): Data<T, V> {
    var batch := match d.batch
                 case None => None
                 case Some(b) => Some(Batch(CutSize(b.size, r), SliceColumns(b.columns, r)));
    Data(batch, SliceColumns(d.nonTensor, r), d.meta)
  }

  function Slices<T, V>(d: Data<T, V>, rs: seq<Range>): seq<Data<T, V>> {
    seq(|rs|, i requires 0 <= i < |rs| => Slice(d, rs[i]))
  }

  // ---------------------------------------------------------------- concatenation

  function Lookup<T>(cs: seq<Column<T>>, key: Key): seq<T> {
    if cs == [] then [] else if cs[0].key == key then cs[0].rows else Lookup(cs[1..], key)
  }

  function Keys<T>(cs: seq<Column<T>>): set<Key> {
    set i | 0 <= i < |cs| :: cs[i].key
  }

  /** The rows of `key` in every dictionary that has it, one after another. */
  function CatOf<T>(all: seq<seq<Column<T>>>, key: Key): seq<T> {
    if all == [] then [] else CatOf(all[..|all| - 1], key) + Lookup(all[|all| - 1], key)
  }

  function ConcatColumns<T>(all: seq<seq<Column<T>>>): seq<Column<T>>
    requires all != []
  {
    seq(|all[0]|, i requires 0 <= i < |all[0]| => Column(all[0][i].key, CatOf(all, all[0][i].key)))
  }

  /** The metadata of all, unless two disagree on a key. */
  function MergeMeta<T, V(==)>(ds: seq<Data<T, V>>): Option<map<Key, V>> {
    if ds == [] then Some(map[])
    else
      var last := ds[|ds| - 1].meta;
      match MergeMeta(ds[..|ds| - 1])
      case None => None
      case Some(m) => if forall k :: k in m && k in last ==> m[k] == last[k] then Some(m + last) else None
  }

  function Sizes<T, V>(ds: seq<Data<T, V>>): nat {
    if ds == [] then 0
    else Sizes(ds[..|ds| - 1]) + match ds[|ds| - 1].batch case None => 0 case Some(b) => b.size
  }

  function BatchColumns<T>(b: Option<Batch<T>>): seq<Column<T>> {
    match b case None => [] case Some(v) => v.columns
  }

  function NonTensorColumns<T, V>(ds: seq<Data<T, V>>): seq<seq<Column<T>>> {
    seq(|ds|, i requires 0 <= i < |ds| => ds[i].nonTensor)
  }

  function TensorColumns<T, V>(ds: seq<Data<T, V>>): seq<seq<Column<T>>> {
    seq(|ds|, i requires 0 <= i < |ds| => BatchColumns(ds[i].batch))
  }

  /** All have a batch, with the same keys. */
  predicate SameBatchKeys<T, V>(ds: seq<Data<T, V>>)
    requires ds != []
  {
    forall i :: 0 <= i < |ds| ==>
      ds[i].batch.Some? && Keys(BatchColumns(ds[i].batch)) == Keys(BatchColumns(ds[0].batch))
  }

  predicate NoNewKeys<T, V>(ds: seq<Data<T, V>>)
    requires ds != []
  {
    forall i :: 0 <= i < |ds| ==> Keys(ds[i].nonTensor) <= Keys(ds[0].nonTensor)
  }

  /** The tensor part is taken from all batches, which need equal keys, when the first has one; non-tensor keys
    have to occur in the first; and the parts have to agree in length and metadata. */
  function Concat<T, V(==)>(ds: seq<Data<T, V>>): Result<Data<T, V>> {
    if ds == [] then IndexError
    else if ds[0].batch.Some? && !SameBatchKeys(ds) then KeyError
    else if !NoNewKeys(ds) then AssertionError
    else
      var batch := if ds[0].batch.None? then None else Some(Batch(Sizes(ds), ConcatColumns(TensorColumns(ds))));
      var nonTensor := ConcatColumns(NonTensorColumns(ds));
      match MergeMeta(ds)
      case None => AssertionError
      case Some(meta) =>
        if batch.Some? && !Full(nonTensor, batch.value.size) then AssertionError else Ok(Data(batch, nonTensor, meta))
  }

  // ---------------------------------------------------------------- concatenation of any data

  /** The metadata merges exactly when no two give a key different values, and then has what any of them has. */
  lemma {:induction false} MergeMetaIs<T, V>(ds: seq<Data<T, V>>, key: Key)
    ensures MergeMeta(ds).None? ==>
              exists i, j, k :: 0 <= i < j < |ds| && k in ds[i].meta && k in ds[j].meta && ds[i].meta[k] != ds[j].meta[k]
    ensures MergeMeta(ds).Some? ==>
              forall i :: 0 <= i < |ds| && key in ds[i].meta ==>
                key in MergeMeta(ds).value && MergeMeta(ds).value[key] == ds[i].meta[key]
    ensures MergeMeta(ds).Some? && key in MergeMeta(ds).value ==> exists i :: 0 <= i < |ds| && key in ds[i].meta
  {
    if ds != [] {
      var n := |ds| - 1;
      MergeMetaIs(ds[..n], key);
      var before := MergeMeta(ds[..n]);
      if before.Some? && MergeMeta(ds).None? {
        var k :| k in before.value && k in ds[n].meta && before.value[k] != ds[n].meta[k];
        MergeMetaIs(ds[..n], k);
        var i :| 0 <= i < n && k in ds[i].meta;
        assert ds[i].meta[k] != ds[n].meta[k];
      }
    }
  }

  /** Where row `j` of the data at `i` is in a concatenated column. */
  lemma {:induction false} CatOfAt<T>(all: seq<seq<Column<T>>>, key: Key, i: nat, j: nat)
    requires i < |all| && j < |Lookup(all[i], key)|
    ensures var at := |CatOf(all[..i], key)| + j;
            at < |CatOf(all, key)| && CatOf(all, key)[at] == Lookup(all[i], key)[j]
  {
    if i < |all| - 1 {
      CatOfAt(all[..|all| - 1], key, i, j);
      assert all[..|all| - 1][..i] == all[..i];
    }
  }

  /** The parts of the first have the column, or the data is refused. */
  predicate HasColumn<T>(cs: seq<Column<T>>, key: Key) {
    exists c :: 0 <= c < |cs| && cs[c].key == key
  }

  /** The rows before those of the data at `i`. */
  function RowsBefore<T>(all: seq<seq<Column<T>>>, key: Key, i: nat): nat
    requires i <= |all|
  {
    if i == 0 then 0 else RowsBefore(all, key, i - 1) + |Lookup(all[i - 1], key)|
  }

  lemma {:induction false} CatOfLength<T>(all: seq<seq<Column<T>>>, key: Key, i: nat)
    requires i <= |all|
    ensures |CatOf(all[..i], key)| == RowsBefore(all, key, i)
  {
    if i > 0 {
      CatOfLength(all, key, i - 1);
      assert all[..i][..i - 1] == all[..i - 1];
    }
  }

  lemma {:induction false} LookupAt<T>(cs: seq<Column<T>>, i: nat)
    requires i < |cs| && DistinctKeys(cs)
    ensures Lookup(cs, cs[i].key) == cs[i].rows
  {
    if i > 0 {
      LookupAt(cs[1..], i - 1);
    }
  }

  /** Column `c` of concatenated columns has the key of the first, and the rows of all with that key in turn. */
  lemma ConcatColumnIs<T>(all: seq<seq<Column<T>>>, c: nat, i: nat, d: nat, j: nat)
    requires all != [] && c < |all[0]| && i < |all| && DistinctKeys(all[i])
    requires d < |all[i]| && all[i][d].key == all[0][c].key && j < |all[i][d].rows|
    ensures |ConcatColumns(all)| == |all[0]| && ConcatColumns(all)[c].key == all[0][c].key
    ensures |ConcatColumns(all)[c].rows| == RowsBefore(all, all[0][c].key, |all|)
    ensures var at := RowsBefore(all, all[0][c].key, i) + j;
            at < |ConcatColumns(all)[c].rows| && ConcatColumns(all)[c].rows[at] == all[i][d].rows[j]
  {
    var key := all[0][c].key;
    LookupAt(all[i], d);
    CatOfAt(all, key, i, j);
    CatOfLength(all, key, i);
    CatOfLength(all, key, |all|);
    assert all[..|all|] == all;
  }

  lemma HasColumnIs<T>(cs: seq<Column<T>>, key: Key)
    ensures HasColumn(cs, key) <==> key in Keys(cs)
  {
  }

  lemma DiffersIn<T>(a: seq<Column<T>>, b: seq<Column<T>>) returns (key: Key)
    requires Keys(a) != Keys(b)
    ensures HasColumn(a, key) != HasColumn(b, key)
  {
    key :| (key in Keys(a)) != (key in Keys(b));
    HasColumnIs(a, key);
    HasColumnIs(b, key);
  }

  /** Concatenation fails for no data, for batches of which only some exist or that differ in their keys, for a
    non-tensor key that the first does not have, and for metadata that disagrees. */
  lemma ConcatFails<T, V>(ds: seq<Data<T, V>>)
    ensures Concat(ds) == IndexError <==> ds == []
    ensures Concat(ds) == KeyError ==>
              exists i :: 0 < i < |ds| && ds[0].batch.Some?
                          && (ds[i].batch.Some? ==>
                                exists key :: HasColumn(ds[0].batch.value.columns, key) != HasColumn(ds[i].batch.value.columns, key))
    ensures Concat(ds).Ok? ==>
              && (Concat(ds).value.batch.Some? <==> ds[0].batch.Some?)
              && forall i, key :: 0 <= i < |ds| && ds[0].batch.Some? ==>
                   ds[i].batch.Some? && (HasColumn(ds[0].batch.value.columns, key) <==> HasColumn(ds[i].batch.value.columns, key))
    ensures Concat(ds).Ok? ==>
              forall i, key :: 0 <= i < |ds| && HasColumn(ds[i].nonTensor, key) ==> HasColumn(ds[0].nonTensor, key)
    ensures Concat(ds) == AssertionError ==>
              || (exists i, key :: 0 < i < |ds| && HasColumn(ds[i].nonTensor, key) && !HasColumn(ds[0].nonTensor, key))
              || MergeMeta(ds).None?
              || (ds[0].batch.Some? && !Full(ConcatColumns(NonTensorColumns(ds)), Sizes(ds)))
    ensures Concat(ds).Ok? ==> MergeMeta(ds) == Some(Concat(ds).value.meta)
  {
    hide HasColumn, Keys, MergeMeta, ConcatColumns, Sizes, Full;
    if ds != [] && ds[0].batch.Some? && !SameBatchKeys(ds) {
      var i :| 0 <= i < |ds|
               && (ds[i].batch.None? || Keys(BatchColumns(ds[i].batch)) != Keys(BatchColumns(ds[0].batch)));
      if ds[i].batch.Some? {
        var key := DiffersIn(ds[0].batch.value.columns, ds[i].batch.value.columns);
      }
    }
    if ds != [] && !NoNewKeys(ds) {
      var i :| 0 <= i < |ds| && !(Keys(ds[i].nonTensor) <= Keys(ds[0].nonTensor));
      var key :| key in Keys(ds[i].nonTensor) && key !in Keys(ds[0].nonTensor);
      HasColumnIs(ds[0].nonTensor, key);
      HasColumnIs(ds[i].nonTensor, key);
    }
    if Concat(ds).Ok? {
      forall i, key | 0 <= i < |ds| && ds[0].batch.Some?
        ensures ds[i].batch.Some?
        ensures HasColumn(ds[0].batch.value.columns, key) <==> HasColumn(ds[i].batch.value.columns, key)
      {
        HasColumnIs(ds[0].batch.value.columns, key);
        HasColumnIs(ds[i].batch.value.columns, key);
      }
      forall i, key | 0 <= i < |ds| && HasColumn(ds[i].nonTensor, key) ensures HasColumn(ds[0].nonTensor, key) {
        HasColumnIs(ds[0].nonTensor, key);
        HasColumnIs(ds[i].nonTensor, key);
      }
    }
  }

  lemma {:induction false} BatchesTogether<T, V>(ds: seq<Data<T, V>>, key: Key)
    requires forall i :: 0 <= i < |ds| ==> Valid(ds[i]) && ds[i].batch.Some? && HasColumn(ds[i].batch.value.columns, key)
    ensures |CatOf(TensorColumns(ds), key)| == Sizes(ds)
  {
    if ds != [] {
      var n := |ds| - 1;
      BatchesTogether(ds[..n], key);
      assert TensorColumns(ds)[..n] == TensorColumns(ds[..n]);
      var cs := ds[n].batch.value.columns;
      var c :| 0 <= c < |cs| && cs[c].key == key;
      LookupAt(cs, c);
    }
  }

  /** Concatenating valid data gives valid data. */
  lemma ConcatIsValid<T, V>(ds: seq<Data<T, V>>)
    requires Concat(ds).Ok? && forall i :: 0 <= i < |ds| ==> Valid(ds[i])
    ensures Valid(Concat(ds).value)
  {
    ConcatFails(ds);
    hide HasColumn, CatOf, Sizes, MergeMeta;
    if ds[0].batch.Some? {
      var cs := ds[0].batch.value.columns;
      forall c | 0 <= c < |cs| ensures |CatOf(TensorColumns(ds), cs[c].key)| == Sizes(ds) {
        HasColumnIs(cs, cs[c].key);
        BatchesTogether(ds, cs[c].key);
      }
    }
  }

  // ---------------------------------------------------------------- concatenating slices of one batch

  /** The rows that the slices pick. */
  function Pick<T>(rows: seq<T>, rs: seq<Range>): seq<T> {
    if rs == [] then [] else Pick(rows, rs[..|rs| - 1]) + Cut(rows, rs[|rs| - 1])
  }

  function Total(rs: seq<Range>, n: nat): nat {
    if rs == [] then 0 else Total(rs[..|rs| - 1], n) + CutSize(n, rs[|rs| - 1])
  }

  function PickColumns<T>(cs: seq<Column<T>>, rs: seq<Range>): seq<Column<T>> {
    seq(|cs|, i requires 0 <= i < |cs| => Column(cs[i].key, Pick(cs[i].rows, rs)))
  }

  /** Every column with the picked rows. */
  function Gather<T, V>(d: Data<T, V>, rs: seq<Range>): Data<T, V> {
    var batch := match d.batch
                 case None => None
                 case Some(b) => Some(Batch(Total(rs, b.size), PickColumns(b.columns, rs)));
    Data(batch, PickColumns(d.nonTensor, rs), d.meta)
  }

  lemma {:induction false} PickLength<T>(rows: seq<T>, rs: seq<Range>)
    ensures |Pick(rows, rs)| == Total(rs, |rows|)
  {
    if rs != [] {
      PickLength(rows, rs[..|rs| - 1]);
    }
  }

  /** The columns of the slices, for either kind of column. */
  function ColumnSlices<T>(cs: seq<Column<T>>, rs: seq<Range>): seq<seq<Column<T>>> {
    seq(|rs|, i requires 0 <= i < |rs| => SliceColumns(cs, rs[i]))
  }

  lemma {:induction false} CatOfSlices<T>(cs: seq<Column<T>>, rs: seq<Range>, i: nat)
    requires DistinctKeys(cs) && i < |cs|
    ensures CatOf(ColumnSlices(cs, rs), cs[i].key) == Pick(cs[i].rows, rs)
  {
    hide Cut;
    if rs != [] {
      var k := |rs| - 1;
      CatOfSlices(cs, rs[..k], i);
      assert ColumnSlices(cs, rs)[..k] == ColumnSlices(cs, rs[..k]);
      LookupAt(SliceColumns(cs, rs[k]), i);
    }
  }

  lemma SameKeys<T>(a: seq<Column<T>>, b: seq<Column<T>>)
    requires |a| == |b| && forall j :: 0 <= j < |a| ==> a[j].key == b[j].key
    ensures Keys(a) == Keys(b)
  {
    assert forall j :: 0 <= j < |a| ==> a[j].key in Keys(b) && b[j].key in Keys(a);
  }

  lemma ConcatOfColumnSlices<T>(cs: seq<Column<T>>, rs: seq<Range>)
    requires DistinctKeys(cs) && rs != []
    ensures ConcatColumns(ColumnSlices(cs, rs)) == PickColumns(cs, rs)
    ensures forall i :: 0 <= i < |rs| ==> Keys(ColumnSlices(cs, rs)[i]) == Keys(cs)
  {
    hide CatOf, Pick, Cut;
    forall i | 0 <= i < |cs| ensures ConcatColumns(ColumnSlices(cs, rs))[i] == PickColumns(cs, rs)[i] {
      CatOfSlices(cs, rs, i);
    }
    forall i | 0 <= i < |rs| ensures Keys(ColumnSlices(cs, rs)[i]) == Keys(cs) {
      var s := SliceColumns(cs, rs[i]);
      assert forall j :: 0 <= j < |cs| ==> s[j].key == cs[j].key;
      SameKeys(s, cs);
    }
  }

  lemma FullPick<T>(cs: seq<Column<T>>, rs: seq<Range>, n: nat)
    requires Full(cs, n)
    ensures Full(PickColumns(cs, rs), Total(rs, n))
  {
    hide Pick, Total;
    forall i | 0 <= i < |cs| ensures |PickColumns(cs, rs)[i].rows| == Total(rs, n) {
      PickLength(cs[i].rows, rs);
    }
  }

  lemma {:induction false} SameMeta<T, V>(ds: seq<Data<T, V>>, meta: map<Key, V>)
    requires ds != [] && forall i :: 0 <= i < |ds| ==> ds[i].meta == meta
    ensures MergeMeta(ds) == Some(meta)
  {
    if |ds| > 1 {
      SameMeta(ds[..|ds| - 1], meta);
      assert meta + meta == meta;
    } else {
      assert ds[..0] == [];
      assert map[] + meta == meta;
    }
  }

  lemma {:induction false} SliceSizes<T, V>(d: Data<T, V>, rs: seq<Range>)
    requires d.batch.Some?
    ensures Sizes(Slices(d, rs)) == Total(rs, d.batch.value.size)
  {
    hide CutSize, SliceColumns;
    if rs != [] {
      SliceSizes(d, rs[..|rs| - 1]);
      assert Slices(d, rs)[..|rs| - 1] == Slices(d, rs[..|rs| - 1]);
    }
  }

  lemma SliceColumnLists<T, V>(d: Data<T, V>, rs: seq<Range>)
    ensures NonTensorColumns(Slices(d, rs)) == ColumnSlices(d.nonTensor, rs)
    ensures d.batch.Some? ==> TensorColumns(Slices(d, rs)) == ColumnSlices(d.batch.value.columns, rs)
    ensures forall i :: 0 <= i < |rs| ==> Slices(d, rs)[i].meta == d.meta && Slices(d, rs)[i].batch.Some? == d.batch.Some?
  {
    hide CutSize, SliceColumns;
  }

  /** Concatenating slices of a batch gathers the sliced rows in every column. */
  lemma ConcatOfSlices<T, V>(d: Data<T, V>, rs: seq<Range>)
    requires Valid(d) && rs != []
    ensures Concat(Slices(d, rs)) == Ok(Gather(d, rs))
  {
    var ds := Slices(d, rs);
    SliceColumnLists(d, rs);
    ConcatOfColumnSlices(d.nonTensor, rs);
    SameMeta(ds, d.meta);
    if d.batch.Some? {
      ConcatOfColumnSlices(d.batch.value.columns, rs);
      SliceSizes(d, rs);
      FullPick(d.nonTensor, rs, d.batch.value.size);
    }
    hide ConcatColumns, MergeMeta, Sizes, Keys, SliceColumns, PickColumns, ColumnSlices, Total, Slice, Full;
    assert forall i :: 0 <= i < |ds| ==> ds[i].nonTensor == NonTensorColumns(ds)[i];
    assert d.batch.Some? ==> forall i :: 0 <= i < |ds| ==> BatchColumns(ds[i].batch) == TensorColumns(ds)[i];
  }

  // ---------------------------------------------------------------- contiguous ranges

  /** The ranges cover `0..end` without gap or overlap. */
  predicate Consecutive(rs: seq<Range>, end: nat) {
    if rs == [] then end == 0
    else
      var last := rs[|rs| - 1];
      last.lo + last.count == end && Consecutive(rs[..|rs| - 1], last.lo)
  }

  lemma CutAfter<T>(rows: seq<T>, r: Range)
    ensures rows[..Min(r.lo, |rows|)] + Cut(rows, r) == rows[..Min(r.lo + r.count, |rows|)]
  {
  }

  lemma {:induction false} PickConsecutive<T>(rows: seq<T>, rs: seq<Range>, end: nat)
    requires Consecutive(rs, end)
    ensures Pick(rows, rs) == rows[..Min(end, |rows|)]
  {
    hide Cut;
    if rs != [] {
      PickConsecutive(rows, rs[..|rs| - 1], rs[|rs| - 1].lo);
      CutAfter(rows, rs[|rs| - 1]);
    }
  }

  lemma TotalConsecutive(rs: seq<Range>, end: nat, n: nat)
    requires Consecutive(rs, end)
    ensures Total(rs, n) == Min(end, n)
  {
    hide Pick, Consecutive, Total;
    var rows := seq(n, _ => 0);
    PickConsecutive(rows, rs, end);
    PickLength(rows, rs);
  }

  /** No column has more than `end` rows. */
  predicate AtMost<T, V>(d: Data<T, V>, end: nat) {
    (d.batch.Some? ==> d.batch.value.size <= end) && forall i :: 0 <= i < |d.nonTensor| ==> |d.nonTensor[i].rows| <= end
  }

  lemma PickAll<T>(cs: seq<Column<T>>, rs: seq<Range>, end: nat)
    requires Consecutive(rs, end)
    ensures PickColumns(cs, rs) == cs <==> forall i :: 0 <= i < |cs| ==> |cs[i].rows| <= end
  {
    hide Pick, Consecutive;
    forall i | 0 <= i < |cs|
      ensures PickColumns(cs, rs)[i].rows == cs[i].rows[..Min(end, |cs[i].rows|)] && PickColumns(cs, rs)[i].key == cs[i].key
    {
      PickConsecutive(cs[i].rows, rs, end);
    }
    if PickColumns(cs, rs) == cs {
      forall i | 0 <= i < |cs| ensures |cs[i].rows| <= end {
        assert |PickColumns(cs, rs)[i].rows| <= end;
      }
    }
    if forall i :: 0 <= i < |cs| ==> |cs[i].rows| <= end {
      forall i | 0 <= i < |cs| ensures PickColumns(cs, rs)[i] == cs[i] {
        assert PickColumns(cs, rs)[i].rows == cs[i].rows;
      }
    }
  }

  /** Consecutive slices together are the batch exactly when they reach the end of every column. */
  lemma GatherAll<T, V>(d: Data<T, V>, rs: seq<Range>, end: nat)
    requires Valid(d) && Consecutive(rs, end)
    ensures Gather(d, rs) == d <==> AtMost(d, end)
  {
    hide Pick, Total, Consecutive, PickColumns;
    PickAll(d.nonTensor, rs, end);
    if d.batch.Some? {
      PickAll(d.batch.value.columns, rs, end);
      TotalConsecutive(rs, end, d.batch.value.size);
    }
  }

  // ---------------------------------------------------------------- chunk and split

  /** `0 : step`, `step : 2 step`, …, `m` of them. */
  function Steps(m: nat, step: nat): seq<Range> {
    if m == 0 then [] else Steps(m - 1, step) + [Range((m - 1) * step, step)]
  }

  lemma OneStepMore(m: nat, step: nat)
    ensures (m - 1) * step + step == m * step
  {
  }

  lemma {:induction false} StepsCover(m: nat, step: nat)
    ensures |Steps(m, step)| == m && Consecutive(Steps(m, step), m * step)
  {
    if m > 0 {
      StepsCover(m - 1, step);
      OneStepMore(m, step);
    }
  }

  /** `range(0, n, step)` reaches `n`. */
  lemma StepsReach(n: nat, step: nat)
    requires step > 0
    ensures n <= CeilDiv(n, step) * step && (CeilDiv(n, step) == 0 <==> n == 0)
  {
    if n == 0 {
      Quotient(step - 1, step, 0);
    } else {
      CeilDivRange(n, step);
    }
  }

  lemma SectionsNone<T>(cs: seq<Column<T>>, k: nat)
    requires k > 0
    ensures forall i :: 0 <= i < |cs| ==> Start(|cs[i].rows|, k, 0) == 0 && Start(|cs[i].rows|, k, k) == |cs[i].rows|
  {
    forall i | 0 <= i < |cs| ensures Start(|cs[i].rows|, k, 0) == 0 && Start(|cs[i].rows|, k, k) == |cs[i].rows| {
      StartEnd(|cs[i].rows|, k);
    }
  }

  /** Section `i` of `k` of every column, each divided by its own length. */
  function SectionColumns<T>(cs: seq<Column<T>>, k: nat, i: nat): seq<Column<T>>
    requires i < k
  {
    seq(|cs|, c requires 0 <= c < |cs| => Column(cs[c].key, Section(cs[c].rows, k, i)))
  }

  function AllSections<T>(cs: seq<Column<T>>, k: nat, m: nat): seq<seq<Column<T>>>
    requires m <= k
  {
    seq(m, i requires 0 <= i < m => SectionColumns(cs, k, i))
  }

  lemma SectionNext<T>(rows: seq<T>, k: nat, i: nat)
    requires i < k
    ensures Start(|rows|, k, i) <= Start(|rows|, k, i + 1) <= |rows|
    ensures rows[..Start(|rows|, k, i + 1)] == rows[..Start(|rows|, k, i)] + Section(rows, k, i)
  {
    StartBound(|rows|, k, i);
    hide Start;
  }

  lemma {:induction false} CatOfSections<T>(cs: seq<Column<T>>, k: nat, m: nat, c: nat)
    requires DistinctKeys(cs) && c < |cs| && m <= k && k > 0
    ensures Start(|cs[c].rows|, k, m) <= |cs[c].rows|
    ensures CatOf(AllSections(cs, k, m), cs[c].key) == cs[c].rows[..Start(|cs[c].rows|, k, m)]
  {
    hide Start, Section;
    if m > 0 {
      CatOfSections(cs, k, m - 1, c);
      SectionNext(cs[c].rows, k, m - 1);
      assert AllSections(cs, k, m)[..m - 1] == AllSections(cs, k, m - 1);
      LookupAt(SectionColumns(cs, k, m - 1), c);
    } else {
      StartEnd(|cs[c].rows|, k);
    }
  }

  /** `np.array_split` of every column, for data without a batch. */
  function SectionsOf<T, V>(d: Data<T, V>, k: nat): seq<Data<T, V>> {
    seq(k, i requires 0 <= i < k => Data(None, SectionColumns(d.nonTensor, k, i), d.meta))
  }

  lemma ConcatOfSections<T, V>(d: Data<T, V>, k: nat)
    requires Valid(d) && d.batch.None? && k > 0
    ensures Concat(SectionsOf(d, k)) == Ok(d)
  {
    var ds, cs := SectionsOf(d, k), d.nonTensor;
    SameMeta(ds, d.meta);
    SectionsNone(cs, k);
    assert NonTensorColumns(ds) == AllSections(cs, k, k);
    forall c | 0 <= c < |cs| ensures ConcatColumns(AllSections(cs, k, k))[c] == cs[c] {
      CatOfSections(cs, k, k, c);
    }
    assert ConcatColumns(AllSections(cs, k, k)) == cs;
    forall i | 0 <= i < k ensures Keys(ds[i].nonTensor) == Keys(cs) {
      hide Section;
      assert forall j :: 0 <= j < |cs| ==> SectionColumns(cs, k, i)[j].key == cs[j].key;
      SameKeys(SectionColumns(cs, k, i), cs);
    }
    hide ConcatColumns, MergeMeta, Keys, SectionColumns, AllSections, Start;
  }

  /** The slices of a batch that `torch.chunk` cuts. */
  function Cuts(n: nat, k: nat): seq<Range>
    requires n > 0 && k > 0
  {
    CeilDivRange(n, k);
    Steps(CeilDiv(n, CeilDiv(n, k)), CeilDiv(n, k))
  }

  /** Chunks of a batch; with padding enabled the rows need not divide evenly. */
  function Chunks<T, V>(d: Data<T, V>, k: nat, padding: bool): Result<seq<Data<T, V>>>
    requires Valid(d) && (d.batch.Some? ==> Len(d) > 0)
  {
    if k == 0 then
      if !padding then ZeroDivisionError else if d.batch.None? && d.nonTensor == [] then Ok([]) else ValueError
    else if !padding && Len(d) % k != 0 then AssertionError
    else if d.batch.None? then Ok(SectionsOf(d, k))
    else
      var rs := Cuts(Len(d), k);
      if |rs| != k then (if d.nonTensor == [] then IndexError else AssertionError) else Ok(Slices(d, rs))
  }

  lemma CutsCover(n: nat, k: nat)
    requires n > 0 && k > 0
    ensures CeilDiv(n, k) > 0 && |Cuts(n, k)| == CeilDiv(n, CeilDiv(n, k)) > 0
    ensures exists end: nat :: Consecutive(Cuts(n, k), end) && n <= end
  {
    CeilDivRange(n, k);
    var step := CeilDiv(n, k);
    StepsReach(n, step);
    StepsCover(CeilDiv(n, step), step);
  }

  lemma EvenPieces(n: nat, k: nat)
    requires n > 0 && k > 0 && n % k == 0
    ensures CeilDiv(n, k) > 0 && CeilDiv(n, CeilDiv(n, k)) == k
  {
    var c := n / k;
    assert n == k * c;
    CeilDivExact(k, c);
    assert n == c * k;
    CeilDivExact(c, k);
  }

  /** Chunking succeeds exactly when the rows divide evenly or, with padding enabled, when there is no batch or
    pieces of the rounded-up size are as many as requested; and then concatenation undoes it. */
  lemma ConcatUndoesChunks<T, V>(d: Data<T, V>, k: nat, padding: bool)
    requires Valid(d) && k > 0 && (d.batch.Some? ==> Len(d) > 0)
    ensures Chunks(d, k, padding).Ok? <==>
              if !padding then Len(d) % k == 0
              else d.batch.None? || (CeilDivRange(Len(d), k); CeilDiv(Len(d), CeilDiv(Len(d), k)) == k)
    ensures Chunks(d, k, padding).Ok? ==>
              |Chunks(d, k, padding).value| == k && Concat(Chunks(d, k, padding).value) == Ok(d)
  {
    if d.batch.None? {
      ConcatOfSections(d, k);
    } else {
      var n := Len(d);
      CutsCover(n, k);
      if n % k == 0 {
        EvenPieces(n, k);
      }
      var end: nat :| Consecutive(Cuts(n, k), end) && n <= end;
      hide Cuts, Consecutive, Concat, Slices, Gather, CeilDiv;
      ConcatOfSlices(d, Cuts(n, k));
      GatherAll(d, Cuts(n, k), end);
    }
  }

  /** `[self[i : i + split_size] for i in range(0, len(self), split_size)]` */
  function Split<T, V>(d: Data<T, V>, size: nat): Result<seq<Data<T, V>>> {
    if size == 0 then ValueError else Ok(Slices(d, Steps(CeilDiv(Len(d), size), size)))
  }

  /** Concatenation undoes splitting if and only if there are rows and the last split reaches the end of every column:
    always with a batch, and without one unless a column is that much longer than the first. */
  lemma ConcatUndoesSplit<T, V>(d: Data<T, V>, size: nat)
    requires Valid(d) && size > 0
    ensures Split(d, size).Ok?
    ensures Len(d) == 0 ==> Concat(Split(d, size).value) == IndexError
    ensures Len(d) > 0 ==> Concat(Split(d, size).value).Ok?
    ensures Len(d) > 0 ==> (Concat(Split(d, size).value) == Ok(d) <==> AtMost(d, CeilDiv(Len(d), size) * size))
    ensures Len(d) > 0 && Full(d.nonTensor, Len(d)) ==> Concat(Split(d, size).value) == Ok(d)
  {
    var m := CeilDiv(Len(d), size);
    StepsReach(Len(d), size);
    StepsCover(m, size);
    if Len(d) > 0 {
      ConcatOfSlices(d, Steps(m, size));
      GatherAll(d, Steps(m, size), m * size);
    } else {
      assert Slices(d, Steps(m, size)) == [];
    }
    hide Concat, Gather, CeilDiv, Consecutive;
  }

  // ---------------------------------------------------------------- which rows a piece has

  /** `p` has rows `lo`, …, `hi - 1` of each column, as far as there are such. */
  ghost predicate AreRows<T>(p: seq<Column<T>>, cs: seq<Column<T>>, lo: nat, hi: nat)
    requires lo <= hi
  {
    |p| == |cs| && forall c :: 0 <= c < |cs| ==>
      p[c].key == cs[c].key && p[c].rows == cs[c].rows[Min(lo, |cs[c].rows|)..Min(hi, |cs[c].rows|)]
  }

  ghost predicate IsPiece<T, V>(p: Data<T, V>, d: Data<T, V>, lo: nat, hi: nat)
    requires lo <= hi
  {
    && p.meta == d.meta && AreRows(p.nonTensor, d.nonTensor, lo, hi) && (p.batch.Some? <==> d.batch.Some?)
    && (d.batch.Some? ==> p.batch.value.size == Min(hi, d.batch.value.size) - Min(lo, d.batch.value.size)
                          && AreRows(p.batch.value.columns, d.batch.value.columns, lo, hi))
  }

  lemma SliceIsPiece<T, V>(d: Data<T, V>, r: Range)
    ensures IsPiece(Slice(d, r), d, r.lo, r.lo + r.count)
  {
  }

  lemma {:induction false} StepAt(m: nat, step: nat, i: nat)
    requires i < m
    ensures |Steps(m, step)| == m && Steps(m, step)[i] == Range(i * step, step)
  {
    StepsCover(m, step);
    if i < m - 1 {
      StepsCover(m - 1, step);
      StepAt(m - 1, step, i);
    }
  }

  lemma PieceAt<T, V>(d: Data<T, V>, m: nat, step: nat, i: nat)
    requires i < m
    ensures |Slices(d, Steps(m, step))| == m
    ensures i * step >= 0 && IsPiece(Slices(d, Steps(m, step))[i], d, i * step, i * step + step)
  {
    StepAt(m, step, i);
    SliceIsPiece(d, Range(i * step, step));
    hide IsPiece, Slice, Steps;
  }

  lemma SplitIs<T, V>(d: Data<T, V>, size: nat)
    requires size > 0
    ensures Split(d, size) == Ok(Slices(d, Steps(CeilDiv(Len(d), size), size)))
    ensures |Split(d, size).value| == CeilDiv(Len(d), size)
  {
    StepsCover(CeilDiv(Len(d), size), size);
  }

  /** Every split has `size` rows, in order. */
  lemma SplitPieces<T, V>(d: Data<T, V>, size: nat, i: nat)
    requires size > 0 && i < |Split(d, size).value|
    ensures i * size >= 0 && IsPiece(Split(d, size).value[i], d, i * size, i * size + size)
  {
    hide *;
    SplitIs(d, size);
    PieceAt(d, CeilDiv(Len(d), size), size, i);
  }

  lemma ChunksAreSlices<T, V>(d: Data<T, V>, k: nat, padding: bool)
    requires Valid(d) && d.batch.Some? && Len(d) > 0 && k > 0 && Chunks(d, k, padding).Ok?
    ensures Chunks(d, k, padding) == Ok(Slices(d, Steps(k, CeilDiv(Len(d), k))))
  {
    CutsCover(Len(d), k);
    hide CeilDiv, Slices, Valid, Len, Steps;
  }

  lemma ChunksAre<T, V>(d: Data<T, V>, k: nat, padding: bool) returns (c: nat)
    requires Valid(d) && d.batch.Some? && Len(d) > 0 && k > 0 && Chunks(d, k, padding).Ok?
    ensures k * c - k < Len(d) <= k * c && Chunks(d, k, padding) == Ok(Slices(d, Steps(k, c)))
  {
    hide *;
    c := CeilDiv(Len(d), k);
    CeilDivRange(Len(d), k);
    CeilDivLeast(Len(d), k);
    ChunksAreSlices(d, k, padding);
  }

  /** Every chunk of a batch has the same number of rows, rounded up, in order. */
  lemma ChunkPieces<T, V>(d: Data<T, V>, k: nat, padding: bool, i: nat) returns (c: nat)
    requires Valid(d) && d.batch.Some? && Len(d) > 0 && i < k && Chunks(d, k, padding).Ok?
    ensures k * c - k < Len(d) <= k * c && |Chunks(d, k, padding).value| == k
    ensures i * c >= 0 && IsPiece(Chunks(d, k, padding).value[i], d, i * c, i * c + c)
  {
    hide *;
    c := ChunksAre(d, k, padding);
    PieceAt(d, k, c, i);
  }

  /** Zero chunks are refused except of data that is padded and has no columns; rows that do not divide evenly fail an
    assertion unless padding is enabled. */
  lemma ChunksFail<T, V>(d: Data<T, V>, k: nat, padding: bool)
    requires Valid(d) && (d.batch.Some? ==> Len(d) > 0)
    ensures Chunks(d, 0, padding).Ok? <==> padding && d.batch.None? && d.nonTensor == []
    ensures k > 0 && !padding ==> (Chunks(d, k, padding) == AssertionError <==> Len(d) % k != 0)
  {
    if k > 0 && d.batch.Some? && Len(d) % k == 0 {
      CutsCover(Len(d), k);
      EvenPieces(Len(d), k);
    }
    hide Cuts, Slices, SectionsOf, CeilDiv;
  }

  /** Without a batch every column is divided by its own length, as evenly as possible. */
  lemma ChunkSections<T, V>(d: Data<T, V>, k: nat, padding: bool, i: nat, c: nat)
    requires Valid(d) && d.batch.None? && i < k && Chunks(d, k, padding).Ok? && c < |d.nonTensor|
    ensures |Chunks(d, k, padding).value| == k && |Chunks(d, k, padding).value[i].nonTensor| == |d.nonTensor|
    ensures var n := |d.nonTensor[c].rows|;
            |Chunks(d, k, padding).value[i].nonTensor[c].rows| == n / k + if i < n % k then 1 else 0
  {
    SectionSize(d.nonTensor[c].rows, k, i);
    hide Section;
  }

  // ---------------------------------------------------------------- padding

  /** The first rows of a column taken again until `pad` are added, at most `n` at a time. */
  function Extra<T>(rows: seq<T>, n: nat, pad: nat): seq<T>
    requires n > 0
  {
    if pad <= n then rows[..Min(pad, |rows|)] else rows[..Min(n, |rows|)] + Extra(rows, n, pad - n)
  }

  function PadColumns<T>(cs: seq<Column<T>>, n: nat, pad: nat): seq<Column<T>>
    requires n > 0
  {
    seq(|cs|, i requires 0 <= i < |cs| => Column(cs[i].key, cs[i].rows + Extra(cs[i].rows, n, pad)))
  }

  /** The data with `pad` rows more. */
  function Padded<T, V>(d: Data<T, V>, pad: nat): Data<T, V>
    requires Len(d) > 0
  {
    var batch := match d.batch
                 case None => None
                 case Some(b) => Some(Batch(b.size + pad, PadColumns(b.columns, Len(d), pad)));
    Data(batch, PadColumns(d.nonTensor, Len(d), pad), d.meta)
  }

  function Mod(j: nat, n: nat): (r: nat)
    requires n > 0
    ensures r < n && (j < n ==> r == j)
  {
    j % n
  }

  lemma BackOneRound(j: nat, n: nat)
    requires n > 0 && j >= n
    ensures Mod(j - n, n) == Mod(j, n)
  {
    var q, r := (j - n) / n, (j - n) % n;
    assert j == n * (q + 1) + r;
    DivIs(j, n, q + 1, r);
  }

  /** Row `j` is row `j mod n` of the given rows. */
  function Cycle<T>(rows: seq<T>, m: nat): seq<T>
    requires m > 0 ==> rows != []
  {
    seq(m, j requires 0 <= j < m => rows[Mod(j, |rows|)])
  }

  lemma CycleFirst<T>(rows: seq<T>, m: nat)
    requires rows != [] && m <= |rows|
    ensures Cycle(rows, m) == rows[..m]
  {
    hide Mod;
  }

  /** One round is the whole column. */
  lemma CycleRound<T>(rows: seq<T>, m: nat)
    requires rows != [] && m >= |rows|
    ensures Cycle(rows, m) == rows + Cycle(rows, m - |rows|)
  {
    hide Mod;
    var n := |rows|;
    forall j | 0 <= j < m ensures Cycle(rows, m)[j] == (rows + Cycle(rows, m - n))[j] {
      if j >= n {
        BackOneRound(j, n);
      }
    }
  }

  /** A column of full length goes round and round. */
  lemma {:induction false} ExtraIsCycle<T>(rows: seq<T>, pad: nat)
    requires rows != []
    ensures Extra(rows, |rows|, pad) == Cycle(rows, pad)
  {
    if pad > |rows| {
      ExtraIsCycle(rows, pad - |rows|);
      CycleRound(rows, pad);
      assert rows[..|rows|] == rows;
    } else {
      CycleFirst(rows, pad);
    }
    hide Cycle;
  }

  lemma CycleWhole<T>(rows: seq<T>, pad: nat)
    requires rows != []
    ensures rows + Extra(rows, |rows|, pad) == Cycle(rows, |rows| + pad)
  {
    var n := |rows|;
    assert rows + Extra(rows, n, pad) == Extra(rows, n, n + pad) by {
      assert rows[..n] == rows;
      assert pad == 0 ==> Extra(rows, n, pad) == [];
    }
    ExtraIsCycle(rows, n + pad);
  }

  function CycleColumns<T>(cs: seq<Column<T>>, n: nat, m: nat): seq<Column<T>>
    requires Full(cs, n) && n > 0
  {
    seq(|cs|, i requires 0 <= i < |cs| => Column(cs[i].key, Cycle(cs[i].rows, m)))
  }

  lemma PadIsCycle<T>(cs: seq<Column<T>>, n: nat, pad: nat)
    requires Full(cs, n) && n > 0
    ensures PadColumns(cs, n, pad) == CycleColumns(cs, n, n + pad)
  {
    hide Extra, Cycle;
    forall i | 0 <= i < |cs| ensures PadColumns(cs, n, pad)[i] == CycleColumns(cs, n, n + pad)[i] {
      CycleWhole(cs[i].rows, pad);
    }
  }

  /** The data with `m` rows that repeat those of `d`. */
  function Cycled<T, V>(d: Data<T, V>, m: nat): Data<T, V>
    requires Valid(d) && Len(d) > 0 && Full(d.nonTensor, Len(d))
  {
    var batch := match d.batch
                 case None => None
                 case Some(b) => Some(Batch(m, CycleColumns(b.columns, b.size, m)));
    Data(batch, CycleColumns(d.nonTensor, Len(d), m), d.meta)
  }

  /** With columns of one length every row of the padded data is that of the given data, modulo its length. */
  lemma PaddedIsCycled<T, V>(d: Data<T, V>, pad: nat)
    requires Valid(d) && Len(d) > 0 && Full(d.nonTensor, Len(d))
    ensures Padded(d, pad) == Cycled(d, Len(d) + pad)
  {
    PadIsCycle(d.nonTensor, Len(d), pad);
    if d.batch.Some? {
      PadIsCycle(d.batch.value.columns, Len(d), pad);
    }
  }

  lemma PadNoColumns<T>(cs: seq<Column<T>>, n: nat)
    requires n > 0
    ensures PadColumns(cs, n, 0) == cs
  {
    forall i | 0 <= i < |cs| ensures PadColumns(cs, n, 0)[i] == cs[i] {
      assert cs[i].rows + [] == cs[i].rows;
    }
  }

  lemma PadNone<T, V>(d: Data<T, V>)
    requires Len(d) > 0
    ensures Padded(d, 0) == d
  {
    PadNoColumns(d.nonTensor, Len(d));
    if d.batch.Some? {
      PadNoColumns(d.batch.value.columns, Len(d));
    }
  }

  /** The slices `:n`, `:n`, … that add `pad` rows. */
  function Takes(n: nat, pad: nat): seq<Range>
    requires n > 0
  {
    if pad == 0 then [] else if pad <= n then [Range(0, pad)] else [Range(0, n)] + Takes(n, pad - n)
  }

  lemma {:induction false} PickAppend<T>(rows: seq<T>, a: seq<Range>, b: seq<Range>)
    ensures Pick(rows, a + b) == Pick(rows, a) + Pick(rows, b)
  {
    hide Cut;
    if b == [] {
      assert a + b == a;
    } else {
      assert (a + b)[..|a + b| - 1] == a + b[..|b| - 1];
      PickAppend(rows, a, b[..|b| - 1]);
    }
  }

  lemma PickOne<T>(rows: seq<T>, r: Range)
    ensures Pick(rows, [r]) == Cut(rows, r)
  {
    hide Cut;
    assert [r][..0] == [];
  }

  lemma NothingPicked<T>(rows: seq<T>)
    ensures Pick(rows, []) == []
  {
  }

  lemma {:induction false} PickTakes<T>(rows: seq<T>, n: nat, pad: nat)
    requires n > 0
    ensures Pick(rows, Takes(n, pad)) == Extra(rows, n, pad)
  {
    hide Pick;
    if pad > n {
      PickTakes(rows, n, pad - n);
      PickAppend(rows, [Range(0, n)], Takes(n, pad - n));
      PickOne(rows, Range(0, n));
      hide Takes, Extra;
    } else if pad > 0 {
      PickOne(rows, Range(0, pad));
    } else {
      NothingPicked(rows);
    }
  }

  lemma {:induction false} ExtraLength<T>(rows: seq<T>, n: nat, pad: nat)
    requires n > 0
    ensures |Extra(rows, n, pad)| <= pad
    ensures |Extra(rows, n, pad)| == pad <==> |rows| >= Min(pad, n)
    ensures rows == [] ==> Extra(rows, n, pad) == []
  {
    if pad > n {
      ExtraLength(rows, n, pad - n);
    }
  }

  /** At least the length of every column. */
  function Longest<T>(cs: seq<Column<T>>): (n: nat)
    ensures forall i :: 0 <= i < |cs| ==> |cs[i].rows| <= n
  {
    if cs == [] then 0
    else
      var n := Longest(cs[..|cs| - 1]);
      if |cs[|cs| - 1].rows| > n then |cs[|cs| - 1].rows| else n
  }

  /** The slices that padding concatenates: the whole and the repetitions. */
  function PadRanges<T, V>(d: Data<T, V>, pad: nat): seq<Range>
    requires Len(d) > 0
  {
    [Range(0, Len(d) + Longest(d.nonTensor))] + Takes(Len(d), pad)
  }

  lemma PadColumnsAre<T>(cs: seq<Column<T>>, n: nat, pad: nat, long: nat)
    requires n > 0 && forall i :: 0 <= i < |cs| ==> |cs[i].rows| <= long
    ensures PickColumns(cs, [Range(0, long)] + Takes(n, pad)) == PadColumns(cs, n, pad)
  {
    hide Pick, Takes, Extra;
    var rs := [Range(0, long)] + Takes(n, pad);
    forall i | 0 <= i < |cs| ensures PickColumns(cs, rs)[i] == PadColumns(cs, n, pad)[i] {
      var rows := cs[i].rows;
      PickAppend(rows, [Range(0, long)], Takes(n, pad));
      PickOne(rows, Range(0, long));
      PickTakes(rows, n, pad);
      assert Cut(rows, Range(0, long)) == rows;
    }
  }

  lemma PadTotal(n: nat, pad: nat, long: nat)
    requires 0 < n <= long
    ensures Total([Range(0, long)] + Takes(n, pad), n) == n + pad
  {
    hide Pick, Takes, Extra, Total;
    var rows := seq(n, _ => 0);
    PickAppend(rows, [Range(0, long)], Takes(n, pad));
    PickOne(rows, Range(0, long));
    PickTakes(rows, n, pad);
    ExtraLength(rows, n, pad);
    PickLength(rows, [Range(0, long)] + Takes(n, pad));
  }

  lemma PaddedIsGathered<T, V>(d: Data<T, V>, pad: nat)
    requires Valid(d) && Len(d) > 0
    ensures Gather(d, PadRanges(d, pad)) == Padded(d, pad)
  {
    hide Longest, Takes, Total, PickColumns, PadColumns, Extra;
    var n, long := Len(d), Len(d) + Longest(d.nonTensor);
    PadColumnsAre(d.nonTensor, n, pad, long);
    if d.batch.Some? {
      PadColumnsAre(d.batch.value.columns, n, pad, long);
      PadTotal(n, pad, long);
    }
  }

  lemma ZeroModulo(d: nat)
    requires d > 0
    ensures 0 % d == 0
  {
  }

  lemma NextMultiple(n: nat, d: nat)
    requires d > 0 && n % d != 0
    ensures 0 < d - n % d < d && (n + (d - n % d)) % d == 0
  {
    assert n + (d - n % d) == d * (n / d + 1);
    DivIs(n + (d - n % d), d, n / d + 1, 0);
  }

  lemma OneMoreRound(m: nat, n: nat)
    requires n > 0 && m % n == 0
    ensures (m + n) % n == 0
  {
    assert m + n == n * (m / n + 1);
    DivIs(m + n, n, m / n + 1, 0);
  }

  predicate Divides(d: nat, m: nat)
    requires d > 0
  {
    m % d == 0
  }

  function PadSize(n: nat, divisor: nat): (pad: nat)
    requires divisor > 0 && n % divisor != 0
  {
    divisor - n % divisor
  }

  lemma PadSizeIs(n: nat, divisor: nat)
    requires divisor > 0 && n % divisor != 0
    ensures 0 < PadSize(n, divisor) < divisor && (n + PadSize(n, divisor)) % divisor == 0
  {
    NextMultiple(n, divisor);
  }

  lemma NotEmpty(n: nat, divisor: nat)
    requires divisor > 0 && n % divisor != 0
    ensures n > 0
  {
    ZeroModulo(divisor);
  }

  /** The first `m` rows have been added: the pieces are those slices of the data. */
  ghost predicate Padding<T, V>(d: Data<T, V>, pieces: seq<Data<T, V>>, m: nat) {
    Len(d) > 0 && pieces == Slices(d, PadRanges(d, m))
  }

  lemma WholeColumns<T>(cs: seq<Column<T>>, long: nat)
    requires forall i :: 0 <= i < |cs| ==> |cs[i].rows| <= long
    ensures SliceColumns(cs, Range(0, long)) == cs
  {
    assert forall i :: 0 <= i < |cs| ==> Cut(cs[i].rows, Range(0, long)) == cs[i].rows;
  }

  lemma PaddingStarts<T, V>(d: Data<T, V>)
    requires Valid(d) && Len(d) > 0
    ensures Padding(d, [d], 0) && Divides(Len(d), 0)
  {
    hide Longest, SliceColumns;
    var long := Len(d) + Longest(d.nonTensor);
    WholeColumns(d.nonTensor, long);
    if d.batch.Some? {
      WholeColumns(d.batch.value.columns, long);
    }
    assert PadRanges(d, 0) == [Range(0, long)];
    assert Slice(d, Range(0, long)) == d;
    ZeroModulo(Len(d));
  }

  lemma WholeRounds(m: nat, n: nat)
    requires n > 0 && m % n == 0 && m > 0
    ensures m >= n && (m - n) % n == 0
  {
    assert m == n * (m / n);
    MulLe(1, m / n, n);
    BackOneRound(m, n);
  }

  lemma {:induction false} TakesMore(n: nat, m: nat, take: nat)
    requires n > 0 && m % n == 0 && 0 < take <= n
    ensures Takes(n, m + take) == Takes(n, m) + [Range(0, take)]
  {
    if m > 0 {
      WholeRounds(m, n);
      TakesMore(n, m - n, take);
      if m == n {
        assert Takes(n, m) == [Range(0, n)];
      }
    }
  }

  lemma PaddingGrows<T, V>(d: Data<T, V>, pieces: seq<Data<T, V>>, m: nat, take: nat)
    requires Padding(d, pieces, m) && Divides(Len(d), m) && 0 < take <= Len(d)
    ensures Padding(d, pieces + [Slice(d, Range(0, take))], m + take)
    ensures take == Len(d) ==> Divides(Len(d), m + take)
  {
    hide Slice, Longest, Takes;
    TakesMore(Len(d), m, take);
    OneMoreRound(m, Len(d));
    var rs := PadRanges(d, m);
    assert PadRanges(d, m + take) == rs + [Range(0, take)];
    assert Slices(d, rs + [Range(0, take)]) == Slices(d, rs) + [Slice(d, Range(0, take))];
  }

  lemma PaddingEnds<T, V>(d: Data<T, V>, pieces: seq<Data<T, V>>, m: nat)
    requires Valid(d) && Padding(d, pieces, m)
    ensures Concat(pieces) == Ok(Padded(d, m))
  {
    hide Takes, Concat, Gather, Longest;
    ConcatOfSlices(d, PadRanges(d, m));
    PaddedIsGathered(d, m);
  }

  lemma Rectangular<T, V>(d: Data<T, V>, pad: nat)
    requires Valid(d) && Len(d) > 0
    ensures Full(d.nonTensor, Len(d)) ==> Padded(d, pad) == Cycled(d, Len(d) + pad)
  {
    if Full(d.nonTensor, Len(d)) {
      PaddedIsCycled(d, pad);
    }
  }

  /** Appends rows from the start, as often as needed, up to the next multiple of the divisor. Concatenating the
    pieces never fails. */
  method PadToDivisor<T, V(==)>(data: Data<T, V>, divisor: nat) returns (r: Result<(Data<T, V>, nat)>)
    requires Valid(data)
    ensures divisor == 0 ==> r == ZeroDivisionError
    ensures divisor > 0 ==> r.Ok? && r.value.1 < divisor && (Len(data) + r.value.1) % divisor == 0
    ensures r.Ok? && Len(data) == 0 ==> r.value == (data, 0)
    ensures r.Ok? && Len(data) > 0 ==> r.value.0 == Padded(data, r.value.1)
    ensures r.Ok? && Len(data) > 0 && Full(data.nonTensor, Len(data)) ==>
              r.value.0 == Cycled(data, Len(data) + r.value.1)
  {
    hide *;
    if divisor == 0 {
      return ZeroDivisionError;
    }
    var n := Len(data);
    if n % divisor == 0 {
      if n > 0 {
        PadNone(data);
        Rectangular(data, 0);
      }
      return Ok((data, 0));
    }
    NotEmpty(n, divisor);
    var pad := PadSize(n, divisor);
    PadSizeIs(n, divisor);
    var pieces := [data];
    PaddingStarts(data);
    var remaining := pad;
    while remaining > 0
      invariant 0 <= remaining <= pad && (remaining > 0 ==> Divides(n, pad - remaining))
      invariant Padding(data, pieces, pad - remaining)
    {
      var take := if remaining < n then remaining else n;
      PaddingGrows(data, pieces, pad - remaining, take);
      pieces := pieces + [Slice(data, Range(0, take))];
      remaining := remaining - take;
    }
    PaddingEnds(data, pieces, pad);
    Rectangular(data, pad);
    r := Ok((Concat(pieces).value, pad));
  }

  /** `rows[:-pad]` for positive `pad`. */
  function Shortened(n: nat, pad: nat): nat {
    if pad <= n then n - pad else 0
  }

  function UnpadColumns<T>(cs: seq<Column<T>>, pad: nat): seq<Column<T>> {
    seq(|cs|, i requires 0 <= i < |cs| => Column(cs[i].key, cs[i].rows[..Shortened(|cs[i].rows|, pad)]))
  }

  /** `data[:-pad_size]`, or the data itself for no padding. */
  function Unpad<T, V>(d: Data<T, V>, pad: nat): Data<T, V> {
    if pad == 0 then d
    else
      var batch := match d.batch
                   case None => None
                   case Some(b) => Some(Batch(Shortened(b.size, pad), UnpadColumns(b.columns, pad)));
      Data(batch, UnpadColumns(d.nonTensor, pad), d.meta)
  }

  /** The column is empty, or as long as the largest slice that padding takes of it. */
  predicate LongEnough<T>(rows: seq<T>, n: nat, pad: nat) {
    rows == [] || |rows| >= Min(pad, n)
  }

  lemma UnpadColumn<T>(rows: seq<T>, n: nat, pad: nat)
    requires n > 0
    ensures var padded := rows + Extra(rows, n, pad);
            padded[..Shortened(|padded|, pad)] == rows <==> LongEnough(rows, n, pad)
  {
    ExtraLength(rows, n, pad);
    hide Extra;
    var padded := rows + Extra(rows, n, pad);
    if Shortened(|padded|, pad) <= |rows| {
      assert padded[..Shortened(|padded|, pad)] == rows[..Shortened(|padded|, pad)];
    }
  }

  lemma UnpadColumnsAre<T>(cs: seq<Column<T>>, n: nat, pad: nat)
    requires n > 0
    ensures UnpadColumns(PadColumns(cs, n, pad), pad) == cs <==>
              forall i :: 0 <= i < |cs| ==> LongEnough(cs[i].rows, n, pad)
  {
    hide Extra, LongEnough;
    var after := UnpadColumns(PadColumns(cs, n, pad), pad);
    forall i | 0 <= i < |cs|
      ensures after[i].key == cs[i].key && (after[i].rows == cs[i].rows <==> LongEnough(cs[i].rows, n, pad))
    {
      UnpadColumn(cs[i].rows, n, pad);
    }
    if after == cs {
      forall i | 0 <= i < |cs| ensures LongEnough(cs[i].rows, n, pad) {
        assert after[i] == cs[i];
      }
    }
  }

  /** Removing the padding gives back the data if and only if no column but an empty one is shorter than the largest slice
    taken of it: always with a batch, and without one when no column is shorter than the first. */
  lemma UnpadUndoesPad<T, V>(d: Data<T, V>, pad: nat)
    requires Valid(d) && Len(d) > 0
    ensures Unpad(Padded(d, pad), pad) == d <==>
              forall i :: 0 <= i < |d.nonTensor| ==> LongEnough(d.nonTensor[i].rows, Len(d), pad)
    ensures Full(d.nonTensor, Len(d)) ==> Unpad(Padded(d, pad), pad) == d
  {
    if pad == 0 {
      PadNone(d);
    }
    UnpadColumnsAre(d.nonTensor, Len(d), pad);
    if d.batch.Some? {
      UnpadColumnsAre(d.batch.value.columns, Len(d), pad);
    }
    hide UnpadColumns, PadColumns;
  }
}
