/** Bucket packing shared by the NIXL, NCCL and HCCL checkpoint engines.

  The sender of weights lays tensors one after another in a byte buffer of `cap` bytes and
  closes the bucket when the next tensor would not fit. Each bucket travels with a Python
  dictionary that maps a tensor name to its shape, dtype and byte offset. */
module Packing {
  import opened Prelude

  type byte = bv8

  datatype Dtype = Dtype(name: string, itemsize: nat)

  /** A tensor as the engines see it: its name, its type and its raw bytes. */
  datatype Weight = Weight(name: string, shape: seq<nat>, dtype: Dtype, bytes: seq<byte>)

  datatype TensorMeta = TensorMeta(name: string, shape: seq<nat>, dtype: Dtype, offset: nat)

  /** The metadata dictionary of a bucket in insertion order, and the bytes laid out so far. */
  datatype Bucket = Bucket(meta: seq<TensorMeta>, data: seq<byte>)

  datatype PackState = PackState(closed: seq<Bucket>, open: Bucket)

  function ByteSize(shape: seq<nat>, dtype: Dtype): nat {
    dtype.itemsize * Numel(shape)
  }

  predicate ValidWeight(w: Weight) {
    |w.bytes| == ByteSize(w.shape, w.dtype)
  }

  predicate ValidWeights(ws: seq<Weight>) {
    forall i :: 0 <= i < |ws| ==> ValidWeight(ws[i])
  }

  /** Python's `s[lo:hi]` for non-negative bounds: both are clamped to the length. */
  function Window<T>(s: seq<T>, lo: nat, hi: nat): seq<T> {
    if lo <= hi then s[Min(lo, |s|)..Min(hi, |s|)] else []
  }

  // ---------------------------------------------------------------- the metadata dictionary

  predicate HasName(m: seq<TensorMeta>, name: string) {
    exists j :: 0 <= j < |m| && m[j].name == name
  }

  /** `bucket_meta[e.name] = e`: an existing key keeps its place and takes the new value. */
  function PutMeta(m: seq<TensorMeta>, e: TensorMeta): seq<TensorMeta> {
    if m == [] then [e]
    else if m[0].name == e.name then [e] + m[1..]
    else [m[0]] + PutMeta(m[1..], e)
  }

  lemma {:induction false} PutMetaEntries(m: seq<TensorMeta>, e: TensorMeta)
    ensures !HasName(m, e.name) ==> PutMeta(m, e) == m + [e]
    ensures HasName(m, e.name) ==> |PutMeta(m, e)| == |m|
    ensures forall j :: 0 <= j < |PutMeta(m, e)| ==> PutMeta(m, e)[j] == e || PutMeta(m, e)[j] in m
  {
    if m != [] && m[0].name != e.name {
      PutMetaEntries(m[1..], e);
      assert m == [m[0]] + m[1..];
      if HasName(m, e.name) {
        var j :| 0 <= j < |m| && m[j].name == e.name;
        assert m[1..][j - 1].name == e.name;
      } else {
        assert forall j :: 0 <= j < |m[1..]| ==> m[1..][j] == m[j + 1];
      }
    } else if m != [] {
      assert m[0].name == e.name;
    }
  }

  /** A name that is there keeps its place and takes the new entry. */
  lemma {:induction false} PutMetaReplaces(m: seq<TensorMeta>, e: TensorMeta, j: nat)
    requires j < |m| && m[j].name == e.name && forall i :: 0 <= i < j ==> m[i].name != e.name
    ensures PutMeta(m, e) == m[j := e]
  {
    if j > 0 {
      PutMetaReplaces(m[1..], e, j - 1);
    }
  }

  // ---------------------------------------------------------------- packing

  predicate Overflows(b: Bucket, w: Weight, cap: nat) {
    |b.data| + |w.bytes| > cap
  }

  function MetaAt(w: Weight, offset: nat): TensorMeta {
    TensorMeta(w.name, w.shape, w.dtype, offset)
  }

  function Place(b: Bucket, w: Weight): Bucket {
    Bucket(PutMeta(b.meta, MetaAt(w, |b.data|)), b.data + w.bytes)
  }

  const EMPTY_BUCKET := Bucket([], [])

  function AddWeight(p: PackState, w: Weight, cap: nat): PackState {
    if Overflows(p.open, w, cap) then PackState(p.closed + [p.open], Place(EMPTY_BUCKET, w))
    else PackState(p.closed, Place(p.open, w))
  }

  /** The packing state after the first `i` weights. */
  function Fill(ws: seq<Weight>, cap: nat, i: nat): PackState
    requires i <= |ws|
  {
    if i == 0 then PackState([], EMPTY_BUCKET) else AddWeight(Fill(ws, cap, i - 1), ws[i - 1], cap)
  }

  /** Every bucket that goes on the wire; the final one is sent even when it is empty. */
  function Buckets(ws: seq<Weight>, cap: nat): (bs: seq<Bucket>) {
    var p := Fill(ws, cap, |ws|);
    p.closed + [p.open]
  }

  /** The assertion in the sender's loop holds for every weight. */
  predicate AllFit(ws: seq<Weight>, cap: nat) {
    forall i :: 0 <= i < |ws| ==> |ws[i].bytes| <= cap
  }

  lemma {:induction false} ClosedIsPrefix(ws: seq<Weight>, cap: nat, i: nat, j: nat)
    requires i <= j <= |ws|
    ensures Fill(ws, cap, i).closed <= Fill(ws, cap, j).closed
    decreases j - i
  {
    if i < j {
      ClosedIsPrefix(ws, cap, i, j - 1);
    }
  }

  /** The bucket closed because weight `i` does not fit is the next one on the wire, and not the last. */
  lemma ClosedBucket(ws: seq<Weight>, cap: nat, i: nat)
    requires i < |ws| && Overflows(Fill(ws, cap, i).open, ws[i], cap)
    ensures |Fill(ws, cap, i).closed| + 1 < |Buckets(ws, cap)|
    ensures Buckets(ws, cap)[|Fill(ws, cap, i).closed|] == Fill(ws, cap, i).open
  {
    ClosedIsPrefix(ws, cap, i + 1, |ws|);
    assert Fill(ws, cap, i + 1).closed == Fill(ws, cap, i).closed + [Fill(ws, cap, i).open];
  }

  /** The next bucket begins with a weight that this one could not take. */
  ghost predicate Stops(b: Bucket, next: Bucket, ws: seq<Weight>, cap: nat) {
    exists i :: 0 <= i < |ws| && |b.data| + |ws[i].bytes| > cap && ws[i].bytes <= next.data
  }

  ghost predicate Full(bs: seq<Bucket>, ws: seq<Weight>, cap: nat) {
    forall k, m :: 0 <= k < |bs| && 0 <= m < |bs| && m == k + 1 ==> Stops(bs[k], bs[m], ws, cap)
  }

  lemma StopsStill(b: Bucket, next: Bucket, w: Weight, ws: seq<Weight>, cap: nat)
    requires Stops(b, next, ws, cap)
    ensures Stops(b, Place(next, w), ws, cap)
  {
    hide PutMeta;
    var i :| 0 <= i < |ws| && |b.data| + |ws[i].bytes| > cap && ws[i].bytes <= next.data;
    assert ws[i].bytes <= next.data + w.bytes;
  }

  lemma StopsNow(b: Bucket, ws: seq<Weight>, i: nat, cap: nat)
    requires i < |ws| && Overflows(b, ws[i], cap)
    ensures Stops(b, Place(EMPTY_BUCKET, ws[i]), ws, cap)
  {
    hide PutMeta;
    assert [] + ws[i].bytes == ws[i].bytes;
  }

  lemma {:induction false} FillIsFull(ws: seq<Weight>, cap: nat, i: nat)
    requires i <= |ws|
    ensures Full(Fill(ws, cap, i).closed + [Fill(ws, cap, i).open], ws, cap)
  {
    if i > 0 {
      FillIsFull(ws, cap, i - 1);
      var p, w := Fill(ws, cap, i - 1), ws[i - 1];
      var was := p.closed + [p.open];
      if Overflows(p.open, w, cap) {
        StopsNow(p.open, ws, i - 1, cap);
      } else if p.closed != [] {
        assert Stops(was[|was| - 2], was[|was| - 1], ws, cap);
        StopsStill(was[|was| - 2], p.open, w, ws, cap);
      }
      hide Stops, Place, Overflows;
      var q := Fill(ws, cap, i);
      var now := q.closed + [q.open];
      forall k, m | 0 <= k < |now| && 0 <= m < |now| && m == k + 1 ensures Stops(now[k], now[m], ws, cap) {
        if m < |was| - 1 {
          assert Stops(was[k], was[m], ws, cap);
        }
        if m == |was| - 1 && Overflows(p.open, w, cap) {
          assert Stops(was[k], was[m], ws, cap);
        }
      }
    }
  }

  /** No bucket could have taken the weight that the next one begins with. */
  lemma BucketsAreFull(ws: seq<Weight>, cap: nat)
    ensures Full(Buckets(ws, cap), ws, cap)
  {
    FillIsFull(ws, cap, |ws|);
  }

  // ---------------------------------------------------------------- byte ranges

  function EndOf(m: TensorMeta): nat {
    m.offset + ByteSize(m.shape, m.dtype)
  }

  predicate InBounds(b: Bucket) {
    forall j :: 0 <= j < |b.meta| ==> EndOf(b.meta[j]) <= |b.data|
  }

  /** The ranges start at 0, each begins where the one before ends, and the last ends at the end of the data. */
  predicate Contiguous(b: Bucket) {
    && (forall j :: 0 <= j < |b.meta| ==> b.meta[j].offset == if j == 0 then 0 else EndOf(b.meta[j - 1]))
    && |b.data| == if b.meta == [] then 0 else EndOf(b.meta[|b.meta| - 1])
  }

  lemma PlaceKeepsBounds(b: Bucket, w: Weight)
    requires InBounds(b) && ValidWeight(w)
    ensures InBounds(Place(b, w))
  {
    PutMetaEntries(b.meta, MetaAt(w, |b.data|));
  }

  lemma {:induction false} FillInBounds(ws: seq<Weight>, cap: nat, i: nat)
    requires i <= |ws| && ValidWeights(ws)
    ensures InBounds(Fill(ws, cap, i).open)
    ensures forall k :: 0 <= k < |Fill(ws, cap, i).closed| ==> InBounds(Fill(ws, cap, i).closed[k])
  {
    if i > 0 {
      FillInBounds(ws, cap, i - 1);
      var p := Fill(ws, cap, i - 1);
      PlaceKeepsBounds(p.open, ws[i - 1]);
      PlaceKeepsBounds(EMPTY_BUCKET, ws[i - 1]);
    }
  }

  lemma BucketsInBounds(ws: seq<Weight>, cap: nat, k: nat)
    requires ValidWeights(ws) && k < |Buckets(ws, cap)|
    ensures InBounds(Buckets(ws, cap)[k])
  {
    FillInBounds(ws, cap, |ws|);
  }

  lemma {:induction false} FillWithinCapacity(ws: seq<Weight>, cap: nat, i: nat)
    requires i <= |ws| && forall j :: 0 <= j < i ==> |ws[j].bytes| <= cap
    ensures |Fill(ws, cap, i).open.data| <= cap
    ensures forall k :: 0 <= k < |Fill(ws, cap, i).closed| ==> |Fill(ws, cap, i).closed[k].data| <= cap
  {
    if i > 0 {
      FillWithinCapacity(ws, cap, i - 1);
    }
  }

  /** When every weight fits, so does every bucket. */
  lemma BucketsWithinCapacity(ws: seq<Weight>, cap: nat, k: nat)
    requires AllFit(ws, cap) && k < |Buckets(ws, cap)|
    ensures |Buckets(ws, cap)[k].data| <= cap
  {
    FillWithinCapacity(ws, cap, |ws|);
  }

  // ---------------------------------------------------------------- decoding

  /** What a receiver rebuilds from a buffer and one metadata entry. */
  function Item(buf: seq<byte>, m: TensorMeta): Weight {
    Weight(m.name, m.shape, m.dtype, Window(buf, m.offset, EndOf(m)))
  }

  function Items(b: Bucket): seq<Weight> {
    seq(|b.meta|, j requires 0 <= j < |b.meta| => Item(b.data, b.meta[j]))
  }

  lemma ItemsLength(b: Bucket)
    ensures |Items(b)| == |b.meta|
  {
  }

  function Decode(bs: seq<Bucket>): seq<Weight> {
    if bs == [] then [] else Decode(bs[..|bs| - 1]) + Items(bs[|bs| - 1])
  }

  lemma DecodeSnoc(bs: seq<Bucket>, k: nat)
    requires k < |bs|
    ensures Decode(bs[..k + 1]) == Decode(bs[..k]) + Items(bs[k])
  {
    assert bs[..k + 1][..k] == bs[..k];
  }

  lemma {:induction false} DecodePrefix(bs: seq<Bucket>, k: nat)
    requires k <= |bs|
    ensures Decode(bs[..k]) <= Decode(bs)
    decreases |bs| - k
  {
    if k == |bs| {
      assert bs[..k] == bs;
    } else {
      DecodeSnoc(bs, k);
      DecodePrefix(bs, k + 1);
    }
  }

  /** A buffer that starts with the bucket's data yields the bucket's items. */
  lemma ItemFromBuffer(buf: seq<byte>, b: Bucket, j: nat)
    requires |b.data| <= |buf| && buf[..|b.data|] == b.data
    requires InBounds(b) && j < |b.meta|
    ensures Item(buf, b.meta[j]) == Items(b)[j]
  {
    var m := b.meta[j];
    assert EndOf(m) <= |b.data|;
    assert b.data[m.offset..EndOf(m)] == buf[..|b.data|][m.offset..EndOf(m)] == buf[m.offset..EndOf(m)];
  }

  function Decoded(p: PackState): seq<Weight> {
    Decode(p.closed) + Items(p.open)
  }

  predicate FreshAt(ws: seq<Weight>, cap: nat, j: nat)
    requires j < |ws|
  {
    var b := Fill(ws, cap, j).open;
    Overflows(b, ws[j], cap) || !HasName(b.meta, ws[j].name)
  }

  /** The name of each of the first `i` weights is new in the bucket the weight goes to. */
  predicate NamesFresh(ws: seq<Weight>, cap: nat, i: nat)
    requires i <= |ws|
  {
    forall j :: 0 <= j < i ==> FreshAt(ws, cap, j)
  }

  /** Adding bytes at the end does not disturb the items already placed. */
  lemma PlaceFresh(b: Bucket, w: Weight)
    requires InBounds(b) && ValidWeight(w) && !HasName(b.meta, w.name)
    ensures Items(Place(b, w)) == Items(b) + [w]
  {
    var e, c := MetaAt(w, |b.data|), Place(b, w);
    PutMetaEntries(b.meta, e);
    assert Item(c.data, e) == w by {
      assert c.data[e.offset..EndOf(e)] == w.bytes;
    }
    forall j | 0 <= j < |c.meta| ensures Items(c)[j] == (Items(b) + [w])[j] {
      if j < |b.meta| {
        assert c.data[..|b.data|] == b.data;
        ItemFromBuffer(c.data, b, j);
      }
    }
  }

  lemma PlaceContiguous(b: Bucket, w: Weight)
    requires Contiguous(b) && ValidWeight(w) && !HasName(b.meta, w.name)
    ensures Contiguous(Place(b, w))
  {
    PutMetaEntries(b.meta, MetaAt(w, |b.data|));
    hide ByteSize, HasName, PutMeta;
  }

  lemma DecodedStep(p: PackState, w: Weight, cap: nat)
    requires InBounds(p.open) && ValidWeight(w)
    ensures Overflows(p.open, w, cap) || !HasName(p.open.meta, w.name) ==>
              Decoded(AddWeight(p, w, cap)) == Decoded(p) + [w]
    ensures !Overflows(p.open, w, cap) && HasName(p.open.meta, w.name) ==>
              |Decoded(AddWeight(p, w, cap))| == |Decoded(p)|
  {
    if Overflows(p.open, w, cap) {
      PlaceFresh(EMPTY_BUCKET, w);
      var closed := p.closed + [p.open];
      assert closed[..|closed| - 1] == p.closed;
      assert Items(EMPTY_BUCKET) == [];
    } else if HasName(p.open.meta, w.name) {
      PutMetaEntries(p.open.meta, MetaAt(w, |p.open.data|));
    } else {
      PlaceFresh(p.open, w);
    }
  }

  lemma FreshAtMeans(ws: seq<Weight>, cap: nat, j: nat)
    requires j < |ws|
    ensures FreshAt(ws, cap, j) == var b := Fill(ws, cap, j).open;
                                   Overflows(b, ws[j], cap) || !HasName(b.meta, ws[j].name)
  {
  }

  lemma FreshStep(ws: seq<Weight>, cap: nat, i: nat)
    requires 0 < i <= |ws|
    ensures NamesFresh(ws, cap, i) <==> NamesFresh(ws, cap, i - 1) && FreshAt(ws, cap, i - 1)
  {
  }

  /** Holds of the state `p` reached after the weights `done`, all of them fresh or not. */
  predicate Restores(p: PackState, done: seq<Weight>, allNew: bool) {
    if allNew then Decoded(p) == done else |Decoded(p)| < |done|
  }

  lemma RestoresStep(p: PackState, done: seq<Weight>, allNew: bool, w: Weight, cap: nat)
    requires InBounds(p.open) && ValidWeight(w) && Restores(p, done, allNew)
    ensures var now := allNew && (Overflows(p.open, w, cap) || !HasName(p.open.meta, w.name));
            Restores(AddWeight(p, w, cap), done + [w], now)
  {
    DecodedStep(p, w, cap);
  }

  lemma {:induction false} DecodedSoFar(ws: seq<Weight>, cap: nat, i: nat)
    requires i <= |ws| && ValidWeights(ws)
    ensures Restores(Fill(ws, cap, i), ws[..i], NamesFresh(ws, cap, i))
  {
    hide InBounds, FreshAt, AddWeight;
    if i > 0 {
      DecodedSoFar(ws, cap, i - 1);
      var was, now := NamesFresh(ws, cap, i - 1), NamesFresh(ws, cap, i);
      FreshStep(ws, cap, i);
      var p, w, done := Fill(ws, cap, i - 1), ws[i - 1], ws[..i - 1];
      FillInBounds(ws, cap, i - 1);
      RestoresStep(p, done, was, w, cap);
      FreshAtMeans(ws, cap, i - 1);
      assert ws[..i] == done + [w];
    } else {
      assert Items(EMPTY_BUCKET) == [];
    }
  }

  lemma {:induction false} FreshIsContiguous(ws: seq<Weight>, cap: nat, i: nat)
    requires i <= |ws| && ValidWeights(ws) && NamesFresh(ws, cap, i)
    ensures Contiguous(Fill(ws, cap, i).open)
    ensures forall k :: 0 <= k < |Fill(ws, cap, i).closed| ==> Contiguous(Fill(ws, cap, i).closed[k])
  {
    if i > 0 {
      FreshIsContiguous(ws, cap, i - 1);
      assert FreshAt(ws, cap, i - 1);
      var p := Fill(ws, cap, i - 1);
      PlaceContiguous(if Overflows(p.open, ws[i - 1], cap) then EMPTY_BUCKET else p.open, ws[i - 1]);
    }
  }

  /** Decoding every bucket gives back the weight list exactly when no bucket receives a name twice. */
  lemma DecodeRestoresWeights(ws: seq<Weight>, cap: nat)
    requires ValidWeights(ws)
    ensures Decode(Buckets(ws, cap)) == ws <==> NamesFresh(ws, cap, |ws|)
  {
    DecodedSoFar(ws, cap, |ws|);
    var p := Fill(ws, cap, |ws|);
    assert Buckets(ws, cap)[..|p.closed|] == p.closed;
    assert ws[..|ws|] == ws;
  }

  predicate DistinctNames(ws: seq<Weight>) {
    forall i, j :: 0 <= i < j < |ws| ==> ws[i].name != ws[j].name
  }

  lemma PlacedNames(b: Bucket, w: Weight, name: string)
    requires HasName(Place(b, w).meta, name) && name != w.name
    ensures HasName(b.meta, name)
  {
    var e := MetaAt(w, |b.data|);
    PutMetaEntries(b.meta, e);
    var j :| 0 <= j < |PutMeta(b.meta, e)| && PutMeta(b.meta, e)[j].name == name;
  }

  lemma {:induction false} OpenNamesComeFromWeights(ws: seq<Weight>, cap: nat, i: nat, name: string)
    requires i <= |ws| && HasName(Fill(ws, cap, i).open.meta, name)
    ensures exists j :: 0 <= j < i && ws[j].name == name
  {
    hide Place;
    if i > 0 && ws[i - 1].name != name {
      var p, w := Fill(ws, cap, i - 1), ws[i - 1];
      PlacedNames(if Overflows(p.open, w, cap) then EMPTY_BUCKET else p.open, w, name);
      OpenNamesComeFromWeights(ws, cap, i - 1, name);
    }
  }

  lemma DistinctNamesAreFresh(ws: seq<Weight>, cap: nat)
    requires DistinctNames(ws)
    ensures NamesFresh(ws, cap, |ws|)
  {
    forall j | 0 <= j < |ws| ensures FreshAt(ws, cap, j) {
      if HasName(Fill(ws, cap, j).open.meta, ws[j].name) {
        OpenNamesComeFromWeights(ws, cap, j, ws[j].name);
      }
    }
  }

  /** With distinct names the buckets partition the weight list in order, in contiguous, disjoint ranges. */
  lemma PackingIsLossless(ws: seq<Weight>, cap: nat)
    requires ValidWeights(ws) && DistinctNames(ws)
    ensures Decode(Buckets(ws, cap)) == ws
    ensures forall k :: 0 <= k < |Buckets(ws, cap)| ==> Contiguous(Buckets(ws, cap)[k])
  {
    DistinctNamesAreFresh(ws, cap);
    DecodeRestoresWeights(ws, cap);
    FreshIsContiguous(ws, cap, |ws|);
  }

  /** Two tensors of one name in one bucket: the first is lost. */
  lemma DuplicateNameLosesTensor()
    ensures var w0, w1 := Weight("w", [1], Dtype("u8", 1), [7]), Weight("w", [1], Dtype("u8", 1), [9]);
            ValidWeights([w0, w1]) && Decode(Buckets([w0, w1], 2)) == [w1]
  {
    var w0, w1 := Weight("w", [1], Dtype("u8", 1), [7]), Weight("w", [1], Dtype("u8", 1), [9]);
    var ws := [w0, w1];
    assert Numel([1]) == 1 by { assert Numel([1][1..]) == 1; }
    assert Fill(ws, 2, 1) == PackState([], Bucket([MetaAt(w0, 0)], [7]));
    assert Fill(ws, 2, 2) == PackState([], Bucket([MetaAt(w1, 1)], [7, 9]));
    var bs := Buckets(ws, 2);
    assert bs == [Bucket([MetaAt(w1, 1)], [7, 9])];
    assert bs[..0] == [];
    var data: seq<byte> := [7, 9];
    assert data[1..2] == [9];
    assert Window(data, 1, 2) == [9];
    assert Item(data, MetaAt(w1, 1)) == w1;
    assert Items(bs[0]) == [w1];
  }
}
