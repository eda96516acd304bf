/** The KIMI engine's `receive_tensor`: buckets assigned to receiver ranks are broadcast by those ranks in
  turn, through the two halves of one buffer, while the tensors of the bucket before are yielded.

  The list of (receiver, owner, bucket) triples is computed by the checkpoint-engine library from metadata
  every rank holds, so all ranks start from the same list. The bytes of a bucket are at its receiver only: of the
  buckets of other receivers a rank uses the sizes, and it takes the rest from the collectives. */
module KimiReceive {
  import opened Packing
  import opened Prelude

  /** One assigned bucket, with the bytes that copying it from its owner produces. */
  datatype Entry = Entry(receiver: nat, owner: nat, bucket: Bucket)

  /** One key of `buckets_by_receiver_rank`. */
  datatype Row = Row(receiver: nat, buckets: seq<Bucket>)

  /** One collective: the source rank and what it sends. */
  datatype Slot = Slot(source: nat, bucket: Bucket)

  // ---------------------------------------------------------------- the plan

  /** `buckets_by_receiver_rank[e.receiver].append(e.bucket)` */
  function AddTo(rows: seq<Row>, e: Entry): seq<Row> {
    if rows == [] then [Row(e.receiver, [e.bucket])]
    else if rows[0].receiver == e.receiver then [Row(e.receiver, rows[0].buckets + [e.bucket])] + rows[1..]
    else [rows[0]] + AddTo(rows[1..], e)
  }

  function Rows(es: seq<Entry>): seq<Row> {
    if es == [] then [] else AddTo(Rows(es[..|es| - 1]), es[|es| - 1])
  }

  /** `receiver_rank_buckets`, without the owners. */
  function Own(es: seq<Entry>, rank: nat): seq<Bucket> {
    if es == [] then []
    else Own(es[..|es| - 1], rank) + if es[|es| - 1].receiver == rank then [es[|es| - 1].bucket] else []
  }

  function MaxLen(rows: seq<Row>): nat {
    if rows == [] then 0 else
      var m := MaxLen(rows[..|rows| - 1]);
      if |rows[|rows| - 1].buckets| > m then |rows[|rows| - 1].buckets| else m
  }

  /** The collectives of round `i`, in the order of the rows. */
  function Round(rows: seq<Row>, i: nat): seq<Slot> {
    if rows == [] then []
    else
      var row := rows[|rows| - 1];
      Round(rows[..|rows| - 1], i) + if i < |row.buckets| then [Slot(row.receiver, row.buckets[i])] else []
  }

  /** The collectives of the first `m` rounds. */
  function Schedule(rows: seq<Row>, m: nat): seq<Slot> {
    if m == 0 then [] else Schedule(rows, m - 1) + Round(rows, m - 1)
  }

  /** Every collective of a transfer. No rank occurs in it but those of the plan, so all ranks run the same. */
  function Transfer(es: seq<Entry>): seq<Slot> {
    Schedule(Rows(es), MaxLen(Rows(es)))
  }

  // ---------------------------------------------------------------- rows are the ranks' own buckets

  predicate Distinct(rows: seq<Row>) {
    forall j, k :: 0 <= j < k < |rows| ==> rows[j].receiver != rows[k].receiver
  }

  /** The row an entry goes to: an existing one, or a new one at the end. */
  lemma {:induction false} AddToIs(rows: seq<Row>, e: Entry) returns (k: nat)
    ensures k <= |rows| && forall j :: 0 <= j < k ==> rows[j].receiver != e.receiver
    ensures k < |rows| ==> rows[k].receiver == e.receiver
                           && AddTo(rows, e) == rows[k := Row(e.receiver, rows[k].buckets + [e.bucket])]
    ensures k == |rows| ==> AddTo(rows, e) == rows + [Row(e.receiver, [e.bucket])]
  {
    if rows == [] || rows[0].receiver == e.receiver {
      k := 0;
    } else {
      var k' := AddToIs(rows[1..], e);
      k := k' + 1;
      assert rows == [rows[0]] + rows[1..];
    }
  }

  lemma OwnSnoc(es: seq<Entry>, rank: nat)
    requires es != []
    ensures var e := es[|es| - 1];
            Own(es, rank) == Own(es[..|es| - 1], rank) + if e.receiver == rank then [e.bucket] else []
  {
  }

  lemma OwnEmpty(rank: nat)
    ensures Own([], rank) == []
  {
  }

  /** Each row lists the buckets of its receiver in order, and each receiver has one row. */
  lemma {:induction false} RowsAreOwn(es: seq<Entry>)
    ensures Distinct(Rows(es))
    ensures forall j :: 0 <= j < |Rows(es)| ==> Rows(es)[j].buckets == Own(es, Rows(es)[j].receiver)
    ensures forall rank: nat :: (forall j :: 0 <= j < |Rows(es)| ==> Rows(es)[j].receiver != rank) ==> Own(es, rank) == []
  {
    hide Own;
    if es == [] {
      forall rank: nat ensures Own([], rank) == [] { OwnEmpty(rank); }
    } else {
      var init, e := es[..|es| - 1], es[|es| - 1];
      var before, after := Rows(init), Rows(es);
      RowsAreOwn(init);
      var k := AddToIs(before, e);
      forall j | 0 <= j < |after| ensures after[j].buckets == Own(es, after[j].receiver) {
        OwnSnoc(es, after[j].receiver);
      }
      forall rank: nat | forall j :: 0 <= j < |after| ==> after[j].receiver != rank ensures Own(es, rank) == [] {
        OwnSnoc(es, rank);
        assert after[k].receiver != rank;
        forall j | 0 <= j < |before| ensures before[j].receiver != rank {
          assert after[j].receiver == before[j].receiver;
        }
      }
    }
  }

  // ---------------------------------------------------------------- the order of the plan

  /** A rank's own buckets are in the order of assignment: each comes after those assigned to it before. */
  lemma {:induction false} OwnInOrder(es: seq<Entry>, rank: nat, i: nat)
    requires i < |es| && es[i].receiver == rank
    ensures |Own(es[..i], rank)| < |Own(es, rank)| && Own(es, rank)[|Own(es[..i], rank)|] == es[i].bucket
  {
    var n := |es| - 1;
    if i < n {
      OwnInOrder(es[..n], rank, i);
      assert es[..n][..i] == es[..i];
    }
  }

  /** Every bucket of a rank is one assigned to it. */
  lemma {:induction false} OwnIsAssigned(es: seq<Entry>, rank: nat, k: nat) returns (i: nat)
    requires k < |Own(es, rank)|
    ensures i < |es| && es[i].receiver == rank && |Own(es[..i], rank)| == k
  {
    var n := |es| - 1;
    if k < |Own(es[..n], rank)| {
      i := OwnIsAssigned(es[..n], rank, k);
      assert es[..n][..i] == es[..i];
    } else {
      i := n;
    }
  }

  lemma {:induction false} RowFor(es: seq<Entry>, i: nat) returns (j: nat)
    requires i < |es|
    ensures j < |Rows(es)| && Rows(es)[j].receiver == es[i].receiver
  {
    var n := |es| - 1;
    var at := AddToIs(Rows(es[..n]), es[n]);
    if i < n {
      j := RowFor(es[..n], i);
    } else {
      j := at;
    }
  }

  lemma {:induction false} FirstFor(es: seq<Entry>, j: nat) returns (i: nat)
    requires j < |Rows(es)|
    ensures i < |es| && es[i].receiver == Rows(es)[j].receiver
  {
    var n := |es| - 1;
    var at := AddToIs(Rows(es[..n]), es[n]);
    if j == at {
      i := n;
    } else {
      i := FirstFor(es[..n], j);
    }
  }

  lemma RowReceivers(es: seq<Entry>)
    requires es != []
    ensures var before, after := Rows(es[..|es| - 1]), Rows(es);
            && |before| <= |after| <= |before| + 1
            && (forall j :: 0 <= j < |before| ==> after[j].receiver == before[j].receiver)
            && (|after| > |before| ==> after[|before|].receiver == es[|es| - 1].receiver
                                       && forall j :: 0 <= j < |before| ==> before[j].receiver != after[|before|].receiver)
  {
    var at := AddToIs(Rows(es[..|es| - 1]), es[|es| - 1]);
  }

  /** Rows are in the order in which their receivers are first assigned a bucket. */
  lemma {:induction false} RowsInOrder(es: seq<Entry>, j: nat, k: nat) returns (i: nat)
    requires j < k < |Rows(es)|
    ensures i < |es| && es[i].receiver == Rows(es)[j].receiver
    ensures forall l :: 0 <= l <= i ==> es[l].receiver != Rows(es)[k].receiver
  {
    var n := |es| - 1;
    RowReceivers(es);
    hide Rows;
    if k < |Rows(es[..n])| {
      i := RowsInOrder(es[..n], j, k);
      assert forall l :: 0 <= l <= i ==> es[..n][l] == es[l];
    } else {
      i := FirstFor(es[..n], j);
      forall l | 0 <= l <= i ensures es[l].receiver != Rows(es)[k].receiver {
        var r := RowFor(es[..n], l);
      }
    }
  }

  /** Where in the transfer bucket `i` of row `j` is broadcast. */
  function Place(rows: seq<Row>, i: nat, j: nat): nat
    requires j <= |rows|
  {
    |Schedule(rows, i)| + |Round(rows[..j], i)|
  }

  lemma {:induction false} RoundAt(rows: seq<Row>, i: nat, j: nat)
    requires j < |rows| && i < |rows[j].buckets|
    ensures |Round(rows[..j], i)| < |Round(rows, i)|
    ensures Round(rows, i)[|Round(rows[..j], i)|] == Slot(rows[j].receiver, rows[j].buckets[i])
  {
    var n := |rows| - 1;
    if j < n {
      RoundAt(rows[..n], i, j);
      assert rows[..n][..j] == rows[..j];
    }
  }

  lemma RoundSnocLength(rows: seq<Row>, i: nat, k: nat)
    requires k < |rows|
    ensures |Round(rows[..k + 1], i)| == |Round(rows[..k], i)| + if i < |rows[k].buckets| then 1 else 0
  {
    assert rows[..k + 1][..k] == rows[..k];
  }

  lemma {:induction false} RoundGrows(rows: seq<Row>, i: nat, j: nat, k: nat)
    requires j < k <= |rows|
    ensures |Round(rows[..j], i)| + (if i < |rows[j].buckets| then 1 else 0) <= |Round(rows[..k], i)|
  {
    hide Round;
    RoundSnocLength(rows, i, k - 1);
    if j < k - 1 {
      RoundGrows(rows, i, j, k - 1);
    }
  }

  lemma {:induction false} ScheduleExtends(rows: seq<Row>, a: nat, m: nat)
    requires a < m
    ensures |Schedule(rows, a)| + |Round(rows, a)| <= |Schedule(rows, m)|
  {
    hide Round;
    if a < m - 1 {
      ScheduleExtends(rows, a, m - 1);
    }
  }

  lemma {:induction false} InSchedule(rows: seq<Row>, a: nat, m: nat, k: nat)
    requires a < m && k < |Round(rows, a)|
    ensures |Schedule(rows, a)| + k < |Schedule(rows, m)|
    ensures Schedule(rows, m)[|Schedule(rows, a)| + k] == Round(rows, a)[k]
  {
    hide Round;
    if a < m - 1 {
      InSchedule(rows, a, m - 1, k);
    }
  }

  lemma {:induction false} LongestRow(rows: seq<Row>, k: nat)
    requires k < |rows|
    ensures |rows[k].buckets| <= MaxLen(rows)
  {
    if k < |rows| - 1 {
      LongestRow(rows[..|rows| - 1], k);
    }
  }

  /** The transfer has bucket `i` of row `j` in its place. */
  lemma TransferAt(es: seq<Entry>, i: nat, j: nat)
    requires j < |Rows(es)| && i < |Rows(es)[j].buckets|
    ensures Place(Rows(es), i, j) < |Transfer(es)|
    ensures Transfer(es)[Place(Rows(es), i, j)] == Slot(Rows(es)[j].receiver, Rows(es)[j].buckets[i])
  {
    hide Schedule, Round, Rows, MaxLen;
    LongestRow(Rows(es), j);
    RoundAt(Rows(es), i, j);
    InSchedule(Rows(es), i, MaxLen(Rows(es)), |Round(Rows(es)[..j], i)|);
  }

  /** All buckets of a round come before those of the next, and in a round those of one row before those of the next. */
  lemma PlacesIncrease(rows: seq<Row>, i: nat, j: nat, i': nat, j': nat)
    requires j < |rows| && i < |rows[j].buckets| && j' < |rows|
    requires i < i' || (i == i' && j < j')
    ensures Place(rows, i, j) < Place(rows, i', j')
  {
    hide Schedule, Round;
    if i < i' {
      RoundAt(rows, i, j);
      ScheduleExtends(rows, i, i');
    } else {
      RoundGrows(rows, i, j, j');
    }
  }

  // ---------------------------------------------------------------- each bucket is broadcast once

  function SlotOf(e: Entry): Slot { Slot(e.receiver, e.bucket) }

  function Assigned(es: seq<Entry>): seq<Slot> {
    seq(|es|, i requires 0 <= i < |es| => SlotOf(es[i]))
  }

  function IsIt(a: Slot, x: Slot): nat { if a == x then 1 else 0 }

  /** How often `x` occurs in `s`. */
  function Occurrences(s: seq<Slot>, x: Slot): nat {
    if s == [] then 0 else Occurrences(s[..|s| - 1], x) + IsIt(s[|s| - 1], x)
  }

  lemma {:induction false} OccurrencesAppend(s: seq<Slot>, t: seq<Slot>, x: Slot)
    ensures Occurrences(s + t, x) == Occurrences(s, x) + Occurrences(t, x)
  {
    if t == [] {
      assert s + t == s;
    } else {
      assert (s + t)[..|s + t| - 1] == s + t[..|t| - 1];
      OccurrencesAppend(s, t[..|t| - 1], x);
    }
  }

  /** How often `x` occurs among the first `m` collectives of a row, or of all rows. */
  function InRow(row: Row, m: nat, x: Slot): nat {
    if m == 0 then 0
    else InRow(row, m - 1, x) + if m <= |row.buckets| then IsIt(Slot(row.receiver, row.buckets[m - 1]), x) else 0
  }

  function InRows(rows: seq<Row>, m: nat, x: Slot): nat {
    if rows == [] then 0 else InRows(rows[..|rows| - 1], m, x) + InRow(rows[|rows| - 1], m, x)
  }

  lemma {:induction false} OccurrencesInRound(rows: seq<Row>, m: nat, x: Slot)
    ensures InRows(rows, m + 1, x) == InRows(rows, m, x) + Occurrences(Round(rows, m), x)
  {
    if rows != [] {
      var row, init := rows[|rows| - 1], rows[..|rows| - 1];
      OccurrencesInRound(init, m, x);
      var own := if m < |row.buckets| then [Slot(row.receiver, row.buckets[m])] else [];
      assert Round(rows, m) == Round(init, m) + own;
      OccurrencesAppend(Round(init, m), own, x);
      assert own != [] ==> own[..0] == [];
    }
  }

  lemma {:induction false} InNoRounds(rows: seq<Row>, x: Slot)
    ensures InRows(rows, 0, x) == 0
  {
    if rows != [] {
      InNoRounds(rows[..|rows| - 1], x);
    }
  }

  lemma {:induction false} OccurrencesInSchedule(rows: seq<Row>, m: nat, x: Slot)
    ensures Occurrences(Schedule(rows, m), x) == InRows(rows, m, x)
  {
    hide Round, InRows;
    if m == 0 {
      InNoRounds(rows, x);
    } else {
      hide Occurrences;
      OccurrencesInSchedule(rows, m - 1, x);
      OccurrencesInRound(rows, m - 1, x);
      OccurrencesAppend(Schedule(rows, m - 1), Round(rows, m - 1), x);
    }
  }

  /** Appending a bucket to a row adds its collective, when the rounds reach that far. */
  lemma {:induction false} InLongerRow(row: Row, b: Bucket, m: nat, x: Slot)
    ensures InRow(Row(row.receiver, row.buckets + [b]), m, x)
            == InRow(row, m, x) + if m > |row.buckets| then IsIt(Slot(row.receiver, b), x) else 0
  {
    if m > 0 {
      InLongerRow(row, b, m - 1, x);
    }
  }

  lemma {:induction false} InUpdated(rows: seq<Row>, k: nat, row: Row, m: nat, x: Slot)
    requires k < |rows|
    ensures InRows(rows[k := row], m, x) + InRow(rows[k], m, x) == InRows(rows, m, x) + InRow(row, m, x)
  {
    var n := |rows| - 1;
    if k < n {
      assert rows[k := row][..n] == rows[..n][k := row];
      InUpdated(rows[..n], k, row, m, x);
    } else {
      assert rows[k := row][..n] == rows[..n];
    }
  }

  lemma {:induction false} InEmptyRow(receiver: nat, m: nat, x: Slot)
    ensures InRow(Row(receiver, []), m, x) == 0
  {
    if m > 0 {
      InEmptyRow(receiver, m - 1, x);
    }
  }

  lemma InAddedTo(rows: seq<Row>, e: Entry, m: nat, x: Slot)
    requires m >= MaxLen(AddTo(rows, e))
    ensures InRows(AddTo(rows, e), m, x) == InRows(rows, m, x) + IsIt(SlotOf(e), x)
  {
    var k := AddToIs(rows, e);
    var after := AddTo(rows, e);
    LongestRow(after, k);
    if k < |rows| {
      InLongerRow(rows[k], e.bucket, m, x);
      InUpdated(rows, k, after[k], m, x);
    } else {
      assert after[..k] == rows;
      assert [] + [e.bucket] == [e.bucket];
      InLongerRow(Row(e.receiver, []), e.bucket, m, x);
      InEmptyRow(e.receiver, m, x);
    }
  }

  lemma {:induction false} MaxLenBound(rows: seq<Row>, m: nat)
    requires forall j :: 0 <= j < |rows| ==> |rows[j].buckets| <= m
    ensures MaxLen(rows) <= m
  {
    if rows != [] {
      MaxLenBound(rows[..|rows| - 1], m);
    }
  }

  lemma AddToLonger(rows: seq<Row>, e: Entry)
    ensures MaxLen(rows) <= MaxLen(AddTo(rows, e))
  {
    var k := AddToIs(rows, e);
    var after := AddTo(rows, e);
    forall j | 0 <= j < |rows| ensures |rows[j].buckets| <= MaxLen(after) {
      LongestRow(after, j);
    }
    MaxLenBound(rows, MaxLen(after));
  }

  lemma {:induction false} InAllRows(es: seq<Entry>, m: nat, x: Slot)
    requires m >= MaxLen(Rows(es))
    ensures InRows(Rows(es), m, x) == Occurrences(Assigned(es), x)
  {
    if es != [] {
      var init, e := es[..|es| - 1], es[|es| - 1];
      AddToLonger(Rows(init), e);
      InAllRows(init, m, x);
      InAddedTo(Rows(init), e, m, x);
      assert Assigned(es)[..|es| - 1] == Assigned(init);
    }
  }

  /** A transfer broadcasts every assigned bucket from its receiver, exactly as often as it is assigned. */
  lemma EachBucketOnce(es: seq<Entry>, x: Slot)
    ensures Occurrences(Transfer(es), x) == Occurrences(Assigned(es), x)
  {
    OccurrencesInSchedule(Rows(es), MaxLen(Rows(es)), x);
    InAllRows(es, MaxLen(Rows(es)), x);
  }

  lemma {:induction false} OccursIn(s: seq<Slot>, k: nat)
    requires k < |s|
    ensures Occurrences(s, s[k]) > 0
  {
    if k < |s| - 1 {
      OccursIn(s[..|s| - 1], k);
    }
  }

  /** Nothing is broadcast only when nothing is assigned. */
  lemma NothingToTransfer(es: seq<Entry>)
    ensures Transfer(es) == [] <==> es == []
  {
    if es != [] {
      OccursIn(Assigned(es), 0);
      EachBucketOnce(es, SlotOf(es[0]));
    }
  }

  // ---------------------------------------------------------------- the transfer on one rank

  function Half(gidx: nat, bucketSize: nat): nat {
    if gidx % 2 == 0 then 0 else bucketSize
  }

  function BucketsOf(slots: seq<Slot>): seq<Bucket> {
    seq(|slots|, k requires 0 <= k < |slots| => slots[k].bucket)
  }

  /** The bytes lie in `buf` from `base` on. */
  predicate Lies(buf: seq<byte>, base: nat, data: seq<byte>) {
    base + |data| <= |buf| && buf[base..base + |data|] == data
  }

  /** `buffer[start : start + |data|] = data` */
  method Fill(buffer: array<byte>, start: nat, data: seq<byte>)
    requires start + |data| <= buffer.Length
    modifies buffer
    ensures Lies(buffer[..], start, data)
    ensures buffer[..start] == old(buffer[..start]) && buffer[start + |data|..] == old(buffer[start + |data|..])
  {
    for i := 0 to |data|
      invariant buffer[start..start + i] == data[..i]
      invariant buffer[..start] == old(buffer[..start]) && buffer[start + |data|..] == old(buffer[start + |data|..])
    {
      buffer[start + i] := data[i];
    }
    assert buffer[..][start..start + |data|] == buffer[start..start + |data|];
  }

  /** A broadcast from another rank is under way: the bytes are unknown until it completes. */
  method Unknown(buffer: array<byte>, start: nat, size: nat)
    requires start + size <= buffer.Length
    modifies buffer
    ensures buffer[..start] == old(buffer[..start]) && buffer[start + size..] == old(buffer[start + size..])
  {
    for i := 0 to size
      invariant buffer[..start] == old(buffer[..start]) && buffer[start + size..] == old(buffer[start + size..])
    {
      buffer[start + i] := *;
    }
  }

  predicate FitsHalf(b: Bucket, bucketSize: nat) {
    InBounds(b) && |b.data| <= bucketSize
  }

  lemma {:induction false} OwnFits(es: seq<Entry>, rank: nat, bucketSize: nat)
    requires forall k :: 0 <= k < |es| ==> FitsHalf(es[k].bucket, bucketSize)
    ensures forall k :: 0 <= k < |Own(es, rank)| ==> FitsHalf(Own(es, rank)[k], bucketSize)
  {
    if es != [] {
      OwnFits(es[..|es| - 1], rank, bucketSize);
    }
  }

  /** A tensor described by `m` in the bucket that begins at `base`. */
  function ItemAt(buf: seq<byte>, base: nat, m: TensorMeta): Weight {
    Weight(m.name, m.shape, m.dtype, Window(buf, base + m.offset, base + EndOf(m)))
  }

  function ItemsAt(buf: seq<byte>, base: nat, metadata: seq<TensorMeta>): seq<Weight> {
    seq(|metadata|, j requires 0 <= j < |metadata| => ItemAt(buf, base, metadata[j]))
  }

  lemma SliceOfSlice(s: seq<byte>, base: nat, end: nat, lo: nat, hi: nat)
    requires base <= end <= |s| && lo <= hi <= end - base
    ensures s[base..end][lo..hi] == s[base + lo..base + hi]
  {
    var t := s[base..end];
    assert forall k :: lo <= k < hi ==> t[k] == s[base + k];
  }

  lemma EndIsAfter(m: TensorMeta)
    ensures m.offset <= EndOf(m)
  {
  }

  lemma WindowThatLies(buf: seq<byte>, base: nat, data: seq<byte>, lo: nat, hi: nat)
    requires Lies(buf, base, data) && lo <= hi <= |data|
    ensures Window(buf, base + lo, base + hi) == Window(data, lo, hi)
  {
    SliceOfSlice(buf, base, base + |data|, lo, hi);
    assert Window(data, lo, hi) == data[lo..hi] && Window(buf, base + lo, base + hi) == buf[base + lo..base + hi];
  }

  lemma ItemThatLies(buf: seq<byte>, base: nat, b: Bucket, j: nat)
    requires Lies(buf, base, b.data) && InBounds(b) && j < |b.meta|
    ensures ItemAt(buf, base, b.meta[j]) == Items(b)[j]
  {
    hide EndOf, Lies, Window;
    var m := b.meta[j];
    EndIsAfter(m);
    WindowThatLies(buf, base, b.data, m.offset, EndOf(m));
  }

  lemma ItemsThatLie(buf: seq<byte>, base: nat, b: Bucket)
    requires Lies(buf, base, b.data) && InBounds(b)
    ensures ItemsAt(buf, base, b.meta) == Items(b)
  {
    hide Lies, InBounds;
    forall j | 0 <= j < |b.meta| ensures ItemsAt(buf, base, b.meta)[j] == Items(b)[j] {
      ItemThatLies(buf, base, b, j);
    }
  }

  lemma StillLies(was: seq<byte>, now: seq<byte>, start: nat, size: nat, base: nat, data: seq<byte>)
    requires |was| == |now| && start + size <= |was|
    requires was[..start] == now[..start] && was[start + size..] == now[start + size..]
    requires base + |data| <= start || start + size <= base
    requires Lies(was, base, data)
    ensures Lies(now, base, data)
  {
    var end, m := base + |data|, start + size;
    if end <= start {
      SliceOfSlice(was, 0, start, base, end);
      SliceOfSlice(now, 0, start, base, end);
      assert was[0..start] == was[..start] && now[0..start] == now[..start];
    } else {
      SliceOfSlice(was, m, |was|, base - m, end - m);
      SliceOfSlice(now, m, |now|, base - m, end - m);
      assert was[m..|was|] == was[m..] && now[m..|now|] == now[m..];
    }
  }

  /** Yields the tensors of bucket `b`; before each of them the `size` bytes from `start` may change. */
  method YieldItems(buffer: array<byte>, base: nat, metadata: seq<TensorMeta>, start: nat, size: nat, ghost b: Bucket)
    returns (items: seq<Weight>)
    requires Lies(buffer[..], base, b.data) && InBounds(b) && metadata == b.meta
    requires start + size <= buffer.Length && (base + |b.data| <= start || start + size <= base)
    modifies buffer
    ensures items == Items(b) && Lies(buffer[..], base, b.data)
    ensures buffer[..start] == old(buffer[..start]) && buffer[start + size..] == old(buffer[start + size..])
  {
    hide *;
    items := [];
    ItemsLength(b);
    for j := 0 to |metadata|
      invariant items == Items(b)[..j] && Lies(buffer[..], base, b.data)
      invariant buffer[..start] == old(buffer[..start]) && buffer[start + size..] == old(buffer[start + size..])
    {
      ghost var was := buffer[..];
      Unknown(buffer, start, size);
      StillLies(was, buffer[..], start, size, base, b.data);
      ItemThatLies(buffer[..], base, b, j);
      items := items + [ItemAt(buffer[..], base, metadata[j])];
    }
  }

  method OwnBuckets(es: seq<Entry>, rank: nat) returns (own: seq<Bucket>)
    ensures own == Own(es, rank)
  {
    own := [];
    for k := 0 to |es|
      invariant own == Own(es[..k], rank)
    {
      assert es[..k + 1][..k] == es[..k];
      if es[k].receiver != rank {
        continue;
      }
      own := own + [es[k].bucket];
    }
    assert es[..|es|] == es;
  }

  /** `buckets_by_receiver_rank[receiver]` */
  function Find(rows: seq<Row>, receiver: nat): seq<Bucket> {
    if rows == [] then [] else if rows[0].receiver == receiver then rows[0].buckets else Find(rows[1..], receiver)
  }

  lemma {:induction false} FindAt(rows: seq<Row>, receiver: nat, k: nat)
    requires k < |rows| && rows[k].receiver == receiver && forall j :: 0 <= j < k ==> rows[j].receiver != receiver
    ensures Find(rows, receiver) == rows[k].buckets
  {
    if k > 0 {
      FindAt(rows[1..], receiver, k - 1);
    }
  }

  /** The longest row is the one before, or the one that has just grown. */
  lemma LongerBy(rows: seq<Row>, e: Entry, k: nat)
    requires k <= |rows| && forall j :: 0 <= j < k ==> rows[j].receiver != e.receiver
    requires k < |rows| ==> rows[k].receiver == e.receiver
                            && AddTo(rows, e) == rows[k := Row(e.receiver, rows[k].buckets + [e.bucket])]
    requires k == |rows| ==> AddTo(rows, e) == rows + [Row(e.receiver, [e.bucket])]
    ensures var after := AddTo(rows, e);
            MaxLen(after) == if |after[k].buckets| > MaxLen(rows) then |after[k].buckets| else MaxLen(rows)
  {
    hide MaxLen, AddTo;
    var after := AddTo(rows, e);
    LongestRow(after, k);
    AddToLonger(rows, e);
    forall j | 0 <= j < |rows| ensures |rows[j].buckets| <= MaxLen(rows) { LongestRow(rows, j); }
    MaxLenBound(after, if |after[k].buckets| > MaxLen(rows) then |after[k].buckets| else MaxLen(rows));
  }

  method ByReceiver(es: seq<Entry>) returns (rows: seq<Row>, maxLen: nat)
    ensures rows == Rows(es) && maxLen == MaxLen(rows)
  {
    rows, maxLen := [], 0;
    for k := 0 to |es|
      invariant rows == Rows(es[..k]) && maxLen == MaxLen(rows)
    {
      assert es[..k + 1][..k] == es[..k];
      ghost var at := AddToIs(rows, es[k]);
      LongerBy(rows, es[k], at);
      rows := AddTo(rows, es[k]);
      var len := |Find(rows, es[k].receiver)|;
      FindAt(rows, es[k].receiver, at);
      if len > maxLen {
        maxLen := len;
      }
    }
    assert es[..|es|] == es;
  }

  /** One collective from start to completion, the previous bucket's tensors being yielded in between. */
  method Exchange(buffer: array<byte>, start: nat, data: seq<byte>, isSource: bool,
                  shownAt: nat, shown: seq<TensorMeta>, ghost b: Bucket)
    returns (items: seq<Weight>)
    requires start + |data| <= buffer.Length && Lies(buffer[..], shownAt, b.data) && InBounds(b) && shown == b.meta
    requires shownAt + |b.data| <= start || start + |data| <= shownAt
    requires isSource ==> Lies(buffer[..], start, data)
    modifies buffer
    ensures Lies(buffer[..], start, data)
    ensures Lies(buffer[..], shownAt, b.data)
    ensures items == Items(b) == ItemsAt(buffer[..], shownAt, shown)
  {
    hide *;
    if isSource {
      ghost var was := buffer[..];
      items := YieldItems(buffer, shownAt, shown, start, 0, b);
      assert was == was[..start] + was[start..] && buffer[..] == buffer[..start] + buffer[start..];
    } else {
      items := YieldItems(buffer, shownAt, shown, start, |data|, b);
      ghost var yielding := buffer[..];
      Fill(buffer, start, data);
      StillLies(yielding, buffer[..], start, |data|, shownAt, b.data);
    }
    ItemsThatLie(buffer[..], shownAt, b);
  }

  /** What the loop knows after the collectives of `trace`. */
  ghost predicate Arrived(trace: seq<Slot>, metadata: seq<TensorMeta>, yielded: seq<Weight>, buf: seq<byte>,
                          bucketSize: nat)
  {
    && (forall k :: 0 <= k < |trace| ==> FitsHalf(trace[k].bucket, bucketSize))
    && if trace == [] then yielded == []
       else
         var last := trace[|trace| - 1].bucket;
         && metadata == last.meta
         && Lies(buf, Half(|trace| - 1, bucketSize), last.data)
         && yielded == Decode(BucketsOf(trace[..|trace| - 1]))
  }

  lemma ArrivesNext(trace: seq<Slot>, metadata: seq<TensorMeta>, yielded: seq<Weight>, was: seq<byte>, slot: Slot,
                    items: seq<Weight>, now: seq<byte>, bucketSize: nat)
    requires Arrived(trace, metadata, yielded, was, bucketSize) && FitsHalf(slot.bucket, bucketSize)
    requires Lies(now, Half(|trace|, bucketSize), slot.bucket.data)
    requires items == if trace == [] then [] else Items(trace[|trace| - 1].bucket)
    ensures Arrived(trace + [slot], slot.bucket.meta, yielded + items, now, bucketSize)
  {
    var after := trace + [slot];
    assert after[..|trace|] == trace;
    if trace != [] {
      var k := |trace| - 1;
      DecodeSnoc(BucketsOf(trace), k);
      assert BucketsOf(trace)[..k + 1] == BucketsOf(trace);
      assert BucketsOf(trace)[..k] == BucketsOf(trace[..k]);
    } else {
      assert BucketsOf(trace) == [];
    }
  }

  lemma FitsMeans(b: Bucket, bucketSize: nat)
    requires FitsHalf(b, bucketSize)
    ensures InBounds(b) && |b.data| <= bucketSize
  {
  }

  /** Consecutive collectives use different halves. */
  lemma HalvesFit(gidx: nat, bucketSize: nat)
    ensures Half(gidx, bucketSize) + bucketSize <= 2 * bucketSize
    ensures gidx > 0 ==> Half(gidx - 1, bucketSize) + bucketSize <= Half(gidx, bucketSize)
                         || Half(gidx, bucketSize) + bucketSize <= Half(gidx - 1, bucketSize)
  {
  }

  lemma ArrivedLast(trace: seq<Slot>, metadata: seq<TensorMeta>, yielded: seq<Weight>, buf: seq<byte>, bucketSize: nat)
    requires trace != [] && Arrived(trace, metadata, yielded, buf, bucketSize)
    ensures var last := trace[|trace| - 1].bucket;
            metadata == last.meta && InBounds(last) && |last.data| <= bucketSize
            && Lies(buf, Half(|trace| - 1, bucketSize), last.data)
            && yielded == Decode(BucketsOf(trace[..|trace| - 1]))
  {
  }

  lemma LiesAt(buf: seq<byte>, base: nat, data: seq<byte>)
    requires Lies(buf, base, data)
    ensures base + |data| <= |buf| && buf[base..base + |data|] == data
  {
  }

  lemma LiesAtFront(buf: seq<byte>, data: seq<byte>)
    requires Lies(buf, 0, data)
    ensures |data| <= |buf| && buf[..|data|] == data
  {
    assert buf[0..|data|] == buf[..|data|];
  }

  /** What a rank sees of collectives `from`, `from` + 1, …: its own buckets, and what the others bring. */
  function Seen(slots: seq<Slot>, from: nat, rank: nat, deliver: nat -> Bucket): seq<Slot> {
    seq(|slots|, k requires 0 <= k < |slots| =>
      if slots[k].source == rank then slots[k] else Slot(slots[k].source, deliver(from + k)))
  }

  /** A collective of another rank brings as many bytes as its bucket has, described by metadata within them. */
  predicate Carries(b: Bucket, planned: Bucket) {
    InBounds(b) && |b.data| == |planned.data|
  }

  ghost predicate AllCarry(slots: seq<Slot>, from: nat, rank: nat, deliver: nat -> Bucket) {
    forall k :: 0 <= k < |slots| && slots[k].source != rank ==> Carries(deliver(from + k), slots[k].bucket)
  }

  lemma SeenAppend(a: seq<Slot>, b: seq<Slot>, from: nat, rank: nat, deliver: nat -> Bucket)
    ensures Seen(a + b, from, rank, deliver) == Seen(a, from, rank, deliver) + Seen(b, from + |a|, rank, deliver)
    ensures |Seen(a, from, rank, deliver)| == |a|
  {
  }

  lemma SeenOne(slot: Slot, from: nat, rank: nat, deliver: nat -> Bucket)
    ensures Seen([slot], from, rank, deliver)
            == [if slot.source == rank then slot else Slot(slot.source, deliver(from))]
    ensures Seen([], from, rank, deliver) == []
  {
  }

  lemma CarriesFits(b: Bucket, planned: Bucket, bucketSize: nat)
    requires Carries(b, planned) && FitsHalf(planned, bucketSize)
    ensures FitsHalf(b, bucketSize) && |b.data| == |planned.data|
  {
  }

  lemma NothingLies(buf: seq<byte>)
    ensures Lies(buf, 0, [])
  {
  }

  /** The rank's own bucket goes into the half, from the staging buffer if there is one, beside the bucket shown. */
  method LoadOwn(data: seq<byte>, disableH2d: bool, buffer: array<byte>, h2d: array<byte>, start: nat,
                 ghost base: nat, ghost shown: seq<byte>)
    requires buffer != h2d && start + |data| <= buffer.Length && (!disableH2d ==> Lies(h2d[..], 0, data))
    requires Lies(buffer[..], base, shown) && (base + |shown| <= start || start + |data| <= base)
    modifies buffer
    ensures Lies(buffer[..], start, data) && Lies(buffer[..], base, shown)
  {
    hide *;
    ghost var was := buffer[..];
    if disableH2d {
      Fill(buffer, start, data);
    } else {
      LiesAtFront(h2d[..], data);
      Fill(buffer, start, h2d[..|data|]);
    }
    StillLies(was, buffer[..], start, |data|, base, shown);
  }

  /** One pass of the inner loop: fill the half, broadcast it, and yield the bucket in the other half. `brought` is what
    the collective of another rank brings. */
  method BroadcastNext(slot: Slot, isSource: bool, brought: Bucket, disableH2d: bool, buffer: array<byte>, h2d: array<byte>,
                       bucketSize: nat, gidx: nat, metadata: seq<TensorMeta>,
                       ghost trace: seq<Slot>, ghost yielded: seq<Weight>)
    returns (items: seq<Weight>, sent: Slot)
    requires buffer != h2d && buffer.Length == 2 * bucketSize && gidx == |trace|
    requires FitsHalf(slot.bucket, bucketSize) && Arrived(trace, metadata, yielded, buffer[..], bucketSize)
    requires isSource && !disableH2d ==> Lies(h2d[..], 0, slot.bucket.data)
    requires !isSource ==> Carries(brought, slot.bucket)
    modifies buffer
    ensures sent == Slot(slot.source, if isSource then slot.bucket else brought)
    ensures Arrived(trace + [sent], sent.bucket.meta, yielded + items, buffer[..], bucketSize)
  {
    hide *;
    ghost var was := buffer[..];
    var start, size := Half(gidx, bucketSize), |slot.bucket.data|;
    FitsMeans(slot.bucket, bucketSize);
    HalvesFit(gidx, bucketSize);
    if gidx > 0 {
      ArrivedLast(trace, metadata, yielded, was, bucketSize);
    }
    ghost var base := if gidx > 0 then Half(gidx - 1, bucketSize) else 0;
    ghost var shown := if gidx > 0 then trace[gidx - 1].bucket.data else [];
    NothingLies(was);
    if isSource {
      LoadOwn(slot.bucket.data, disableH2d, buffer, h2d, start, base, shown);
    } else {
      CarriesFits(brought, slot.bucket, bucketSize);
    }
    var bucket := if isSource then slot.bucket else brought;
    assert FitsHalf(bucket, bucketSize) && |bucket.data| == size;
    if gidx == 0 {
      if !isSource {
        Unknown(buffer, start, size);
        Fill(buffer, start, bucket.data);
      }
      items := [];
    } else {
      items := Exchange(buffer, start, bucket.data, isSource, Half(gidx - 1, bucketSize), metadata, trace[gidx - 1].bucket);
    }
    LiesAt(buffer[..], start, bucket.data);
    sent := Slot(slot.source, Bucket(bucket.meta, buffer[..][start..start + size]));
    assert sent == Slot(slot.source, bucket);
    ArrivesNext(trace, metadata, yielded, was, Slot(slot.source, bucket), items, buffer[..], bucketSize);
  }

  /** Every bucket fits, and the row of this rank lists the rank's own buckets. */
  predicate Planned(rows: seq<Row>, rank: nat, own: seq<Bucket>, bucketSize: nat) {
    && (forall j, k :: 0 <= j < |rows| && 0 <= k < |rows[j].buckets| ==> FitsHalf(rows[j].buckets[k], bucketSize))
    && (forall k :: 0 <= k < |own| ==> FitsHalf(own[k], bucketSize))
    && (forall j :: 0 <= j < |rows| && rows[j].receiver == rank ==> rows[j].buckets == own)
  }

  lemma PlanIs(es: seq<Entry>, rank: nat, bucketSize: nat)
    requires forall k :: 0 <= k < |es| ==> FitsHalf(es[k].bucket, bucketSize)
    ensures Planned(Rows(es), rank, Own(es, rank), bucketSize)
  {
    hide FitsHalf, Rows, Own;
    RowsAreOwn(es);
    OwnFits(es, rank, bucketSize);
    forall j | 0 <= j < |Rows(es)|
      ensures forall k :: 0 <= k < |Rows(es)[j].buckets| ==> FitsHalf(Rows(es)[j].buckets[k], bucketSize)
    {
      OwnFits(es, Rows(es)[j].receiver, bucketSize);
    }
  }

  lemma PlannedOwn(rows: seq<Row>, rank: nat, own: seq<Bucket>, bucketSize: nat, i: nat)
    requires Planned(rows, rank, own, bucketSize) && i < |own|
    ensures |own[i].data| <= bucketSize
  {
  }

  lemma PlannedRow(rows: seq<Row>, rank: nat, own: seq<Bucket>, bucketSize: nat, j: nat, i: nat)
    requires Planned(rows, rank, own, bucketSize) && j < |rows| && i < |rows[j].buckets|
    ensures FitsHalf(rows[j].buckets[i], bucketSize)
    ensures rows[j].receiver == rank ==> i < |own| && rows[j].buckets[i] == own[i]
  {
  }

  lemma RoundSnoc(rows: seq<Row>, j: nat, i: nat)
    requires j < |rows|
    ensures Round(rows[..j + 1], i)
            == Round(rows[..j], i) + if i < |rows[j].buckets| then [Slot(rows[j].receiver, rows[j].buckets[i])] else []
  {
    assert rows[..j + 1][..j] == rows[..j];
  }

  lemma RoundEmpty(i: nat)
    ensures Round([], i) == []
  {
  }

  lemma {:induction false} RoundPrefix(rows: seq<Row>, j: nat, i: nat)
    requires j <= |rows|
    ensures Round(rows[..j], i) <= Round(rows, i)
    decreases |rows| - j
  {
    if j == |rows| {
      assert rows[..j] == rows;
    } else {
      RoundSnoc(rows, j, i);
      RoundPrefix(rows, j + 1, i);
    }
  }

  /** The collective that row `j` adds to a round carries what it should. */
  lemma RowCarries(rows: seq<Row>, j: nat, i: nat, from: nat, rank: nat, deliver: nat -> Bucket)
    requires j < |rows| && i < |rows[j].buckets| && AllCarry(Round(rows, i), from, rank, deliver)
    ensures rows[j].receiver != rank ==> Carries(deliver(from + |Round(rows[..j], i)|), rows[j].buckets[i])
  {
    hide Round, Carries;
    RoundSnoc(rows, j, i);
    RoundPrefix(rows, j + 1, i);
    var k := |Round(rows[..j], i)|;
    assert Round(rows, i)[k] == Round(rows[..j + 1], i)[k] == Slot(rows[j].receiver, rows[j].buckets[i]);
  }

  /** One round: load this rank's own bucket, then one collective for each row that is long enough. */
  method RunRound(rank: nat, rows: seq<Row>, own: seq<Bucket>, i: nat, bucketSize: nat, deliver: nat -> Bucket,
                  disableH2d: bool, buffer: array<byte>, h2d: array<byte>,
                  ghost trace: seq<Slot>, gidx: nat, metadata: seq<TensorMeta>, ghost yielded: seq<Weight>)
    returns (items: seq<Weight>, sent: seq<Slot>, last: seq<TensorMeta>)
    requires buffer != h2d && buffer.Length == 2 * bucketSize && h2d.Length == bucketSize && gidx == |trace|
    requires Planned(rows, rank, own, bucketSize) && AllCarry(Round(rows, i), gidx, rank, deliver)
    requires Arrived(trace, metadata, yielded, buffer[..], bucketSize)
    modifies buffer, h2d
    ensures sent == Seen(Round(rows, i), gidx, rank, deliver)
    ensures Arrived(trace + sent, last, yielded + items, buffer[..], bucketSize)
  {
    hide *;
    items, sent, last := [], [], metadata;
    if i < |own| && !disableH2d {
      PlannedOwn(rows, rank, own, bucketSize, i);
      Fill(h2d, 0, own[i].data);
    }
    assert trace + [] == trace && yielded + [] == yielded;
    RoundEmpty(i);
    SeenOne(Slot(0, Bucket([], [])), gidx, rank, deliver);
    for j := 0 to |rows|
      invariant sent == Seen(Round(rows[..j], i), gidx, rank, deliver) && |sent| == |Round(rows[..j], i)|
      invariant Arrived(trace + sent, last, yielded + items, buffer[..], bucketSize)
      invariant i < |own| && !disableH2d ==> Lies(h2d[..], 0, own[i].data)
    {
      RoundSnoc(rows, j, i);
      if i >= |rows[j].buckets| {
        assert Round(rows[..j], i) + [] == Round(rows[..j], i);
        continue;
      }
      PlannedRow(rows, rank, own, bucketSize, j, i);
      RowCarries(rows, j, i, gidx, rank, deliver);
      var slot := Slot(rows[j].receiver, rows[j].buckets[i]);
      SeenAppend(Round(rows[..j], i), [slot], gidx, rank, deliver);
      SeenOne(slot, gidx + |sent|, rank, deliver);
      var more, done := BroadcastNext(slot, slot.source == rank, deliver(gidx + |sent|), disableH2d, buffer, h2d, bucketSize,
                                      gidx + |sent|, last, trace + sent, yielded + items);
      assert trace + (sent + [done]) == (trace + sent) + [done];
      assert yielded + (items + more) == (yielded + items) + more;
      items, sent, last := items + more, sent + [done], done.bucket.meta;
    }
    assert rows[..|rows|] == rows;
  }

  lemma {:induction false} SchedulePrefix(rows: seq<Row>, i: nat, m: nat)
    requires i <= m
    ensures Schedule(rows, i) <= Schedule(rows, m)
    decreases m - i
  {
    if i < m {
      SchedulePrefix(rows, i, m - 1);
    }
  }

  lemma PartCarries(a: seq<Slot>, b: seq<Slot>, whole: seq<Slot>, rank: nat, deliver: nat -> Bucket)
    requires a + b <= whole && AllCarry(whole, 0, rank, deliver)
    ensures AllCarry(b, |a|, rank, deliver)
  {
    hide Carries;
    forall k | 0 <= k < |b| && b[k].source != rank ensures Carries(deliver(|a| + k), b[k].bucket) {
      var n := |a| + k;
      assert whole[n] == (a + b)[n] == b[k];
      assert Carries(deliver(0 + n), whole[n].bucket);
    }
  }

  /** The collectives of round `i` carry what they should when those of the whole schedule do. */
  lemma RoundCarries(rows: seq<Row>, i: nat, m: nat, rank: nat, deliver: nat -> Bucket)
    requires i < m && AllCarry(Schedule(rows, m), 0, rank, deliver)
    ensures AllCarry(Round(rows, i), |Schedule(rows, i)|, rank, deliver)
  {
    hide Round, AllCarry;
    SchedulePrefix(rows, i + 1, m);
    assert Schedule(rows, i + 1) == Schedule(rows, i) + Round(rows, i);
    PartCarries(Schedule(rows, i), Round(rows, i), Schedule(rows, m), rank, deliver);
  }

  lemma NextRound(rows: seq<Row>, i: nat, rank: nat, deliver: nat -> Bucket)
    ensures Seen(Schedule(rows, i + 1), 0, rank, deliver)
            == Seen(Schedule(rows, i), 0, rank, deliver) + Seen(Round(rows, i), |Schedule(rows, i)|, rank, deliver)
    ensures |Seen(Schedule(rows, i), 0, rank, deliver)| == |Schedule(rows, i)|
    ensures Seen(Schedule(rows, 0), 0, rank, deliver) == []
  {
    SeenAppend(Schedule(rows, i), Round(rows, i), 0, rank, deliver);
  }

  lemma AllYielded(trace: seq<Slot>)
    requires trace != []
    ensures Decode(BucketsOf(trace))
            == Decode(BucketsOf(trace[..|trace| - 1])) + Items(trace[|trace| - 1].bucket)
  {
    var bs := BucketsOf(trace);
    assert bs[..|bs| - 1] == BucketsOf(trace[..|trace| - 1]);
  }

  lemma NothingArrived(buf: seq<byte>, bucketSize: nat)
    ensures Arrived([], [], [], buf, bucketSize)
  {
  }

  lemma TransferIs(es: seq<Entry>)
    ensures Transfer(es) == Schedule(Rows(es), MaxLen(Rows(es)))
  {
  }

  /** On every rank the collectives are those of the plan, and the tensors yielded are those of all buckets that they
    bring, in that order. Without a bucket, `metadata` is read before it is assigned. */
  method ReceiveTensor(rank: nat, es: seq<Entry>, bucketSize: nat, deliver: nat -> Bucket, disableH2d: bool,
                       buffer: array<byte>, h2d: array<byte>)
    returns (r: Result<seq<Weight>>, trace: seq<Slot>)
    requires buffer != h2d && buffer.Length == 2 * bucketSize && h2d.Length == bucketSize
    requires forall k :: 0 <= k < |es| ==> FitsHalf(es[k].bucket, bucketSize)
    requires AllCarry(Transfer(es), 0, rank, deliver)
    modifies buffer, h2d
    ensures trace == Seen(Transfer(es), 0, rank, deliver)
    ensures r.Ok? || r.UnboundLocalError?
    ensures r.Ok? <==> es != []
    ensures r.Ok? ==> r.value == Decode(BucketsOf(trace))
  {
    hide *;
    var own := OwnBuckets(es, rank);
    var rows, maxLen := ByReceiver(es);
    PlanIs(es, rank, bucketSize);
    TransferIs(es);
    var yielded: seq<Weight>, metadata: seq<TensorMeta> := [], [];
    trace := [];
    NextRound(rows, 0, rank, deliver);
    NothingArrived(buffer[..], bucketSize);
    for i := 0 to maxLen
      invariant trace == Seen(Schedule(rows, i), 0, rank, deliver)
      invariant Arrived(trace, metadata, yielded, buffer[..], bucketSize)
    {
      NextRound(rows, i, rank, deliver);
      RoundCarries(rows, i, maxLen, rank, deliver);
      var items, sent, last := RunRound(rank, rows, own, i, bucketSize, deliver, disableH2d, buffer, h2d,
                                        trace, |trace|, metadata, yielded);
      trace, yielded, metadata := trace + sent, yielded + items, last;
    }
    NothingToTransfer(es);
    NextRound(rows, maxLen, rank, deliver);
    if trace == [] {
      return UnboundLocalError, trace;
    }
    var last := |trace| - 1;
    ArrivedLast(trace, metadata, yielded, buffer[..], bucketSize);
    HalvesFit(last, bucketSize);
    var items := YieldItems(buffer, Half(last, bucketSize), metadata, 0, 0, trace[last].bucket);
    AllYielded(trace);
    r := Ok(yielded + items);
  }

  // ---------------------------------------------------------------- all ranks together

  lemma {:induction false} OccursSomewhere(s: seq<Slot>, x: Slot)
    requires Occurrences(s, x) > 0
    ensures x in s
  {
    if s[|s| - 1] != x {
      OccursSomewhere(s[..|s| - 1], x);
    }
  }

  /** Every collective has a receiver of the plan as its source. */
  lemma SourceIsReceiver(es: seq<Entry>, k: nat)
    requires k < |Transfer(es)|
    ensures exists j :: 0 <= j < |es| && es[j].receiver == Transfer(es)[k].source
  {
    hide Transfer;
    var x := Transfer(es)[k];
    OccursIn(Transfer(es), k);
    EachBucketOnce(es, x);
    OccursSomewhere(Assigned(es), x);
    var j :| 0 <= j < |es| && Assigned(es)[j] == x;
    assert es[j].receiver == x.source;
  }

  /** A collective gives every rank the bucket of its source. */
  ghost predicate Transported(traces: seq<seq<Slot>>, n: nat) {
    && (forall r :: 0 <= r < |traces| ==> |traces[r]| == n)
    && forall r, k :: 0 <= r < |traces| && 0 <= k < n && traces[r][k].source < |traces| ==>
         traces[r][k].bucket == traces[traces[r][k].source][k].bucket
  }

  /** When every rank runs `ReceiveTensor` and collectives bring what their source sends, every rank has taken part in
    the transfer of exactly the assigned buckets, and so yields the same tensors in the same order. */
  lemma EveryRankReceives(es: seq<Entry>, delivers: seq<nat -> Bucket>, traces: seq<seq<Slot>>, r: nat)
    requires r < |traces| == |delivers| && forall j :: 0 <= j < |es| ==> es[j].receiver < |traces|
    requires forall q :: 0 <= q < |traces| ==> traces[q] == Seen(Transfer(es), 0, q, delivers[q])
    requires Transported(traces, |Transfer(es)|)
    ensures traces[r] == Transfer(es) && Decode(BucketsOf(traces[r])) == Decode(BucketsOf(Transfer(es)))
  {
    hide Transfer, Decode, BucketsOf;
    forall k | 0 <= k < |Transfer(es)| ensures traces[r][k] == Transfer(es)[k] {
      SourceIsReceiver(es, k);
      var src := Transfer(es)[k].source;
      assert traces[src][k] == Transfer(es)[k];
      assert traces[r][k].source == src;
    }
  }
}
