/** Splitting layers over pipeline stages for merging a Megatron checkpoint. */
module PipelineShards {
  import opened Arithmetic
  import opened Prelude

  datatype Candidate = Candidate(shards: seq<int>, diff: int)

  function Sum(s: seq<int>): int {
    if s == [] then 0 else s[0] + Sum(s[1..])
  }

  function Abs(x: int): int { if x < 0 then -x else x }

  lemma {:induction false} SumAppend(a: seq<int>, b: seq<int>)
    ensures Sum(a + b) == Sum(a) + Sum(b)
  {
    if a == [] {
      assert a + b == b;
    } else {
      assert (a + b)[1..] == a[1..] + b;
      SumAppend(a[1..], b);
    }
  }

  lemma {:induction false} SumRepeat(x: int, n: nat)
    ensures Sum(Repeat(x, n)) == x * n
  {
    if n > 0 {
      assert Repeat(x, n)[1..] == Repeat(x, n - 1);
      SumRepeat(x, n - 1);
    }
  }

  // ---------------------------------------------------------------- one candidate

  /** Layers left for the first and last stage when each middle stage takes `m`. */
  function Ends(layers: int, pp: int, m: int): int {
    layers - m * (pp - 2)
  }

  function First(layers: int, pp: int, m: int): int {
    Ends(layers, pp, m) / 2
  }

  function Last(layers: int, pp: int, m: int): int {
    Ends(layers, pp, m) - Ends(layers, pp, m) / 2
  }

  function Shards(layers: int, pp: int, m: int): seq<int>
    requires pp >= 3
  {
    [First(layers, pp, m)] + Repeat(m, pp - 2) + [Last(layers, pp, m)]
  }

  /** The condition under which the search keeps `m`. */
  predicate Feasible(layers: int, pp: int, m: int) {
    0 < First(layers, pp, m) <= m && 0 < Last(layers, pp, m) <= m
  }

  lemma {:induction false} MultipleOf(m: int, a: int)
    ensures m * a == m * (a - 2) + 2 * m
  {
  }

  lemma CeilDivIs(a: int, b: int, m: int)
    requires b > 0
    ensures a <= m * b <==> CeilDiv(a, b) <= m
  {
    var q := CeilDiv(a, b);
    assert a + b - 1 == b * q + (a + b - 1) % b;
    if q <= m {
      MulLe(q, m, b);
    } else {
      MulLe(m, q - 1, b);
    }
  }

  /** Feasible middle sizes are those from the ceiling of `layers / pp` on that leave two layers over. */
  lemma FeasibleRange(layers: int, pp: int, m: int)
    requires pp >= 3
    ensures Feasible(layers, pp, m) <==> CeilDiv(layers, pp) <= m && m * (pp - 2) + 2 <= layers
  {
    MultipleOf(m, pp);
    CeilDivIs(layers, pp, m);
  }

  /** The distance between first and middle stage grows with the middle size. */
  lemma DiffGrows(layers: int, pp: int, m: int, n: int)
    requires pp >= 3 && m < n
    ensures First(layers, pp, n) - n < First(layers, pp, m) - m
  {
    MulLe(m, n, pp - 2);
  }

  // ---------------------------------------------------------------- the search

  /** `sorted(cs, key=diff)[0]`: the first candidate of least difference. */
  function Best(cs: seq<Candidate>): (k: nat)
    requires cs != []
    ensures k < |cs| && forall j :: 0 <= j < |cs| ==> cs[k].diff <= cs[j].diff
    ensures forall j :: 0 <= j < k ==> cs[k].diff < cs[j].diff
  {
    if |cs| == 1 then 0
    else
      var k := Best(cs[..|cs| - 1]);
      if cs[|cs| - 1].diff < cs[k].diff then |cs| - 1 else k
  }

  /** The value of `c` comes from the middle size `m`. */
  predicate IsCandidate(layers: int, pp: int, m: int, c: Candidate)
    requires pp >= 3
  {
    c == Candidate(Shards(layers, pp, m), Abs(First(layers, pp, m) - m))
  }

  predicate Solvable(layers: int, pp: int) {
    pp >= 1 && layers >= pp && (pp >= 3 ==> CeilDiv(layers, pp) * (pp - 2) + 2 <= layers)
  }

  lemma ShardsSum(layers: int, pp: int, m: int)
    requires pp >= 3
    ensures Sum(Shards(layers, pp, m)) == layers && |Shards(layers, pp, m)| == pp
  {
    var a, b, c := [First(layers, pp, m)], Repeat(m, pp - 2), [Last(layers, pp, m)];
    SumAppend(a + b, c);
    SumAppend(a, b);
    SumRepeat(m, pp - 2);
    assert a[1..] == [] && c[1..] == [];
  }

  /** `cs` are the candidates of the feasible sizes below `m`, in increasing order. */
  ghost predicate Collected(layers: int, pp: int, m: int, cs: seq<Candidate>, sizes: seq<int>)
    requires pp >= 3
  {
    && |sizes| == |cs|
    && (forall j :: 0 <= j < |sizes| ==>
          0 <= sizes[j] < m && Feasible(layers, pp, sizes[j]) && IsCandidate(layers, pp, sizes[j], cs[j]))
    && (forall i, j :: 0 <= i < j < |sizes| ==> sizes[i] < sizes[j])
    && (forall n :: 0 <= n < m && Feasible(layers, pp, n) ==> n in sizes)
  }

  lemma NothingCollected(layers: int, pp: int)
    requires pp >= 3
    ensures Collected(layers, pp, 0, [], [])
  {
  }

  lemma CollectsOne(layers: int, pp: int, m: int, cs: seq<Candidate>, sizes: seq<int>, c: Candidate)
    requires pp >= 3 && 0 <= m && Collected(layers, pp, m, cs, sizes)
    ensures Feasible(layers, pp, m) && IsCandidate(layers, pp, m, c) ==>
              Collected(layers, pp, m + 1, cs + [c], sizes + [m])
    ensures !Feasible(layers, pp, m) ==> Collected(layers, pp, m + 1, cs, sizes)
  {
    hide Feasible, IsCandidate;
  }

  method Candidates(layers: int, pp: int) returns (strategies: seq<Candidate>, ghost sizes: seq<int>)
    requires pp >= 3 && layers >= pp
    ensures Collected(layers, pp, layers, strategies, sizes)
  {
    hide Collected;
    var middleSize := pp - 2;
    strategies, sizes := [], [];
    NothingCollected(layers, pp);
    for m := 0 to layers
      invariant Collected(layers, pp, m, strategies, sizes)
    {
      var ends := layers - m * middleSize;
      var first := ends / 2;
      var last := ends - ends / 2;
      var candidate := Candidate([first] + Repeat(m, middleSize) + [last], Abs(first - m));
      CollectsOne(layers, pp, m, strategies, sizes, candidate);
      if 0 < first <= m && 0 < last <= m {
        strategies := strategies + [candidate];
        sizes := sizes + [m];
      }
    }
  }

  lemma Bounded(layers: int, pp: int, m: int)
    requires pp >= 3 && m * (pp - 2) + 2 <= layers && layers >= pp
    ensures m < layers
  {
    if m >= 0 {
      MulLe(1, pp - 2, m);
    }
  }

  /** The smallest feasible size is the ceiling of `layers / pp`, when there is any. */
  lemma SmallestSize(layers: int, pp: int, cs: seq<Candidate>, sizes: seq<int>)
    requires pp >= 3 && layers >= pp && Collected(layers, pp, layers, cs, sizes)
    ensures cs == [] <==> !Solvable(layers, pp)
    ensures cs != [] ==> sizes[0] == CeilDiv(layers, pp)
  {
    var q := CeilDiv(layers, pp);
    FeasibleRange(layers, pp, q);
    if Solvable(layers, pp) {
      Bounded(layers, pp, q);
      CeilDivIs(layers, pp, 0);
      assert q in sizes;
    }
    if cs != [] {
      FeasibleRange(layers, pp, sizes[0]);
      MulLe(q, sizes[0], pp - 2);
      var j :| 0 <= j < |sizes| && sizes[j] == q;
      assert sizes[0] <= sizes[j];
    }
  }

  lemma SumOfTwo(a: int, b: int)
    ensures Sum([a, b]) == a + b
  {
    assert [a, b] == [a] + [b];
    SumAppend([a], [b]);
    assert [a][1..] == [] && [b][1..] == [];
  }

  lemma SmallestIsBest(layers: int, pp: int, cs: seq<Candidate>, sizes: seq<int>)
    requires pp >= 3 && |cs| == |sizes| > 0
    requires forall j :: 0 <= j < |sizes| ==> Feasible(layers, pp, sizes[j]) && IsCandidate(layers, pp, sizes[j], cs[j])
    requires forall i, j :: 0 <= i < j < |sizes| ==> sizes[i] < sizes[j]
    ensures Best(cs) == 0
  {
    if Best(cs) > 0 {
      DiffGrows(layers, pp, sizes[0], sizes[Best(cs)]);
    }
  }

  /** The split that is found: with middle stages of the least feasible size when there are any. */
  function ChosenSplit(layers: int, pp: int): seq<int>
    requires Solvable(layers, pp)
  {
    if pp == 1 then [layers]
    else if pp == 2 then [layers / 2, layers - layers / 2]
    else Shards(layers, pp, CeilDiv(layers, pp))
  }

  /** The result is as even as the layout allows; without a feasible middle size the code indexes an empty list. */
  method GetDynamicPipelineShards(layers: int, pp: int) returns (r: Result<seq<int>>)
    ensures r.ValueError? <==> layers < pp || pp < 1
    ensures r.Ok? <==> Solvable(layers, pp)
    ensures r.Ok? ==> |r.value| == pp && Sum(r.value) == layers
    ensures r.Ok? ==> r.value == ChosenSplit(layers, pp)
  {
    if layers < pp {
      return ValueError;
    }
    if pp < 1 {
      return ValueError;
    }
    if pp == 1 {
      assert [layers][1..] == [];
      return Ok([layers]);
    }
    if pp == 2 {
      SumOfTwo(layers / 2, layers - layers / 2);
      return Ok([layers / 2, layers - layers / 2]);
    }
    var strategies, sizes := Candidates(layers, pp);
    SmallestSize(layers, pp, strategies, sizes);
    if strategies == [] {
      return IndexError;
    }
    SmallestIsBest(layers, pp, strategies, sizes);
    ShardsSum(layers, pp, sizes[0]);
    r := Ok(strategies[Best(strategies)].shards);
  }

  lemma {:induction false} SumBound(s: seq<int>, m: int)
    requires forall i :: 0 <= i < |s| ==> s[i] <= m
    ensures Sum(s) <= m * |s|
  {
    if s != [] {
      SumBound(s[1..], m);
    }
  }

  /** No split of the layers over `pp` stages has a smaller largest stage. */
  lemma NoSplitIsMoreEven(layers: int, pp: int, split: seq<int>)
    requires |split| == pp >= 1 && Sum(split) == layers
    ensures exists i :: 0 <= i < pp && split[i] >= CeilDiv(layers, pp)
  {
    if forall i :: 0 <= i < pp ==> split[i] < CeilDiv(layers, pp) {
      SumBound(split, CeilDiv(layers, pp) - 1);
      CeilDivIs(layers, pp, CeilDiv(layers, pp) - 1);
    }
  }

  /** The stages of the chosen split are positive and none exceeds the least possible maximum. */
  lemma ChosenSplitIsOptimal(layers: int, pp: int, i: nat)
    requires pp >= 3 && Solvable(layers, pp) && i < pp
    ensures 1 <= Shards(layers, pp, CeilDiv(layers, pp))[i] <= CeilDiv(layers, pp)
  {
    FeasibleRange(layers, pp, CeilDiv(layers, pp));
  }

  /** The chosen split has every layer, and no stage without one. */
  lemma ChosenSplitCovers(layers: int, pp: int)
    requires Solvable(layers, pp)
    ensures |ChosenSplit(layers, pp)| == pp && Sum(ChosenSplit(layers, pp)) == layers
    ensures forall i :: 0 <= i < pp ==> ChosenSplit(layers, pp)[i] >= 1
  {
    if pp == 1 {
      assert [layers][1..] == [];
    } else if pp == 2 {
      SumOfTwo(layers / 2, layers - layers / 2);
    } else {
      ShardsSum(layers, pp, CeilDiv(layers, pp));
      forall i: nat | i < pp ensures Shards(layers, pp, CeilDiv(layers, pp))[i] >= 1 {
        ChosenSplitIsOptimal(layers, pp, i);
      }
    }
  }

  /** The ends share what the middle leaves, the last stage taking the odd layer; middle stages are as large as the largest
    stage has to be; and no stage at all is larger. */
  lemma ChosenSplitShape(layers: int, pp: int, i: nat)
    requires Solvable(layers, pp) && i < pp
    ensures var split := ChosenSplit(layers, pp);
            && |split| == pp && 1 <= split[i] <= CeilDiv(layers, pp)
            && 0 <= split[pp - 1] - split[0] <= 1
            && (0 < i < pp - 1 ==> split[i] == CeilDiv(layers, pp))
  {
    ChosenSplitCovers(layers, pp);
    CeilDivIs(layers, pp, CeilDiv(layers, pp));
    if pp >= 3 {
      ChosenSplitIsOptimal(layers, pp, i);
    }
  }

  /** Five layers over four stages: legal arguments for which there is no candidate. */
  lemma FiveOverFourFails()
    ensures !Solvable(5, 4) && forall m :: !Feasible(5, 4, m)
  {
    forall m ensures !Feasible(5, 4, m) {
      FeasibleRange(5, 4, m);
    }
  }
}
