/** Per-group mean, variance and count of scores, in one pass over exact reals. The standard deviation is the
  square root of the variance given here. */
module GroupStats {
  import opened RealArithmetic
  import opened Prelude

  datatype Scored = Scored(group: int, score: real)

  datatype Stat = Stat(mean: real, variance: real, count: real)

  function Zip(groups: seq<int>, scores: seq<real>): seq<Scored>
    requires |groups| == |scores|
  {
    seq(|groups|, i requires 0 <= i < |groups| => Scored(groups[i], scores[i]))
  }

  // ---------------------------------------------------------------- moments

  function Power(x: real, e: nat): real {
    if e == 0 then 1.0 else x * Power(x, e - 1)
  }

  function Term(s: Scored, g: int, e: nat): real {
    if s.group == g then Power(s.score, e) else 0.0
  }

  /** The sum of the `e`-th powers of the scores of group `g`; for 0 the number of scores. */
  function Moment(ss: seq<Scored>, g: int, e: nat): real {
    if ss == [] then 0.0 else Moment(ss[..|ss| - 1], g, e) + Term(ss[|ss| - 1], g, e)
  }

  function Square(x: real): real { x * x }

  /** The sum of the squared distances of the scores of group `g` from `m`. */
  function Spread(ss: seq<Scored>, g: int, m: real): real {
    if ss == [] then 0.0
    else
      var last := ss[|ss| - 1];
      Spread(ss[..|ss| - 1], g, m) + if last.group == g then Square(last.score - m) else 0.0
  }

  // ---------------------------------------------------------------- the statistics of a group

  function Mean(ss: seq<Scored>, g: int): real
    requires Moment(ss, g, 0) != 0.0
  {
    Moment(ss, g, 1) / Moment(ss, g, 0)
  }

  /** The mean over the group and the variance with Bessel's correction, in two passes; 0 and 1 for a group of
    at most one score; the variance is at least `eps`. */
  function GroupStat(ss: seq<Scored>, g: int, eps: real): Stat {
    var n := Moment(ss, g, 0);
    if n <= 1.0 then Stat(0.0, 1.0, n)
    else Stat(Mean(ss, g), Greater(Spread(ss, g, Mean(ss, g)) / (n - 1.0), eps), n)
  }

  function Largest(groups: seq<int>): int
    requires groups != []
  {
    if |groups| == 1 then groups[0]
    else
      var m := Largest(groups[..|groups| - 1]);
      if groups[|groups| - 1] > m then groups[|groups| - 1] else m
  }

  function Stats(ss: seq<Scored>, groups: nat, eps: real): seq<Stat> {
    seq(groups, g requires 0 <= g < groups => GroupStat(ss, g, eps))
  }

  /** The spread around `m` in terms of the moments, multiplied out. */
  function Expanded(s0: real, s1: real, s2: real, m: real): real {
    s2 - 2.0 * m * s1 + m * m * s0
  }

  lemma NoSpread(m: real)
    ensures Expanded(0.0, 0.0, 0.0, m) == 0.0
  {
  }

  lemma Powers(x: real)
    ensures Power(x, 0) == 1.0 && Power(x, 1) == x && Power(x, 2) == Square(x)
  {
    assert Power(x, 1) == x * Power(x, 0);
    assert Power(x, 2) == x * Power(x, 1);
  }

  lemma OneMore(s0: real, s1: real, s2: real, x: real, m: real)
    ensures Expanded(s0, s1, s2, m) + Square(x - m) == Expanded(s0 + 1.0, s1 + x, s2 + Square(x), m)
  {
  }

  lemma {:induction false} SpreadIs(ss: seq<Scored>, g: int, m: real)
    ensures Spread(ss, g, m) == Expanded(Moment(ss, g, 0), Moment(ss, g, 1), Moment(ss, g, 2), m)
  {
    hide Expanded, Square, Power;
    if ss == [] {
      NoSpread(m);
    } else {
      var init, last := ss[..|ss| - 1], ss[|ss| - 1];
      SpreadIs(init, g, m);
      Powers(last.score);
      OneMore(Moment(init, g, 0), Moment(init, g, 1), Moment(init, g, 2), last.score, m);
    }
  }

  /** What the code divides by `count - 1`: sums of scores and squared scores suffice. */
  function OnePass(s0: real, s1: real, s2: real): real
    requires s0 != 0.0
  {
    s2 - s1 * s1 / s0
  }

  lemma ExpandedAtMean(s0: real, s1: real, s2: real, m: real)
    requires s0 > 0.0 && m * s0 == s1
    ensures Expanded(s0, s1, s2, m) == OnePass(s0, s1, s2)
  {
    DivTimes(s1 * s1, s0);
    assert s1 * s1 == m * s1 * s0;
    Cancel(s1 * s1 / s0, m * s1, s0);
    assert m * m * s0 == m * s1;
    assert 2.0 * m * s1 == 2.0 * (m * s1);
  }

  lemma MeanIs(ss: seq<Scored>, g: int)
    requires Moment(ss, g, 0) > 0.0
    ensures Mean(ss, g) * Moment(ss, g, 0) == Moment(ss, g, 1)
  {
    DivTimes(Moment(ss, g, 1), Moment(ss, g, 0));
  }

  /** Summing scores and squared scores in one pass gives the same as summing distances from the mean. */
  lemma OnePassIsTwoPass(ss: seq<Scored>, g: int)
    requires Moment(ss, g, 0) > 0.0
    ensures Spread(ss, g, Mean(ss, g)) == OnePass(Moment(ss, g, 0), Moment(ss, g, 1), Moment(ss, g, 2))
  {
    hide *;
    SpreadIs(ss, g, Mean(ss, g));
    MeanIs(ss, g);
    ExpandedAtMean(Moment(ss, g, 0), Moment(ss, g, 1), Moment(ss, g, 2), Mean(ss, g));
  }

  lemma {:induction false} SpreadNotNegative(ss: seq<Scored>, g: int, m: real)
    ensures Spread(ss, g, m) >= 0.0
  {
    if ss != [] {
      SpreadNotNegative(ss[..|ss| - 1], g, m);
      assert Square(ss[|ss| - 1].score - m) >= 0.0;
    }
  }

  /** The variance in one pass is never negative. */
  lemma VarianceNotNegative(ss: seq<Scored>, g: int)
    requires Moment(ss, g, 0) > 1.0
    ensures OnePass(Moment(ss, g, 0), Moment(ss, g, 1), Moment(ss, g, 2)) / (Moment(ss, g, 0) - 1.0) >= 0.0
  {
    hide *;
    OnePassIsTwoPass(ss, g);
    SpreadNotNegative(ss, g, Mean(ss, g));
    DivNotNegative(Spread(ss, g, Mean(ss, g)), Moment(ss, g, 0) - 1.0);
  }

  // ---------------------------------------------------------------- the computation

  /** `index_add_(0, gidx, src)` */
  method IndexAdd(dst: array<real>, groups: seq<int>, src: seq<real>, ghost scores: seq<real>, e: nat)
    requires |groups| == |src| == |scores| && forall i :: 0 <= i < |groups| ==> 0 <= groups[i] < dst.Length
    requires forall i :: 0 <= i < |src| ==> src[i] == Power(scores[i], e)
    requires forall g :: 0 <= g < dst.Length ==> dst[g] == 0.0
    modifies dst
    ensures forall g :: 0 <= g < dst.Length ==> dst[g] == Moment(Zip(groups, scores), g, e)
  {
    ghost var ss := Zip(groups, scores);
    for i := 0 to |groups|
      invariant forall g :: 0 <= g < dst.Length ==> dst[g] == Moment(ss[..i], g, e)
    {
      assert ss[..i + 1][..i] == ss[..i];
      dst[groups[i]] := dst[groups[i]] + src[i];
    }
    assert ss[..|ss|] == ss;
  }

  method Zeros(n: nat) returns (a: array<real>)
    ensures fresh(a) && a.Length == n && forall g :: 0 <= g < n ==> a[g] == 0.0
  {
    a := new real[n](_ => 0.0);
  }

  predicate HasNegative(groups: seq<int>) {
    exists i :: 0 <= i < |groups| && groups[i] < 0
  }

  function Squares(scores: seq<real>): seq<real> {
    seq(|scores|, i requires 0 <= i < |scores| => Square(scores[i]))
  }

  lemma AllPowers(scores: seq<real>)
    ensures forall i :: 0 <= i < |scores| ==>
              Power(scores[i], 0) == 1.0 && Power(scores[i], 1) == scores[i] && Power(scores[i], 2) == Squares(scores)[i]
  {
    forall i | 0 <= i < |scores|
      ensures Power(scores[i], 0) == 1.0 && Power(scores[i], 1) == scores[i] && Power(scores[i], 2) == Squares(scores)[i]
    {
      Powers(scores[i]);
    }
  }

  lemma {:induction false} LargestIs(groups: seq<int>)
    requires groups != []
    ensures Largest(groups) in groups && forall i :: 0 <= i < |groups| ==> groups[i] <= Largest(groups)
  {
    if |groups| > 1 {
      LargestIs(groups[..|groups| - 1]);
    }
  }

  lemma GroupStatIs(ss: seq<Scored>, g: int, eps: real)
    requires Moment(ss, g, 0) > 1.0
    ensures var n, s1, s2 := Moment(ss, g, 0), Moment(ss, g, 1), Moment(ss, g, 2);
            GroupStat(ss, g, eps) == Stat(s1 / n, Greater(OnePass(n, s1, s2) / (n - 1.0), eps), n)
  {
    OnePassIsTwoPass(ss, g);
    hide Moment, OnePass, Spread, Greater;
  }

  lemma {:induction false} CountIsWhole(ss: seq<Scored>, g: int) returns (k: nat)
    ensures Moment(ss, g, 0) == k as real
  {
    k := 0;
    if ss != [] {
      k := CountIsWhole(ss[..|ss| - 1], g);
      Powers(ss[|ss| - 1].score);
      if ss[|ss| - 1].group == g {
        k := k + 1;
      }
    }
  }

  /** The clamped single-pass formulas for one group. */
  method OneGroup(count: real, s1: real, s2: real, ghost ss: seq<Scored>, ghost g: int, eps: real) returns (r: Stat)
    requires count == Moment(ss, g, 0) && s1 == Moment(ss, g, 1) && s2 == Moment(ss, g, 2)
    ensures r == GroupStat(ss, g, eps)
  {
    var n := Greater(count, 1.0);
    var mean := s1 / n;
    var varNum := s2 - s1 * s1 / n;
    var denom := Greater(count - 1.0, 1.0);
    var variance := Greater(varNum / denom, eps);
    if count <= 1.0 {
      mean, variance := 0.0, 1.0;
      r := Stat(mean, variance, count);
    } else {
      ghost var k := CountIsWhole(ss, g);
      GroupStatIs(ss, g, eps);
      hide Moment, GroupStat;
      assert n == count && denom == count - 1.0 && varNum == OnePass(count, s1, s2);
      r := Stat(mean, variance, count);
    }
  }

  lemma StatsNext(ss: seq<Scored>, g: nat, eps: real)
    ensures Stats(ss, 0, eps) == [] && Stats(ss, g + 1, eps) == Stats(ss, g, eps) + [GroupStat(ss, g, eps)]
  {
  }

  /** The scores of group `g`, in order. */
  function ScoresOf(ss: seq<Scored>, g: int): seq<real> {
    if ss == [] then []
    else ScoresOf(ss[..|ss| - 1], g) + if ss[|ss| - 1].group == g then [ss[|ss| - 1].score] else []
  }

  function Sum(xs: seq<real>): real {
    if xs == [] then 0.0 else Sum(xs[..|xs| - 1]) + xs[|xs| - 1]
  }

  /** The sum of the squared distances from `m`. */
  function Distances(xs: seq<real>, m: real): real {
    if xs == [] then 0.0 else Distances(xs[..|xs| - 1], m) + (xs[|xs| - 1] - m) * (xs[|xs| - 1] - m)
  }

  /** The places below `n` whose group is `g`. */
  function Members(groups: seq<int>, g: int, n: nat): set<nat>
    requires n <= |groups|
  {
    set i: nat | i < n && groups[i] == g
  }

  lemma MembersNext(groups: seq<int>, g: int, n: nat)
    requires n < |groups|
    ensures |Members(groups, g, n + 1)| == |Members(groups, g, n)| + if groups[n] == g then 1 else 0
  {
    assert Members(groups, g, n + 1) == Members(groups, g, n) + if groups[n] == g then {n} else {};
  }

  lemma {:induction false} ScoresCounted(groups: seq<int>, scores: seq<real>, g: int, n: nat)
    requires n <= |groups| == |scores|
    ensures |ScoresOf(Zip(groups, scores)[..n], g)| == |Members(groups, g, n)|
    ensures n < |groups| ==> ScoresOf(Zip(groups, scores)[..n + 1], g)
                             == ScoresOf(Zip(groups, scores)[..n], g) + if groups[n] == g then [scores[n]] else []
  {
    var ss := Zip(groups, scores);
    if n < |groups| {
      assert ss[..n + 1][..n] == ss[..n];
    }
    if n > 0 {
      ScoresCounted(groups, scores, g, n - 1);
      MembersNext(groups, g, n - 1);
    }
  }

  lemma {:induction false} ScoresKept(groups: seq<int>, scores: seq<real>, g: int, i: nat, n: nat)
    requires i <= n <= |groups| == |scores|
    ensures ScoresOf(Zip(groups, scores)[..i], g) <= ScoresOf(Zip(groups, scores)[..n], g)
    decreases n - i
  {
    if i < n {
      ScoresKept(groups, scores, g, i, n - 1);
      ScoresCounted(groups, scores, g, n - 1);
      hide ScoresOf;
    }
  }

  /** The scores of a group are as many as its places, each behind those of the places before. */
  lemma ScoreAt(groups: seq<int>, scores: seq<real>, i: nat)
    requires i < |groups| == |scores|
    ensures var xs, k := ScoresOf(Zip(groups, scores), groups[i]), |Members(groups, groups[i], i)|;
            k < |xs| == |Members(groups, groups[i], |groups|)| && xs[k] == scores[i]
  {
    var g, ss := groups[i], Zip(groups, scores);
    assert ss[..|ss|] == ss;
    ScoresCounted(groups, scores, g, i);
    ScoresCounted(groups, scores, g, |groups|);
    ScoresKept(groups, scores, g, i + 1, |groups|);
    hide ScoresOf, Members;
  }

  lemma SumNext(xs: seq<real>, x: real, m: real)
    ensures Sum(xs + [x]) == Sum(xs) + x && Distances(xs + [x], m) == Distances(xs, m) + Square(x - m)
  {
    assert (xs + [x])[..|xs|] == xs;
  }

  lemma {:induction false} MomentsAre(ss: seq<Scored>, g: int, m: real)
    ensures Moment(ss, g, 0) == |ScoresOf(ss, g)| as real && Moment(ss, g, 1) == Sum(ScoresOf(ss, g))
    ensures Spread(ss, g, m) == Distances(ScoresOf(ss, g), m)
  {
    if ss != [] {
      var init, last := ss[..|ss| - 1], ss[|ss| - 1];
      MomentsAre(init, g, m);
      Powers(last.score);
      SumNext(ScoresOf(init, g), last.score, m);
      hide Sum, Distances, Power;
      assert ScoresOf(init, g) + [] == ScoresOf(init, g);
    }
  }

  /** The statistics of the scores `xs`: their number, and for two or more their mean and their variance around it with
    Bessel's correction; otherwise 0 and 1. */
  ghost predicate IsStat(stat: Stat, xs: seq<real>, eps: real) {
    && stat.count == |xs| as real
    && if |xs| <= 1 then stat.mean == 0.0 && stat.variance == 1.0
       else
         && stat.mean * |xs| as real == Sum(xs)
         && stat.variance == Greater(Distances(xs, stat.mean) / (|xs| - 1) as real, eps)
  }

  lemma FewAre(stat: Stat, xs: seq<real>, eps: real)
    requires |xs| <= 1 && stat == Stat(0.0, 1.0, |xs| as real)
    ensures IsStat(stat, xs, eps)
  {
  }

  lemma ManyAre(mean: real, xs: seq<real>, eps: real)
    requires |xs| > 1 && mean * |xs| as real == Sum(xs)
    ensures IsStat(Stat(mean, Greater(Distances(xs, mean) / (|xs| as real - 1.0), eps), |xs| as real), xs, eps)
  {
    hide Sum, Distances;
    assert (|xs| - 1) as real == |xs| as real - 1.0;
  }

  lemma FewScores(ss: seq<Scored>, g: int, eps: real)
    requires Moment(ss, g, 0) <= 1.0
    ensures GroupStat(ss, g, eps) == Stat(0.0, 1.0, Moment(ss, g, 0))
  {
  }

  lemma ManyScores(ss: seq<Scored>, g: int, eps: real)
    requires Moment(ss, g, 0) > 1.0
    ensures var n, m := Moment(ss, g, 0), Mean(ss, g);
            GroupStat(ss, g, eps) == Stat(m, Greater(Spread(ss, g, m) / (n - 1.0), eps), n)
  {
  }

  lemma GroupStatIsStat(ss: seq<Scored>, g: int, eps: real)
    ensures IsStat(GroupStat(ss, g, eps), ScoresOf(ss, g), eps)
  {
    hide *;
    var xs := ScoresOf(ss, g);
    MomentsAre(ss, g, 0.0);
    if |xs| <= 1 {
      FewScores(ss, g, eps);
      FewAre(GroupStat(ss, g, eps), xs, eps);
    } else {
      ManyScores(ss, g, eps);
      MeanIs(ss, g);
      MomentsAre(ss, g, Mean(ss, g));
      ManyAre(Mean(ss, g), xs, eps);
    }
  }

  lemma StatAt(groups: seq<int>, scores: seq<real>, g: nat, count: nat, eps: real)
    requires |groups| == |scores| && g < count
    ensures var stat := Stats(Zip(groups, scores), count, eps)[g];
            && IsStat(stat, ScoresOf(Zip(groups, scores), g), eps)
            && (|Members(groups, g, |groups|)| <= 1 ==> stat.mean == 0.0 && stat.variance == 1.0)
  {
    GroupStatIsStat(Zip(groups, scores), g, eps);
    ScoresCounted(groups, scores, g, |groups|);
    assert Zip(groups, scores)[..|groups|] == Zip(groups, scores);
    hide GroupStat, ScoresOf, Members, Sum, Distances;
  }

  /** The statistics of every group up to the largest, or the exception raised. */
  function MeanStd(scores: seq<real>, groups: seq<int>, eps: real): Result<seq<Stat>> {
    if |scores| != |groups| then ValueError
    else if groups == [] || Largest(groups) == -1 then Ok([])
    else
      LargestIs(groups);
      if HasNegative(groups) then RuntimeError else Ok(Stats(Zip(groups, scores), Largest(groups) + 1, eps))
  }

  /** Fails on scores and groups of different length and on a negative group, except that nothing is computed
    when the largest group is -1. */
  method GroupMeanStd(scores: seq<real>, groups: seq<int>, eps: real) returns (r: Result<seq<Stat>>)
    ensures r.ValueError? <==> |scores| != |groups|
    ensures r.RuntimeError? <==> |scores| == |groups| && groups != [] && Largest(groups) != -1 && HasNegative(groups)
    ensures r.Ok? ==> r.value == if groups == [] || Largest(groups) == -1 then []
                                 else Stats(Zip(groups, scores), Largest(groups) + 1, eps)
    ensures r == MeanStd(scores, groups, eps)
    ensures r.Ok? ==> forall g :: 0 <= g < |r.value| ==>
              && IsStat(r.value[g], ScoresOf(Zip(groups, scores), g), eps)
              && (|Members(groups, g, |groups|)| <= 1 ==> r.value[g].mean == 0.0 && r.value[g].variance == 1.0)
  {
    hide Moment, IsStat, ScoresOf, Members;
    if |scores| != |groups| {
      return ValueError;
    }
    var total := if groups == [] then 0 else Largest(groups) + 1;
    if total == 0 {
      return Ok([]);
    }
    LargestIs(groups);
    if HasNegative(groups) {
      return RuntimeError;
    }
    var count := Zeros(total);
    var s1 := Zeros(total);
    var s2 := Zeros(total);
    ghost var ss := Zip(groups, scores);
    AllPowers(scores);
    IndexAdd(count, groups, seq(|scores|, _ => 1.0), scores, 0);
    IndexAdd(s1, groups, scores, scores, 1);
    IndexAdd(s2, groups, Squares(scores), scores, 2);
    var counts, sums, squares := count[..], s1[..], s2[..];
    hide Stats, GroupStat, HasNegative;
    var out: seq<Stat> := [];
    StatsNext(ss, 0, eps);
    for g := 0 to total
      invariant out == Stats(ss, g, eps)
    {
      StatsNext(ss, g, eps);
      var stat := OneGroup(counts[g], sums[g], squares[g], ss, g, eps);
      out := out + [stat];
    }
    forall g | 0 <= g < |out|
      ensures IsStat(out[g], ScoresOf(ss, g), eps)
      ensures |Members(groups, g, |groups|)| <= 1 ==> out[g].mean == 0.0 && out[g].variance == 1.0
    {
      StatAt(groups, scores, g, total, eps);
    }
    r := Ok(out);
  }

  // ---------------------------------------------------------------- counts and order

  /** The counts of all groups. */
  function Counts(ss: seq<Scored>, groups: nat): real {
    if groups == 0 then 0.0 else Counts(ss, groups - 1) + Moment(ss, groups - 1, 0)
  }

  lemma {:induction false} CountsAppend(ss: seq<Scored>, s: Scored, groups: nat)
    requires s.group >= 0
    ensures Counts(ss + [s], groups) == Counts(ss, groups) + if s.group < groups then 1.0 else 0.0
  {
    if groups > 0 {
      CountsAppend(ss, s, groups - 1);
      assert (ss + [s])[..|ss|] == ss;
    }
  }

  lemma {:induction false} NoCounts(groups: nat)
    ensures Counts([], groups) == 0.0
  {
    if groups > 0 {
      NoCounts(groups - 1);
    }
  }

  /** Every score is counted in one group. */
  lemma {:induction false} CountsSumToLength(ss: seq<Scored>, groups: nat)
    requires forall i :: 0 <= i < |ss| ==> 0 <= ss[i].group < groups
    ensures Counts(ss, groups) == |ss| as real
  {
    if ss == [] {
      NoCounts(groups);
    } else {
      var init := ss[..|ss| - 1];
      CountsSumToLength(init, groups);
      assert ss == init + [ss[|ss| - 1]];
      CountsAppend(init, ss[|ss| - 1], groups);
    }
  }

  lemma {:induction false} MomentWithout(ss: seq<Scored>, k: nat, g: int, e: nat)
    requires k < |ss|
    ensures Moment(ss, g, e) == Moment(ss[..k] + ss[k + 1..], g, e) + Term(ss[k], g, e)
  {
    var n := |ss| - 1;
    var rest := ss[..k] + ss[k + 1..];
    if k == n {
      assert rest == ss[..n];
    } else {
      MomentWithout(ss[..n], k, g, e);
      assert rest[..n - 1] == ss[..n][..k] + ss[..n][k + 1..];
      assert rest[n - 1] == ss[n];
    }
  }

  lemma Removed(b: seq<Scored>, k: nat)
    requires k < |b|
    ensures multiset(b[..k] + b[k + 1..]) == multiset(b) - multiset{b[k]}
  {
    assert b == b[..k] + [b[k]] + b[k + 1..];
  }

  lemma {:induction false} MomentIgnoresOrder(a: seq<Scored>, b: seq<Scored>, g: int, e: nat)
    requires multiset(a) == multiset(b)
    ensures Moment(a, g, e) == Moment(b, g, e)
  {
    if a == [] {
      assert |multiset(b)| == 0;
      assert b == [];
    } else {
      var n := |a| - 1;
      assert a == a[..n] + [a[n]];
      assert a[n] in multiset(b);
      var k :| 0 <= k < |b| && b[k] == a[n];
      Removed(b, k);
      MomentIgnoresOrder(a[..n], b[..k] + b[k + 1..], g, e);
      MomentWithout(b, k, g, e);
    }
  }

  lemma GroupIgnoresOrder(a: seq<Scored>, b: seq<Scored>, g: int, eps: real)
    requires multiset(a) == multiset(b)
    ensures GroupStat(a, g, eps) == GroupStat(b, g, eps)
  {
    MomentIgnoresOrder(a, b, g, 0);
    MomentIgnoresOrder(a, b, g, 1);
    MomentIgnoresOrder(a, b, g, 2);
    if Moment(a, g, 0) > 1.0 {
      GroupStatIs(a, g, eps);
      GroupStatIs(b, g, eps);
    }
  }

  lemma GroupInZip(groups: seq<int>, scores: seq<real>, g: int)
    requires |groups| == |scores|
    ensures g in groups <==> exists s :: s in multiset(Zip(groups, scores)) && s.group == g
  {
    if g in groups {
      var i :| 0 <= i < |groups| && groups[i] == g;
      assert Zip(groups, scores)[i] in multiset(Zip(groups, scores));
    }
    if s :| s in multiset(Zip(groups, scores)) && s.group == g {
      var i :| 0 <= i < |groups| && Zip(groups, scores)[i] == s;
      assert groups[i] == g;
    }
  }

  lemma SameElements(a: seq<int>, b: seq<int>)
    requires forall g: int :: g in a <==> g in b
    ensures a == [] <==> b == []
    ensures HasNegative(a) <==> HasNegative(b)
    ensures a != [] ==> Largest(a) == Largest(b) && (Largest(a) < 0 ==> HasNegative(a))
  {
    if a != [] {
      var g := a[0];
      assert g in b;
    }
    if b != [] {
      var g := b[0];
      assert g in a;
    }
    if i :| 0 <= i < |a| && a[i] < 0 {
      assert a[i] in a && a[i] in b;
    }
    if i :| 0 <= i < |b| && b[i] < 0 {
      assert b[i] in b && b[i] in a;
    }
    if a != [] {
      LargestIs(a);
      LargestIs(b);
    }
  }

  /** The same groups occur, so the largest is the same, and so is whether one is negative. */
  lemma GroupsIgnoreOrder(groups: seq<int>, scores: seq<real>, groups': seq<int>, scores': seq<real>)
    requires |groups| == |scores| && |groups'| == |scores'|
    requires multiset(Zip(groups, scores)) == multiset(Zip(groups', scores'))
    ensures groups == [] <==> groups' == []
    ensures HasNegative(groups) <==> HasNegative(groups')
    ensures groups != [] ==> Largest(groups) == Largest(groups') && (Largest(groups) < 0 ==> HasNegative(groups))
  {
    hide Zip, HasNegative, Largest;
    forall g ensures g in groups <==> g in groups' {
      GroupInZip(groups, scores, g);
      GroupInZip(groups', scores', g);
    }
    SameElements(groups, groups');
  }

  /** Scores and groups permuted together give the same result, the number of groups and failures included. */
  lemma StatsIgnoreOrder(scores: seq<real>, groups: seq<int>, scores': seq<real>, groups': seq<int>, eps: real)
    requires |groups| == |scores| && |groups'| == |scores'|
    requires multiset(Zip(groups, scores)) == multiset(Zip(groups', scores'))
    ensures MeanStd(scores, groups, eps) == MeanStd(scores', groups', eps)
  {
    GroupsIgnoreOrder(groups, scores, groups', scores');
    hide HasNegative, Largest, GroupStat, Zip;
    if groups != [] && Largest(groups) >= 0 {
      var a, b, n := Zip(groups, scores), Zip(groups', scores'), Largest(groups) + 1;
      forall g | 0 <= g < n ensures GroupStat(a, g, eps) == GroupStat(b, g, eps) {
        GroupIgnoresOrder(a, b, g, eps);
      }
      assert Stats(a, n, eps) == Stats(b, n, eps);
    }
  }
}
