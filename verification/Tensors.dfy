/** Tensors as sequences of rows: views of equal blocks, `torch.cat`, `torch.chunk` and `np.array_split`. */
module Tensors {
  import opened Arithmetic
  import opened Prelude

  // ---------------------------------------------------------------- blocks of equal size

  /** `torch.cat(ss, dim=0)`. */
  function Cat<T>(ss: seq<seq<T>>): seq<T> {
    if ss == [] then [] else ss[0] + Cat(ss[1..])
  }

  predicate Uniform<T>(ss: seq<seq<T>>, size: nat) {
    forall i :: 0 <= i < |ss| ==> |ss[i]| == size
  }

  function Blocks<T>(t: seq<T>, size: nat, n: nat): (r: seq<seq<T>>)
    requires |t| == n * size
    ensures |r| == n && Uniform(r, size)
  {
    if n == 0 then [] else
    assert |t| == (n - 1) * size + size;
    [t[..size]] + Blocks(t[size..], size, n - 1)
  }

  lemma {:induction false} CatAppend<T>(a: seq<seq<T>>, b: seq<seq<T>>)
    ensures Cat(a + b) == Cat(a) + Cat(b)
  {
    if a == [] {
      assert a + b == b;
    } else {
      assert (a + b)[1..] == a[1..] + b;
      CatAppend(a[1..], b);
    }
  }

  lemma BlocksStep<T>(t: seq<T>, size: nat, n: nat)
    requires n > 0 && |t| == n * size
    ensures size <= |t| && |t[size..]| == (n - 1) * size
    ensures Blocks(t, size, n) == [t[..size]] + Blocks(t[size..], size, n - 1)
  {
    assert |t| == (n - 1) * size + size;
  }

  lemma {:induction false} CatOfBlocks<T>(t: seq<T>, size: nat, n: nat)
    requires |t| == n * size
    ensures Cat(Blocks(t, size, n)) == t
  {
    if n > 0 {
      BlocksStep(t, size, n);
      hide Blocks;
      CatOfBlocks(t[size..], size, n - 1);
      assert Cat(Blocks(t, size, n)) == t[..size] + Cat(Blocks(t[size..], size, n - 1));
    }
  }

  lemma {:induction false} CatLength<T>(ss: seq<seq<T>>, size: nat)
    requires Uniform(ss, size)
    ensures |Cat(ss)| == |ss| * size
  {
    if ss != [] {
      CatLength(ss[1..], size);
      assert (|ss| - 1) * size + size == |ss| * size;
    }
  }

  lemma {:induction false} BlocksOfCat<T>(ss: seq<seq<T>>, size: nat)
    requires Uniform(ss, size)
    ensures |Cat(ss)| == |ss| * size && Blocks(Cat(ss), size, |ss|) == ss
  {
    CatLength(ss, size);
    if ss != [] {
      BlocksOfCat(ss[1..], size);
      assert Cat(ss)[..size] == ss[0] && Cat(ss)[size..] == Cat(ss[1..]);
    }
  }

  // ---------------------------------------------------------------- torch.chunk

  function Pieces<T>(t: seq<T>, size: nat): (r: seq<seq<T>>)
    requires size > 0
    ensures |r| > 0 && |r[0]| == if |t| <= size then |t| else size
  {
    if |t| <= size then [t] else [t[..size]] + Pieces(t[size..], size)
  }

  lemma CeilDivRange(a: nat, b: nat)
    requires a > 0 && b > 0
    ensures 1 <= CeilDiv(a, b) <= a
    ensures b * CeilDiv(a, b) >= a
  {
    var c := CeilDiv(a, b);
    assert a + b - 1 == b * c + (a + b - 1) % b;
    MulLe(1, b, a);
    CancelLess(0, c, b);
    CancelLess(c, a + 1, b);
  }

  /** Pieces of size `ceil(|t| / n)`, so possibly fewer than `n`; an empty tensor gives `n` empty ones. */
  function Chunk<T>(t: seq<T>, n: nat): (r: seq<seq<T>>)
    requires n > 0
    ensures |r| > 0
    ensures t != [] ==> CeilDiv(|t|, n) <= |t| && |r[0]| == CeilDiv(|t|, n)
  {
    if t == [] then seq(n, _ => [])
    else CeilDivRange(|t|, n); Pieces(t, CeilDiv(|t|, n))
  }

  lemma CeilDivLeast(a: nat, b: nat)
    requires b > 0
    ensures b * CeilDiv(a, b) - b < a
  {
    assert a + b - 1 == b * CeilDiv(a, b) + (a + b - 1) % b;
  }

  lemma CeilDivExact(n: nat, s: nat)
    requires n > 0
    ensures CeilDiv(n * s, n) == s
  {
    Quotient(n * s + n - 1, n, s);
  }

  lemma {:induction false} PiecesEven<T>(t: seq<T>, size: nat, n: nat)
    requires size > 0 && n > 0 && |t| == n * size
    ensures Pieces(t, size) == Blocks(t, size, n)
  {
    assert |t| == (n - 1) * size + size;
    if n > 1 {
      assert (n - 1) * size >= size;
      PiecesEven(t[size..], size, n - 1);
    } else {
      assert t[..size] == t;
    }
  }

  lemma ChunkEven<T>(t: seq<T>, size: nat, n: nat)
    requires n > 0 && |t| == n * size
    ensures Chunk(t, n) == Blocks(t, size, n)
  {
    if size == 0 {
      assert forall i :: 0 <= i < n ==> Blocks(t, size, n)[i] == Chunk(t, n)[i];
    } else {
      assert n * size >= size;
      CeilDivExact(n, size);
      PiecesEven(t, size, n);
    }
  }

  // ---------------------------------------------------------------- np.array_split

  /** Where section `i` of `n` keys in `m` sections begins: the first `n % m` sections take one key more. */
  function Start(n: nat, m: nat, i: nat): nat
    requires m > 0
  {
    n / m * i + Min(i, n % m)
  }

  lemma StartGrows(n: nat, m: nat, i: nat)
    requires m > 0
    ensures Start(n, m, i + 1) == Start(n, m, i) + n / m + if i < n % m then 1 else 0
  {
  }

  lemma {:induction false} StartMonotone(n: nat, m: nat, i: nat, j: nat)
    requires m > 0 && i <= j
    ensures Start(n, m, i) <= Start(n, m, j)
    decreases j - i
  {
    hide Start;
    if i < j {
      StartGrows(n, m, j - 1);
      StartMonotone(n, m, i, j - 1);
    }
  }

  lemma StartEnd(n: nat, m: nat)
    requires m > 0
    ensures Start(n, m, 0) == 0 && Start(n, m, m) == n
  {
    assert n == n / m * m + n % m;
  }

  lemma StartBound(n: nat, m: nat, i: nat)
    requires m > 0 && i < m
    ensures Start(n, m, i) <= Start(n, m, i + 1) <= n
  {
    StartGrows(n, m, i);
    StartMonotone(n, m, i + 1, m);
    StartEnd(n, m);
  }

  function Section<K>(keys: seq<K>, m: nat, i: nat): seq<K>
    requires i < m
  {
    StartBound(|keys|, m, i);
    keys[Start(|keys|, m, i)..Start(|keys|, m, i + 1)]
  }

  /** The sections are as even as possible: the first `n % m` have one element more than the others. */
  lemma SectionSize<K>(keys: seq<K>, m: nat, i: nat)
    requires i < m
    ensures |Section(keys, m, i)| == |keys| / m + if i < |keys| % m then 1 else 0
  {
    StartBound(|keys|, m, i);
    StartGrows(|keys|, m, i);
    hide Start;
  }

  /** The section that has position `j`. */
  lemma {:induction false} SectionWith(n: nat, m: nat, j: nat, top: nat) returns (i: nat)
    requires 0 < top <= m && j < Start(n, m, top)
    ensures i < top && Start(n, m, i) <= j < Start(n, m, i + 1)
  {
    if top == 1 {
      StartEnd(n, m);
      i := 0;
    } else if j < Start(n, m, top - 1) {
      i := SectionWith(n, m, j, top - 1);
    } else {
      i := top - 1;
    }
  }

  lemma CeilDivIsZero(n: nat)
    requires n > 0
    ensures CeilDiv(0, n) == 0
  {
    Quotient(n - 1, n, 0);
  }

  lemma {:induction false} CatOfEmpty<T>(n: nat)
    ensures Cat(seq<seq<T>>(n, _ => [])) == []
  {
    if n > 0 {
      var ss := seq<seq<T>>(n, _ => []);
      assert ss[1..] == seq<seq<T>>(n - 1, _ => []);
      CatOfEmpty<T>(n - 1);
    }
  }

  lemma {:induction false} PiecesAre<T>(t: seq<T>, size: nat, i: nat)
    requires size > 0 && t != [] && i < |Pieces(t, size)|
    ensures Cat(Pieces(t, size)) == t
    ensures i < |Pieces(t, size)| - 1 ==> |Pieces(t, size)[i]| == size
    ensures i == |Pieces(t, size)| - 1 ==> 0 < |Pieces(t, size)[i]| <= size
  {
    if |t| <= size {
      assert [t][1..] == [];
    } else {
      PiecesAre(t[size..], size, if i == 0 then 0 else i - 1);
      assert Pieces(t, size)[1..] == Pieces(t[size..], size);
    }
  }

  /** The pieces of `torch.chunk` are the tensor, in order, and all but the last have the size rounded up. */
  lemma ChunkIs<T>(t: seq<T>, n: nat, i: nat)
    requires n > 0 && i < |Chunk(t, n)|
    ensures Cat(Chunk(t, n)) == t
    ensures t == [] ==> |Chunk(t, n)| == n
    ensures i < |Chunk(t, n)| - 1 ==> |Chunk(t, n)[i]| == CeilDiv(|t|, n)
    ensures i == |Chunk(t, n)| - 1 && t != [] ==> 0 < |Chunk(t, n)[i]| <= CeilDiv(|t|, n)
  {
    if t == [] {
      CeilDivIsZero(n);
      CatOfEmpty<T>(n);
    } else {
      CeilDivRange(|t|, n);
      PiecesAre(t, CeilDiv(|t|, n), i);
    }
  }
}
