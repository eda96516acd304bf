/** Distributing the experts of a mixture-of-experts layer over expert-parallel ranks during conversion, and
  the check on the number of copied elements. */
module ExpertPartition {
  import opened Arithmetic
  import opened Prelude

  /** Gate and up weights stacked, and the down weight. */
  datatype Expert<T> = Expert(fc1: seq<T>, fc2: seq<T>)

  function Elements<T>(es: seq<Expert<T>>): nat {
    if es == [] then 0 else Elements(es[..|es| - 1]) + |es[|es| - 1].fc1| + |es[|es| - 1].fc2|
  }

  /** `num_local_experts` */
  function Share(n: nat, ep: nat): nat
    requires ep > 0
  {
    n / ep
  }

  /** Expert `i` is copied by the rank. */
  predicate Mine(n: nat, ep: nat, rank: nat, i: nat)
    requires ep > 0
  {
    rank * Share(n, ep) <= i < (rank + 1) * Share(n, ep)
  }

  lemma SharesFit(n: nat, ep: nat, rank: nat)
    requires rank < ep
    ensures 0 <= rank * Share(n, ep) <= (rank + 1) * Share(n, ep) <= n
    ensures (rank + 1) * Share(n, ep) == rank * Share(n, ep) + Share(n, ep)
  {
    var e := Share(n, ep);
    assert n == ep * e + n % ep;
    MulLe(rank + 1, ep, e);
    MulLe(0, rank, e);
  }

  /** The rank's experts. */
  function Local<T>(experts: seq<Expert<T>>, ep: nat, rank: nat): (r: seq<Expert<T>>)
    requires rank < ep
    ensures |r| == Share(|experts|, ep)
  {
    SharesFit(|experts|, ep, rank);
    experts[rank * Share(|experts|, ep)..(rank + 1) * Share(|experts|, ep)]
  }

  /** Those of the first `i` experts that are in the range. */
  function SoFar<T>(experts: seq<Expert<T>>, start: nat, end: nat, i: nat): seq<Expert<T>>
    requires start <= end <= |experts|
  {
    if i < start then [] else experts[start..if i < end then i else end]
  }

  lemma NoneYet<T>(experts: seq<Expert<T>>, start: nat, end: nat)
    requires start <= end <= |experts|
    ensures SoFar(experts, start, end, 0) == []
  {
  }

  lemma OneMore<T>(experts: seq<Expert<T>>, start: nat, end: nat, i: nat)
    requires start <= end <= |experts| && i < |experts|
    ensures SoFar(experts, start, end, i + 1)
            == SoFar(experts, start, end, i) + if start <= i < end then [experts[i]] else []
  {
  }

  lemma LocalIs<T>(experts: seq<Expert<T>>, ep: nat, rank: nat)
    requires rank < ep
    ensures 0 <= rank * Share(|experts|, ep) <= (rank + 1) * Share(|experts|, ep) <= |experts|
    ensures Local(experts, ep, rank)
            == SoFar(experts, rank * Share(|experts|, ep), (rank + 1) * Share(|experts|, ep), |experts|)
  {
    hide Share;
    SharesFit(|experts|, ep, rank);
  }

  lemma NoElements<T>()
    ensures Elements<T>([]) == 0
  {
  }

  lemma MoreElements<T>(es: seq<Expert<T>>, e: Expert<T>)
    ensures Elements(es + [e]) == Elements(es) + |e.fc1| + |e.fc2|
  {
    assert (es + [e])[..|es|] == es;
  }

  /** Copies the rank's experts, in order, counts the elements and keeps the size of the last down weight. */
  method CopyLocalExperts<T>(experts: seq<Expert<T>>, ep: nat, rank: nat)
    returns (local: seq<Expert<T>>, numel: nat, w2: Option<nat>)
    requires rank < ep
    ensures local == Local(experts, ep, rank) && numel == Elements(local)
    ensures w2 == if local == [] then None else Some(|local[|local| - 1].fc2|)
  {
    hide *;
    SharesFit(|experts|, ep, rank);
    var start, end := rank * Share(|experts|, ep), (rank + 1) * Share(|experts|, ep);
    local, numel, w2 := [], 0, None;
    NoElements<T>();
    NoneYet(experts, start, end);
    for i := 0 to |experts|
      invariant local == SoFar(experts, start, end, i) && numel == Elements(local)
      invariant w2 == if local == [] then None else Some(|local[|local| - 1].fc2|)
    {
      OneMore(experts, start, end, i);
      if i < start || i >= end {
        continue;
      }
      numel := numel + |experts[i].fc1| + |experts[i].fc2|;
      w2 := Some(|experts[i].fc2|);
      MoreElements(local, experts[i]);
      local := local + [experts[i]];
    }
    LocalIs(experts, ep, rank);
  }

  /** No expert is copied by two ranks. */
  lemma CopiedOnce(n: nat, ep: nat, rank: nat, rank': nat, i: nat)
    requires ep > 0 && Mine(n, ep, rank, i) && Mine(n, ep, rank', i)
    ensures rank == rank'
  {
    var e := Share(n, ep);
    hide Share;
    CancelLess(rank, rank' + 1, e);
    CancelLess(rank', rank + 1, e);
  }

  ghost predicate Copied(n: nat, ep: nat, i: nat)
    requires ep > 0
  {
    exists rank: nat :: rank < ep && Mine(n, ep, rank, i)
  }

  lemma Holder(n: nat, ep: nat, i: nat) returns (rank: nat)
    requires ep > 0 && n % ep == 0 && i < n
    ensures rank < ep && Mine(n, ep, rank, i)
  {
    var e := Share(n, ep);
    assert n == ep * e;
    rank := i / e;
    assert i == e * rank + i % e;
    CancelLess(rank, ep, e);
    assert (rank + 1) * e == e * rank + e;
  }

  /** Every expert is copied if and only if the ranks divide the experts; else the last ones are on no rank. */
  lemma AllCopied(n: nat, ep: nat)
    requires ep > 0
    ensures (forall i: nat :: i < n ==> Copied(n, ep, i)) <==> n % ep == 0
  {
    var e := Share(n, ep);
    assert n == ep * e + n % ep;
    if n % ep == 0 {
      forall i: nat | i < n ensures Copied(n, ep, i) {
        var rank := Holder(n, ep, i);
      }
    } else {
      var last := n - 1;
      forall rank: nat | rank < ep ensures !Mine(n, ep, rank, last) {
        MulLe(rank + 1, ep, e);
      }
      assert !Copied(n, ep, last);
    }
  }

  /** Elements of the other ranks' experts, as the check computes them for `w2` elements in each down weight. */
  function Others(n: nat, ep: nat, w2: nat): int
    requires ep > 0
  {
    w2 * 3 * n / ep * (ep - 1)
  }

  /** Elements of the experts a rank should have copied: those of all experts less the others'. */
  function Expected(n: nat, ep: nat, w2: nat): int
    requires ep > 0
  {
    w2 * 3 * n - Others(n, ep, w2)
  }

  lemma LessOne(q: int, d: int)
    ensures q * (d - 1) == d * q - q
  {
  }

  lemma ExpectedIs(n: nat, ep: nat, total: nat, w2: nat)
    requires ep > 0 && total == w2 * 3 * n
    ensures Expected(n, ep, w2) == total / ep + total % ep && total == ep * (total / ep) + total % ep
  {
    LessOne(total / ep, ep);
  }

  lemma Distribute(k: int, a: int, b: int, c: int)
    ensures k * (a * b + c) == a * (k * b) + k * c
  {
  }

  lemma NotZero(a: nat, b: nat)
    requires a > 0
    ensures a * b == 0 <==> b == 0
  {
  }

  lemma ShareIs(n: nat, ep: nat)
    requires ep > 0
    ensures n == ep * Share(n, ep) + n % ep
  {
  }

  /** Dividing a multiple plus a rest gives the quotient back, with nothing left over, only for no rest. */
  lemma Remaining(d: nat, q: nat, r: nat, own: nat, extra: nat)
    requires d > 0 && d * q + r == d * own + extra && r < d
    ensures q + r == own <==> extra == 0
  {
    CancelLess(own, q + 1, d);
    if extra == 0 {
      CancelLess(q, own + 1, d);
    }
  }

  /** The check on the element count passes exactly when the ranks divide the experts. */
  lemma CountCheckIsExact(n: nat, ep: nat, w2: nat)
    requires ep > 0 && w2 > 0
    ensures w2 * 3 * Share(n, ep) == Expected(n, ep, w2) <==> n % ep == 0
  {
    hide *;
    var e, s, total := Share(n, ep), n % ep, w2 * 3 * n;
    ShareIs(n, ep);
    ExpectedIs(n, ep, total, w2);
    Distribute(w2 * 3, ep, e, s);
    NotZero(w2 * 3, s);
    Remaining(ep, total / ep, total % ep, w2 * 3 * e, w2 * 3 * s);
  }

  /** Experts of one size: `w2` elements in the down weight, and as many in the gate and in the up weight. */
  predicate Alike<T>(es: seq<Expert<T>>, w2: nat) {
    forall i :: 0 <= i < |es| ==> |es[i].fc1| == 2 * w2 && |es[i].fc2| == w2
  }

  lemma {:induction false} AlikeElements<T>(es: seq<Expert<T>>, w2: nat)
    requires Alike(es, w2)
    ensures Elements(es) == w2 * 3 * |es|
  {
    if es != [] {
      AlikeElements(es[..|es| - 1], w2);
      Distribute(w2 * 3, 1, |es| - 1, 1);
    }
  }

  /** `numel_hf_one_layer` as far as experts go: the elements of all of them less the share of the other ranks. */
  function ElementsHere<T>(experts: seq<Expert<T>>, ep: nat, w2: nat): int
    requires ep > 0
  {
    Elements(experts) - Others(|experts|, ep, w2)
  }

  lemma LocalAlike<T>(experts: seq<Expert<T>>, ep: nat, rank: nat, w2: nat)
    requires rank < ep && Alike(experts, w2)
    ensures Alike(Local(experts, ep, rank), w2)
  {
    hide Share;
    SharesFit(|experts|, ep, rank);
    var start, end := rank * Share(|experts|, ep), (rank + 1) * Share(|experts|, ep);
    assert Local(experts, ep, rank) == experts[start..end];
  }

  lemma AlikeCount<T>(experts: seq<Expert<T>>, ep: nat, rank: nat, w2: nat)
    requires rank < ep && Alike(experts, w2) && w2 > 0
    ensures Elements(Local(experts, ep, rank)) == w2 * 3 * Share(|experts|, ep)
    ensures Elements(Local(experts, ep, rank)) == ElementsHere(experts, ep, w2) <==> |experts| % ep == 0
  {
    hide Share, Others, Alike, Elements, Local;
    LocalAlike(experts, ep, rank, w2);
    AlikeElements(experts, w2);
    AlikeElements(Local(experts, ep, rank), w2);
    CountCheckIsExact(|experts|, ep, w2);
  }

  lemma NoShare(n: nat, ep: nat)
    requires ep > 0
    ensures Share(n, ep) == 0 <==> n < ep
  {
    ShareIs(n, ep);
    if Share(n, ep) > 0 {
      MulLe(1, Share(n, ep), ep);
    }
  }

  lemma LocalSize<T>(experts: seq<Expert<T>>, ep: nat, rank: nat, w2: nat)
    requires rank < ep && Alike(experts, w2)
    ensures var local := Local(experts, ep, rank); local != [] ==> |local[|local| - 1].fc2| == w2
  {
    hide Local;
    LocalAlike(experts, ep, rank, w2);
  }

  /** Copies the experts of one layer and checks their elements, all other weights being copied whole. A rank without
    an expert of its own reads `numel_w2` before it is assigned. */
  method CopyAndCheck<T>(experts: seq<Expert<T>>, ep: nat, rank: nat) returns (r: Result<seq<Expert<T>>>)
    requires rank < ep
    ensures r.Ok? || r.UnboundLocalError? || r.AssertionError?
    ensures r.UnboundLocalError? <==> |experts| < ep
    ensures r.Ok? ==> r.value == Local(experts, ep, rank)
    ensures forall w2: nat :: Alike(experts, w2) && w2 > 0 && |experts| >= ep ==> (r.Ok? <==> |experts| % ep == 0)
  {
    hide *;
    var local, numel, w2 := CopyLocalExperts(experts, ep, rank);
    NoShare(|experts|, ep);
    if w2.None? {
      return UnboundLocalError;
    }
    r := if numel == ElementsHere(experts, ep, w2.value) then Ok(local) else AssertionError;
    forall w: nat | Alike(experts, w) && w > 0 ensures r.Ok? <==> |experts| % ep == 0 {
      LocalSize(experts, ep, rank, w);
      AlikeCount(experts, ep, rank, w);
    }
  }
}
