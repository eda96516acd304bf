/** Stacking the expert weights of mixture-of-experts layers into one tensor per projection, and splitting
  them again. State dictionaries are maps; the order of their entries is not part of the model. */
module MoeStacking {
  import opened Prelude

  datatype Proj = Gate | Up | Down

  /** `model.layers.{layer}.mlp.experts.{expert}.{proj}.weight`, the stacked key, and all other names. */
  datatype Key = Expert(layer: nat, expert: nat, proj: Proj) | Stacked(layer: nat, proj: Proj) | Other(name: string)

  /** A tensor is a number or the sequence of its slices along the first dimension. */
  datatype Tensor = Scalar(x: real) | Rows(rows: seq<Tensor>)

  type StateDict = map<Key, Tensor>

  datatype Config = Config(numExperts: Option<nat>, nRoutedExperts: Option<nat>, layers: nat, firstDense: Option<nat>)

  const PROJS := [Gate, Up, Down]

  function Rank(p: Proj): nat {
    match p case Gate => 0 case Up => 1 case Down => 2
  }

  /** The pair comes before position `(i, q)` of the loops over layers from `lo` on and projections. */
  predicate Visited(layer: nat, p: Proj, lo: nat, i: nat, q: nat) {
    lo <= layer && (layer < i || (layer == i && Rank(p) < q))
  }

  // ---------------------------------------------------------------- merging

  predicate HasExperts(d: StateDict, layer: nat, p: Proj, n: nat) {
    forall j :: 0 <= j < n ==> Expert(layer, j, p) in d
  }

  function Experts(d: StateDict, layer: nat, p: Proj, n: nat): seq<Tensor>
    requires HasExperts(d, layer, p, n)
  {
    seq(n, j requires 0 <= j < n => d[Expert(layer, j, p)])
  }

  ghost predicate Mergeable(d: StateDict, n: nat, lo: nat, i: nat, q: nat) {
    forall layer: nat, p :: Visited(layer, p, lo, i, q) ==> n > 0 && HasExperts(d, layer, p, n)
  }

  ghost predicate Same(d: StateDict, r: StateDict, k: Key) {
    (k in r <==> k in d) && (k in d ==> r[k] == d[k])
  }

  ghost predicate MergedAt(d: StateDict, r: StateDict, n: nat, lo: nat, i: nat, q: nat, k: Key)
    requires Mergeable(d, n, lo, i, q)
  {
    match k
    case Expert(layer, j, p) =>
      if j < n && Visited(layer, p, lo, i, q) then k !in r else Same(d, r, k)
    case Stacked(layer, p) =>
      if Visited(layer, p, lo, i, q) then k in r && r[k] == Rows(Experts(d, layer, p, n)) else Same(d, r, k)
    case Other(_) => Same(d, r, k)
  }

  /** `r` has the expert weights of the visited layers stacked, and is otherwise `d`. */
  ghost predicate Merged(d: StateDict, r: StateDict, n: nat, lo: nat, i: nat, q: nat) {
    Mergeable(d, n, lo, i, q) && forall k: Key :: MergedAt(d, r, n, lo, i, q, k)
  }

  function Without(d: StateDict, layer: nat, p: Proj, n: nat): StateDict {
    map k | k in d && !(k.Expert? && k.layer == layer && k.proj == p && k.expert < n) :: d[k]
  }

  /** `[new_state_dict.pop(...) for each expert]` */
  method PopExperts(d: StateDict, layer: nat, p: Proj, n: nat) returns (r: Result<(StateDict, seq<Tensor>)>)
    ensures r.Ok? <==> HasExperts(d, layer, p, n)
    ensures r.Ok? ==> r.value == (Without(d, layer, p, n), Experts(d, layer, p, n))
  {
    var rest, popped := d, [];
    for j := 0 to n
      invariant HasExperts(d, layer, p, j) && popped == Experts(d, layer, p, j) && rest == Without(d, layer, p, j)
    {
      var key := Expert(layer, j, p);
      if key !in rest {
        assert key !in d;
        return KeyError;
      }
      popped := popped + [rest[key]];
      rest := rest - {key};
    }
    r := Ok((rest, popped));
  }

  /** Stacking one projection of one layer moves the loops on by one. */
  lemma MergeNext(d: StateDict, sd: StateDict, n: nat, lo: nat, i: nat, q: nat)
    requires Merged(d, sd, n, lo, i, q) && lo <= i && q < 3
    ensures HasExperts(sd, i, PROJS[q], n) <==> HasExperts(d, i, PROJS[q], n)
    ensures n > 0 && HasExperts(sd, i, PROJS[q], n) ==>
              var after := Without(sd, i, PROJS[q], n)[Stacked(i, PROJS[q]) := Rows(Experts(sd, i, PROJS[q], n))];
              Merged(d, after, n, lo, i, q + 1)
  {
    var p := PROJS[q];
    assert Rank(p) == q;
    assert forall j: nat :: MergedAt(d, sd, n, lo, i, q, Expert(i, j, p)) ==> Same(d, sd, Expert(i, j, p));
    if n > 0 && HasExperts(sd, i, p, n) {
      var after := Without(sd, i, p, n)[Stacked(i, p) := Rows(Experts(sd, i, p, n))];
      assert Experts(sd, i, p, n) == Experts(d, i, p, n);
      var next := q + 1;
      forall k: Key ensures MergedAt(d, after, n, lo, i, next, k) {
        assert MergedAt(d, sd, n, lo, i, q, k);
      }
    }
  }

  /** The end of one layer is the start of the next. */
  lemma NextLayer(d: StateDict, sd: StateDict, n: nat, lo: nat, i: nat)
    requires Merged(d, sd, n, lo, i, 3)
    ensures Merged(d, sd, n, lo, i + 1, 0)
  {
    var next := i + 1;
    assert Mergeable(d, n, lo, next, 0) by {
      forall layer: nat, p | Visited(layer, p, lo, next, 0) ensures n > 0 && HasExperts(d, layer, p, n) {
        assert Visited(layer, p, lo, i, 3);
      }
    }
    forall k: Key ensures MergedAt(d, sd, n, lo, next, 0, k) {
      assert MergedAt(d, sd, n, lo, i, 3, k);
    }
  }

  /** `torch.stack` of a list; there is nothing to stack in an empty one. */
  function Stack(ts: seq<Tensor>): Result<Tensor> {
    if ts == [] then RuntimeError else Ok(Rows(ts))
  }

  function ExpertCount(c: Config): Option<nat> {
    if c.numExperts.Some? then c.numExperts else c.nRoutedExperts
  }

  function FirstLayer(c: Config): nat {
    if c.firstDense.Some? then c.firstDense.value else 0
  }

  lemma ExpertsLength(d: StateDict, layer: nat, p: Proj, n: nat)
    requires HasExperts(d, layer, p, n)
    ensures |Experts(d, layer, p, n)| == n
  {
  }

  /** `r` has, stacked in order, the `n` expert weights that `d` has. */
  ghost predicate IsStack(d: StateDict, r: StateDict, layer: nat, p: Proj, n: nat) {
    && Stacked(layer, p) in r && r[Stacked(layer, p)].Rows? && |r[Stacked(layer, p)].rows| == n
    && forall j :: 0 <= j < n ==> Expert(layer, j, p) in d && r[Stacked(layer, p)].rows[j] == d[Expert(layer, j, p)]
  }

  lemma MergedIsStack(d: StateDict, r: StateDict, n: nat, lo: nat, layers: nat, layer: nat, p: Proj)
    requires Merged(d, r, n, lo, layers, 0) && lo <= layer < layers
    ensures IsStack(d, r, layer, p, n)
  {
    assert MergedAt(d, r, n, lo, layers, 0, Stacked(layer, p)) && Visited(layer, p, lo, layers, 0);
  }

  lemma NoExperts(d: StateDict, layer: nat, p: Proj)
    ensures HasExperts(d, layer, p, 0)
  {
  }

  method MoeMerge(d: StateDict, c: Config) returns (r: Result<StateDict>)
    ensures r.Ok? <==> ExpertCount(c).Some? && Mergeable(d, ExpertCount(c).value, FirstLayer(c), c.layers, 0)
    ensures r.Ok? ==> Merged(d, r.value, ExpertCount(c).value, FirstLayer(c), c.layers, 0)
    ensures r.Ok? || r.RuntimeError? || r.KeyError?
    ensures r.RuntimeError? <==>
              (c.numExperts.None? && c.nRoutedExperts.None?) || (ExpertCount(c) == Some(0) && FirstLayer(c) < c.layers)
    ensures r.Ok? ==> forall layer: nat, p, n: nat ::
              (c.firstDense.Some? ==> c.firstDense.value <= layer) && layer < c.layers
              && (c.numExperts == Some(n) || (c.numExperts.None? && c.nRoutedExperts == Some(n)))
              ==> IsStack(d, r.value, layer, p, n)
  {
    if ExpertCount(c).None? {
      return RuntimeError;
    }
    var n, lo := ExpertCount(c).value, FirstLayer(c);
    var sd := d;
    if lo > c.layers {
      return Ok(d);
    }
    for i := lo to c.layers
      invariant Merged(d, sd, n, lo, i, 0)
    {
      for q := 0 to 3
        invariant Merged(d, sd, n, lo, i, q)
      {
        hide Merged, Without, Experts, HasExperts;
        MergeNext(d, sd, n, lo, i, q);
        assert Rank(PROJS[q]) == q && Visited(i, PROJS[q], lo, c.layers, 0);
        var popped := PopExperts(sd, i, PROJS[q], n);
        if !popped.Ok? {
          NoExperts(sd, i, PROJS[q]);
          return KeyError;
        }
        ExpertsLength(sd, i, PROJS[q], n);
        var stacked := Stack(popped.value.1);
        if !stacked.Ok? {
          return RuntimeError;
        }
        sd := popped.value.0[Stacked(i, PROJS[q]) := stacked.value];
      }
      NextLayer(d, sd, n, lo, i);
    }
    assert lo < c.layers ==> Visited(lo, Gate, lo, c.layers, 0);
    forall layer: nat, p | lo <= layer < c.layers ensures IsStack(d, sd, layer, p, n) {
      MergedIsStack(d, sd, n, lo, c.layers, layer, p);
    }
    r := Ok(sd);
  }

  // ---------------------------------------------------------------- splitting

  /** A stacked tensor has a slice for every expert. */
  predicate Indexable(t: Tensor, n: nat) {
    n == 0 || (t.Rows? && n <= |t.rows|)
  }

  ghost predicate Splittable(d: StateDict, n: nat, i: nat, q: nat) {
    forall layer: nat, p :: Visited(layer, p, 0, i, q) && Stacked(layer, p) in d ==> Indexable(d[Stacked(layer, p)], n)
  }

  ghost predicate SplitAt(d: StateDict, r: StateDict, n: nat, i: nat, q: nat, k: Key)
    requires Splittable(d, n, i, q)
  {
    match k
    case Expert(layer, j, p) =>
      if j < n && Visited(layer, p, 0, i, q) && Stacked(layer, p) in d
      then k in r && r[k] == d[Stacked(layer, p)].rows[j] else Same(d, r, k)
    case Stacked(layer, p) =>
      if Visited(layer, p, 0, i, q) then k !in r else Same(d, r, k)
    case Other(_) => Same(d, r, k)
  }

  /** `r` has the stacked weights of the visited layers split, and is otherwise `d`. */
  ghost predicate IsSplit(d: StateDict, r: StateDict, n: nat, i: nat, q: nat) {
    Splittable(d, n, i, q) && forall k: Key :: SplitAt(d, r, n, i, q, k)
  }

  /** The dictionary after storing the first `n` slices of the tensor. */
  function WithExperts(d: StateDict, layer: nat, p: Proj, t: Tensor, n: nat): StateDict
    requires Indexable(t, n)
  {
    if n == 0 then d else WithExperts(d, layer, p, t, n - 1)[Expert(layer, n - 1, p) := t.rows[n - 1]]
  }

  lemma {:induction false} WithExpertsAt(d: StateDict, layer: nat, p: Proj, t: Tensor, n: nat, k: Key)
    requires Indexable(t, n)
    ensures var r := WithExperts(d, layer, p, t, n);
            if k.Expert? && k.layer == layer && k.proj == p && k.expert < n then k in r && r[k] == t.rows[k.expert]
            else Same(d, r, k)
  {
    if n > 0 {
      WithExpertsAt(d, layer, p, t, n - 1, k);
    }
  }

  /** `for j in range(num_experts): new_state_dict[expert_key] = stacked_tensor[j]` */
  method StoreExperts(d: StateDict, layer: nat, p: Proj, t: Tensor, n: nat) returns (r: Result<StateDict>)
    ensures r.Ok? <==> Indexable(t, n)
    ensures r.Ok? ==> r.value == WithExperts(d, layer, p, t, n)
  {
    var sd := d;
    for j := 0 to n
      invariant Indexable(t, j) && sd == WithExperts(d, layer, p, t, j)
    {
      if t.Scalar? || j >= |t.rows| {
        return IndexError;
      }
      sd := sd[Expert(layer, j, p) := t.rows[j]];
    }
    r := Ok(sd);
  }

  lemma SplitNext(d: StateDict, sd: StateDict, n: nat, i: nat, q: nat)
    requires IsSplit(d, sd, n, i, q) && q < 3
    ensures var s := Stacked(i, PROJS[q]);
            && Same(d, sd, s)
            && (s in sd && Indexable(sd[s], n) ==>
                  IsSplit(d, WithExperts(sd - {s}, i, PROJS[q], sd[s], n), n, i, q + 1))
            && (s !in sd ==> IsSplit(d, sd, n, i, q + 1))
  {
    var p, s := PROJS[q], Stacked(i, PROJS[q]);
    assert Rank(p) == q;
    assert SplitAt(d, sd, n, i, q, s);
    var next := q + 1;
    if s in sd && Indexable(sd[s], n) {
      var after := WithExperts(sd - {s}, i, p, sd[s], n);
      forall k: Key ensures SplitAt(d, after, n, i, next, k) {
        assert SplitAt(d, sd, n, i, q, k);
        WithExpertsAt(sd - {s}, i, p, sd[s], n, k);
      }
    }
    if s !in sd {
      forall k: Key ensures SplitAt(d, sd, n, i, next, k) {
        assert SplitAt(d, sd, n, i, q, k);
      }
    }
  }

  lemma NextSplitLayer(d: StateDict, sd: StateDict, n: nat, i: nat)
    requires IsSplit(d, sd, n, i, 3)
    ensures IsSplit(d, sd, n, i + 1, 0)
  {
    var next := i + 1;
    assert Splittable(d, n, next, 0) by {
      forall layer: nat, p | Visited(layer, p, 0, next, 0) && Stacked(layer, p) in d
        ensures Indexable(d[Stacked(layer, p)], n)
      {
        assert Visited(layer, p, 0, i, 3);
      }
    }
    forall k: Key ensures SplitAt(d, sd, n, next, 0, k) {
      assert SplitAt(d, sd, n, i, 3, k);
    }
  }

  /** Splitting needs the configuration to say `num_experts`. */
  method MoeSplit(d: StateDict, c: Config) returns (r: Result<StateDict>)
    ensures r.Ok? <==> c.numExperts.Some? && Splittable(d, c.numExperts.value, c.layers, 0)
    ensures r.Ok? ==> IsSplit(d, r.value, c.numExperts.value, c.layers, 0)
    ensures r.Ok? || r.AttributeError? || r.IndexError?
    ensures r.AttributeError? <==> c.numExperts.None?
  {
    if c.numExperts.None? {
      return AttributeError;
    }
    var n, sd := c.numExperts.value, d;
    for i := 0 to c.layers
      invariant IsSplit(d, sd, n, i, 0)
    {
      for q := 0 to 3
        invariant IsSplit(d, sd, n, i, q)
      {
        hide IsSplit, WithExperts, Indexable;
        SplitNext(d, sd, n, i, q);
        assert Rank(PROJS[q]) == q && Visited(i, PROJS[q], 0, c.layers, 0);
        var key := Stacked(i, PROJS[q]);
        if key in sd {
          var stored := StoreExperts(sd - {key}, i, PROJS[q], sd[key], n);
          if !stored.Ok? {
            return IndexError;
          }
          sd := stored.value;
        }
      }
      NextSplitLayer(d, sd, n, i);
    }
    r := Ok(sd);
  }

  // ---------------------------------------------------------------- round trip

  /** A key that splitting would consume is there before merging. */
  ghost predicate HasStacked(d: StateDict, layers: nat) {
    exists layer: nat, p :: layer < layers && Stacked(layer, p) in d
  }

  /** What merging stacks, splitting can take apart, unless a dense layer has a stacked key that is too short. */
  lemma MergedIsSplittable(d: StateDict, m: StateDict, n: nat, lo: nat, layers: nat)
    requires Merged(d, m, n, lo, layers, 0)
    ensures !HasStacked(d, layers) ==> Splittable(m, n, layers, 0)
  {
    if !HasStacked(d, layers) {
      forall layer: nat, p | Visited(layer, p, 0, layers, 0) && Stacked(layer, p) in m
        ensures Indexable(m[Stacked(layer, p)], n)
      {
        assert MergedAt(d, m, n, lo, layers, 0, Stacked(layer, p));
        assert !(layer < layers && Stacked(layer, p) in d);
      }
    }
  }

  lemma RestoredAt(d: StateDict, m: StateDict, s: StateDict, n: nat, lo: nat, layers: nat, k: Key)
    requires Merged(d, m, n, lo, layers, 0) && IsSplit(m, s, n, layers, 0) && !HasStacked(d, layers)
    ensures Same(d, s, k)
  {
    assert MergedAt(d, m, n, lo, layers, 0, k) && SplitAt(m, s, n, layers, 0, k);
    if k.Expert? {
      var stacked := Stacked(k.layer, k.proj);
      assert MergedAt(d, m, n, lo, layers, 0, stacked);
      assert k.layer < layers ==> stacked !in d;
    } else if k.Stacked? {
      assert k.layer < layers ==> k !in d;
    }
  }

  /** Splitting undoes merging, dropping and duplicating no tensor, exactly when there was no stacked key before. */
  lemma SplitUndoesMerge(d: StateDict, m: StateDict, s: StateDict, n: nat, lo: nat, layers: nat)
    requires Merged(d, m, n, lo, layers, 0) && IsSplit(m, s, n, layers, 0)
    ensures s == d <==> !HasStacked(d, layers)
  {
    if HasStacked(d, layers) {
      var layer: nat, p :| layer < layers && Stacked(layer, p) in d;
      assert SplitAt(m, s, n, layers, 0, Stacked(layer, p));
      assert Stacked(layer, p) !in s;
    } else {
      forall k: Key ensures (k in s <==> k in d) && (k in d ==> s[k] == d[k]) {
        RestoredAt(d, m, s, n, lo, layers, k);
      }
    }
  }
}
