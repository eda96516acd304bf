/** Loading a checkpoint in parallel: every rank reads its share of the files, and parameters reach the other
  ranks by broadcasts issued while the modules are initialised. A broadcast only completes when all ranks
  issue it with the same source, in the same order. */
module ParallelLoad {
  import opened Arithmetic
  import opened Prelude

  type File = nat
  type Name = string

  /** A checkpoint: its sorted files, the parameters the index lists for each, and the file contents. */
  datatype Checkpoint<T> = Checkpoint(order: seq<File>, params: map<File, seq<Name>>, contents: map<File, map<Name, T>>) {
    /** The index describes the files, and lists every parameter once. */
    ghost predicate Valid() {
      && (forall f :: f in order ==> f in params && f in contents)
      && (forall f, p :: f in params && f in contents ==> (p in params[f] <==> p in contents[f]))
      && (forall i, j, p ::
            0 <= i < |order| && 0 <= j < |order| && p in params[order[i]] && p in params[order[j]] ==> i == j)
    }

    ghost predicate Lists(i: nat, p: Name)
      requires Valid()
    {
      i < |order| && p in params[order[i]]
    }
  }

  /** An entry of `shard_states`: the tensor, or the rank that has it. */
  datatype State<T> = Loaded(t: T) | Remote(src: nat)

  // ---------------------------------------------------------------- dividing the files

  /** `int(math.ceil(total_files / world_size))` */
  function ChunkSize(files: nat, world: nat): nat
    requires world > 0
  {
    CeilDiv(files, world)
  }

  function ChunkOf(order: seq<File>, size: nat, r: nat): seq<File> {
    var lo, hi := Min(r * size, |order|), Min(r * size + size, |order|);
    order[lo..hi]
  }

  function ChunksBefore(order: seq<File>, size: nat, r: nat): seq<File> {
    if r == 0 then [] else ChunksBefore(order, size, r - 1) + ChunkOf(order, size, r - 1)
  }

  lemma {:induction false} ChunksArePrefix(order: seq<File>, size: nat, r: nat)
    ensures ChunksBefore(order, size, r) == order[..Min(r * size, |order|)]
  {
    if r > 0 {
      ChunksArePrefix(order, size, r - 1);
      assert r * size == (r - 1) * size + size;
    }
  }

  lemma ChunkSizeCovers(files: nat, world: nat)
    requires world > 0
    ensures world * ChunkSize(files, world) >= files
  {
    var size := ChunkSize(files, world);
    assert files + world - 1 == world * size + (files + world - 1) % world;
  }

  /** No smaller chunks would do. */
  lemma ChunkSizeIsLeast(files: nat, world: nat, size: nat)
    requires world > 0 && world * size >= files
    ensures ChunkSize(files, world) <= size
  {
    var c := ChunkSize(files, world);
    assert files + world - 1 == world * c + (files + world - 1) % world;
    assert world * (size + 1) == world * size + world;
    CancelLess(c, size + 1, world);
  }

  /** Rank `r` has a full chunk, or what is left. */
  lemma ChunkLength(order: seq<File>, world: nat, r: nat)
    requires world > 0
    ensures var size := ChunkSize(|order|, world);
            |ChunkOf(order, size, r)| == Min(size, if r * size <= |order| then |order| - r * size else 0)
  {
  }

  /** The chunks of all ranks are the files, each once and in order. */
  lemma ChunksCoverFiles(order: seq<File>, world: nat)
    requires world > 0
    ensures ChunksBefore(order, ChunkSize(|order|, world), world) == order
  {
    ChunkSizeCovers(|order|, world);
    ChunksArePrefix(order, ChunkSize(|order|, world), world);
  }

  // ---------------------------------------------------------------- shard states

  function AllLoaded<T>(states: map<Name, T>): map<Name, State<T>> {
    map p | p in states :: Loaded(states[p])
  }

  function AllRemote<T>(names: seq<Name>, src: nat): map<Name, State<T>> {
    map p | p in names :: Remote(src)
  }

  /** What a rank records about a file that rank `owner` loads. */
  function FileStates<T>(c: Checkpoint<T>, f: File, owner: nat, rank: nat): map<Name, State<T>>
    requires f in c.params && f in c.contents
  {
    if owner == rank then AllLoaded(c.contents[f]) else AllRemote(c.params[f], owner)
  }

  /** The rank whose chunk has file `i`. */
  function Owner(i: nat, size: nat): nat
    requires size > 0
  {
    i / size
  }

  /** The states after the first `n` files. */
  function StatesAfter<T>(c: Checkpoint<T>, size: nat, rank: nat, n: nat): map<Name, State<T>>
    requires n <= |c.order| && (n > 0 ==> size > 0) && forall f :: f in c.order ==> f in c.params && f in c.contents
  {
    if n == 0 then map[]
    else StatesAfter(c, size, rank, n - 1) + FileStates(c, c.order[n - 1], Owner(n - 1, size), rank)
  }

  lemma OwnerOf(i: nat, size: nat, r: nat, j: nat)
    requires i == r * size + j && j < size
    ensures Owner(i, size) == r
  {
    var q := i / size;
    assert i == q * size + i % size;
    if q < r {
      MulLe(q + 1, r, size);
    } else if r < q {
      MulLe(r + 1, q, size);
    }
  }

  lemma NoneRemote<T>(states: map<Name, State<T>>, src: nat)
    ensures states + AllRemote([], src) == states
  {
  }

  lemma OneMoreRemote<T>(states: map<Name, State<T>>, names: seq<Name>, i: nat, src: nat)
    requires i < |names|
    ensures (states + AllRemote(names[..i], src))[names[i] := Remote(src)] == states + AllRemote(names[..i + 1], src)
  {
    assert forall n :: n in names[..i + 1] <==> n in names[..i] || n == names[i];
  }

  /** `for param_name in safetensors2param[file]: shard_states[param_name] = rank` */
  method RecordRemote<T>(states: map<Name, State<T>>, names: seq<Name>, src: nat) returns (after: map<Name, State<T>>)
    ensures after == states + AllRemote(names, src)
  {
    hide AllRemote;
    after := states;
    NoneRemote(states, src);
    for i := 0 to |names|
      invariant after == states + AllRemote(names[..i], src)
    {
      OneMoreRemote(states, names, i, src);
      after := after[names[i] := Remote(src)];
    }
    assert names[..|names|] == names;
  }

  method LoadFile<T>(c: Checkpoint<T>, states: map<Name, State<T>>, f: File, owner: nat, rank: nat)
    returns (after: map<Name, State<T>>)
    requires f in c.params && f in c.contents
    ensures after == states + FileStates(c, f, owner, rank)
  {
    if owner == rank {
      after := states + AllLoaded(c.contents[f]);
    } else {
      after := RecordRemote(states, c.params[f], owner);
    }
  }

  /** How many files the chunks of the ranks before `r` hold. */
  function Reached(order: seq<File>, size: nat, r: nat): nat {
    Min(r * size, |order|)
  }

  lemma ChunkStart(order: seq<File>, size: nat, r: nat)
    ensures Reached(order, size, 0) == 0
    ensures Reached(order, size, r) + |ChunkOf(order, size, r)| == Reached(order, size, r + 1) <= |order|
    ensures Reached(order, size, r) > 0 ==> size > 0
  {
    assert (r + 1) * size == r * size + size;
  }

  lemma ChunkAt(order: seq<File>, size: nat, r: nat, j: nat)
    requires j < |ChunkOf(order, size, r)|
    ensures size > 0 && Reached(order, size, r) + j < |order|
    ensures ChunkOf(order, size, r)[j] == order[Reached(order, size, r) + j]
    ensures Owner(Reached(order, size, r) + j, size) == r
  {
    assert Reached(order, size, r) == r * size;
    OwnerOf(r * size + j, size, r, j);
  }

  lemma AllReached(order: seq<File>, world: nat)
    requires world > 0
    ensures Reached(order, ChunkSize(|order|, world), world) == |order|
    ensures |order| > 0 ==> ChunkSize(|order|, world) > 0
  {
    ChunkSizeCovers(|order|, world);
  }

  lemma NoStates<T>(c: Checkpoint<T>, size: nat, rank: nat)
    requires forall f :: f in c.order ==> f in c.params && f in c.contents
    ensures StatesAfter(c, size, rank, 0) == map[]
  {
  }

  lemma NextStates<T>(c: Checkpoint<T>, size: nat, rank: nat, n: nat)
    requires n < |c.order| && size > 0 && forall f :: f in c.order ==> f in c.params && f in c.contents
    ensures StatesAfter(c, size, rank, n + 1)
            == StatesAfter(c, size, rank, n) + FileStates(c, c.order[n], Owner(n, size), rank)
  {
  }

  method ParallelLoadSafetensors<T>(c: Checkpoint<T>, world: nat, rank: nat) returns (states: map<Name, State<T>>)
    requires world > 0 && forall f :: f in c.order ==> f in c.params && f in c.contents
    ensures |c.order| > 0 ==> ChunkSize(|c.order|, world) > 0
    ensures states == StatesAfter(c, ChunkSize(|c.order|, world), rank, |c.order|)
  {
    hide *;
    var size := ChunkSize(|c.order|, world);
    ChunkSizeCovers(|c.order|, world);
    ChunkStart(c.order, size, 0);
    states := map[];
    NoStates(c, size, rank);
    for r := 0 to world
      invariant Reached(c.order, size, r) <= |c.order| && (Reached(c.order, size, r) > 0 ==> size > 0)
      invariant states == StatesAfter(c, size, rank, Reached(c.order, size, r))
    {
      var files := ChunkOf(c.order, size, r);
      ghost var n := Reached(c.order, size, r);
      ChunkStart(c.order, size, r);
      for j := 0 to |files|
        invariant n + j > 0 ==> size > 0
        invariant states == StatesAfter(c, size, rank, n + j)
      {
        ChunkAt(c.order, size, r, j);
        NextStates(c, size, rank, n + j);
        states := LoadFile(c, states, files[j], r, rank);
      }
    }
    AllReached(c.order, world);
  }

  // ---------------------------------------------------------------- agreement between the ranks

  function AllOwned(names: seq<Name>, r: nat): map<Name, nat> {
    map p | p in names :: r
  }

  /** Who holds each parameter, and its value in the checkpoint. */
  function Owners<T>(c: Checkpoint<T>, size: nat, n: nat): map<Name, nat>
    requires n <= |c.order| && (n > 0 ==> size > 0) && forall f :: f in c.order ==> f in c.params
  {
    if n == 0 then map[]
    else Owners(c, size, n - 1) + AllOwned(c.params[c.order[n - 1]], Owner(n - 1, size))
  }

  function Values<T>(c: Checkpoint<T>, n: nat): map<Name, T>
    requires n <= |c.order| && forall f :: f in c.order ==> f in c.contents
  {
    if n == 0 then map[] else Values(c, n - 1) + c.contents[c.order[n - 1]]
  }

  /** The states of a rank: its own parameters are loaded, the others name their owner. */
  ghost predicate Agrees<T>(states: map<Name, State<T>>, owner: map<Name, nat>, value: map<Name, T>, rank: nat) {
    && states.Keys == owner.Keys == value.Keys
    && forall p :: p in states ==> states[p] == if owner[p] == rank then Loaded(value[p]) else Remote(owner[p])
  }

  lemma StatesNext<T>(c: Checkpoint<T>, size: nat, rank: nat, n: nat)
    requires c.Valid() && 0 < n <= |c.order| && size > 0
    ensures var f := c.order[n - 1];
            StatesAfter(c, size, rank, n) == StatesAfter(c, size, rank, n - 1) + FileStates(c, f, Owner(n - 1, size), rank)
            && Owners(c, size, n) == Owners(c, size, n - 1) + AllOwned(c.params[f], Owner(n - 1, size))
            && Values(c, n) == Values(c, n - 1) + c.contents[f]
  {
  }

  lemma FileAgrees<T>(c: Checkpoint<T>, f: File, owner: nat, rank: nat)
    requires f in c.params && f in c.contents && forall p :: p in c.params[f] <==> p in c.contents[f]
    ensures Agrees(FileStates(c, f, owner, rank), AllOwned(c.params[f], owner), c.contents[f], rank)
  {
  }

  lemma AgreesSum<T>(s: map<Name, State<T>>, o: map<Name, nat>, v: map<Name, T>,
                     s': map<Name, State<T>>, o': map<Name, nat>, v': map<Name, T>, rank: nat)
    requires Agrees(s, o, v, rank) && Agrees(s', o', v', rank)
    ensures Agrees(s + s', o + o', v + v', rank)
  {
    assert (s + s').Keys == s.Keys + s'.Keys;
    assert (o + o').Keys == o.Keys + o'.Keys;
    assert (v + v').Keys == v.Keys + v'.Keys;
  }

  /** All ranks agree on who owns each parameter, and the owner has the value of the checkpoint. */
  lemma {:induction false} RanksAgree<T>(c: Checkpoint<T>, size: nat, rank: nat, n: nat)
    requires c.Valid() && n <= |c.order| && (n > 0 ==> size > 0)
    ensures Agrees(StatesAfter(c, size, rank, n), Owners(c, size, n), Values(c, n), rank)
  {
    if n > 0 {
      RanksAgree(c, size, rank, n - 1);
      var f := c.order[n - 1];
      assert f in c.params && f in c.contents;
      var states, owner, value := StatesAfter(c, size, rank, n - 1), Owners(c, size, n - 1), Values(c, n - 1);
      assert forall p :: p in c.params[f] <==> p in c.contents[f];
      hide Agrees, StatesAfter, Owners, Values, Owner, FileStates;
      FileAgrees(c, f, Owner(n - 1, size), rank);
      AgreesSum(states, owner, value, FileStates(c, f, Owner(n - 1, size), rank),
                AllOwned(c.params[f], Owner(n - 1, size)), c.contents[f], rank);
      StatesNext(c, size, rank, n);
    }
  }

  /** The owner of a parameter of file `i` is the rank whose chunk has that file. */
  lemma {:induction false} OwnerHasFile<T>(c: Checkpoint<T>, size: nat, n: nat, i: nat, p: Name)
    requires c.Valid() && n <= |c.order| && size > 0 && i < n && c.Lists(i, p)
    ensures p in Owners(c, size, n) && Owners(c, size, n)[p] == Owner(i, size)
    ensures p in Values(c, n) && Values(c, n)[p] == c.contents[c.order[i]][p]
  {
    hide Owner, StatesAfter, FileStates, Owners, Values;
    StatesNext(c, size, 0, n);
    if i < n - 1 {
      OwnerHasFile(c, size, n - 1, i, p);
      assert c.Lists(i, p) && !c.Lists(n - 1, p);
    }
  }

  /** Every file is in the chunk of a rank that exists. */
  lemma OwnerExists(i: nat, files: nat, world: nat)
    requires i < files && world > 0
    ensures ChunkSize(files, world) > 0 && Owner(i, ChunkSize(files, world)) < world
  {
    ChunkSizeCovers(files, world);
    var size := ChunkSize(files, world);
    if size == 0 {
      assert false;
    }
    assert i == size * (i / size) + i % size;
    CancelLess(i / size, world, size);
  }

  lemma {:induction false} OwnersExist<T>(c: Checkpoint<T>, world: nat, n: nat, p: Name)
    requires world > 0 && n <= |c.order| && (forall f :: f in c.order ==> f in c.params)
    requires n > 0 ==> ChunkSize(|c.order|, world) > 0
    ensures p in Owners(c, ChunkSize(|c.order|, world), n) ==> Owners(c, ChunkSize(|c.order|, world), n)[p] < world
  {
    hide Owner, ChunkSize;
    if n > 0 {
      OwnersExist(c, world, n - 1, p);
      OwnerExists(n - 1, |c.order|, world);
    }
  }
}
