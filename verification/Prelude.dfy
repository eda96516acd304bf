/** Types and functions that several models share. */
module Prelude {

  datatype Option<+T> = None | Some(value: T)

  /** What a Python call gives: a value, or the exception it raises. `Failed` stands for an assertion or
    a runtime error where it does not matter which. */
  datatype Result<+T> =
    | Ok(value: T)
    | ValueError | IndexError | KeyError | AttributeError | AssertionError
    | RuntimeError | ZeroDivisionError | UnboundLocalError | Failed

  function Min(a: int, b: int): int { if a < b then a else b }

  /** `[x] * n`, empty for negative `n`. */
  function Repeat<T>(x: T, n: int): (r: seq<T>)
    ensures |r| == (if n < 0 then 0 else n) && forall i :: 0 <= i < |r| ==> r[i] == x
  {
    if n <= 0 then [] else seq(n, _ => x)
  }

  /** The number of elements of a tensor. */
  function Numel(shape: seq<nat>): nat {
    if shape == [] then 1 else shape[0] * Numel(shape[1..])
  }

  lemma {:induction false} NumelAppend(a: seq<nat>, b: seq<nat>)
    ensures Numel(a + b) == Numel(a) * Numel(b)
  {
    if a == [] {
      assert a + b == b;
    } else {
      assert (a + b)[1..] == a[1..] + b;
      NumelAppend(a[1..], b);
    }
  }
}
