/** The offloading windows: after which layer's forward pass each group must have left the device. */
module OffloadWindows {
  import opened Prelude

  /** `layer_window_map[i]` for `groups` offloaded groups spread over `layers` layers. */
  function WindowEnd(layers: nat, groups: nat, i: nat): int
    requires groups > 0
  {
    (layers / groups) * (i + 1) - 1 + Min(i + 1, layers % groups)
  }

  lemma QuotientFacts(layers: nat, groups: nat)
    requires 0 < groups <= layers
    ensures layers / groups >= 1 && layers == groups * (layers / groups) + layers % groups
    ensures groups < layers ==> layers / groups >= 2 || layers % groups >= 1
  {
    if layers / groups == 1 && layers % groups == 0 {
      assert layers == groups;
    }
  }

  lemma Monotone(a: int, b: int, n: int)
    requires a <= b && n >= 0
    ensures a * n <= b * n
  {
  }

  lemma ScaledBy(q: int, n: int)
    ensures q * (n + 1) == q * n + q
    ensures q >= 1 && n >= 0 ==> q * n >= n
    ensures q >= 2 && n >= 0 ==> q * n >= 2 * n
  {
    if q >= 1 && n >= 0 {
      Monotone(1, q, n);
      if q >= 2 {
        Monotone(2, q, n);
      }
    }
  }

  /** The windows divide the layers as evenly as possible: each spans the quotient of layers by groups, and the first ones
    one layer more. */
  lemma WindowSpans(layers: nat, groups: nat, i: nat)
    requires 0 < groups <= layers && i < groups
    ensures var before := if i == 0 then -1 else WindowEnd(layers, groups, i - 1);
            WindowEnd(layers, groups, i) - before == layers / groups + if i < layers % groups then 1 else 0
  {
    if i > 0 {
      ScaledBy(layers / groups, i);
    }
  }

  /** The windows are strictly increasing, so each layer closes at most one. */
  lemma WindowsIncrease(layers: nat, groups: nat, i: nat, j: nat)
    requires 0 < groups <= layers && i < j
    ensures WindowEnd(layers, groups, i) < WindowEnd(layers, groups, j)
    decreases j
  {
    QuotientFacts(layers, groups);
    ScaledBy(layers / groups, j);
    if i < j - 1 {
      WindowsIncrease(layers, groups, i, j - 1);
    }
  }

  /** A group's window closes no earlier than its own layer, strictly later when not every layer is offloaded. */
  lemma WindowAfterOwnLayer(layers: nat, groups: nat, i: nat)
    requires 0 < groups <= layers && i < groups
    ensures WindowEnd(layers, groups, i) >= i
    ensures groups < layers ==> WindowEnd(layers, groups, i) >= i + 1
  {
    QuotientFacts(layers, groups);
    ScaledBy(layers / groups, i + 1);
  }

  /** The last window closes with the last layer. */
  lemma LastWindow(layers: nat, groups: nat)
    requires 0 < groups <= layers
    ensures WindowEnd(layers, groups, groups - 1) == layers - 1
  {
    QuotientFacts(layers, groups);
  }

  /** Offloading every layer closes each window with its own layer. */
  lemma EveryLayerOffloaded(layers: nat, i: nat)
    requires i < layers
    ensures WindowEnd(layers, layers, i) == i
  {
  }

  lemma Remainder(a: nat, b: nat)
    requires b > 1 && a == b + 1
    ensures a / b == 1 && a % b == 1
  {
  }

  /** Offloading all layers but the last closes each window one layer after its own. */
  lemma TightWindows(layers: nat, i: nat)
    requires 2 <= layers && i < layers - 1
    ensures WindowEnd(layers, layers - 1, i) == i + 1
  {
    if layers == 2 {
      assert layers / (layers - 1) == 2;
    } else {
      assert layers / (layers - 1) == 1 && layers % (layers - 1) == 1 by {
        Remainder(layers, layers - 1);
      }
    }
  }
}
