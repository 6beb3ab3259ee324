/**
  Sums of non-negative counts.

  `bigsum` in src/downsample_counts.cpp accumulates counts into a 64-bit
  unsigned total so that matrix-wide sums cannot wrap. Here counts are
  unbounded naturals, so the accumulator cannot wrap either; `Sum` is the
  reference fold and `BigSum` is the accumulating loop proved equal to it.
 */
module WideSum {

  /** Sum of a frequency vector, folded from the last element back. */
  function Sum(xs: seq<nat>): nat
  {
    if |xs| == 0 then 0 else Sum(xs[..|xs| - 1]) + xs[|xs| - 1]
  }

  /** Sum over a sequence of units (columns or runs), each itself summed. */
  function SumAll(units: seq<seq<nat>>): nat
  {
    if |units| == 0 then 0 else SumAll(units[..|units| - 1]) + Sum(units[|units| - 1])
  }

  /** The units laid end to end. */
  function Flatten(units: seq<seq<nat>>): seq<nat>
  {
    if |units| == 0 then [] else Flatten(units[..|units| - 1]) + units[|units| - 1]
  }

  /** A vector of `n` zero counts. */
  function Zeros(n: nat): (z: seq<nat>)
    ensures |z| == n
    ensures forall i :: 0 <= i < n ==> z[i] == 0
  {
    seq(n, _ => 0)
  }

  /** `a` is no larger than `b` at any position. */
  predicate Below(a: seq<nat>, b: seq<nat>)
  {
    |a| == |b| && forall i :: 0 <= i < |a| ==> a[i] <= b[i]
  }

  /** The accumulating loop of `bigsum`: walks the counts front to back. */
  method BigSum(xs: seq<nat>) returns (total: nat)
    ensures total == Sum(xs)
  {
    total := 0;
    var i := 0;
    while i < |xs|
      invariant i <= |xs|
      invariant total == Sum(xs[..i])
    {
      assert xs[..i + 1][..i] == xs[..i];
      total := total + xs[i];
      i := i + 1;
    }
    assert xs[..|xs|] == xs;
  }

  /** A non-empty sequence is its prefix followed by its last element. */
  lemma SplitLast<T>(xs: seq<T>)
    requires |xs| > 0
    ensures xs == xs[..|xs| - 1] + [xs[|xs| - 1]]
  {
  }

  /** One more zero at the end of `n` zeros makes `n + 1` zeros. */
  lemma ZerosStep(n: nat)
    ensures Zeros(n) + [0] == Zeros(n + 1)
  {
    assert (Zeros(n) + [0])[n] == 0;
  }

  lemma {:induction false} SumAppend(a: seq<nat>, b: seq<nat>)
    ensures Sum(a + b) == Sum(a) + Sum(b)
    decreases |b|
  {
    if |b| == 0 {
      assert a + b == a;
    } else {
      var n := |b| - 1;
      assert (a + b)[..|a + b| - 1] == a + b[..n];
      SumAppend(a, b[..n]);
    }
  }

  /** One more element of a prefix adds exactly that element to its sum. */
  lemma SumPrefixStep(xs: seq<nat>, i: nat)
    requires i < |xs|
    ensures Sum(xs[..i + 1]) == Sum(xs[..i]) + xs[i]
  {
    assert xs[..i + 1][..i] == xs[..i];
  }

  /** Sums of prefixes grow with the prefix and never pass the whole sum. */
  lemma {:induction false} SumPrefixMono(xs: seq<nat>, i: nat, j: nat)
    requires i <= j <= |xs|
    ensures Sum(xs[..i]) <= Sum(xs[..j]) <= Sum(xs)
    decreases |xs| - i
  {
    if i == |xs| {
      assert xs[..i] == xs;
    } else if i == j {
      SumPrefixStep(xs, i);
      SumPrefixMono(xs, i + 1, i + 1);
    } else {
      SumPrefixStep(xs, i);
      SumPrefixMono(xs, i + 1, j);
    }
  }

  lemma {:induction false} SumZeros(n: nat)
    ensures Sum(Zeros(n)) == 0
  {
    if n > 0 {
      assert Zeros(n)[..n - 1] == Zeros(n - 1);
      SumZeros(n - 1);
    }
  }

  /** A vector is all zeros exactly when it sums to zero. */
  lemma {:induction false} SumZeroIsZeros(xs: seq<nat>)
    ensures Sum(xs) == 0 <==> xs == Zeros(|xs|)
  {
    if |xs| > 0 {
      var n := |xs| - 1;
      SumZeroIsZeros(xs[..n]);
      if Sum(xs) == 0 {
        assert xs == xs[..n] + [xs[n]];
      }
    }
    if xs == Zeros(|xs|) {
      SumZeros(|xs|);
    }
  }

  /** Summing the flattened units equals summing unit by unit. */
  lemma {:induction false} SumFlatten(units: seq<seq<nat>>)
    ensures Sum(Flatten(units)) == SumAll(units)
  {
    if |units| > 0 {
      var n := |units| - 1;
      SumFlatten(units[..n]);
      SumAppend(Flatten(units[..n]), units[n]);
    }
  }

  lemma {:induction false} SumAllPrefixStep(units: seq<seq<nat>>, j: nat)
    requires j < |units|
    ensures SumAll(units[..j + 1]) == SumAll(units[..j]) + Sum(units[j])
  {
    assert units[..j + 1][..j] == units[..j];
  }

  lemma {:induction false} SumAllPrefixMono(units: seq<seq<nat>>, j: nat)
    requires j <= |units|
    ensures SumAll(units[..j]) <= SumAll(units)
    decreases |units| - j
  {
    if j == |units| {
      assert units[..j] == units;
    } else {
      SumAllPrefixStep(units, j);
      SumAllPrefixMono(units, j + 1);
    }
  }

  /** Flattening keeps the total length. */
  lemma {:induction false} FlattenLength(units: seq<seq<nat>>, lens: seq<nat>)
    requires |units| == |lens|
    requires forall i :: 0 <= i < |units| ==> |units[i]| == lens[i]
    ensures |Flatten(units)| == Sum(lens)
  {
    if |units| > 0 {
      var n := |units| - 1;
      FlattenLength(units[..n], lens[..n]);
    }
  }

  /** Unit-by-unit bounds carry over to the flattened vectors. */
  lemma {:induction false} FlattenBelow(a: seq<seq<nat>>, b: seq<seq<nat>>)
    requires |a| == |b|
    requires forall i :: 0 <= i < |a| ==> Below(a[i], b[i])
    ensures Below(Flatten(a), Flatten(b))
  {
    if |a| > 0 {
      var n := |a| - 1;
      FlattenBelow(a[..n], b[..n]);
      var fa, fb := Flatten(a[..n]), Flatten(b[..n]);
      assert Flatten(a) == fa + a[n] && Flatten(b) == fb + b[n];
      forall k | 0 <= k < |fa + a[n]|
        ensures (fa + a[n])[k] <= (fb + b[n])[k]
      {
        if k >= |fa| {
          assert (fa + a[n])[k] == a[n][k - |fa|];
        }
      }
    }
  }

  /** Units of matching lengths are equal when their flattenings are. */
  lemma {:induction false} FlattenInjective(a: seq<seq<nat>>, b: seq<seq<nat>>)
    requires |a| == |b|
    requires forall i :: 0 <= i < |a| ==> |a[i]| == |b[i]|
    requires Flatten(a) == Flatten(b)
    ensures a == b
  {
    if |a| > 0 {
      var n := |a| - 1;
      var fa, fb := Flatten(a[..n]), Flatten(b[..n]);
      FlattenLength(a[..n], seq(n, i requires 0 <= i < n => |b[i]|));
      FlattenLength(b[..n], seq(n, i requires 0 <= i < n => |b[i]|));
      assert fa == (fa + a[n])[..|fa|] == (fb + b[n])[..|fb|] == fb;
      assert a[n] == (fa + a[n])[|fa|..] == (fb + b[n])[|fb|..] == b[n];
      FlattenInjective(a[..n], b[..n]);
      assert a == a[..n] + [a[n]] && b == b[..n] + [b[n]];
    }
  }

  /** Units sum to zero altogether exactly when every unit is all zeros. */
  lemma {:induction false} SumAllZero(units: seq<seq<nat>>)
    ensures SumAll(units) == 0 <==> forall i :: 0 <= i < |units| ==> units[i] == Zeros(|units[i]|)
  {
    if |units| > 0 {
      var n := |units| - 1;
      SumAllZero(units[..n]);
      SumZeroIsZeros(units[n]);
      assert forall i :: 0 <= i < n ==> units[..n][i] == units[i];
    }
  }
}
