/**
  Probability vectors and categorical sampling from one uniform draw, the way
  `np.random.choice(a, p=...)` turns a probability vector into an index: the
  vector is scaled by its total, and the first index whose normalised
  cumulative sum lies above the draw is chosen. A draw `u` therefore selects
  index `i` exactly when it falls into the slice
  `[Sum(q[..i]), Sum(q[..i+1]))` of the normalised vector `q`, a slice whose
  width is `p[i] / Sum(p)`. Before drawing, numpy rejects a vector with a
  negative entry or a sum further than 2^-26 from 1.
*/
module Categorical {
  import opened Wrappers

  /** One value of the uniform generator `np.random.random`: a real in [0, 1). */
  type Uniform = r: real | 0.0 <= r < 1.0

  /** The sum of a vector, accumulated from the left. */
  function Sum(s: seq<real>): real
  {
    if |s| == 0 then 0.0 else Sum(s[..|s| - 1]) + s[|s| - 1]
  }

  predicate NonNegative(p: seq<real>)
  {
    forall i :: 0 <= i < |p| ==> p[i] >= 0.0
  }

  /** How far from 1 the sum of `p` may be: the square root of double precision's epsilon, 2^-26. */
  const SumTolerance: real := 1.0 / 67108864.0

  /** A vector the sampler accepts: no negative entry, and a sum within the tolerance of 1. */
  predicate Samplable(p: seq<real>)
  {
    NonNegative(p) && -SumTolerance <= Sum(p) - 1.0 <= SumTolerance
  }

  lemma SumStep(s: seq<real>, k: nat)
    requires k < |s|
    ensures Sum(s[..k + 1]) == Sum(s[..k]) + s[k]
  {
    assert s[..k + 1][..k] == s[..k];
  }

  /** With non-negative entries the cumulative sums never decrease. */
  lemma {:induction false} PrefixSumsMonotone(s: seq<real>, a: nat, b: nat)
    requires NonNegative(s) && a <= b <= |s|
    ensures Sum(s[..a]) <= Sum(s[..b])
    decreases b - a
  {
    if a < b {
      SumStep(s, b - 1);
      PrefixSumsMonotone(s, a, b - 1);
    }
  }

  /** Every entry divided by `t`. */
  function Scale(w: seq<real>, t: real): (q: seq<real>)
    requires t != 0.0
  {
    seq(|w|, i requires 0 <= i < |w| => w[i] / t)
  }

  /** A vector divided by its own total, as `probabilities /= probabilities.sum()` does. */
  function Normalize(w: seq<real>): (q: seq<real>)
    requires Sum(w) != 0.0
  {
    Scale(w, Sum(w))
  }

  lemma {:induction false} SumScale(w: seq<real>, t: real)
    requires t != 0.0
    ensures Sum(Scale(w, t)) == Sum(w) / t
  {
    if |w| > 0 {
      var n := |w| - 1;
      assert Scale(w, t)[..n] == Scale(w[..n], t);
      SumScale(w[..n], t);
      assert Sum(w) / t == Sum(w[..n]) / t + w[n] / t;
    }
  }

  /** Dividing by a positive total keeps the sign of an entry. */
  lemma DivideByPositive(a: real, t: real)
    requires a >= 0.0 && t > 0.0
    ensures a / t >= 0.0
    ensures a / t > 0.0 <==> a > 0.0
  {
    assert a / t * t == a;
  }

  /** Normalising a vector with positive mass and no negative entry yields a probability distribution. */
  lemma NormalizeIsDistribution(w: seq<real>)
    requires NonNegative(w) && Sum(w) > 0.0
    ensures |Normalize(w)| == |w|
    ensures NonNegative(Normalize(w))
    ensures Sum(Normalize(w)) == 1.0
    ensures forall i :: 0 <= i < |w| ==> (Normalize(w)[i] > 0.0 <==> w[i] > 0.0)
  {
    var t := Sum(w);
    forall i | 0 <= i < |w|
      ensures Normalize(w)[i] >= 0.0 && (Normalize(w)[i] > 0.0 <==> w[i] > 0.0)
    {
      DivideByPositive(w[i], t);
    }
    SumScale(w, t);
    assert t / t == 1.0;
  }

  /** The first index at or after `k` whose cumulative sum exceeds `t`. */
  function FirstAbove(p: seq<real>, t: real, k: nat): (i: nat)
    requires k < |p| && Sum(p[..k]) <= t < Sum(p)
    ensures k <= i < |p|
    ensures Sum(p[..i]) <= t < Sum(p[..i + 1])
    decreases |p| - k
  {
    SumStep(p, k);
    if t < Sum(p[..k + 1]) then k
    else
      assert p[..|p|] == p;
      FirstAbove(p, t, k + 1)
  }

  /**
    The sampler: `None` when `p` has a negative entry or its sum is not within
    the tolerance of 1 (numpy raises a ValueError there), otherwise the index
    whose slice of the normalised cumulative sums holds the draw `u`; that
    index always has positive probability.
  */
  function Choose(p: seq<real>, u: Uniform): (r: Option<nat>)
    ensures r.Some? <==> Samplable(p)
    ensures r.Some? ==> r.value < |p| && p[r.value] > 0.0
    ensures r.Some? ==> Sum(Normalize(p)[..r.value]) <= u < Sum(Normalize(p)[..r.value + 1])
  {
    if Samplable(p) then
      var q := Normalize(p);
      NormalizeIsDistribution(p);
      assert q[..0] == [];
      var i := FirstAbove(q, u, 0);
      SumStep(q, i);
      Some(i)
    else
      None
  }

  /**
    The draw `u` lies in slice `i` of the normalised cumulative sums of `p`,
    the slice that makes the sampler pick index `i`.
  */
  predicate InSlice(p: seq<real>, u: real, i: int)
  {
    0 <= i < |p| && Sum(p) != 0.0 && Sum(Normalize(p)[..i]) <= u < Sum(Normalize(p)[..i + 1])
  }

  /** The slices of the cumulative sums do not overlap: a point lies in slice `i` exactly when `i` is the slice `j` known to hold it. */
  lemma SliceUnique(p: seq<real>, t: real, i: nat, j: nat)
    requires NonNegative(p) && i < |p| && j < |p|
    requires Sum(p[..j]) <= t < Sum(p[..j + 1])
    ensures i == j <==> Sum(p[..i]) <= t < Sum(p[..i + 1])
  {
    if i < j {
      PrefixSumsMonotone(p, i + 1, j);
    } else if j < i {
      PrefixSumsMonotone(p, j + 1, i);
    }
  }

  /**
    A draw selects index `i` exactly when it falls into the i-th slice of the
    normalised cumulative sums, a slice as wide as `p[i] / Sum(p)`: the
    probability of drawing `i` is its entry's share of the total.
  */
  lemma ChooseSelects(p: seq<real>, u: Uniform, i: nat)
    requires Samplable(p) && i < |p|
    ensures Choose(p, u) == Some(i) <==> Sum(Normalize(p)[..i]) <= u < Sum(Normalize(p)[..i + 1])
    ensures Sum(Normalize(p)[..i + 1]) - Sum(Normalize(p)[..i]) == p[i] / Sum(p)
  {
    NormalizeIsDistribution(p);
    SliceUnique(Normalize(p), u, i, Choose(p, u).value);
    SumStep(Normalize(p), i);
  }
}
