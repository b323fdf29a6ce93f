/** Running mean and spread (sentry/anomaly/welford.go), in exact real arithmetic, measured against the
    two-pass formulas over the whole sample list. */
module Welford {

  datatype Stats = Stats(n: nat, mean: real, m2: real)

  const EMPTY := Stats(0, 0.0, 0.0)

  function Sum(xs: seq<real>): real {
    if xs == [] then 0.0 else Sum(xs[..|xs| - 1]) + xs[|xs| - 1]
  }

  /** The sum of squared distances from the point c. */
  function Spread(xs: seq<real>, c: real): real {
    if xs == [] then 0.0 else Spread(xs[..|xs| - 1], c) + (xs[|xs| - 1] - c) * (xs[|xs| - 1] - c)
  }

  /** The textbook two-pass statistics of a sample list: the reference every update is measured against. */
  function Batch(xs: seq<real>): Stats {
    if xs == [] then EMPTY
    else var mean := Sum(xs) / |xs| as real; Stats(|xs|, mean, Spread(xs, mean))
  }

  /** The statistics after one more sample, by the recurrence. */
  function Observed(s: Stats, x: real): Stats {
    var delta := x - s.mean;
    var mean := s.mean + delta / (s.n + 1) as real;
    Stats(s.n + 1, mean, s.m2 + delta * (x - mean))
  }

  function PooledMean(na: real, a: real, nb: real, b: real): real
    requires na + nb > 0.0
  {
    (a * na + b * nb) / (na + nb)
  }

  /** How much the distance between two shard means adds to the pooled spread. */
  function Between(na: real, nb: real, delta: real): real
    requires na + nb > 0.0
  {
    delta * delta * na * nb / (na + nb)
  }

  /** The statistics of two shards combined by Chan's formula. */
  function Merged(a: Stats, b: Stats): Stats {
    if b.n == 0 then a
    else if a.n == 0 then b
    else Stats(a.n + b.n,
               PooledMean(a.n as real, a.mean, b.n as real, b.mean),
               a.m2 + b.m2 + Between(a.n as real, b.n as real, b.mean - a.mean))
  }

  function Variance(s: Stats): real {
    if s.n < 2 then 0.0 else s.m2 / (s.n - 1) as real
  }

  class Accumulator {
    var n: nat
    var mean: real
    var m2: real

    constructor (s: Stats)
      ensures Value() == s
    {
      n, mean, m2 := s.n, s.mean, s.m2;
    }

    function Value(): Stats
      reads this
    {
      Stats(n, mean, m2)
    }

    method Observe(x: real)
      modifies this
      ensures Value() == Observed(old(Value()), x)
    {
      n := n + 1;
      var delta := x - mean;
      mean := mean + delta / n as real;
      var delta2 := x - mean;
      m2 := m2 + delta * delta2;
    }

    method Merge(other: Stats)
      modifies this
      ensures Value() == Merged(old(Value()), other)
    {
      if other.n == 0 {
        return;
      }
      if n == 0 {
        n, mean, m2 := other.n, other.mean, other.m2;
        return;
      }
      var delta := other.mean - mean;
      var na, nb := n as real, other.n as real;
      mean := PooledMean(na, mean, nb, other.mean);
      m2 := m2 + other.m2 + Between(na, nb, delta);
      n := n + other.n;
    }
  }

  // ----- Sums over lists -----

  function SumSq(xs: seq<real>): real {
    Spread(xs, 0.0)
  }

  lemma {:induction false} SumAppend(xs: seq<real>, ys: seq<real>)
    ensures Sum(xs + ys) == Sum(xs) + Sum(ys)
  {
    if ys == [] {
      assert xs + ys == xs;
    } else {
      SumAppend(xs, ys[..|ys| - 1]);
      assert (xs + ys)[..|xs + ys| - 1] == xs + ys[..|ys| - 1];
    }
  }

  lemma {:induction false} SpreadAppend(xs: seq<real>, ys: seq<real>, c: real)
    ensures Spread(xs + ys, c) == Spread(xs, c) + Spread(ys, c)
  {
    if ys == [] {
      assert xs + ys == xs;
    } else {
      SpreadAppend(xs, ys[..|ys| - 1], c);
      assert (xs + ys)[..|xs + ys| - 1] == xs + ys[..|ys| - 1];
    }
  }

  /** Moving the reference point of a spread. */
  lemma {:induction false} SpreadExpand(xs: seq<real>, c: real)
    ensures Spread(xs, c) == SumSq(xs) - 2.0 * c * Sum(xs) + |xs| as real * (c * c)
  {
    if xs != [] {
      var rest, x := xs[..|xs| - 1], xs[|xs| - 1];
      SpreadExpand(rest, c);
      assert |xs| as real == |rest| as real + 1.0;
      assert (|rest| as real + 1.0) * (c * c) == |rest| as real * (c * c) + c * c;
      assert 2.0 * c * (Sum(rest) + x) == 2.0 * c * Sum(rest) + 2.0 * c * x;
      assert (x - c) * (x - c) == x * x - 2.0 * c * x + c * c;
    }
  }

  lemma ProductNonNegative(a: real, b: real)
    requires a >= 0.0 && b >= 0.0
    ensures a * b >= 0.0
  {
  }

  lemma SquareNonNegative(d: real)
    ensures d * d >= 0.0
  {
  }

  lemma {:induction false} SpreadNonNegative(xs: seq<real>, c: real)
    ensures Spread(xs, c) >= 0.0
  {
    if xs != [] {
      SpreadNonNegative(xs[..|xs| - 1], c);
      SquareNonNegative(xs[|xs| - 1] - c);
    }
  }

  /** Statistics are determined by the count and the two power sums. */
  ghost predicate HasPowers(s: Stats, n: nat, sum: real, sumSq: real) {
    && s.n == n
    && s.mean * n as real == sum
    && s.m2 == sumSq - s.mean * s.mean * n as real
  }

  /** The batch statistics in terms of the two power sums. */
  lemma BatchPowers(xs: seq<real>)
    requires xs != []
    ensures HasPowers(Batch(xs), |xs|, Sum(xs), SumSq(xs))
  {
    var n, mean := |xs| as real, Batch(xs).mean;
    SpreadExpand(xs, mean);
    assert 2.0 * mean * (mean * n) == 2.0 * (mean * mean * n);
    assert n * (mean * mean) == mean * mean * n;
  }

  // ----- Main results -----

  /** What the accumulator holds is exactly the two-pass statistics of everything it was shown:
      mean times n is the sum, m2 is the sum of squared deviations from the mean and is never negative. */
  lemma BatchMeaning(xs: seq<real>)
    ensures Batch(xs).n == |xs|
    ensures Batch(xs).mean * |xs| as real == Sum(xs)
    ensures Batch(xs).m2 == Spread(xs, Batch(xs).mean) >= 0.0
    ensures Variance(Batch(xs)) >= 0.0
  {
    if xs != [] {
      BatchPowers(xs);
      SpreadNonNegative(xs, Batch(xs).mean);
    }
  }

  lemma MergeAlgebra(na: real, a: real, nb: real, b: real)
    requires na > 0.0 && nb > 0.0
    ensures PooledMean(na, a, nb, b) * (na + nb) == a * na + b * nb
    ensures a * a * na + b * b * nb - PooledMean(na, a, nb, b) * PooledMean(na, a, nb, b) * (na + nb)
            == Between(na, nb, b - a)
  {
  }

  lemma SameQuotient(n: real, x: real, y: real)
    requires n > 0.0 && x * n == y * n
    ensures x == y
  {
  }

  lemma MergePowers(a: Stats, b: Stats, all: Stats, sa: real, qa: real, sb: real, qb: real)
    requires a.n > 0 && b.n > 0
    requires HasPowers(a, a.n, sa, qa) && HasPowers(b, b.n, sb, qb)
    requires HasPowers(all, a.n + b.n, sa + sb, qa + qb)
    ensures Merged(a, b) == all
  {
    var na, nb, m := a.n as real, b.n as real, Merged(a, b);
    MergeAlgebra(na, a.mean, nb, b.mean);
    assert (a.n + b.n) as real == na + nb;
    hide PooledMean, Between;
    SameQuotient(na + nb, all.mean, m.mean);
    Cancelled(qa, qb, a.mean * a.mean * na, b.mean * b.mean * nb, m.mean * m.mean * (na + nb),
              Between(na, nb, b.mean - a.mean));
  }

  lemma Cancelled(qa: real, qb: real, x: real, y: real, z: real, between: real)
    requires x + y - z == between
    ensures (qa - x) + (qb - y) + between == qa + qb - z
  {
  }

  /** Merging the statistics of two lists gives the statistics of their concatenation. */
  lemma MergeIsBatch(xs: seq<real>, ys: seq<real>)
    ensures Merged(Batch(xs), Batch(ys)) == Batch(xs + ys)
  {
    if ys == [] {
      assert xs + ys == xs;
    } else if xs == [] {
      assert xs + ys == ys;
    } else {
      SumAppend(xs, ys);
      SpreadAppend(xs, ys, 0.0);
      BatchPowers(xs);
      BatchPowers(ys);
      BatchPowers(xs + ys);
      MergePowers(Batch(xs), Batch(ys), Batch(xs + ys), Sum(xs), SumSq(xs), Sum(ys), SumSq(ys));
    }
  }

  lemma ObserveAlgebra(n: real, mean: real, x: real)
    requires n > 0.0
    ensures mean + (x - mean) / (n + 1.0) == (mean * n + x * 1.0) / (n + 1.0)
    ensures (x - mean) * (x - (mean + (x - mean) / (n + 1.0))) == (x - mean) * (x - mean) * n * 1.0 / (n + 1.0)
  {
  }

  /** One observation is a merge with the statistics of a single sample. */
  lemma ObserveIsMerge(s: Stats, x: real)
    requires s.n == 0 ==> s == EMPTY
    ensures Observed(s, x) == Merged(s, Batch([x]))
  {
    assert Sum([x]) == x && Spread([x], x) == 0.0 && Batch([x]) == Stats(1, x, 0.0);
    if s.n > 0 {
      ObserveAlgebra(s.n as real, s.mean, x);
    }
  }

  /** The running recurrence agrees with the two-pass formulas after every sample. */
  lemma ObserveIsBatch(xs: seq<real>, x: real)
    ensures Observed(Batch(xs), x) == Batch(xs + [x])
  {
    ObserveIsMerge(Batch(xs), x);
    MergeIsBatch(xs, [x]);
  }

  /** Sharded training may be combined in any grouping and any order. */
  lemma MergeAssociativeCommutative(xs: seq<real>, ys: seq<real>, zs: seq<real>)
    ensures Merged(Merged(Batch(xs), Batch(ys)), Batch(zs)) == Merged(Batch(xs), Merged(Batch(ys), Batch(zs)))
    ensures Merged(Batch(xs), Batch(ys)) == Merged(Batch(ys), Batch(xs))
  {
    MergeIsBatch(xs, ys);
    MergeIsBatch(xs + ys, zs);
    MergeIsBatch(ys, zs);
    MergeIsBatch(xs, ys + zs);
    assert xs + ys + zs == xs + (ys + zs);
    MergeIsBatch(ys, xs);
    SumAppend(xs, ys);
    SumAppend(ys, xs);
    if xs + ys != [] {
      SpreadAppend(xs, ys, Batch(xs + ys).mean);
      SpreadAppend(ys, xs, Batch(xs + ys).mean);
    }
  }
}
