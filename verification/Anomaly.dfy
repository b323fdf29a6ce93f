/** The L2 baseline (sentry/anomaly/model.go): one running accumulator per feature, and the z-score test. */
module Anomaly {
  import opened Welford

  type FeatureMap = map<string, real>

  /** The per-feature statistics after folding in one feature map. */
  function Trained(m: map<string, Stats>, fv: FeatureMap): map<string, Stats> {
    map f | f in m.Keys + fv.Keys ::
      if f in fv then Observed(if f in m then m[f] else EMPTY, fv[f]) else m[f]
  }

  lemma TrainedOneByOne(m: map<string, Stats>, done: FeatureMap, f: string, x: real)
    requires f !in done
    ensures Trained(Trained(m, done), map[f := x]) == Trained(m, done[f := x])
  {
  }

  /** The column of values a feature took over a list of samples. */
  function Column(fvs: seq<FeatureMap>, f: string): seq<real> {
    if fvs == [] then []
    else
      var earlier, last := Column(fvs[..|fvs| - 1], f), fvs[|fvs| - 1];
      if f in last then earlier + [last[f]] else earlier
  }

  class Model {
    var accumulators: map<string, Accumulator>

    ghost predicate Valid()
      reads this
    {
      forall f, g :: f in accumulators && g in accumulators && f != g ==> accumulators[f] != accumulators[g]
    }

    ghost function Cells(): set<Accumulator>
      reads this
    {
      set f | f in accumulators :: accumulators[f]
    }

    ghost function Value(): map<string, Stats>
      reads this, Cells()
    {
      map f | f in accumulators :: accumulators[f].Value()
    }

    /** A model with one empty accumulator per known feature. */
    constructor (features: set<string>)
      ensures Valid() && fresh(Cells())
      ensures Value() == map f | f in features :: EMPTY
    {
      accumulators := map[];
      new;
      var todo := features;
      while todo != {}
        invariant Valid() && fresh(Cells()) && todo <= features
        invariant accumulators.Keys == features - todo
        invariant Value() == map f | f in features - todo :: EMPTY
      {
        var f :| f in todo;
        Put(f, EMPTY);
        todo := todo - {f};
      }
    }

    /** Registers a new accumulator for an absent feature. */
    method Put(f: string, s: Stats)
      requires Valid() && f !in accumulators
      modifies this
      ensures Valid() && fresh(Cells() - old(Cells()))
      ensures accumulators.Keys == old(accumulators.Keys) + {f}
      ensures Value() == old(Value())[f := s]
    {
      var acc := new Accumulator(s);
      accumulators := accumulators[f := acc];
    }

    /** Folds one value into a feature's accumulator, starting one when there is none. */
    method Fold(f: string, x: real)
      requires Valid()
      modifies this, Cells()
      ensures Valid() && fresh(Cells() - old(Cells()))
      ensures Value() == Trained(old(Value()), map[f := x])
    {
      if f !in accumulators {
        Put(f, EMPTY);
      }
      accumulators[f].Observe(x);
    }

    method Observe(fv: FeatureMap)
      requires Valid()
      modifies this, Cells()
      ensures Valid() && fresh(Cells() - old(Cells()))
      ensures Value() == Trained(old(Value()), fv)
    {
      ghost var before := Value();
      ghost var done: FeatureMap := map[];
      var todo := fv.Keys;
      assert Trained(before, map[]) == before;
      hide Trained;
      while todo != {}
        invariant Valid() && fresh(Cells() - old(Cells()))
        invariant done == (map f | f in fv.Keys - todo :: fv[f]) && todo <= fv.Keys
        invariant Value() == Trained(before, done)
      {
        var f :| f in todo;
        TrainedOneByOne(before, done, f, fv[f]);
        Fold(f, fv[f]);
        todo, done := todo - {f}, done[f := fv[f]];
      }
      assert done == fv;
    }

    method Snapshot() returns (out: map<string, Stats>)
      requires Valid()
      ensures out == Value()
    {
      out := map[];
      var todo := accumulators.Keys;
      while todo != {}
        invariant todo <= accumulators.Keys
        invariant out == map f | f in accumulators.Keys - todo :: accumulators[f].Value()
      {
        var f :| f in todo;
        out := out[f := accumulators[f].Value()];
        todo := todo - {f};
      }
    }

    method LoadSnapshot(s: map<string, Stats>)
      modifies this
      ensures Valid() && fresh(Cells())
      ensures Value() == s
    {
      accumulators := map[];
      var todo := s.Keys;
      while todo != {}
        invariant Valid() && fresh(Cells()) && todo <= s.Keys
        invariant accumulators.Keys == s.Keys - todo
        invariant Value() == map f | f in s.Keys - todo :: s[f]
      {
        var f :| f in todo;
        Put(f, s[f]);
        todo := todo - {f};
      }
    }
  }

  ghost function TrainedAll(m: map<string, Stats>, fvs: seq<FeatureMap>): map<string, Stats> {
    if fvs == [] then m else Trained(TrainedAll(m, fvs[..|fvs| - 1]), fvs[|fvs| - 1])
  }

  /** After any list of samples, each accumulator holds the two-pass statistics of exactly the values its
      feature took, whichever of the features were present at the start. */
  lemma {:induction false} TrainedColumns(features: set<string>, fvs: seq<FeatureMap>, f: string)
    ensures f in TrainedAll(map g | g in features :: EMPTY, fvs) <==> f in features || Column(fvs, f) != []
    ensures f in TrainedAll(map g | g in features :: EMPTY, fvs) ==>
              TrainedAll(map g | g in features :: EMPTY, fvs)[f] == Batch(Column(fvs, f))
  {
    if fvs != [] {
      TrainedColumns(features, fvs[..|fvs| - 1], f);
      var last := fvs[|fvs| - 1];
      if f in last {
        ObserveIsBatch(Column(fvs[..|fvs| - 1], f), last[f]);
      }
    }
  }

  // ----- Scoring -----

  /** A square root, supplied from outside. */
  ghost predicate IsSqrt(sqrt: real -> real) {
    forall x :: x >= 0.0 ==> sqrt(x) >= 0.0 && sqrt(x) * sqrt(x) == x
  }

  function Z(s: Stats, sqrt: real -> real, x: real): real {
    var sd := sqrt(Variance(s));
    if sd < 0.000000001 || s.n < 2 then 0.0 else (x - s.mean) / sd
  }

  function Score(m: map<string, Stats>, minSamples: nat, sqrt: real -> real, f: string, x: real): real {
    if f !in m || m[f].n < minSamples then 0.0 else Z(m[f], sqrt, x)
  }

  lemma QuotientBeyond(d: real, sd: real, t: real)
    requires sd > 0.0 && t >= 0.0
    ensures (d / sd > t || d / sd < -t) <==> d * d > t * t * (sd * sd)
  {
    var q := d / sd;
    assert q * sd == d;
    assert d * d == (q * q) * (sd * sd);
    SquareOrder(q, t);
    assert sd * sd > 0.0;
    if q * q > t * t {
      assert (q * q - t * t) * (sd * sd) > 0.0;
    } else {
      assert (t * t - q * q) * (sd * sd) >= 0.0;
    }
  }

  lemma SquareOrder(q: real, t: real)
    requires t >= 0.0
    ensures (q > t || q < -t) <==> q * q > t * t
  {
    if q > t || q < -t {
      var p := if q > t then q else -q;
      assert q * q - t * t == (p - t) * (p + t);
      assert p - t > 0.0 && p + t > 0.0;
    } else {
      assert t - q >= 0.0 && t + q >= 0.0;
      ProductNonNegative(t - q, t + q);
    }
  }

  /** A value is anomalous in a trained feature exactly when enough samples were seen, they are not all but
      equal, and its squared deviation from the batch mean exceeds t squared batch variances. */
  lemma AnomalousMeaning(xs: seq<real>, minSamples: nat, sqrt: real -> real, f: string, x: real, t: real)
    requires IsSqrt(sqrt) && t >= 0.0
    ensures var z := Score(map[f := Batch(xs)], minSamples, sqrt, f, x);
            (z > t || z < -t) <==>
              && |xs| >= minSamples && |xs| >= 2
              && Variance(Batch(xs)) >= 0.000000001 * 0.000000001
              && (x - Batch(xs).mean) * (x - Batch(xs).mean) > t * t * Variance(Batch(xs))
  {
    BatchMeaning(xs);
    var v := Variance(Batch(xs));
    var sd := sqrt(v);
    var eps := 0.000000001;
    assert sd >= 0.0 && sd * sd == v;
    assert sd >= eps <==> v >= eps * eps by {
      if sd >= eps {
        assert sd * sd - eps * eps == (sd - eps) * (sd + eps);
      } else {
        assert eps * eps - sd * sd == (eps - sd) * (eps + sd);
      }
    }
    if sd >= eps {
      QuotientBeyond(x - Batch(xs).mean, sd, t);
    }
  }
}
