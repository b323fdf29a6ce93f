/** The L3 classifier (sentry/classifier/logreg.go) and the logit report (sentry/explain/explain.go), in exact real
    arithmetic. The exponential is supplied from outside; only its positivity is used. */
module LogReg {
  import opened Welford

  type Features = map<string, real>
  type Exp = real -> real

  datatype Params = Params(weights: map<string, real>, bias: real, lr: real, l2: real, steps: nat)

  const FRESH := Params(map[], 0.0, 0.05, 0.0001, 0)

  ghost predicate Positive(exp: Exp) {
    forall z :: exp(z) > 0.0
  }

  function Sigmoid(exp: Exp, z: real): (p: real)
    requires Positive(exp)
    ensures 0.0 <= p <= 1.0
  {
    if z > 30.0 then 1.0
    else if z < -30.0 then 0.0
    else
      assert exp(-z) > 0.0;
      1.0 / (1.0 + exp(-z))
  }

  function Weight(weights: map<string, real>, f: string): real {
    if f in weights then weights[f] else 0.0
  }

  // ----- The weighted sum, in whatever order a map is walked -----

  function Weighted(weights: map<string, real>, fv: Features, f: string): real
    requires f in fv
  {
    Weight(weights, f) * fv[f]
  }

  /** The sum of weight times value over a set of features. */
  ghost function Dot(weights: map<string, real>, fv: Features, fs: set<string>): real
    requires fs <= fv.Keys
  {
    if fs == {} then 0.0
    else var f :| f in fs; Weighted(weights, fv, f) + Dot(weights, fv, fs - {f})
  }

  lemma {:induction false} DotWithout(weights: map<string, real>, fv: Features, fs: set<string>, f: string)
    requires fs <= fv.Keys && f in fs
    ensures Dot(weights, fv, fs) == Weighted(weights, fv, f) + Dot(weights, fv, fs - {f})
  {
    hide Weighted;
    var g :| g in fs && Dot(weights, fv, fs) == Weighted(weights, fv, g) + Dot(weights, fv, fs - {g});
    if g != f {
      DotWithout(weights, fv, fs - {g}, f);
      DotWithout(weights, fv, fs - {f}, g);
      assert fs - {g} - {f} == fs - {f} - {g};
    }
  }

  lemma DotOfNothing(weights: map<string, real>, fv: Features)
    ensures Dot(weights, fv, {}) == 0.0
  {
  }

  lemma WeightedIs(weights: map<string, real>, fv: Features, f: string)
    requires f in fv
    ensures Weighted(weights, fv, f) == if f in weights then weights[f] * fv[f] else 0.0
  {
  }

  ghost function Logit(p: Params, fv: Features): real {
    p.bias + Dot(p.weights, fv, fv.Keys)
  }

  // ----- One training step -----

  function Clip(target: real): real {
    if target < 0.0 then 0.0 else if target > 1.0 then 1.0 else target
  }

  /** The error signal of a sample: predicted probability minus clipped label. */
  ghost function Slope(exp: Exp, p: Params, fv: Features, target: real): (dz: real)
    requires Positive(exp)
    ensures -1.0 <= dz <= 1.0
  {
    Sigmoid(exp, Logit(p, fv)) - Clip(target)
  }

  function Decayed(w: real, lr: real, l2: real, gradient: real): real {
    w - lr * (gradient + l2 * w)
  }

  ghost function Trained(exp: Exp, p: Params, fv: Features, target: real): Params
    requires Positive(exp)
  {
    Stepped(p, fv, Slope(exp, p, fv, target))
  }

  function Stepped(p: Params, fv: Features, dz: real): Params {
    Params(SteppedWeights(p, fv, fv.Keys, dz), Decayed(p.bias, p.lr, p.l2 * 0.1, dz), p.lr, p.l2, p.steps + 1)
  }

  /** The weights after the features in done took their step. */
  function SteppedWeights(p: Params, fv: Features, done: set<string>, dz: real): map<string, real>
    requires done <= fv.Keys
  {
    map f | f in p.weights.Keys + done ::
      if f in done then NewWeight(p, fv, dz, f) else p.weights[f]
  }

  function NewWeight(p: Params, fv: Features, dz: real, f: string): real
    requires f in fv
  {
    Decayed(Weight(p.weights, f), p.lr, p.l2, dz * fv[f])
  }

  lemma StepOne(p: Params, fv: Features, done: set<string>, dz: real, f: string)
    requires done <= fv.Keys && f in fv && f !in done
    ensures Weight(SteppedWeights(p, fv, done, dz), f) == Weight(p.weights, f)
    ensures SteppedWeights(p, fv, done + {f}, dz)
         == SteppedWeights(p, fv, done, dz)[f := NewWeight(p, fv, dz, f)]
  {
  }

  class Model {
    var weights: map<string, real>
    var bias: real
    var lr: real
    var l2: real
    var steps: nat

    function Value(): Params
      reads this
    {
      Params(weights, bias, lr, l2, steps)
    }

    constructor ()
      ensures Value() == FRESH
    {
      weights, bias, lr, l2, steps := map[], 0.0, 0.05, 0.0001, 0;
    }

    method Score(exp: Exp, fv: Features) returns (p: real)
      requires Positive(exp)
      ensures p == Sigmoid(exp, Logit(Value(), fv))
    {
      var z := bias;
      var todo := fv.Keys;
      hide Dot, Weighted;
      while todo != {}
        invariant todo <= fv.Keys
        invariant z + Dot(weights, fv, todo) == Logit(Value(), fv)
      {
        var f :| f in todo;
        DotWithout(weights, fv, todo, f);
        WeightedIs(weights, fv, f);
        if f in weights {
          z := z + weights[f] * fv[f];
        }
        todo := todo - {f};
      }
      DotOfNothing(weights, fv);
      p := Sigmoid(exp, z);
    }

    method Train(exp: Exp, fv: Features, target: real)
      requires Positive(exp)
      modifies this
      ensures Value() == Trained(exp, old(Value()), fv, target)
    {
      var p := Score(exp, fv);
      var dz := p - Clip(target);
      ghost var before := Value();
      ghost var done: set<string> := {};
      var todo := fv.Keys;
      while todo != {}
        invariant done + todo == fv.Keys && done !! todo
        invariant Value() == before.(weights := SteppedWeights(before, fv, done, dz))
      {
        var f :| f in todo;
        var w := if f in weights then weights[f] else 0.0;
        StepOne(before, fv, done, dz, f);
        weights := weights[f := Decayed(w, lr, l2, dz * fv[f])];
        todo, done := todo - {f}, done + {f};
      }
      assert done == fv.Keys;
      bias := Decayed(bias, lr, l2 * 0.1, dz);
      steps := steps + 1;
    }

    method Snapshot() returns (s: Params)
      ensures s == Value()
    {
      s := Params(weights, bias, lr, l2, steps);
    }

    method LoadSnapshot(s: Params)
      modifies this
      ensures Value() == if s.lr > 0.0 then s else s.(lr := old(lr))
    {
      weights := s.weights;
      bias := s.bias;
      if s.lr > 0.0 {
        lr := s.lr;
      }
      l2 := s.l2;
      steps := s.steps;
    }
  }

  // ----- Training stays bounded -----

  lemma DecayKeepsBound(w: real, lr: real, l2: real, gradient: real, v: real)
    requires lr > 0.0 && l2 > 0.0 && lr * l2 <= 1.0
    requires -v <= gradient <= v && -(v / l2) <= w <= v / l2
    ensures -(v / l2) <= Decayed(w, lr, l2, gradient) <= v / l2
  {
  }

  datatype Sample = Sample(fv: Features, target: real)

  ghost predicate WithinBound(s: Sample, v: real) {
    forall f :: f in s.fv ==> -v <= s.fv[f] <= v
  }

  /** Every weight within v over l2, the bias within ten over l2. */
  ghost predicate Tame(p: Params, v: real)
    requires p.l2 > 0.0
  {
    && (forall f :: f in p.weights ==> -(v / p.l2) <= p.weights[f] <= v / p.l2)
    && -(10.0 / p.l2) <= p.bias <= 10.0 / p.l2
  }

  lemma WeightStaysTame(p: Params, x: real, dz: real, w: real, v: real)
    requires p.lr > 0.0 && p.l2 > 0.0 && p.lr * p.l2 <= 1.0
    requires -1.0 <= dz <= 1.0 && -v <= x <= v && -(v / p.l2) <= w <= v / p.l2
    ensures -(v / p.l2) <= Decayed(w, p.lr, p.l2, dz * x) <= v / p.l2
  {
    Unit(dz, x, v);
    DecayKeepsBound(w, p.lr, p.l2, dz * x, v);
  }

  lemma BiasStaysTame(p: Params, dz: real)
    requires p.lr > 0.0 && p.l2 > 0.0 && p.lr * p.l2 <= 1.0
    requires -1.0 <= dz <= 1.0 && -(10.0 / p.l2) <= p.bias <= 10.0 / p.l2
    ensures -(10.0 / p.l2) <= Decayed(p.bias, p.lr, p.l2 * 0.1, dz) <= 10.0 / p.l2
  {
    assert 1.0 / (p.l2 * 0.1) == 10.0 / p.l2;
    assert p.lr * (p.l2 * 0.1) == 0.1 * (p.lr * p.l2);
    DecayKeepsBound(p.bias, p.lr, p.l2 * 0.1, dz, 1.0);
  }

  lemma WeightsStayTame(p: Params, fv: Features, dz: real, v: real)
    requires v >= 0.0 && p.lr > 0.0 && p.l2 > 0.0 && p.lr * p.l2 <= 1.0 && -1.0 <= dz <= 1.0
    requires forall f :: f in fv ==> -v <= fv[f] <= v
    requires forall f :: f in p.weights ==> -(v / p.l2) <= p.weights[f] <= v / p.l2
    ensures var after := SteppedWeights(p, fv, fv.Keys, dz);
            forall f :: f in after ==> -(v / p.l2) <= after[f] <= v / p.l2
  {
    assert v / p.l2 >= 0.0;
    forall f | f in fv ensures -(v / p.l2) <= NewWeight(p, fv, dz, f) <= v / p.l2 {
      WeightStaysTame(p, fv[f], dz, Weight(p.weights, f), v);
    }
  }

  lemma TrainStaysTame(exp: Exp, p: Params, s: Sample, v: real)
    requires Positive(exp) && v >= 0.0 && p.lr > 0.0 && p.l2 > 0.0 && p.lr * p.l2 <= 1.0
    requires WithinBound(s, v) && Tame(p, v)
    ensures Tame(Trained(exp, p, s.fv, s.target), v)
  {
    var dz := Slope(exp, p, s.fv, s.target);
    WeightsStayTame(p, s.fv, dz, v);
    BiasStaysTame(p, dz);
  }

  lemma Unit(dz: real, x: real, v: real)
    requires -1.0 <= dz <= 1.0 && -v <= x <= v
    ensures -v <= dz * x <= v
  {
    if dz >= 0.0 {
      Shrink(dz, x, v);
    } else {
      Shrink(-dz, x, v);
      assert dz * x == -((-dz) * x);
    }
  }

  lemma Shrink(k: real, x: real, v: real)
    requires 0.0 <= k <= 1.0 && -v <= x <= v
    ensures -v <= k * x <= v
  {
    if x >= 0.0 {
      ProductNonNegative(k, x);
      ProductNonNegative(1.0 - k, x);
    } else {
      ProductNonNegative(k, -x);
      ProductNonNegative(1.0 - k, -x);
    }
  }

  ghost function TrainedAll(exp: Exp, p: Params, ss: seq<Sample>): Params
    requires Positive(exp)
  {
    if ss == [] then p else
      var last := ss[|ss| - 1];
      Trained(exp, TrainedAll(exp, p, ss[..|ss| - 1]), last.fv, last.target)
  }

  /** From zero weights, no training run on samples within v ever pushes a weight past v over l2 or the bias past
      ten over l2, whatever the labels and the order. */
  lemma {:induction false} RunsStayTame(exp: Exp, lr: real, l2: real, ss: seq<Sample>, v: real)
    requires Positive(exp) && v >= 0.0 && lr > 0.0 && l2 > 0.0 && lr * l2 <= 1.0
    requires forall s :: s in ss ==> WithinBound(s, v)
    ensures var p := TrainedAll(exp, Params(map[], 0.0, lr, l2, 0), ss);
            p.lr == lr && p.l2 == l2 && p.steps == |ss| && Tame(p, v)
  {
    if ss != [] {
      RunsStayTame(exp, lr, l2, ss[..|ss| - 1], v);
      assert ss[|ss| - 1] in ss;
      TrainStaysTame(exp, TrainedAll(exp, Params(map[], 0.0, lr, l2, 0), ss[..|ss| - 1]), ss[|ss| - 1], v);
    } else {
      assert v / l2 >= 0.0;
    }
  }

  // ----- Training moves the sample's own score -----

  ghost function NormSq(fv: Features, fs: set<string>): real
    requires fs <= fv.Keys
  {
    Dot(fv, fv, fs)
  }

  lemma StepOneTerm(p: Params, fv: Features, dz: real, f: string, dot: real, norm: real)
    requires f in fv
    ensures Weight(SteppedWeights(p, fv, fv.Keys, dz), f) * fv[f] + (dot - p.lr * (dz * norm + p.l2 * dot))
         == (Weight(p.weights, f) * fv[f] + dot)
            - p.lr * (dz * (fv[f] * fv[f] + norm) + p.l2 * (Weight(p.weights, f) * fv[f] + dot))
  {
  }

  lemma {:induction false} DotAfterStep(p: Params, fv: Features, dz: real, fs: set<string>)
    requires fs <= fv.Keys
    ensures Dot(SteppedWeights(p, fv, fv.Keys, dz), fv, fs)
         == Dot(p.weights, fv, fs) - p.lr * (dz * NormSq(fv, fs) + p.l2 * Dot(p.weights, fv, fs))
  {
    hide Decayed, Dot;
    if fs == {} {
      DotOfNothing(SteppedWeights(p, fv, fv.Keys, dz), fv);
      DotOfNothing(p.weights, fv);
      DotOfNothing(fv, fv);
    } else {
      var after := SteppedWeights(p, fv, fv.Keys, dz);
      var f :| f in fs;
      StepOneTerm(p, fv, dz, f, Dot(p.weights, fv, fs - {f}), NormSq(fv, fs - {f}));
      DotAfterStep(p, fv, dz, fs - {f});
      DotWithout(after, fv, fs, f);
      DotWithout(p.weights, fv, fs, f);
      DotWithout(fv, fv, fs, f);
    }
  }

  lemma SteppedLogit(p: Params, fv: Features, dz: real)
    ensures Logit(Stepped(p, fv, dz), fv)
         == Decayed(p.bias, p.lr, p.l2 * 0.1, dz) + Dot(SteppedWeights(p, fv, fv.Keys, dz), fv, fv.Keys)
  {
  }

  lemma StepMovesLogit(p: Params, fv: Features, dz: real)
    ensures Logit(Stepped(p, fv, dz), fv)
         == p.bias + Dot(p.weights, fv, fv.Keys) - p.lr * dz * (1.0 + NormSq(fv, fv.Keys))
            - p.lr * p.l2 * (Dot(p.weights, fv, fv.Keys) + 0.1 * p.bias)
  {
    hide *;
    SteppedLogit(p, fv, dz);
    DotAfterStep(p, fv, dz, fv.Keys);
    LogitAlgebra(p.lr, p.l2, dz, p.bias, Dot(p.weights, fv, fv.Keys), NormSq(fv, fv.Keys),
                 Logit(Stepped(p, fv, dz), fv));
  }

  /** One step moves the logit of its own sample against the error, by the rate times one plus the squared feature
      norm, less the decay of the old logit (a tenth of it for the bias). In particular an undecayed step raises
      the score of a sample scored below its label and lowers one scored above. */
  lemma TrainMovesLogit(exp: Exp, p: Params, fv: Features, target: real, dz: real)
    requires Positive(exp) && dz == Slope(exp, p, fv, target)
    ensures Logit(Trained(exp, p, fv, target), fv)
         == p.bias + Dot(p.weights, fv, fv.Keys) - p.lr * dz * (1.0 + NormSq(fv, fv.Keys))
            - p.lr * p.l2 * (Dot(p.weights, fv, fv.Keys) + 0.1 * p.bias)
  {
    assert Trained(exp, p, fv, target) == Stepped(p, fv, dz);
    hide *;
    StepMovesLogit(p, fv, dz);
  }

  lemma LogitAlgebra(lr: real, l2: real, dz: real, bias: real, dot: real, norm: real, after: real)
    requires after == Decayed(bias, lr, l2 * 0.1, dz) + (dot - lr * (dz * norm + l2 * dot))
    ensures after == bias + dot - lr * dz * (1.0 + norm) - lr * l2 * (dot + 0.1 * bias)
  {
  }

  /** A model saved and loaded into another, as happens over a restart. The loaded model always scores as the saved
      one; it is the saved one, and so goes on training like it, exactly when the saved learning rate is positive or
      the loader's own rate already equals it. */
  method SaveAndLoad(m: Model, n: Model)
    modifies n
    ensures n.Value() == old(m.Value()) <==> old(m.lr) > 0.0 || old(n.lr) == old(m.lr)
    ensures forall fv: Features :: Logit(n.Value(), fv) == Logit(old(m.Value()), fv)
    ensures n != m ==> m.Value() == old(m.Value())
  {
    var saved := m.Snapshot();
    n.LoadSnapshot(saved);
  }

  // ----- The report -----

  datatype Contribution = Contribution(feature: string, value: real, weight: real, contrib: real)

  function Total(cs: seq<Contribution>): real {
    if cs == [] then 0.0 else Total(cs[..|cs| - 1]) + cs[|cs| - 1].contrib
  }

  /** An order in which a map's keys may be walked. */
  ghost predicate Enumerates(order: seq<string>, keys: set<string>) {
    && (forall i, j :: 0 <= i < j < |order| ==> order[i] != order[j])
    && keys == set f | f in order
  }

  function Term(weights: map<string, real>, fv: Features, f: string): Contribution
    requires f in fv
  {
    Contribution(f, fv[f], Weight(weights, f), Weight(weights, f) * fv[f])
  }

  /** One entry per feature, with its own value, weight and term. */
  ghost function Report(weights: map<string, real>, fv: Features, order: seq<string>): seq<Contribution>
    requires forall f :: f in order ==> f in fv
  {
    if order == [] then []
    else
      var f := order[|order| - 1];
      Report(weights, fv, order[..|order| - 1]) + [Term(weights, fv, f)]
  }

  lemma ReportGrows(weights: map<string, real>, fv: Features, order: seq<string>, keys: set<string>, f: string)
    requires Enumerates(order, keys) && keys <= fv.Keys && f in fv && f !in keys
    ensures Enumerates(order + [f], keys + {f}) && forall g :: g in order + [f] ==> g in fv
    ensures Report(weights, fv, order + [f]) == Report(weights, fv, order) + [Term(weights, fv, f)]
    ensures Total(Report(weights, fv, order + [f]))
         == Total(Report(weights, fv, order)) + Term(weights, fv, f).contrib
  {
  }

  /** Collects the contributions in the order the map is walked. */
  method Explain(exp: Exp, m: Model, fv: Features)
    returns (top: seq<Contribution>, logit: real, prob: real, ghost order: seq<string>)
    requires Positive(exp)
    ensures Enumerates(order, fv.Keys) && top == Report(m.weights, fv, order)
    ensures logit == m.bias + Total(top)
    ensures prob == Sigmoid(exp, logit)
  {
    top, logit, order := [], m.bias, [];
    var todo := fv.Keys;
    ghost var seen: set<string> := {};
    NothingReported(m.weights, fv);
    hide *;
    while todo != {}
      invariant seen + todo == fv.Keys && seen !! todo
      invariant Reported(m.weights, fv, order, seen, top, logit - m.bias)
    {
      var f :| f in todo;
      var w := if f in m.weights then m.weights[f] else 0.0;
      var contrib := w * fv[f];
      TermIs(m.weights, fv, f, w, contrib);
      ReportStep(m.weights, fv, order, seen, top, logit - m.bias, f);
      logit := logit + contrib;
      top := top + [Contribution(f, fv[f], w, contrib)];
      todo, order, seen := todo - {f}, order + [f], seen + {f};
    }
    assert seen == fv.Keys;
    ReportedMeans(m.weights, fv, order, top, logit - m.bias);
    prob := Sigmoid(exp, logit);
  }

  /** The report on the features walked so far. */
  ghost predicate Reported(weights: map<string, real>, fv: Features, order: seq<string>, seen: set<string>,
                           top: seq<Contribution>, total: real)
  {
    && Enumerates(order, seen) && (forall f :: f in order ==> f in fv)
    && top == Report(weights, fv, order) && total == Total(top)
  }

  lemma ReportedMeans(weights: map<string, real>, fv: Features, order: seq<string>, top: seq<Contribution>, total: real)
    requires Reported(weights, fv, order, fv.Keys, top, total)
    ensures Enumerates(order, fv.Keys) && (forall f :: f in order ==> f in fv)
    ensures top == Report(weights, fv, order) && total == Total(top)
  {
    hide Report, Total, Enumerates;
  }

  lemma NothingReported(weights: map<string, real>, fv: Features)
    ensures Reported(weights, fv, [], {}, [], 0.0)
  {
  }

  lemma ReportStep(weights: map<string, real>, fv: Features, order: seq<string>, seen: set<string>,
                   top: seq<Contribution>, total: real, f: string)
    requires Reported(weights, fv, order, seen, top, total) && f in fv && f !in seen && seen <= fv.Keys
    ensures var t := Term(weights, fv, f);
            Reported(weights, fv, order + [f], seen + {f}, top + [t], total + t.contrib)
  {
    hide Report, Total, Enumerates, Term;
    ReportGrows(weights, fv, order, seen, f);
  }

  lemma TermIs(weights: map<string, real>, fv: Features, f: string, w: real, contrib: real)
    requires f in fv && w == (if f in weights then weights[f] else 0.0) && contrib == w * fv[f]
    ensures Term(weights, fv, f) == Contribution(f, fv[f], w, contrib)
  {
  }

  lemma {:induction false} ReportSum(weights: map<string, real>, fv: Features, order: seq<string>, keys: set<string>)
    requires Enumerates(order, keys) && keys <= fv.Keys
    ensures Total(Report(weights, fv, order)) == Dot(weights, fv, keys)
  {
    if order == [] {
      assert keys == {};
    } else {
      var b, f := order[..|order| - 1], order[|order| - 1];
      assert order == b + [f];
      assert keys - {f} == set g | g in b;
      ReportSum(weights, fv, b, keys - {f});
      DotWithout(weights, fv, keys, f);
      ReportGrows(weights, fv, b, keys - {f}, f);
    }
  }

  /** A report's contributions and the bias sum to the logit Score uses, whatever order the features are listed
      in: the report and the classifier agree. */
  lemma ReportsSumToLogit(p: Params, fv: Features, order: seq<string>)
    requires Enumerates(order, fv.Keys)
    ensures p.bias + Total(Report(p.weights, fv, order)) == Logit(p, fv)
  {
    ReportSum(p.weights, fv, order, fv.Keys);
  }
}
