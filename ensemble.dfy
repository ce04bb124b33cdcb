/** The fraud ensemble: a fixed weight table of four model files, the
    subset found on disk, and a prediction loop that accumulates a weighted
    sum of the models' fraud probabilities. The models themselves are not
    modelled: each loaded model's call either returns a number or raises. */
module Ensemble {
  import opened Values

  /** The four model files of the weight table. */
  datatype ModelFile = Xgb | CatBoost | Lgbm | IsolationForest

  function FileName(m: ModelFile): string {
    match m
    case Xgb => "xgb_fraud_model.pkl"
    case CatBoost => "catboost_fraud_model.pkl"
    case Lgbm => "lgbm_fraud_model.pkl"
    case IsolationForest => "isolation_forest_fraud_model.pkl"
  }

  /** The weight table's keys, in declaration order. */
  const WeightNames: seq<ModelFile> := [Xgb, CatBoost, Lgbm, IsolationForest]

  /** The weight of each table entry. */
  function Weight(m: ModelFile): (w: real)
    ensures 0.0 <= w
  {
    match m
    case Xgb => 0.20
    case CatBoost => 0.25
    case Lgbm => 0.15
    case IsolationForest => 0.30
  }

  function SumWeights(names: seq<ModelFile>): real {
    if names == [] then 0.0 else Weight(names[0]) + SumWeights(names[1..])
  }

  /** `sum(self.weights.values())`: the whole table, whatever was loaded. */
  function TotalWeight(): real {
    SumWeights(WeightNames)
  }

  lemma TotalWeightValue()
    ensures TotalWeight() == 0.9
  {
    var t := WeightNames;
    assert t[3..][1..] == [];
    assert SumWeights(t[3..]) == 0.30;
    assert t[2..][1..] == t[3..];
    assert SumWeights(t[2..]) == 0.45;
    assert t[1..][1..] == t[2..];
    assert SumWeights(t[1..]) == 0.70;
    assert t[1..] == t[1..];
  }

  // ---------------------------------------------------------------------
  // Loading
  // ---------------------------------------------------------------------

  /** The names of `names` whose file is present, in order. */
  function Present(names: seq<ModelFile>, present: set<ModelFile>): (r: seq<ModelFile>)
    ensures |r| <= |names|
  {
    if names == [] then []
    else
      var last := names[|names| - 1];
      Present(names[..|names| - 1], present) + (if last in present then [last] else [])
  }

  /** `load_models`, specified: the table names whose file exists. */
  function LoadedNames(present: set<ModelFile>): seq<ModelFile> {
    Present(WeightNames, present)
  }

  lemma {:induction false} PresentMembers(names: seq<ModelFile>, present: set<ModelFile>, x: ModelFile)
    ensures x in Present(names, present) <==> x in names && x in present
    decreases |names|
  {
    if names != [] {
      var init := names[..|names| - 1];
      PresentMembers(init, present, x);
      assert names == init + [names[|names| - 1]];
    }
  }

  /** Filtering distributes over concatenation, so it keeps the order. */
  lemma {:induction false} PresentSplit(a: seq<ModelFile>, b: seq<ModelFile>, present: set<ModelFile>)
    ensures Present(a + b, present) == Present(a, present) + Present(b, present)
    decreases |b|
  {
    if b == [] {
      assert a + b == a;
    } else {
      var init := b[..|b| - 1];
      assert (a + b)[..|a + b| - 1] == a + init;
      PresentSplit(a, init, present);
    }
  }

  /** The loaded models are the table names whose file exists, in table
      order; a table name is loaded exactly when its file exists. */
  lemma LoadedIff(present: set<ModelFile>, x: ModelFile)
    ensures x in LoadedNames(present) <==> x in WeightNames && x in present
  {
    PresentMembers(WeightNames, present, x);
  }

  /** The isolation forest comes last in the table, so it is loaded last. */
  lemma LoadedForestLast(present: set<ModelFile>)
    ensures LoadedNames(present)
      == Present(WeightNames[..3], present) + (if IsolationForest in present then [IsolationForest] else [])
  {
    assert WeightNames[..4][..3] == WeightNames[..3];
    assert WeightNames[..4] == WeightNames;
  }

  /** `load_models`: the dict is filled in table order. */
  method LoadModels(present: set<ModelFile>) returns (models: seq<ModelFile>)
    ensures models == LoadedNames(present)
  {
    models := [];
    var i := 0;
    while i < |WeightNames|
      invariant 0 <= i <= |WeightNames|
      invariant models == Present(WeightNames[..i], present)
    {
      var name := WeightNames[i];
      assert WeightNames[..i + 1][..i] == WeightNames[..i];
      if name in present {
        models := models + [name];
      }
      i := i + 1;
    }
    assert WeightNames[..i] == WeightNames;
  }

  // ---------------------------------------------------------------------
  // The prediction loop
  // ---------------------------------------------------------------------

  const ForestTag: string := "isolation_forest"

  /** Python's `p in s` on strings. */
  predicate Contains(s: string, p: string)
    decreases |s|
  {
    (|p| <= |s| && s[..|p|] == p) || (s != [] && Contains(s[1..], p))
  }

  /** `"isolation_forest" in model_name`; `ForestTest` below shows that the
      substring test on the file name picks out exactly this entry. */
  predicate IsForest(m: ModelFile) {
    m == IsolationForest
  }

  /** What one model call does: return a number, or raise. */
  datatype ModelCall = Returns(x: real) | Raises

  /** The loop's variables: `weighted_sum`, the `proba` last bound (None
      while unbound) and `anomaly_score` (None while None). */
  datatype Acc = Acc(weightedSum: real, proba: Option<real>, anomaly: Option<real>)

  const Start: Acc := Acc(0.0, None, None)

  /** One iteration. The isolation forest sets the anomaly score and then
      adds the `proba` left over from an earlier model with its own weight;
      with no earlier `proba` the addition raises and is swallowed. Any
      other model binds `proba` and adds it. A raising call changes nothing. */
  function Step(acc: Acc, name: ModelFile, call: ModelCall): (r: Acc)
    ensures call.Raises? ==> r == acc
    ensures call.Returns? && !IsForest(name) ==>
      r.proba == Some(call.x) && r.anomaly == acc.anomaly && r.weightedSum == acc.weightedSum + call.x * Weight(name)
    ensures call.Returns? && IsForest(name) ==>
      r.proba == acc.proba && r.anomaly == Some((1.0 - call.x) * 100.0)
    ensures call.Returns? && IsForest(name) && acc.proba.None? ==> r.weightedSum == acc.weightedSum
  {
    match call
    case Raises => acc
    case Returns(x) =>
      if IsForest(name) then
        var a := Some((1.0 - x) * 100.0);
        if acc.proba.Some? then Acc(acc.weightedSum + acc.proba.value * Weight(name), acc.proba, a)
        else acc.(anomaly := a)
      else Acc(acc.weightedSum + x * Weight(name), Some(x), acc.anomaly)
  }

  /** The loop over the loaded models, `calls[i]` being model i's call. */
  function Run(acc: Acc, names: seq<ModelFile>, calls: seq<ModelCall>): (r: Acc)
    requires |calls| == |names|
    ensures r.anomaly.Some? ==> acc.anomaly.Some? || IsolationForest in names
    decreases |names|
  {
    if names == [] then acc else Run(Step(acc, names[0], calls[0]), names[1..], calls[1..])
  }

  /** When every call raises, the loop leaves the accumulator as it was. */
  lemma {:induction false} AllRaisedKeepsAcc(acc: Acc, names: seq<ModelFile>, calls: seq<ModelCall>)
    requires |calls| == |names|
    requires forall i :: 0 <= i < |calls| ==> calls[i].Raises?
    ensures Run(acc, names, calls) == acc
    decreases |names|
  {
    if names != [] {
      assert forall i :: 0 <= i < |calls| - 1 ==> calls[1..][i] == calls[i + 1];
      AllRaisedKeepsAcc(Step(acc, names[0], calls[0]), names[1..], calls[1..]);
    }
  }

  /** The step, case by case, as whole values. */
  lemma StepCases(acc: Acc, name: ModelFile, call: ModelCall)
    ensures call.Raises? ==> Step(acc, name, call) == acc
    ensures call.Returns? && !IsForest(name) ==>
      Step(acc, name, call) == Acc(acc.weightedSum + call.x * Weight(name), Some(call.x), acc.anomaly)
    ensures call.Returns? && IsForest(name) && acc.proba.Some? ==>
      Step(acc, name, call) == Acc(acc.weightedSum + acc.proba.value * Weight(name), acc.proba, Some((1.0 - call.x) * 100.0))
    ensures call.Returns? && IsForest(name) && acc.proba.None? ==>
      Step(acc, name, call) == Acc(acc.weightedSum, acc.proba, Some((1.0 - call.x) * 100.0))
  {
  }

  /** One turn of the loop: the run from model i is model i's step
      followed by the run from model i + 1. */
  lemma RunUnfolds(acc: Acc, names: seq<ModelFile>, calls: seq<ModelCall>, i: nat)
    requires |calls| == |names| && i < |names|
    ensures Run(acc, names[i..], calls[i..]) == Run(Step(acc, names[i], calls[i]), names[i + 1..], calls[i + 1..])
  {
    assert names[i..][1..] == names[i + 1..] && calls[i..][1..] == calls[i + 1..];
  }

  /** How `predict` ends: the ValueError for no models, the (unreachable)
      ValueError for a zero total weight, or the fraud percentage and the
      anomaly score (None for "N/A"). Rounding is not modelled. */
  datatype Prediction = NoModels | ZeroWeight | Predicted(fraud: real, anomaly: Option<real>)

  /** `predict`, specified. */
  function Outcome(models: seq<ModelFile>, calls: seq<ModelCall>): (p: Prediction)
    requires |calls| == |models|
    ensures models == [] <==> p == NoModels
    ensures p.Predicted? ==> p.fraud == Run(Start, models, calls).weightedSum / 0.9 * 100.0
    ensures p.Predicted? ==> p.anomaly == Run(Start, models, calls).anomaly
  {
    TotalWeightValue();
    if models == [] then NoModels
    else
      var acc := Run(Start, models, calls);
      if TotalWeight() == 0.0 then ZeroWeight
      else Predicted(acc.weightedSum / TotalWeight() * 100.0, acc.anomaly)
  }

  /** The ensemble object: the loaded model names, in load order. */
  class FraudEnsembleModel {
    var models: seq<ModelFile>

    constructor (present: set<ModelFile>)
      ensures models == LoadedNames(present)
    {
      var loaded := LoadModels(present);
      models := loaded;
    }

    /** `predict`. */
    method Predict(calls: seq<ModelCall>) returns (p: Prediction)
      requires |calls| == |models|
      ensures p == Outcome(models, calls)
    {
      var ms := models;
      if ms == [] {
        return NoModels;
      }
      var weightedSum := 0.0;
      var total := SumWeights(WeightNames);
      var proba: Option<real> := None;
      var anomaly: Option<real> := None;
      var i := 0;
      while i < |ms|
        invariant 0 <= i <= |ms|
        invariant Run(Acc(weightedSum, proba, anomaly), ms[i..], calls[i..]) == Run(Start, ms, calls)
      {
        ghost var before := Acc(weightedSum, proba, anomaly);
        var name := ms[i];
        ghost var next := Step(before, name, calls[i]);
        StepCases(before, name, calls[i]);
        match calls[i] {
          case Raises =>
            assert before == next;
          case Returns(x) =>
            if IsForest(name) {
              anomaly := Some((1.0 - x) * 100.0);
              if proba.Some? {
                weightedSum := weightedSum + proba.value * Weight(name);
                assert Acc(weightedSum, proba, anomaly) == next;
              } else {
                assert Acc(weightedSum, proba, anomaly) == next;
              }
            } else {
              proba := Some(x);
              weightedSum := weightedSum + x * Weight(name);
              assert Acc(weightedSum, proba, anomaly) == next;
            }
        }
        RunUnfolds(before, ms, calls, i);
        i := i + 1;
      }
      assert ms[i..] == [] && calls[i..] == [];
      if total == 0.0 {
        return ZeroWeight;
      }
      return Predicted(weightedSum / total * 100.0, anomaly);
    }
  }

  // ---------------------------------------------------------------------
  // Properties of the loop
  // ---------------------------------------------------------------------

  lemma {:induction false} RunSplit(acc: Acc, a: seq<ModelFile>, b: seq<ModelFile>, ca: seq<ModelCall>, cb: seq<ModelCall>)
    requires |ca| == |a| && |cb| == |b|
    ensures Run(acc, a + b, ca + cb) == Run(Run(acc, a, ca), b, cb)
    decreases |a|
  {
    if a == [] {
      assert a + b == b && ca + cb == cb;
    } else {
      assert (a + b)[1..] == a[1..] + b && (ca + cb)[1..] == ca[1..] + cb;
      RunSplit(Step(acc, a[0], ca[0]), a[1..], b, ca[1..], cb);
    }
  }

  /** A model whose call raises can be dropped: the result is the same as
      if it had not been loaded. */
  lemma RaisingModelIgnored(acc: Acc, names: seq<ModelFile>, calls: seq<ModelCall>, i: nat)
    requires |calls| == |names| && i < |names| && calls[i] == Raises
    ensures Run(acc, names, calls) == Run(acc, names[..i] + names[i + 1..], calls[..i] + calls[i + 1..])
  {
    assert names == names[..i] + names[i..] && calls == calls[..i] + calls[i..];
    RunSplit(acc, names[..i], names[i..], calls[..i], calls[i..]);
    RunSplit(acc, names[..i], names[i + 1..], calls[..i], calls[i + 1..]);
  }

  /** The probabilities the models other than the forest return lie in [0, 1]. */
  predicate ProbabilitiesWithin(names: seq<ModelFile>, calls: seq<ModelCall>)
    requires |calls| == |names|
  {
    forall i :: 0 <= i < |names| && !IsForest(names[i]) && calls[i].Returns? ==> 0.0 <= calls[i].x <= 1.0
  }

  predicate ProbaWithin(p: Option<real>) {
    p.Some? ==> 0.0 <= p.value <= 1.0
  }

  lemma StepBounds(acc: Acc, name: ModelFile, call: ModelCall)
    requires ProbaWithin(acc.proba)
    requires !IsForest(name) && call.Returns? ==> 0.0 <= call.x <= 1.0
    ensures var r := Step(acc, name, call);
      acc.weightedSum <= r.weightedSum <= acc.weightedSum + Weight(name) && ProbaWithin(r.proba)
  {
    if call.Returns? && IsForest(name) && acc.proba.Some? {
      var w := Weight(name);
      assert acc.proba.value * w <= 1.0 * w;
    } else if call.Returns? && !IsForest(name) {
      var w := Weight(name);
      assert call.x * w <= 1.0 * w;
    }
  }

  /** Each model adds at most its own weight, and nothing negative. */
  lemma {:induction false} RunBounds(acc: Acc, names: seq<ModelFile>, calls: seq<ModelCall>)
    requires |calls| == |names| && ProbaWithin(acc.proba) && ProbabilitiesWithin(names, calls)
    ensures acc.weightedSum <= Run(acc, names, calls).weightedSum <= acc.weightedSum + SumWeights(names)
    decreases |names|
  {
    if names != [] {
      StepBounds(acc, names[0], calls[0]);
      assert ProbabilitiesWithin(names[1..], calls[1..]) by {
        forall i | 0 <= i < |names| - 1 && !IsForest(names[1..][i]) && calls[1..][i].Returns?
          ensures 0.0 <= calls[1..][i].x <= 1.0
        {
          assert names[1..][i] == names[i + 1] && calls[1..][i] == calls[i + 1];
        }
      }
      RunBounds(Step(acc, names[0], calls[0]), names[1..], calls[1..]);
    }
  }

  lemma {:induction false} PresentWeightBound(names: seq<ModelFile>, present: set<ModelFile>)
    ensures SumWeights(Present(names, present)) <= SumWeights(names)
    decreases |names|
  {
    if names != [] {
      var init, last := names[..|names| - 1], names[|names| - 1];
      PresentWeightBound(init, present);
      assert names == init + [last];
      SumWeightsSplit(init, [last]);
      SumWeightsSplit(Present(init, present), if last in present then [last] else []);
    }
  }

  lemma {:induction false} SumWeightsSplit(a: seq<ModelFile>, b: seq<ModelFile>)
    ensures SumWeights(a + b) == SumWeights(a) + SumWeights(b)
    decreases |a|
  {
    if a == [] {
      assert a + b == b;
    } else {
      assert (a + b)[1..] == a[1..] + b;
      SumWeightsSplit(a[1..], b);
    }
  }

  /** The total weight is the whole table's 0.9 whatever was loaded, so the
      zero-weight error is never raised. */
  lemma NeverZeroWeight(models: seq<ModelFile>, calls: seq<ModelCall>)
    requires |calls| == |models|
    ensures Outcome(models, calls) != ZeroWeight
    ensures models == [] <==> Outcome(models, calls) == NoModels
  {
    TotalWeightValue();
  }

  /** With probabilities in [0, 1], the fraud percentage of the loaded
      models lies in [0, 100]. */
  lemma FraudWithinPercent(present: set<ModelFile>, calls: seq<ModelCall>)
    requires |calls| == |LoadedNames(present)|
    requires ProbabilitiesWithin(LoadedNames(present), calls)
    ensures var p := Outcome(LoadedNames(present), calls);
      p.Predicted? ==> 0.0 <= p.fraud <= 100.0
  {
    var models := LoadedNames(present);
    if models != [] {
      TotalWeightValue();
      RunBounds(Start, models, calls);
      PresentWeightBound(WeightNames, present);
      var ws := Run(Start, models, calls).weightedSum;
      assert 0.0 <= ws <= 0.9;
    }
  }

  lemma {:induction false} UntaggedKeepsAnomaly(acc: Acc, names: seq<ModelFile>, calls: seq<ModelCall>)
    requires |calls| == |names| && forall i :: 0 <= i < |names| ==> !IsForest(names[i])
    ensures Run(acc, names, calls).anomaly == acc.anomaly
    decreases |names|
  {
    if names != [] {
      assert forall i :: 0 <= i < |names| - 1 ==> names[1..][i] == names[i + 1];
      UntaggedKeepsAnomaly(Step(acc, names[0], calls[0]), names[1..], calls[1..]);
    }
  }

  /** The anomaly score is set exactly when the isolation forest is loaded
      and its call returns, and is then (1 - decision) * 100; otherwise the
      result carries "N/A". */
  lemma AnomalyOfLoaded(present: set<ModelFile>, calls: seq<ModelCall>)
    requires |calls| == |LoadedNames(present)| && LoadedNames(present) != []
    ensures var m := LoadedNames(present);
      var p := Outcome(m, calls);
      && p.Predicted?
      && (p.anomaly.Some? <==> IsolationForest in present && calls[|m| - 1].Returns?)
      && (p.anomaly.Some? ==> p.anomaly.value == (1.0 - calls[|m| - 1].x) * 100.0)
  {
    var m := LoadedNames(present);
    TotalWeightValue();
    LoadedForestLast(present);
    var pre := Present(WeightNames[..3], present);
    var tail := if IsolationForest in present then [IsolationForest] else [];
    assert m == pre + tail;
    forall i | 0 <= i < |pre|
      ensures !IsForest(pre[i])
    {
      PresentMembers(WeightNames[..3], present, pre[i]);
    }
    var k := |pre|;
    assert calls == calls[..k] + calls[k..];
    RunSplit(Start, pre, tail, calls[..k], calls[k..]);
    UntaggedKeepsAnomaly(Start, pre, calls[..k]);
    if tail != [] {
      assert calls[k..][1..] == [];
      assert calls[k..][0] == calls[|m| - 1];
    }
  }

  /** All four models loaded and returning: the forest's weight goes to the
      probability of the model before it (LightGBM's). */
  lemma FullTableSum(a: real, b: real, c: real, x: real)
    ensures Run(Start, WeightNames, [Returns(a), Returns(b), Returns(c), Returns(x)])
      == Acc(0.20 * a + 0.25 * b + 0.15 * c + 0.30 * c, Some(c), Some((1.0 - x) * 100.0))
  {
    var cs := [Returns(a), Returns(b), Returns(c), Returns(x)];
    var acc1 := Step(Start, Xgb, Returns(a));
    var acc2 := Step(acc1, CatBoost, Returns(b));
    var acc3 := Step(acc2, Lgbm, Returns(c));
    var acc4 := Step(acc3, IsolationForest, Returns(x));
    assert [IsolationForest][1..] == [] && [Returns(x)][1..] == [];
    assert Run(acc3, [IsolationForest], [Returns(x)]) == acc4;
    assert [Lgbm, IsolationForest][1..] == [IsolationForest] && [Returns(c), Returns(x)][1..] == [Returns(x)];
    assert Run(acc2, [Lgbm, IsolationForest], [Returns(c), Returns(x)]) == acc4;
    assert WeightNames[1..] == [CatBoost, Lgbm, IsolationForest] && cs[1..] == [Returns(b), Returns(c), Returns(x)];
    assert [CatBoost, Lgbm, IsolationForest][1..] == [Lgbm, IsolationForest];
    assert [Returns(b), Returns(c), Returns(x)][1..] == [Returns(c), Returns(x)];
    assert Run(acc1, WeightNames[1..], cs[1..]) == acc4;
  }

  /** When LightGBM raises, the forest reuses CatBoost's stale probability. */
  lemma StaleProbaAfterRaise(a: real, b: real, x: real)
    ensures Run(Start, WeightNames, [Returns(a), Returns(b), Raises, Returns(x)])
      == Acc(0.20 * a + 0.25 * b + 0.30 * b, Some(b), Some((1.0 - x) * 100.0))
  {
    var cs := [Returns(a), Returns(b), Raises, Returns(x)];
    var acc1 := Step(Start, Xgb, Returns(a));
    var acc2 := Step(acc1, CatBoost, Returns(b));
    var acc3 := Step(acc2, Lgbm, Raises);
    var acc4 := Step(acc3, IsolationForest, Returns(x));
    assert [IsolationForest][1..] == [] && [Returns(x)][1..] == [];
    assert Run(acc3, [IsolationForest], [Returns(x)]) == acc4;
    assert [Lgbm, IsolationForest][1..] == [IsolationForest] && [Raises, Returns(x)][1..] == [Returns(x)];
    assert Run(acc2, [Lgbm, IsolationForest], [Raises, Returns(x)]) == acc4;
    assert WeightNames[1..] == [CatBoost, Lgbm, IsolationForest] && cs[1..] == [Returns(b), Raises, Returns(x)];
    assert [CatBoost, Lgbm, IsolationForest][1..] == [Lgbm, IsolationForest];
    assert [Returns(b), Raises, Returns(x)][1..] == [Raises, Returns(x)];
    assert Run(acc1, WeightNames[1..], cs[1..]) == acc4;
  }

  /** With only the forest loaded, `proba` is unbound: the addition raises,
      the fraud percentage is 0 and the anomaly score is still set. */
  lemma ForestAlone(x: real)
    ensures Outcome([IsolationForest], [Returns(x)]) == Predicted(0.0, Some((1.0 - x) * 100.0))
  {
    TotalWeightValue();
  }

  /** A string without the pattern's first character does not contain it. */
  lemma {:induction false} NoFirstCharNotContained(s: string, p: string)
    requires p != [] && forall i :: 0 <= i < |s| ==> s[i] != p[0]
    ensures !Contains(s, p)
    decreases |s|
  {
    if s != [] {
      assert forall i :: 0 <= i < |s| - 1 ==> s[1..][i] == s[i + 1];
      NoFirstCharNotContained(s[1..], p);
      if |p| <= |s| {
        assert s[..|p|][0] == s[0] != p[0];
      }
    }
  }

  /** Of the table's file names, only the isolation forest's contains
      `isolation_forest`. */
  lemma ForestTest(m: ModelFile)
    ensures Contains(FileName(m), ForestTag) <==> IsForest(m)
  {
    if m == IsolationForest {
      assert FileName(m)[..|ForestTag|] == ForestTag;
    } else {
      NoFirstCharNotContained(FileName(m), ForestTag);
    }
  }
}
