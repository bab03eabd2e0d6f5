/**
 * `KernelMethod.score`: mean squared error for regression, hard accuracy for
 * classification. Both arrays are squeezed first; a lexicographic comparison
 * of their shapes decides which one is reshaped to the other's shape.
 */
module Scoring {
  import opened Wrappers
  import opened NdArrays

  /** The metrics dictionary: {"l2": ...} or {"hard_acc": ..., "auc": ...} (the auc value is not modelled). */
  datatype Metrics = Regression(l2: real) | Classification(hardAcc: real)

  // ---------------------------------------------------------------- regression

  /** Python's `s < t` on shape tuples: lexicographic, a proper prefix is smaller. */
  function LexLess(s: seq<nat>, t: seq<nat>): (b: bool)
    ensures b ==> |t| >= 1
  {
    if t == [] then false
    else if s == [] then true
    else if s[0] != t[0] then s[0] < t[0]
    else LexLess(s[1..], t[1..])
  }

  /** Two different shapes are ordered one way or the other. */
  lemma {:induction false} LexTotal(s: seq<nat>, t: seq<nat>)
    requires s != t
    ensures LexLess(s, t) || LexLess(t, s)
  {
    if s != [] && t != [] && s[0] == t[0] {
      assert s == [s[0]] + s[1..] && t == [t[0]] + t[1..];
      LexTotal(s[1..], t[1..]);
    }
  }

  /** No two shapes are each smaller than the other. */
  lemma {:induction false} LexAsymmetric(s: seq<nat>, t: seq<nat>)
    ensures !(LexLess(s, t) && LexLess(t, s))
  {
    if s != [] && t != [] && s[0] == t[0] {
      LexAsymmetric(s[1..], t[1..]);
    }
  }

  /**
   * The shape reconciliation of the regression branch: when test's shape is
   * the larger, predict is reshaped to it, provided test has exactly one more
   * axis or test's shape without its last axis is predict's; symmetrically
   * when predict's shape is the larger. Otherwise AssertionError.
   */
  function Reconcile(test: NdArray, pred: NdArray): (r: Result<(NdArray, NdArray)>)
    ensures r.Success? ==> r.value.0.shape == r.value.1.shape
    ensures r.Success? ==> r.value.0.data == test.data && r.value.1.data == pred.data
    ensures r.Success? && Valid(test) && Valid(pred) ==> Valid(r.value.0) && Valid(r.value.1)
    ensures test.shape == pred.shape ==> r == Success((test, pred))
    ensures r == Failure(AssertionError) <==>
              || (LexLess(pred.shape, test.shape) && Rank(test) != Rank(pred) + 1 && test.shape[..Rank(test) - 1] != pred.shape)
              || (LexLess(test.shape, pred.shape) && Rank(test) + 1 != Rank(pred) && test.shape != pred.shape[..Rank(pred) - 1])
    ensures r.Failure? ==> r.error == AssertionError || r.error == ValueError
  {
    LexIrreflexive(test.shape);
    LexAsymmetric(test.shape, pred.shape);
    if LexLess(pred.shape, test.shape) then
      if Rank(test) != Rank(pred) + 1 && test.shape[..Rank(test) - 1] != pred.shape then Failure(AssertionError)
      else
        var p :- Reshape(pred, test.shape);
        Success((test, p))
    else if LexLess(test.shape, pred.shape) then
      if Rank(test) + 1 != Rank(pred) && test.shape != pred.shape[..Rank(pred) - 1] then Failure(AssertionError)
      else
        var t :- Reshape(test, pred.shape);
        Success((t, pred))
    else
      assert test.shape == pred.shape by {
        if test.shape != pred.shape {
          LexTotal(test.shape, pred.shape);
        }
      }
      Success((test, pred))
  }

  function SumSquaredDiff(t: seq<real>, p: seq<real>): (s: real)
    requires |t| == |p|
    ensures s >= 0.0
  {
    if t == [] then 0.0 else (t[0] - p[0]) * (t[0] - p[0]) + SumSquaredDiff(t[1..], p[1..])
  }

  /** sklearn's `mean_squared_error` over all elements (uniform average over outputs). */
  function MeanSquaredError(t: seq<real>, p: seq<real>): (m: real)
    requires |t| == |p| > 0
    ensures m >= 0.0
  {
    SumSquaredDiff(t, p) / (|t| as real)
  }

  /**
   * The regression branch: squeeze, reconcile, then `mean_squared_error`,
   * which accepts only non-empty arrays of rank one or two.
   */
  function RegressionScore(pred: NdArray, test: NdArray): (r: Result<Metrics>)
    requires Valid(pred) && Valid(test)
    ensures r.Success? ==> r.value.Regression? && r.value.l2 >= 0.0
    ensures r.Success? ==> |test.data| == |pred.data| > 0 && r.value.l2 == MeanSquaredError(test.data, pred.data)
  {
    var (t, p) :- Reconcile(Squeeze(test), Squeeze(pred));
    if Rank(t) == 0 then Failure(TypeError)
    else if Rank(t) > 2 then Failure(ValueError)
    else if |t.data| == 0 then Failure(ValueError)
    else Success(Regression(MeanSquaredError(t.data, p.data)))
  }

  // ---------------------------------------------------------------- classification

  function Abs(x: real): real
  {
    if x < 0.0 then -x else x
  }

  /** `argmax(abs(row))`: the first position holding the largest magnitude. */
  function FirstArgMaxAbs(row: seq<real>): (k: nat)
    requires |row| > 0
    ensures k < |row|
    ensures forall j :: 0 <= j < |row| ==> Abs(row[j]) <= Abs(row[k])
    ensures forall j :: 0 <= j < k ==> Abs(row[j]) < Abs(row[k])
  {
    if |row| == 1 then 0
    else
      var k := FirstArgMaxAbs(row[..|row| - 1]);
      if Abs(row[|row| - 1]) > Abs(row[k]) then |row| - 1 else k
  }

  /** `argmax(abs(a), axis=1)` for a 2-d array with at least one column, as real labels. */
  function ArgMaxLabels(a: NdArray): (labels: seq<real>)
    requires Valid(a) && Rank(a) == 2 && Width(a) >= 1
    ensures |labels| == a.shape[0]
    ensures forall i :: 0 <= i < |labels| ==> labels[i] == FirstArgMaxAbs(Row(a, i)) as real
  {
    seq(a.shape[0], i requires 0 <= i < a.shape[0] => FirstArgMaxAbs(Row(a, i)) as real)
  }

  /** True labels of -1 become 0, every other value is kept (lines 251-253 and 266-270). */
  function NegativeToZero(t: seq<real>): (r: seq<real>)
    ensures |r| == |t|
    ensures forall i :: 0 <= i < |t| ==> r[i] == (if t[i] == -1.0 then 0.0 else t[i])
  {
    seq(|t|, i requires 0 <= i < |t| => if t[i] == -1.0 then 0.0 else t[i])
  }

  /** Predicted label 1 where the value reaches the threshold, else 0. */
  function ThresholdLabels(p: seq<real>, thres: real): (r: seq<real>)
    ensures |r| == |p|
    ensures forall i :: 0 <= i < |p| ==> r[i] == (if p[i] >= thres then 1.0 else 0.0)
  {
    seq(|p|, i requires 0 <= i < |p| => if p[i] >= thres then 1.0 else 0.0)
  }

  predicate IsIntegral(x: real)
  {
    x.Floor as real == x
  }

  function CountEqual(t: seq<real>, p: seq<real>): (c: nat)
    requires |t| == |p|
    ensures c <= |t|
  {
    if t == [] then 0 else (if t[0] == p[0] then 1 else 0) + CountEqual(t[1..], p[1..])
  }

  /** The positions where the two label vectors agree. */
  function Agreements(t: seq<real>, p: seq<real>): set<nat>
    requires |t| == |p|
  {
    set i: nat | i < |t| && t[i] == p[i]
  }

  /** Counting from the back: the last position adds one exactly when it agrees. */
  lemma {:induction false} CountEqualLast(t: seq<real>, p: seq<real>)
    requires |t| == |p| > 0
    ensures CountEqual(t, p) == CountEqual(t[..|t| - 1], p[..|p| - 1]) + (if t[|t| - 1] == p[|p| - 1] then 1 else 0)
  {
    if |t| > 1 {
      CountEqualLast(t[1..], p[1..]);
      assert t[1..][..|t| - 2] == t[..|t| - 1][1..];
      assert p[1..][..|p| - 2] == p[..|p| - 1][1..];
    }
  }

  /** The agreement count is the number of positions whose labels agree. */
  lemma {:induction false} CountEqualAgreements(t: seq<real>, p: seq<real>)
    requires |t| == |p|
    ensures CountEqual(t, p) == |Agreements(t, p)|
  {
    if |t| > 0 {
      var n := |t| - 1;
      CountEqualAgreements(t[..n], p[..n]);
      CountEqualLast(t, p);
      var front := Agreements(t[..n], p[..n]);
      assert n !in front;
      if t[n] == p[n] {
        assert Agreements(t, p) == front + {n};
      } else {
        assert Agreements(t, p) == front;
      }
    }
  }

  /** Every position agrees exactly when the count of agreements is the length. */
  lemma {:induction false} CountEqualAll(t: seq<real>, p: seq<real>)
    requires |t| == |p|
    ensures CountEqual(t, p) == |t| <==> t == p
  {
    if t != [] {
      CountEqualAll(t[1..], p[1..]);
      assert t == [t[0]] + t[1..] && p == [p[0]] + p[1..];
    }
  }

  /** A count out of n, as a fraction: between 0 and 1, and 1 exactly when it is all n. */
  lemma FractionBounds(c: nat, n: nat)
    requires 0 < n && c <= n
    ensures 0.0 <= c as real / n as real <= 1.0
    ensures c as real / n as real == 1.0 <==> c == n
  {
    var q := c as real / n as real;
    assert q * n as real == c as real;
  }

  /**
   * sklearn's `accuracy_score`: the fraction of positions whose labels agree.
   * Label vectors of different lengths, and true labels that are not whole
   * numbers (a continuous target), are rejected with ValueError.
   */
  function Accuracy(t: seq<real>, p: seq<real>): (r: Result<real>)
    ensures r.Success? <==> |t| == |p| > 0 && forall i :: 0 <= i < |t| ==> IsIntegral(t[i])
    ensures r.Success? ==> 0.0 <= r.value <= 1.0
    ensures r.Success? ==> (r.value == 1.0 <==> t == p)
    ensures r.Success? ==> r.value == |Agreements(t, p)| as real / |t| as real
  {
    if |t| != |p| || |t| == 0 then Failure(ValueError)
    else if exists i :: 0 <= i < |t| && !IsIntegral(t[i]) then Failure(ValueError)
    else
      CountEqualAll(t, p);
      CountEqualAgreements(t, p);
      FractionBounds(CountEqual(t, p), |t|);
      Success(CountEqual(t, p) as real / |t| as real)
  }

  /** The distinct labels of a label vector. */
  function Classes(t: seq<real>): set<real>
  {
    set i | 0 <= i < |t| :: t[i]
  }

  /**
   * The two metrics of the classification branch, in dictionary order:
   * `accuracy_score` of the label vectors, then `roc_auc_score` of the true
   * labels against the last probability column. The latter raises
   * ValueError unless the true labels hold exactly two classes (one class
   * is "only one class present"; three or more is a multiclass target with
   * the default multi_class="raise"). The AUC value is not modelled.
   */
  function LabelScore(t: seq<real>, p: seq<real>): (r: Result<Metrics>)
    ensures r.Success? <==> Accuracy(t, p).Success? && |Classes(t)| == 2
    ensures r.Success? ==> r.value == Classification(Accuracy(t, p).value)
    ensures r.Failure? ==> r.error == ValueError
  {
    var acc :- Accuracy(t, p);
    if |Classes(t)| != 2 then Failure(ValueError) else Success(Classification(acc))
  }

  /**
   * The classification branch on the squeezed arrays. Predictions with two
   * or more columns give labels by first arg-max of |value| in each row of
   * both arrays; one-dimensional predictions give label 1 iff value >=
   * thres, and true labels of -1 are read as 0.
   */
  function ClassificationScore(pred0: NdArray, test0: NdArray, thres: real): (r: Result<Metrics>)
    requires Valid(pred0) && Valid(test0)
    ensures r.Success? ==> r.value.Classification? && 0.0 <= r.value.hardAcc <= 1.0
    ensures r.Success? ==> || (Rank(Squeeze(pred0)) == 2 && Rank(Squeeze(test0)) == 2 && Width(Squeeze(pred0)) >= 2)
                           || (Rank(Squeeze(pred0)) == 1 && Rank(Squeeze(test0)) == 1)
  {
    var pred, test := Squeeze(pred0), Squeeze(test0);
    if Rank(pred) >= 2 then
      if pred.shape[1] >= 2 then
        if Rank(test) < 2 || test.shape[1] == 0 then Failure(ValueError)
        else if Rank(test) > 2 || Rank(pred) > 2 then Failure(ValueError)
        else
          LabelScore(ArgMaxLabels(test), ArgMaxLabels(pred))
      else if Rank(test) == 0 then Failure(ValueError)
      else Failure(IndexError)
    else if Rank(pred) == 0 || Rank(test) != 1 then Failure(ValueError)
    else
      LabelScore(NegativeToZero(test.data), ThresholdLabels(pred.data, thres))
  }

  /** `score(predict_y, test_y, task, thres=thres)`; any task but "r" or "c" leaves `error` unbound. */
  function ScoreOf(pred: NdArray, test: NdArray, task: string, thres: real): (r: Result<Metrics>)
    requires Valid(pred) && Valid(test)
    ensures task != "r" && task != "c" ==> r == Failure(UnboundLocalError)
    ensures task == "r" && r.Success? ==> r.value.Regression? && r.value.l2 >= 0.0
    ensures task == "r" && r.Success? ==> |test.data| == |pred.data| > 0 && r.value.l2 == MeanSquaredError(test.data, pred.data)
    ensures task == "r" && r.Failure? ==> r.error == AssertionError || r.error == TypeError || r.error == ValueError
    ensures task == "c" && r.Success? ==> r.value.Classification? && 0.0 <= r.value.hardAcc <= 1.0
    ensures task == "c" && r.Success? ==> || (Rank(Squeeze(pred)) == 2 && Rank(Squeeze(test)) == 2)
                                          || (Rank(Squeeze(pred)) == 1 && Rank(Squeeze(test)) == 1)
  {
    if task == "r" then RegressionScore(pred, test)
    else if task == "c" then ClassificationScore(pred, test, thres)
    else Failure(UnboundLocalError)
  }

  // ---------------------------------------------------------------- the imperative score

  /** `testy_label[idx] = 0` for every idx where the label is -1, in place. */
  method CorrectNegativeLabels(labels: array<real>)
    modifies labels
    ensures labels[..] == NegativeToZero(old(labels[..]))
  {
    var i := 0;
    while i < labels.Length
      invariant 0 <= i <= labels.Length
      invariant forall j :: 0 <= j < i ==> labels[j] == (if old(labels[j]) == -1.0 then 0.0 else old(labels[j]))
      invariant forall j :: i <= j < labels.Length ==> labels[j] == old(labels[j])
    {
      if labels[i] == -1.0 {
        labels[i] := 0.0;
      }
      i := i + 1;
    }
  }

  /** `predicty_label = zeros(n)` then `predicty_label[idx1] = 1` where the score reaches thres. */
  method ThresholdLabelArray(scores: seq<real>, thres: real) returns (labels: array<real>)
    ensures fresh(labels)
    ensures labels[..] == ThresholdLabels(scores, thres)
  {
    labels := new real[|scores|](_ => 0.0);
    var i := 0;
    while i < |scores|
      invariant 0 <= i <= |scores| && labels.Length == |scores|
      invariant forall j :: 0 <= j < i ==> labels[j] == (if scores[j] >= thres then 1.0 else 0.0)
      invariant forall j :: i <= j < |scores| ==> labels[j] == 0.0
    {
      if scores[i] >= thres {
        labels[i] := 1.0;
      }
      i := i + 1;
    }
  }

  /** `KernelMethod.score`: the label arrays of the binary case are built and corrected in place. */
  method Score(predictY: NdArray, testY: NdArray, task: string, thres: real) returns (r: Result<Metrics>)
    requires Valid(predictY) && Valid(testY)
    ensures r == ScoreOf(predictY, testY, task, thres)
  {
    var test, pred := Squeeze(testY), Squeeze(predictY);
    if task == "r" {
      r := RegressionScore(predictY, testY);
    } else if task == "c" {
      if Rank(pred) < 2 && Rank(pred) != 0 && Rank(test) == 1 {
        var testLabels := new real[|test.data|](i requires 0 <= i < |test.data| => test.data[i]);
        assert testLabels[..] == test.data;
        CorrectNegativeLabels(testLabels);
        var predLabels := ThresholdLabelArray(pred.data, thres);
        r := LabelScore(testLabels[..], predLabels[..]);
      } else {
        r := ClassificationScore(predictY, testY, thres);
      }
    } else {
      r := Failure(UnboundLocalError);
    }
  }

  // ---------------------------------------------------------------- properties

  lemma {:induction false} SumSquaredDiffSelf(t: seq<real>)
    ensures SumSquaredDiff(t, t) == 0.0
  {
    if t != [] {
      SumSquaredDiffSelf(t[1..]);
    }
  }

  /** Identical predictions score l2 = 0 whenever the squeezed array has rank one or two and is not empty. */
  lemma IdenticalScoresZero(a: NdArray, thres: real)
    requires Valid(a)
    requires 1 <= |SqueezeShape(a.shape)| <= 2 && |a.data| > 0
    ensures ScoreOf(a, a, "r", thres) == Success(Regression(0.0))
  {
    SumSquaredDiffSelf(a.data);
    LexIrreflexive(Squeeze(a).shape);
  }

  lemma {:induction false} LexIrreflexive(s: seq<nat>)
    ensures !LexLess(s, s)
  {
    if s != [] {
      LexIrreflexive(s[1..]);
    }
  }

  /** The worked example: [1,2,3] against [2,3,4] gives l2 = 1. */
  lemma ShiftedByOneScoresOne(thres: real)
    ensures ScoreOf(NdArray([3], [2.0, 3.0, 4.0]), NdArray([3], [1.0, 2.0, 3.0]), "r", thres)
            == Success(Regression(1.0))
  {
    var t, p := [1.0, 2.0, 3.0], [2.0, 3.0, 4.0];
    assert SumSquaredDiff(t, p) == 3.0 by {
      assert SumSquaredDiff(t[2..], p[2..]) == 1.0;
      assert SumSquaredDiff(t[1..], p[1..]) == 2.0;
    }
  }

  /** A column vector (n, 1) and the flat vector (n,) with the same values score the same, on either side. */
  lemma ColumnVectorScoresAsFlat(d: seq<real>, other: NdArray, task: string, thres: real)
    requires Valid(other)
    ensures Valid(NdArray([|d|, 1], d)) && Valid(NdArray([|d|], d))
    ensures ScoreOf(NdArray([|d|, 1], d), other, task, thres) == ScoreOf(NdArray([|d|], d), other, task, thres)
    ensures ScoreOf(other, NdArray([|d|, 1], d), task, thres) == ScoreOf(other, NdArray([|d|], d), task, thres)
  {
    assert [|d|, 1] == [|d|] + [1];
    SqueezeTrailingOne([|d|]);
    assert [|d|, 1][1..] == [1] && [1][1..] == [] && [|d|][1..] == [];
    ScoreSeesSqueezed(NdArray([|d|, 1], d), NdArray([|d|], d), other, task, thres);
  }

  /** Scoring looks at both arrays only through `squeeze`. */
  lemma ScoreSeesSqueezed(a: NdArray, b: NdArray, other: NdArray, task: string, thres: real)
    requires Valid(a) && Valid(b) && Valid(other) && Squeeze(a) == Squeeze(b)
    ensures ScoreOf(a, other, task, thres) == ScoreOf(b, other, task, thres)
    ensures ScoreOf(other, a, task, thres) == ScoreOf(other, b, task, thres)
  {
  }

  /**
   * The reshape branches never yield a score: regression scoring succeeds
   * only when the two squeezed shapes are already equal. (A squeezed shape
   * has no axis of length one, so a reshape across ranks either changes the
   * element count or lands outside rank one and two.)
   */
  lemma RegressionNeedsEqualShapes(pred: NdArray, test: NdArray, thres: real)
    requires Valid(pred) && Valid(test)
    requires ScoreOf(pred, test, "r", thres).Success?
    ensures SqueezeShape(pred.shape) == SqueezeShape(test.shape)
  {
    var t, p := Squeeze(test), Squeeze(pred);
    if LexLess(p.shape, t.shape) {
      ReshapeAcrossRanksFails(p, t);
    } else if LexLess(t.shape, p.shape) {
      ReshapeAcrossRanksFails(t, p);
    }
  }

  /**
   * For squeezed arrays with `small.shape < big.shape`, reshaping `small`
   * to `big.shape` is never followed by a successful mean squared error.
   */
  lemma ReshapeAcrossRanksFails(small: NdArray, big: NdArray)
    requires Valid(small) && Valid(big)
    requires forall i :: 0 <= i < Rank(small) ==> small.shape[i] != 1
    requires forall i :: 0 <= i < Rank(big) ==> big.shape[i] != 1
    requires LexLess(small.shape, big.shape)
    ensures !(Size(big.shape) == |small.data| && 1 <= Rank(big) <= 2 && |small.data| > 0
              && (Rank(big) == Rank(small) + 1 || big.shape[..Rank(big) - 1] == small.shape))
  {
    var s, t := small.shape, big.shape;
    if && Size(t) == Size(s) && 1 <= |t| <= 2 && Size(s) > 0
       && (|t| == |s| + 1 || t[..|t| - 1] == s)
    {
      assert |s| == |t| - 1;
      if |t| == 2 {
        assert t == [t[0], t[1]] && s == [s[0]];
        assert t[1..] == [t[1]] && t[1..][1..] == [] && s[1..] == [];
        assert Size(t) == t[0] * (t[1] * Size([]));
        assert Size(s) == s[0] * Size([]);
        assert s[0] <= t[0];
        WideProduct(t[0], t[1], s[0]);
      }
    }
  }

  /** Neither factor of a non-empty squeezed 2-d shape is 0 or 1, so the product exceeds the first factor. */
  lemma WideProduct(a: nat, b: nat, c: nat)
    requires a * b > 0 && a != 1 && b != 1 && c <= a
    ensures a * b != c
  {
    assert a >= 2 && b >= 2;
    assert a * b == a * (b - 2) + 2 * a;
  }

  /** Row labels that agree everywhere, over two classes, give a hard accuracy of 1. */
  lemma AgreeingArgMaxScoresOne(pred: NdArray, test: NdArray, thres: real)
    requires Valid(pred) && Valid(test)
    requires Rank(pred) == 2 && Rank(test) == 2 && pred.shape[0] == test.shape[0] >= 2
    requires Width(pred) >= 2 && Width(test) >= 2
    requires ArgMaxLabels(pred) == ArgMaxLabels(test) && |Classes(ArgMaxLabels(test))| == 2
    ensures ScoreOf(pred, test, "c", thres) == Success(Classification(1.0))
  {
    assert Squeeze(pred) == pred by {
      NoUnitAxes(pred.shape);
    }
    assert Squeeze(test) == test by {
      NoUnitAxes(test.shape);
    }
    CountEqualAll(ArgMaxLabels(test), ArgMaxLabels(pred));
  }

  lemma NoUnitAxes(s: seq<nat>)
    requires |s| == 2 && s[0] != 1 && s[1] != 1
    ensures SqueezeShape(s) == s
  {
    assert s[1..][1..] == [];
    assert SqueezeShape(s[1..]) == [s[1]];
  }

  // ---------------------------------------------------------------- score on all inputs

  /**
   * Regression on arrays whose squeezed shapes agree: it succeeds exactly
   * for non-empty arrays of rank one or two, and l2 is the mean squared
   * error of the elements.
   */
  lemma RegressionScoreValue(pred: NdArray, test: NdArray, thres: real)
    requires Valid(pred) && Valid(test)
    requires SqueezeShape(pred.shape) == SqueezeShape(test.shape)
    ensures ScoreOf(pred, test, "r", thres).Success? <==> 1 <= |SqueezeShape(test.shape)| <= 2 && |test.data| > 0
    ensures ScoreOf(pred, test, "r", thres).Success? ==>
              ScoreOf(pred, test, "r", thres) == Success(Regression(MeanSquaredError(test.data, pred.data)))
  {
    LexIrreflexive(SqueezeShape(test.shape));
  }

  /**
   * Regression raises AssertionError exactly when the larger squeezed shape
   * neither has one more axis than the smaller nor extends it by one axis.
   */
  lemma RegressionAssertionError(pred: NdArray, test: NdArray, thres: real)
    requires Valid(pred) && Valid(test)
    ensures var t, p := SqueezeShape(test.shape), SqueezeShape(pred.shape);
            ScoreOf(pred, test, "r", thres) == Failure(AssertionError) <==>
              || (LexLess(p, t) && |t| != |p| + 1 && t[..|t| - 1] != p)
              || (LexLess(t, p) && |t| + 1 != |p| && t != p[..|p| - 1])
  {
  }

  /** Classification of squeezed 2-d arrays with two or more prediction columns: row-wise first arg-max labels. */
  lemma ArgMaxScore(pred: NdArray, test: NdArray, thres: real)
    requires Valid(pred) && Valid(test)
    requires Rank(Squeeze(pred)) == 2 && Rank(Squeeze(test)) == 2 && Width(Squeeze(pred)) >= 2 && Width(Squeeze(test)) >= 1
    ensures ScoreOf(pred, test, "c", thres) == LabelScore(ArgMaxLabels(Squeeze(test)), ArgMaxLabels(Squeeze(pred)))
  {
  }

  /** Classification of squeezed 1-d arrays: predicted label 1 iff value >= thres, true labels -1 read as 0. */
  lemma ThresholdScore(pred: NdArray, test: NdArray, thres: real)
    requires Valid(pred) && Valid(test) && Rank(Squeeze(pred)) == 1 && Rank(Squeeze(test)) == 1
    ensures ScoreOf(pred, test, "c", thres) == LabelScore(NegativeToZero(test.data), ThresholdLabels(pred.data, thres))
  {
  }

  /** A single true class makes `roc_auc_score` raise, although the labels agree. */
  lemma OneClassFails(thres: real)
    ensures ScoreOf(NdArray([2], [1.0, 1.0]), NdArray([2], [1.0, 1.0]), "c", thres) == Failure(ValueError)
  {
    var t := NegativeToZero([1.0, 1.0]);
    assert t == [1.0, 1.0];
    assert t[0] in Classes(t);
    assert Classes(t) == {1.0};
  }
}
