/**
 * Properties of the threshold sweep: the classification rule is monotone in
 * the threshold, the counts of a split partition it, the class exchange is an
 * involution, fold sums partition the held-out samples, and every defined
 * ratio lies in [0, 1].
 */
module SweepProperties {
  import opened Wrappers
  import opened Confusion
  import opened ThresholdSweep

  /** Every fold's train and test labels are 0 or 1. */
  predicate LabelsBinary(folds: seq<Fold>)
  {
    forall f :: 0 <= f < |folds| ==> Binary(folds[f].trainLabels) && Binary(folds[f].testLabels)
  }

  /** Number of test samples over all folds. */
  function TestSize(folds: seq<Fold>): nat
    decreases |folds|
  {
    if |folds| == 0 then 0 else TestSize(folds[..|folds| - 1]) + |folds[|folds| - 1].testLabels|
  }

  /** Number of train samples over all folds. */
  function TrainSize(folds: seq<Fold>): nat
    decreases |folds|
  {
    if |folds| == 0 then 0 else TrainSize(folds[..|folds| - 1]) + |folds[|folds| - 1].trainLabels|
  }

  /** Number of label-1 test samples over all folds. */
  function TestPositives(folds: seq<Fold>): nat
    decreases |folds|
  {
    if |folds| == 0 then 0 else TestPositives(folds[..|folds| - 1]) + LabelCount(folds[|folds| - 1].testLabels, 1)
  }

  /** Number of test samples predicted 1 at threshold `t`, over all folds. */
  function TestPredictedPositives(folds: seq<Fold>, t: real): nat
    decreases |folds|
  {
    if |folds| == 0 then 0
    else TestPredictedPositives(folds[..|folds| - 1], t) + LabelCount(Predict(folds[|folds| - 1].testProbs, t), 1)
  }

  lemma LabelsBinaryPrefix(folds: seq<Fold>, n: nat)
    requires LabelsBinary(folds) && n <= |folds|
    ensures LabelsBinary(folds[..n])
  {
    var prefix := folds[..n];
    forall f | 0 <= f < |prefix| ensures Binary(prefix[f].trainLabels) && Binary(prefix[f].testLabels) {
      assert prefix[f] == folds[f];
    }
  }

  // ---------------------------------------------------------------------------
  // The classification rule

  /** A sample is predicted 1 exactly when its class-1 probability reaches the threshold. */
  lemma PredictAtThreshold(probs: seq<real>, t: real, i: nat)
    requires i < |probs|
    ensures |Predict(probs, t)| == |probs|
    ensures Predict(probs, t)[i] == 1 <==> probs[i] >= t
    ensures Predict(probs, t)[i] == 0 <==> probs[i] < t
  {
  }

  /** Raising the threshold never increases the number of samples predicted 1. */
  lemma PredictedOnesMonotone(probs: seq<real>, t1: real, t2: real)
    requires t1 <= t2
    ensures LabelCount(Predict(probs, t2), 1) <= LabelCount(Predict(probs, t1), 1)
  {
    OnesDominated(Predict(probs, t2), Predict(probs, t1));
  }

  /** Raising the threshold never increases a split's true positives. */
  lemma TruePositivesMonotone(labels: seq<int>, probs: seq<real>, t1: real, t2: real)
    requires |probs| == |labels| && t1 <= t2
    ensures SplitCounts(labels, probs, t2).tp <= SplitCounts(labels, probs, t1).tp
  {
    AgreeingOnesDominated(Predict(probs, t2), Predict(probs, t1), labels);
  }

  /** Raising the threshold never increases the fold-summed test true positives. */
  lemma {:induction false} SummedTruePositivesMonotone(folds: seq<Fold>, t1: real, t2: real)
    requires AllWellFormed(folds) && t1 <= t2
    ensures SummedCount(folds, t2, false, TpTest) <= SummedCount(folds, t1, false, TpTest)
    decreases |folds|
  {
    if |folds| > 0 {
      var n := |folds|;
      PrefixWellFormed(folds, n - 1);
      SummedTruePositivesMonotone(folds[..n - 1], t1, t2);
      TruePositivesMonotone(folds[n - 1].testLabels, folds[n - 1].testProbs, t1, t2);
    }
  }

  /** At threshold 0 every sample with a non-negative probability is predicted 1. */
  lemma {:induction false} ZeroThresholdPredictsAll(probs: seq<real>)
    requires forall i :: 0 <= i < |probs| ==> probs[i] >= 0.0
    ensures LabelCount(Predict(probs, 0.0), 1) == |probs|
    decreases |probs|
  {
    if |probs| > 0 {
      var n := |probs|;
      assert Predict(probs, 0.0)[..n - 1] == Predict(probs[..n - 1], 0.0);
      ZeroThresholdPredictsAll(probs[..n - 1]);
    }
  }

  // ---------------------------------------------------------------------------
  // Counts of one split and one fold

  /**
   * With binary labels a split's four counts add up to its size; as the source
   * names them, tp + fp are its label-1 samples and tn + fn its label-0 samples.
   */
  lemma SplitPartition(labels: seq<int>, probs: seq<real>, t: real)
    requires |probs| == |labels| && Binary(labels)
    ensures Total(SplitCounts(labels, probs, t)) == |labels|
    ensures SplitCounts(labels, probs, t).tp + SplitCounts(labels, probs, t).fp == LabelCount(labels, 1)
    ensures SplitCounts(labels, probs, t).tn + SplitCounts(labels, probs, t).fn == LabelCount(labels, 0)
  {
    var preds := Predict(probs, t);
    assert labels[..|preds|] == labels;
    FourCountsCover(preds, labels);
    AgreeOrDisagree(preds, labels, 1);
    AgreeOrDisagree(preds, labels, 0);
  }

  /** A fold's train counts add up to its train split and its test counts to its test split, swapped or not. */
  lemma FoldPartition(fold: Fold, t: real, swapClasses: bool)
    requires WellFormed(fold) && Binary(fold.trainLabels) && Binary(fold.testLabels)
    ensures Total(CountsAt(fold, t, swapClasses).train) == |fold.trainLabels|
    ensures Total(CountsAt(fold, t, swapClasses).test) == |fold.testLabels|
  {
    SplitPartition(fold.trainLabels, fold.trainProbs, t);
    SplitPartition(fold.testLabels, fold.testProbs, t);
  }

  // ---------------------------------------------------------------------------
  // Fold sums

  /** Summed over folds, the four test columns at a threshold add up to the number of test samples. */
  lemma {:induction false} SummedTestPartition(folds: seq<Fold>, t: real, swapClasses: bool)
    requires AllWellFormed(folds) && LabelsBinary(folds)
    ensures SummedCount(folds, t, swapClasses, TpTest) + SummedCount(folds, t, swapClasses, FpTest)
            + SummedCount(folds, t, swapClasses, TnTest) + SummedCount(folds, t, swapClasses, FnTest)
            == TestSize(folds)
    decreases |folds|
  {
    if |folds| > 0 {
      var n := |folds|;
      PrefixWellFormed(folds, n - 1);
      LabelsBinaryPrefix(folds, n - 1);
      SummedTestPartition(folds[..n - 1], t, swapClasses);
      FoldPartition(folds[n - 1], t, swapClasses);
      SummedCountStep(folds, t, swapClasses, TpTest);
      SummedCountStep(folds, t, swapClasses, FpTest);
      SummedCountStep(folds, t, swapClasses, TnTest);
      SummedCountStep(folds, t, swapClasses, FnTest);
    }
  }

  /** Summed over folds, the four train columns at a threshold add up to the number of train samples. */
  lemma {:induction false} SummedTrainPartition(folds: seq<Fold>, t: real, swapClasses: bool)
    requires AllWellFormed(folds) && LabelsBinary(folds)
    ensures SummedCount(folds, t, swapClasses, TpTrain) + SummedCount(folds, t, swapClasses, FpTrain)
            + SummedCount(folds, t, swapClasses, TnTrain) + SummedCount(folds, t, swapClasses, FnTrain)
            == TrainSize(folds)
    decreases |folds|
  {
    if |folds| > 0 {
      var n := |folds|;
      PrefixWellFormed(folds, n - 1);
      LabelsBinaryPrefix(folds, n - 1);
      SummedTrainPartition(folds[..n - 1], t, swapClasses);
      FoldPartition(folds[n - 1], t, swapClasses);
      SummedCountStep(folds, t, swapClasses, TpTrain);
      SummedCountStep(folds, t, swapClasses, FpTrain);
      SummedCountStep(folds, t, swapClasses, TnTrain);
      SummedCountStep(folds, t, swapClasses, FnTrain);
    }
  }

  /** A ratio `a / (a + b)` of counts is undefined only when both are zero, and otherwise lies in [0, 1]. */
  lemma RatioInUnitInterval(a: nat, b: nat)
    ensures Ratio(a, a + b).None? <==> a + b == 0
    ensures Ratio(a, a + b).Some? ==> 0.0 <= Ratio(a, a + b).value <= 1.0
  {
    if a + b > 0 {
      RatioScales(a, a + b);
      var v := Ratio(a, a + b).value;
      assert v * (a + b) as real == a as real;
    }
  }

  /** Over a fixed positive denominator, a smaller numerator gives a smaller ratio. */
  lemma RatioMonotone(smaller: nat, larger: nat, den: nat)
    requires smaller <= larger && den > 0
    ensures Ratio(smaller, den).Some? && Ratio(larger, den).Some?
    ensures Ratio(smaller, den).value <= Ratio(larger, den).value
  {
    var d := den as real;
    assert smaller as real / d <= larger as real / d by {
      assert (larger as real - smaller as real) / d >= 0.0;
    }
  }

  /** Every entry of the four ratio columns is undefined exactly when its denominator is zero, and otherwise lies in [0, 1]. */
  lemma CurveRatiosInUnitInterval(folds: seq<Fold>, t: real, swapClasses: bool, num: Metric, other: Metric)
    requires AllWellFormed(folds)
    ensures RatioAt(folds, t, swapClasses, num, other).None? <==>
            SummedCount(folds, t, swapClasses, num) + SummedCount(folds, t, swapClasses, other) == 0
    ensures RatioAt(folds, t, swapClasses, num, other).Some? ==>
            0.0 <= RatioAt(folds, t, swapClasses, num, other).value <= 1.0
  {
    var a := SummedCount(folds, t, swapClasses, num);
    var b := SummedCount(folds, t, swapClasses, other);
    assert RatioAt(folds, t, swapClasses, num, other) == Ratio(a, a + b);
    RatioInUnitInterval(a, b);
  }

  // ---------------------------------------------------------------------------
  // What the ratios measure. With class 1 as the positive class, the source's
  // `fp` counts label-1 samples predicted 0 and its `fn` label-0 samples
  // predicted 1, so tp / (tp + fp) is the recall of class 1 and tp / (tp + fn)
  // its precision.

  /** Every prediction is 0 or 1. */
  lemma PredictBinary(probs: seq<real>, t: real)
    ensures Binary(Predict(probs, t))
  {
  }

  /**
   * Without the class exchange, the denominator of the summed p_test ratio is
   * the number of label-1 test samples at every threshold, and that of r_test
   * is the number of test samples predicted 1.
   */
  lemma {:induction false} SweptPrecisionIsRecall(folds: seq<Fold>, t: real)
    requires AllWellFormed(folds) && LabelsBinary(folds)
    ensures SummedCount(folds, t, false, TpTest) + SummedCount(folds, t, false, FpTest) == TestPositives(folds)
    ensures SummedCount(folds, t, false, TpTest) + SummedCount(folds, t, false, FnTest) == TestPredictedPositives(folds, t)
    decreases |folds|
  {
    SummedTestPositives(folds, t);
    if |folds| > 0 {
      var n := |folds|;
      var last := folds[n - 1];
      PrefixWellFormed(folds, n - 1);
      LabelsBinaryPrefix(folds, n - 1);
      SweptPrecisionIsRecall(folds[..n - 1], t);
      SummedCountStep(folds, t, false, TpTest);
      SummedCountStep(folds, t, false, FnTest);
      FoldPredictedPositives(last, t);
    }
  }

  /**
   * Without the class exchange, and whatever the labels, the summed test
   * `tp + fp` is the number of label-1 test samples at every threshold.
   */
  lemma {:induction false} SummedTestPositives(folds: seq<Fold>, t: real)
    requires AllWellFormed(folds)
    ensures SummedCount(folds, t, false, TpTest) + SummedCount(folds, t, false, FpTest) == TestPositives(folds)
    decreases |folds|
  {
    if |folds| > 0 {
      var n := |folds|;
      PrefixWellFormed(folds, n - 1);
      SummedTestPositives(folds[..n - 1], t);
      SummedCountStep(folds, t, false, TpTest);
      SummedCountStep(folds, t, false, FpTest);
    }
  }

  /** Without the exchange, one fold's test `tp + fn` is the number of its test samples predicted 1. */
  lemma FoldPredictedPositives(fold: Fold, t: real)
    requires WellFormed(fold) && Binary(fold.testLabels)
    ensures CountsAt(fold, t, false).test.tp + CountsAt(fold, t, false).test.fn
            == LabelCount(Predict(fold.testProbs, t), 1)
  {
    var preds := Predict(fold.testProbs, t);
    assert fold.testLabels[..|preds|] == fold.testLabels;
    PredictedOnesSplit(preds, fold.testLabels);
  }

  /** Because its denominator does not depend on the threshold, the summed p_test never grows with the threshold. */
  lemma SweptPrecisionNonIncreasing(folds: seq<Fold>, t1: real, t2: real)
    requires AllWellFormed(folds) && t1 <= t2
    requires RatioAt(folds, t2, false, TpTest, FpTest).Some?
    ensures RatioAt(folds, t1, false, TpTest, FpTest).Some?
    ensures RatioAt(folds, t2, false, TpTest, FpTest).value <= RatioAt(folds, t1, false, TpTest, FpTest).value
  {
    SummedTestPositives(folds, t1);
    SummedTestPositives(folds, t2);
    SummedTruePositivesMonotone(folds, t1, t2);
    RatioMonotone(SummedCount(folds, t2, false, TpTest), SummedCount(folds, t1, false, TpTest), TestPositives(folds));
  }

  /** One fold whose two test samples, labelled 1 and 0, both have class-1 probability 0.9. */
  const ExampleFolds: seq<Fold> := [Fold([], [], [1, 0], [0.9, 0.9])]

  /**
   * At threshold 0.5 both test samples are predicted 1, so one of the two
   * predicted positives is a true positive (precision 1/2) and the one label-1
   * sample is found (recall 1); the sweep reports p_test = 1 and r_test = 1/2.
   */
  lemma SweptRatiosExample()
    ensures AllWellFormed(ExampleFolds)
    ensures TestPredictedPositives(ExampleFolds, 0.5) == 2 && TestPositives(ExampleFolds) == 1
    ensures RatioAt(ExampleFolds, 0.5, false, TpTest, FpTest) == Some(1.0)
    ensures RatioAt(ExampleFolds, 0.5, false, TpTest, FnTest) == Some(0.5)
  {
    var fold := ExampleFolds[0];
    var preds := Predict(fold.testProbs, 0.5);
    assert preds == [1, 1];
    assert preds[..1] == [1];
    assert preds[..1][..0] == [];
    assert LabelCount(preds, 1) == 2;
    assert fold.testLabels[..1] == [1];
    assert LabelCount(fold.testLabels, 1) == 1;
    assert CountWhere(preds, fold.testLabels, 1, true) == 1;
    assert CountWhere(preds, fold.testLabels, 1, false) == 0;
    assert CountWhere(preds, fold.testLabels, 0, false) == 1;
    assert ExampleFolds[..0] == [];
    SummedCountStep(ExampleFolds, 0.5, false, TpTest);
    SummedCountStep(ExampleFolds, 0.5, false, FpTest);
    SummedCountStep(ExampleFolds, 0.5, false, FnTest);
  }

  /** The four counts of a split with class 1 as the positive class: fp are label-0 samples predicted 1, fn label-1 samples predicted 0. */
  function StandardCounts(labels: seq<int>, probs: seq<real>, t: real): (c: Counts)
    requires |probs| == |labels|
  {
    var preds := Predict(probs, t);
    Counts(CountWhere(preds, labels, 1, true), CountWhere(preds, labels, 0, false),
           CountWhere(preds, labels, 0, true), CountWhere(preds, labels, 1, false))
  }

  /**
   * With the positive class counted the standard way, tp + fp is the number of
   * samples predicted 1 and tp + fn the number of label-1 samples, so
   * tp / (tp + fp) is the precision and tp / (tp + fn) the recall; these are
   * the source's counts with fp and fn exchanged, so the precision is the
   * source's r ratio and the recall its p ratio.
   */
  lemma StandardCountsMeaning(labels: seq<int>, probs: seq<real>, t: real)
    requires |probs| == |labels| && Binary(labels)
    ensures StandardCounts(labels, probs, t).tp + StandardCounts(labels, probs, t).fp == LabelCount(Predict(probs, t), 1)
    ensures StandardCounts(labels, probs, t).tp + StandardCounts(labels, probs, t).fn == LabelCount(labels, 1)
    ensures var c := SplitCounts(labels, probs, t);
            StandardCounts(labels, probs, t) == Counts(c.tp, c.fn, c.tn, c.fp)
  {
    var preds := Predict(probs, t);
    PredictBinary(probs, t);
    assert labels[..|preds|] == labels;
    PredictedOnesSplit(preds, labels);
    SplitPartition(labels, probs, t);
  }

  /** The standard recall of a split never grows with the threshold. */
  lemma StandardRecallNonIncreasing(labels: seq<int>, probs: seq<real>, t1: real, t2: real)
    requires |probs| == |labels| && Binary(labels) && t1 <= t2
    requires LabelCount(labels, 1) > 0
    ensures var c1 := StandardCounts(labels, probs, t1);
            var c2 := StandardCounts(labels, probs, t2);
            Ratio(c2.tp, c2.tp + c2.fn).Some? && Ratio(c1.tp, c1.tp + c1.fn).Some? &&
            Ratio(c2.tp, c2.tp + c2.fn).value <= Ratio(c1.tp, c1.tp + c1.fn).value
  {
    StandardCountsMeaning(labels, probs, t1);
    StandardCountsMeaning(labels, probs, t2);
    TruePositivesMonotone(labels, probs, t1, t2);
    RatioMonotone(StandardCounts(labels, probs, t2).tp, StandardCounts(labels, probs, t1).tp, LabelCount(labels, 1));
  }
}
