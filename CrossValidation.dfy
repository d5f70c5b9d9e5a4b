/**
 * The global confusion tally of MPScore.cross_validate in scripts/mpscore.py:
 * the held-out predictions and labels of every fold are concatenated, then
 * walked once to count true/false positives and negatives, class 1 being the
 * positive (easy-to-synthesise) class. Fitting and predicting are foreign
 * calls; each fold's held-out predictions and labels are inputs here.
 */
module CrossValidation {
  import opened Wrappers
  import opened Confusion

  /** The held-out part of one fold: the model's predictions and the actual labels. */
  datatype HeldOut = HeldOut(predictions: seq<int>, labels: seq<int>)

  /** The four totals, named as the source names them. */
  datatype Totals = Totals(tps: nat, fns: nat, tns: nat, fps: nat)

  /** Looking up the actual label of a prediction past the end of the label list. */
  datatype TallyError = LabelIndexOutOfRange(index: nat)

  /** All folds' predictions, fold after fold. */
  function AllPredictions(folds: seq<HeldOut>): (s: seq<int>)
    decreases |folds|
  {
    if |folds| == 0 then [] else AllPredictions(folds[..|folds| - 1]) + folds[|folds| - 1].predictions
  }

  /** All folds' actual labels, fold after fold. */
  function AllLabels(folds: seq<HeldOut>): (s: seq<int>)
    decreases |folds|
  {
    if |folds| == 0 then [] else AllLabels(folds[..|folds| - 1]) + folds[|folds| - 1].labels
  }

  /** Every fold has one prediction per held-out label. */
  predicate Aligned(folds: seq<HeldOut>)
  {
    forall f :: 0 <= f < |folds| ==> |folds[f].predictions| == |folds[f].labels|
  }

  /**
   * The totals the tally must reach: a label-1 sample is a true positive when
   * predicted 1 and a false negative otherwise; a label-0 sample is a true
   * negative when predicted 0 and a false positive otherwise.
   */
  function ExpectedTotals(predictions: seq<int>, actual: seq<int>): Totals
    requires |predictions| <= |actual|
  {
    Totals(CountWhere(predictions, actual, 1, true), CountWhere(predictions, actual, 1, false),
           CountWhere(predictions, actual, 0, true), CountWhere(predictions, actual, 0, false))
  }

  function Sum(t: Totals): nat { t.tps + t.fns + t.tns + t.fps }

  /** Extends the combined prediction and label lists with each fold's held-out part in turn. */
  method CombineHeldOut(folds: seq<HeldOut>) returns (predictionsCombined: seq<int>, yTestCombined: seq<int>)
    ensures predictionsCombined == AllPredictions(folds)
    ensures yTestCombined == AllLabels(folds)
  {
    predictionsCombined, yTestCombined := [], [];
    for f := 0 to |folds|
      invariant predictionsCombined == AllPredictions(folds[..f])
      invariant yTestCombined == AllLabels(folds[..f])
    {
      assert folds[..f + 1][..f] == folds[..f];
      predictionsCombined := predictionsCombined + folds[f].predictions;
      yTestCombined := yTestCombined + folds[f].labels;
    }
    assert folds[..|folds|] == folds;
  }

  /**
   * Walks the predictions with their index, looks up the actual label at the
   * same index and bumps one of the four counters. Labels other than 0 and 1
   * bump none. Fails when a prediction has no label at its index.
   */
  method TallyConfusion(predictions: seq<int>, actual: seq<int>) returns (r: Result<Totals, TallyError>)
    ensures r.Failure? <==> |actual| < |predictions|
    ensures r.Failure? ==> r.error.index == |actual|
    ensures r.Success? ==> r.value == ExpectedTotals(predictions, actual)
  {
    var fps, tps, tns, fns := 0, 0, 0, 0;
    for i := 0 to |predictions|
      invariant i <= |actual|
      invariant Totals(tps, fns, tns, fps) == ExpectedTotals(predictions[..i], actual)
    {
      if i >= |actual| {
        return Failure(LabelIndexOutOfRange(i));
      }
      var predictedY := predictions[i];
      var actualY := actual[i];
      assert predictions[..i + 1][..i] == predictions[..i];
      if actualY == 1 {
        if actualY == predictedY {
          tps := tps + 1;
        } else {
          fns := fns + 1;
        }
      } else if actualY == 0 {
        if actualY == predictedY {
          tns := tns + 1;
        } else {
          fps := fps + 1;
        }
      }
    }
    assert predictions[..|predictions|] == predictions;
    return Success(Totals(tps, fns, tns, fps));
  }

  /**
   * With binary labels the totals partition the predictions: all four add up
   * to the number of predictions, true positives and false negatives to the
   * number of label-1 samples, true negatives and false positives to the
   * number of label-0 samples.
   */
  lemma TotalsPartition(predictions: seq<int>, actual: seq<int>)
    requires |predictions| <= |actual|
    requires Binary(actual[..|predictions|])
    ensures Sum(ExpectedTotals(predictions, actual)) == |predictions|
    ensures ExpectedTotals(predictions, actual).tps + ExpectedTotals(predictions, actual).fns
            == LabelCount(actual[..|predictions|], 1)
    ensures ExpectedTotals(predictions, actual).tns + ExpectedTotals(predictions, actual).fps
            == LabelCount(actual[..|predictions|], 0)
  {
    AgreeOrDisagree(predictions, actual, 1);
    AgreeOrDisagree(predictions, actual, 0);
    FourCountsCover(predictions, actual);
  }

  /** Folds with one prediction per label combine into lists of equal length. */
  lemma {:induction false} AlignedCombineEqually(folds: seq<HeldOut>)
    requires Aligned(folds)
    ensures |AllPredictions(folds)| == |AllLabels(folds)|
    decreases |folds|
  {
    if |folds| > 0 {
      var init := folds[..|folds| - 1];
      assert Aligned(init) by {
        forall f | 0 <= f < |init| ensures |init[f].predictions| == |init[f].labels| {
          assert init[f] == folds[f];
        }
      }
      AlignedCombineEqually(init);
    }
  }

  /**
   * The tally of cross_validate: combine the folds, then count. It fails exactly
   * when the combined labels run out before the combined predictions, which
   * cannot happen when every fold has one prediction per label. Each counter is
   * its count over the combined lists, and with binary labels the four totals
   * partition the held-out samples by label.
   */
  method CrossValidationTotals(folds: seq<HeldOut>) returns (r: Result<Totals, TallyError>)
    ensures r.Failure? <==> |AllLabels(folds)| < |AllPredictions(folds)|
    ensures r.Success? ==> r.value == ExpectedTotals(AllPredictions(folds), AllLabels(folds))
    ensures Aligned(folds) ==> r.Success?
    ensures r.Success? && Binary(AllLabels(folds)) && Aligned(folds) ==> Sum(r.value) == |AllLabels(folds)|
    ensures r.Success? && Binary(AllLabels(folds)) && Aligned(folds) ==>
              r.value.tps + r.value.fns == LabelCount(AllLabels(folds), 1)
    ensures r.Success? && Binary(AllLabels(folds)) && Aligned(folds) ==>
              r.value.tns + r.value.fps == LabelCount(AllLabels(folds), 0)
  {
    var predictionsCombined, yTestCombined := CombineHeldOut(folds);
    r := TallyConfusion(predictionsCombined, yTestCombined);
    if Aligned(folds) {
      AlignedCombineEqually(folds);
      assert yTestCombined[..|predictionsCombined|] == yTestCombined;
      if Binary(yTestCombined) {
        TotalsPartition(predictionsCombined, yTestCombined);
      }
    }
  }
}
