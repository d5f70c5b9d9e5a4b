/**
 * The threshold sweep of MPScore.get_precision_recall_curve_data in
 * scripts/mpscore.py. For every fold and every threshold of a fixed grid, the
 * train and test samples are classified 1 iff their class-1 probability is at
 * least the threshold, eight counts are taken, optionally exchanged, and added
 * into one running total per threshold; precision- and recall-like ratios are
 * then derived from the fold-summed counts.
 *
 * The counts keep the source's names: `tp` counts label-1 samples predicted 1,
 * `fp` label-1 samples predicted 0, `tn` label-0 samples predicted 0 and `fn`
 * label-0 samples predicted 1.
 */
module ThresholdSweep {
  import opened Wrappers
  import opened Confusion

  /** One fold: labels and class-1 probabilities of its train and its test split. */
  datatype Fold = Fold(trainLabels: seq<int>, trainProbs: seq<real>, testLabels: seq<int>, testProbs: seq<real>)

  /** The classifier returns one probability row per sample of each split. */
  predicate WellFormed(fold: Fold)
  {
    |fold.trainProbs| == |fold.trainLabels| && |fold.testProbs| == |fold.testLabels|
  }

  predicate AllWellFormed(folds: seq<Fold>)
  {
    forall f :: 0 <= f < |folds| ==> WellFormed(folds[f])
  }

  /** The threshold grid: strictly increasing, as an evenly spaced grid from 0 to 1 is. */
  predicate StrictlyIncreasing(grid: seq<real>)
  {
    forall j, k :: 0 <= j < k < |grid| ==> grid[j] < grid[k]
  }

  /** The predicted class of every sample at threshold `t`. */
  function Predict(probs: seq<real>, t: real): (preds: seq<int>)
    ensures |preds| == |probs| && Binary(preds)
  {
    seq(|probs|, i requires 0 <= i < |probs| => if probs[i] >= t then 1 else 0)
  }

  /** The four counts of one split, under the source's names. */
  datatype Counts = Counts(tp: nat, fp: nat, tn: nat, fn: nat)

  function Total(c: Counts): nat { c.tp + c.fp + c.tn + c.fn }

  /**
   * The four counts of one split at threshold `t`: whatever the threshold, the
   * source's `tp + fp` are the split's label-1 samples and `tn + fn` its
   * label-0 samples.
   */
  function SplitCounts(labels: seq<int>, probs: seq<real>, t: real): (c: Counts)
    requires |probs| == |labels|
    ensures c.tp + c.fp == LabelCount(labels, 1)
    ensures c.tn + c.fn == LabelCount(labels, 0)
  {
    var preds := Predict(probs, t);
    assert labels[..|preds|] == labels;
    AgreeOrDisagree(preds, labels, 1);
    AgreeOrDisagree(preds, labels, 0);
    Counts(CountWhere(preds, labels, 1, true), CountWhere(preds, labels, 1, false),
           CountWhere(preds, labels, 0, true), CountWhere(preds, labels, 0, false))
  }

  /** The exchange made when `swap_classes` is set: tp with tn, fp with fn. */
  function Swap(c: Counts): (s: Counts)
    ensures Total(s) == Total(c)
    ensures s.tp + s.fp == c.tn + c.fn && s.tn + s.fn == c.tp + c.fp
  {
    Counts(c.tn, c.fn, c.tp, c.fp)
  }

  /** Swapping twice restores the original counts. */
  lemma SwapTwice(c: Counts)
    ensures Swap(Swap(c)) == c
  {
  }

  /** Counts of the train and the test split of one fold at one threshold. */
  datatype FoldCounts = FoldCounts(train: Counts, test: Counts)

  /**
   * One fold's counts at threshold `t`, exchanged when `swapClasses` holds: the
   * exchange makes label 0 the class that `tp + fp` counts, in both splits.
   */
  function CountsAt(fold: Fold, t: real, swapClasses: bool): (r: FoldCounts)
    requires WellFormed(fold)
    ensures r.train.tp + r.train.fp == LabelCount(fold.trainLabels, if swapClasses then 0 else 1)
    ensures r.train.tn + r.train.fn == LabelCount(fold.trainLabels, if swapClasses then 1 else 0)
    ensures r.test.tp + r.test.fp == LabelCount(fold.testLabels, if swapClasses then 0 else 1)
    ensures r.test.tn + r.test.fn == LabelCount(fold.testLabels, if swapClasses then 1 else 0)
  {
    var train := SplitCounts(fold.trainLabels, fold.trainProbs, t);
    var test := SplitCounts(fold.testLabels, fold.testProbs, t);
    if swapClasses then FoldCounts(Swap(train), Swap(test)) else FoldCounts(train, test)
  }

  /** The eight result columns, in the order the source lists them. */
  datatype Metric = TpTrain | TpTest | FpTrain | FpTest | TnTrain | TnTest | FnTrain | FnTest

  const MetricCount := 8

  /** Position of a column in the source's list of metrics. */
  function Rank(m: Metric): (k: nat)
    ensures k < MetricCount
  {
    match m
    case TpTrain => 0
    case TpTest => 1
    case FpTrain => 2
    case FpTest => 3
    case TnTrain => 4
    case TnTest => 5
    case FnTrain => 6
    case FnTest => 7
  }

  /** One fold's eight values at one threshold, in the order of the columns. */
  function Values(c: FoldCounts): (vals: seq<nat>)
    ensures |vals| == MetricCount
  {
    [c.train.tp, c.test.tp, c.train.fp, c.test.fp, c.train.tn, c.test.tn, c.train.fn, c.test.fn]
  }

  /** The value a fold contributes to column `m`. */
  function Select(c: FoldCounts, m: Metric): nat
  {
    Values(c)[Rank(m)]
  }

  /** Sum over `folds` of each fold's value in column position `k` at threshold `t`. */
  function SummedAt(folds: seq<Fold>, t: real, swapClasses: bool, k: nat): nat
    requires AllWellFormed(folds) && k < MetricCount
    decreases |folds|
  {
    if |folds| == 0 then 0
    else
      var init := folds[..|folds| - 1];
      PrefixWellFormed(folds, |folds| - 1);
      SummedAt(init, t, swapClasses, k) + Values(CountsAt(folds[|folds| - 1], t, swapClasses))[k]
  }

  /** Sum over `folds` of each fold's count `m` at threshold `t`. */
  function SummedCount(folds: seq<Fold>, t: real, swapClasses: bool, m: Metric): nat
    requires AllWellFormed(folds)
  {
    SummedAt(folds, t, swapClasses, Rank(m))
  }

  /** The sum over a non-empty list of folds is the sum over all but the last plus the last fold's count. */
  lemma SummedCountStep(folds: seq<Fold>, t: real, swapClasses: bool, m: Metric)
    requires AllWellFormed(folds) && |folds| > 0
    ensures AllWellFormed(folds[..|folds| - 1])
    ensures SummedCount(folds, t, swapClasses, m)
            == SummedCount(folds[..|folds| - 1], t, swapClasses, m) + Select(CountsAt(folds[|folds| - 1], t, swapClasses), m)
  {
    PrefixWellFormed(folds, |folds| - 1);
  }

  /** Column position `k` of the result: the fold-summed value at every grid threshold. */
  function ColumnAt(folds: seq<Fold>, grid: seq<real>, swapClasses: bool, k: nat): (col: seq<nat>)
    requires AllWellFormed(folds) && k < MetricCount
  {
    seq(|grid|, j requires 0 <= j < |grid| => SummedAt(folds, grid[j], swapClasses, k))
  }

  /** `num / den`, undefined when `den` is zero (numpy yields nan there, with a warning). */
  function Ratio(num: nat, den: nat): (r: Option<real>)
    ensures r.None? <==> den == 0
  {
    if den == 0 then None else Some(num as real / den as real)
  }

  /** A defined ratio times its denominator gives back its numerator. */
  lemma RatioScales(num: nat, den: nat)
    ensures Ratio(num, den).Some? ==> Ratio(num, den).value * den as real == num as real
  {
  }

  /** Row `n` extends a ratio column by the ratio of that row's counts. */
  lemma RatioColumnStep(num: seq<nat>, other: seq<nat>, n: nat)
    requires n < |num| && n < |other|
    ensures RatioColumn(num, other, n + 1) == RatioColumn(num, other, n) + [Ratio(num[n], num[n] + other[n])]
  {
  }

  /** The ratio `num / (num + other)` of two fold-summed columns at threshold `t`. */
  function RatioAt(folds: seq<Fold>, t: real, swapClasses: bool, num: Metric, other: Metric): Option<real>
    requires AllWellFormed(folds)
  {
    var a := SummedCount(folds, t, swapClasses, num);
    Ratio(a, a + SummedCount(folds, t, swapClasses, other))
  }

  /** First position of `x` in `s`, as list.index returns it. */
  function IndexOf(s: seq<real>, x: real): (i: nat)
    requires x in s
    ensures i < |s| && s[i] == x
    ensures forall j :: 0 <= j < i ==> s[j] != x
  {
    if s[0] == x then 0 else 1 + IndexOf(s[1..], x)
  }

  /** `n` zeros, as `[0] * n` builds them. */
  function Zeros(n: nat): (z: seq<nat>)
    ensures |z| == n && forall i :: 0 <= i < n ==> z[i] == 0
  {
    seq(n, _ => 0)
  }

  /** A column after `v` is added at `pos`; an empty column is first filled with `n` zeros. */
  function Bumped(column: seq<nat>, n: nat, pos: nat, v: nat): (r: seq<nat>)
    requires column == [] || |column| == n
    requires pos < n
    ensures |r| == n
  {
    var base := if column == [] then Zeros(n) else column;
    base[pos := base[pos] + v]
  }

  /**
   * Adds one fold's eight values at `threshold` into the eight columns, at the
   * position where `threshold` first occurs in the recorded thresholds. A
   * column that is still empty (the default of the source's result dictionary)
   * is first filled with `n` zeros.
   */
  method AddCounts(columns: seq<seq<nat>>, thresholds: seq<real>, threshold: real, vals: seq<nat>, n: nat)
    returns (updated: seq<seq<nat>>)
    requires |columns| == |vals| == MetricCount
    requires threshold in thresholds && IndexOf(thresholds, threshold) < n
    requires forall k :: 0 <= k < MetricCount ==> columns[k] == [] || |columns[k]| == n
    ensures |updated| == MetricCount
    ensures forall k :: 0 <= k < MetricCount ==>
              updated[k] == Bumped(columns[k], n, IndexOf(thresholds, threshold), vals[k])
  {
    updated := columns;
    for k := 0 to MetricCount
      invariant |updated| == MetricCount
      invariant forall j :: 0 <= j < k ==> updated[j] == Bumped(columns[j], n, IndexOf(thresholds, threshold), vals[j])
      invariant forall j :: k <= j < MetricCount ==> updated[j] == columns[j]
    {
      var pos := IndexOf(thresholds, threshold);
      if updated[k] == [] {
        updated := updated[k := Zeros(n)];
      }
      updated := updated[k := updated[k][pos := updated[k][pos] + vals[k]]];
    }
  }

  /** The table the sweep returns: thresholds, eight count columns (in Rank order) and four ratio columns. */
  datatype CurveTable = CurveTable(
    thresholds: seq<real>,
    counts: seq<seq<nat>>,
    ratios: Ratios)

  /** Reading a row of the result that does not exist (the result is empty when there are no folds). */
  datatype SweepError = RowOutOfRange(row: nat)

  /** In a strictly increasing grid, the first occurrence of `grid[i]` in `grid[..n]` (n > i) is `i`. */
  lemma IndexOfInGrid(grid: seq<real>, i: nat, n: nat)
    requires StrictlyIncreasing(grid) && i < n <= |grid|
    ensures grid[i] in grid[..n] && IndexOf(grid[..n], grid[i]) == i
  {
    assert grid[..n][i] == grid[i];
  }

  /** Every prefix of well-formed folds is well-formed. */
  lemma PrefixWellFormed(folds: seq<Fold>, n: nat)
    requires AllWellFormed(folds) && n <= |folds|
    ensures AllWellFormed(folds[..n])
  {
    var prefix := folds[..n];
    forall g | 0 <= g < |prefix| ensures WellFormed(prefix[g]) {
      assert prefix[g] == folds[g];
    }
  }

  /** Adding one more fold adds its value to the sum. */
  lemma SummedAtStep(folds: seq<Fold>, f: nat, t: real, swapClasses: bool, k: nat)
    requires AllWellFormed(folds) && f < |folds| && k < MetricCount
    ensures AllWellFormed(folds[..f]) && AllWellFormed(folds[..f + 1])
    ensures SummedAt(folds[..f + 1], t, swapClasses, k)
            == SummedAt(folds[..f], t, swapClasses, k) + Values(CountsAt(folds[f], t, swapClasses))[k]
  {
    assert folds[..f + 1][..f] == folds[..f];
    PrefixWellFormed(folds, f);
    PrefixWellFormed(folds, f + 1);
  }

  /** Column `k` while fold `f` has been added at the first `i` thresholds only. */
  function PartialColumn(folds: seq<Fold>, f: nat, grid: seq<real>, swapClasses: bool, i: nat, k: nat): seq<nat>
    requires AllWellFormed(folds) && f < |folds| && k < MetricCount
  {
    PrefixWellFormed(folds, f);
    PrefixWellFormed(folds, f + 1);
    seq(|grid|, j requires 0 <= j < |grid| =>
      if j < i then SummedAt(folds[..f + 1], grid[j], swapClasses, k) else SummedAt(folds[..f], grid[j], swapClasses, k))
  }

  /** Before the first fold is added anywhere, the partial column is all zeros. */
  lemma PartialColumnStart(folds: seq<Fold>, grid: seq<real>, swapClasses: bool, k: nat)
    requires AllWellFormed(folds) && 0 < |folds| && k < MetricCount
    ensures PartialColumn(folds, 0, grid, swapClasses, 0, k) == Zeros(|grid|)
  {
    assert folds[..0] == [];
    PrefixWellFormed(folds, 0);
  }

  /** Adding fold `f`'s value at threshold `i` to the partial column advances it by one threshold. */
  lemma PartialColumnAdvance(folds: seq<Fold>, f: nat, grid: seq<real>, swapClasses: bool, i: nat, k: nat)
    requires AllWellFormed(folds) && f < |folds| && i < |grid| && k < MetricCount
    ensures var col := PartialColumn(folds, f, grid, swapClasses, i, k);
            |col| == |grid| &&
            col[i := col[i] + Values(CountsAt(folds[f], grid[i], swapClasses))[k]]
            == PartialColumn(folds, f, grid, swapClasses, i + 1, k)
  {
    SummedAtStep(folds, f, grid[i], swapClasses, k);
    var col := PartialColumn(folds, f, grid, swapClasses, i, k);
    var after := PartialColumn(folds, f, grid, swapClasses, i + 1, k);
    var v := Values(CountsAt(folds[f], grid[i], swapClasses))[k];
    var bumped := col[i := col[i] + v];
    forall j | 0 <= j < |grid| ensures bumped[j] == after[j] {
      if j == i {
        assert bumped[j] == SummedAt(folds[..f], grid[i], swapClasses, k) + v;
      } else {
        assert bumped[j] == col[j];
      }
    }
    assert bumped == after;
  }

  /** Adding fold `f`'s value at threshold `i` extends the partial column by one threshold. */
  lemma PartialColumnStep(folds: seq<Fold>, f: nat, grid: seq<real>, swapClasses: bool, i: nat, k: nat)
    requires AllWellFormed(folds) && f < |folds| && i < |grid| && k < MetricCount
    ensures var before := if f == 0 && i == 0 then [] else PartialColumn(folds, f, grid, swapClasses, i, k);
            (before == [] || |before| == |grid|) &&
            Bumped(before, |grid|, i, Values(CountsAt(folds[f], grid[i], swapClasses))[k])
            == PartialColumn(folds, f, grid, swapClasses, i + 1, k)
  {
    var col := PartialColumn(folds, f, grid, swapClasses, i, k);
    var v := Values(CountsAt(folds[f], grid[i], swapClasses))[k];
    PartialColumnAdvance(folds, f, grid, swapClasses, i, k);
    if f == 0 && i == 0 {
      PartialColumnStart(folds, grid, swapClasses, k);
      assert Bumped([], |grid|, i, v) == col[i := col[i] + v];
    } else {
      assert Bumped(col, |grid|, i, v) == col[i := col[i] + v];
    }
  }

  /** All eight partial columns advance together by one threshold. */
  lemma ColumnsStep(folds: seq<Fold>, f: nat, grid: seq<real>, swapClasses: bool, i: nat, columns: seq<seq<nat>>)
    requires AllWellFormed(folds) && f < |folds| && i < |grid| && |columns| == MetricCount
    requires forall k :: 0 <= k < MetricCount ==>
               columns[k] == if f == 0 && i == 0 then [] else PartialColumn(folds, f, grid, swapClasses, i, k)
    ensures forall k :: 0 <= k < MetricCount ==>
              (columns[k] == [] || |columns[k]| == |grid|) &&
              Bumped(columns[k], |grid|, i, Values(CountsAt(folds[f], grid[i], swapClasses))[k])
              == PartialColumn(folds, f, grid, swapClasses, i + 1, k)
  {
    forall k | 0 <= k < MetricCount
      ensures (columns[k] == [] || |columns[k]| == |grid|) &&
              Bumped(columns[k], |grid|, i, Values(CountsAt(folds[f], grid[i], swapClasses))[k])
              == PartialColumn(folds, f, grid, swapClasses, i + 1, k)
    {
      PartialColumnStep(folds, f, grid, swapClasses, i, k);
    }
  }

  /**
   * One fold's pass over the grid: at each threshold take the fold's eight
   * values, record the threshold the first time it is seen, and add the values
   * into the columns at the threshold's position.
   */
  method AddFold(folds: seq<Fold>, f: nat, grid: seq<real>, swapClasses: bool,
                 thresholds0: seq<real>, columns0: seq<seq<nat>>)
    returns (thresholds: seq<real>, columns: seq<seq<nat>>)
    requires AllWellFormed(folds) && f < |folds| && StrictlyIncreasing(grid)
    requires thresholds0 == if f == 0 then [] else grid
    requires |columns0| == MetricCount
    requires forall k :: 0 <= k < MetricCount ==>
               columns0[k] == if f == 0 || |grid| == 0 then [] else PartialColumn(folds, f, grid, swapClasses, 0, k)
    ensures thresholds == grid && |columns| == MetricCount
    ensures forall k :: 0 <= k < MetricCount ==>
              columns[k] == if |grid| == 0 then [] else PartialColumn(folds, f, grid, swapClasses, |grid|, k)
  {
    var n := |grid|;
    thresholds, columns := thresholds0, columns0;
    for i := 0 to n
      invariant |columns| == MetricCount
      invariant thresholds == if f == 0 then grid[..i] else grid
      invariant forall k :: 0 <= k < MetricCount ==>
                  columns[k] == if f == 0 && i == 0 then [] else PartialColumn(folds, f, grid, swapClasses, i, k)
    {
      var threshold := grid[i];
      var vals := Values(CountsAt(folds[f], threshold, swapClasses));
      if threshold !in thresholds {
        thresholds := thresholds + [threshold];
      }
      IndexOfInGrid(grid, i, if f == 0 then i + 1 else n);
      assert thresholds == grid[..if f == 0 then i + 1 else n];
      ColumnsStep(folds, f, grid, swapClasses, i, columns);
      columns := AddCounts(columns, thresholds, threshold, vals, n);
    }
    assert grid[..n] == grid;
  }

  /** Runs every fold's pass over the grid; the columns end up holding the fold-summed counts. */
  method AccumulateCounts(folds: seq<Fold>, grid: seq<real>, swapClasses: bool)
    returns (thresholds: seq<real>, columns: seq<seq<nat>>)
    requires AllWellFormed(folds) && StrictlyIncreasing(grid)
    ensures thresholds == if |folds| == 0 then [] else grid
    ensures |columns| == MetricCount
    ensures forall k :: 0 <= k < MetricCount ==>
              columns[k] == if |folds| == 0 || |grid| == 0 then [] else ColumnAt(folds, grid, swapClasses, k)
  {
    thresholds := [];
    columns := [[], [], [], [], [], [], [], []];
    for f := 0 to |folds|
      invariant |columns| == MetricCount
      invariant thresholds == if f == 0 then [] else grid
      invariant AllWellFormed(folds[..f])
      invariant forall k :: 0 <= k < MetricCount ==>
                  columns[k] == if f == 0 || |grid| == 0 then [] else ColumnAt(folds[..f], grid, swapClasses, k)
    {
      PrefixWellFormed(folds, f + 1);
      thresholds, columns := AddFold(folds, f, grid, swapClasses, thresholds, columns);
    }
    assert folds[..|folds|] == folds;
  }

  /** The four ratio columns of the result. */
  datatype Ratios = Ratios(pTrain: seq<Option<real>>, pTest: seq<Option<real>>,
                           rTrain: seq<Option<real>>, rTest: seq<Option<real>>)

  /** Row by row, `num[j] / (num[j] + other[j])`. */
  function RatioColumn(num: seq<nat>, other: seq<nat>, n: nat): (col: seq<Option<real>>)
    requires n <= |num| && n <= |other|
  {
    seq(n, j requires 0 <= j < n => Ratio(num[j], num[j] + other[j]))
  }

  /**
   * For each of the `n` grid rows, reads the row of the count table (which has
   * `rows` rows) and appends p = tp / (tp + fp) and r = tp / (tp + fn) for the
   * train and the test split. Reading a row the table lacks fails.
   */
  method DeriveRatios(columns: seq<seq<nat>>, rows: nat, n: nat) returns (r: Result<Ratios, SweepError>)
    requires |columns| == MetricCount
    requires forall k :: 0 <= k < MetricCount ==> |columns[k]| == rows
    ensures r.Failure? <==> rows < n
    ensures r.Success? ==> r.value == Ratios(
              RatioColumn(columns[Rank(TpTrain)], columns[Rank(FpTrain)], n),
              RatioColumn(columns[Rank(TpTest)], columns[Rank(FpTest)], n),
              RatioColumn(columns[Rank(TpTrain)], columns[Rank(FnTrain)], n),
              RatioColumn(columns[Rank(TpTest)], columns[Rank(FnTest)], n))
  {
    var pTrain, pTest, rTrain, rTest := [], [], [], [];
    for i := 0 to n
      invariant i <= rows
      invariant pTrain == RatioColumn(columns[0], columns[2], i)
      invariant pTest == RatioColumn(columns[1], columns[3], i)
      invariant rTrain == RatioColumn(columns[0], columns[6], i)
      invariant rTest == RatioColumn(columns[1], columns[7], i)
    {
      if i >= rows {
        return Failure(RowOutOfRange(i));
      }
      var tpTrain, tpTest := columns[0][i], columns[1][i];
      var fpTrain, fpTest := columns[2][i], columns[3][i];
      var fnTrain, fnTest := columns[6][i], columns[7][i];
      RatioColumnStep(columns[0], columns[2], i);
      RatioColumnStep(columns[1], columns[3], i);
      RatioColumnStep(columns[0], columns[6], i);
      RatioColumnStep(columns[1], columns[7], i);
      pTrain := pTrain + [Ratio(tpTrain, tpTrain + fpTrain)];
      pTest := pTest + [Ratio(tpTest, tpTest + fpTest)];
      rTrain := rTrain + [Ratio(tpTrain, tpTrain + fnTrain)];
      rTest := rTest + [Ratio(tpTest, tpTest + fnTest)];
    }
    return Success(Ratios(pTrain, pTest, rTrain, rTest));
  }

  /** The ratio `num / (num + other)` of fold-summed counts at every grid threshold. */
  function RatioCurve(folds: seq<Fold>, grid: seq<real>, swapClasses: bool, num: Metric, other: Metric): (col: seq<Option<real>>)
    requires AllWellFormed(folds)
  {
    seq(|grid|, j requires 0 <= j < |grid| => RatioAt(folds, grid[j], swapClasses, num, other))
  }

  /** The ratio column derived from two summed count columns is the ratio curve of those counts. */
  lemma RatioOfColumns(folds: seq<Fold>, grid: seq<real>, swapClasses: bool, num: Metric, other: Metric)
    requires AllWellFormed(folds)
    ensures RatioColumn(ColumnAt(folds, grid, swapClasses, Rank(num)), ColumnAt(folds, grid, swapClasses, Rank(other)), |grid|)
            == RatioCurve(folds, grid, swapClasses, num, other)
  {
  }

  /**
   * The sweep: accumulate the fold-summed counts per threshold (exchanged when
   * `swapClasses` holds), then derive, row by row, p = tp / (tp + fp) and
   * r = tp / (tp + fn) for the train and the test split.
   */
  method PrecisionRecallCurveData(folds: seq<Fold>, grid: seq<real>, swapClasses: bool)
    returns (r: Result<CurveTable, SweepError>)
    requires AllWellFormed(folds)
    requires StrictlyIncreasing(grid)
    ensures r.Failure? <==> |folds| == 0 && |grid| > 0
    ensures r.Success? ==> r.value.thresholds == grid
    ensures r.Success? ==> |r.value.counts| == MetricCount
    ensures r.Success? ==> forall m :: r.value.counts[Rank(m)] == ColumnAt(folds, grid, swapClasses, Rank(m))
    ensures r.Success? ==> r.value.ratios == Ratios(
              RatioCurve(folds, grid, swapClasses, TpTrain, FpTrain),
              RatioCurve(folds, grid, swapClasses, TpTest, FpTest),
              RatioCurve(folds, grid, swapClasses, TpTrain, FnTrain),
              RatioCurve(folds, grid, swapClasses, TpTest, FnTest))
  {
    var thresholds, columns := AccumulateCounts(folds, grid, swapClasses);
    var ratios := DeriveRatios(columns, |thresholds|, |grid|);
    if ratios.Failure? {
      return Failure(ratios.error);
    }
    forall m ensures columns[Rank(m)] == ColumnAt(folds, grid, swapClasses, Rank(m)) {
      if |grid| == 0 {
        assert ColumnAt(folds, grid, swapClasses, Rank(m)) == [];
      }
    }
    RatioOfColumns(folds, grid, swapClasses, TpTrain, FpTrain);
    RatioOfColumns(folds, grid, swapClasses, TpTest, FpTest);
    RatioOfColumns(folds, grid, swapClasses, TpTrain, FnTrain);
    RatioOfColumns(folds, grid, swapClasses, TpTest, FnTest);
    return Success(CurveTable(thresholds, columns, ratios.value));
  }
}
