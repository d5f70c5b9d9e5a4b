# MPScore evaluation core, modelled in Dafny

MPScore (the Materials Precursor Score) rates how easy a molecule is to make.
It turns each molecule into a Morgan fingerprint and feeds that to a random
forest classifier. Around the classifier, `scripts/mpscore.py` has four
self-contained pieces of integer and string logic, and this project models and
proves them:

- **The count overlay in `get_fingerprint_as_bit_counts`.** It turns a 0/1
  Morgan bit list into a count vector. Each bit named in the hasher's info map
  is overwritten with the number of atom environments that set it
  (`Fingerprint.dfy`, a method over an `array`).
- **The global confusion tally in `MPScore.cross_validate`.** It concatenates
  the held-out predictions and labels of every fold, then walks them once,
  incrementing `tps`, `fns`, `tns` and `fps` (`CrossValidation.dfy`).
- **The threshold sweep in `MPScore.get_precision_recall_curve_data`.**
  - For each fold and each threshold of a grid, a sample is predicted 1 when its
    class-1 probability is at least the threshold.
  - It counts eight quantities (tp/fp/tn/fn on the train and test splits), with
    an optional class exchange.
  - It adds each fold's counts into one column per quantity, indexed by
    threshold position.
  - It then derives the four ratio columns `p_train`, `p_test`, `r_train` and
    `r_test`.
  - The pure counting is in `ThresholdSweep.dfy`, alongside the imperative
    accumulation (`AddCounts`, `AddFold`, `AccumulateCounts`, `DeriveRatios`,
    `PrecisionRecallCurveData`). Properties of the specification functions are
    in `SweepProperties.dfy`.
- **`param_type_conversion`.** It decides which command-line hyperparameter
  strings are handed to Python's literal evaluator (`Params.dfy`).

`Confusion.dfy` holds the label/prediction counting that the tally and the
sweep share. `Wrappers.dfy` holds `Option` and `Result`.

Modelling conventions:
- Python exceptions become `Failure` results:
  - an `IndexError` in the overlay or the tally;
  - the row lookup of an empty table in the sweep.
- Every zero denominator of a ratio is `0/0`, because a denominator of the
  form `num + other` is zero only when the numerator is zero as well. numpy
  turns that into `nan` with a warning by default, and the model represents it
  as `None`.
- Probabilities, thresholds and ratios are Dafny `real`s, i.e. exact rationals.
- Per fold, the sweep takes:
  - the class-1 probability column of `predict_proba` for each split;
  - the labels of each split.
- The grid `np.linspace(0, 1, 100)` is modelled as any strictly increasing
  sequence of thresholds.
- Two preconditions stand for facts the libraries guarantee:
  - `predict_proba` returns one row per sample (`WellFormed`);
  - `linspace` yields distinct increasing values (`StrictlyIncreasing`).

About the sweep in particular:
- It predicts 1 when `prob[1] >= threshold` (lines 395 and 398).
- Fold counts are summed into one running total per threshold (lines 469-472).
- No error bands are derived.

## Model

| member | source | states |
|---|---|---|
| Fingerprint.BitCounts | scripts/mpscore.py:57-59 | The overlay fails exactly when some mapped bit lies outside the bit list (Python's `IndexError`). Otherwise it keeps the length, sets every mapped bit to the number of its activators, and leaves every other bit as it was. |
| Confusion.CountWhere | scripts/mpscore.py:410-449 | The number of positions with a given label whose prediction agrees (or disagrees) with it is at most the number of predictions. |
| Confusion.LabelCount | scripts/mpscore.py:167-183 | The number of samples with a given label is at most the number of samples. |
| Confusion.AgreeOrDisagree | scripts/mpscore.py:172-183 | For one label, the agreeing count plus the disagreeing count is the number of samples with that label. |
| Confusion.BinaryClassesCover | scripts/mpscore.py:172-183 | With labels in {0,1}, the label-0 and label-1 counts add up to the number of samples. |
| Confusion.FourCountsCover | scripts/mpscore.py:172-183 | With labels in {0,1}, the four agree/disagree counts of the two labels add up to the number of predictions. |
| Confusion.AgreeingOnesDominated | scripts/mpscore.py:410-419 | If every sample predicted 1 under one prediction list is predicted 1 under a second, the second has at least as many label-1 samples predicted 1. |
| Confusion.OnesDominated | scripts/mpscore.py:394-399 | If every 1 of one prediction list is a 1 of a second, the second has at least as many 1s. |
| Confusion.PredictedOnesSplit | scripts/mpscore.py:410-449 | With binary labels and predictions, the number predicted 1 is the number of label-1 samples predicted 1 plus the number of label-0 samples predicted 1. |
| CrossValidation.CombineHeldOut | scripts/mpscore.py:165-166 | Extending fold by fold yields the concatenation of all held-out predictions, and of all held-out labels, in fold order. |
| CrossValidation.TallyConfusion | scripts/mpscore.py:167-183 | The tally fails, at the first missing index, exactly when there are fewer labels than predictions. Otherwise each counter is the number of samples with its label whose prediction agrees or disagrees with the label, as each counter's name says. |
| CrossValidation.TotalsPartition | scripts/mpscore.py:167-183 | With labels in {0,1}, the four counters add up to the number of predictions. `tps + fns` is the number of label-1 samples, and `tns + fps` the number of label-0 samples. |
| CrossValidation.AlignedCombineEqually | scripts/mpscore.py:159-166 | When every fold has one prediction per label, the combined lists have equal length. |
| CrossValidation.CrossValidationTotals | scripts/mpscore.py:159-199 | The tally fails exactly when the combined labels are fewer than the combined predictions, and folds with matching prediction and label counts never make it fail. Otherwise each counter is its agree/disagree count over the combined lists. With binary labels the counters add up to the combined sample count, `tps + fns` counts the label-1 samples, and `tns + fps` counts the label-0 samples. |
| ThresholdSweep.Predict | scripts/mpscore.py:394-399 | One class per sample, 1 exactly when its class-1 probability is at least the threshold; every prediction is 0 or 1. |
| ThresholdSweep.SplitCounts | scripts/mpscore.py:410-449 | The four generator sums of one split, under the source's names. Whatever the threshold, `tp + fp` is the number of label-1 samples and `tn + fn` the number of label-0 samples. |
| ThresholdSweep.Swap | scripts/mpscore.py:450-454 | The class exchange keeps the total of the four counts. Under the source's naming, where label-1 samples are counted by `tp + fp` and label-0 samples by `tn + fn`, it turns the label-0 counts into the label-1 counts and the reverse. |
| ThresholdSweep.SwapTwice | scripts/mpscore.py:450-454 | Exchanging the classes twice restores the original counts. |
| ThresholdSweep.CountsAt | scripts/mpscore.py:410-454 | One fold's eight counts at a threshold, exchanged when `swap_classes` is set. Without the exchange `tp + fp` counts label-1 samples and `tn + fn` label-0 samples, in each split. With it, the roles of the labels are reversed. |
| ThresholdSweep.Rank | scripts/mpscore.py:400-409 | Each of the eight metric names has a position among the eight columns. |
| ThresholdSweep.Values | scripts/mpscore.py:457-468 | A fold's counts at one threshold form a list of exactly eight values. |
| ThresholdSweep.SummedCountStep | scripts/mpscore.py:385-472 | The fold-summed count of a metric is the sum over all folds but the last, plus the last fold's count. |
| ThresholdSweep.Ratio | scripts/mpscore.py:477-488 | A ratio is undefined exactly when its denominator is zero. |
| ThresholdSweep.RatioScales | scripts/mpscore.py:477-488 | A defined ratio multiplied by its denominator gives its numerator. |
| ThresholdSweep.RatioColumnStep | scripts/mpscore.py:474-488 | Each row read from the table appends that row's ratio to the ratio column. |
| ThresholdSweep.IndexOf | scripts/mpscore.py:469 | The position found is the first position of the threshold in the list. |
| ThresholdSweep.Zeros | scripts/mpscore.py:470-471 | A fresh metric column has one zero per grid threshold. |
| ThresholdSweep.Bumped | scripts/mpscore.py:470-472 | Updating a column, whether already allocated or not yet, leaves one entry per grid threshold. |
| ThresholdSweep.AddCounts | scripts/mpscore.py:457-472 | After one threshold's update, each of the eight columns is its old value, allocated to zeros if still empty, with the fold's count added at the threshold's first position in the list. |
| ThresholdSweep.IndexOfInGrid | scripts/mpscore.py:455-469 | On a strictly increasing grid, looking up the i-th threshold in the thresholds recorded so far finds position i. |
| ThresholdSweep.PrefixWellFormed | scripts/mpscore.py:385-391 | Any leading run of well-formed folds is well-formed. |
| ThresholdSweep.SummedAtStep | scripts/mpscore.py:385-472 | Adding one more fold adds that fold's count to every running total. |
| ThresholdSweep.PartialColumnStart | scripts/mpscore.py:470-471 | Before the first fold is added anywhere, a column is all zeros. |
| ThresholdSweep.PartialColumnAdvance | scripts/mpscore.py:469-472 | Adding the fold's count at position i of a partially updated column advances it to position i+1. |
| ThresholdSweep.PartialColumnStep | scripts/mpscore.py:469-472 | Midway through a fold, one threshold's update moves the column from "this fold added below position i" to "added below position i+1". |
| ThresholdSweep.ColumnsStep | scripts/mpscore.py:457-472 | One threshold's update advances all eight partially summed columns together by one position. |
| ThresholdSweep.AddFold | scripts/mpscore.py:392-472 | After one fold, the thresholds list is the grid. Every column holds, at each grid position, the sum over the folds so far of that metric at that threshold. |
| ThresholdSweep.AccumulateCounts | scripts/mpscore.py:380-472 | After all folds, the thresholds list is the grid, each threshold once and in grid order; with no folds it is empty. Each column has one entry per threshold, equal to the fold-summed count at that threshold. |
| ThresholdSweep.DeriveRatios | scripts/mpscore.py:473-488 | Deriving the ratios fails exactly when the table has fewer rows than the grid. Otherwise the four ratio columns are, entry by entry, tp/(tp+fp) and tp/(tp+fn) for train and test. |
| ThresholdSweep.RatioOfColumns | scripts/mpscore.py:474-488 | Ratios of the fold-summed columns are, per threshold, the ratios of the fold-summed counts. |
| ThresholdSweep.PrecisionRecallCurveData | scripts/mpscore.py:377-489 | With no folds and a non-empty grid the sweep fails. Otherwise it returns the grid as thresholds and eight count columns, each entry the fold-summed count at its threshold. `p_train`, `p_test`, `r_train` and `r_test` are the per-threshold ratios of those sums. |
| SweepProperties.LabelsBinaryPrefix | scripts/mpscore.py:385-387 | Any leading run of folds with 0/1 labels has 0/1 labels. |
| SweepProperties.PredictAtThreshold | scripts/mpscore.py:394-399 | A sample is predicted 1 exactly when its class-1 probability is at least the threshold, and 0 exactly when it is below it. |
| SweepProperties.PredictedOnesMonotone | scripts/mpscore.py:394-399 | Raising the threshold never increases the number of samples predicted 1. |
| SweepProperties.TruePositivesMonotone | scripts/mpscore.py:394-419 | Raising the threshold never increases `tp` on a split. |
| SweepProperties.SummedTruePositivesMonotone | scripts/mpscore.py:410-472 | Without the class exchange, raising the threshold never increases the fold-summed `tp_test`. |
| SweepProperties.ZeroThresholdPredictsAll | scripts/mpscore.py:394-399 | At threshold 0 every sample with a non-negative probability is predicted 1. |
| SweepProperties.SplitPartition | scripts/mpscore.py:410-449 | With binary labels, one split's four counts at a threshold add up to its size. `tp + fp` is its label-1 count, and `tn + fn` its label-0 count. |
| SweepProperties.FoldPartition | scripts/mpscore.py:410-454 | With binary labels, for one fold and threshold, with or without the class exchange, the four train counts add up to the train size and the four test counts to the test size. |
| SweepProperties.SummedTestPartition | scripts/mpscore.py:410-472 | With binary labels, summed over folds, the four test counts at any threshold add up to the total test size. |
| SweepProperties.SummedTrainPartition | scripts/mpscore.py:410-472 | With binary labels, summed over folds, the four train counts at any threshold add up to the total train size. |
| SweepProperties.RatioInUnitInterval | scripts/mpscore.py:477-488 | `a/(a+b)` is undefined exactly when `a + b` is zero, and otherwise lies in [0,1]. |
| SweepProperties.RatioMonotone | scripts/mpscore.py:477-488 | Over a fixed non-zero denominator, a smaller count gives a smaller ratio. |
| SweepProperties.CurveRatiosInUnitInterval | scripts/mpscore.py:474-488 | Each ratio of fold-summed counts is undefined exactly when its denominator is zero, and otherwise lies in [0,1]. |
| SweepProperties.PredictBinary | scripts/mpscore.py:394-399 | Every prediction is 0 or 1. |
| SweepProperties.SweptPrecisionIsRecall | scripts/mpscore.py:420-449 | With binary labels, as written and without the exchange, the denominator of `p_test` is the number of label-1 test samples. The denominator of `r_test` is the number of test samples predicted 1. |
| SweepProperties.FoldPredictedPositives | scripts/mpscore.py:415-449 | Without the exchange, one fold's test `tp + fn` is the number of its test samples predicted 1. |
| SweepProperties.SummedTestPositives | scripts/mpscore.py:420-449 | Without the exchange and for any labels, the fold-summed test `tp + fp` is the number of label-1 test samples at every threshold. |
| SweepProperties.SweptPrecisionNonIncreasing | scripts/mpscore.py:480-482 | As written and without the exchange, `p_test` never grows as the threshold rises, as a recall does. |
| SweepProperties.SweptRatiosExample | scripts/mpscore.py:415-429 | For one fold with test labels [1, 0], both samples at probability 0.9, and threshold 0.5, the sweep reports `p_test` 1 and `r_test` 1/2. Of the 2 predicted positives, 1 has label 1. |
| SweepProperties.StandardCountsMeaning | scripts/mpscore.py:410-449 | With binary labels, counting fp as label-0 predicted 1 and fn as label-1 predicted 0: `tp + fp` is the number predicted 1 and `tp + fn` the number of label-1 samples. These counts are the source's with fp and fn exchanged. |
| SweepProperties.StandardRecallNonIncreasing | scripts/mpscore.py:483-488 | With standard counts, recall `tp/(tp+fn)` is defined whenever a label-1 sample exists, and never grows as the threshold rises. |
| Params.RemoveFirstDot | scripts/mpscore.py:648 | Without a dot the string is unchanged. With one or more, the result is one character shorter. |
| Params.FirstDot | scripts/mpscore.py:648 | The position found holds a dot, and no dot comes before it. |
| Params.RemoveFirstDotSplices | scripts/mpscore.py:648 | Deleting the first dot removes exactly the character at its position and keeps the rest in order. |
| Params.AllDigitsJoin | scripts/mpscore.py:648 | A joined string is all digits exactly when both parts are. |
| Params.FirstDotTest | scripts/mpscore.py:648 | The digit test after removing the first dot holds exactly when there are digits on both sides of that dot and at least two characters. |
| Params.DotRemovalAcceptsNumerals | scripts/mpscore.py:648 | The digit test after removing the first dot accepts exactly the unsigned numerals. An unsigned numeral is a run of digits, or digits around a single dot with at least one digit, e.g. `12`, `1.5`, `.5`, `5.`. |
| Params.SentToLiteralEval | scripts/mpscore.py:648 | The line-648 condition: the digit test after deleting the first dot, or the word `None`. It holds exactly when the string is an unsigned numeral or `None`. |
| Params.AcceptedExamples | scripts/mpscore.py:648-649 | `15`, `1.5`, `.5` and `None` go to the literal evaluator. |
| Params.RejectedExamples | scripts/mpscore.py:648-651 | The empty string, `.`, `1.2.3`, `-1` and `gini` are kept as text. |
| Params.ParamTypeConversion | scripts/mpscore.py:645-652 | The result has one entry per input, in order, carrying the input string. An entry is marked evaluated exactly when its string goes to the literal evaluator; otherwise it is kept unchanged. |

## Left out

- RDKit is not part of this model. The Morgan hasher, hydrogen addition and molecule parsing are foreign calls; the bit list and activator map they produce are inputs of `Fingerprint.BitCounts`.
- Fingerprint.BitCounts: Python walks the info map in insertion order; the model handles keys in an unspecified order. It therefore only says that some out-of-range bit is reported, not which one.
- CrossValidation.CrossValidationTotals: its failure describes the tally (scripts/mpscore.py:167-183) alone. In the source, a fold whose prediction and label counts differ already makes the per-fold metric calls (scripts/mpscore.py:162-164) raise before the tally runs; those metric calls are not part of this model.
- The `return_info` option of `get_fingerprint_as_bit_counts` is not modelled, because it only returns the hasher's activator map, which is an input of `Fingerprint.BitCounts` here.
- scikit-learn is not part of this model:
  - model fitting, `predict` and `predict_proba`;
  - calibration;
  - `KFold` and `train_test_split`;
  - the per-fold metric functions and `confusion_matrix` in `cross_validate`.
  Per-fold predictions, labels and probabilities are inputs.
- The mean and standard deviation of the per-fold scores, and the printed report in `cross_validate`, are not modelled. They are floating-point aggregation and output.
- Floating point is not modelled:
  - probabilities and thresholds are exact reals;
  - the `np.linspace(0, 1, 100)` grid is any strictly increasing grid;
  - `round(..., 3)` on the ratios is not applied, because it has no exact counterpart;
  - `nan` is represented as `None`.
- Hyperparameter strings are not evaluated. Python's literal evaluator is not part of this model, so only the decision to send a string to it is modelled. That evaluator would reject some strings the digit test lets through, such as `007`.
- Params.ParamTypeConversion: its digit test accepts ASCII digits only. Python's `str.isdigit` also accepts other Unicode digits, so the model keeps some strings as text that the source would send to the evaluator.
- The thin prediction wrappers `predict`, `predict_proba` and `get_score_from_smiles` (scripts/mpscore.py:262-300) call the fingerprint and the foreign model and are not modelled. Line 297 passes the bit length as the fingerprint radius there.
- Constructor parameter handling (scripts/mpscore.py:90-99) is not modelled. It pops the fingerprint settings and hands the rest to scikit-learn.
- Plotting (calibration, precision-recall and feature-importance figures) is not modelled; it is presentation only. Neither are model persistence, data loading or `main`; they are I/O.

## Findings

| source | as written | input that shows it | evidently intended | confidence | as-written member | corrected member |
|---|---|---|---|---|---|---|
| scripts/mpscore.py:420-449, 477-488 | `fp_*` counts label-1 samples predicted 0 and `fn_*` counts label-0 samples predicted 1. So `p_* = tp/(tp+fp)` is the recall of class 1 and `r_* = tp/(tp+fn)` its precision. The precision-recall plot nevertheless shows `p_test` as precision and `r_test` as recall. | One fold, test labels [1, 0], both test probabilities 0.9, threshold 0.5: `p_test` = 1 and `r_test` = 1/2. The true precision is 1/2 (one of two predicted positives) and the true recall 1. | fp = label 0 predicted 1 and fn = label 1 predicted 0. Precision is then tp over the predicted positives, and recall is tp over the actual positives, which never grows with the threshold. | not executed | SweepProperties.SweptPrecisionIsRecall, SweepProperties.SweptRatiosExample | SweepProperties.StandardCountsMeaning, SweepProperties.StandardRecallNonIncreasing |

The sweep itself (`ThresholdSweep.PrecisionRecallCurveData`) keeps the
source's naming, because its columns are what the function returns. The
standard counts (`SweepProperties.StandardCounts`) are the corrected reading.
