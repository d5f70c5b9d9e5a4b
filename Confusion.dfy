/**
 * Counting of labelled predictions. Both the cross-validation tally and the
 * threshold sweep count, over the positions of a prediction list, the samples
 * whose actual label is a given class and whose prediction agrees (or does not
 * agree) with that label; this module defines that count once.
 */
module Confusion {

  /** Position `i` holds a sample of class `cls` whose prediction agrees with it iff `agree`. */
  predicate Hit(preds: seq<int>, labels: seq<int>, i: nat, cls: int, agree: bool)
    requires i < |preds| <= |labels|
  {
    labels[i] == cls && (labels[i] == preds[i]) == agree
  }

  /**
   * Number of positions i < |preds| that are a Hit. Predictions are walked in
   * order and each looks up the label at the same position, so the labels may
   * be longer than the predictions but not shorter.
   */
  function CountWhere(preds: seq<int>, labels: seq<int>, cls: int, agree: bool): (n: nat)
    requires |preds| <= |labels|
    ensures n <= |preds|
    decreases |preds|
  {
    if |preds| == 0 then 0
    else
      CountWhere(preds[..|preds| - 1], labels, cls, agree)
      + (if Hit(preds, labels, |preds| - 1, cls, agree) then 1 else 0)
  }

  /** Number of entries of `s` equal to `cls`. */
  function LabelCount(s: seq<int>, cls: int): (n: nat)
    ensures n <= |s|
    decreases |s|
  {
    if |s| == 0 then 0
    else LabelCount(s[..|s| - 1], cls) + (if s[|s| - 1] == cls then 1 else 0)
  }

  /** Every label is 0 or 1. */
  predicate Binary(labels: seq<int>)
  {
    forall i :: 0 <= i < |labels| ==> labels[i] == 0 || labels[i] == 1
  }

  /** A prefix of a binary list is binary. */
  lemma BinaryPrefix(s: seq<int>, n: nat)
    requires Binary(s) && n <= |s|
    ensures Binary(s[..n])
  {
    var prefix := s[..n];
    forall i | 0 <= i < |prefix| ensures prefix[i] == 0 || prefix[i] == 1 {
      assert prefix[i] == s[i];
    }
  }

  /** A sample of one class is counted either as agreeing or as disagreeing, never both. */
  lemma {:induction false} AgreeOrDisagree(preds: seq<int>, labels: seq<int>, cls: int)
    requires |preds| <= |labels|
    ensures CountWhere(preds, labels, cls, true) + CountWhere(preds, labels, cls, false)
            == LabelCount(labels[..|preds|], cls)
    decreases |preds|
  {
    if |preds| > 0 {
      var n := |preds|;
      AgreeOrDisagree(preds[..n - 1], labels, cls);
      assert labels[..n][..n - 1] == labels[..n - 1];
    }
  }

  /** With binary labels, the samples of class 0 and of class 1 make up the whole list. */
  lemma {:induction false} BinaryClassesCover(labels: seq<int>)
    requires Binary(labels)
    ensures LabelCount(labels, 0) + LabelCount(labels, 1) == |labels|
    decreases |labels|
  {
    if |labels| > 0 {
      var n := |labels|;
      BinaryPrefix(labels, n - 1);
      BinaryClassesCover(labels[..n - 1]);
    }
  }

  /**
   * The four counts (class 1 agreeing / disagreeing, class 0 agreeing /
   * disagreeing) of a prediction list over binary labels add up to its length.
   */
  lemma FourCountsCover(preds: seq<int>, labels: seq<int>)
    requires |preds| <= |labels|
    requires Binary(labels[..|preds|])
    ensures CountWhere(preds, labels, 1, true) + CountWhere(preds, labels, 1, false)
            + CountWhere(preds, labels, 0, true) + CountWhere(preds, labels, 0, false)
            == |preds|
  {
    AgreeOrDisagree(preds, labels, 1);
    AgreeOrDisagree(preds, labels, 0);
    BinaryClassesCover(labels[..|preds|]);
  }

  /**
   * If every position where `fewer` predicts 1 also has `more` predicting 1,
   * then `fewer` has no more agreeing class-1 samples than `more`.
   */
  lemma {:induction false} AgreeingOnesDominated(fewer: seq<int>, more: seq<int>, labels: seq<int>)
    requires |fewer| == |more| <= |labels|
    requires forall i :: 0 <= i < |fewer| && fewer[i] == 1 ==> more[i] == 1
    ensures CountWhere(fewer, labels, 1, true) <= CountWhere(more, labels, 1, true)
    decreases |fewer|
  {
    if |fewer| > 0 {
      var n := |fewer|;
      AgreeingOnesDominated(fewer[..n - 1], more[..n - 1], labels);
    }
  }

  /** If every 1 of `fewer` is matched by a 1 of `more` at the same position, `fewer` has no more ones. */
  lemma {:induction false} OnesDominated(fewer: seq<int>, more: seq<int>)
    requires |fewer| == |more|
    requires forall i :: 0 <= i < |fewer| && fewer[i] == 1 ==> more[i] == 1
    ensures LabelCount(fewer, 1) <= LabelCount(more, 1)
    decreases |fewer|
  {
    if |fewer| > 0 {
      var n := |fewer|;
      OnesDominated(fewer[..n - 1], more[..n - 1]);
    }
  }

  /**
   * With binary labels and binary predictions, the samples predicted 1 are
   * the label-1 samples predicted 1 and the label-0 samples predicted 1.
   */
  lemma {:induction false} PredictedOnesSplit(preds: seq<int>, labels: seq<int>)
    requires |preds| <= |labels|
    requires Binary(preds) && Binary(labels[..|preds|])
    ensures LabelCount(preds, 1) == CountWhere(preds, labels, 1, true) + CountWhere(preds, labels, 0, false)
    decreases |preds|
  {
    if |preds| > 0 {
      var n := |preds|;
      var init := preds[..n - 1];
      assert labels[..n][n - 1] == labels[n - 1];
      BinaryPrefix(preds, n - 1);
      BinaryPrefix(labels[..n], n - 1);
      assert labels[..n][..n - 1] == labels[..n - 1];
      PredictedOnesSplit(init, labels);
    }
  }
}
