/**
 * Hyperparameter values read from the command line arrive as strings. The
 * conversion step hands a string to Python's literal evaluator when it looks
 * like an unsigned integer or decimal, or is the word `None`, and keeps every
 * other string as it is.
 */
module Params {

  /** One converted hyperparameter: either sent to the literal evaluator or kept as text. */
  datatype Param = Evaluated(text: string) | Kept(text: string)

  predicate IsDigit(c: char) {
    '0' <= c <= '9'
  }

  predicate AllDigits(s: string) {
    forall i :: 0 <= i < |s| ==> IsDigit(s[i])
  }

  /** A non-empty run of ASCII digits. */
  predicate IsDigits(s: string) {
    |s| > 0 && AllDigits(s)
  }

  /** `s` with its first `.` deleted; `s` itself when it has none. */
  function RemoveFirstDot(s: string): (r: string)
    ensures '.' !in s ==> r == s
    ensures '.' in s ==> |r| == |s| - 1
  {
    if |s| == 0 then s
    else if s[0] == '.' then s[1..]
    else [s[0]] + RemoveFirstDot(s[1..])
  }

  /** The position of the first `.` in `s`. */
  function FirstDot(s: string): (k: nat)
    requires '.' in s
    ensures k < |s| && s[k] == '.' && '.' !in s[..k]
  {
    if s[0] == '.' then 0
    else
      assert s[1..][..FirstDot(s[1..])] == s[1..1 + FirstDot(s[1..])];
      assert s[..1 + FirstDot(s[1..])] == [s[0]] + s[1..1 + FirstDot(s[1..])];
      1 + FirstDot(s[1..])
  }

  /** Deleting the first dot splices out exactly the character at its position. */
  lemma {:induction false} RemoveFirstDotSplices(s: string, k: nat)
    requires k < |s| && s[k] == '.' && '.' !in s[..k]
    ensures RemoveFirstDot(s) == s[..k] + s[k + 1..]
    decreases k
  {
    if k > 0 {
      assert s[0] in s[..k];
      var tail := s[1..];
      var before := tail[..k - 1];
      assert before == s[1..k];
      assert '.' !in before by {
        forall i | 0 <= i < |before| ensures before[i] != '.' {
          assert before[i] == s[..k][i + 1];
        }
      }
      RemoveFirstDotSplices(tail, k - 1);
      assert s[..k] == [s[0]] + s[1..k];
      assert tail[k..] == s[k + 1..];
    }
  }


  /** A dot with digits on both sides of it. */
  predicate DotBetweenDigits(s: string, k: int) {
    0 <= k < |s| && s[k] == '.' && AllDigits(s[..k]) && AllDigits(s[k + 1..])
  }

  /**
   * An unsigned numeral: digits, or digits on either side of a single dot with
   * at least one digit overall (`12`, `1.5`, `.5`, `5.`).
   */
  predicate UnsignedNumeral(s: string) {
    IsDigits(s) || (|s| > 1 && exists k :: 0 <= k < |s| && DotBetweenDigits(s, k))
  }

  /** Two runs of characters joined are all digits exactly when each run is. */
  lemma AllDigitsJoin(front: string, back: string)
    ensures AllDigits(front + back) <==> AllDigits(front) && AllDigits(back)
  {
    var joined := front + back;
    if AllDigits(front) && AllDigits(back) {
      forall i | 0 <= i < |joined| ensures IsDigit(joined[i]) {
        if i >= |front| {
          assert joined[i] == back[i - |front|];
        }
      }
    }
    if AllDigits(joined) {
      forall i | 0 <= i < |back| ensures IsDigit(back[i]) {
        assert joined[|front| + i] == back[i];
      }
      forall i | 0 <= i < |front| ensures IsDigit(front[i]) {
        assert joined[i] == front[i];
      }
    }
  }

  /** A dot with digits on both sides is the only dot. */
  lemma OnlyDot(s: string, j: int, k: int)
    requires DotBetweenDigits(s, j) && 0 <= k < |s| && s[k] == '.'
    ensures j == k
  {
  }

  /** Around the first dot, the dot-removal test asks for digits on both sides and one digit at least. */
  lemma FirstDotTest(s: string, k: nat)
    requires k < |s| && s[k] == '.' && '.' !in s[..k]
    ensures IsDigits(RemoveFirstDot(s)) <==> |s| > 1 && DotBetweenDigits(s, k)
  {
    RemoveFirstDotSplices(s, k);
    AllDigitsJoin(s[..k], s[k + 1..]);
  }

  /** The dot-removal test accepts exactly the unsigned numerals. */
  lemma DotRemovalAcceptsNumerals(s: string)
    ensures IsDigits(RemoveFirstDot(s)) <==> UnsignedNumeral(s)
  {
    if '.' in s {
      var k := FirstDot(s);
      FirstDotTest(s, k);
      assert !IsDigits(s) by {
        assert !IsDigit(s[k]);
      }
      if j :| 0 <= j < |s| && DotBetweenDigits(s, j) {
        OnlyDot(s, j, k);
      }
    }
  }

  /**
   * Whether the conversion sends `s` to the literal evaluator: the digit test
   * after deleting the first dot, or the word `None`. That is exactly the
   * unsigned numerals and `None`.
   */
  predicate SentToLiteralEval(s: string): (sent: bool)
    ensures sent <==> UnsignedNumeral(s) || s == "None"
  {
    DotRemovalAcceptsNumerals(s);
    IsDigits(RemoveFirstDot(s)) || s == "None"
  }

  /** Sample strings the conversion sends to the evaluator. */
  lemma AcceptedExamples()
    ensures SentToLiteralEval("15") && SentToLiteralEval("1.5") && SentToLiteralEval(".5")
    ensures SentToLiteralEval("None")
  {
    assert RemoveFirstDot("1.5") == "15";
    assert RemoveFirstDot(".5") == "5";
  }

  /** Sample strings the conversion keeps as text. */
  lemma RejectedExamples()
    ensures !SentToLiteralEval("") && !SentToLiteralEval(".") && !SentToLiteralEval("1.2.3")
    ensures !SentToLiteralEval("-1") && !SentToLiteralEval("gini")
  {
    assert RemoveFirstDot(".") == "";
    DotRemovalAcceptsNumerals("1.2.3");
    assert !IsDigits("1.2.3");
    forall j | DotBetweenDigits("1.2.3", j) ensures false {
      OnlyDot("1.2.3", j, 1);
      OnlyDot("1.2.3", j, 3);
    }
    assert !IsDigit("-1"[0]);
    assert !IsDigit("gini"[0]);
  }

  /**
   * Converts each hyperparameter string in order: element `k` of the result
   * carries the `k`-th input and is marked evaluated exactly when the input
   * is sent to the literal evaluator.
   */
  method ParamTypeConversion(params: seq<string>) returns (p: seq<Param>)
    ensures |p| == |params|
    ensures forall k :: 0 <= k < |params| ==> p[k].text == params[k]
    ensures forall k :: 0 <= k < |params| ==> (p[k].Evaluated? <==> SentToLiteralEval(params[k]))
  {
    p := [];
    for i := 0 to |params|
      invariant |p| == i
      invariant forall k :: 0 <= k < i ==> p[k].text == params[k]
      invariant forall k :: 0 <= k < i ==> (p[k].Evaluated? <==> SentToLiteralEval(params[k]))
    {
      var param := params[i];
      if IsDigits(RemoveFirstDot(param)) || param == "None" {
        p := p + [Evaluated(param)];
      } else {
        p := p + [Kept(param)];
      }
    }
  }
}
