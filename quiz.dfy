/**
 * The parts of the quiz controller that are plain expressions: the expected
 * answers, the judgement of the three answer fields, the hint chosen for a
 * number and the drawing of a fresh number.
 */
module Quiz {
  import opened Wrappers
  import opened JsNumbers

  /** The three numbers that follow n. */
  function Expected(n: int): (e: seq<int>)
    ensures |e| == 3
    ensures forall i :: 0 <= i < 3 ==> e[i] == n + i + 1
  {
    [n + 1, n + 2, n + 3]
  }

  /** `values.some(isNaN)`: some field holds no number. */
  function AnyMissing(values: seq<Option<int>>): (b: bool)
    ensures b <==> exists i :: 0 <= i < |values| && values[i].None?
  {
    if values == [] then false
    else values[0].None? || (assert forall i :: 0 <= i < |values| - 1 ==> values[1..][i] == values[i + 1];
                             AnyMissing(values[1..]))
  }

  /** `values.every((value, index) => value === expected[index])`. */
  function AllMatch(values: seq<Option<int>>, expected: seq<int>): (b: bool)
    requires |values| == |expected|
    ensures b <==> forall i :: 0 <= i < |values| ==> values[i] == Some(expected[i])
  {
    if values == [] then true
    else values[0] == Some(expected[0]) && AllMatch(values[1..], expected[1..])
  }

  /**
   * The positions, from `from` on and in increasing order, at which a field
   * differs from its expected value: the `map` to index-or-minus-one followed
   * by the `filter` that drops the minus ones.
   */
  function MismatchesFrom(values: seq<Option<int>>, expected: seq<int>, from: nat): (r: seq<nat>)
    requires |values| == |expected| && from <= |values|
    ensures forall k: nat :: k in r <==> from <= k < |values| && values[k] != Some(expected[k])
    ensures forall a, b :: 0 <= a < b < |r| ==> r[a] < r[b]
    ensures r == [] ==> forall k :: from <= k < |values| ==> values[k] == Some(expected[k])
    decreases |values| - from
  {
    if from == |values| then []
    else
      var rest := MismatchesFrom(values, expected, from + 1);
      forall b | 0 <= b < |rest|
        ensures rest[b] > from
      {
        assert rest[b] in rest;
      }
      if values[from] != Some(expected[from]) then [from] + rest else rest
  }

  /** What checking the answers leads to. */
  datatype Verdict =
    | MissingInput                 // some field is empty: nothing else happens
    | Correct                      // the three numbers that follow the current one
    | Incorrect(wrong: seq<nat>)   // the fields to highlight, in order

  /** The outcome of `checkAnswers` for the three fields and the current number n. */
  function Judge(values: seq<Option<int>>, n: int): (v: Verdict)
    requires |values| == 3
    ensures v.MissingInput? <==> exists i :: 0 <= i < 3 && values[i].None?
    ensures v.Correct? <==> forall i :: 0 <= i < 3 ==> values[i] == Some(n + i + 1)
    ensures v.Incorrect? ==> forall i :: 0 <= i < 3 ==> values[i].Some?
    ensures v.Incorrect? ==> v.wrong != []
    ensures v.Incorrect? ==> forall k: nat :: k in v.wrong <==> k < 3 && values[k] != Some(n + k + 1)
  {
    var expected := Expected(n);
    if AnyMissing(values) then MissingInput
    else if AllMatch(values, expected) then Correct
    else Incorrect(MismatchesFrom(values, expected, 0))
  }

  /** The three numbers after n, typed in order, are accepted. */
  lemma NextThreeAreCorrect(n: int)
    ensures Judge([Some(n + 1), Some(n + 2), Some(n + 3)], n) == Correct
  {
  }

  /** The three kinds of hint `showHint` gives for the current number. */
  datatype Hint =
    | NextTens(after: int)                   // n ends in 9: the count crosses a tens boundary
    | JustStarted(at: int)                   // n ends in 0
    | CountUp(after: int, next: seq<int>)    // otherwise: the three numbers are spelled out

  /** The choice of hint, by `n % 10` as JavaScript computes it. */
  function HintFor(n: int): (h: Hint)
    ensures h.NextTens? <==> JsRemainder10(n) == 9
    ensures h.JustStarted? <==> JsRemainder10(n) == 0
    ensures h.CountUp? <==> JsRemainder10(n) != 9 && JsRemainder10(n) != 0
    ensures h.CountUp? ==> h.after == n && h.next == Expected(n)
    ensures h.NextTens? ==> h.after == n
    ensures h.JustStarted? ==> h.at == n
  {
    var d := JsRemainder10(n);
    if d == 9 then NextTens(n)
    else if d == 0 then JustStarted(n)
    else CountUp(n, Expected(n))
  }

  /**
   * The hint follows the last digit of the number as it is displayed: the tens
   * hint exactly for non-negative numbers ending in 9 (a negative number has a
   * remainder of -9 in JavaScript), the fresh-start hint exactly for numbers
   * ending in 0.
   */
  lemma HintFollowsLastDigit(n: int)
    ensures var s := Decimal(n);
      && (HintFor(n).NextTens? <==> n >= 0 && s[|s| - 1] == '9')
      && (HintFor(n).JustStarted? <==> s[|s| - 1] == '0')
  {
    var s := Decimal(n);
    assert s[|s| - 1] == DigitChar(Abs(n) % 10);
    if n < 0 {
      assert JsRemainder10(n) == -((-n) % 10);
    }
  }

  // The verifier does not look far into a long string literal, so each lead
  // phrase is written as its first word and the rest: the first letter of a
  // hint, which tells the three forms apart, is then within its reach.
  const TensLead := "Think" + " about moving to the next tens place after "
  const TensTail := "..."
  const StartLead := "We" + " just started at "
  const StartTail := ", what are the next three numbers?"
  const CountLead := "After" + " "
  const CountTail := ", count up three numbers: "
  const Separator := ", "

  /** The text of a hint, with the numbers written as a template literal writes them. */
  function HintText(h: Hint): (s: string)
    requires h.CountUp? ==> |h.next| == 3
    ensures |s| > 0
    ensures s[0] == (match h case NextTens(_) => 'T' case JustStarted(_) => 'W' case CountUp(_, _) => 'A')
  {
    match h
    case NextTens(n) => TensLead + (Decimal(n) + TensTail)
    case JustStarted(n) => StartLead + (Decimal(n) + StartTail)
    case CountUp(n, next) =>
      CountLead + (Decimal(n) + CountList(next[0], next[1], next[2]))
  }

  /** The part of the counting hint after the current number. */
  function CountList(a: int, b: int, c: int): (s: string)
    ensures |s| > 0 && s[0] == ','
  {
    CountTail + Decimal(a) + Separator + Decimal(b) + Separator + Decimal(c)
  }

  /**
   * `showHint`: the text displayed for the current number. The three forms
   * start differently, so the text tells which branch was taken.
   */
  function ShowHint(n: int): (s: string)
    ensures |s| > 0
    ensures s[0] == 'T' <==> JsRemainder10(n) == 9
    ensures s[0] == 'W' <==> JsRemainder10(n) == 0
    ensures s[0] == 'A' <==> JsRemainder10(n) != 9 && JsRemainder10(n) != 0
  {
    HintText(HintFor(n))
  }

  /** Different numbers get different hint texts: the text names its number. */
  lemma ShowHintInjective(a: int, b: int)
    requires ShowHint(a) == ShowHint(b)
    ensures a == b
  {
    var s := ShowHint(a);
    if JsRemainder10(a) == 9 {
      assert s[|TensLead|..] == Decimal(a) + TensTail == Decimal(b) + TensTail;
      DecimalPrefix(a, b, TensTail, TensTail);
    } else if JsRemainder10(a) == 0 {
      assert s[|StartLead|..] == Decimal(a) + StartTail == Decimal(b) + StartTail;
      DecimalPrefix(a, b, StartTail, StartTail);
    } else {
      var ta, tb := CountList(a + 1, a + 2, a + 3), CountList(b + 1, b + 2, b + 3);
      assert s[|CountLead|..] == Decimal(a) + ta == Decimal(b) + tb;
      DecimalPrefix(a, b, ta, tb);
    }
  }

  const Lowest := 11
  const Choices := 89

  /** `Math.floor(u * 89) + 11` for a draw u of `Math.random()`. */
  function DrawNumber(u: real): (n: int)
    requires 0.0 <= u < 1.0
    ensures Lowest <= n <= Lowest + Choices - 1
  {
    (u * Choices as real).Floor + Lowest
  }

  /**
   * Each number of [11, 99] is drawn for exactly the draws in an interval of
   * width 1/89, so the draw is uniform over the range.
   */
  lemma DrawPreimage(u: real, n: int)
    requires 0.0 <= u < 1.0
    ensures DrawNumber(u) == n <==> (n - Lowest) as real / Choices as real <= u < (n - Lowest + 1) as real / Choices as real
  {
  }
}
