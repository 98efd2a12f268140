/** Password reset by security questions: which of the four answers match and the 3-of-4 rule. */
module Security {
  import opened Wrappers
  import opened Records
  import JsString

  /** `answers[k]`, with a missing element read as the falsy `undefined` (here `""`). */
  function AnswerAt(answers: seq<string>, k: nat): string {
    if k < |answers| then answers[k] else ""
  }

  /** How an answer is normalised before comparison: `toLowerCase().trim()`. */
  function Normalise(s: string): string {
    JsString.Trim(JsString.ToLower(s))
  }

  /**
   * One flag per question: a falsy answer never matches; school and pet
   * compare normalised; the plan compares as typed; the deposit compares
   * `parseInt` values, and `NaN` equals nothing.
   */
  function AnswerChecks(answers: seq<string>, sq: SecurityAnswers): (c: seq<bool>)
    ensures |c| == 4
  {
    var a0, a1, a2, a3 := AnswerAt(answers, 0), AnswerAt(answers, 1), AnswerAt(answers, 2), AnswerAt(answers, 3);
    var deposit := JsString.ParseInt(a3);
    [ a0 != "" && Normalise(a0) == sq.school,
      a1 != "" && Normalise(a1) == sq.pet,
      a2 != "" && a2 == sq.plan,
      a3 != "" && deposit.Some? && sq.firstDeposit.Some? && deposit.value == sq.firstDeposit.value ]
  }

  /** `filter(Boolean).length`. */
  function CountTrue(c: seq<bool>): (n: nat)
    ensures n <= |c|
  {
    if c == [] then 0 else (if c[0] then 1 else 0) + CountTrue(c[1..])
  }

  /** The reset goes ahead when `correctCount >= 3`. */
  predicate ResetAllowed(answers: seq<string>, sq: SecurityAnswers) {
    CountTrue(AnswerChecks(answers, sq)) >= 3
  }

  /** At least three of four flags hold exactly when no two of them fail. */
  lemma ThreeOfFourMeansAtMostOneWrong(c: seq<bool>)
    requires |c| == 4
    ensures CountTrue(c) >= 3 <==> forall a, b :: 0 <= a < b < 4 ==> c[a] || c[b]
  {
    assert CountTrue(c[3..]) == (if c[3] then 1 else 0) by { assert c[3..][1..] == []; }
    assert CountTrue(c[2..]) == (if c[2] then 1 else 0) + CountTrue(c[3..]) by { assert c[2..][1..] == c[3..]; }
    assert CountTrue(c[1..]) == (if c[1] then 1 else 0) + CountTrue(c[2..]) by { assert c[1..][1..] == c[2..]; }
  }

  /** A first deposit that did not parse at registration can never be matched. */
  lemma UnparsedDepositNeverMatches(answers: seq<string>, sq: SecurityAnswers)
    requires sq.firstDeposit.None?
    ensures !AnswerChecks(answers, sq)[3]
  {
  }

  /** No answers at all never allow a reset. */
  lemma NoAnswersNeverReset(sq: SecurityAnswers)
    ensures !ResetAllowed([], sq)
  {
    var c := AnswerChecks([], sq);
    assert c == [false, false, false, false];
    ThreeOfFourMeansAtMostOneWrong(c);
    assert !(c[0] || c[1]);
  }
}
