/**
 * The financial health score: the share of income in income plus expenses,
 * as a percentage clamped to [0, 100] and rounded to two places, a status band
 * read off the rounded score, and the advice text for that band.
 */
module FinanceScore {

  const ExcellentAdvice: string := "Keep up your saving habits and consider low-risk investments."
  const GoodAdvice: string := "You’re doing well! Reduce minor unnecessary expenses."
  const AverageAdvice: string := "Try tracking your spending more closely and set a savings goal."
  const ReassessAdvice: string := "Reassess your budget. Consider cutting non-essential expenses."
  const NoDataAdvice: string := "Add income and expenses data."
  /** The text of the `ZeroDivisionError` raised by a float division by zero. */
  const DivisionByZero: string := "float division by zero"

  /** The dictionary returned by the score calculation. */
  datatype ScoreReport = ScoreReport(score: real, status: string, advice: string)

  /**
   * What the model assumes of Python's `round(x, 2)` on [0, 100]: it stays in
   * [0, 100], moves its argument by at most one hundredth and never reverses
   * the order of two arguments.
   */
  ghost predicate IsCentRounding(round2: real -> real) {
    (forall x :: 0.0 <= x <= 100.0 ==> 0.0 <= round2(x) <= 100.0 && x - 0.01 <= round2(x) <= x + 0.01) &&
    (forall x, y :: 0.0 <= x <= y <= 100.0 ==> round2(x) <= round2(y))
  }

  /** The advice for a status; any unknown status gets the "Reassess" text. */
  function GenerateAdvice(status: string): (advice: string)
    ensures advice in {ExcellentAdvice, GoodAdvice, AverageAdvice, ReassessAdvice}
    ensures advice == ReassessAdvice <==> status !in {"Excellent", "Good", "Average"}
  {
    if status == "Excellent" then ExcellentAdvice
    else if status == "Good" then GoodAdvice
    else if status == "Average" then AverageAdvice
    else ReassessAdvice
  }

  function Min(a: real, b: real): real { if a <= b then a else b }
  function Max(a: real, b: real): real { if a >= b then a else b }

  /** `max(0, min(100, x))`. */
  function Clamp(x: real): (r: real)
    ensures 0.0 <= r <= 100.0
    ensures 0.0 <= x <= 100.0 ==> r == x
  {
    Max(0.0, Min(100.0, x))
  }

  /** The status band of a (rounded) score. */
  function StatusOf(score: real): (status: string)
    ensures status in {"Excellent", "Good", "Average", "Poor"}
  {
    if score >= 80.0 then "Excellent"
    else if score >= 60.0 then "Good"
    else if score >= 40.0 then "Average"
    else "Poor"
  }

  /** The order of the bands, worst first. */
  function Rank(status: string): nat {
    if status == "Excellent" then 3
    else if status == "Good" then 2
    else if status == "Average" then 1
    else 0
  }

  /** The unclamped score, `100 * (1 - expenses / (income + expenses))`. */
  function RawScore(income: real, expenses: real): real
    requires income + expenses != 0.0
  {
    100.0 * (1.0 - expenses / (income + expenses))
  }

  /** `calculate_financial_score(income, expenses)`. */
  function CalculateFinancialScore(round2: real -> real, income: real, expenses: real): (r: ScoreReport)
    requires IsCentRounding(round2)
    ensures income <= 0.0 && expenses <= 0.0 ==> r == ScoreReport(0.0, "Poor", NoDataAdvice)
    ensures !(income <= 0.0 && expenses <= 0.0) && income + expenses == 0.0 ==>
              r == ScoreReport(0.0, "Error", DivisionByZero)
    ensures !(income <= 0.0 && expenses <= 0.0) && income + expenses != 0.0 ==>
              0.0 <= r.score <= 100.0 && r.status == StatusOf(r.score) && r.advice == GenerateAdvice(r.status)
    ensures !(income <= 0.0 && expenses <= 0.0) && income + expenses != 0.0 ==>
              r.score == round2(Clamp(100.0 * income / (income + expenses)))
  {
    if income <= 0.0 && expenses <= 0.0 then
      ScoreReport(0.0, "Poor", NoDataAdvice)
    else if income + expenses == 0.0 then
      ScoreReport(0.0, "Error", DivisionByZero)
    else
      ScoreIsIncomeShare(income, expenses);
      var score := round2(Clamp(RawScore(income, expenses)));
      var status := StatusOf(score);
      ScoreReport(score, status, GenerateAdvice(status))
  }

  /** Before clamping, the score is the income share of the total, as a percentage. */
  lemma ScoreIsIncomeShare(income: real, expenses: real)
    requires income + expenses != 0.0
    ensures RawScore(income, expenses) == 100.0 * income / (income + expenses)
  {
    var t := income + expenses;
    assert t / t == 1.0;
    assert (t - expenses) / t == t / t - expenses / t;
    assert t - expenses == income;
  }

  /** Positive income and no expenses score the full hundred: "Excellent". */
  lemma NoExpensesIsExcellent(round2: real -> real, income: real)
    requires IsCentRounding(round2)
    requires income > 0.0
    ensures CalculateFinancialScore(round2, income, 0.0) ==
              ScoreReport(round2(100.0), "Excellent", ExcellentAdvice)
    ensures round2(100.0) >= 99.99
  {
    ScoreIsIncomeShare(income, 0.0);
    assert RawScore(income, 0.0) == 100.0;
  }

  /** Expenses at least as large as a positive income cap the score at 50: never "Good" or better. */
  lemma OverspendingCapsStatus(round2: real -> real, income: real, expenses: real)
    requires IsCentRounding(round2)
    requires expenses >= income > 0.0
    ensures CalculateFinancialScore(round2, income, expenses).score <= 50.01
    ensures CalculateFinancialScore(round2, income, expenses).status in {"Average", "Poor"}
  {
    ScoreIsIncomeShare(income, expenses);
    var t := income + expenses;
    assert income / t <= 0.5 by {
      assert 2.0 * income <= t;
    }
    assert 0.0 <= RawScore(income, expenses) <= 50.0;
  }

  /** A larger unclamped score never gives a worse status band. */
  lemma StatusMonotone(round2: real -> real, i1: real, e1: real, i2: real, e2: real)
    requires IsCentRounding(round2)
    requires i1 + e1 != 0.0 && i2 + e2 != 0.0
    requires !(i1 <= 0.0 && e1 <= 0.0) && !(i2 <= 0.0 && e2 <= 0.0)
    requires RawScore(i1, e1) <= RawScore(i2, e2)
    ensures Rank(CalculateFinancialScore(round2, i1, e1).status) <= Rank(CalculateFinancialScore(round2, i2, e2).status)
    ensures CalculateFinancialScore(round2, i1, e1).score <= CalculateFinancialScore(round2, i2, e2).score
  {
    var c1, c2 := Clamp(RawScore(i1, e1)), Clamp(RawScore(i2, e2));
    assert c1 <= c2;
    assert round2(c1) <= round2(c2);
  }

  /** Income and expenses that cancel out without both being non-positive hit the division error. */
  lemma CancellingTotalsAreAnError(round2: real -> real)
    requires IsCentRounding(round2)
    ensures CalculateFinancialScore(round2, 5.0, -5.0) == ScoreReport(0.0, "Error", DivisionByZero)
  {
  }
}
