/**
 * The rule-based assistant `chatbot_response(message, user, transactions)`:
 * the message is lower-cased, keyword rules are tried in a fixed order and the
 * first that fires builds the reply from the user's transactions.
 */
module Chatbot {
  import opened Text
  import opened Dispatch
  import opened Ledger

  datatype Topic = Greeting | TotalExpense | TotalIncome | Savings | LastTransaction | MonthlySummary | Help | Unrecognised

  /** The keyword rules, in the order the code tries them. */
  const Rules: seq<Rule<Topic>> := [
    Rule(["hello", "hi", "hey"], Greeting),
    Rule(["total expense", "spent"], TotalExpense),
    Rule(["income"], TotalIncome),
    Rule(["saving", "left"], Savings),
    Rule(["last transaction", "recent"], LastTransaction),
    Rule(["month", "monthly", "this month"], MonthlySummary),
    Rule(["help"], Help)
  ]

  /** Python's text conversions the replies use: `f"{x:.2f}"`, `str(amount)`, `str(date)`. */
  datatype Formatter = Formatter(fixed2: real -> string, amount: real -> string, date: Date -> string)

  const GreetingReply: string := "Hello! How can I assist you with your finances today?"
  const NoTransactionsReply: string := "You have no transactions yet."
  const HelpReply: string :=
    "You can ask things like:\n- 'What is my total expense?'\n- 'How much did I save?'\n- 'What is my income?'\n" +
    "- 'Show my last transaction'\n- 'Monthly expenses'\n- 'Hello'\n"
  const DefaultReply: string := "I'm not sure I understood that. Try asking about expenses, income, or savings."

  /** The `if` chain on the lower-cased message. */
  function TopicOf(msg: string): Topic {
    if Contains(msg, "hello") || Contains(msg, "hi") || Contains(msg, "hey") then Greeting
    else if Contains(msg, "total expense") || Contains(msg, "spent") then TotalExpense
    else if Contains(msg, "income") then TotalIncome
    else if Contains(msg, "saving") || Contains(msg, "left") then Savings
    else if Contains(msg, "last transaction") || Contains(msg, "recent") then LastTransaction
    else if Contains(msg, "month") || Contains(msg, "monthly") || Contains(msg, "this month") then MonthlySummary
    else if Contains(msg, "help") then Help
    else Unrecognised
  }

  /** The transaction `order_by("-date").first()` returns: one with the latest date. */
  function Latest(ts: seq<Transaction>): (t: Transaction)
    requires ts != []
    ensures t in ts
    ensures forall i :: 0 <= i < |ts| ==> DateLe(ts[i].date, t.date)
  {
    if |ts| == 1 then ts[0]
    else
      var rest := Latest(ts[1..]);
      if DateLe(rest.date, ts[0].date) then ts[0] else rest
  }

  function ExpenseTotal(ts: seq<Transaction>): real { SumWhere(ts, InCategory("expense")) }
  function IncomeTotal(ts: seq<Transaction>): real { SumWhere(ts, InCategory("income")) }

  /** Expenses whose month is today's month, in any year. */
  function MonthlyExpenses(ts: seq<Transaction>, today: Date): real { SumWhere(ts, ExpenseInMonth(today.month)) }

  /** `chatbot_response`; `today` stands for `datetime.date.today()`. */
  function ChatbotResponse(message: string, ts: seq<Transaction>, today: Date, fmt: Formatter): (reply: string)
    ensures TopicOf(Lower(message)) == Greeting ==> reply == GreetingReply
    ensures TopicOf(Lower(message)) == Unrecognised ==> reply == DefaultReply
    ensures TopicOf(Lower(message)) == LastTransaction && ts == [] ==> reply == NoTransactionsReply
  {
    var msg := Lower(message);
    match TopicOf(msg)
    case Greeting => GreetingReply
    case TotalExpense => "You have spent a total of ₹" + fmt.fixed2(ExpenseTotal(ts)) + " so far."
    case TotalIncome => "Your total income recorded is ₹" + fmt.fixed2(IncomeTotal(ts)) + "."
    case Savings => "You currently have ₹" + fmt.fixed2(IncomeTotal(ts) - ExpenseTotal(ts)) + " as savings."
    case LastTransaction =>
      if ts == [] then NoTransactionsReply
      else
        var last := Latest(ts);
        "Your last transaction was " + last.category + " of ₹" + fmt.amount(last.amount) + " on " + fmt.date(last.date) + "."
    case MonthlySummary => "This month's total expenses are ₹" + fmt.fixed2(MonthlyExpenses(ts, today)) + "."
    case Help => HelpReply
    case Unrecognised => DefaultReply
  }

  /** Each rule of the table fires exactly when one of its `in` tests in the chain holds. */
  lemma RulesFire(msg: string)
    ensures Fires(Rules[0], msg) == (Contains(msg, "hello") || Contains(msg, "hi") || Contains(msg, "hey"))
    ensures Fires(Rules[1], msg) == (Contains(msg, "total expense") || Contains(msg, "spent"))
    ensures Fires(Rules[2], msg) == Contains(msg, "income")
    ensures Fires(Rules[3], msg) == (Contains(msg, "saving") || Contains(msg, "left"))
    ensures Fires(Rules[4], msg) == (Contains(msg, "last transaction") || Contains(msg, "recent"))
    ensures Fires(Rules[5], msg) == (Contains(msg, "month") || Contains(msg, "monthly") || Contains(msg, "this month"))
    ensures Fires(Rules[6], msg) == Contains(msg, "help")
  {
    ContainsAnyOfThree(msg, "hello", "hi", "hey");
    ContainsAnyOfTwo(msg, "total expense", "spent");
    ContainsAnyOfOne(msg, "income");
    ContainsAnyOfTwo(msg, "saving", "left");
    ContainsAnyOfTwo(msg, "last transaction", "recent");
    ContainsAnyOfThree(msg, "month", "monthly", "this month");
    ContainsAnyOfOne(msg, "help");
  }

  /** The `if` chain is the first match over the rule table. */
  lemma TopicIsFirstMatch(msg: string)
    ensures TopicOf(msg) == FirstMatch(Rules, msg, Unrecognised)
  {
    RulesFire(msg);
    var k := FirstFiring(Rules, msg);
    assert |Rules| == 7;
    if k < 7 {
      assert Fires(Rules[k], msg);
    }
  }

  /** Replies do not depend on letter case: the message and its lower-cased form get the same reply. */
  lemma CaseInsensitive(message: string, ts: seq<Transaction>, today: Date, fmt: Formatter)
    ensures ChatbotResponse(Lower(message), ts, today, fmt) == ChatbotResponse(message, ts, today, fmt)
  {
    LowerIdempotent(message);
  }

  /** The greeting rule comes first: any message containing "hi", such as "this month", is greeted. */
  lemma GreetingShadowsOtherRules(ts: seq<Transaction>, today: Date, fmt: Formatter)
    ensures ChatbotResponse("How much did I spend this month?", ts, today, fmt) == GreetingReply
  {
    var msg := Lower("How much did I spend this month?");
    LowerOfQuestion();
    assert OccursAt(msg, "hi", 22);
    ContainsIffOccurs(msg, "hi");
  }

  /** The question of the greeting example, lower-cased. */
  lemma LowerOfQuestion()
    ensures Lower("How much did I spend this month?") == "how much did i spend this month?"
  {
  }

  /** The expense rule precedes the income rule: a message naming both gets the expense total. */
  lemma ExpenseBeforeIncome(message: string, ts: seq<Transaction>, today: Date, fmt: Formatter)
    requires TopicOf(Lower(message)) != Greeting
    requires Contains(Lower(message), "spent") && Contains(Lower(message), "income")
    ensures ChatbotResponse(message, ts, today, fmt) == "You have spent a total of ₹" + fmt.fixed2(ExpenseTotal(ts)) + " so far."
  {
  }

  /** The savings reply reports income minus expenses, whatever their sizes. */
  lemma SavingsReply(message: string, ts: seq<Transaction>, today: Date, fmt: Formatter)
    requires TopicOf(Lower(message)) == Savings
    ensures ChatbotResponse(message, ts, today, fmt) ==
              "You currently have ₹" + fmt.fixed2(IncomeTotal(ts) - ExpenseTotal(ts)) + " as savings."
  {
  }

  /** Every expense-total question reports the sum of exactly the amounts whose category is "expense". */
  lemma ExpenseReply(message: string, ts: seq<Transaction>, today: Date, fmt: Formatter)
    requires TopicOf(Lower(message)) == TotalExpense
    ensures ChatbotResponse(message, ts, today, fmt) ==
              "You have spent a total of ₹" + fmt.fixed2(Sum(ExpenseAmounts(ts))) + " so far."
  {
    ExpenseAmountsSum(ts);
  }

  /** Every income question reports the sum of the amounts whose category is "income". */
  lemma IncomeReply(message: string, ts: seq<Transaction>, today: Date, fmt: Formatter)
    requires TopicOf(Lower(message)) == TotalIncome
    ensures ChatbotResponse(message, ts, today, fmt) ==
              "Your total income recorded is ₹" + fmt.fixed2(SumWhere(ts, InCategory("income"))) + "."
  {
  }

  /** With transactions present, the last-transaction question reports one with the latest date. */
  lemma LastTransactionReply(message: string, ts: seq<Transaction>, today: Date, fmt: Formatter)
    requires TopicOf(Lower(message)) == LastTransaction && ts != []
    ensures exists t :: t in ts && (forall i :: 0 <= i < |ts| ==> DateLe(ts[i].date, t.date)) &&
              ChatbotResponse(message, ts, today, fmt) ==
              "Your last transaction was " + t.category + " of ₹" + fmt.amount(t.amount) + " on " + fmt.date(t.date) + "."
  {
    var t := Latest(ts);
    assert t in ts && forall i :: 0 <= i < |ts| ==> DateLe(ts[i].date, t.date);
  }

  /** Every monthly question reports the expenses dated in today's month. */
  lemma MonthlyReply(message: string, ts: seq<Transaction>, today: Date, fmt: Formatter)
    requires TopicOf(Lower(message)) == MonthlySummary
    ensures ChatbotResponse(message, ts, today, fmt) ==
              "This month's total expenses are ₹" + fmt.fixed2(SumWhere(ts, ExpenseInMonth(today.month))) + "."
  {
  }

  /** A help question gets the fixed list of example questions, whatever the transactions. */
  lemma HelpTopicReply(message: string, ts: seq<Transaction>, today: Date, fmt: Formatter)
    requires TopicOf(Lower(message)) == Help
    ensures ChatbotResponse(message, ts, today, fmt) == HelpReply
  {
  }

  /** Savings go negative when expenses exceed income: one expense of 5 and no income report -5. */
  lemma SavingsMayBeNegative(d: Date, today: Date, fmt: Formatter)
    ensures ChatbotResponse("left", [Transaction("expense", 5.0, d)], today, fmt) ==
              "You currently have ₹" + fmt.fixed2(-5.0) + " as savings."
  {
    var ts := [Transaction("expense", 5.0, d)];
    LoneExpenseTotals(d);
    LeftAsksForSavings();
    SavingsReply("left", ts, today, fmt);
  }

  /** One expense of 5: no income and 5 of expenses. */
  lemma LoneExpenseTotals(d: Date)
    ensures IncomeTotal([Transaction("expense", 5.0, d)]) == 0.0
    ensures ExpenseTotal([Transaction("expense", 5.0, d)]) == 5.0
  {
    var ts := [Transaction("expense", 5.0, d)];
    assert ts[..|ts| - 1] == [];
    assert !Selects(InCategory("income"), ts[0]) && Selects(InCategory("expense"), ts[0]);
    assert SumWhere(ts, InCategory("income")) == SumWhere([], InCategory("income")) == 0.0;
    assert SumWhere(ts, InCategory("expense")) == SumWhere([], InCategory("expense")) + 5.0;
  }

  /** "left" asks for the savings: it holds none of the earlier rules' keywords. */
  lemma LeftAsksForSavings()
    ensures TopicOf(Lower("left")) == Savings
  {
    var msg := Lower("left");
    assert msg == "left";
    assert OccursAt(msg, "left", 0);
    ContainsIffOccurs(msg, "left");
    forall pat | pat in ["hello", "hi", "hey", "total expense", "spent", "income"]
      ensures !Contains(msg, pat)
    {
      if Contains(msg, pat) {
        ContainsNeedsRoom(msg, pat);
      }
    }
  }

  /** The monthly total compares months only: an expense from any year in today's month is counted. */
  lemma MonthlyTotalIgnoresYear(ts: seq<Transaction>, today: Date, year: int, day: int, amount: real)
    ensures MonthlyExpenses(ts + [Transaction("expense", amount, Date(year, today.month, day))], today) ==
            MonthlyExpenses(ts, today) + amount
  {
    var t := Transaction("expense", amount, Date(year, today.month, day));
    assert (ts + [t])[..|ts + [t]| - 1] == ts;
  }
}
