/**
 * Transactions as the Python code reads them (`category`, `amount`, `date`) and
 * the generator-expression sums taken over them.
 */
module Ledger {
  import opened Text

  datatype Date = Date(year: int, month: int, day: int)

  /** Calendar order on dates. */
  predicate DateLe(a: Date, b: Date) {
    a.year < b.year || (a.year == b.year && (a.month < b.month || (a.month == b.month && a.day <= b.day)))
  }

  datatype Transaction = Transaction(category: string, amount: real, date: Date)

  /** The filters the sums use. */
  datatype Selector =
    | InCategory(category: string)             // `category == c`, as a Python test or an exact ORM filter
    | InCategoryIgnoringCase(category: string) // the ORM's `category__iexact=c`
    | ExpenseInMonth(month: int)               // `category == "expense" and date.month == m`

  predicate Selects(sel: Selector, t: Transaction) {
    match sel
    case InCategory(c) => t.category == c
    case InCategoryIgnoringCase(c) => Lower(t.category) == Lower(c)
    case ExpenseInMonth(m) => t.category == "expense" && t.date.month == m
  }

  /** `sum(t.amount for t in ts if <sel>)`, added left to right from 0. */
  function SumWhere(ts: seq<Transaction>, sel: Selector): real {
    if ts == [] then 0.0
    else SumWhere(ts[..|ts| - 1], sel) + (if Selects(sel, ts[|ts| - 1]) then ts[|ts| - 1].amount else 0.0)
  }

  /** A sum over two runs of transactions is the sum of the two sums. */
  lemma {:induction false} SumWhereAppend(a: seq<Transaction>, b: seq<Transaction>, sel: Selector)
    ensures SumWhere(a + b, sel) == SumWhere(a, sel) + SumWhere(b, sel)
  {
    if b == [] {
      assert a + b == a;
    } else {
      assert (a + b)[..|a + b| - 1] == a + b[..|b| - 1];
      SumWhereAppend(a, b[..|b| - 1], sel);
    }
  }

  /** Transactions the selector rejects add nothing. */
  lemma {:induction false} SumWhereOfUnselected(ts: seq<Transaction>, sel: Selector)
    requires forall i :: 0 <= i < |ts| ==> !Selects(sel, ts[i])
    ensures SumWhere(ts, sel) == 0.0
  {
    if ts != [] {
      SumWhereOfUnselected(ts[..|ts| - 1], sel);
    }
  }

  /** The positions of the expense transactions. */
  ghost function ExpensePositions(ts: seq<Transaction>): set<int> {
    set i | 0 <= i < |ts| && ts[i].category == "expense"
  }

  /** The amounts of the expense transactions, in the order given (`[float(t.amount) for t in expenses]`). */
  function ExpenseAmounts(ts: seq<Transaction>): (amounts: seq<real>)
    ensures |amounts| <= |ts|
    ensures (forall i :: 0 <= i < |ts| ==> ts[i].category == "expense") ==> amounts == seq(|ts|, i requires 0 <= i < |ts| => ts[i].amount)
    ensures (forall i :: 0 <= i < |ts| ==> ts[i].category != "expense") ==> amounts == []
  {
    if ts == [] then []
    else ExpenseAmounts(ts[..|ts| - 1]) + (if ts[|ts| - 1].category == "expense" then [ts[|ts| - 1].amount] else [])
  }

  /** There is one amount per expense transaction. */
  lemma {:induction false} ExpenseAmountsCount(ts: seq<Transaction>)
    ensures |ExpenseAmounts(ts)| == |ExpensePositions(ts)|
  {
    if ts != [] {
      var n := |ts| - 1;
      ExpenseAmountsCount(ts[..n]);
      PositionsOfLast(ts);
    }
  }

  /** The last transaction adds its own position, and only when it is an expense. */
  lemma PositionsOfLast(ts: seq<Transaction>)
    requires ts != []
    ensures var n := |ts| - 1;
            ts[n].category == "expense" ==> |ExpensePositions(ts)| == |ExpensePositions(ts[..n])| + 1
    ensures var n := |ts| - 1;
            ts[n].category != "expense" ==> ExpensePositions(ts) == ExpensePositions(ts[..n])
  {
    var n := |ts| - 1;
    var prefix := ts[..n];
    assert ExpensePositions(prefix) == set i | 0 <= i < n && ts[i].category == "expense";
    if ts[n].category == "expense" {
      assert ExpensePositions(ts) == ExpensePositions(prefix) + {n};
    }
  }

  /** Expense amounts of two runs are the first run's amounts followed by the second's: the order is kept. */
  lemma {:induction false} ExpenseAmountsAppend(a: seq<Transaction>, b: seq<Transaction>)
    ensures ExpenseAmounts(a + b) == ExpenseAmounts(a) + ExpenseAmounts(b)
  {
    if b == [] {
      assert a + b == a;
    } else {
      assert (a + b)[..|a + b| - 1] == a + b[..|b| - 1];
      ExpenseAmountsAppend(a, b[..|b| - 1]);
    }
  }

  /** `sum(xs)`, added left to right from 0. */
  function Sum(xs: seq<real>): real {
    if xs == [] then 0.0 else Sum(xs[..|xs| - 1]) + xs[|xs| - 1]
  }

  /** The expense amounts add up to the expense total. */
  lemma {:induction false} ExpenseAmountsSum(ts: seq<Transaction>)
    ensures Sum(ExpenseAmounts(ts)) == SumWhere(ts, InCategory("expense"))
  {
    if ts != [] {
      var n := |ts| - 1;
      ExpenseAmountsSum(ts[..n]);
      var xs := ExpenseAmounts(ts);
      if ts[n].category == "expense" {
        assert xs[..|xs| - 1] == ExpenseAmounts(ts[..n]);
      } else {
        assert xs == ExpenseAmounts(ts[..n]);
      }
    }
  }
}
