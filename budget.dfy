/**
 * The budget record of one session: a deposit, the list of expenses and the
 * remaining amount, as the `Expense` and `BudgetData` types declare them.
 * Amounts are exact reals; the JavaScript numbers they stand for are doubles.
 */
module Budget {
  import opened Wrappers

  datatype Priority = High | Medium | Low

  /** The `priorityOrder` table shared by every sort: high 3, medium 2, low 1. */
  function Rank(p: Priority): (r: nat)
    ensures 1 <= r <= 3
    ensures r == 3 <==> p == High
    ensures r == 1 <==> p == Low
  {
    match p
    case High => 3
    case Medium => 2
    case Low => 1
  }

  datatype Expense = Expense(
    id: string,
    name: string,
    category: string,
    plannedAmount: real,
    allocatedAmount: real,
    actualAmount: real,
    dueDate: string,
    priority: Priority)

  datatype BudgetData = BudgetData(totalDeposit: real, expenses: seq<Expense>, remainingAmount: real)

  /** The record a session starts with, and the one logout restores. */
  const EmptyBudget: BudgetData := BudgetData(0.0, [], 0.0)

  /** The three amounts an expense carries. */
  datatype Measure = Planned | Allocated | Actual

  function Amount(e: Expense, m: Measure): real
  {
    match m
    case Planned => e.plannedAmount
    case Allocated => e.allocatedAmount
    case Actual => e.actualAmount
  }

  /** `es.reduce((sum, e) => sum + e[m], 0)`, folded from the left as JavaScript does. */
  function Total(es: seq<Expense>, m: Measure): real
  {
    if es == [] then 0.0 else Total(es[..|es| - 1], m) + Amount(es[|es| - 1], m)
  }

  lemma {:induction false} TotalAppend(a: seq<Expense>, b: seq<Expense>, m: Measure)
    ensures Total(a + b, m) == Total(a, m) + Total(b, m)
    decreases |b|
  {
    if b == [] {
      assert a + b == a;
    } else {
      assert (a + b)[..|a + b| - 1] == a + b[..|b| - 1];
      TotalAppend(a, b[..|b| - 1], m);
    }
  }

  lemma {:induction false} TotalNonNegative(es: seq<Expense>, m: Measure)
    requires forall e :: e in es ==> Amount(e, m) >= 0.0
    ensures Total(es, m) >= 0.0
    decreases |es|
  {
    if es != [] {
      assert es[|es| - 1] in es;
      TotalNonNegative(es[..|es| - 1], m);
    }
  }

  /** Extending a prefix by one expense adds that expense's amount. */
  lemma PrefixTotalSnoc(es: seq<Expense>, m: Measure, i: nat)
    requires i < |es|
    ensures Total(es[..i + 1], m) == Total(es[..i], m) + Amount(es[i], m)
  {
    assert es[..i + 1][..i] == es[..i];
  }

  /** Totals over longer prefixes are no smaller when no amount is negative. */
  lemma PrefixTotalMonotone(es: seq<Expense>, m: Measure, i: nat, j: nat)
    requires i <= j <= |es|
    requires forall e :: e in es ==> Amount(e, m) >= 0.0
    ensures Total(es[..i], m) <= Total(es[..j], m)
  {
    assert es[..j] == es[..i] + es[i..j];
    TotalAppend(es[..i], es[i..j], m);
    TotalNonNegative(es[i..j], m);
  }

  lemma {:induction false} TotalOfZeros(es: seq<Expense>, m: Measure)
    requires forall i :: 0 <= i < |es| ==> Amount(es[i], m) == 0.0
    ensures Total(es, m) == 0.0
    decreases |es|
  {
    if es != [] {
      TotalOfZeros(es[..|es| - 1], m);
    }
  }

  /** Two lists whose amounts agree position by position have the same total. */
  lemma {:induction false} TotalPointwise(a: seq<Expense>, ma: Measure, b: seq<Expense>, mb: Measure)
    requires |a| == |b|
    requires forall i :: 0 <= i < |a| ==> Amount(a[i], ma) == Amount(b[i], mb)
    ensures Total(a, ma) == Total(b, mb)
    decreases |a|
  {
    if a != [] {
      TotalPointwise(a[..|a| - 1], ma, b[..|b| - 1], mb);
    }
  }

  /** Changing the amount at one position changes the total by the difference. */
  lemma {:induction false} TotalChangeAt(a: seq<Expense>, b: seq<Expense>, m: Measure, i: nat)
    requires |a| == |b| && i < |a|
    requires forall k :: 0 <= k < |a| && k != i ==> Amount(a[k], m) == Amount(b[k], m)
    ensures Total(b, m) == Total(a, m) - Amount(a[i], m) + Amount(b[i], m)
    decreases |a|
  {
    var n := |a| - 1;
    if i == n {
      TotalPointwise(a[..n], m, b[..n], m);
    } else {
      TotalChangeAt(a[..n], b[..n], m, i);
    }
  }

  /** `es.filter(keep)`: the expenses that pass, in their original order. */
  function Select(es: seq<Expense>, keep: Expense -> bool): (r: seq<Expense>)
    ensures |r| <= |es|
    ensures forall e :: e in r <==> e in es && keep(e)
    decreases |es|
  {
    if es == [] then []
    else
      assert es == es[..|es| - 1] + [es[|es| - 1]];
      var rest := Select(es[..|es| - 1], keep);
      if keep(es[|es| - 1]) then rest + [es[|es| - 1]] else rest
  }

  lemma {:induction false} SelectAppend(a: seq<Expense>, b: seq<Expense>, keep: Expense -> bool)
    ensures Select(a + b, keep) == Select(a, keep) + Select(b, keep)
    decreases |b|
  {
    if b == [] {
      assert a + b == a;
    } else {
      assert (a + b)[..|a + b| - 1] == a + b[..|b| - 1];
      SelectAppend(a, b[..|b| - 1], keep);
    }
  }

  /** What one more expense adds to a filter. */
  lemma SelectSnoc(init: seq<Expense>, last: Expense, keep: Expense -> bool)
    ensures Select(init + [last], keep) == if keep(last) then Select(init, keep) + [last] else Select(init, keep)
  {
    assert (init + [last])[..|init|] == init;
  }

  /** A filter that every expense passes returns the list itself. */
  lemma {:induction false} SelectKeepsAll(es: seq<Expense>, keep: Expense -> bool)
    requires forall k :: 0 <= k < |es| ==> keep(es[k])
    ensures Select(es, keep) == es
    decreases |es|
  {
    if es != [] {
      var init, last := es[..|es| - 1], es[|es| - 1];
      assert es == init + [last];
      SelectKeepsAll(init, keep);
      SelectSnoc(init, last, keep);
    }
  }

  /** A filter and its complement split every total in two. */
  lemma {:induction false} TotalSplitsBySelect(es: seq<Expense>, keep: Expense -> bool, drop: Expense -> bool, m: Measure)
    requires forall e :: drop(e) == !keep(e)
    ensures Total(es, m) == Total(Select(es, keep), m) + Total(Select(es, drop), m)
    decreases |es|
  {
    if es != [] {
      var init, last := es[..|es| - 1], es[|es| - 1];
      TotalSplitsBySelect(init, keep, drop, m);
      if keep(last) {
        assert (Select(init, keep) + [last])[..|Select(init, keep)|] == Select(init, keep);
      } else {
        assert (Select(init, drop) + [last])[..|Select(init, drop)|] == Select(init, drop);
      }
    }
  }

  /** `Number.parseFloat(text) || 0`: a text that is not a number (None) counts as 0. */
  function Coerce(x: Option<real>): real
  {
    match x
    case Some(v) => v
    case None => 0.0
  }

  /** The remaining amount is the deposit minus everything allocated. */
  predicate Balanced(b: BudgetData)
  {
    b.remainingAmount == b.totalDeposit - Total(b.expenses, Allocated)
  }

  /** Two expenses that differ at most in their allocated amount. */
  predicate SameExceptAllocation(e: Expense, f: Expense)
  {
    e.(allocatedAmount := 0.0) == f.(allocatedAmount := 0.0)
  }
}
