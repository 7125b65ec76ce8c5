/**
 * The allocation engine of the Deposits view: setting the deposit, the two
 * allocation policies and clearing allocations. Each operation takes the
 * current record and gives the record that replaces it.
 */
module Deposits {
  import opened Wrappers
  import opened Budget
  import opened PriorityOrder

  /** `updateDeposit`: store the coerced amount and recompute what is left unallocated. */
  function UpdateDeposit(b: BudgetData, amount: Option<real>): (r: BudgetData)
    ensures r.totalDeposit == Coerce(amount)
    ensures r.expenses == b.expenses
    ensures Balanced(r)
  {
    var deposit := Coerce(amount);
    b.(totalDeposit := deposit, remainingAmount := deposit - Total(b.expenses, Allocated))
  }

  /** Every expense gets `planned / totalPlanned * deposit`. */
  function Proportional(es: seq<Expense>, totalPlanned: real, deposit: real): (r: seq<Expense>)
    requires totalPlanned != 0.0
    ensures |r| == |es|
    ensures forall i :: 0 <= i < |es| ==>
      r[i] == es[i].(allocatedAmount := es[i].plannedAmount / totalPlanned * deposit)
  {
    seq(|es|, i requires 0 <= i < |es| => es[i].(allocatedAmount := es[i].plannedAmount / totalPlanned * deposit))
  }

  lemma ShareAdds(p: real, q: real, t: real, d: real)
    requires t != 0.0
    ensures p / t * d + q / t * d == (p + q) / t * d
  {
  }

  lemma ProportionalPrefix(es: seq<Expense>, totalPlanned: real, deposit: real)
    requires totalPlanned != 0.0 && es != []
    ensures Proportional(es, totalPlanned, deposit)[..|es| - 1] == Proportional(es[..|es| - 1], totalPlanned, deposit)
  {
    var init := es[..|es| - 1];
    var whole, part := Proportional(es, totalPlanned, deposit), Proportional(init, totalPlanned, deposit);
    forall k | 0 <= k < |init| ensures whole[k] == part[k] {
      assert init[k] == es[k];
    }
  }

  lemma {:induction false} ProportionalTotal(es: seq<Expense>, totalPlanned: real, deposit: real)
    requires totalPlanned != 0.0
    ensures Total(Proportional(es, totalPlanned, deposit), Allocated) == Total(es, Planned) / totalPlanned * deposit
    decreases |es|
  {
    if es != [] {
      var init := es[..|es| - 1];
      ProportionalPrefix(es, totalPlanned, deposit);
      ProportionalTotal(init, totalPlanned, deposit);
      ShareAdds(Total(init, Planned), es[|es| - 1].plannedAmount, totalPlanned, deposit);
    }
  }

  lemma ShareTimesTotal(p: real, t: real, d: real)
    requires t != 0.0
    ensures p / t * d * t == p * d
  {
  }

  lemma ProportionalRatios(es: seq<Expense>, t: real, d: real)
    requires t != 0.0
    ensures forall i :: 0 <= i < |es| ==> Proportional(es, t, d)[i].allocatedAmount * t == es[i].plannedAmount * d
  {
    var r := Proportional(es, t, d);
    forall i | 0 <= i < |es| ensures r[i].allocatedAmount * t == es[i].plannedAmount * d {
      ShareTimesTotal(es[i].plannedAmount, t, d);
    }
  }

  lemma WholeShare(t: real, d: real)
    requires t != 0.0
    ensures t / t * d == d
  {
  }

  /** What proportional allocation of `d` over `es` gives, with `t` the planned total. */
  lemma ProportionalFacts(es: seq<Expense>, t: real, d: real)
    requires t != 0.0 && t == Total(es, Planned)
    ensures var r := Proportional(es, t, d);
      && (forall i :: 0 <= i < |es| ==> SameExceptAllocation(r[i], es[i]))
      && (forall i :: 0 <= i < |es| ==> r[i].allocatedAmount * t == es[i].plannedAmount * d)
      && Total(r, Allocated) == d
  {
    ProportionalRatios(es, t, d);
    ProportionalTotal(es, t, d);
    WholeShare(t, d);
  }

  /**
   * `allocateProportionally`: nothing happens when the deposit or the planned
   * total is 0; otherwise every expense gets the share of the deposit its
   * planned amount has of the planned total, and nothing remains.
   */
  function AllocateProportionally(b: BudgetData): (r: BudgetData)
    ensures b.totalDeposit == 0.0 || Total(b.expenses, Planned) == 0.0 ==> r == b
    ensures b.totalDeposit != 0.0 && Total(b.expenses, Planned) != 0.0 ==>
      && r.totalDeposit == b.totalDeposit
      && r.remainingAmount == 0.0
      && |r.expenses| == |b.expenses|
      && (forall i :: 0 <= i < |b.expenses| ==> SameExceptAllocation(r.expenses[i], b.expenses[i]))
      && (forall i :: 0 <= i < |b.expenses| ==>
            r.expenses[i].allocatedAmount * Total(b.expenses, Planned) == b.expenses[i].plannedAmount * b.totalDeposit)
      && Total(r.expenses, Allocated) == b.totalDeposit
      && Balanced(r)
  {
    var totalPlanned := Total(b.expenses, Planned);
    if b.totalDeposit == 0.0 || totalPlanned == 0.0 then b
    else
      var r := b.(expenses := Proportional(b.expenses, totalPlanned, b.totalDeposit), remainingAmount := 0.0);
      ProportionalFacts(b.expenses, totalPlanned, b.totalDeposit);
      assert Balanced(r);
      r
  }

  lemma ShareOfPlan(p: real, t: real, d: real)
    requires p != 0.0 && t != 0.0
    ensures p / t * d / p == d / t
  {
    assert p / t * d == p * (d / t);
  }

  /** Two expenses with non-zero planned amounts get the same fraction of their plan, `d / t`. */
  lemma ProportionalRatiosAgree(es: seq<Expense>, t: real, d: real, i: nat, j: nat)
    requires t != 0.0 && i < |es| && j < |es|
    requires es[i].plannedAmount != 0.0 && es[j].plannedAmount != 0.0
    ensures Proportional(es, t, d)[i].allocatedAmount / es[i].plannedAmount == d / t
    ensures Proportional(es, t, d)[i].allocatedAmount / es[i].plannedAmount
         == Proportional(es, t, d)[j].allocatedAmount / es[j].plannedAmount
  {
    ShareOfPlan(es[i].plannedAmount, t, d);
    ShareOfPlan(es[j].plannedAmount, t, d);
  }

  /** The list a priority allocation produces, and the amount it leaves over. */
  datatype Fill = Fill(expenses: seq<Expense>, remaining: real)

  /**
   * One turn of the `forEach` of `allocateByPriority`: an expense that fits in
   * what remains is funded in full and its planned amount is taken off; one
   * that does not gets what remains, and the remainder drops to 0.
   */
  function Step(f: Fill, e: Expense): (g: Fill)
    ensures |g.expenses| == |f.expenses| + 1
    ensures g.expenses[..|f.expenses|] == f.expenses
  {
    var list := f.expenses + [e.(allocatedAmount := if f.remaining >= e.plannedAmount then e.plannedAmount else f.remaining)];
    assert list[..|list| - 1] == f.expenses;
    Fill(list, if f.remaining >= e.plannedAmount then f.remaining - e.plannedAmount else 0.0)
  }

  lemma StepConserves(f: Fill, e: Expense)
    ensures Total(Step(f, e).expenses, Allocated) + Step(f, e).remaining == Total(f.expenses, Allocated) + f.remaining
  {
    var g := Step(f, e);
    assert g.expenses[..|g.expenses| - 1] == f.expenses;
  }

  /** The whole `forEach` over `es`, with the running remainder starting at `deposit`. */
  function Greedy(es: seq<Expense>, deposit: real): (f: Fill)
    ensures |f.expenses| == |es|
    decreases |es|
  {
    if es == [] then Fill([], deposit)
    else Step(Greedy(es[..|es| - 1], deposit), es[|es| - 1])
  }

  /** The allocation changes no other field and keeps the list order. */
  lemma {:induction false} GreedyKeepsExpenses(es: seq<Expense>, deposit: real)
    ensures forall i :: 0 <= i < |es| ==> SameExceptAllocation(Greedy(es, deposit).expenses[i], es[i])
    decreases |es|
  {
    if es != [] {
      GreedyKeepsExpenses(es[..|es| - 1], deposit);
    }
  }

  /** Conservation: what is allocated plus what remains is the deposit, whatever the amounts. */
  lemma {:induction false} GreedyConserves(es: seq<Expense>, deposit: real)
    ensures Total(Greedy(es, deposit).expenses, Allocated) + Greedy(es, deposit).remaining == deposit
    decreases |es|
  {
    if es != [] {
      GreedyConserves(es[..|es| - 1], deposit);
      StepConserves(Greedy(es[..|es| - 1], deposit), es[|es| - 1]);
    }
  }

  lemma GreedyPrefix(es: seq<Expense>, deposit: real, i: nat)
    requires i < |es|
    ensures Greedy(es[..i + 1], deposit) == Step(Greedy(es[..i], deposit), es[i])
  {
    assert es[..i + 1][..i] == es[..i];
  }

  /**
   * The `forEach` of `allocateByPriority`: copies the list into an array and
   * funds the entries in order, carrying the remainder from one to the next.
   */
  method FundInOrder(sorted: seq<Expense>, deposit: real) returns (fill: Fill)
    ensures fill == Greedy(sorted, deposit)
  {
    var remainingAmount := deposit;
    var updated := new Expense[|sorted|](i requires 0 <= i < |sorted| => sorted[i]);
    for i := 0 to updated.Length
      invariant updated[..i] == Greedy(sorted[..i], deposit).expenses
      invariant remainingAmount == Greedy(sorted[..i], deposit).remaining
      invariant forall j :: i <= j < updated.Length ==> updated[j] == sorted[j]
    {
      GreedyPrefix(sorted, deposit, i);
      ghost var before := Fill(updated[..i], remainingAmount);
      var expense := updated[i];
      if remainingAmount >= expense.plannedAmount {
        updated[i] := expense.(allocatedAmount := expense.plannedAmount);
        remainingAmount := remainingAmount - expense.plannedAmount;
      } else {
        updated[i] := expense.(allocatedAmount := remainingAmount);
        remainingAmount := 0.0;
      }
      assert updated[..i + 1] == before.expenses + [updated[i]];
      assert Fill(updated[..i + 1], remainingAmount) == Step(before, expense);
    }
    assert sorted[..updated.Length] == sorted;
    fill := Fill(updated[..], remainingAmount);
  }

  /**
   * `allocateByPriority`: nothing happens when the deposit is 0; otherwise the
   * list is sorted by priority (stably, highest first) and funded in that
   * order, and the sorted list becomes the stored one.
   */
  method AllocateByPriority(b: BudgetData) returns (r: BudgetData)
    ensures b.totalDeposit == 0.0 ==> r == b
    ensures b.totalDeposit != 0.0 ==>
      var fill := Greedy(ByPriority(b.expenses), b.totalDeposit);
      r == BudgetData(b.totalDeposit, fill.expenses, fill.remaining)
  {
    if b.totalDeposit == 0.0 {
      return b;
    }
    var sorted := ByPriority(b.expenses);
    var fill := FundInOrder(sorted, b.totalDeposit);
    r := BudgetData(b.totalDeposit, fill.expenses, fill.remaining);
  }

  /** `clearAllocations`: every allocation back to 0 and the whole deposit remaining. */
  function ClearAllocations(b: BudgetData): (r: BudgetData)
    ensures r.totalDeposit == b.totalDeposit
    ensures r.remainingAmount == b.totalDeposit
    ensures |r.expenses| == |b.expenses|
    ensures forall i :: 0 <= i < |b.expenses| ==>
      SameExceptAllocation(r.expenses[i], b.expenses[i]) && r.expenses[i].allocatedAmount == 0.0
    ensures Total(r.expenses, Allocated) == 0.0
    ensures Balanced(r)
  {
    var es := seq(|b.expenses|, i requires 0 <= i < |b.expenses| => b.expenses[i].(allocatedAmount := 0.0));
    TotalOfZeros(es, Allocated);
    b.(expenses := es, remainingAmount := b.totalDeposit)
  }

  function Min(x: real, y: real): (r: real)
    ensures r <= x && r <= y && (r == x || r == y)
  {
    if x <= y then x else y
  }

  function Max0(x: real): (r: real)
    ensures r >= 0.0 && r >= x && (r == 0.0 || r == x)
  {
    if x >= 0.0 then x else 0.0
  }

  predicate PlansNonNegative(es: seq<Expense>)
  {
    forall e :: e in es ==> e.plannedAmount >= 0.0
  }

  /** One funding step, in terms of the remainder before it. */
  lemma StepArithmetic(before: real, p: real, t: real, d: real)
    requires before == Max0(d - t) && p >= 0.0
    ensures (if before >= p then p else before) == Min(p, Max0(d - t))
    ensures (if before >= p then before - p else 0.0) == Max0(d - (t + p))
  {
  }

  lemma GreedyLast(es: seq<Expense>, deposit: real)
    requires es != []
    ensures var n := |es| - 1;
      var before, after := Greedy(es[..n], deposit), Greedy(es, deposit);
      && (forall i :: 0 <= i < n ==> after.expenses[i] == before.expenses[i])
      && after.expenses[n].allocatedAmount ==
           (if before.remaining >= es[n].plannedAmount then es[n].plannedAmount else before.remaining)
      && after.remaining ==
           (if before.remaining >= es[n].plannedAmount then before.remaining - es[n].plannedAmount else 0.0)
  {
  }

  lemma PlansOfPrefix(es: seq<Expense>, k: nat)
    requires PlansNonNegative(es) && k <= |es|
    ensures PlansNonNegative(es[..k])
  {
    forall e | e in es[..k] ensures e.plannedAmount >= 0.0 {
      assert e in es;
    }
  }

  /** What remains after the greedy fill is the surplus of the deposit over the planned total, if any. */
  lemma {:induction false} GreedyRemaining(es: seq<Expense>, deposit: real)
    requires deposit >= 0.0 && PlansNonNegative(es)
    ensures Greedy(es, deposit).remaining == Max0(deposit - Total(es, Planned))
    decreases |es|
  {
    if es != [] {
      var n := |es| - 1;
      PlansOfPrefix(es, n);
      GreedyRemaining(es[..n], deposit);
      GreedyLast(es, deposit);
      assert es[n] in es;
      StepArithmetic(Greedy(es[..n], deposit).remaining, es[n].plannedAmount, Total(es[..n], Planned), deposit);
    }
  }

  /** Filling a prefix gives the prefix of the fill: later expenses never change earlier allocations. */
  lemma {:induction false} GreedyPrefixes(es: seq<Expense>, deposit: real, k: nat)
    requires k <= |es|
    ensures Greedy(es[..k], deposit).expenses == Greedy(es, deposit).expenses[..k]
    decreases |es|
  {
    if k == |es| {
      assert es[..k] == es;
    } else {
      var n := |es| - 1;
      GreedyPrefixes(es[..n], deposit, k);
      assert es[..n][..k] == es[..k];
    }
  }

  /**
   * The reference amount for position `i`: its planned amount, capped by what
   * the deposit has left after the planned amounts before it, and never below 0.
   */
  function GreedyShare(es: seq<Expense>, deposit: real, i: nat): real
    requires i < |es|
  {
    Min(es[i].plannedAmount, Max0(deposit - Total(es[..i], Planned)))
  }

  lemma GreedyAt(es: seq<Expense>, deposit: real, i: nat)
    requires deposit >= 0.0 && PlansNonNegative(es) && i < |es|
    ensures Greedy(es, deposit).expenses[i].allocatedAmount == GreedyShare(es, deposit, i)
  {
    var upto := es[..i + 1];
    GreedyPrefixes(es, deposit, i + 1);
    assert Greedy(es, deposit).expenses[i] == Greedy(upto, deposit).expenses[i];
    GreedyLast(upto, deposit);
    assert upto[..i] == es[..i];
    PlansOfPrefix(es, i);
    GreedyRemaining(es[..i], deposit);
    assert es[i] in es;
    StepArithmetic(Greedy(es[..i], deposit).remaining, es[i].plannedAmount, Total(es[..i], Planned), deposit);
  }

  /**
   * The greedy fill agrees with the reference amounts, independent of the loop,
   * and what is left after the last expense remains.
   */
  lemma GreedyClosedForm(es: seq<Expense>, deposit: real)
    requires deposit >= 0.0 && PlansNonNegative(es)
    ensures forall i :: 0 <= i < |es| ==> Greedy(es, deposit).expenses[i].allocatedAmount == GreedyShare(es, deposit, i)
    ensures Greedy(es, deposit).remaining == Max0(deposit - Total(es, Planned))
  {
    GreedyRemaining(es, deposit);
    forall i | 0 <= i < |es| ensures Greedy(es, deposit).expenses[i].allocatedAmount == GreedyShare(es, deposit, i) {
      GreedyAt(es, deposit, i);
    }
  }

  /** With a non-negative deposit and plans, no expense gets more than planned or less than 0, and nothing is overdrawn. */
  lemma GreedyWithinPlan(es: seq<Expense>, deposit: real)
    requires deposit >= 0.0 && PlansNonNegative(es)
    ensures forall i :: 0 <= i < |es| ==>
      0.0 <= Greedy(es, deposit).expenses[i].allocatedAmount <= es[i].plannedAmount
    ensures Greedy(es, deposit).remaining >= 0.0
    ensures Total(Greedy(es, deposit).expenses, Allocated) <= deposit
  {
    GreedyClosedForm(es, deposit);
    GreedyConserves(es, deposit);
    forall i | 0 <= i < |es| ensures 0.0 <= Greedy(es, deposit).expenses[i].allocatedAmount {
      assert es[i] in es;
    }
  }

  /** Planned totals over prefixes grow with the prefix when no plan is negative. */
  lemma PlannedPrefixes(es: seq<Expense>, i: nat, j: nat)
    requires PlansNonNegative(es) && i < j <= |es|
    ensures Total(es[..i], Planned) + es[i].plannedAmount <= Total(es[..j], Planned)
  {
    PrefixTotalSnoc(es, Planned, i);
    assert forall e :: e in es ==> Amount(e, Planned) >= 0.0;
    PrefixTotalMonotone(es, Planned, i + 1, j);
  }

  /**
   * The cut-off: once an expense is funded below its plan, nothing remains and
   * every later expense gets nothing beyond what a zero plan asks.
   */
  lemma GreedyCutOff(es: seq<Expense>, deposit: real, i: nat, j: nat)
    requires deposit >= 0.0 && PlansNonNegative(es)
    requires i < j < |es|
    requires Greedy(es, deposit).expenses[i].allocatedAmount < es[i].plannedAmount
    ensures Greedy(es, deposit).expenses[j].allocatedAmount == 0.0
    ensures Greedy(es, deposit).remaining == 0.0
  {
    GreedyClosedForm(es, deposit);
    PlannedPrefixes(es, i, j);
    PlannedPrefixes(es, i, |es|);
    assert es[..|es|] == es;
    assert es[j] in es;
  }

  /**
   * Every expense is funded in full exactly when the deposit covers the
   * planned total, and then the surplus is what remains.
   */
  lemma GreedyFundsAllIffAffordable(es: seq<Expense>, deposit: real)
    requires deposit >= 0.0 && PlansNonNegative(es)
    ensures (forall i :: 0 <= i < |es| ==> Greedy(es, deposit).expenses[i].allocatedAmount == es[i].plannedAmount)
      <==> deposit >= Total(es, Planned)
    ensures deposit >= Total(es, Planned) ==> Greedy(es, deposit).remaining == deposit - Total(es, Planned)
  {
    var f := Greedy(es, deposit);
    GreedyClosedForm(es, deposit);
    assert es[..|es|] == es;
    if deposit >= Total(es, Planned) {
      forall i | 0 <= i < |es| ensures f.expenses[i].allocatedAmount == es[i].plannedAmount {
        PlannedPrefixes(es, i, |es|);
      }
    }
    if forall i :: 0 <= i < |es| ==> f.expenses[i].allocatedAmount == es[i].plannedAmount {
      GreedyConserves(es, deposit);
      TotalPointwise(f.expenses, Allocated, es, Planned);
    }
  }

  /**
   * What priority allocation stores: the stable priority order of the old
   * list, highest rank first, with only the allocations changed, and a
   * balanced record.
   */
  lemma PriorityAllocationOrder(b: BudgetData)
    requires b.totalDeposit != 0.0
    ensures var fill := Greedy(ByPriority(b.expenses), b.totalDeposit);
      && RankSorted(fill.expenses)
      && |fill.expenses| == |b.expenses|
      && (forall i :: 0 <= i < |fill.expenses| ==> SameExceptAllocation(fill.expenses[i], ByPriority(b.expenses)[i]))
      && multiset(ByPriority(b.expenses)) == multiset(b.expenses)
      && (forall p :: OfPriority(ByPriority(b.expenses), p) == OfPriority(b.expenses, p))
      && Balanced(BudgetData(b.totalDeposit, fill.expenses, fill.remaining))
  {
    var sorted := ByPriority(b.expenses);
    var fill := Greedy(sorted, b.totalDeposit);
    ByPriorityIsSorted(b.expenses);
    ByPriorityIsPermutation(b.expenses);
    GreedyKeepsExpenses(sorted, b.totalDeposit);
    GreedyConserves(sorted, b.totalDeposit);
    forall p ensures OfPriority(sorted, p) == OfPriority(b.expenses, p) {
      ByPriorityIsStable(b.expenses, p);
    }
  }

  lemma PlansOfPermutation(a: seq<Expense>, b: seq<Expense>)
    requires multiset(a) == multiset(b) && PlansNonNegative(b)
    ensures PlansNonNegative(a)
  {
    forall e | e in a ensures e.plannedAmount >= 0.0 {
      assert e in multiset(a);
    }
  }

  /**
   * With a positive deposit and no negative plan, priority allocation funds
   * every expense between 0 and its plan, leaves a non-negative remainder and
   * never allocates more than the deposit.
   */
  lemma PriorityAllocationBounds(b: BudgetData)
    requires b.totalDeposit > 0.0 && PlansNonNegative(b.expenses)
    ensures var fill := Greedy(ByPriority(b.expenses), b.totalDeposit);
      && (forall i :: 0 <= i < |fill.expenses| ==>
            0.0 <= fill.expenses[i].allocatedAmount <= fill.expenses[i].plannedAmount)
      && fill.remaining >= 0.0
      && Total(fill.expenses, Allocated) <= b.totalDeposit
  {
    var sorted := ByPriority(b.expenses);
    ByPriorityIsPermutation(b.expenses);
    PlansOfPermutation(sorted, b.expenses);
    GreedyWithinPlan(sorted, b.totalDeposit);
    GreedyKeepsExpenses(sorted, b.totalDeposit);
  }

  /** A high expense listed after a low one moves in front of it. */
  lemma HighBeforeLow(low: Expense, high: Expense)
    requires low.priority == Low && high.priority == High
    ensures ByPriority([low, high]) == [high, low]
  {
    assert [low, high] == [low] + [high];
    OfPrioritySnoc([low], high, High);
    OfPrioritySnoc([low], high, Medium);
    OfPrioritySnoc([low], high, Low);
    assert [low] == [] + [low];
    OfPrioritySnoc([], low, High);
    OfPrioritySnoc([], low, Medium);
    OfPrioritySnoc([], low, Low);
  }

  /** Funding 600 then 500 out of 1000: the first in full, the second with the 400 left. */
  lemma FillTwo(first: Expense, second: Expense)
    requires first.plannedAmount == 600.0 && second.plannedAmount == 500.0
    ensures Greedy([first, second], 1000.0) ==
      Fill([first.(allocatedAmount := 600.0), second.(allocatedAmount := 400.0)], 0.0)
  {
    assert [first, second][..1] == [first];
    assert [first][..0] == [];
    assert Greedy([], 1000.0) == Fill([], 1000.0);
    var one := Greedy([first], 1000.0);
    assert one == Step(Fill([], 1000.0), first);
    assert one == Fill([first.(allocatedAmount := 600.0)], 400.0);
    assert Greedy([first, second], 1000.0) == Step(one, second);
  }

  /** Deposit 1000, rent 600 (high) and dining out 500 (low): rent in full, dining the other 400. */
  lemma PriorityAllocationExample()
    ensures var rent := Expense("1", "Rent", "Housing", 600.0, 0.0, 0.0, "", High);
      var dining := Expense("2", "Dining", "Food", 500.0, 0.0, 0.0, "", Low);
      var fill := Greedy(ByPriority([dining, rent]), 1000.0);
      fill.expenses == [rent.(allocatedAmount := 600.0), dining.(allocatedAmount := 400.0)] && fill.remaining == 0.0
  {
    var rent := Expense("1", "Rent", "Housing", 600.0, 0.0, 0.0, "", High);
    var dining := Expense("2", "Dining", "Food", 500.0, 0.0, 0.0, "", Low);
    HighBeforeLow(dining, rent);
    FillTwo(rent, dining);
  }

  /** Proportional allocation applied twice gives what it gives once. */
  lemma ProportionalIsIdempotent(b: BudgetData)
    ensures AllocateProportionally(AllocateProportionally(b)) == AllocateProportionally(b)
  {
    var r := AllocateProportionally(b);
    if b.totalDeposit != 0.0 && Total(b.expenses, Planned) != 0.0 {
      TotalPointwise(r.expenses, Planned, b.expenses, Planned);
      ProportionalIgnoresAllocations(r.expenses, b.expenses, Total(b.expenses, Planned), b.totalDeposit);
    }
  }

  /** Proportional allocation reads only the planned amounts, so lists that differ in allocations alone give the same result. */
  lemma ProportionalIgnoresAllocations(xs: seq<Expense>, ys: seq<Expense>, t: real, d: real)
    requires t != 0.0 && |xs| == |ys|
    requires forall k :: 0 <= k < |xs| ==> SameExceptAllocation(xs[k], ys[k])
    ensures Proportional(xs, t, d) == Proportional(ys, t, d)
  {
    var x, y := Proportional(xs, t, d), Proportional(ys, t, d);
    forall k | 0 <= k < |x| ensures x[k] == y[k] {
      assert xs[k].(allocatedAmount := 0.0) == ys[k].(allocatedAmount := 0.0);
      assert xs[k].plannedAmount == ys[k].plannedAmount;
    }
  }

  /**
   * Clearing and then allocating proportionally is the same as allocating
   * proportionally, whenever the allocation acts (deposit and planned total
   * both non-zero): the clear changes only what the allocation overwrites.
   */
  lemma ClearThenProportional(b: BudgetData)
    requires b.totalDeposit != 0.0 && Total(b.expenses, Planned) != 0.0
    ensures AllocateProportionally(ClearAllocations(b)) == AllocateProportionally(b)
  {
    var c := ClearAllocations(b);
    TotalPointwise(c.expenses, Planned, b.expenses, Planned);
    ProportionalIgnoresAllocations(c.expenses, b.expenses, Total(b.expenses, Planned), b.totalDeposit);
  }

  /** With a zero deposit the allocation does nothing, so the clear is what remains visible. */
  lemma ClearThenProportionalAtZeroDeposit()
    ensures var e := Expense("1", "Rent", "Housing", 600.0, 600.0, 0.0, "", High);
      var b := BudgetData(0.0, [e], -600.0);
      AllocateProportionally(ClearAllocations(b)) != AllocateProportionally(b)
  {
    var e := Expense("1", "Rent", "Housing", 600.0, 600.0, 0.0, "", High);
    var b := BudgetData(0.0, [e], -600.0);
    assert AllocateProportionally(ClearAllocations(b)).expenses[0].allocatedAmount == 0.0;
  }

  /** Deposit 300 over plans of 100 and 300: the shares are 75 and 225. */
  lemma ProportionalExample()
    ensures var a := Expense("1", "A", "Other", 100.0, 0.0, 0.0, "", Medium);
      var b := Expense("2", "B", "Other", 300.0, 0.0, 0.0, "", Medium);
      AllocateProportionally(BudgetData(300.0, [a, b], 300.0)).expenses
        == [a.(allocatedAmount := 75.0), b.(allocatedAmount := 225.0)]
  {
    var a := Expense("1", "A", "Other", 100.0, 0.0, 0.0, "", Medium);
    var b := Expense("2", "B", "Other", 300.0, 0.0, 0.0, "", Medium);
    assert [a, b][..1] == [a];
    assert [a][..0] == [];
    assert Total([a], Planned) == 100.0;
    assert Total([a, b], Planned) == 400.0;
  }
}
