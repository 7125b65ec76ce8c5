/**
 * The Dashboard view: the greeting, the per-expense progress shown in
 * priority order, and the budget-health line under the allocation
 * percentage. The percentage itself is `Insights.Utilization`: the
 * Dashboard computes `allocationPercentage` with the same formula.
 */
module Dashboard {
  import opened Wrappers
  import opened Budget
  import opened PriorityOrder
  import Insights
  import Deposits

  /** `getGreeting`, with the hour of the local clock as an input. */
  function Greeting(hour: int): (r: string)
    ensures r == "Good Morning" <==> hour < 12
    ensures r == "Good Afternoon" <==> 12 <= hour < 17
    ensures r == "Good Evening" <==> 17 <= hour
  {
    if hour < 12 then "Good Morning"
    else if hour < 17 then "Good Afternoon"
    else "Good Evening"
  }

  /** `user?.name || "User"`: the signed-in name, or "User" when there is none or it is empty. */
  function DisplayName(user: Option<string>): (r: string)
    ensures r != ""
    ensures user.Some? && user.value != "" ==> r == user.value
    ensures user.None? || user.value == "" ==> r == "User"
  {
    match user
    case Some(name) => if name != "" then name else "User"
    case None => "User"
  }

  /** The progress bar of one expense: allocated as a percentage of a positive plan, and 0 otherwise. */
  function Progress(e: Expense): (r: real)
    ensures e.plannedAmount <= 0.0 ==> r == 0.0
    ensures e.plannedAmount > 0.0 ==> r * e.plannedAmount == e.allocatedAmount * 100.0
  {
    if e.plannedAmount > 0.0 then e.allocatedAmount / e.plannedAmount * 100.0 else 0.0
  }

  /** A bar with a positive plan is full exactly when the expense is fully funded, and empty exactly when nothing is allocated. */
  lemma ProgressMeaning(e: Expense)
    requires e.plannedAmount > 0.0
    ensures Progress(e) >= 100.0 <==> e.allocatedAmount >= e.plannedAmount
    ensures Progress(e) == 0.0 <==> e.allocatedAmount == 0.0
    ensures 0.0 <= e.allocatedAmount <= e.plannedAmount ==> 0.0 <= Progress(e) <= 100.0
  {
    Insights.PercentAgainstWhole(Progress(e), e.allocatedAmount, e.plannedAmount);
  }

  /** After allocation by priority every bar with a positive plan lies between 0 and 100. */
  lemma PriorityAllocationProgress(b: BudgetData)
    requires b.totalDeposit > 0.0 && Deposits.PlansNonNegative(b.expenses)
    ensures var es := Deposits.Greedy(ByPriority(b.expenses), b.totalDeposit).expenses;
      forall i :: 0 <= i < |es| && es[i].plannedAmount > 0.0 ==> 0.0 <= Progress(es[i]) <= 100.0
  {
    var es := Deposits.Greedy(ByPriority(b.expenses), b.totalDeposit).expenses;
    Deposits.PriorityAllocationBounds(b);
    forall i | 0 <= i < |es| && es[i].plannedAmount > 0.0 ensures 0.0 <= Progress(es[i]) <= 100.0 {
      ProgressMeaning(es[i]);
    }
  }

  /** The budget-health line under the allocation bar. */
  datatype Health =
    | StartPrompt
    | Remaining(toAllocate: real)
    | OverBy(excess: real)
    | FullyAllocated

  /**
   * The first of: no deposit; a percentage under 100, with what is left to
   * allocate; over 100, with the excess; otherwise fully allocated.
   */
  function BudgetHealth(b: BudgetData): Health
  {
    var percentage, allocatedTotal := Insights.Utilization(b), Total(b.expenses, Allocated);
    if b.totalDeposit == 0.0 then StartPrompt
    else if percentage < 100.0 then Remaining(b.totalDeposit - allocatedTotal)
    else if percentage > 100.0 then OverBy(allocatedTotal - b.totalDeposit)
    else FullyAllocated
  }

  /**
   * The health line against the deposit: with a positive deposit it reports a
   * positive amount left exactly when less is allocated than deposited, a
   * positive excess exactly when more is, and full allocation exactly when they
   * are equal. A negative deposit has percentage 0 and so reports a remainder.
   */
  lemma HealthMeaning(b: BudgetData)
    ensures b.totalDeposit == 0.0 <==> BudgetHealth(b) == StartPrompt
    ensures b.totalDeposit < 0.0 ==> BudgetHealth(b) == Remaining(b.totalDeposit - Total(b.expenses, Allocated))
    ensures b.totalDeposit > 0.0 ==>
      var a := Total(b.expenses, Allocated);
      && (BudgetHealth(b).Remaining? <==> a < b.totalDeposit)
      && (BudgetHealth(b).OverBy? <==> a > b.totalDeposit)
      && (BudgetHealth(b) == FullyAllocated <==> a == b.totalDeposit)
      && (BudgetHealth(b).Remaining? ==> BudgetHealth(b).toAllocate == b.totalDeposit - a > 0.0)
      && (BudgetHealth(b).OverBy? ==> BudgetHealth(b).excess == a - b.totalDeposit > 0.0)
  {
    if b.totalDeposit > 0.0 {
      Insights.UtilizationAgainstDeposit(b);
    }
  }

  /** After proportional allocation of a positive deposit the line reads fully allocated. */
  lemma ProportionalIsFullyAllocated(b: BudgetData)
    requires b.totalDeposit > 0.0 && Total(b.expenses, Planned) != 0.0
    ensures BudgetHealth(Deposits.AllocateProportionally(b)) == FullyAllocated
  {
    HealthMeaning(Deposits.AllocateProportionally(b));
  }
}
