/**
 * The analytics of the Insights view: the three totals, the utilization and
 * efficiency ratios, the over-, under- and fully-funded filters, the
 * per-category rollup and the ordered list of recommendations.
 */
module Insights {
  import opened Budget
  import opened PriorityOrder
  import Deposits

  /** `budgetUtilization`: allocated as a percentage of a positive deposit, and 0 otherwise. */
  function Utilization(b: BudgetData): (r: real)
    ensures b.totalDeposit <= 0.0 ==> r == 0.0
    ensures b.totalDeposit > 0.0 ==> r * b.totalDeposit == Total(b.expenses, Allocated) * 100.0
  {
    if b.totalDeposit > 0.0 then Total(b.expenses, Allocated) / b.totalDeposit * 100.0 else 0.0
  }

  /** `spendingEfficiency`: spent as a percentage of a positive allocated total, and 0 otherwise. */
  function Efficiency(b: BudgetData): (r: real)
    ensures Total(b.expenses, Allocated) <= 0.0 ==> r == 0.0
    ensures Total(b.expenses, Allocated) > 0.0 ==> r * Total(b.expenses, Allocated) == Total(b.expenses, Actual) * 100.0
  {
    var allocatedTotal := Total(b.expenses, Allocated);
    if allocatedTotal > 0.0 then Total(b.expenses, Actual) / allocatedTotal * 100.0 else 0.0
  }

  /** With `d` positive, the sign of `u - 100` is the sign of `a - d` when `u * d == a * 100`. */
  lemma PercentAgainstWhole(u: real, a: real, d: real)
    requires d > 0.0 && u * d == a * 100.0
    ensures u < 100.0 <==> a < d
    ensures u > 100.0 <==> a > d
  {
    assert (u - 100.0) * d == (a - d) * 100.0;
    if u < 100.0 { assert (u - 100.0) * d < 0.0; }
    if u > 100.0 { assert (u - 100.0) * d > 0.0; }
    if u == 100.0 { assert a == d; }
  }

  /** Utilization against 100%: under exactly when less than the deposit is allocated, over exactly when more. */
  lemma UtilizationAgainstDeposit(b: BudgetData)
    requires b.totalDeposit > 0.0
    ensures Utilization(b) < 100.0 <==> Total(b.expenses, Allocated) < b.totalDeposit
    ensures Utilization(b) > 100.0 <==> Total(b.expenses, Allocated) > b.totalDeposit
    ensures Utilization(b) == 100.0 <==> Total(b.expenses, Allocated) == b.totalDeposit
  {
    PercentAgainstWhole(Utilization(b), Total(b.expenses, Allocated), b.totalDeposit);
  }

  /** Spent more than allocated. */
  function OverBudget(es: seq<Expense>): (r: seq<Expense>)
    ensures forall e :: e in r <==> e in es && e.actualAmount > e.allocatedAmount
  {
    Select(es, (e: Expense) => e.actualAmount > e.allocatedAmount)
  }

  /** Spent something, but less than allocated. */
  function UnderBudget(es: seq<Expense>): (r: seq<Expense>)
    ensures forall e :: e in r <==> e in es && 0.0 < e.actualAmount < e.allocatedAmount
  {
    Select(es, (e: Expense) => e.actualAmount < e.allocatedAmount && e.actualAmount > 0.0)
  }

  /** Allocated at least the plan. */
  function FullyFunded(es: seq<Expense>): (r: seq<Expense>)
    ensures forall e :: e in r <==> e in es && e.allocatedAmount >= e.plannedAmount
  {
    Select(es, (e: Expense) => e.allocatedAmount >= e.plannedAmount)
  }

  /** No expense is both over and under budget, and together they never outnumber the list. */
  lemma OverAndUnderAreDisjoint(es: seq<Expense>)
    ensures forall e :: !(e in OverBudget(es) && e in UnderBudget(es))
    ensures |OverBudget(es)| + |UnderBudget(es)| <= |es|
  {
    var over, under := (e: Expense) => e.actualAmount > e.allocatedAmount,
                       (e: Expense) => e.actualAmount < e.allocatedAmount && e.actualAmount > 0.0;
    var rest := (e: Expense) => !over(e);
    SelectOfSelect(es, rest, under);
    TotalSplitsCount(es, over, rest);
  }

  /** Filtering the expenses that fail `keep` by `inner`, when `inner` implies that failure, filters the whole list by `inner`. */
  lemma {:induction false} SelectOfSelect(es: seq<Expense>, outer: Expense -> bool, inner: Expense -> bool)
    requires forall e :: inner(e) ==> outer(e)
    ensures Select(Select(es, outer), inner) == Select(es, inner)
    decreases |es|
  {
    if es != [] {
      var init, last := es[..|es| - 1], es[|es| - 1];
      SelectOfSelect(init, outer, inner);
      if outer(last) {
        SelectAppend(Select(init, outer), [last], inner);
        assert Select([last], inner) == if inner(last) then [last] else [] by {
          assert [last][..0] == [];
        }
      }
    }
  }

  /** A filter and its complement split the list. */
  lemma {:induction false} TotalSplitsCount(es: seq<Expense>, keep: Expense -> bool, drop: Expense -> bool)
    requires forall e :: drop(e) == !keep(e)
    ensures |Select(es, keep)| + |Select(es, drop)| == |es|
    decreases |es|
  {
    if es != [] {
      TotalSplitsCount(es[..|es| - 1], keep, drop);
    }
  }

  /** The three sums kept for one category. */
  datatype CategoryTotals = CategoryTotals(planned: real, allocatedSum: real, actual: real)

  /** The expenses filed under category `c`, in list order. */
  function InCategory(es: seq<Expense>, c: string): (r: seq<Expense>)
    ensures forall e :: e in r <==> e in es && e.category == c
  {
    Select(es, (e: Expense) => e.category == c)
  }

  /** What one more expense adds to a category's expenses. */
  lemma InCategorySnoc(init: seq<Expense>, e: Expense, c: string)
    ensures InCategory(init + [e], c) == InCategory(init, c) + (if e.category == c then [e] else [])
  {
    assert (init + [e])[..|init|] == init;
  }

  /** The total of measure `m` over category `c`. */
  function CategoryAmount(es: seq<Expense>, c: string, m: Measure): real
  {
    Total(InCategory(es, c), m)
  }

  lemma CategoryAmountSnoc(init: seq<Expense>, e: Expense, c: string, m: Measure)
    ensures CategoryAmount(init + [e], c, m) == CategoryAmount(init, c, m) + (if e.category == c then Amount(e, m) else 0.0)
  {
    InCategorySnoc(init, e, c);
    if e.category == c {
      assert (InCategory(init, c) + [e])[..|InCategory(init, c)|] == InCategory(init, c);
    } else {
      assert InCategory(init, c) + [] == InCategory(init, c);
    }
  }

  /** The rollup entry of category `c`. */
  function Rollup(es: seq<Expense>, c: string): CategoryTotals
  {
    CategoryTotals(CategoryAmount(es, c, Planned), CategoryAmount(es, c, Allocated), CategoryAmount(es, c, Actual))
  }

  /** The categories of `es`, each once, in the order they first appear. */
  function Categories(es: seq<Expense>): seq<string>
    decreases |es|
  {
    if es == [] then []
    else
      var cs := Categories(es[..|es| - 1]);
      if es[|es| - 1].category in cs then cs else cs + [es[|es| - 1].category]
  }

  /** Every category of the list appears in `Categories`, nothing else does, and none twice. */
  lemma {:induction false} CategoriesMeaning(es: seq<Expense>)
    ensures forall c :: c in Categories(es) <==> exists e :: e in es && e.category == c
    ensures forall i, j :: 0 <= i < j < |Categories(es)| ==> Categories(es)[i] != Categories(es)[j]
    decreases |es|
  {
    if es != [] {
      var init, last := es[..|es| - 1], es[|es| - 1];
      assert es == init + [last];
      CategoriesMeaning(init);
    }
  }

  lemma CategoriesSnoc(init: seq<Expense>, e: Expense)
    ensures Categories(init + [e]) ==
      if e.category in Categories(init) then Categories(init) else Categories(init) + [e.category]
  {
    assert (init + [e])[..|init|] == init;
  }

  /** A category that does not appear has no expenses. */
  lemma NoneInCategory(es: seq<Expense>, c: string)
    requires c !in Categories(es)
    ensures InCategory(es, c) == []
  {
    CategoriesMeaning(es);
  }

  /** A category's entry after one more expense of that category. */
  function AddTo(t: CategoryTotals, e: Expense): CategoryTotals
  {
    CategoryTotals(t.planned + e.plannedAmount, t.allocatedSum + e.allocatedAmount, t.actual + e.actualAmount)
  }

  /** One more expense adds its three amounts to its own category's entry and leaves the others. */
  lemma RollupSnoc(init: seq<Expense>, e: Expense, c: string)
    ensures Rollup(init + [e], c) ==
      if e.category == c then AddTo(Rollup(init, c), e) else Rollup(init, c)
  {
    CategoryAmountSnoc(init, e, c, Planned);
    CategoryAmountSnoc(init, e, c, Allocated);
    CategoryAmountSnoc(init, e, c, Actual);
  }

  /** `categories` and `totals` are the rollup of `prefix`. */
  ghost predicate BreakdownOf(prefix: seq<Expense>, categories: seq<string>, totals: map<string, CategoryTotals>)
  {
    && categories == Categories(prefix)
    && (forall c :: c in totals <==> c in categories)
    && (forall c :: c in totals ==> totals[c] == Rollup(prefix, c))
  }

  /** One turn of the rollup: the entry of `e`'s category, opened at zero if new, grows by `e`'s amounts. */
  lemma BreakdownStep(prefix: seq<Expense>, e: Expense, categories: seq<string>, totals: map<string, CategoryTotals>,
                      categories': seq<string>, totals': map<string, CategoryTotals>)
    requires BreakdownOf(prefix, categories, totals)
    requires categories' == if e.category in totals then categories else categories + [e.category]
    requires totals' == totals[e.category := AddTo(if e.category in totals then totals[e.category] else CategoryTotals(0.0, 0.0, 0.0), e)]
    ensures BreakdownOf(prefix + [e], categories', totals')
  {
    CategoriesSnoc(prefix, e);
    if e.category !in totals {
      NoneInCategory(prefix, e.category);
    }
    forall c ensures Rollup(prefix + [e], c) == if e.category == c then AddTo(Rollup(prefix, c), e) else Rollup(prefix, c) {
      RollupSnoc(prefix, e, c);
    }
  }

  /**
   * `categoryBreakdown`: one pass over the expenses that opens an entry the
   * first time a category is seen and adds each expense's three amounts to
   * its category's entry.
   */
  method CategoryBreakdown(es: seq<Expense>) returns (categories: seq<string>, totals: map<string, CategoryTotals>)
    ensures categories == Categories(es)
    ensures forall c :: c in totals <==> c in categories
    ensures forall c :: c in totals ==> totals[c] == Rollup(es, c)
  {
    categories, totals := [], map[];
    for i := 0 to |es|
      invariant BreakdownOf(es[..i], categories, totals)
    {
      var e := es[i];
      ghost var (categories0, totals0) := (categories, totals);
      if e.category !in totals {
        totals := totals[e.category := CategoryTotals(0.0, 0.0, 0.0)];
        categories := categories + [e.category];
      }
      totals := totals[e.category := AddTo(totals[e.category], e)];
      BreakdownStep(es[..i], e, categories0, totals0, categories, totals);
      assert es[..i + 1] == es[..i] + [e];
    }
    assert es[..|es|] == es;
  }

  /** The category amounts of `cats`, added up in list order. */
  function SumOver(cats: seq<string>, es: seq<Expense>, m: Measure): real
  {
    if cats == [] then 0.0 else SumOver(cats[..|cats| - 1], es, m) + CategoryAmount(es, cats[|cats| - 1], m)
  }

  /** One more expense adds its amount to the sum over distinct categories exactly when its category is among them. */
  lemma {:induction false} SumOverSnoc(cats: seq<string>, init: seq<Expense>, e: Expense, m: Measure)
    requires forall i, j :: 0 <= i < j < |cats| ==> cats[i] != cats[j]
    ensures SumOver(cats, init + [e], m) == SumOver(cats, init, m) + (if e.category in cats then Amount(e, m) else 0.0)
    decreases |cats|
  {
    if cats != [] {
      var front, c := cats[..|cats| - 1], cats[|cats| - 1];
      assert cats == front + [c];
      SumOverSnoc(front, init, e, m);
      CategoryAmountSnoc(init, e, c, m);
    }
  }

  /** A category added at the end of the list adds its amount. */
  lemma SumOverSnocCategory(cats: seq<string>, c: string, es: seq<Expense>, m: Measure)
    ensures SumOver(cats + [c], es, m) == SumOver(cats, es, m) + CategoryAmount(es, c, m)
  {
    assert (cats + [c])[..|cats|] == cats;
  }

  /** One more expense keeps the per-category sums equal to the overall total. */
  lemma RollupAddsUpStep(init: seq<Expense>, last: Expense, m: Measure)
    requires SumOver(Categories(init), init, m) == Total(init, m)
    ensures SumOver(Categories(init + [last]), init + [last], m) == Total(init + [last], m)
  {
    var cs, es := Categories(init), init + [last];
    CategoriesMeaning(init);
    SumOverSnoc(cs, init, last, m);
    CategoriesSnoc(init, last);
    assert es[..|es| - 1] == init;
    if last.category !in cs {
      SumOverSnocCategory(cs, last.category, es, m);
      CategoryAmountSnoc(init, last, last.category, m);
      NoneInCategory(init, last.category);
    }
  }

  /** The per-category totals of the rollup add up to the overall total, for each of the three amounts. */
  lemma {:induction false} RollupAddsUp(es: seq<Expense>, m: Measure)
    ensures SumOver(Categories(es), es, m) == Total(es, m)
    decreases |es|
  {
    if es != [] {
      var init, last := es[..|es| - 1], es[|es| - 1];
      assert es == init + [last];
      RollupAddsUp(init, m);
      RollupAddsUpStep(init, last, m);
    }
  }

  /** The five recommendations, each with the figures its description quotes. */
  datatype Recommendation =
    | Underutilized(unallocatedPercent: real)
    | OverAllocated(excessPercent: real)
    | Overspending(overNames: seq<string>)
    | HighPriorityUnderfunded(underfundedNames: seq<string>)
    | LowEfficiency(efficiencyPercent: real)

  /** The `type` field, which picks the card's colour. */
  function Tone(r: Recommendation): string
  {
    match r
    case Underutilized(_) => "opportunity"
    case OverAllocated(_) => "warning"
    case Overspending(_) => "alert"
    case HighPriorityUnderfunded(_) => "warning"
    case LowEfficiency(_) => "opportunity"
  }

  function Title(r: Recommendation): string
  {
    match r
    case Underutilized(_) => "Underutilized Budget"
    case OverAllocated(_) => "Over Budget"
    case Overspending(_) => "Overspending Detected"
    case HighPriorityUnderfunded(_) => "High Priority Items Underfunded"
    case LowEfficiency(_) => "Low Spending Efficiency"
  }

  /** The position of a recommendation's check in the sequence of checks. */
  function Kind(r: Recommendation): nat
  {
    match r
    case Underutilized(_) => 0
    case OverAllocated(_) => 1
    case Overspending(_) => 2
    case HighPriorityUnderfunded(_) => 3
    case LowEfficiency(_) => 4
  }

  /** High-priority expenses allocated less than planned. */
  function Underfunded(es: seq<Expense>): (r: seq<Expense>)
    ensures forall e :: e in r <==> e in es && e.priority == High && e.allocatedAmount < e.plannedAmount
  {
    Select(es, (e: Expense) => e.priority == High && e.allocatedAmount < e.plannedAmount)
  }

  /** The names of a list of expenses, in order, as `map((e) => e.name)` lists them. */
  function Names(es: seq<Expense>): (r: seq<string>)
    ensures |r| == |es| && forall i :: 0 <= i < |es| ==> r[i] == es[i].name
  {
    seq(|es|, i requires 0 <= i < |es| => es[i].name)
  }

  /** Whether check `k` of `generateRecommendations` holds. */
  predicate Fires(b: BudgetData, k: nat)
    requires k < 5
  {
    var u := Utilization(b);
    if k == 0 then u < 80.0
    else if k == 1 then u > 100.0
    else if k == 2 then |OverBudget(b.expenses)| > 0
    else if k == 3 then |Underfunded(b.expenses)| > 0
    else 0.0 < Efficiency(b) < 70.0
  }

  /** The entry check `k` pushes, with the figures its description quotes. */
  function Entry(b: BudgetData, k: nat): (r: Recommendation)
    requires k < 5
    ensures Kind(r) == k
  {
    var u := Utilization(b);
    if k == 0 then Underutilized(100.0 - u)
    else if k == 1 then OverAllocated(u - 100.0)
    else if k == 2 then Overspending(Names(OverBudget(b.expenses)))
    else if k == 3 then HighPriorityUnderfunded(Names(Underfunded(b.expenses)))
    else LowEfficiency(Efficiency(b))
  }

  function Optional(c: bool, r: Recommendation): seq<Recommendation>
  {
    if c then [r] else []
  }

  /** The list after checks `0 .. n - 1`: the entries of the checks that held, in order. */
  function ChecksUpTo(b: BudgetData, n: nat): seq<Recommendation>
    requires n <= 5
  {
    if n == 0 then [] else ChecksUpTo(b, n - 1) + Optional(Fires(b, n - 1), Entry(b, n - 1))
  }

  /** The list `generateRecommendations` builds: the entry of each of the five checks that holds, in the order of the checks. */
  function Recommendations(b: BudgetData): seq<Recommendation>
  {
    ChecksUpTo(b, 5)
  }

  /** A recommendation of kind `k` is in the list. */
  predicate HasKind(rs: seq<Recommendation>, k: nat)
  {
    exists i :: 0 <= i < |rs| && Kind(rs[i]) == k
  }

  /** Kinds strictly increase along the list. */
  predicate KindsIncrease(rs: seq<Recommendation>)
  {
    forall i, j :: 0 <= i < j < |rs| ==> Kind(rs[i]) < Kind(rs[j])
  }

  /** After `n` checks: the list is ordered, holds kind `k` exactly when check `k` held, and every entry is its check's. */
  ghost predicate ChecksMeaning(b: BudgetData, rs: seq<Recommendation>, n: nat)
    requires n <= 5
  {
    && KindsIncrease(rs)
    && (forall i :: 0 <= i < |rs| ==> Kind(rs[i]) < n && rs[i] == Entry(b, Kind(rs[i])))
    && (forall k :: 0 <= k < 5 ==> (HasKind(rs, k) <==> k < n && Fires(b, k)))
  }

  /** Running check `n - 1` after the first `n - 1` keeps the meaning. */
  lemma ChecksStep(b: BudgetData, n: nat, front: seq<Recommendation>, rs: seq<Recommendation>)
    requires 0 < n <= 5
    requires ChecksMeaning(b, front, n - 1)
    requires rs == front + Optional(Fires(b, n - 1), Entry(b, n - 1))
    ensures ChecksMeaning(b, rs, n)
  {
    forall k | 0 <= k < 5 ensures HasKind(rs, k) <==> k < n && Fires(b, k) {
      if HasKind(rs, k) {
        var i :| 0 <= i < |rs| && Kind(rs[i]) == k;
        if i < |front| {
          assert rs[i] == front[i];
        }
      }
      if k < n && Fires(b, k) && k == n - 1 {
        assert rs[|front|] == Entry(b, k);
      }
      if HasKind(front, k) {
        var i :| 0 <= i < |front| && Kind(front[i]) == k;
        assert rs[i] == front[i];
      }
    }
  }

  lemma {:induction false} ChecksUpToMeaning(b: BudgetData, n: nat)
    requires n <= 5
    ensures ChecksMeaning(b, ChecksUpTo(b, n), n)
  {
    if n > 0 {
      ChecksUpToMeaning(b, n - 1);
      ChecksStep(b, n, ChecksUpTo(b, n - 1), ChecksUpTo(b, n));
    }
  }

  /**
   * What the list means: the kinds come in the order of the checks, each at most
   * once; kind `k` is present exactly when check `k` holds; each entry carries
   * its check's figures.
   */
  lemma RecommendationsMeaning(b: BudgetData)
    ensures var rs := Recommendations(b);
      && KindsIncrease(rs)
      && (forall k :: 0 <= k < 5 ==> (HasKind(rs, k) <==> Fires(b, k)))
      && (forall i :: 0 <= i < |rs| ==> rs[i] == Entry(b, Kind(rs[i])))
  {
    ChecksUpToMeaning(b, 5);
  }

  /**
   * The checks in the budget's own terms: overspending fires exactly when some
   * expense spent more than allocated, the high-priority check exactly when some
   * high expense is allocated less than planned, and the under- and
   * over-allocation checks never both.
   */
  lemma FiresMeaning(b: BudgetData)
    ensures Fires(b, 2) <==> exists e :: e in b.expenses && e.actualAmount > e.allocatedAmount
    ensures Fires(b, 3) <==> exists e :: e in b.expenses && e.priority == High && e.allocatedAmount < e.plannedAmount
    ensures !(Fires(b, 0) && Fires(b, 1))
  {
    var over, high := OverBudget(b.expenses), Underfunded(b.expenses);
    if |over| > 0 { assert over[0] in over; }
    if exists e :: e in b.expenses && e.actualAmount > e.allocatedAmount {
      var e :| e in b.expenses && e.actualAmount > e.allocatedAmount;
      assert e in over;
    }
    if |high| > 0 { assert high[0] in high; }
    if exists e :: e in b.expenses && e.priority == High && e.allocatedAmount < e.plannedAmount {
      var e :| e in b.expenses && e.priority == High && e.allocatedAmount < e.plannedAmount;
      assert e in high;
    }
  }

  /**
   * `generateRecommendations`: starts from an empty list and pushes one entry
   * for each check that holds, in the order of the checks.
   */
  method GenerateRecommendations(b: BudgetData) returns (recommendations: seq<Recommendation>)
    ensures recommendations == Recommendations(b)
  {
    var budgetUtilization, spendingEfficiency := Utilization(b), Efficiency(b);
    var overBudgetExpenses := OverBudget(b.expenses);
    recommendations := [];
    if budgetUtilization < 80.0 {
      recommendations := recommendations + [Underutilized(100.0 - budgetUtilization)];
    }
    assert recommendations == ChecksUpTo(b, 1);
    if budgetUtilization > 100.0 {
      recommendations := recommendations + [OverAllocated(budgetUtilization - 100.0)];
    }
    assert recommendations == ChecksUpTo(b, 2);
    if |overBudgetExpenses| > 0 {
      recommendations := recommendations + [Overspending(Names(overBudgetExpenses))];
    }
    assert recommendations == ChecksUpTo(b, 3);
    var highPriorityUnderfunded := Underfunded(b.expenses);
    if |highPriorityUnderfunded| > 0 {
      recommendations := recommendations + [HighPriorityUnderfunded(Names(highPriorityUnderfunded))];
    }
    assert recommendations == ChecksUpTo(b, 4);
    if spendingEfficiency > 0.0 && spendingEfficiency < 70.0 {
      recommendations := recommendations + [LowEfficiency(spendingEfficiency)];
    }
  }

  /** With no deposit the utilization is 0, so the list opens with the whole budget unallocated. */
  lemma ZeroDepositIsUnderutilized(b: BudgetData)
    requires b.totalDeposit == 0.0
    ensures Recommendations(b) != [] && Recommendations(b)[0] == Underutilized(100.0)
  {
    var rs := Recommendations(b);
    assert Fires(b, 0);
    RecommendationsMeaning(b);
    var i :| 0 <= i < |rs| && Kind(rs[i]) == 0;
  }

  /** Proportional allocation of a positive deposit allocates all of it: utilization 100, neither warning. */
  lemma ProportionalUsesWholeDeposit(b: BudgetData)
    requires b.totalDeposit > 0.0 && Total(b.expenses, Planned) != 0.0
    ensures Utilization(Deposits.AllocateProportionally(b)) == 100.0
    ensures !HasKind(Recommendations(Deposits.AllocateProportionally(b)), 0)
    ensures !HasKind(Recommendations(Deposits.AllocateProportionally(b)), 1)
  {
    var r := Deposits.AllocateProportionally(b);
    UtilizationAgainstDeposit(r);
    assert !Fires(r, 0) && !Fires(r, 1);
    RecommendationsMeaning(r);
  }

  /** Allocation by priority of a positive deposit never over-allocates, so the over-budget warning never fires. */
  lemma PriorityNeverOverAllocates(b: BudgetData)
    requires b.totalDeposit > 0.0 && Deposits.PlansNonNegative(b.expenses)
    ensures var fill := Deposits.Greedy(ByPriority(b.expenses), b.totalDeposit);
      var r := BudgetData(b.totalDeposit, fill.expenses, fill.remaining);
      Utilization(r) <= 100.0 && !HasKind(Recommendations(r), 1)
  {
    var fill := Deposits.Greedy(ByPriority(b.expenses), b.totalDeposit);
    var r := BudgetData(b.totalDeposit, fill.expenses, fill.remaining);
    Deposits.PriorityAllocationBounds(b);
    UtilizationAgainstDeposit(r);
    assert !Fires(r, 1);
    RecommendationsMeaning(r);
  }
}
