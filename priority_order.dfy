/**
 * The display order of expenses: `[...expenses].sort((a, b) => rank(b) - rank(a))`,
 * highest priority first. The JavaScript sort is stable, so expenses of equal
 * priority keep their relative order; the order is then the high expenses,
 * then the medium ones, then the low ones, each group in list order.
 */
module PriorityOrder {
  import opened Budget

  /** The expenses of priority `p`, in list order. */
  function OfPriority(es: seq<Expense>, p: Priority): (r: seq<Expense>)
    ensures forall e :: e in r <==> e in es && e.priority == p
  {
    Select(es, (e: Expense) => e.priority == p)
  }

  /** The stable sort by rank, highest first. */
  function ByPriority(es: seq<Expense>): seq<Expense>
  {
    OfPriority(es, High) + OfPriority(es, Medium) + OfPriority(es, Low)
  }

  /** Ranks never increase along the list. */
  predicate RankSorted(s: seq<Expense>)
  {
    forall i, j :: 0 <= i < j < |s| ==> Rank(s[i].priority) >= Rank(s[j].priority)
  }

  lemma ByPriorityIsSorted(es: seq<Expense>)
    ensures RankSorted(ByPriority(es))
  {
    var h, m, l := OfPriority(es, High), OfPriority(es, Medium), OfPriority(es, Low);
    var r := ByPriority(es);
    forall i | 0 <= i < |r| ensures Rank(r[i].priority) == if i < |h| then 3 else if i < |h| + |m| then 2 else 1 {
      if i < |h| {
        assert r[i] == h[i] && h[i] in h;
      } else if i < |h| + |m| {
        assert r[i] == m[i - |h|] && m[i - |h|] in m;
      } else {
        assert r[i] == l[i - |h| - |m|] && l[i - |h| - |m|] in l;
      }
    }
  }

  lemma {:induction false} GroupsPartition(es: seq<Expense>)
    ensures multiset(OfPriority(es, High)) + multiset(OfPriority(es, Medium)) + multiset(OfPriority(es, Low))
            == multiset(es)
    decreases |es|
  {
    if es != [] {
      var init, last := es[..|es| - 1], es[|es| - 1];
      assert es == init + [last];
      GroupsPartition(init);
      OfPrioritySnoc(init, last, High);
      OfPrioritySnoc(init, last, Medium);
      OfPrioritySnoc(init, last, Low);
    }
  }

  /** The sort loses and adds nothing. */
  lemma ByPriorityIsPermutation(es: seq<Expense>)
    ensures multiset(ByPriority(es)) == multiset(es)
    ensures |ByPriority(es)| == |es|
  {
    GroupsPartition(es);
    assert |multiset(ByPriority(es))| == |multiset(es)|;
  }

  lemma {:induction false} GroupOfGroup(es: seq<Expense>, p: Priority, q: Priority)
    ensures OfPriority(OfPriority(es, p), q) == if p == q then OfPriority(es, p) else []
    decreases |es|
  {
    if es != [] {
      var init, last := es[..|es| - 1], es[|es| - 1];
      GroupOfGroup(init, p, q);
      if last.priority == p {
        SelectAppend(OfPriority(init, p), [last], (e: Expense) => e.priority == q);
        assert Select([last], (e: Expense) => e.priority == q) == Select([], (e: Expense) => e.priority == q) + (if last.priority == q then [last] else []);
      }
    }
  }

  /** Stability: within each priority the sorted list keeps the original order. */
  lemma ByPriorityIsStable(es: seq<Expense>, p: Priority)
    ensures OfPriority(ByPriority(es), p) == OfPriority(es, p)
  {
    var keep := (e: Expense) => e.priority == p;
    var h, m, l := OfPriority(es, High), OfPriority(es, Medium), OfPriority(es, Low);
    SelectAppend(h + m, l, keep);
    SelectAppend(h, m, keep);
    GroupOfGroup(es, High, p);
    GroupOfGroup(es, Medium, p);
    GroupOfGroup(es, Low, p);
  }

  /** Appending one expense extends exactly its own group. */
  lemma OfPrioritySnoc(init: seq<Expense>, last: Expense, q: Priority)
    ensures OfPriority(init + [last], q) == OfPriority(init, q) + (if last.priority == q then [last] else [])
  {
    assert (init + [last])[..|init|] == init;
  }

  /** A group is empty when no expense of the list has that priority. */
  lemma {:induction false} NoneOfPriority(s: seq<Expense>, p: Priority)
    requires forall k :: 0 <= k < |s| ==> s[k].priority != p
    ensures OfPriority(s, p) == []
    decreases |s|
  {
    if s != [] {
      NoneOfPriority(s[..|s| - 1], p);
      assert s == s[..|s| - 1] + [s[|s| - 1]];
      OfPrioritySnoc(s[..|s| - 1], s[|s| - 1], p);
    }
  }

  lemma SortedInit(init: seq<Expense>, last: Expense)
    requires RankSorted(init + [last])
    ensures RankSorted(init)
    ensures forall k :: 0 <= k < |init| ==> Rank(init[k].priority) >= Rank(last.priority)
  {
    var r := init + [last];
    assert forall k :: 0 <= k < |init| ==> r[k] == init[k];
    assert r[|init|] == last;
  }

  /** Appending an expense of the lowest rank so far keeps a grouped list grouped. */
  lemma GroupedSnoc(init: seq<Expense>, last: Expense)
    requires init == ByPriority(init)
    requires forall k :: 0 <= k < |init| ==> Rank(init[k].priority) >= Rank(last.priority)
    ensures init + [last] == ByPriority(init + [last])
  {
    OfPrioritySnoc(init, last, High);
    OfPrioritySnoc(init, last, Medium);
    OfPrioritySnoc(init, last, Low);
    var h, m, l := OfPriority(init, High), OfPriority(init, Medium), OfPriority(init, Low);
    if last.priority != Low {
      NoneOfPriority(init, Low);
    }
    if last.priority == High {
      NoneOfPriority(init, Medium);
    }
  }

  /** A list already sorted by rank is the concatenation of its three groups. */
  lemma {:induction false} SortedIsGrouped(r: seq<Expense>)
    requires RankSorted(r)
    ensures r == ByPriority(r)
    decreases |r|
  {
    if r != [] {
      var init, last := r[..|r| - 1], r[|r| - 1];
      assert r == init + [last];
      SortedInit(init, last);
      SortedIsGrouped(init);
      GroupedSnoc(init, last);
    }
  }

  /**
   * Any stable sort by rank, highest first, gives `ByPriority`: a list sorted
   * by rank whose priority groups are those of `es` is `ByPriority(es)`.
   */
  lemma StableSortIsUnique(es: seq<Expense>, r: seq<Expense>)
    requires RankSorted(r)
    requires forall p :: OfPriority(r, p) == OfPriority(es, p)
    ensures r == ByPriority(es)
  {
    SortedIsGrouped(r);
    assert OfPriority(r, High) == OfPriority(es, High);
    assert OfPriority(r, Medium) == OfPriority(es, Medium);
    assert OfPriority(r, Low) == OfPriority(es, Low);
  }

  lemma ByPriorityKeepsGroups(es: seq<Expense>)
    ensures forall p :: OfPriority(ByPriority(es), p) == OfPriority(es, p)
  {
    forall p ensures OfPriority(ByPriority(es), p) == OfPriority(es, p) {
      ByPriorityIsStable(es, p);
    }
  }

  /**
   * The display sort of the Itinerary and Dashboard views, a copy of the list
   * that leaves the stored list alone: ranks never increase along it, it holds
   * the same expenses, and each priority group keeps its list order.
   */
  function DisplaySort(es: seq<Expense>): (r: seq<Expense>)
    ensures RankSorted(r)
    ensures multiset(r) == multiset(es) && |r| == |es|
    ensures forall p :: OfPriority(r, p) == OfPriority(es, p)
  {
    ByPriorityIsSorted(es);
    ByPriorityIsPermutation(es);
    ByPriorityKeepsGroups(es);
    ByPriority(es)
  }
}
