/**
 * The pie chart of allocations: one slice per expense with a positive
 * allocation, in list order, coloured by cycling through six colours.
 */
module BudgetChart {
  import opened Budget

  const Colors: seq<string> := ["#3B82F6", "#EF4444", "#10B981", "#F59E0B", "#8B5CF6", "#EC4899"]

  datatype Slice = Slice(name: string, value: real, color: string)

  /** What the component renders: the placeholder text, or a pie of slices. */
  datatype Chart = Placeholder | Pie(slices: seq<Slice>)

  /** The expenses with a positive allocation, in list order. */
  function Funded(es: seq<Expense>): (r: seq<Expense>)
    ensures forall e :: e in r <==> e in es && e.allocatedAmount > 0.0
  {
    Select(es, (e: Expense) => e.allocatedAmount > 0.0)
  }

  /** `chartData`: the funded expenses as slices, the i-th coloured `Colors[i % 6]`. */
  function ChartData(es: seq<Expense>): (r: seq<Slice>)
  {
    var funded := Funded(es);
    seq(|funded|, i requires 0 <= i < |funded| =>
      Slice(funded[i].name, funded[i].allocatedAmount, Colors[i % |Colors|]))
  }

  function Render(b: BudgetData): (c: Chart)
    ensures c == Placeholder <==> ChartData(b.expenses) == []
    ensures c.Pie? ==> c.slices == ChartData(b.expenses)
  {
    var chartData := ChartData(b.expenses);
    if |chartData| == 0 then Placeholder else Pie(chartData)
  }

  /**
   * The slices are the funded expenses one for one: the i-th slice shows the
   * i-th funded expense's name and allocation in colour `Colors[i % 6]`, the
   * index counting funded expenses only; every value is positive, and
   * every funded expense of the list has its slice.
   */
  lemma ChartDataMeaning(es: seq<Expense>)
    ensures var r, funded := ChartData(es), Funded(es);
      && |r| == |funded|
      && (forall i :: 0 <= i < |r| ==> r[i].name == funded[i].name && r[i].value == funded[i].allocatedAmount)
      && (forall i :: 0 <= i < |r| ==> r[i].color == Colors[i % |Colors|])
      && (forall i :: 0 <= i < |r| ==> r[i].value > 0.0)
      && (forall e :: e in es && e.allocatedAmount > 0.0 ==>
            exists i :: 0 <= i < |r| && r[i].name == e.name && r[i].value == e.allocatedAmount)
  {
    var r, funded := ChartData(es), Funded(es);
    forall i | 0 <= i < |r| ensures r[i].value > 0.0 {
      assert funded[i] in funded;
    }
    forall e | e in es && e.allocatedAmount > 0.0
      ensures exists i :: 0 <= i < |r| && r[i].name == e.name && r[i].value == e.allocatedAmount
    {
      assert e in funded;
      var i :| 0 <= i < |funded| && funded[i] == e;
      assert r[i].name == e.name;
    }
  }

  /** The placeholder shows exactly when no expense has a positive allocation. */
  lemma PlaceholderIffNothingFunded(b: BudgetData)
    ensures Render(b) == Placeholder <==> forall e :: e in b.expenses ==> e.allocatedAmount <= 0.0
  {
    var funded := Funded(b.expenses);
    if |funded| > 0 {
      assert funded[0] in funded;
    }
    if exists e :: e in b.expenses && e.allocatedAmount > 0.0 {
      var e :| e in b.expenses && e.allocatedAmount > 0.0;
      assert e in funded;
    }
  }

  /** Colours cycle with period six, and neighbouring slices never share a colour. */
  lemma ColorsCycle(es: seq<Expense>)
    ensures var r := ChartData(es);
      && (forall i :: 0 <= i < |r| - 6 ==> r[i].color == r[i + 6].color)
      && (forall i :: 0 <= i < |r| - 1 ==> r[i].color != r[i + 1].color)
  {
    var r := ChartData(es);
    forall i | 0 <= i < |r| - 6 ensures r[i].color == r[i + 6].color {
      assert (i + 6) % 6 == i % 6;
    }
    forall i | 0 <= i < |r| - 1 ensures r[i].color != r[i + 1].color {
      assert (i + 1) % 6 == if i % 6 == 5 then 0 else i % 6 + 1;
    }
  }

  /** The values of a list of slices, added up in order. */
  function SliceTotal(s: seq<Slice>): real
  {
    if s == [] then 0.0 else SliceTotal(s[..|s| - 1]) + s[|s| - 1].value
  }

  /** With no negative allocation, the pie adds up to the whole allocated total. */
  lemma PieIsWholeAllocation(es: seq<Expense>)
    requires forall e :: e in es ==> e.allocatedAmount >= 0.0
    ensures SliceTotal(ChartData(es)) == Total(es, Allocated)
  {
    var funded := Funded(es);
    var rest := (e: Expense) => !(e.allocatedAmount > 0.0);
    TotalSplitsBySelect(es, (e: Expense) => e.allocatedAmount > 0.0, rest, Allocated);
    forall k | 0 <= k < |Select(es, rest)| ensures Amount(Select(es, rest)[k], Allocated) == 0.0 {
      assert Select(es, rest)[k] in Select(es, rest);
    }
    TotalOfZeros(Select(es, rest), Allocated);
    SlicesAddUp(funded);
  }

  /** The slice values of the funded expenses add up to their allocated total. */
  lemma {:induction false} SlicesAddUp(funded: seq<Expense>)
    ensures var r := seq(|funded|, i requires 0 <= i < |funded| =>
                         Slice(funded[i].name, funded[i].allocatedAmount, Colors[i % |Colors|]));
      SliceTotal(r) == Total(funded, Allocated)
    decreases |funded|
  {
    if funded != [] {
      var n := |funded| - 1;
      SlicesAddUp(funded[..n]);
      var r := seq(|funded|, i requires 0 <= i < |funded| =>
                   Slice(funded[i].name, funded[i].allocatedAmount, Colors[i % |Colors|]));
      assert r[..n] == seq(n, i requires 0 <= i < n =>
                           Slice(funded[..n][i].name, funded[..n][i].allocatedAmount, Colors[i % |Colors|]));
    }
  }
}
