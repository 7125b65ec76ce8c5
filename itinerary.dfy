/**
 * The expense list of the Itinerary view: the keyword classifier that picks a
 * new expense's priority, and adding, removing and recording the actual
 * spending of expenses, each as the record that replaces the old one.
 *
 * Most of the file's length is helper lemmas for four sample classifications.
 * They rule the keyword tables out five entries at a time, because one proof
 * over a whole table of string literals is too costly for the verifier.
 */
module Itinerary {
  import opened Wrappers
  import opened Text
  import opened Budget
  import opened PriorityOrder

  /** Name keywords of essential expenses. */
  const HighKeywords: seq<string> := [
    "rent", "mortgage", "loan", "emi", "insurance", "medical", "health", "medicine", "doctor",
    "hospital", "electricity", "water", "gas", "utilities", "phone", "internet", "groceries",
    "food", "fuel", "petrol", "diesel", "school", "education", "tuition", "childcare",
    "daycare", "tax", "debt", "credit card"
  ]

  /** Category words of essential expenses. */
  const HighCategories: seq<string> := [
    "housing", "utilities", "healthcare", "insurance", "debt", "education", "transportation",
    "food", "groceries", "medical", "essential"
  ]

  /** Name keywords of important expenses; the classifier never consults them. */
  const MediumKeywords: seq<string> := [
    "clothing", "clothes", "gym", "fitness", "subscription", "netflix", "spotify", "amazon",
    "maintenance", "repair", "service", "cleaning", "laundry", "haircut", "salon", "barber",
    "gift", "birthday", "anniversary", "savings", "investment"
  ]

  /** Category words of important expenses; the classifier never consults them. */
  const MediumCategories: seq<string> := [
    "personal care", "fitness", "subscriptions", "maintenance", "gifts", "savings",
    "investment", "clothing"
  ]

  /** Name keywords of discretionary expenses. */
  const LowKeywords: seq<string> := [
    "entertainment", "movie", "cinema", "restaurant", "dining", "coffee", "starbucks",
    "vacation", "trip", "travel", "hotel", "shopping", "gadget", "electronics", "gaming",
    "hobby", "party", "club", "bar", "alcohol", "luxury", "jewelry", "watch", "brand",
    "designer"
  ]

  /** Category words of discretionary expenses. */
  const LowCategories: seq<string> := [
    "entertainment", "dining", "travel", "shopping", "hobbies", "luxury", "recreation",
    "leisure"
  ]

  /** Whether a word of `words` occurs somewhere in `s`: `words.some((w) => s.includes(w))`. */
  predicate Mentions(s: string, words: seq<string>)
  {
    ContainsAny(s, words)
  }

  predicate IsEssential(name: string, category: string)
  {
    Mentions(Lower(name), HighKeywords) || Mentions(Lower(category), HighCategories)
  }

  predicate IsDiscretionary(name: string, category: string)
  {
    Mentions(Lower(name), LowKeywords) || Mentions(Lower(category), LowCategories)
  }

  /**
   * `determineAIPriority`: both texts are lower-cased; an essential keyword in
   * the name or category word in the category gives high, failing that a
   * discretionary one gives low, and anything else is medium.
   */
  function DetermineAIPriority(name: string, category: string): Priority
  {
    if IsEssential(name, category) then High
    else if IsDiscretionary(name, category) then Low
    else Medium
  }

  /**
   * The classifier, stated by occurrences: high exactly when some essential
   * word occurs in the lower-cased text it is checked against, low exactly when
   * no essential but some discretionary word does, medium otherwise. The
   * medium tables play no part.
   */
  lemma ClassifierMeaning(name: string, category: string)
    ensures var r, n, c := DetermineAIPriority(name, category), Lower(name), Lower(category);
      var high := (exists k, j :: 0 <= k < |HighKeywords| && OccursAt(n, HighKeywords[k], j))
               || (exists k, j :: 0 <= k < |HighCategories| && OccursAt(c, HighCategories[k], j));
      var low := (exists k, j :: 0 <= k < |LowKeywords| && OccursAt(n, LowKeywords[k], j))
              || (exists k, j :: 0 <= k < |LowCategories| && OccursAt(c, LowCategories[k], j));
      && (r == High <==> high)
      && (r == Low <==> !high && low)
      && (r == Medium <==> !high && !low)
  {
    var n, c := Lower(name), Lower(category);
    OccursIffMentioned(n, HighKeywords);
    OccursIffMentioned(c, HighCategories);
    OccursIffMentioned(n, LowKeywords);
    OccursIffMentioned(c, LowCategories);
  }

  lemma OccursIffMentioned(s: string, words: seq<string>)
    ensures Mentions(s, words) <==> exists k, j :: 0 <= k < |words| && OccursAt(s, words[k], j)
  {
    ContainsAnyIsSome(s, words);
    forall k | 0 <= k < |words| ensures Contains(s, words[k]) <==> exists j :: OccursAt(s, words[k], j) {
      ContainsIsOccurrence(s, words[k]);
    }
  }

  /** Case does not matter: the classifier gives the same answer for the lower-cased texts. */
  lemma ClassifierIgnoresCase(name: string, category: string)
    ensures DetermineAIPriority(Lower(name), Lower(category)) == DetermineAIPriority(name, category)
  {
    LowerIsIdempotent(name);
    LowerIsIdempotent(category);
  }

  /** No two expenses share an id. */
  predicate DistinctIds(es: seq<Expense>)
  {
    forall i, j :: 0 <= i < j < |es| ==> es[i].id != es[j].id
  }

  /**
   * `addExpense`: with an empty name or an empty planned-amount text (None)
   * nothing happens; otherwise one expense is appended, its priority chosen by
   * the classifier from the raw name and category, its category "Other" when
   * none was given, and nothing allocated or spent yet. The deposit and the
   * remaining amount are not touched.
   */
  function AddExpense(b: BudgetData, name: string, category: string, planned: Option<real>, dueDate: string, id: string): (r: BudgetData)
    ensures name == "" || planned == None ==> r == b
    ensures name != "" && planned.Some? ==>
      && r.totalDeposit == b.totalDeposit
      && r.remainingAmount == b.remainingAmount
      && |r.expenses| == |b.expenses| + 1
      && r.expenses[..|b.expenses|] == b.expenses
      && var e := r.expenses[|b.expenses|];
         && e.id == id && e.name == name && e.dueDate == dueDate
         && e.category == (if category == "" then "Other" else category)
         && e.plannedAmount == planned.value
         && e.allocatedAmount == 0.0 && e.actualAmount == 0.0
         && e.priority == DetermineAIPriority(name, category)
  {
    if name == "" || planned == None then b
    else
      var e := Expense(id, name, if category == "" then "Other" else category, planned.value, 0.0, 0.0, dueDate,
                       DetermineAIPriority(name, category));
      var es := b.expenses + [e];
      assert es[..|b.expenses|] == b.expenses;
      b.(expenses := es)
  }

  /**
   * `removeExpense`: every expense with the id goes, the rest keep their order;
   * nothing else changes. The last ensures pins that order down: the kept
   * expenses are the filter of the list, in list order.
   */
  function RemoveExpense(b: BudgetData, id: string): (r: BudgetData)
    ensures r.totalDeposit == b.totalDeposit && r.remainingAmount == b.remainingAmount
    ensures forall e :: e in r.expenses <==> e in b.expenses && e.id != id
    ensures r.expenses == Select(b.expenses, (e: Expense) => e.id != id)
  {
    b.(expenses := Select(b.expenses, (e: Expense) => e.id != id))
  }

  /**
   * `updateExpenseActual`: the expenses with the id get the new actual amount
   * (a non-numeric entry counts as 0); every other field and expense is kept.
   */
  function UpdateExpenseActual(b: BudgetData, id: string, amount: Option<real>): (r: BudgetData)
    ensures r.totalDeposit == b.totalDeposit && r.remainingAmount == b.remainingAmount
    ensures |r.expenses| == |b.expenses|
    ensures forall i :: 0 <= i < |b.expenses| ==>
      r.expenses[i] == if b.expenses[i].id == id then b.expenses[i].(actualAmount := Coerce(amount)) else b.expenses[i]
  {
    var es := b.expenses;
    b.(expenses := seq(|es|, i requires 0 <= i < |es| => if es[i].id == id then es[i].(actualAmount := Coerce(amount)) else es[i]))
  }

  /** Adding an expense under a fresh id and removing that id gives back the record. */
  lemma AddThenRemove(b: BudgetData, name: string, category: string, planned: Option<real>, dueDate: string, id: string)
    requires forall e :: e in b.expenses ==> e.id != id
    ensures RemoveExpense(AddExpense(b, name, category, planned, dueDate, id), id) == b
  {
    var keep := (e: Expense) => e.id != id;
    forall k | 0 <= k < |b.expenses| ensures keep(b.expenses[k]) {
      assert b.expenses[k] in b.expenses;
    }
    SelectKeepsAll(b.expenses, keep);
    if name != "" && planned.Some? {
      var r := AddExpense(b, name, category, planned, dueDate, id);
      assert r.expenses == b.expenses + [r.expenses[|b.expenses|]];
      SelectAppend(b.expenses, [r.expenses[|b.expenses|]], keep);
      assert Select([r.expenses[|b.expenses|]], keep) == [];
    }
  }

  /** Adding an expense adds its plan to the planned total, keeps the record balanced, and keeps ids distinct when the new id is fresh. */
  lemma AddExpenseTotals(b: BudgetData, name: string, category: string, planned: Option<real>, dueDate: string, id: string)
    requires name != "" && planned.Some?
    ensures var r := AddExpense(b, name, category, planned, dueDate, id);
      && Total(r.expenses, Planned) == Total(b.expenses, Planned) + planned.value
      && Total(r.expenses, Allocated) == Total(b.expenses, Allocated)
      && (Balanced(r) <==> Balanced(b))
      && (DistinctIds(b.expenses) && (forall e :: e in b.expenses ==> e.id != id) ==> DistinctIds(r.expenses))
  {
    var r := AddExpense(b, name, category, planned, dueDate, id);
    assert r.expenses[..|r.expenses| - 1] == b.expenses;
    if DistinctIds(b.expenses) && (forall e :: e in b.expenses ==> e.id != id) {
      forall i, j | 0 <= i < j < |r.expenses| ensures r.expenses[i].id != r.expenses[j].id {
        if j == |b.expenses| {
          assert r.expenses[i] == b.expenses[i];
          assert b.expenses[i] in b.expenses;
        } else {
          assert r.expenses[i] == b.expenses[i] && r.expenses[j] == b.expenses[j];
        }
      }
    }
  }

  /**
   * Removing splits every total between what stays and what goes. The
   * remaining amount is not recomputed, so a balanced record stays balanced
   * exactly when nothing was allocated to the removed expenses.
   */
  lemma RemoveExpenseTotals(b: BudgetData, id: string, m: Measure)
    ensures var gone := Select(b.expenses, (e: Expense) => e.id == id);
      && Total(b.expenses, m) == Total(RemoveExpense(b, id).expenses, m) + Total(gone, m)
      && (Balanced(b) ==> (Balanced(RemoveExpense(b, id)) <==> Total(gone, Allocated) == 0.0))
  {
    var keep, drop := (e: Expense) => e.id != id, (e: Expense) => e.id == id;
    TotalSplitsBySelect(b.expenses, keep, drop, m);
    TotalSplitsBySelect(b.expenses, keep, drop, Allocated);
  }

  /** Removing the same id twice is removing it once. */
  lemma RemoveExpenseIsIdempotent(b: BudgetData, id: string)
    ensures RemoveExpense(RemoveExpense(b, id), id) == RemoveExpense(b, id)
  {
    var r := RemoveExpense(b, id);
    var keep := (e: Expense) => e.id != id;
    forall k | 0 <= k < |r.expenses| ensures keep(r.expenses[k]) {
      assert r.expenses[k] in r.expenses;
    }
    SelectKeepsAll(r.expenses, keep);
  }

  /**
   * Recording an actual amount leaves the planned and allocated totals, and so
   * the balance, alone; and the last amount recorded for an id is the one kept.
   */
  lemma UpdateExpenseActualKeepsPlan(b: BudgetData, id: string, x: Option<real>, y: Option<real>)
    ensures var r := UpdateExpenseActual(b, id, x);
      && Total(r.expenses, Planned) == Total(b.expenses, Planned)
      && Total(r.expenses, Allocated) == Total(b.expenses, Allocated)
      && (Balanced(r) <==> Balanced(b))
      && UpdateExpenseActual(r, id, y) == UpdateExpenseActual(b, id, y)
  {
    var r := UpdateExpenseActual(b, id, x);
    TotalPointwise(r.expenses, Planned, b.expenses, Planned);
    TotalPointwise(r.expenses, Allocated, b.expenses, Allocated);
    var s, t := UpdateExpenseActual(r, id, y), UpdateExpenseActual(b, id, y);
    assert s.expenses == t.expenses;
  }

  /** With distinct ids, recording an actual amount for one expense changes the actual total by the difference. */
  lemma UpdateExpenseActualTotal(b: BudgetData, i: nat, amount: Option<real>)
    requires DistinctIds(b.expenses) && i < |b.expenses|
    ensures var r := UpdateExpenseActual(b, b.expenses[i].id, amount);
      Total(r.expenses, Actual) == Total(b.expenses, Actual) - b.expenses[i].actualAmount + Coerce(amount)
  {
    var es := b.expenses;
    var rs := UpdateExpenseActual(b, es[i].id, amount).expenses;
    TotalChangeAt(es, rs, Actual, i);
  }

  /** "Rent" filed under "Housing" is essential. */
  lemma RentIsHigh()
    ensures DetermineAIPriority("Rent", "Housing") == High
  {
    assert Lower("Rent") == "rent";
    assert Contains("rent", HighKeywords[0]);
  }

  /** "Movie tickets" under "Entertainment" mentions no essential word, but "movie" is discretionary. */
  lemma MovieTicketsIsLow()
    ensures DetermineAIPriority("Movie tickets", "Entertainment") == Low
  {
    assert Lower("Movie tickets") == "movie tickets";
    assert Lower("Entertainment") == "entertainment";
    MovieTicketsAvoidsHighKeywords();
    EntertainmentAvoidsHighCategories();
    MovieTicketsMentionsLowKeyword();
  }

  /** "Netflix" under "Subscriptions" matches neither table that counts, so it falls to medium. */
  lemma NetflixIsMedium()
    ensures Contains(Lower("Netflix"), MediumKeywords[5])
    ensures DetermineAIPriority("Netflix", "Subscriptions") == Medium
  {
    assert Lower("Netflix") == "netflix";
    assert Lower("Subscriptions") == "subscriptions";
    assert "netflix"[0..7] == MediumKeywords[5];
    ContainsIsOccurrence("netflix", MediumKeywords[5]);
    NetflixAvoidsHighKeywords();
    SubscriptionsAvoidsHighCategories();
    NetflixAvoidsLowKeywords();
    SubscriptionsAvoidsLowCategories();
  }

  /** A name that mentions nothing, with no category, is medium. */
  lemma WidgetIsMedium()
    ensures DetermineAIPriority("Widget", "") == Medium
  {
    assert Lower("Widget") == "widget";
    assert Lower("") == "";
    WidgetAvoidsHighKeywords();
    BlankAvoidsHighCategories();
    WidgetAvoidsLowKeywords();
    BlankAvoidsLowCategories();
  }

  /** "Barber" is a medium keyword, but the discretionary keyword "bar" occurs in it, so it is low. */
  lemma BarberIsLow()
    ensures Contains(Lower("Barber"), MediumKeywords[15])
    ensures DetermineAIPriority("Barber", "") == Low
  {
    assert Lower("Barber") == "barber";
    assert Lower("") == "";
    assert "barber"[0..6] == MediumKeywords[15];
    ContainsIsOccurrence("barber", MediumKeywords[15]);
    BarberAvoidsHighKeywords();
    BlankAvoidsHighCategories();
    assert "barber"[0..3] == LowKeywords[18];
    ContainsIsOccurrence("barber", LowKeywords[18]);
    ContainsAnyIsSome("barber", LowKeywords);
  }

  // The lemmas below rule out, word by word, every table entry a sample text
  // does not contain, each by a letter of the entry that the text lacks
  // (`AbsentLetter`); only "emi" in "movie tickets" needs every position.
  // They go five table entries at a time because one proof over a whole
  // keyword table of string literals is too costly for the verifier; the four
  // sample lemmas above (`MovieTicketsIsLow`, `NetflixIsMedium`,
  // `WidgetIsMedium`, `BarberIsLow`) are their only users.

  lemma MovieTicketsMentionsLowKeyword()
    ensures Mentions("movie tickets", LowKeywords)
  {
    assert "movie tickets"[0..5] == LowKeywords[1];
    ContainsIsOccurrence("movie tickets", LowKeywords[1]);
    ContainsAnyIsSome("movie tickets", LowKeywords);
  }

  lemma MovieTicketsLacksEmi()
    ensures !Contains("movie tickets", "emi")
  {
    assert !ContainsFrom("movie tickets", "emi", 10);
    assert !ContainsFrom("movie tickets", "emi", 9);
    assert !ContainsFrom("movie tickets", "emi", 8);
    assert !ContainsFrom("movie tickets", "emi", 7);
    assert !ContainsFrom("movie tickets", "emi", 6);
    assert !ContainsFrom("movie tickets", "emi", 5);
    assert !ContainsFrom("movie tickets", "emi", 4);
    assert !ContainsFrom("movie tickets", "emi", 3);
    assert !ContainsFrom("movie tickets", "emi", 2);
    assert !ContainsFrom("movie tickets", "emi", 1);
    assert !ContainsFrom("movie tickets", "emi", 0);
  }

  lemma MovieTicketsAvoidsHighKeywords0To4()
    ensures forall k :: 0 <= k < 5 ==> !Contains("movie tickets", HighKeywords[k])
  {
    forall k | 0 <= k < 5 ensures !Contains("movie tickets", HighKeywords[k]) {
      if k == 0 {
        AbsentLetter("movie tickets", HighKeywords[0], 'r');
      } else if k == 1 {
        AbsentLetter("movie tickets", HighKeywords[1], 'r');
      } else if k == 2 {
        AbsentLetter("movie tickets", HighKeywords[2], 'l');
      } else if k == 3 {
        MovieTicketsLacksEmi();
      } else {
        AbsentLetter("movie tickets", HighKeywords[4], 'n');
      }
    }
  }

  lemma MovieTicketsAvoidsHighKeywords5To9()
    ensures forall k :: 5 <= k < 10 ==> !Contains("movie tickets", HighKeywords[k])
  {
    forall k | 5 <= k < 10 ensures !Contains("movie tickets", HighKeywords[k]) {
      if k == 5 {
        AbsentLetter("movie tickets", HighKeywords[5], 'd');
      } else if k == 6 {
        AbsentLetter("movie tickets", HighKeywords[6], 'h');
      } else if k == 7 {
        AbsentLetter("movie tickets", HighKeywords[7], 'd');
      } else if k == 8 {
        AbsentLetter("movie tickets", HighKeywords[8], 'd');
      } else {
        AbsentLetter("movie tickets", HighKeywords[9], 'h');
      }
    }
  }

  lemma MovieTicketsAvoidsHighKeywords10To14()
    ensures forall k :: 10 <= k < 15 ==> !Contains("movie tickets", HighKeywords[k])
  {
    forall k | 10 <= k < 15 ensures !Contains("movie tickets", HighKeywords[k]) {
      if k == 10 {
        AbsentLetter("movie tickets", HighKeywords[10], 'l');
      } else if k == 11 {
        AbsentLetter("movie tickets", HighKeywords[11], 'w');
      } else if k == 12 {
        AbsentLetter("movie tickets", HighKeywords[12], 'g');
      } else if k == 13 {
        AbsentLetter("movie tickets", HighKeywords[13], 'u');
      } else {
        AbsentLetter("movie tickets", HighKeywords[14], 'p');
      }
    }
  }

  lemma MovieTicketsAvoidsHighKeywords15To19()
    ensures forall k :: 15 <= k < 20 ==> !Contains("movie tickets", HighKeywords[k])
  {
    forall k | 15 <= k < 20 ensures !Contains("movie tickets", HighKeywords[k]) {
      if k == 15 {
        AbsentLetter("movie tickets", HighKeywords[15], 'n');
      } else if k == 16 {
        AbsentLetter("movie tickets", HighKeywords[16], 'g');
      } else if k == 17 {
        AbsentLetter("movie tickets", HighKeywords[17], 'f');
      } else if k == 18 {
        AbsentLetter("movie tickets", HighKeywords[18], 'f');
      } else {
        AbsentLetter("movie tickets", HighKeywords[19], 'p');
      }
    }
  }

  lemma MovieTicketsAvoidsHighKeywords20To24()
    ensures forall k :: 20 <= k < 25 ==> !Contains("movie tickets", HighKeywords[k])
  {
    forall k | 20 <= k < 25 ensures !Contains("movie tickets", HighKeywords[k]) {
      if k == 20 {
        AbsentLetter("movie tickets", HighKeywords[20], 'd');
      } else if k == 21 {
        AbsentLetter("movie tickets", HighKeywords[21], 'h');
      } else if k == 22 {
        AbsentLetter("movie tickets", HighKeywords[22], 'd');
      } else if k == 23 {
        AbsentLetter("movie tickets", HighKeywords[23], 'u');
      } else {
        AbsentLetter("movie tickets", HighKeywords[24], 'h');
      }
    }
  }

  lemma MovieTicketsAvoidsHighKeywords25To28()
    ensures forall k :: 25 <= k < 29 ==> !Contains("movie tickets", HighKeywords[k])
  {
    forall k | 25 <= k < 29 ensures !Contains("movie tickets", HighKeywords[k]) {
      if k == 25 {
        AbsentLetter("movie tickets", HighKeywords[25], 'd');
      } else if k == 26 {
        AbsentLetter("movie tickets", HighKeywords[26], 'a');
      } else if k == 27 {
        AbsentLetter("movie tickets", HighKeywords[27], 'd');
      } else {
        AbsentLetter("movie tickets", HighKeywords[28], 'r');
      }
    }
  }

  lemma MovieTicketsAvoidsHighKeywords()
    ensures !Mentions("movie tickets", HighKeywords)
  {
    MovieTicketsAvoidsHighKeywords0To4(); MovieTicketsAvoidsHighKeywords5To9();
    MovieTicketsAvoidsHighKeywords10To14(); MovieTicketsAvoidsHighKeywords15To19();
    MovieTicketsAvoidsHighKeywords20To24(); MovieTicketsAvoidsHighKeywords25To28();
    ContainsAnyIsSome("movie tickets", HighKeywords);
  }

  lemma EntertainmentAvoidsHighCategories0To4()
    ensures forall k :: 0 <= k < 5 ==> !Contains("entertainment", HighCategories[k])
  {
    forall k | 0 <= k < 5 ensures !Contains("entertainment", HighCategories[k]) {
      if k == 0 {
        AbsentLetter("entertainment", HighCategories[0], 'h');
      } else if k == 1 {
        AbsentLetter("entertainment", HighCategories[1], 'u');
      } else if k == 2 {
        AbsentLetter("entertainment", HighCategories[2], 'h');
      } else if k == 3 {
        AbsentLetter("entertainment", HighCategories[3], 's');
      } else {
        AbsentLetter("entertainment", HighCategories[4], 'd');
      }
    }
  }

  lemma EntertainmentAvoidsHighCategories5To9()
    ensures forall k :: 5 <= k < 10 ==> !Contains("entertainment", HighCategories[k])
  {
    forall k | 5 <= k < 10 ensures !Contains("entertainment", HighCategories[k]) {
      if k == 5 {
        AbsentLetter("entertainment", HighCategories[5], 'd');
      } else if k == 6 {
        AbsentLetter("entertainment", HighCategories[6], 's');
      } else if k == 7 {
        AbsentLetter("entertainment", HighCategories[7], 'f');
      } else if k == 8 {
        AbsentLetter("entertainment", HighCategories[8], 'g');
      } else {
        AbsentLetter("entertainment", HighCategories[9], 'd');
      }
    }
  }

  lemma EntertainmentAvoidsHighCategories10To10()
    ensures forall k :: 10 <= k < 11 ==> !Contains("entertainment", HighCategories[k])
  {
    forall k | 10 <= k < 11 ensures !Contains("entertainment", HighCategories[k]) {
      AbsentLetter("entertainment", HighCategories[10], 's');
    }
  }

  lemma EntertainmentAvoidsHighCategories()
    ensures !Mentions("entertainment", HighCategories)
  {
    EntertainmentAvoidsHighCategories0To4(); EntertainmentAvoidsHighCategories5To9();
    EntertainmentAvoidsHighCategories10To10();
    ContainsAnyIsSome("entertainment", HighCategories);
  }

  lemma NetflixAvoidsHighKeywords0To4()
    ensures forall k :: 0 <= k < 5 ==> !Contains("netflix", HighKeywords[k])
  {
    forall k | 0 <= k < 5 ensures !Contains("netflix", HighKeywords[k]) {
      if k == 0 {
        AbsentLetter("netflix", HighKeywords[0], 'r');
      } else if k == 1 {
        AbsentLetter("netflix", HighKeywords[1], 'm');
      } else if k == 2 {
        AbsentLetter("netflix", HighKeywords[2], 'o');
      } else if k == 3 {
        AbsentLetter("netflix", HighKeywords[3], 'm');
      } else {
        AbsentLetter("netflix", HighKeywords[4], 's');
      }
    }
  }

  lemma NetflixAvoidsHighKeywords5To9()
    ensures forall k :: 5 <= k < 10 ==> !Contains("netflix", HighKeywords[k])
  {
    forall k | 5 <= k < 10 ensures !Contains("netflix", HighKeywords[k]) {
      if k == 5 {
        AbsentLetter("netflix", HighKeywords[5], 'm');
      } else if k == 6 {
        AbsentLetter("netflix", HighKeywords[6], 'h');
      } else if k == 7 {
        AbsentLetter("netflix", HighKeywords[7], 'm');
      } else if k == 8 {
        AbsentLetter("netflix", HighKeywords[8], 'd');
      } else {
        AbsentLetter("netflix", HighKeywords[9], 'h');
      }
    }
  }

  lemma NetflixAvoidsHighKeywords10To14()
    ensures forall k :: 10 <= k < 15 ==> !Contains("netflix", HighKeywords[k])
  {
    forall k | 10 <= k < 15 ensures !Contains("netflix", HighKeywords[k]) {
      if k == 10 {
        AbsentLetter("netflix", HighKeywords[10], 'c');
      } else if k == 11 {
        AbsentLetter("netflix", HighKeywords[11], 'w');
      } else if k == 12 {
        AbsentLetter("netflix", HighKeywords[12], 'g');
      } else if k == 13 {
        AbsentLetter("netflix", HighKeywords[13], 'u');
      } else {
        AbsentLetter("netflix", HighKeywords[14], 'p');
      }
    }
  }

  lemma NetflixAvoidsHighKeywords15To19()
    ensures forall k :: 15 <= k < 20 ==> !Contains("netflix", HighKeywords[k])
  {
    forall k | 15 <= k < 20 ensures !Contains("netflix", HighKeywords[k]) {
      if k == 15 {
        AbsentLetter("netflix", HighKeywords[15], 'r');
      } else if k == 16 {
        AbsentLetter("netflix", HighKeywords[16], 'g');
      } else if k == 17 {
        AbsentLetter("netflix", HighKeywords[17], 'o');
      } else if k == 18 {
        AbsentLetter("netflix", HighKeywords[18], 'u');
      } else {
        AbsentLetter("netflix", HighKeywords[19], 'p');
      }
    }
  }

  lemma NetflixAvoidsHighKeywords20To24()
    ensures forall k :: 20 <= k < 25 ==> !Contains("netflix", HighKeywords[k])
  {
    forall k | 20 <= k < 25 ensures !Contains("netflix", HighKeywords[k]) {
      if k == 20 {
        AbsentLetter("netflix", HighKeywords[20], 'd');
      } else if k == 21 {
        AbsentLetter("netflix", HighKeywords[21], 's');
      } else if k == 22 {
        AbsentLetter("netflix", HighKeywords[22], 'd');
      } else if k == 23 {
        AbsentLetter("netflix", HighKeywords[23], 'u');
      } else {
        AbsentLetter("netflix", HighKeywords[24], 'c');
      }
    }
  }

  lemma NetflixAvoidsHighKeywords25To28()
    ensures forall k :: 25 <= k < 29 ==> !Contains("netflix", HighKeywords[k])
  {
    forall k | 25 <= k < 29 ensures !Contains("netflix", HighKeywords[k]) {
      if k == 25 {
        AbsentLetter("netflix", HighKeywords[25], 'd');
      } else if k == 26 {
        AbsentLetter("netflix", HighKeywords[26], 'a');
      } else if k == 27 {
        AbsentLetter("netflix", HighKeywords[27], 'd');
      } else {
        AbsentLetter("netflix", HighKeywords[28], 'c');
      }
    }
  }

  lemma NetflixAvoidsHighKeywords()
    ensures !Mentions("netflix", HighKeywords)
  {
    NetflixAvoidsHighKeywords0To4(); NetflixAvoidsHighKeywords5To9();
    NetflixAvoidsHighKeywords10To14(); NetflixAvoidsHighKeywords15To19();
    NetflixAvoidsHighKeywords20To24(); NetflixAvoidsHighKeywords25To28();
    ContainsAnyIsSome("netflix", HighKeywords);
  }

  lemma SubscriptionsAvoidsHighCategories0To4()
    ensures forall k :: 0 <= k < 5 ==> !Contains("subscriptions", HighCategories[k])
  {
    forall k | 0 <= k < 5 ensures !Contains("subscriptions", HighCategories[k]) {
      if k == 0 {
        AbsentLetter("subscriptions", HighCategories[0], 'h');
      } else if k == 1 {
        AbsentLetter("subscriptions", HighCategories[1], 'l');
      } else if k == 2 {
        AbsentLetter("subscriptions", HighCategories[2], 'h');
      } else if k == 3 {
        AbsentLetter("subscriptions", HighCategories[3], 'a');
      } else {
        AbsentLetter("subscriptions", HighCategories[4], 'd');
      }
    }
  }

  lemma SubscriptionsAvoidsHighCategories5To9()
    ensures forall k :: 5 <= k < 10 ==> !Contains("subscriptions", HighCategories[k])
  {
    forall k | 5 <= k < 10 ensures !Contains("subscriptions", HighCategories[k]) {
      if k == 5 {
        AbsentLetter("subscriptions", HighCategories[5], 'e');
      } else if k == 6 {
        AbsentLetter("subscriptions", HighCategories[6], 'a');
      } else if k == 7 {
        AbsentLetter("subscriptions", HighCategories[7], 'f');
      } else if k == 8 {
        AbsentLetter("subscriptions", HighCategories[8], 'g');
      } else {
        AbsentLetter("subscriptions", HighCategories[9], 'm');
      }
    }
  }

  lemma SubscriptionsAvoidsHighCategories10To10()
    ensures forall k :: 10 <= k < 11 ==> !Contains("subscriptions", HighCategories[k])
  {
    forall k | 10 <= k < 11 ensures !Contains("subscriptions", HighCategories[k]) {
      AbsentLetter("subscriptions", HighCategories[10], 'e');
    }
  }

  lemma SubscriptionsAvoidsHighCategories()
    ensures !Mentions("subscriptions", HighCategories)
  {
    SubscriptionsAvoidsHighCategories0To4(); SubscriptionsAvoidsHighCategories5To9();
    SubscriptionsAvoidsHighCategories10To10();
    ContainsAnyIsSome("subscriptions", HighCategories);
  }

  lemma NetflixAvoidsLowKeywords0To4()
    ensures forall k :: 0 <= k < 5 ==> !Contains("netflix", LowKeywords[k])
  {
    forall k | 0 <= k < 5 ensures !Contains("netflix", LowKeywords[k]) {
      if k == 0 {
        AbsentLetter("netflix", LowKeywords[0], 'r');
      } else if k == 1 {
        AbsentLetter("netflix", LowKeywords[1], 'm');
      } else if k == 2 {
        AbsentLetter("netflix", LowKeywords[2], 'c');
      } else if k == 3 {
        AbsentLetter("netflix", LowKeywords[3], 'r');
      } else {
        AbsentLetter("netflix", LowKeywords[4], 'd');
      }
    }
  }

  lemma NetflixAvoidsLowKeywords5To9()
    ensures forall k :: 5 <= k < 10 ==> !Contains("netflix", LowKeywords[k])
  {
    forall k | 5 <= k < 10 ensures !Contains("netflix", LowKeywords[k]) {
      if k == 5 {
        AbsentLetter("netflix", LowKeywords[5], 'c');
      } else if k == 6 {
        AbsentLetter("netflix", LowKeywords[6], 's');
      } else if k == 7 {
        AbsentLetter("netflix", LowKeywords[7], 'v');
      } else if k == 8 {
        AbsentLetter("netflix", LowKeywords[8], 'r');
      } else {
        AbsentLetter("netflix", LowKeywords[9], 'r');
      }
    }
  }

  lemma NetflixAvoidsLowKeywords10To14()
    ensures forall k :: 10 <= k < 15 ==> !Contains("netflix", LowKeywords[k])
  {
    forall k | 10 <= k < 15 ensures !Contains("netflix", LowKeywords[k]) {
      if k == 10 {
        AbsentLetter("netflix", LowKeywords[10], 'h');
      } else if k == 11 {
        AbsentLetter("netflix", LowKeywords[11], 's');
      } else if k == 12 {
        AbsentLetter("netflix", LowKeywords[12], 'g');
      } else if k == 13 {
        AbsentLetter("netflix", LowKeywords[13], 'c');
      } else {
        AbsentLetter("netflix", LowKeywords[14], 'g');
      }
    }
  }

  lemma NetflixAvoidsLowKeywords15To19()
    ensures forall k :: 15 <= k < 20 ==> !Contains("netflix", LowKeywords[k])
  {
    forall k | 15 <= k < 20 ensures !Contains("netflix", LowKeywords[k]) {
      if k == 15 {
        AbsentLetter("netflix", LowKeywords[15], 'h');
      } else if k == 16 {
        AbsentLetter("netflix", LowKeywords[16], 'p');
      } else if k == 17 {
        AbsentLetter("netflix", LowKeywords[17], 'c');
      } else if k == 18 {
        AbsentLetter("netflix", LowKeywords[18], 'b');
      } else {
        AbsentLetter("netflix", LowKeywords[19], 'a');
      }
    }
  }

  lemma NetflixAvoidsLowKeywords20To24()
    ensures forall k :: 20 <= k < 25 ==> !Contains("netflix", LowKeywords[k])
  {
    forall k | 20 <= k < 25 ensures !Contains("netflix", LowKeywords[k]) {
      if k == 20 {
        AbsentLetter("netflix", LowKeywords[20], 'u');
      } else if k == 21 {
        AbsentLetter("netflix", LowKeywords[21], 'j');
      } else if k == 22 {
        AbsentLetter("netflix", LowKeywords[22], 'w');
      } else if k == 23 {
        AbsentLetter("netflix", LowKeywords[23], 'b');
      } else {
        AbsentLetter("netflix", LowKeywords[24], 'd');
      }
    }
  }

  lemma NetflixAvoidsLowKeywords()
    ensures !Mentions("netflix", LowKeywords)
  {
    NetflixAvoidsLowKeywords0To4(); NetflixAvoidsLowKeywords5To9();
    NetflixAvoidsLowKeywords10To14(); NetflixAvoidsLowKeywords15To19();
    NetflixAvoidsLowKeywords20To24();
    ContainsAnyIsSome("netflix", LowKeywords);
  }

  lemma SubscriptionsAvoidsLowCategories0To4()
    ensures forall k :: 0 <= k < 5 ==> !Contains("subscriptions", LowCategories[k])
  {
    forall k | 0 <= k < 5 ensures !Contains("subscriptions", LowCategories[k]) {
      if k == 0 {
        AbsentLetter("subscriptions", LowCategories[0], 'e');
      } else if k == 1 {
        AbsentLetter("subscriptions", LowCategories[1], 'd');
      } else if k == 2 {
        AbsentLetter("subscriptions", LowCategories[2], 'a');
      } else if k == 3 {
        AbsentLetter("subscriptions", LowCategories[3], 'h');
      } else {
        AbsentLetter("subscriptions", LowCategories[4], 'h');
      }
    }
  }

  lemma SubscriptionsAvoidsLowCategories5To7()
    ensures forall k :: 5 <= k < 8 ==> !Contains("subscriptions", LowCategories[k])
  {
    forall k | 5 <= k < 8 ensures !Contains("subscriptions", LowCategories[k]) {
      if k == 5 {
        AbsentLetter("subscriptions", LowCategories[5], 'l');
      } else if k == 6 {
        AbsentLetter("subscriptions", LowCategories[6], 'e');
      } else {
        AbsentLetter("subscriptions", LowCategories[7], 'l');
      }
    }
  }

  lemma SubscriptionsAvoidsLowCategories()
    ensures !Mentions("subscriptions", LowCategories)
  {
    SubscriptionsAvoidsLowCategories0To4(); SubscriptionsAvoidsLowCategories5To7();
    ContainsAnyIsSome("subscriptions", LowCategories);
  }

  lemma WidgetAvoidsHighKeywords0To4()
    ensures forall k :: 0 <= k < 5 ==> !Contains("widget", HighKeywords[k])
  {
    forall k | 0 <= k < 5 ensures !Contains("widget", HighKeywords[k]) {
      if k == 0 {
        AbsentLetter("widget", HighKeywords[0], 'r');
      } else if k == 1 {
        AbsentLetter("widget", HighKeywords[1], 'm');
      } else if k == 2 {
        AbsentLetter("widget", HighKeywords[2], 'l');
      } else if k == 3 {
        AbsentLetter("widget", HighKeywords[3], 'm');
      } else {
        AbsentLetter("widget", HighKeywords[4], 'n');
      }
    }
  }

  lemma WidgetAvoidsHighKeywords5To9()
    ensures forall k :: 5 <= k < 10 ==> !Contains("widget", HighKeywords[k])
  {
    forall k | 5 <= k < 10 ensures !Contains("widget", HighKeywords[k]) {
      if k == 5 {
        AbsentLetter("widget", HighKeywords[5], 'm');
      } else if k == 6 {
        AbsentLetter("widget", HighKeywords[6], 'h');
      } else if k == 7 {
        AbsentLetter("widget", HighKeywords[7], 'm');
      } else if k == 8 {
        AbsentLetter("widget", HighKeywords[8], 'o');
      } else {
        AbsentLetter("widget", HighKeywords[9], 'h');
      }
    }
  }

  lemma WidgetAvoidsHighKeywords10To14()
    ensures forall k :: 10 <= k < 15 ==> !Contains("widget", HighKeywords[k])
  {
    forall k | 10 <= k < 15 ensures !Contains("widget", HighKeywords[k]) {
      if k == 10 {
        AbsentLetter("widget", HighKeywords[10], 'l');
      } else if k == 11 {
        AbsentLetter("widget", HighKeywords[11], 'a');
      } else if k == 12 {
        AbsentLetter("widget", HighKeywords[12], 'a');
      } else if k == 13 {
        AbsentLetter("widget", HighKeywords[13], 'u');
      } else {
        AbsentLetter("widget", HighKeywords[14], 'p');
      }
    }
  }

  lemma WidgetAvoidsHighKeywords15To19()
    ensures forall k :: 15 <= k < 20 ==> !Contains("widget", HighKeywords[k])
  {
    forall k | 15 <= k < 20 ensures !Contains("widget", HighKeywords[k]) {
      if k == 15 {
        AbsentLetter("widget", HighKeywords[15], 'n');
      } else if k == 16 {
        AbsentLetter("widget", HighKeywords[16], 'r');
      } else if k == 17 {
        AbsentLetter("widget", HighKeywords[17], 'f');
      } else if k == 18 {
        AbsentLetter("widget", HighKeywords[18], 'f');
      } else {
        AbsentLetter("widget", HighKeywords[19], 'p');
      }
    }
  }

  lemma WidgetAvoidsHighKeywords20To24()
    ensures forall k :: 20 <= k < 25 ==> !Contains("widget", HighKeywords[k])
  {
    forall k | 20 <= k < 25 ensures !Contains("widget", HighKeywords[k]) {
      if k == 20 {
        AbsentLetter("widget", HighKeywords[20], 's');
      } else if k == 21 {
        AbsentLetter("widget", HighKeywords[21], 's');
      } else if k == 22 {
        AbsentLetter("widget", HighKeywords[22], 'u');
      } else if k == 23 {
        AbsentLetter("widget", HighKeywords[23], 'u');
      } else {
        AbsentLetter("widget", HighKeywords[24], 'c');
      }
    }
  }

  lemma WidgetAvoidsHighKeywords25To28()
    ensures forall k :: 25 <= k < 29 ==> !Contains("widget", HighKeywords[k])
  {
    forall k | 25 <= k < 29 ensures !Contains("widget", HighKeywords[k]) {
      if k == 25 {
        AbsentLetter("widget", HighKeywords[25], 'a');
      } else if k == 26 {
        AbsentLetter("widget", HighKeywords[26], 'a');
      } else if k == 27 {
        AbsentLetter("widget", HighKeywords[27], 'b');
      } else {
        AbsentLetter("widget", HighKeywords[28], 'c');
      }
    }
  }

  lemma WidgetAvoidsHighKeywords()
    ensures !Mentions("widget", HighKeywords)
  {
    WidgetAvoidsHighKeywords0To4(); WidgetAvoidsHighKeywords5To9();
    WidgetAvoidsHighKeywords10To14(); WidgetAvoidsHighKeywords15To19();
    WidgetAvoidsHighKeywords20To24(); WidgetAvoidsHighKeywords25To28();
    ContainsAnyIsSome("widget", HighKeywords);
  }

  lemma BlankAvoidsHighCategories0To4()
    ensures forall k :: 0 <= k < 5 ==> !Contains("", HighCategories[k])
  {
    forall k | 0 <= k < 5 ensures !Contains("", HighCategories[k]) {
      if k == 0 {
        AbsentLetter("", HighCategories[0], 'h');
      } else if k == 1 {
        AbsentLetter("", HighCategories[1], 'u');
      } else if k == 2 {
        AbsentLetter("", HighCategories[2], 'h');
      } else if k == 3 {
        AbsentLetter("", HighCategories[3], 'i');
      } else {
        AbsentLetter("", HighCategories[4], 'd');
      }
    }
  }

  lemma BlankAvoidsHighCategories5To9()
    ensures forall k :: 5 <= k < 10 ==> !Contains("", HighCategories[k])
  {
    forall k | 5 <= k < 10 ensures !Contains("", HighCategories[k]) {
      if k == 5 {
        AbsentLetter("", HighCategories[5], 'e');
      } else if k == 6 {
        AbsentLetter("", HighCategories[6], 't');
      } else if k == 7 {
        AbsentLetter("", HighCategories[7], 'f');
      } else if k == 8 {
        AbsentLetter("", HighCategories[8], 'g');
      } else {
        AbsentLetter("", HighCategories[9], 'm');
      }
    }
  }

  lemma BlankAvoidsHighCategories10To10()
    ensures forall k :: 10 <= k < 11 ==> !Contains("", HighCategories[k])
  {
    forall k | 10 <= k < 11 ensures !Contains("", HighCategories[k]) {
      AbsentLetter("", HighCategories[10], 'e');
    }
  }

  lemma BlankAvoidsHighCategories()
    ensures !Mentions("", HighCategories)
  {
    BlankAvoidsHighCategories0To4(); BlankAvoidsHighCategories5To9();
    BlankAvoidsHighCategories10To10();
    ContainsAnyIsSome("", HighCategories);
  }

  lemma WidgetAvoidsLowKeywords0To4()
    ensures forall k :: 0 <= k < 5 ==> !Contains("widget", LowKeywords[k])
  {
    forall k | 0 <= k < 5 ensures !Contains("widget", LowKeywords[k]) {
      if k == 0 {
        AbsentLetter("widget", LowKeywords[0], 'n');
      } else if k == 1 {
        AbsentLetter("widget", LowKeywords[1], 'm');
      } else if k == 2 {
        AbsentLetter("widget", LowKeywords[2], 'c');
      } else if k == 3 {
        AbsentLetter("widget", LowKeywords[3], 'r');
      } else {
        AbsentLetter("widget", LowKeywords[4], 'n');
      }
    }
  }

  lemma WidgetAvoidsLowKeywords5To9()
    ensures forall k :: 5 <= k < 10 ==> !Contains("widget", LowKeywords[k])
  {
    forall k | 5 <= k < 10 ensures !Contains("widget", LowKeywords[k]) {
      if k == 5 {
        AbsentLetter("widget", LowKeywords[5], 'c');
      } else if k == 6 {
        AbsentLetter("widget", LowKeywords[6], 's');
      } else if k == 7 {
        AbsentLetter("widget", LowKeywords[7], 'v');
      } else if k == 8 {
        AbsentLetter("widget", LowKeywords[8], 'r');
      } else {
        AbsentLetter("widget", LowKeywords[9], 'r');
      }
    }
  }

  lemma WidgetAvoidsLowKeywords10To14()
    ensures forall k :: 10 <= k < 15 ==> !Contains("widget", LowKeywords[k])
  {
    forall k | 10 <= k < 15 ensures !Contains("widget", LowKeywords[k]) {
      if k == 10 {
        AbsentLetter("widget", LowKeywords[10], 'h');
      } else if k == 11 {
        AbsentLetter("widget", LowKeywords[11], 's');
      } else if k == 12 {
        AbsentLetter("widget", LowKeywords[12], 'a');
      } else if k == 13 {
        AbsentLetter("widget", LowKeywords[13], 'l');
      } else {
        AbsentLetter("widget", LowKeywords[14], 'a');
      }
    }
  }

  lemma WidgetAvoidsLowKeywords15To19()
    ensures forall k :: 15 <= k < 20 ==> !Contains("widget", LowKeywords[k])
  {
    forall k | 15 <= k < 20 ensures !Contains("widget", LowKeywords[k]) {
      if k == 15 {
        AbsentLetter("widget", LowKeywords[15], 'h');
      } else if k == 16 {
        AbsentLetter("widget", LowKeywords[16], 'p');
      } else if k == 17 {
        AbsentLetter("widget", LowKeywords[17], 'c');
      } else if k == 18 {
        AbsentLetter("widget", LowKeywords[18], 'b');
      } else {
        AbsentLetter("widget", LowKeywords[19], 'a');
      }
    }
  }

  lemma WidgetAvoidsLowKeywords20To24()
    ensures forall k :: 20 <= k < 25 ==> !Contains("widget", LowKeywords[k])
  {
    forall k | 20 <= k < 25 ensures !Contains("widget", LowKeywords[k]) {
      if k == 20 {
        AbsentLetter("widget", LowKeywords[20], 'l');
      } else if k == 21 {
        AbsentLetter("widget", LowKeywords[21], 'j');
      } else if k == 22 {
        AbsentLetter("widget", LowKeywords[22], 'a');
      } else if k == 23 {
        AbsentLetter("widget", LowKeywords[23], 'b');
      } else {
        AbsentLetter("widget", LowKeywords[24], 's');
      }
    }
  }

  lemma WidgetAvoidsLowKeywords()
    ensures !Mentions("widget", LowKeywords)
  {
    WidgetAvoidsLowKeywords0To4(); WidgetAvoidsLowKeywords5To9();
    WidgetAvoidsLowKeywords10To14(); WidgetAvoidsLowKeywords15To19();
    WidgetAvoidsLowKeywords20To24();
    ContainsAnyIsSome("widget", LowKeywords);
  }

  lemma BlankAvoidsLowCategories0To4()
    ensures forall k :: 0 <= k < 5 ==> !Contains("", LowCategories[k])
  {
    forall k | 0 <= k < 5 ensures !Contains("", LowCategories[k]) {
      if k == 0 {
        AbsentLetter("", LowCategories[0], 'e');
      } else if k == 1 {
        AbsentLetter("", LowCategories[1], 'd');
      } else if k == 2 {
        AbsentLetter("", LowCategories[2], 't');
      } else if k == 3 {
        AbsentLetter("", LowCategories[3], 's');
      } else {
        AbsentLetter("", LowCategories[4], 'h');
      }
    }
  }

  lemma BlankAvoidsLowCategories5To7()
    ensures forall k :: 5 <= k < 8 ==> !Contains("", LowCategories[k])
  {
    forall k | 5 <= k < 8 ensures !Contains("", LowCategories[k]) {
      if k == 5 {
        AbsentLetter("", LowCategories[5], 'l');
      } else if k == 6 {
        AbsentLetter("", LowCategories[6], 'r');
      } else {
        AbsentLetter("", LowCategories[7], 'l');
      }
    }
  }

  lemma BlankAvoidsLowCategories()
    ensures !Mentions("", LowCategories)
  {
    BlankAvoidsLowCategories0To4(); BlankAvoidsLowCategories5To7();
    ContainsAnyIsSome("", LowCategories);
  }

  lemma BarberAvoidsHighKeywords0To4()
    ensures forall k :: 0 <= k < 5 ==> !Contains("barber", HighKeywords[k])
  {
    forall k | 0 <= k < 5 ensures !Contains("barber", HighKeywords[k]) {
      if k == 0 {
        AbsentLetter("barber", HighKeywords[0], 'n');
      } else if k == 1 {
        AbsentLetter("barber", HighKeywords[1], 'm');
      } else if k == 2 {
        AbsentLetter("barber", HighKeywords[2], 'l');
      } else if k == 3 {
        AbsentLetter("barber", HighKeywords[3], 'm');
      } else {
        AbsentLetter("barber", HighKeywords[4], 'i');
      }
    }
  }

  lemma BarberAvoidsHighKeywords5To9()
    ensures forall k :: 5 <= k < 10 ==> !Contains("barber", HighKeywords[k])
  {
    forall k | 5 <= k < 10 ensures !Contains("barber", HighKeywords[k]) {
      if k == 5 {
        AbsentLetter("barber", HighKeywords[5], 'm');
      } else if k == 6 {
        AbsentLetter("barber", HighKeywords[6], 'h');
      } else if k == 7 {
        AbsentLetter("barber", HighKeywords[7], 'm');
      } else if k == 8 {
        AbsentLetter("barber", HighKeywords[8], 'd');
      } else {
        AbsentLetter("barber", HighKeywords[9], 'h');
      }
    }
  }

  lemma BarberAvoidsHighKeywords10To14()
    ensures forall k :: 10 <= k < 15 ==> !Contains("barber", HighKeywords[k])
  {
    forall k | 10 <= k < 15 ensures !Contains("barber", HighKeywords[k]) {
      if k == 10 {
        AbsentLetter("barber", HighKeywords[10], 'l');
      } else if k == 11 {
        AbsentLetter("barber", HighKeywords[11], 'w');
      } else if k == 12 {
        AbsentLetter("barber", HighKeywords[12], 'g');
      } else if k == 13 {
        AbsentLetter("barber", HighKeywords[13], 'u');
      } else {
        AbsentLetter("barber", HighKeywords[14], 'p');
      }
    }
  }

  lemma BarberAvoidsHighKeywords15To19()
    ensures forall k :: 15 <= k < 20 ==> !Contains("barber", HighKeywords[k])
  {
    forall k | 15 <= k < 20 ensures !Contains("barber", HighKeywords[k]) {
      if k == 15 {
        AbsentLetter("barber", HighKeywords[15], 'i');
      } else if k == 16 {
        AbsentLetter("barber", HighKeywords[16], 'g');
      } else if k == 17 {
        AbsentLetter("barber", HighKeywords[17], 'f');
      } else if k == 18 {
        AbsentLetter("barber", HighKeywords[18], 'f');
      } else {
        AbsentLetter("barber", HighKeywords[19], 'p');
      }
    }
  }

  lemma BarberAvoidsHighKeywords20To24()
    ensures forall k :: 20 <= k < 25 ==> !Contains("barber", HighKeywords[k])
  {
    forall k | 20 <= k < 25 ensures !Contains("barber", HighKeywords[k]) {
      if k == 20 {
        AbsentLetter("barber", HighKeywords[20], 'd');
      } else if k == 21 {
        AbsentLetter("barber", HighKeywords[21], 's');
      } else if k == 22 {
        AbsentLetter("barber", HighKeywords[22], 'd');
      } else if k == 23 {
        AbsentLetter("barber", HighKeywords[23], 't');
      } else {
        AbsentLetter("barber", HighKeywords[24], 'c');
      }
    }
  }

  lemma BarberAvoidsHighKeywords25To28()
    ensures forall k :: 25 <= k < 29 ==> !Contains("barber", HighKeywords[k])
  {
    forall k | 25 <= k < 29 ensures !Contains("barber", HighKeywords[k]) {
      if k == 25 {
        AbsentLetter("barber", HighKeywords[25], 'd');
      } else if k == 26 {
        AbsentLetter("barber", HighKeywords[26], 't');
      } else if k == 27 {
        AbsentLetter("barber", HighKeywords[27], 'd');
      } else {
        AbsentLetter("barber", HighKeywords[28], 'c');
      }
    }
  }

  lemma BarberAvoidsHighKeywords()
    ensures !Mentions("barber", HighKeywords)
  {
    BarberAvoidsHighKeywords0To4(); BarberAvoidsHighKeywords5To9();
    BarberAvoidsHighKeywords10To14(); BarberAvoidsHighKeywords15To19();
    BarberAvoidsHighKeywords20To24(); BarberAvoidsHighKeywords25To28();
    ContainsAnyIsSome("barber", HighKeywords);
  }
}
