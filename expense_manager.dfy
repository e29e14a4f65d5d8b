/** The expense list of components/enhanced-expense-manager.tsx: a searchable, filterable
    list of expenses with totals, an add form and a breakdown over a fixed category list. */
module ExpenseManager {
  import opened Folds
  import opened Numeric
  import opened Text

  datatype Status = Pending | Approved | Rejected

  datatype Expense = Expense(
    id: string,
    description: string,
    amount: real,
    category: string,
    date: string,
    receipt: string,
    deductible: bool,
    status: Status,
    notes: string)

  /** The add form; the amount is still the text the user typed. */
  datatype ExpenseForm = ExpenseForm(
    description: string,
    amount: string,
    category: string,
    date: string,
    deductible: bool,
    notes: string)

  const EmptyForm: ExpenseForm := ExpenseForm("", "", "", "", true, "")

  const InitialExpenses: seq<Expense> := [
    Expense("1", "Office Supplies - Printer Paper", 2500.0, "Office Supplies", "2024-01-15",
            "receipt_001.jpg", true, Approved, "Monthly office supplies purchase"),
    Expense("2", "Software Subscription - Adobe Creative Suite", 18000.0, "Software", "2024-01-10",
            "receipt_002.jpg", true, Approved, "Annual software license renewal"),
    Expense("3", "Business Travel - Client Meeting", 8500.0, "Travel", "2024-01-08",
            "receipt_003.jpg", true, Pending, "Travel expenses for client presentation")
  ]

  /** The categories the breakdown lists, in display order. */
  const Categories: seq<string> :=
    ["Office Supplies", "Software", "Travel", "Marketing", "Utilities", "Insurance", "Equipment", "Professional Services"]

  function Amount(e: Expense): real { e.amount }
  predicate IsDeductible(e: Expense) { e.deductible }
  predicate IsPending(e: Expense) { e.status == Pending }

  predicate AllNonNegative(es: seq<Expense>)
  {
    forall e :: e in es ==> e.amount >= 0.0
  }

  /** The list filter: the category matches ("all" matches every category) and the
      lower-cased description contains the lower-cased search text. */
  predicate Matches(e: Expense, selectedCategory: string, searchQuery: string)
  {
    (selectedCategory == "all" || e.category == selectedCategory)
    && Contains(ToLower(e.description), ToLower(searchQuery))
  }

  function MatcherFor(selectedCategory: string, searchQuery: string): Expense -> bool
  {
    e => Matches(e, selectedCategory, searchQuery)
  }

  /** `filteredExpenses`: the listed expenses, a subsequence of the list. */
  function FilterExpenses(es: seq<Expense>, selectedCategory: string, searchQuery: string): (r: seq<Expense>)
    ensures |r| <= |es|
    ensures forall e :: e in r ==> e in es && Matches(e, selectedCategory, searchQuery)
  {
    Filter(es, MatcherFor(selectedCategory, searchQuery))
  }

  /** An expense is listed exactly when it is in the list and matches both criteria. */
  lemma FilterExpensesMembership(es: seq<Expense>, selectedCategory: string, searchQuery: string, e: Expense)
    ensures e in FilterExpenses(es, selectedCategory, searchQuery) <==> e in es && Matches(e, selectedCategory, searchQuery)
  {
    FilterMembership(es, MatcherFor(selectedCategory, searchQuery), e);
  }

  /** "all" with an empty search lists every expense, in order. */
  lemma FilterAllEmptyKeepsAll(es: seq<Expense>)
    ensures FilterExpenses(es, "all", "") == es
  {
    forall e | e in es ensures Matches(e, "all", "") {
      ContainsEmpty(ToLower(e.description));
    }
    FilterKeepsAll(es, MatcherFor("all", ""));
  }

  /** `totalExpenses`: the sum of all amounts. */
  function TotalExpenses(es: seq<Expense>): (t: real)
    ensures es == [] ==> t == 0.0
    ensures AllNonNegative(es) ==> t >= 0.0
  {
    assert AllNonNegative(es) ==> Sum(es, Amount) >= 0.0 by {
      if AllNonNegative(es) { SumNonNegative(es, Amount); }
    }
    Sum(es, Amount)
  }

  /** `deductibleExpenses`: the sum of the amounts marked deductible. */
  function DeductibleExpenses(es: seq<Expense>): (d: real)
    ensures (forall e :: e in es ==> !e.deductible) ==> d == 0.0
    ensures (forall e :: e in es ==> e.deductible) ==> d == TotalExpenses(es)
  {
    var kept := Filter(es, IsDeductible);
    assert (forall e :: e in es ==> !e.deductible) ==> kept == [] by {
      if forall e :: e in es ==> !e.deductible { FilterNone(es, IsDeductible); }
    }
    assert (forall e :: e in es ==> e.deductible) ==> kept == es by {
      if forall e :: e in es ==> e.deductible { FilterKeepsAll(es, IsDeductible); }
    }
    Sum(kept, Amount)
  }

  /** `pendingExpenses`: the sum of the amounts still pending approval. */
  function PendingExpenses(es: seq<Expense>): (p: real)
    ensures (forall e :: e in es ==> e.status != Pending) ==> p == 0.0
    ensures (forall e :: e in es ==> e.status == Pending) ==> p == TotalExpenses(es)
  {
    var kept := Filter(es, IsPending);
    assert (forall e :: e in es ==> e.status != Pending) ==> kept == [] by {
      if forall e :: e in es ==> e.status != Pending { FilterNone(es, IsPending); }
    }
    assert (forall e :: e in es ==> e.status == Pending) ==> kept == es by {
      if forall e :: e in es ==> e.status == Pending { FilterKeepsAll(es, IsPending); }
    }
    Sum(kept, Amount)
  }

  /** With non-negative amounts the deductible and pending sums lie between 0 and the total. */
  lemma TotalsBounded(es: seq<Expense>)
    requires AllNonNegative(es)
    ensures 0.0 <= DeductibleExpenses(es) <= TotalExpenses(es)
    ensures 0.0 <= PendingExpenses(es) <= TotalExpenses(es)
  {
    FilteredSumAtMostTotal(es, IsDeductible, Amount);
    FilteredSumAtMostTotal(es, IsPending, Amount);
  }

  /** The "Deduction Rate" card, in percent; 0 when there are no positive expenses. */
  function DeductionRate(es: seq<Expense>): (rate: real)
    ensures TotalExpenses(es) <= 0.0 ==> rate == 0.0
    ensures TotalExpenses(es) > 0.0 ==> rate == DeductibleExpenses(es) / TotalExpenses(es) * 100.0
  {
    if TotalExpenses(es) > 0.0 then DeductibleExpenses(es) / TotalExpenses(es) * 100.0 else 0.0
  }

  /** With non-negative amounts the card shows a percentage between 0 and 100: 0 when nothing
      is deductible and 100 when everything is. */
  lemma DeductionRateBounded(es: seq<Expense>)
    requires AllNonNegative(es)
    ensures 0.0 <= DeductionRate(es) <= 100.0
    ensures DeductibleExpenses(es) == 0.0 ==> DeductionRate(es) == 0.0
    ensures TotalExpenses(es) > 0.0 && DeductibleExpenses(es) == TotalExpenses(es) ==> DeductionRate(es) == 100.0
  {
    TotalsBounded(es);
    if TotalExpenses(es) > 0.0 {
      FractionBounds(DeductibleExpenses(es), TotalExpenses(es));
    }
  }

  predicate InCategoryOf(c: string, e: Expense) { e.category == c }

  function InCategory(c: string): Expense -> bool
  {
    e => InCategoryOf(c, e)
  }

  /** The amount of one breakdown row. */
  function CategoryTotal(es: seq<Expense>, c: string): (t: real)
    ensures (forall e :: e in es ==> e.category != c) ==> t == 0.0
    ensures AllNonNegative(es) ==> 0.0 <= t <= TotalExpenses(es)
  {
    assert (forall e :: e in es ==> e.category != c) ==> Filter(es, InCategory(c)) == [] by {
      if forall e :: e in es ==> e.category != c { FilterNone(es, InCategory(c)); }
    }
    assert AllNonNegative(es) ==> 0.0 <= Sum(Filter(es, InCategory(c)), Amount) <= Sum(es, Amount) by {
      if AllNonNegative(es) { FilteredSumAtMostTotal(es, InCategory(c), Amount); }
    }
    Sum(Filter(es, InCategory(c)), Amount)
  }

  datatype BreakdownRow = BreakdownRow(category: string, total: real, percentage: real)

  function RowOf(es: seq<Expense>, c: string): (row: BreakdownRow)
    ensures row.category == c && row.total == CategoryTotal(es, c)
    ensures TotalExpenses(es) <= 0.0 ==> row.percentage == 0.0
    ensures TotalExpenses(es) > 0.0 ==> row.percentage == CategoryTotal(es, c) / TotalExpenses(es) * 100.0
  {
    var total := TotalExpenses(es);
    BreakdownRow(c, CategoryTotal(es, c), if total > 0.0 then CategoryTotal(es, c) / total * 100.0 else 0.0)
  }

  /** One row per fixed category, in the fixed order. */
  function Breakdown(es: seq<Expense>): (rows: seq<BreakdownRow>)
    ensures |rows| == |Categories|
    ensures forall k :: 0 <= k < |rows| ==> rows[k] == RowOf(es, Categories[k])
  {
    seq(|Categories|, k requires 0 <= k < |Categories| => RowOf(es, Categories[k]))
  }

  /** An expense filed under a category outside the fixed list changes no row's amount. */
  lemma UnlistedCategoryNotShown(es: seq<Expense>, e: Expense)
    requires e.category !in Categories
    ensures forall k :: 0 <= k < |Categories| ==> Breakdown(es + [e])[k].total == Breakdown(es)[k].total
  {
    forall k | 0 <= k < |Categories| ensures CategoryTotal(es + [e], Categories[k]) == CategoryTotal(es, Categories[k]) {
      var c := Categories[k];
      assert !InCategory(c)(e);
      FilterAppend(es, [e], InCategory(c));
      assert Filter([e], InCategory(c)) == [] by { assert [e][..0] == []; }
      assert Filter(es + [e], InCategory(c)) == Filter(es, InCategory(c));
    }
  }

  /** The record `addExpense` builds from the form, with the parsed amount and a fresh id. */
  function NewExpense(form: ExpenseForm, id: string, parsedAmount: real): (e: Expense)
    ensures e.status == Pending && e.receipt == "" && e.deductible == form.deductible
    ensures e.description == form.description && e.category == form.category && e.date == form.date
    ensures e.id == id && e.amount == parsedAmount && e.notes == form.notes
  {
    Expense(id, form.description, parsedAmount, form.category, form.date, "", form.deductible, Pending, form.notes)
  }

  /** The guard of `addExpense`: description, amount, category and date are all filled in. */
  predicate FormComplete(form: ExpenseForm)
  {
    form.description != "" && form.amount != "" && form.category != "" && form.date != ""
  }

  class Manager {
    var expenses: seq<Expense>
    var newExpense: ExpenseForm
    var selectedCategory: string
    var searchQuery: string

    constructor ()
      ensures expenses == InitialExpenses && newExpense == EmptyForm
      ensures selectedCategory == "all" && searchQuery == ""
    {
      expenses := InitialExpenses;
      newExpense := EmptyForm;
      selectedCategory := "all";
      searchQuery := "";
    }

    /** The expenses the list shows. */
    function Filtered(): (r: seq<Expense>)
      reads this
      ensures forall e :: e in r ==> e in expenses && Matches(e, selectedCategory, searchQuery)
    {
      FilterExpenses(expenses, selectedCategory, searchQuery)
    }

    /** `addExpense`. The id (`Date.now()`) and the parsed amount (`parseFloat`) are supplied by the caller. */
    method AddExpense(id: string, parsedAmount: real)
      modifies this
      ensures FormComplete(old(newExpense)) ==>
        expenses == old(expenses) + [NewExpense(old(newExpense), id, parsedAmount)] && newExpense == EmptyForm
      ensures !FormComplete(old(newExpense)) ==> expenses == old(expenses) && newExpense == old(newExpense)
      ensures selectedCategory == old(selectedCategory) && searchQuery == old(searchQuery)
    {
      if newExpense.description != "" && newExpense.amount != "" && newExpense.category != "" && newExpense.date != "" {
        var expense := NewExpense(newExpense, id, parsedAmount);
        expenses := expenses + [expense];
        newExpense := EmptyForm;
      }
    }
  }

  /** Adding a record of amount `x` raises the total by `x`, and the pending sum by `x` too,
      since a new record is always pending. */
  lemma AddRaisesTotals(es: seq<Expense>, form: ExpenseForm, id: string, x: real)
    ensures TotalExpenses(es + [NewExpense(form, id, x)]) == TotalExpenses(es) + x
    ensures PendingExpenses(es + [NewExpense(form, id, x)]) == PendingExpenses(es) + x
  {
    var e := NewExpense(form, id, x);
    SumAppend(es, [e], Amount);
    FilterAppend(es, [e], IsPending);
    assert [e][..0] == [];
    assert Filter([e], IsPending) == [e];
    SumAppend(Filter(es, IsPending), [e], Amount);
  }

  /** The initial list: total 29000, all of it deductible, 8500 pending. */
  lemma InitialTotals()
    ensures TotalExpenses(InitialExpenses) == 29000.0
    ensures DeductibleExpenses(InitialExpenses) == 29000.0
    ensures PendingExpenses(InitialExpenses) == 8500.0
  {
    var s := InitialExpenses;
    assert s[..1][..0] == [];
    assert s[..2][..1] == s[..1];
    assert s[..3] == s;
    assert Sum(s[..1], Amount) == 2500.0;
    assert Sum(s[..2], Amount) == 20500.0;
    FilterKeepsAll(s, IsDeductible);
    assert Filter(s[..1], IsPending) == [];
    assert Filter(s[..2], IsPending) == [];
    assert Filter(s, IsPending) == [s[2]];
    assert [s[2]][..0] == [];
  }
}
