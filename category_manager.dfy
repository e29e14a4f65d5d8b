/** The category list of components/expense-category-manager.tsx: searchable, filterable
    expense categories with an add form, totals and a fixed set of suggested categories. */
module CategoryManager {
  import opened Folds
  import opened Text

  datatype Category = Category(
    id: string,
    name: string,
    description: string,
    color: string,
    icon: string,
    isDefault: bool,
    isActive: bool,
    expenseCount: nat,
    totalAmount: real,
    deductiblePercentage: real,
    taxEfficiency: real,
    suggestions: seq<string>,
    lastUsed: string)

  datatype CategoryForm = CategoryForm(name: string, description: string, color: string, icon: string)

  const EmptyForm: CategoryForm := CategoryForm("", "", "#3B82F6", "\U{1F4C4}")

  datatype Suggestion = Suggestion(
    name: string,
    confidence: real,
    reason: string,
    similarCategories: seq<string>,
    taxBenefits: seq<string>)

  const InitialCategories: seq<Category> := [
    Category("1", "Office Supplies", "Stationery, paper, printer ink, and general office materials",
             "#3B82F6", "\U{1F4C4}", true, true, 45, 25000.0, 95.0, 92.0,
             ["Consider bulk purchases for better rates", "Track seasonal office needs"], "2024-01-15"),
    Category("2", "Software & Technology", "Software licenses, cloud services, and tech tools",
             "#10B981", "\U{1F4BB}", true, true, 23, 18000.0, 100.0, 98.0,
             ["Evaluate annual vs monthly subscriptions", "Consider open-source alternatives"], "2024-01-10"),
    Category("3", "Travel & Transportation", "Business travel, fuel, and transportation costs",
             "#F59E0B", "\U{1F697}", true, true, 18, 15000.0, 85.0, 78.0,
             ["Track mileage for personal vehicle use", "Separate business vs personal travel"], "2024-01-08")
  ]

  const FixedSuggestions: seq<Suggestion> := [
    Suggestion("Home Office Expenses", 0.95, "High potential for tax deductions based on your work pattern",
               ["Office Supplies", "Utilities"],
               ["100% deductible", "Simplified method available", "Regular monthly expenses"]),
    Suggestion("Equipment & Machinery", 0.88, "Capital expenses that can be depreciated over time",
               ["Software & Technology", "Office Supplies"],
               ["Depreciation benefits", "Section 179 deduction", "Bonus depreciation available"])
  ]

  const NewCategoryTips: seq<string> := ["New category - monitor usage patterns", "Consider tax implications"]

  /** The list filter: a case-insensitive name search combined with "all", "active" or "inactive". */
  predicate Matches(c: Category, searchQuery: string, selectedFilter: string)
  {
    Contains(ToLower(c.name), ToLower(searchQuery))
    && (selectedFilter == "all"
        || (selectedFilter == "active" && c.isActive)
        || (selectedFilter == "inactive" && !c.isActive))
  }

  function MatcherFor(searchQuery: string, selectedFilter: string): Category -> bool
  {
    c => Matches(c, searchQuery, selectedFilter)
  }

  /** `filteredCategories`: the listed categories, a subsequence of the list. */
  function FilterCategories(cs: seq<Category>, searchQuery: string, selectedFilter: string): (r: seq<Category>)
    ensures |r| <= |cs|
    ensures forall c :: c in r ==> c in cs && Matches(c, searchQuery, selectedFilter)
  {
    Filter(cs, MatcherFor(searchQuery, selectedFilter))
  }

  /** "active" lists only active categories and "inactive" only inactive ones; any other
      filter value except "all" lists nothing. */
  lemma FilterByActivity(cs: seq<Category>, searchQuery: string, selectedFilter: string, c: Category)
    ensures c in FilterCategories(cs, searchQuery, selectedFilter) <==> c in cs && Matches(c, searchQuery, selectedFilter)
    ensures selectedFilter == "active" && c in FilterCategories(cs, searchQuery, selectedFilter) ==> c.isActive
    ensures selectedFilter == "inactive" && c in FilterCategories(cs, searchQuery, selectedFilter) ==> !c.isActive
    ensures selectedFilter !in {"all", "active", "inactive"} ==> c !in FilterCategories(cs, searchQuery, selectedFilter)
  {
    FilterMembership(cs, MatcherFor(searchQuery, selectedFilter), c);
  }

  function CategoryAmount(c: Category): real { c.totalAmount }
  predicate IsActive(c: Category) { c.isActive }

  /** `totalExpenses`: the amounts booked under all categories. */
  function TotalExpenses(cs: seq<Category>): (t: real)
    ensures cs == [] ==> t == 0.0
    ensures (forall c :: c in cs ==> c.totalAmount >= 0.0) ==> t >= 0.0
  {
    assert (forall c :: c in cs ==> c.totalAmount >= 0.0) ==> Sum(cs, CategoryAmount) >= 0.0 by {
      if forall c :: c in cs ==> c.totalAmount >= 0.0 { SumNonNegative(cs, CategoryAmount); }
    }
    Sum(cs, CategoryAmount)
  }
  function ActiveCategories(cs: seq<Category>): (n: nat)
    ensures n <= |cs|
  {
    Count(cs, IsActive)
  }

  /** `addCategory`'s new entry: not a default, active, unused, fully deductible. */
  function NewCategory(form: CategoryForm, id: string, today: string): (c: Category)
    ensures c.name == form.name && c.description == form.description && c.color == form.color && c.icon == form.icon
    ensures !c.isDefault && c.isActive && c.expenseCount == 0 && c.totalAmount == 0.0
    ensures c.deductiblePercentage == 100.0 && c.taxEfficiency == 100.0
    ensures c.id == id && c.lastUsed == today && c.suggestions == NewCategoryTips
    ensures CanDelete(c)
  {
    Category(id, form.name, form.description, form.color, form.icon, false, true, 0, 0.0, 100.0, 100.0,
             NewCategoryTips, today)
  }

  /** The guard of `addCategory`. */
  predicate FormComplete(form: CategoryForm)
  {
    form.name != "" && form.description != ""
  }

  /** Adding a category leaves the total amount unchanged and adds one active category. */
  lemma AddKeepsTotalRaisesActive(cs: seq<Category>, form: CategoryForm, id: string, today: string)
    ensures TotalExpenses(cs + [NewCategory(form, id, today)]) == TotalExpenses(cs)
    ensures ActiveCategories(cs + [NewCategory(form, id, today)]) == ActiveCategories(cs) + 1
  {
    var c := NewCategory(form, id, today);
    SumAppend(cs, [c], CategoryAmount);
    FilterAppend(cs, [c], IsActive);
    assert [c][..0] == [];
  }

  /** A delete action is offered only for categories the user added. */
  predicate CanDelete(c: Category)
  {
    !c.isDefault
  }

  /** The initial list: three active categories totalling 58000, none deletable. */
  lemma InitialFigures()
    ensures |InitialCategories| == 3
    ensures TotalExpenses(InitialCategories) == 58000.0
    ensures ActiveCategories(InitialCategories) == 3
    ensures forall c :: c in InitialCategories ==> !CanDelete(c)
  {
    var s := InitialCategories;
    assert s[..1][..0] == [];
    assert s[..2][..1] == s[..1];
    assert s[..3] == s;
    assert Sum(s[..1], CategoryAmount) == 25000.0;
    assert Sum(s[..2], CategoryAmount) == 43000.0;
    FilterKeepsAll(s, IsActive);
  }

  class Manager {
    var categories: seq<Category>
    var newCategory: CategoryForm
    var searchQuery: string
    var selectedFilter: string
    var showAIInsights: bool
    var aiSuggestions: seq<Suggestion>

    constructor ()
      ensures categories == InitialCategories && newCategory == EmptyForm
      ensures searchQuery == "" && selectedFilter == "all" && !showAIInsights && aiSuggestions == []
    {
      categories := InitialCategories;
      newCategory := EmptyForm;
      searchQuery := "";
      selectedFilter := "all";
      showAIInsights := false;
      aiSuggestions := [];
    }

    function Filtered(): (r: seq<Category>)
      reads this
      ensures forall c :: c in r ==> c in categories && Matches(c, searchQuery, selectedFilter)
    {
      FilterCategories(categories, searchQuery, selectedFilter)
    }

    /** `generateAISuggestions`: the two fixed suggestions are shown. */
    method GenerateAISuggestions()
      modifies this
      ensures aiSuggestions == FixedSuggestions && showAIInsights
      ensures categories == old(categories) && newCategory == old(newCategory)
      ensures searchQuery == old(searchQuery) && selectedFilter == old(selectedFilter)
    {
      aiSuggestions := FixedSuggestions;
      showAIInsights := true;
    }

    /** `addCategory`. The id (`Date.now()`) and today's date are supplied by the caller. */
    method AddCategory(id: string, today: string)
      modifies this
      ensures FormComplete(old(newCategory)) ==>
        categories == old(categories) + [NewCategory(old(newCategory), id, today)] && newCategory == EmptyForm
      ensures !FormComplete(old(newCategory)) ==> categories == old(categories) && newCategory == old(newCategory)
      ensures searchQuery == old(searchQuery) && selectedFilter == old(selectedFilter)
      ensures showAIInsights == old(showAIInsights) && aiSuggestions == old(aiSuggestions)
    {
      if newCategory.name != "" && newCategory.description != "" {
        categories := categories + [NewCategory(newCategory, id, today)];
        newCategory := EmptyForm;
      }
    }
  }
}
