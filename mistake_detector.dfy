/** The tax-mistake list of components/mistake-detector.tsx: a category filter, savings and
    status counts, and the detected -> resolved / ignored transitions of each mistake. */
module MistakeDetector {
  import opened Folds

  datatype MistakeCategory = Deduction | Filing | Compliance | Optimization
  datatype Severity = High | Medium | Low
  datatype MistakeStatus = Detected | Resolved | Ignored

  datatype TaxMistake = TaxMistake(
    id: string,
    category: MistakeCategory,
    severity: Severity,
    title: string,
    potentialSavings: real,
    status: MistakeStatus,
    detectedDate: string)

  /** The name the category filter compares against. */
  function CategoryName(c: MistakeCategory): string
  {
    match c
    case Deduction => "deduction"
    case Filing => "filing"
    case Compliance => "compliance"
    case Optimization => "optimization"
  }

  const MockMistakes: seq<TaxMistake> := [
    TaxMistake("1", Deduction, High, "Missing HRA Deduction", 18000.0, Detected, "2024-01-10"),
    TaxMistake("2", Filing, Medium, "Incorrect ITR Form Selection", 0.0, Detected, "2024-01-08"),
    TaxMistake("3", Optimization, Medium, "Suboptimal Investment Allocation", 9300.0, Detected, "2024-01-05"),
    TaxMistake("4", Compliance, High, "TDS Mismatch", 0.0, Detected, "2024-01-12"),
    TaxMistake("5", Deduction, Low, "Medical Insurance Premium", 7750.0, Resolved, "2024-01-01")
  ]

  predicate InCategoryOf(selected: string, m: TaxMistake) { CategoryName(m.category) == selected }

  function InCategory(selected: string): TaxMistake -> bool
  {
    m => InCategoryOf(selected, m)
  }

  /** `filteredMistakes`: "all" shows the whole list, any other value one category. */
  function FilterMistakes(ms: seq<TaxMistake>, selected: string): (r: seq<TaxMistake>)
    ensures selected == "all" ==> r == ms
    ensures selected != "all" ==> forall m :: m in r <==> m in ms && CategoryName(m.category) == selected
  {
    if selected == "all" then ms
    else
      var r := Filter(ms, InCategory(selected));
      forall m ensures m in r <==> m in ms && CategoryName(m.category) == selected {
        FilterMembership(ms, InCategory(selected), m);
      }
      r
  }

  /** The values of the category buttons above the list. */
  const FilterButtons: set<string> := {"all", "deduction", "filing", "compliance", "optimization"}

  predicate IsDetected(m: TaxMistake) { m.status == Detected }
  predicate IsResolved(m: TaxMistake) { m.status == Resolved }
  function Savings(m: TaxMistake): real { m.potentialSavings }
  function DetectedSavings(m: TaxMistake): real { if m.status == Detected then m.potentialSavings else 0.0 }

  /** `totalPotentialSavings`: savings over the mistakes still detected. */
  function TotalPotentialSavings(ms: seq<TaxMistake>): (t: real)
    ensures DetectedCount(ms) == 0 ==> t == 0.0
    ensures (forall m :: m in ms ==> m.potentialSavings >= 0.0) ==> t >= 0.0
  {
    assert (forall m :: m in ms ==> m.potentialSavings >= 0.0) ==> Sum(Filter(ms, IsDetected), Savings) >= 0.0 by {
      if forall m :: m in ms ==> m.potentialSavings >= 0.0 { SumNonNegative(Filter(ms, IsDetected), Savings); }
    }
    Sum(Filter(ms, IsDetected), Savings)
  }

  /** `detectedCount`; a mistake is never both detected and resolved, so the two counts fit in the list. */
  function DetectedCount(ms: seq<TaxMistake>): (n: nat)
    ensures n + ResolvedCount(ms) <= |ms|
  {
    CountDisjoint(ms, IsDetected, IsResolved);
    Count(ms, IsDetected)
  }

  /** `resolvedCount`. */
  function ResolvedCount(ms: seq<TaxMistake>): (n: nat)
    ensures n <= |ms|
  {
    Count(ms, IsResolved)
  }

  /** The list after a status button: every mistake with the given id takes the new status. */
  function SetStatus(ms: seq<TaxMistake>, id: string, st: MistakeStatus): (r: seq<TaxMistake>)
    ensures |r| == |ms|
    ensures forall i :: 0 <= i < |ms| ==> r[i] == if ms[i].id == id then ms[i].(status := st) else ms[i]
  {
    seq(|ms|, i requires 0 <= i < |ms| => if ms[i].id == id then ms[i].(status := st) else ms[i])
  }

  predicate UniqueIds(ms: seq<TaxMistake>)
  {
    forall i, j :: 0 <= i < j < |ms| ==> ms[i].id != ms[j].id
  }

  /** With unique ids, a status change is an update of that one position. */
  lemma SetStatusIsUpdate(ms: seq<TaxMistake>, k: nat, st: MistakeStatus)
    requires UniqueIds(ms) && k < |ms|
    ensures SetStatus(ms, ms[k].id, st) == ms[k := ms[k].(status := st)]
  {
  }

  /** With unique ids, resolving a detected mistake moves one count from detected to
      resolved and takes its savings out of the potential total. */
  lemma ResolveMovesCounts(ms: seq<TaxMistake>, k: nat)
    requires UniqueIds(ms) && k < |ms| && ms[k].status == Detected
    ensures var r := SetStatus(ms, ms[k].id, Resolved);
      && DetectedCount(r) == DetectedCount(ms) - 1
      && ResolvedCount(r) == ResolvedCount(ms) + 1
      && TotalPotentialSavings(r) == TotalPotentialSavings(ms) - ms[k].potentialSavings
  {
    var v := ms[k].(status := Resolved);
    SetStatusIsUpdate(ms, k, Resolved);
    CountUpdate(ms, k, v, IsDetected);
    CountUpdate(ms, k, v, IsResolved);
    SumFilter(ms, IsDetected, Savings, DetectedSavings);
    SumFilter(ms[k := v], IsDetected, Savings, DetectedSavings);
    SumUpdate(ms, k, v, DetectedSavings);
  }

  /** With unique ids, ignoring a detected mistake lowers the detected count by one, keeps the
      resolved count and takes its savings out of the potential total. */
  lemma IgnoreMovesCounts(ms: seq<TaxMistake>, k: nat)
    requires UniqueIds(ms) && k < |ms| && ms[k].status == Detected
    ensures var r := SetStatus(ms, ms[k].id, Ignored);
      && DetectedCount(r) == DetectedCount(ms) - 1
      && ResolvedCount(r) == ResolvedCount(ms)
      && TotalPotentialSavings(r) == TotalPotentialSavings(ms) - ms[k].potentialSavings
  {
    var v := ms[k].(status := Ignored);
    SetStatusIsUpdate(ms, k, Ignored);
    CountUpdate(ms, k, v, IsDetected);
    CountUpdate(ms, k, v, IsResolved);
    SumFilter(ms, IsDetected, Savings, DetectedSavings);
    SumFilter(ms[k := v], IsDetected, Savings, DetectedSavings);
    SumUpdate(ms, k, v, DetectedSavings);
  }

  /** The buttons are rendered only under a detected mistake. */
  predicate ActionsOffered(m: TaxMistake)
  {
    m.status == Detected
  }

  lemma MockPrefixes()
    ensures MockMistakes[..1][..0] == []
    ensures MockMistakes[..2][..1] == MockMistakes[..1]
    ensures MockMistakes[..3][..2] == MockMistakes[..2]
    ensures MockMistakes[..4][..3] == MockMistakes[..3]
    ensures MockMistakes[..5] == MockMistakes
  {
  }

  lemma MockDetected()
    ensures Filter(MockMistakes, IsDetected) == MockMistakes[..4]
  {
    var m := MockMistakes;
    MockPrefixes();
    assert Filter(m[..1], IsDetected) == [m[0]];
    assert Filter(m[..2], IsDetected) == [m[0], m[1]];
    assert Filter(m[..3], IsDetected) == [m[0], m[1], m[2]];
    assert Filter(m[..4], IsDetected) == [m[0], m[1], m[2], m[3]];
  }

  lemma MockResolved()
    ensures Filter(MockMistakes, IsResolved) == [MockMistakes[4]]
  {
    var m := MockMistakes;
    MockPrefixes();
    assert Filter(m[..1], IsResolved) == [];
    assert Filter(m[..2], IsResolved) == [];
    assert Filter(m[..3], IsResolved) == [];
    assert Filter(m[..4], IsResolved) == [];
  }

  lemma MockSavings()
    ensures TotalPotentialSavings(MockMistakes) == 27300.0
  {
    var m := MockMistakes;
    MockPrefixes();
    SumFilter(m, IsDetected, Savings, DetectedSavings);
    assert Sum(m[..1], DetectedSavings) == 18000.0;
    assert Sum(m[..2], DetectedSavings) == 18000.0;
    assert Sum(m[..3], DetectedSavings) == 27300.0;
    assert Sum(m[..4], DetectedSavings) == 27300.0;
  }

  lemma MockUniqueIds()
    ensures UniqueIds(MockMistakes)
  {
    var ids := seq(5, i requires 0 <= i < 5 => MockMistakes[i].id);
    assert ids == ["1", "2", "3", "4", "5"];
  }

  /** The built-in list: unique ids, 4 detected, 1 resolved and 27300 of potential savings. */
  lemma MockFigures()
    ensures UniqueIds(MockMistakes)
    ensures DetectedCount(MockMistakes) == 4 && ResolvedCount(MockMistakes) == 1
    ensures TotalPotentialSavings(MockMistakes) == 27300.0
  {
    MockUniqueIds();
    MockDetected();
    MockResolved();
    MockSavings();
  }

  class Detector {
    var mistakes: seq<TaxMistake>
    var selectedCategory: string
    var isScanning: bool

    constructor ()
      ensures mistakes == MockMistakes && selectedCategory == "all" && !isScanning
    {
      mistakes := MockMistakes;
      selectedCategory := "all";
      isScanning := false;
    }

    /** `filteredMistakes`: the cards on screen. */
    function Filtered(): (r: seq<TaxMistake>)
      reads this
      ensures forall m :: m in r ==> m in mistakes
      ensures selectedCategory == "all" ==> r == mistakes
    {
      FilterMistakes(mistakes, selectedCategory)
    }

    /** A category button above the list; only the five offered values can be chosen. */
    method SelectCategory(category: string)
      modifies this
      ensures category in FilterButtons ==> selectedCategory == category
      ensures category !in FilterButtons ==> selectedCategory == old(selectedCategory)
      ensures mistakes == old(mistakes) && isScanning == old(isScanning)
    {
      if category in FilterButtons {
        selectedCategory := category;
      }
    }

    /** "Mark Resolved" on the card at position `k` of the filtered list; the update is made
        by id over the whole list. Without a button there it does nothing. */
    method MarkResolved(k: nat)
      modifies this
      ensures k < |old(Filtered())| && ActionsOffered(old(Filtered())[k]) ==>
        mistakes == SetStatus(old(mistakes), old(Filtered())[k].id, Resolved)
      ensures !(k < |old(Filtered())| && ActionsOffered(old(Filtered())[k])) ==> mistakes == old(mistakes)
      ensures selectedCategory == old(selectedCategory) && isScanning == old(isScanning)
    {
      var shown := Filtered();
      if k < |shown| && shown[k].status == Detected {
        mistakes := SetStatus(mistakes, shown[k].id, Resolved);
      }
    }

    /** "Ignore" on the card at position `k` of the filtered list; without a button there it does nothing. */
    method Ignore(k: nat)
      modifies this
      ensures k < |old(Filtered())| && ActionsOffered(old(Filtered())[k]) ==>
        mistakes == SetStatus(old(mistakes), old(Filtered())[k].id, Ignored)
      ensures !(k < |old(Filtered())| && ActionsOffered(old(Filtered())[k])) ==> mistakes == old(mistakes)
      ensures selectedCategory == old(selectedCategory) && isScanning == old(isScanning)
    {
      var shown := Filtered();
      if k < |shown| && shown[k].status == Detected {
        mistakes := SetStatus(mistakes, shown[k].id, Ignored);
      }
    }

    /** `runScan` starts a scan; the list is never touched. */
    method RunScan()
      modifies this
      ensures isScanning && mistakes == old(mistakes) && selectedCategory == old(selectedCategory)
    {
      isScanning := true;
    }

    /** The scan's timeout: the scan ends, still without touching the list. */
    method ScanDone()
      modifies this
      ensures !isScanning && mistakes == old(mistakes) && selectedCategory == old(selectedCategory)
    {
      isScanning := false;
    }
  }
}
