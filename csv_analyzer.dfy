/** The CSV analyser (components/csv-analyzer.tsx): totals a batch of classified
    expense records, projects a flat-rate tax with and without deductions, and
    breaks the expenses down by category. */
module CsvAnalyzer {
  import opened Wrappers
  import opened Folds

  /** One classified transaction. */
  datatype ExpenseRecord = ExpenseRecord(
    date: string,
    description: string,
    amount: real,
    category: string,
    taxDeductible: bool,
    confidence: real)

  /** The assumed gross income and flat tax rate. */
  datatype Config = Config(grossIncome: real, taxRate: real)

  /** The assumptions the analyser hard-codes: a monthly income of 100000 taxed at 30%. */
  const SourceConfig: Config := Config(100000.0, 0.3)

  datatype TaxAnalysis = TaxAnalysis(
    totalExpenses: real,
    deductibleExpenses: real,
    nonDeductibleExpenses: real,
    potentialSavings: real,
    taxWithDeductions: real,
    taxWithoutDeductions: real,
    profitWithTax: real,
    profitWithoutTax: real)

  function Amount(r: ExpenseRecord): real { r.amount }

  predicate IsDeductible(r: ExpenseRecord) { r.taxDeductible }

  /** The amount a record contributes to the deductible total. */
  function DeductibleAmount(r: ExpenseRecord): real { if r.taxDeductible then r.amount else 0.0 }

  predicate AllNonNegative(data: seq<ExpenseRecord>)
  {
    forall r :: r in data ==> r.amount >= 0.0
  }

  /** `totalExpenses`: the sum of all amounts. */
  function TotalExpenses(data: seq<ExpenseRecord>): (t: real)
    ensures data == [] ==> t == 0.0
    ensures AllNonNegative(data) ==> t >= 0.0
  {
    assert AllNonNegative(data) ==> Sum(data, Amount) >= 0.0 by {
      if AllNonNegative(data) { SumNonNegative(data, Amount); }
    }
    Sum(data, Amount)
  }

  /** `deductibleExpenses`: the sum of the amounts flagged deductible. */
  function DeductibleExpenses(data: seq<ExpenseRecord>): (d: real)
    ensures (forall r :: r in data ==> !r.taxDeductible) ==> d == 0.0
    ensures (forall r :: r in data ==> r.taxDeductible) ==> d == TotalExpenses(data)
  {
    var kept := Filter(data, IsDeductible);
    assert (forall r :: r in data ==> !r.taxDeductible) ==> kept == [] by {
      if forall r :: r in data ==> !r.taxDeductible { FilterNone(data, IsDeductible); }
    }
    assert (forall r :: r in data ==> r.taxDeductible) ==> kept == data by {
      if forall r :: r in data ==> r.taxDeductible { FilterKeepsAll(data, IsDeductible); }
    }
    Sum(kept, Amount)
  }

  /** The tax arithmetic of `processCSVData`. */
  function Analyze(data: seq<ExpenseRecord>, cfg: Config): (a: TaxAnalysis)
    ensures a.deductibleExpenses + a.nonDeductibleExpenses == a.totalExpenses
    ensures a.potentialSavings == a.deductibleExpenses * cfg.taxRate
    ensures a.profitWithTax - a.profitWithoutTax == a.potentialSavings
  {
    var total := TotalExpenses(data);
    var deductible := DeductibleExpenses(data);
    var taxWithout := cfg.grossIncome * cfg.taxRate;
    var taxWith := (cfg.grossIncome - deductible) * cfg.taxRate;
    var netWithout := cfg.grossIncome - taxWithout;
    var netWith := cfg.grossIncome - taxWith;
    TaxAnalysis(
      totalExpenses := total,
      deductibleExpenses := deductible,
      nonDeductibleExpenses := total - deductible,
      potentialSavings := taxWithout - taxWith,
      taxWithDeductions := taxWith,
      taxWithoutDeductions := taxWithout,
      profitWithTax := netWith - total,
      profitWithoutTax := netWithout - total)
  }

  /** The deductible total is the sum over all records with the non-deductible ones counted as zero. */
  lemma DeductibleIsConditionalSum(data: seq<ExpenseRecord>)
    ensures DeductibleExpenses(data) == Sum(data, DeductibleAmount)
  {
    SumFilter(data, IsDeductible, Amount, DeductibleAmount);
  }

  /** With non-negative amounts, both totals are non-negative and the deductible part never exceeds the whole. */
  lemma DeductibleWithinTotal(data: seq<ExpenseRecord>)
    requires AllNonNegative(data)
    ensures 0.0 <= DeductibleExpenses(data) <= TotalExpenses(data)
    ensures 0.0 <= Analyze(data, SourceConfig).nonDeductibleExpenses
  {
    FilteredSumAtMostTotal(data, IsDeductible, Amount);
  }

  /** The without-deductions tax depends on the configuration only, never on the records. */
  lemma TaxWithoutIgnoresRecords(d1: seq<ExpenseRecord>, d2: seq<ExpenseRecord>, cfg: Config)
    ensures Analyze(d1, cfg).taxWithoutDeductions == Analyze(d2, cfg).taxWithoutDeductions == cfg.grossIncome * cfg.taxRate
    ensures Analyze(d1, cfg).taxWithDeductions == (cfg.grossIncome - DeductibleExpenses(d1)) * cfg.taxRate
  {
    var a1, a2 := Analyze(d1, cfg), Analyze(d2, cfg);
    assert a1.taxWithoutDeductions == cfg.grossIncome * cfg.taxRate;
    assert a2.taxWithoutDeductions == cfg.grossIncome * cfg.taxRate;
  }

  /** Deductions never raise the tax, and with a positive rate they lower it exactly when something is deductible. */
  lemma SavingsSign(data: seq<ExpenseRecord>, cfg: Config)
    requires AllNonNegative(data)
    requires cfg.taxRate >= 0.0
    ensures var a := Analyze(data, cfg);
      && a.potentialSavings >= 0.0
      && a.taxWithDeductions <= a.taxWithoutDeductions
      && a.profitWithTax >= a.profitWithoutTax
      && (cfg.taxRate > 0.0 ==> (a.potentialSavings == 0.0 <==> a.deductibleExpenses == 0.0))
  {
    FilteredSumAtMostTotal(data, IsDeductible, Amount);
    var d := DeductibleExpenses(data);
    assert d * cfg.taxRate >= 0.0;
  }

  // ---------------------------------------------------------------------------
  // Per-category breakdown (getCategoryStats)
  // ---------------------------------------------------------------------------

  /** A category's running totals in the `stats` dictionary. */
  datatype Tally = Tally(amount: real, count: nat, deductible: real)

  const EmptyTally: Tally := Tally(0.0, 0, 0.0)

  /** A dictionary entry: category name and its totals. */
  type Entry = (string, Tally)

  datatype CategoryStat = CategoryStat(category: string, amount: real, count: nat, deductible: real, percentage: real)

  /** One `forEach` step on an existing tally. */
  function Bump(t: Tally, r: ExpenseRecord): Tally
  {
    Tally(t.amount + r.amount, t.count + 1, if r.taxDeductible then t.deductible + r.amount else t.deductible)
  }

  function Key(e: Entry): string { e.0 }

  /** The categories of the entries, in order. */
  function Keys(g: seq<Entry>): (ks: seq<string>)
    ensures |ks| == |g|
    ensures forall k :: 0 <= k < |g| ==> ks[k] == g[k].0
  {
    Map(g, Key)
  }

  /** Position of category `c` among the entries, if present. */
  function IndexOf(g: seq<Entry>, c: string): (k: Option<nat>)
    ensures k.Some? ==> k.value < |g| && g[k.value].0 == c
    ensures k.None? <==> forall j :: 0 <= j < |g| ==> g[j].0 != c
  {
    if g == [] then None
    else if g[0].0 == c then Some(0)
    else match IndexOf(g[1..], c)
      case None => None
      case Some(k) => Some(k + 1)
  }

  /** The dictionary after one record: its category's tally is bumped, created at the end if it is new. */
  function Record(g: seq<Entry>, r: ExpenseRecord): (h: seq<Entry>)
    ensures |h| == |g| || |h| == |g| + 1
    ensures |h| > 0
  {
    match IndexOf(g, r.category)
    case Some(k) => g[k := (r.category, Bump(g[k].1, r))]
    case None => g + [(r.category, Bump(EmptyTally, r))]
  }

  /** The `stats` dictionary after the `forEach`, as entries in insertion order. */
  function Group(data: seq<ExpenseRecord>): (g: seq<Entry>)
    ensures |g| <= |data|
    ensures g == [] <==> data == []
  {
    if data == [] then [] else Record(Group(data[..|data| - 1]), data[|data| - 1])
  }

  /** `analysis?.totalExpenses || 1`: a zero total is replaced by 1. */
  function Divisor(total: real): (d: real)
    ensures d != 0.0
  {
    if total != 0.0 then total else 1.0
  }

  function Percentage(amount: real, total: real): real
  {
    amount / Divisor(total) * 100.0
  }

  function ToStat(e: Entry, total: real): CategoryStat
  {
    CategoryStat(e.0, e.1.amount, e.1.count, e.1.deductible, Percentage(e.1.amount, total))
  }

  function ToStatWith(total: real): Entry -> CategoryStat
  {
    e => ToStat(e, total)
  }

  /** The breakdown `getCategoryStats` returns: `Object.entries(stats).map(...)`. */
  function CategoryStats(data: seq<ExpenseRecord>, total: real): (rows: seq<CategoryStat>)
    ensures |rows| <= |data|
    ensures rows == [] <==> data == []
    ensures total != 0.0 ==> forall k :: 0 <= k < |rows| ==> rows[k].percentage == rows[k].amount / total * 100.0
  {
    Map(Group(data), ToStatWith(total))
  }

  /** The dictionary `stats` with key order `order` holds exactly the entries `g`. */
  ghost predicate Represents(order: seq<string>, stats: map<string, Tally>, g: seq<Entry>)
  {
    && |order| == |g|
    && (forall k :: 0 <= k < |g| ==> order[k] == g[k].0 && order[k] in stats && stats[order[k]] == g[k].1)
    && (forall c :: c in stats ==> c in order)
    && (forall a, b :: 0 <= a < b < |order| ==> order[a] != order[b])
  }

  lemma RecordRepresented(order: seq<string>, stats: map<string, Tally>, g: seq<Entry>, r: ExpenseRecord)
    requires Represents(order, stats, g)
    ensures r.category in stats ==>
      Represents(order, stats[r.category := Bump(stats[r.category], r)], Record(g, r))
    ensures r.category !in stats ==>
      Represents(order + [r.category], stats[r.category := Bump(EmptyTally, r)], Record(g, r))
  {
    var c := r.category;
    match IndexOf(g, c)
    case Some(k) =>
      assert order[k] == c;
    case None =>
      assert c !in order;
  }

  /** `getCategoryStats`: the `forEach` fills the `stats` dictionary in place, then its entries
      are mapped to breakdown rows. */
  method GetCategoryStats(data: seq<ExpenseRecord>, analysis: TaxAnalysis) returns (result: seq<CategoryStat>)
    ensures result == CategoryStats(data, analysis.totalExpenses)
  {
    var stats: map<string, Tally> := map[];
    var order: seq<string> := [];
    var i := 0;
    while i < |data|
      invariant 0 <= i <= |data|
      invariant Represents(order, stats, Group(data[..i]))
    {
      var item := data[i];
      assert data[..i + 1][..i] == data[..i];
      RecordRepresented(order, stats, Group(data[..i]), item);
      if item.category !in stats {
        stats := stats[item.category := EmptyTally];
        order := order + [item.category];
      }
      stats := stats[item.category := Bump(stats[item.category], item)];
      i := i + 1;
    }
    assert data[..i] == data;
    var entries := seq(|order|, k requires 0 <= k < |order| => (order[k], stats[order[k]]));
    assert entries == Group(data);
    result := Map(entries, ToStatWith(analysis.totalExpenses));
  }

  // Properties of the breakdown.

  /** `FirstSeen(cs)`: the distinct elements of `cs` in order of first occurrence. */
  function FirstSeen(cs: seq<string>): seq<string>
  {
    if cs == [] then []
    else
      var prior := FirstSeen(cs[..|cs| - 1]);
      if cs[|cs| - 1] in prior then prior else prior + [cs[|cs| - 1]]
  }

  function Category(r: ExpenseRecord): string { r.category }

  /** `FirstSeen` lists each element of its input exactly once. */
  lemma {:induction false} FirstSeenDistinct(cs: seq<string>)
    ensures forall c :: c in FirstSeen(cs) <==> c in cs
    ensures forall i, j :: 0 <= i < j < |FirstSeen(cs)| ==> FirstSeen(cs)[i] != FirstSeen(cs)[j]
  {
    if cs != [] {
      var init := cs[..|cs| - 1];
      FirstSeenDistinct(init);
      assert cs == init + [cs[|cs| - 1]];
    }
  }

  /** A sequence without repetitions has as many elements as the set of its elements. */
  lemma {:induction false} DistinctCardinality(s: seq<string>)
    requires forall i, j :: 0 <= i < j < |s| ==> s[i] != s[j]
    ensures |set c | c in s| == |s|
  {
    if s != [] {
      var init, last := s[..|s| - 1], s[|s| - 1];
      DistinctCardinality(init);
      assert last !in init;
      assert (set c | c in s) == (set c | c in init) + {last};
    }
  }

  /** The categories named by the mapped sequence are the categories of the records. */
  lemma CategoriesOfRecords(data: seq<ExpenseRecord>)
    ensures (set c | c in Map(data, Category)) == (set r | r in data :: r.category)
  {
    var cs := Map(data, Category);
    forall c | c in cs ensures c in (set r | r in data :: r.category) {
      var i :| 0 <= i < |cs| && cs[i] == c;
      assert data[i] in data;
    }
    forall r | r in data ensures r.category in cs {
      var i :| 0 <= i < |data| && data[i] == r;
      assert cs[i] == r.category;
    }
  }

  /** The number of breakdown rows is the number of distinct categories among the records. */
  lemma CategoryStatsCount(data: seq<ExpenseRecord>, total: real)
    ensures |CategoryStats(data, total)| == |set r | r in data :: r.category|
  {
    var cs := Map(data, Category);
    var ks := FirstSeen(cs);
    CategoryStatsConservation(data, total);
    assert |CategoryStats(data, total)| == |ks|;
    FirstSeenDistinct(cs);
    DistinctCardinality(ks);
    assert (set c | c in ks) == (set c | c in cs);
    CategoriesOfRecords(data);
  }



  function EntryAmount(e: Entry): real { e.1.amount }
  function EntryCount(e: Entry): real { e.1.count as real }
  function EntryDeductible(e: Entry): real { e.1.deductible }
  function StatAmount(s: CategoryStat): real { s.amount }
  function StatCount(s: CategoryStat): real { s.count as real }
  function StatDeductible(s: CategoryStat): real { s.deductible }
  function StatPercentage(s: CategoryStat): real { s.percentage }
  function StatCategory(s: CategoryStat): string { s.category }

  /** One row per distinct category, in the order the categories first appear. */
  lemma {:induction false} GroupKeysFirstSeen(data: seq<ExpenseRecord>)
    ensures Keys(Group(data)) == FirstSeen(Map(data, Category))
  {
    if data != [] {
      var init, r := data[..|data| - 1], data[|data| - 1];
      GroupKeysFirstSeen(init);
      assert Map(data, Category)[..|data| - 1] == Map(init, Category);
      var g := Group(init);
      var ks := Keys(g);
      match IndexOf(g, r.category)
      case Some(k) =>
        assert ks[k] == r.category;
        assert Keys(Record(g, r)) == ks;
      case None =>
        assert r.category !in ks;
        assert Keys(Record(g, r)) == ks + [r.category];
    }
  }

  /** Sums over the breakdown rows add up to record totals. */
  lemma {:induction false} GroupConservation(data: seq<ExpenseRecord>)
    ensures Sum(Group(data), EntryAmount) == TotalExpenses(data)
    ensures Sum(Group(data), EntryCount) == |data| as real
    ensures Sum(Group(data), EntryDeductible) == Sum(data, DeductibleAmount)
  {
    if data != [] {
      var init, r := data[..|data| - 1], data[|data| - 1];
      GroupConservation(init);
      var g := Group(init);
      match IndexOf(g, r.category)
      case Some(k) =>
        var e := (r.category, Bump(g[k].1, r));
        SumUpdate(g, k, e, EntryAmount);
        SumUpdate(g, k, e, EntryCount);
        SumUpdate(g, k, e, EntryDeductible);
      case None =>
        var e := (r.category, Bump(EmptyTally, r));
        assert [e][..0] == [];
        SumAppend(g, [e], EntryAmount);
        SumAppend(g, [e], EntryCount);
        SumAppend(g, [e], EntryDeductible);
    }
  }

  /** With non-negative amounts each category's deductible part lies between 0 and its amount. */
  lemma {:induction false} GroupDeductibleBounded(data: seq<ExpenseRecord>)
    requires AllNonNegative(data)
    ensures forall e :: e in Group(data) ==> 0.0 <= e.1.deductible <= e.1.amount
  {
    if data != [] {
      var init := data[..|data| - 1];
      assert AllNonNegative(init) by {
        forall r | r in init ensures r.amount >= 0.0 { assert r in data; }
      }
      GroupDeductibleBounded(init);
    }
  }

  /** The breakdown has one row per distinct category, in first-seen order, whose amounts,
      counts and deductible parts add up to the analysis totals. */
  lemma CategoryStatsConservation(data: seq<ExpenseRecord>, total: real)
    ensures Map(CategoryStats(data, total), StatCategory) == FirstSeen(Map(data, Category))
    ensures Sum(CategoryStats(data, total), StatAmount) == TotalExpenses(data)
    ensures Sum(CategoryStats(data, total), StatCount) == |data| as real
    ensures Sum(CategoryStats(data, total), StatDeductible) == DeductibleExpenses(data)
  {
    var g := Group(data);
    var m := ToStatWith(total);
    GroupKeysFirstSeen(data);
    assert Map(CategoryStats(data, total), StatCategory) == Keys(g);
    GroupConservation(data);
    DeductibleIsConditionalSum(data);
    SumMap(g, m, StatAmount, EntryAmount);
    SumMap(g, m, StatCount, EntryCount);
    SumMap(g, m, StatDeductible, EntryDeductible);
  }

  /** With non-negative amounts, every row's deductible part lies between 0 and its amount. */
  lemma CategoryStatsDeductibleBounded(data: seq<ExpenseRecord>, total: real)
    requires AllNonNegative(data)
    ensures forall s :: s in CategoryStats(data, total) ==> 0.0 <= s.deductible <= s.amount
  {
    GroupDeductibleBounded(data);
    var stats := CategoryStats(data, total);
    forall s | s in stats ensures 0.0 <= s.deductible <= s.amount {
      var k :| 0 <= k < |stats| && stats[k] == s;
      assert Group(data)[k] in Group(data);
    }
  }

  /** The percentages of a breakdown add up to its amounts over the divisor, times 100. */
  lemma {:induction false} SumPercentages(g: seq<Entry>, total: real)
    ensures Sum(Map(g, ToStatWith(total)), StatPercentage) == Sum(g, EntryAmount) / Divisor(total) * 100.0
  {
    if g != [] {
      var init := g[..|g| - 1];
      assert Map(g, ToStatWith(total))[..|g| - 1] == Map(init, ToStatWith(total));
      SumPercentages(init, total);
      var d := Divisor(total);
      var a, b := Sum(init, EntryAmount), EntryAmount(g[|g| - 1]);
      assert StatPercentage(Map(g, ToStatWith(total))[|g| - 1]) == b / d * 100.0;
      PercentOfSum(a, b, d);
    }
  }

  lemma PercentOfSum(a: real, b: real, d: real)
    requires d != 0.0
    ensures (a + b) / d * 100.0 == a / d * 100.0 + b / d * 100.0
  {
  }

  /** With a non-zero total the percentages add up to 100. */
  lemma PercentagesSumTo100(data: seq<ExpenseRecord>)
    requires TotalExpenses(data) != 0.0
    ensures Sum(CategoryStats(data, TotalExpenses(data)), StatPercentage) == 100.0
  {
    var total := TotalExpenses(data);
    SumPercentages(Group(data), total);
    GroupConservation(data);
    assert total / total == 1.0;
  }

  /** With a zero total the divisor is 1, so each percentage is the amount times 100; with
      non-negative amounts all of them are then 0. */
  lemma PercentagesOfZeroTotal(data: seq<ExpenseRecord>)
    requires TotalExpenses(data) == 0.0
    ensures forall s :: s in CategoryStats(data, 0.0) ==> s.percentage == s.amount * 100.0
    ensures AllNonNegative(data) ==> forall s :: s in CategoryStats(data, 0.0) ==> s.percentage == 0.0
  {
    var stats := CategoryStats(data, 0.0);
    forall s | s in stats ensures s.percentage == s.amount * 100.0 {
      var k :| 0 <= k < |stats| && stats[k] == s;
      assert s == ToStat(Group(data)[k], 0.0);
    }
    if AllNonNegative(data) {
      GroupDeductibleBounded(data);
      GroupConservation(data);
      SumZeroMeansAllZero(Group(data), EntryAmount);
      forall s | s in stats ensures s.percentage == 0.0 {
        var k :| 0 <= k < |stats| && stats[k] == s;
        assert Group(data)[k] in Group(data);
      }
    }
  }

  // ---------------------------------------------------------------------------
  // The dashboard payload and the component's own state
  // ---------------------------------------------------------------------------

  datatype MonthTrend = MonthTrend(month: string, expenses: real, savings: real, deductions: real)

  /** What the analyser hands to `onAnalysisComplete`. */
  datatype Results = Results(analysis: TaxAnalysis, categoryBreakdown: seq<CategoryStat>, monthlyTrend: seq<MonthTrend>)

  /** `resultsForDashboard`: the analysis with its breakdown and a one-point trend. */
  function ResultsFor(data: seq<ExpenseRecord>, a: TaxAnalysis): (r: Results)
    ensures r.analysis == a && |r.monthlyTrend| == 1
    ensures r.categoryBreakdown == CategoryStats(data, a.totalExpenses)
  {
    Results(a, CategoryStats(data, a.totalExpenses),
            [MonthTrend("Current", a.totalExpenses, a.potentialSavings, a.deductibleExpenses)])
  }

  /** The selected file, as far as the analyser looks at it. */
  datatype FileInfo = FileInfo(name: string, mimeType: string)

  /** The upload gate: only a present file of type `text/csv` starts processing. */
  predicate AcceptsUpload(file: Option<FileInfo>)
  {
    file.Some? && file.value.mimeType == "text/csv"
  }

  /** The state of the analyser component. */
  class Analyzer {
    var isProcessing: bool
    var progress: int
    var csvData: seq<ExpenseRecord>
    var taxAnalysis: Option<TaxAnalysis>
    var showResults: bool
    var analysisComplete: bool

    constructor ()
      ensures !isProcessing && progress == 0 && csvData == [] && taxAnalysis == None
      ensures !showResults && !analysisComplete
    {
      isProcessing, progress, csvData, taxAnalysis := false, 0, [], None;
      showResults, analysisComplete := false, false;
    }

    /** `handleFileUpload`: a CSV file starts processing from progress 0; anything else is ignored. */
    method HandleFileUpload(file: Option<FileInfo>)
      modifies this
      ensures AcceptsUpload(file) ==> isProcessing && progress == 0
      ensures !AcceptsUpload(file) ==> isProcessing == old(isProcessing) && progress == old(progress)
      ensures csvData == old(csvData) && taxAnalysis == old(taxAnalysis)
      ensures showResults == old(showResults) && analysisComplete == old(analysisComplete)
    {
      if file.Some? && file.value.mimeType == "text/csv" {
        isProcessing := true;
        progress := 0;
      }
    }

    /** One tick of the progress interval: below 100 the progress advances by 10; at 100 or
        more the interval stops (`stopped`), the records are processed and progress stays 100. */
    method ProgressTick() returns (stopped: bool)
      modifies this
      ensures stopped <==> old(progress) >= 100
      ensures !stopped ==> (
        && progress == old(progress) + 10 && csvData == old(csvData)
        && taxAnalysis == old(taxAnalysis) && isProcessing == old(isProcessing)
        && showResults == old(showResults) && analysisComplete == old(analysisComplete))
      ensures stopped ==> (
        && progress == 100 && csvData == MockData
        && taxAnalysis == Some(Analyze(MockData, SourceConfig))
        && !isProcessing && showResults && analysisComplete)
    {
      if progress >= 100 {
        ProcessCSVData();
        progress := 100;
        stopped := true;
      } else {
        progress := progress + 10;
        stopped := false;
      }
    }

    /** `processCSVData`: the uploaded file's contents are not read; the six mock records are
        analysed under the fixed income and rate, and the results shown. */
    method ProcessCSVData()
      modifies this
      ensures csvData == MockData && taxAnalysis == Some(Analyze(MockData, SourceConfig))
      ensures !isProcessing && showResults && analysisComplete
      ensures progress == old(progress)
    {
      var analysis := Analyze(MockData, SourceConfig);
      csvData := MockData;
      taxAnalysis := Some(analysis);
      isProcessing := false;
      showResults := true;
      analysisComplete := true;
    }

    /** `handleClose`: with an analysis present the completion flag is raised again. */
    method HandleClose()
      modifies this
      ensures analysisComplete == (old(analysisComplete) || taxAnalysis.Some?)
      ensures taxAnalysis == old(taxAnalysis) && csvData == old(csvData) && progress == old(progress)
      ensures isProcessing == old(isProcessing) && showResults == old(showResults)
    {
      if taxAnalysis.Some? {
        analysisComplete := true;
      }
    }

    /** The completion effect: when the flag is up, an analysis exists and a listener is
        attached, the dashboard payload is delivered and the flag is reset. */
    method NotifyCompletion(hasListener: bool) returns (delivered: Option<Results>)
      modifies this
      ensures delivered.Some? <==> old(analysisComplete) && taxAnalysis.Some? && hasListener
      ensures delivered.Some? ==> delivered.value == ResultsFor(csvData, taxAnalysis.value) && !analysisComplete
      ensures delivered.None? ==> analysisComplete == old(analysisComplete)
      ensures taxAnalysis == old(taxAnalysis) && csvData == old(csvData) && progress == old(progress)
      ensures isProcessing == old(isProcessing) && showResults == old(showResults)
    {
      if analysisComplete && taxAnalysis.Some? && hasListener {
        delivered := Some(ResultsFor(csvData, taxAnalysis.value));
        analysisComplete := false;
      } else {
        delivered := None;
      }
    }
  }

  // ---------------------------------------------------------------------------
  // The built-in mock batch
  // ---------------------------------------------------------------------------

  const MockData: seq<ExpenseRecord> := [
    ExpenseRecord("2024-01-15", "Office supplies - printer paper, pens", 2450.0, "office", true, 95.0),
    ExpenseRecord("2024-01-18", "Business lunch with client", 1800.0, "meals", true, 88.0),
    ExpenseRecord("2024-01-20", "Personal grocery shopping", 3200.0, "other", false, 92.0),
    ExpenseRecord("2024-01-22", "Software subscription - Adobe Creative", 5000.0, "software", true, 98.0),
    ExpenseRecord("2024-01-25", "Flight tickets for business trip", 15000.0, "travel", true, 96.0),
    ExpenseRecord("2024-01-28", "Personal entertainment", 2500.0, "other", false, 89.0)
  ]

  lemma MockTotal()
    ensures TotalExpenses(MockData) == 29950.0
  {
    var m := MockData;
    assert m[..1][..0] == [];
    assert m[..2][..1] == m[..1];
    assert m[..3][..2] == m[..2];
    assert m[..4][..3] == m[..3];
    assert m[..5][..4] == m[..4];
    assert m[..6] == m;
    assert Sum(m[..1], Amount) == 2450.0;
    assert Sum(m[..2], Amount) == 4250.0;
    assert Sum(m[..3], Amount) == 7450.0;
    assert Sum(m[..4], Amount) == 12450.0;
    assert Sum(m[..5], Amount) == 27450.0;
  }

  lemma MockDeductible()
    ensures DeductibleExpenses(MockData) == 24250.0
  {
    DeductibleIsConditionalSum(MockData);
    var m := MockData;
    assert m[..1][..0] == [];
    assert m[..2][..1] == m[..1];
    assert m[..3][..2] == m[..2];
    assert m[..4][..3] == m[..3];
    assert m[..5][..4] == m[..4];
    assert m[..6] == m;
    assert Sum(m[..1], DeductibleAmount) == 2450.0;
    assert Sum(m[..2], DeductibleAmount) == 4250.0;
    assert Sum(m[..3], DeductibleAmount) == 4250.0;
    assert Sum(m[..4], DeductibleAmount) == 9250.0;
    assert Sum(m[..5], DeductibleAmount) == 24250.0;
  }

  /** The figures the analyser reports for its six mock records at 100000 income and 30% tax. */
  lemma MockAnalysis()
    ensures Analyze(MockData, SourceConfig) == TaxAnalysis(
      totalExpenses := 29950.0, deductibleExpenses := 24250.0, nonDeductibleExpenses := 5700.0,
      potentialSavings := 7275.0, taxWithDeductions := 22725.0, taxWithoutDeductions := 30000.0,
      profitWithTax := 47325.0, profitWithoutTax := 40050.0)
  {
    MockTotal();
    MockDeductible();
  }

  lemma MockFirstSeen()
    ensures FirstSeen(Map(MockData, Category)) == ["office", "meals", "other", "software", "travel"]
  {
    var cs := Map(MockData, Category);
    assert cs == ["office", "meals", "other", "software", "travel", "other"];
    assert cs[..1][..0] == [];
    assert cs[..2][..1] == cs[..1];
    assert cs[..3][..2] == cs[..2];
    assert cs[..4][..3] == cs[..3];
    assert cs[..5][..4] == cs[..4];
    assert cs[..6] == cs;
    assert FirstSeen(cs[..1]) == ["office"];
    assert FirstSeen(cs[..2]) == ["office", "meals"];
    assert FirstSeen(cs[..3]) == ["office", "meals", "other"];
    assert FirstSeen(cs[..4]) == ["office", "meals", "other", "software"];
    assert FirstSeen(cs[..5]) == ["office", "meals", "other", "software", "travel"];
  }

  /** The mock breakdown lists office, meals, other, software and travel, in that order. */
  lemma MockCategoryOrder(total: real)
    ensures Map(CategoryStats(MockData, total), StatCategory) == ["office", "meals", "other", "software", "travel"]
  {
    CategoryStatsConservation(MockData, total);
    MockFirstSeen();
  }
}
