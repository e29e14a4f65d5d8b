/** The chart panel of components/charts-and-graphs.tsx: its data falls back to built-in
    demo series when the stored results lack them, and four headline figures are computed
    from that data. */
module Charts {
  import opened Wrappers
  import opened Folds
  import opened Numeric
  import opened CsvAnalyzer

  /** A category row as the charts read it; `value` and `deductible` may be missing. */
  datatype ChartCategory = ChartCategory(name: string, value: Option<real>, deductible: Option<real>)

  /** A month as the charts read it; `expenses` may be missing. */
  datatype MonthPoint = MonthPoint(month: string, expenses: Option<real>)

  /** The two series of the stored results, either of which may be missing. */
  datatype ChartInput = ChartInput(monthlyTrend: Option<seq<MonthPoint>>, categoryBreakdown: Option<seq<ChartCategory>>)

  const DemoMonths: seq<MonthPoint> := [
    MonthPoint("Jan", Some(45000.0)), MonthPoint("Feb", Some(52000.0)), MonthPoint("Mar", Some(48000.0)),
    MonthPoint("Apr", Some(61000.0)), MonthPoint("May", Some(55000.0)), MonthPoint("Jun", Some(67000.0)),
    MonthPoint("Jul", Some(59000.0)), MonthPoint("Aug", Some(63000.0)), MonthPoint("Sep", Some(54000.0)),
    MonthPoint("Oct", Some(68000.0)), MonthPoint("Nov", Some(56000.0)), MonthPoint("Dec", Some(72000.0))
  ]

  const DemoCategories: seq<ChartCategory> := [
    ChartCategory("Office Supplies", Some(25000.0), Some(22000.0)),
    ChartCategory("Software & Tech", Some(18000.0), Some(17500.0)),
    ChartCategory("Travel & Meals", Some(15000.0), Some(12000.0)),
    ChartCategory("Marketing", Some(12000.0), Some(11000.0)),
    ChartCategory("Utilities", Some(8000.0), Some(7500.0)),
    ChartCategory("Insurance", Some(6000.0), Some(6000.0)),
    ChartCategory("Professional Services", Some(4500.0), Some(4500.0)),
    ChartCategory("Equipment", Some(3500.0), Some(3200.0))
  ]

  /** `csvAnalysisResults?.monthlyTrend || demo`: a present series is used even when empty. */
  function MonthlyData(input: Option<ChartInput>): (months: seq<MonthPoint>)
    ensures input.Some? && input.value.monthlyTrend.Some? ==> months == input.value.monthlyTrend.value
    ensures input.None? || input.value.monthlyTrend.None? ==> months == DemoMonths
  {
    if input.Some? && input.value.monthlyTrend.Some? then input.value.monthlyTrend.value else DemoMonths
  }

  /** `csvAnalysisResults?.categoryBreakdown || demo`. */
  function CategoryData(input: Option<ChartInput>): (cats: seq<ChartCategory>)
    ensures input.Some? && input.value.categoryBreakdown.Some? ==> cats == input.value.categoryBreakdown.value
    ensures input.None? || input.value.categoryBreakdown.None? ==> cats == DemoCategories
  {
    if input.Some? && input.value.categoryBreakdown.Some? then input.value.categoryBreakdown.value else DemoCategories
  }

  function DeductibleOrZero(c: ChartCategory): real { c.deductible.GetOr(0.0) }
  function ValueOrZero(c: ChartCategory): real { c.value.GetOr(0.0) }
  function ExpensesOrZero(m: MonthPoint): real { m.expenses.GetOr(0.0) }

  /** `getTotalDeductions`: the deductible parts added up, a missing one counting as 0. */
  function TotalDeductions(cats: seq<ChartCategory>): (total: real)
    ensures cats == [] ==> total == 0.0
  {
    if |cats| == 0 then 0.0 else Sum(cats, DeductibleOrZero)
  }

  /** `getTaxEfficiency`: deductions as a rounded percentage of the summed values, 0 when
      those do not add up to something positive. */
  function TaxEfficiency(cats: seq<ChartCategory>): (pct: int)
    ensures cats == [] || Sum(cats, ValueOrZero) <= 0.0 ==> pct == 0
    ensures cats != [] && Sum(cats, ValueOrZero) > 0.0 ==>
      pct == Round(TotalDeductions(cats) / Sum(cats, ValueOrZero) * 100.0)
  {
    if |cats| == 0 then 0
    else
      var totalExpenses := Sum(cats, ValueOrZero);
      if totalExpenses > 0.0 then Round(TotalDeductions(cats) / totalExpenses * 100.0) else 0
  }

  /** `getMonthlyAverage`: the rounded mean of the monthly expenses, 0 for no months. */
  function MonthlyAverage(months: seq<MonthPoint>): (avg: int)
    ensures months == [] ==> avg == 0
    ensures months != [] ==> avg == Round(Sum(months, ExpensesOrZero) / |months| as real)
  {
    if |months| == 0 then 0 else Round(Sum(months, ExpensesOrZero) / |months| as real)
  }

  /** `getCategoryCount`. */
  function CategoryCount(cats: seq<ChartCategory>): (n: nat)
    ensures n == |cats|
  {
    |cats|
  }

  /** With every deductible part between 0 and its value, the efficiency lies in [0, 100]. */
  lemma EfficiencyBounded(cats: seq<ChartCategory>)
    requires forall c :: c in cats ==> 0.0 <= DeductibleOrZero(c) <= ValueOrZero(c)
    ensures 0 <= TaxEfficiency(cats) <= 100
  {
    if cats != [] {
      SumMonotone(cats, DeductibleOrZero, ValueOrZero);
      SumNonNegative(cats, DeductibleOrZero);
      var v := Sum(cats, ValueOrZero);
      if v > 0.0 {
        FractionBounds(TotalDeductions(cats), v);
        assert 0.0 <= TotalDeductions(cats) / v * 100.0 <= 100.0;
      }
    }
  }

  // ---------------------------------------------------------------------------
  // The analyser's results as chart data
  // ---------------------------------------------------------------------------

  /** An analysed breakdown row carries `amount`, which the charts do not read, and no `value`. */
  function ChartOf(s: CategoryStat): ChartCategory
  {
    ChartCategory(s.category, None, Some(s.deductible))
  }

  function PointOf(m: MonthTrend): MonthPoint
  {
    MonthPoint(m.month, Some(m.expenses))
  }

  /** The chart input the analyser's results provide. */
  function InputOf(r: Results): ChartInput
  {
    ChartInput(Some(Map(r.monthlyTrend, PointOf)), Some(Map(r.categoryBreakdown, ChartOf)))
  }

  /** On analysed data the category card counts the distinct categories of the records;
      without stored results it counts the eight demo categories. */
  lemma AnalysedCategoryCount(data: seq<ExpenseRecord>, a: TaxAnalysis)
    ensures CategoryCount(CategoryData(Some(InputOf(ResultsFor(data, a))))) == |set r | r in data :: r.category|
    ensures CategoryCount(CategoryData(None)) == 8
  {
    CategoryStatsCount(data, a.totalExpenses);
  }

  function Zero(c: ChartCategory): real { 0.0 }

  /** On analysed data the efficiency is always 0, because no row has a `value`; the total
      deductions are still the analysis's deductible total. */
  lemma AnalysedEfficiency(data: seq<ExpenseRecord>, a: TaxAnalysis)
    ensures TaxEfficiency(CategoryData(Some(InputOf(ResultsFor(data, a))))) == 0
    ensures TotalDeductions(CategoryData(Some(InputOf(ResultsFor(data, a))))) == DeductibleExpenses(data)
  {
    var stats := CategoryStats(data, a.totalExpenses);
    var cats := Map(stats, ChartOf);
    SumScale(cats, ValueOrZero, Zero, 0.0);
    forall c | c in cats ensures ValueOrZero(c) == Zero(c) {
      var i :| 0 <= i < |cats| && cats[i] == c;
    }
    SumCongruent(cats, ValueOrZero, Zero);
    CategoryStatsConservation(data, a.totalExpenses);
    SumMap(stats, ChartOf, DeductibleOrZero, StatDeductible);
    if stats == [] {
      assert Sum(stats, StatDeductible) == 0.0;
    }
  }

  /** On analysed data the monthly average is the rounded total expenses of the one month. */
  lemma AnalysedMonthlyAverage(data: seq<ExpenseRecord>, a: TaxAnalysis)
    ensures MonthlyAverage(MonthlyData(Some(InputOf(ResultsFor(data, a))))) == Round(a.totalExpenses)
  {
    var r := ResultsFor(data, a);
    assert r.monthlyTrend == [MonthTrend("Current", a.totalExpenses, a.potentialSavings, a.deductibleExpenses)];
    var months := Map(r.monthlyTrend, PointOf);
    assert |months| == 1 && ExpensesOrZero(months[0]) == a.totalExpenses;
    assert months[..0] == [];
    assert Sum(months, ExpensesOrZero) == Sum(months[..0], ExpensesOrZero) + ExpensesOrZero(months[0]);
  }

  // ---------------------------------------------------------------------------
  // Demo figures
  // ---------------------------------------------------------------------------

  lemma DemoDeductions()
    ensures TotalDeductions(DemoCategories) == 83700.0
  {
    var c := DemoCategories;
    assert c[..1][..0] == [];
    assert c[..2][..1] == c[..1];
    assert c[..3][..2] == c[..2];
    assert c[..4][..3] == c[..3];
    assert c[..5][..4] == c[..4];
    assert c[..6][..5] == c[..5];
    assert c[..7][..6] == c[..6];
    assert c[..8] == c;
    assert Sum(c[..1], DeductibleOrZero) == 22000.0;
    assert Sum(c[..2], DeductibleOrZero) == 39500.0;
    assert Sum(c[..3], DeductibleOrZero) == 51500.0;
    assert Sum(c[..4], DeductibleOrZero) == 62500.0;
    assert Sum(c[..5], DeductibleOrZero) == 70000.0;
    assert Sum(c[..6], DeductibleOrZero) == 76000.0;
    assert Sum(c[..7], DeductibleOrZero) == 80500.0;
  }

  lemma DemoValues()
    ensures Sum(DemoCategories, ValueOrZero) == 92000.0
  {
    var c := DemoCategories;
    assert c[..1][..0] == [];
    assert c[..2][..1] == c[..1];
    assert c[..3][..2] == c[..2];
    assert c[..4][..3] == c[..3];
    assert c[..5][..4] == c[..4];
    assert c[..6][..5] == c[..5];
    assert c[..7][..6] == c[..6];
    assert c[..8] == c;
    assert Sum(c[..1], ValueOrZero) == 25000.0;
    assert Sum(c[..2], ValueOrZero) == 43000.0;
    assert Sum(c[..3], ValueOrZero) == 58000.0;
    assert Sum(c[..4], ValueOrZero) == 70000.0;
    assert Sum(c[..5], ValueOrZero) == 78000.0;
    assert Sum(c[..6], ValueOrZero) == 84000.0;
    assert Sum(c[..7], ValueOrZero) == 88500.0;
  }

  lemma DemoMonthTotal()
    ensures Sum(DemoMonths, ExpensesOrZero) == 700000.0
  {
    var m := DemoMonths;
    assert m[..1][..0] == [];
    assert m[..2][..1] == m[..1];
    assert m[..3][..2] == m[..2];
    assert m[..4][..3] == m[..3];
    assert m[..5][..4] == m[..4];
    assert m[..6][..5] == m[..5];
    assert m[..7][..6] == m[..6];
    assert m[..8][..7] == m[..7];
    assert m[..9][..8] == m[..8];
    assert m[..10][..9] == m[..9];
    assert m[..11][..10] == m[..10];
    assert m[..12] == m;
    assert Sum(m[..1], ExpensesOrZero) == 45000.0;
    assert Sum(m[..2], ExpensesOrZero) == 97000.0;
    assert Sum(m[..3], ExpensesOrZero) == 145000.0;
    assert Sum(m[..4], ExpensesOrZero) == 206000.0;
    assert Sum(m[..5], ExpensesOrZero) == 261000.0;
    assert Sum(m[..6], ExpensesOrZero) == 328000.0;
    assert Sum(m[..7], ExpensesOrZero) == 387000.0;
    assert Sum(m[..8], ExpensesOrZero) == 450000.0;
    assert Sum(m[..9], ExpensesOrZero) == 504000.0;
    assert Sum(m[..10], ExpensesOrZero) == 572000.0;
    assert Sum(m[..11], ExpensesOrZero) == 628000.0;
  }

  /** Without stored results the panel shows total deductions 83700, efficiency 91%, a
      monthly average of 58333 and 8 categories. */
  lemma DemoFigures()
    ensures TotalDeductions(CategoryData(None)) == 83700.0
    ensures TaxEfficiency(CategoryData(None)) == 91
    ensures MonthlyAverage(MonthlyData(None)) == 58333
    ensures CategoryCount(CategoryData(None)) == 8
  {
    DemoDeductions();
    DemoValues();
    DemoMonthTotal();
    assert (83700.0 / 92000.0 * 100.0 + 0.5).Floor == 91;
    assert (700000.0 / 12.0 + 0.5).Floor == 58333;
  }
}
