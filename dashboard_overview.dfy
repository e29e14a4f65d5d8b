/** The overview card set of components/dashboard-overview.tsx: the tax summary, the
    before/after-tax expenses, the verdict and the recommendations, each falling back to a
    fixed value when no derivation is passed in. */
module DashboardOverview {
  import opened Wrappers
  import opened CsvAnalyzer
  import opened TaxDerived

  datatype Overview = Overview(
    taxesPaid: real,
    taxesWithoutDeductions: real,
    taxSaved: real,
    effectiveRatePercent: real,
    totalExpenses: real,
    afterTaxExpense: real,
    deductiblePortion: real,
    nonDeductiblePortion: real,
    verdict: string,
    tips: seq<string>)

  /** `x || 0` on a figure that may be missing. */
  function OrZero(x: Option<real>): real
  {
    match x
    case Some(v) => v
    case None => 0.0
  }

  function Field(d: Option<Derived>, f: Derived -> real): Option<real>
  {
    match d
    case Some(v) => Some(f(v))
    case None => None
  }

  function TaxesPaid(v: Derived): real { v.taxesPaid }
  function TaxesWithout(v: Derived): real { v.taxesWithoutDeductions }
  function TaxSavings(v: Derived): real { v.taxSavings }
  function TaxRate(v: Derived): real { v.taxRate }
  function AfterTax(v: Derived): real { v.afterTaxExpense }

  /** What the component shows: nothing without results; otherwise the figures of the derivation,
      or 0 and "N/A" where it is missing, and the shared recommendation rules. */
  function Render(results: Option<TaxAnalysis>, d: Option<Derived>): (o: Option<Overview>)
    ensures o.None? <==> results.None?
    ensures o.Some? ==> o.value.tips == Recommend(results.value, d)
    ensures o.Some? ==> (
      && o.value.totalExpenses == results.value.totalExpenses
      && o.value.deductiblePortion == results.value.deductibleExpenses
      && o.value.nonDeductiblePortion == results.value.nonDeductibleExpenses)
    ensures o.Some? && d.None? ==>
      && o.value.taxesPaid == 0.0 && o.value.taxesWithoutDeductions == 0.0 && o.value.taxSaved == 0.0
      && o.value.effectiveRatePercent == 0.0 && o.value.afterTaxExpense == 0.0
      && o.value.verdict == "N/A" && TimingTip in o.value.tips
    ensures o.Some? && d.Some? ==>
      && o.value.taxesPaid == d.value.taxesPaid
      && o.value.taxesWithoutDeductions == d.value.taxesWithoutDeductions
      && o.value.taxSaved == d.value.taxSavings
      && o.value.effectiveRatePercent == d.value.taxRate * 100.0
      && o.value.afterTaxExpense == d.value.afterTaxExpense
  {
    match results
    case None => None
    case Some(a) =>
      Some(Overview(
        OrZero(Field(d, TaxesPaid)),
        OrZero(Field(d, TaxesWithout)),
        OrZero(Field(d, TaxSavings)),
        OrZero(Field(d, TaxRate)) * 100.0,
        a.totalExpenses,
        OrZero(Field(d, AfterTax)),
        a.deductibleExpenses,
        a.nonDeductibleExpenses,
        VerdictLabel(d),
        Recommend(a, d)))
  }

  /** Given the derivation of the same analysis, the overview lists exactly the main page's
      recommendations and shows its verdict. */
  lemma SameAsMainPage(a: TaxAnalysis)
    ensures var o := Render(Some(a), Some(Derive(a)));
      && o.Some?
      && o.value.tips == Recommend(a, Some(Derive(a)))
      && o.value.verdict == Derive(a).assessment.verdict
      && (o.value.verdict == "Good" <==> Derive(a).savingsRate >= 0.2 || Derive(a).deductibleRatio >= 0.6)
  {
  }

  /** The overview of the mock batch. */
  lemma MockOverview()
    ensures var a := Analyze(MockData, SourceConfig);
      Render(Some(a), Some(Derive(a))) == Some(Overview(
        22725.0, 30000.0, 7275.0, 30.0, 29950.0, 22675.0, 24250.0, 5700.0, "Good", [ReceiptsTip]))
  {
    MockRecommendations();
    MockDerived();
  }
}
