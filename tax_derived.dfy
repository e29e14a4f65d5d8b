/** The derived tax metrics both main pages compute from a stored analysis
    (app/page.tsx, app/page-new.tsx), and the recommendation rules shown beside them
    (app/page.tsx, components/dashboard-overview.tsx). */
module TaxDerived {
  import opened Wrappers
  import opened Numeric
  import opened CsvAnalyzer

  datatype Assessment = Assessment(verdict: string, detail: string)

  const GoodDetail: string :=
    "Your deductions are effectively reducing tax. Maintain documentation and look for minor optimizations."
  const ImproveDetail: string :=
    "You may be overpaying. Reclassify eligible expenses and time purchases to increase deductions."

  datatype Derived = Derived(
    grossIncome: real,
    taxRate: real,
    afterTaxExpense: real,
    taxesPaid: real,
    taxesWithoutDeductions: real,
    taxSavings: real,
    cashOutflowAfterTax: real,
    cashOutflowWithoutDeductions: real,
    cashOutflowReduction: real,
    deductibleRatio: real,
    savingsRate: real,
    assessment: Assessment)

  /** The verdict: "Good" when either the savings rate reaches 20% or the deductible ratio 60%. */
  function Assess(savingsRate: real, deductibleRatio: real): (r: Assessment)
    ensures r.verdict == "Good" <==> savingsRate >= 0.2 || deductibleRatio >= 0.6
    ensures r.verdict == "Good" ==> r.detail == GoodDetail
    ensures r.verdict != "Good" ==> r == Assessment("Can Improve", ImproveDetail)
  {
    if savingsRate >= 0.2 || deductibleRatio >= 0.6 then Assessment("Good", GoodDetail)
    else Assessment("Can Improve", ImproveDetail)
  }

  /** The `taxDerived` formulas over one stored analysis. */
  function Derive(a: TaxAnalysis): (d: Derived)
    ensures d.taxSavings >= 0.0 && d.cashOutflowReduction == d.taxSavings
    ensures d.taxSavings == Max(a.taxWithoutDeductions - a.taxWithDeductions, 0.0)
    ensures d.grossIncome <= 0.0 ==> d.taxRate == 0.0
    ensures a.totalExpenses <= 0.0 ==> d.deductibleRatio == 0.0
    ensures d.taxesWithoutDeductions <= 0.0 ==> d.savingsRate == 0.0
    ensures d.savingsRate >= 0.0
    ensures d.assessment == Assess(d.savingsRate, d.deductibleRatio)
  {
    var grossIncome := a.profitWithoutTax + a.taxWithoutDeductions + a.totalExpenses;
    var taxRate := if grossIncome > 0.0 then a.taxWithoutDeductions / grossIncome else 0.0;
    var afterTaxExpense := a.nonDeductibleExpenses + a.deductibleExpenses * (1.0 - taxRate);
    var taxesPaid := a.taxWithDeductions;
    var taxesWithout := a.taxWithoutDeductions;
    var taxSavings := Max(taxesWithout - taxesPaid, 0.0);
    var outflowAfterTax := a.totalExpenses + taxesPaid;
    var outflowWithout := a.totalExpenses + taxesWithout;
    var outflowReduction := Max(outflowWithout - outflowAfterTax, 0.0);
    var deductibleRatio := if a.totalExpenses > 0.0 then a.deductibleExpenses / a.totalExpenses else 0.0;
    var savingsRate := if taxesWithout > 0.0 then taxSavings / taxesWithout else 0.0;
    Derived(grossIncome, taxRate, afterTaxExpense, taxesPaid, taxesWithout, taxSavings,
            outflowAfterTax, outflowWithout, outflowReduction, deductibleRatio, savingsRate,
            Assess(savingsRate, deductibleRatio))
  }

  /** The memo's null case: nothing is derived before an analysis is stored. */
  function DeriveStored(results: Option<Results>): (d: Option<Derived>)
    ensures d.None? <==> results.None?
    ensures d.Some? ==> d.value == Derive(results.value.analysis)
  {
    match results
    case None => None
    case Some(r) => Some(Derive(r.analysis))
  }

  /** The effective expense after tax is at most the nominal expense when the rate and the deductible part are non-negative. */
  lemma AfterTaxExpenseBound(a: TaxAnalysis)
    requires Derive(a).taxRate >= 0.0 && a.deductibleExpenses >= 0.0
    ensures Derive(a).afterTaxExpense <= a.nonDeductibleExpenses + a.deductibleExpenses
    ensures Derive(a).taxRate <= 1.0 ==> Derive(a).afterTaxExpense >= a.nonDeductibleExpenses
  {
    var t := Derive(a).taxRate;
    assert a.deductibleExpenses * (1.0 - t) == a.deductibleExpenses - a.deductibleExpenses * t;
    assert a.deductibleExpenses * t >= 0.0;
    if t <= 1.0 {
      var u := 1.0 - t;
      assert u >= 0.0;
      assert a.deductibleExpenses * u >= 0.0;
    }
  }

  /** When the taxes with deductions are not negative the savings rate is a fraction. */
  lemma SavingsRateIsFraction(a: TaxAnalysis)
    requires a.taxWithDeductions >= 0.0
    ensures 0.0 <= Derive(a).savingsRate <= 1.0
  {
    var d := Derive(a);
    if d.taxesWithoutDeductions > 0.0 {
      FractionBounds(d.taxSavings, d.taxesWithoutDeductions);
    }
  }

  /** On the analyser's own output the derived figures recover its assumptions: the gross
      income, the flat rate and the savings it reported. */
  lemma DeriveRecoversAssumptions(data: seq<ExpenseRecord>, cfg: Config)
    ensures Derive(Analyze(data, cfg)).grossIncome == cfg.grossIncome
    ensures cfg.grossIncome > 0.0 ==> Derive(Analyze(data, cfg)).taxRate == cfg.taxRate
    ensures cfg.grossIncome > 0.0 ==>
      Derive(Analyze(data, cfg)).afterTaxExpense == TotalExpenses(data) - Analyze(data, cfg).potentialSavings
    ensures Derive(Analyze(data, cfg)).cashOutflowAfterTax == TotalExpenses(data) + Analyze(data, cfg).taxWithDeductions
  {
    var a := Analyze(data, cfg);
    var g, r := cfg.grossIncome, cfg.taxRate;
    var ded := DeductibleExpenses(data);
    assert a.profitWithoutTax + a.taxWithoutDeductions + a.totalExpenses == g;
    if g > 0.0 {
      assert g * r / g == r;
      assert ded * (1.0 - r) == ded - ded * r;
    }
  }

  /** With non-negative amounts and rate the derived savings are the analyser's potential
      savings, and for a positive income and rate the savings rate is the deductible share of income. */
  lemma DeriveSavingsOfAnalysis(data: seq<ExpenseRecord>, cfg: Config)
    requires AllNonNegative(data) && cfg.taxRate >= 0.0
    ensures Derive(Analyze(data, cfg)).taxSavings == Analyze(data, cfg).potentialSavings
    ensures cfg.grossIncome > 0.0 && cfg.taxRate > 0.0 ==>
      Derive(Analyze(data, cfg)).savingsRate == DeductibleExpenses(data) / cfg.grossIncome
  {
    SavingsSign(data, cfg);
    var g, r := cfg.grossIncome, cfg.taxRate;
    var ded := DeductibleExpenses(data);
    if g > 0.0 && r > 0.0 {
      assert g * r > 0.0;
      assert ded * r / (g * r) == ded / g;
    }
  }

  /** With non-negative amounts the deductible ratio of an analysis is a fraction. */
  lemma DeductibleRatioIsFraction(data: seq<ExpenseRecord>, cfg: Config)
    requires AllNonNegative(data)
    ensures 0.0 <= Derive(Analyze(data, cfg)).deductibleRatio <= 1.0
  {
    DeductibleWithinTotal(data);
    var a := Analyze(data, cfg);
    if a.totalExpenses > 0.0 {
      FractionBounds(a.deductibleExpenses, a.totalExpenses);
    }
  }

  /** The derived figures for the analyser's mock batch. */
  lemma MockDerived()
    ensures Derive(Analyze(MockData, SourceConfig)) == Derived(
      grossIncome := 100000.0, taxRate := 0.3, afterTaxExpense := 22675.0,
      taxesPaid := 22725.0, taxesWithoutDeductions := 30000.0, taxSavings := 7275.0,
      cashOutflowAfterTax := 52675.0, cashOutflowWithoutDeductions := 59950.0,
      cashOutflowReduction := 7275.0, deductibleRatio := 24250.0 / 29950.0, savingsRate := 0.2425,
      assessment := Assessment("Good", GoodDetail))
  {
    MockAnalysis();
  }

  /** The verdict badge, `taxDerived?.assessment.verdict || "N/A"`. */
  function VerdictLabel(d: Option<Derived>): (badge: string)
    ensures d.None? || d.value.assessment.verdict == "" ==> badge == "N/A"
    ensures d.Some? && d.value.assessment.verdict != "" ==> badge == d.value.assessment.verdict
  {
    match d
    case Some(v) => if v.assessment.verdict != "" then v.assessment.verdict else "N/A"
    case None => "N/A"
  }

  // ---------------------------------------------------------------------------
  // Recommendations
  // ---------------------------------------------------------------------------

  const ReclassifyTip: string := "Reclassify legitimate business expenses to reduce non\U{2011}deductible share."
  const TimingTip: string := "Time large purchases near year\U{2011}end to maximize current year deductions."
  const ReceiptsTip: string := "Ensure receipts and business purpose documentation for all deductibles."

  /** Position of a tip in the fixed order of the list. */
  function TipRank(tip: string): int
  {
    if tip == ReclassifyTip then 0 else if tip == TimingTip then 1 else if tip == ReceiptsTip then 2 else 3
  }

  /** `taxDerived?.savingsRate || 0`: a missing derivation counts as a zero savings rate. */
  function SavingsRateOrZero(d: Option<Derived>): real
  {
    match d
    case Some(v) => v.savingsRate
    case None => 0.0
  }

  /** The recommendation list: three independent rules rendered in a fixed order. */
  function Recommend(a: TaxAnalysis, d: Option<Derived>): (tips: seq<string>)
    ensures ReclassifyTip in tips <==> a.nonDeductibleExpenses > a.deductibleExpenses
    ensures TimingTip in tips <==> SavingsRateOrZero(d) < 0.2
    ensures ReceiptsTip in tips <==> a.deductibleExpenses > 0.0
    ensures forall i, j :: 0 <= i < j < |tips| ==> TipRank(tips[i]) < TipRank(tips[j])
    ensures forall t :: t in tips ==> TipRank(t) < 3
  {
    (if a.nonDeductibleExpenses > a.deductibleExpenses then [ReclassifyTip] else [])
    + (if SavingsRateOrZero(d) < 0.2 then [TimingTip] else [])
    + (if a.deductibleExpenses > 0.0 then [ReceiptsTip] else [])
  }

  /** Without a derivation the year-end timing tip always appears. */
  lemma TimingTipWithoutDerived(a: TaxAnalysis)
    ensures TimingTip in Recommend(a, None)
  {
  }

  /** The mock batch earns only the documentation tip. */
  lemma MockRecommendations()
    ensures var a := Analyze(MockData, SourceConfig);
      Recommend(a, Some(Derive(a))) == [ReceiptsTip]
  {
    MockDerived();
  }
}
