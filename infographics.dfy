/** The scoring panel of components/infographics-insights.tsx: a deduction rate, a
    performance score clamped to [0, 100] with its level and message, and the utilisation
    of the fixed optimisation opportunities. */
module Infographics {
  import opened Wrappers
  import opened Numeric
  import opened CsvAnalyzer
  import opened TaxDerived

  /** The fields of the stored results the panel reads; any of them may be missing. */
  datatype InsightInput = InsightInput(totalExpenses: Option<real>, deductibleExpenses: Option<real>, categoryCount: Option<nat>)

  /** The input the analyser's own results provide: every field present. */
  function InputOf(r: Results): (i: InsightInput)
    ensures i.totalExpenses == Some(r.analysis.totalExpenses)
    ensures i.deductibleExpenses == Some(r.analysis.deductibleExpenses)
    ensures i.categoryCount == Some(|r.categoryBreakdown|)
  {
    InsightInput(Some(r.analysis.totalExpenses), Some(r.analysis.deductibleExpenses), Some(|r.categoryBreakdown|))
  }

  /** Deductible share of the expenses in percent, 0 when there are no positive expenses. */
  function DeductionRate(total: real, deductible: real): (rate: real)
    ensures total <= 0.0 ==> rate == 0.0
    ensures 0.0 <= deductible <= total ==> 0.0 <= rate <= 100.0
  {
    if total > 0.0 then
      PercentBounds(deductible, total);
      deductible / total * 100.0
    else 0.0
  }

  /** A share of a non-zero whole, in percent, lies in [0, 100] when the part lies between 0 and the whole. */
  lemma PercentBounds(x: real, y: real)
    requires y != 0.0
    ensures 0.0 <= x <= y ==> 0.0 <= x / y * 100.0 <= 100.0
  {
    if 0.0 <= x <= y {
      FractionBounds(x, y);
    }
  }

  /** The savings term: 30% of the savings as a share of 10000, capped at 100. */
  function SavingsTerm(taxSavings: real): real
  {
    Min(100.0, taxSavings / 10000.0 * 100.0) * 0.3
  }

  /** The category term: 30% of ten points per category, capped at 100. */
  function CategoryTerm(count: nat): real
  {
    Min(100.0, count as real * 10.0) * 0.3
  }

  /** The overall score, clamped to [0, 100]. */
  function PerformanceScore(deductionRate: real, taxSavings: real, count: nat): (score: real)
    ensures 0.0 <= score <= 100.0
    ensures 0.0 <= deductionRate * 0.4 + SavingsTerm(taxSavings) + CategoryTerm(count) <= 100.0 ==>
      score == deductionRate * 0.4 + SavingsTerm(taxSavings) + CategoryTerm(count)
  {
    Min(100.0, Max(0.0, deductionRate * 0.4 + SavingsTerm(taxSavings) + CategoryTerm(count)))
  }

  /** Both capped terms reach their maximum of 30 at 10000 savings and at 10 categories, and stay below it before. */
  lemma TermsSaturate(taxSavings: real, count: nat)
    ensures SavingsTerm(taxSavings) <= 30.0 && CategoryTerm(count) <= 30.0
    ensures taxSavings >= 10000.0 <==> SavingsTerm(taxSavings) == 30.0
    ensures count >= 10 <==> CategoryTerm(count) == 30.0
    ensures taxSavings < 10000.0 ==> SavingsTerm(taxSavings) == taxSavings * 0.003
    ensures count < 10 ==> CategoryTerm(count) == count as real * 3.0
  {
  }

  /** With a rate in [0, 100] and non-negative savings the score is never clamped, whatever the category count. */
  lemma ScoreUnclamped(deductionRate: real, taxSavings: real, count: nat)
    requires 0.0 <= deductionRate <= 100.0 && taxSavings >= 0.0
    ensures PerformanceScore(deductionRate, taxSavings, count)
      == deductionRate * 0.4 + SavingsTerm(taxSavings) + CategoryTerm(count)
  {
    TermsSaturate(taxSavings, count);
  }

  datatype Level = Excellent | Good | Fair | NeedsImprovement

  /** `getPerformanceLevel`. */
  function LevelOf(score: real): (l: Level)
    ensures l == Excellent <==> score >= 90.0
    ensures l == Good <==> 80.0 <= score < 90.0
    ensures l == Fair <==> 70.0 <= score < 80.0
    ensures l == NeedsImprovement <==> score < 70.0
  {
    if score >= 90.0 then Excellent
    else if score >= 80.0 then Good
    else if score >= 70.0 then Fair
    else NeedsImprovement
  }

  function LevelName(l: Level): string
  {
    match l
    case Excellent => "Excellent"
    case Good => "Good"
    case Fair => "Fair"
    case NeedsImprovement => "Needs Improvement"
  }

  const ExcellentMessage: string := "Outstanding performance! You're maximizing your tax benefits."
  const GoodMessage: string := "Great work! You're above average in tax optimization."
  const FairMessage: string := "Good progress! There's room for improvement."
  const ImproveMessage: string := "Focus on improving deduction rates and category optimization."

  /** The summary line under the progress bar, chosen by its own threshold cascade. */
  function Message(score: real): string
  {
    if score >= 90.0 then ExcellentMessage
    else if score >= 80.0 then GoodMessage
    else if score >= 70.0 then FairMessage
    else ImproveMessage
  }

  function MessageOfLevel(l: Level): string
  {
    match l
    case Excellent => ExcellentMessage
    case Good => GoodMessage
    case Fair => FairMessage
    case NeedsImprovement => ImproveMessage
  }

  /** The message and the level use the same thresholds: the message is determined by the level. */
  lemma MessageFollowsLevel(score: real)
    ensures Message(score) == MessageOfLevel(LevelOf(score))
  {
  }

  datatype Insights = Insights(deductionRate: real, performanceScore: real, level: Level)

  /** The panel's figures: nothing without results, missing numbers read as 0. */
  function Compute(input: Option<InsightInput>, d: Option<Derived>): (r: Option<Insights>)
    ensures r.None? <==> input.None?
    ensures r.Some? ==> 0.0 <= r.value.performanceScore <= 100.0
    ensures r.Some? ==> r.value.level == LevelOf(r.value.performanceScore)
    ensures r.Some? && input.value.totalExpenses.None? ==> r.value.deductionRate == 0.0
  {
    match input
    case None => None
    case Some(i) =>
      var total := i.totalExpenses.GetOr(0.0);
      var deductible := i.deductibleExpenses.GetOr(0.0);
      var taxSavings := match d case Some(v) => v.taxSavings case None => 0.0;
      var rate := DeductionRate(total, deductible);
      var score := PerformanceScore(rate, taxSavings, i.categoryCount.GetOr(0));
      Some(Insights(rate, score, LevelOf(score)))
  }

  /** The mock batch scores just under 70, so its level is "Needs Improvement". */
  lemma MockInsights()
    ensures var a := Analyze(MockData, SourceConfig);
      var r := Compute(Some(InputOf(ResultsFor(MockData, a))), Some(Derive(a)));
      && r.Some?
      && r.value.deductionRate == 24250.0 / 29950.0 * 100.0
      && 69.0 < r.value.performanceScore < 70.0
      && r.value.level == NeedsImprovement
  {
    var a := Analyze(MockData, SourceConfig);
    MockDerived();
    MockCategoryOrder(a.totalExpenses);
    assert |CategoryStats(MockData, a.totalExpenses)| == 5;
    var rate := 24250.0 / 29950.0 * 100.0;
    assert 80.9 < rate < 81.0;
    assert SavingsTerm(7275.0) == 21.825;
    assert CategoryTerm(5) == 15.0;
  }

  // ---------------------------------------------------------------------------
  // Optimisation opportunities
  // ---------------------------------------------------------------------------

  datatype Opportunity = Opportunity(category: string, current: real, potential: real)

  const Opportunities: seq<Opportunity> := [
    Opportunity("Home Office", 0.0, 15000.0),
    Opportunity("Vehicle Expenses", 8000.0, 25000.0),
    Opportunity("Professional Development", 5000.0, 20000.0),
    Opportunity("Equipment & Technology", 12000.0, 30000.0)
  ]

  /** The "Additional Savings" figure: what is still unclaimed. */
  function AdditionalSavings(o: Opportunity): (extra: real)
    ensures o.current + extra == o.potential
  {
    o.potential - o.current
  }

  /** The utilisation bar in percent: 0 while nothing is claimed, otherwise current over
      potential; `None` stands for the non-finite value of a zero potential. */
  function Utilisation(o: Opportunity): (u: Option<real>)
    ensures o.current <= 0.0 ==> u == Some(0.0)
    ensures u.None? <==> o.current > 0.0 && o.potential == 0.0
    ensures 0.0 < o.current <= o.potential ==> u.Some? && 0.0 < u.value <= 100.0
    ensures 0.0 < o.current && o.potential != 0.0 ==> u == Some(o.current / o.potential * 100.0)
  {
    if o.current > 0.0 then
      if o.potential == 0.0 then None
      else
        PercentBounds(o.current, o.potential);
        Some(o.current / o.potential * 100.0)
    else Some(0.0)
  }

  /** The four fixed opportunities: 15000, 17000, 15000 and 18000 still unclaimed, at 0%, 32%, 25% and 40% utilisation. */
  lemma OpportunityFigures()
    ensures OverOpportunities(AdditionalSavings) == [15000.0, 17000.0, 15000.0, 18000.0]
    ensures OverOpportunities(Utilisation) == [Some(0.0), Some(32.0), Some(25.0), Some(40.0)]
  {
  }

  function OverOpportunities<T>(f: Opportunity -> T): seq<T>
  {
    [f(Opportunities[0]), f(Opportunities[1]), f(Opportunities[2]), f(Opportunities[3])]
  }
}
