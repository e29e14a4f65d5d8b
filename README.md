# TaxEase core in Dafny

TaxEase is a small-business tax dashboard. It has four main parts:

- **Analyser.** It takes a batch of classified expense records and totals them into total, deductible and non-deductible expenses.
- **Tax comparison.** It compares a flat-rate tax with and without deductions, and breaks the expenses down by category.
- **Derived metrics.** The two application shells turn the analysis into ratios and cash-outflow figures. From these they give a "Good" / "Can Improve" verdict and a fixed-order list of recommendations.
- **Panels.** Around this pipeline sit several small panels:
  - scoring and charts;
  - expense, category, mistake and loan lists;
  - the sign-in and expense-entry wizards;
  - the chat assistant and the server route that forwards the chat to a language model.

The model has one Dafny module per source file. Two cases differ:

- The shared derivation and recommendation rules live in `TaxDerived`.
- The navigation guard and the view table live in `Routing`.

Both application shells use them. Values the source computes purely are modelled as functions. Components that keep state are classes whose methods change the fields the handlers set. The chat route builds its `parts` array in a loop, and so does its model.

| file | module | source |
|---|---|---|
| foundation.dfy | `Wrappers`, `Folds`, `Numeric`, `Text` | the JavaScript idioms used throughout: `reduce` sums, `filter`, `map`, `Math.round`, `Math.max`/`Math.min`, `toLowerCase`, `includes`, `trim` |
| csv_analyzer.dfy | `CsvAnalyzer` | components/csv-analyzer.tsx |
| tax_derived.dfy | `TaxDerived` | the `taxDerived` memo of app/page.tsx and app/page-new.tsx; the recommendation rules |
| routing.dfy | `Routing` | `guardedSetCurrentView` and `renderPage` |
| main_page.dfy | `MainPage` | app/page.tsx |
| page_new.dfy | `NewPage` | app/page-new.tsx |
| dashboard_overview.dfy | `DashboardOverview` | components/dashboard-overview.tsx |
| infographics.dfy | `Infographics` | components/infographics-insights.tsx |
| charts.dfy | `Charts` | components/charts-and-graphs.tsx |
| expense_manager.dfy | `ExpenseManager` | components/enhanced-expense-manager.tsx |
| category_manager.dfy | `CategoryManager` | components/expense-category-manager.tsx |
| mistake_detector.dfy | `MistakeDetector` | components/mistake-detector.tsx |
| loan_tracker.dfy | `LoanTracker` | components/loan-tracker.tsx |
| login_page.dfy | `LoginPage` | components/login-page.tsx |
| expense_entry.dfy | `ExpenseEntry` | components/expense-entry.tsx |
| assistant_page.dfy | `AssistantPage` | components/ai-assistant-page.tsx |
| chat_route.dfy | `ChatRoute` | app/api/chat/route.ts |

How JavaScript values and effects are represented:

- **Money and rates** are exact `real`s, and `Math.round(x)` is ⌊x + ½⌋.
- **Optional fields** (`x?.y`, `x || 0`) are `Option` values.
- **Inputs supplied from outside are parameters:**
  - the identifiers and dates from `Date.now()` and `new Date()`;
  - the value `parseFloat` returns;
  - whether an optional callback was passed;
  - the chat reply;
  - whether the API key is set.
- **Timer callbacks** (`setTimeout`, `setInterval`) are separate methods that perform the transition the callback makes.
- **Hidden buttons.** A button the page renders only in some states is a method that does nothing in the other states. This covers the steps of the sign-in and expense-entry wizards, the sign-in form's disabled submit button while loading, and the dashboard's tab bar, which exists only on the dashboard page once results are stored.

Where the code behaves surprisingly, the model follows the code:

- **Zero-total percentages.** The category percentage divides by `totalExpenses || 1`. With a zero total each percentage is therefore the amount times 100, not 0 (`CsvAnalyzer.PercentagesOfZeroTotal`).
- **Negative tax.** The with-deductions tax is not clamped at 0. Deductions above the gross income give a negative tax.
- **Validation.** No record is rejected: negative amounts and out-of-range confidences pass through. Properties that need non-negative amounts say so in their `requires`.
- **File contents.** `processCSVData` never reads the uploaded file. It always analyses the same six built-in records.

## Model

| member | source | states |
|---|---|---|
| CsvAnalyzer.Analyze | taxease/components/csv-analyzer.tsx:145-170 | deductible + non-deductible = total; potential savings = deductible × rate; profit with tax − profit without tax = potential savings |
| CsvAnalyzer.TotalExpenses | taxease/components/csv-analyzer.tsx:145 | 0 for no records, never negative when no amount is |
| CsvAnalyzer.DeductibleExpenses | taxease/components/csv-analyzer.tsx:146 | 0 when no record is deductible, the whole total when every record is |
| CsvAnalyzer.DeductibleIsConditionalSum | taxease/components/csv-analyzer.tsx:146 | the deductible total is the sum of all records with non-deductible ones counted as 0 |
| CsvAnalyzer.DeductibleWithinTotal | taxease/components/csv-analyzer.tsx:145-147 | with non-negative amounts 0 ≤ deductible ≤ total and the non-deductible part is ≥ 0 |
| CsvAnalyzer.TaxWithoutIgnoresRecords | taxease/components/csv-analyzer.tsx:149-152 | the without-deductions tax is income × rate whatever the records; the with-deductions tax is (income − deductible) × rate |
| CsvAnalyzer.SavingsSign | taxease/components/csv-analyzer.tsx:151-159 | with non-negative amounts and rate: savings ≥ 0, tax with ≤ tax without, profit with ≥ profit without; with a positive rate, savings are 0 iff nothing is deductible |
| CsvAnalyzer.Divisor | taxease/components/csv-analyzer.tsx:207 | the percentage divisor `total \|\| 1` is never 0 |
| CsvAnalyzer.Group | taxease/components/csv-analyzer.tsx:190-202 | the dictionary after the `forEach` as entries in insertion order: at most one entry per record, empty iff there are no records |
| CsvAnalyzer.CategoryStats | taxease/components/csv-analyzer.tsx:204-208 | the rows of `Object.entries(stats).map(...)`: at most one per record, none iff no records, and with a non-zero total each percentage is amount / total × 100 |
| CsvAnalyzer.RecordRepresented | taxease/components/csv-analyzer.tsx:193-202 | one `forEach` step on the dictionary and its key order matches one step of the functional grouping, both for a new and for an existing category |
| CsvAnalyzer.GetCategoryStats | taxease/components/csv-analyzer.tsx:190-209 | the in-place dictionary loop returns exactly the functional breakdown `CategoryStats` |
| CsvAnalyzer.GroupKeysFirstSeen | taxease/components/csv-analyzer.tsx:190-204 | the dictionary holds one entry per distinct category, in first-seen order |
| CsvAnalyzer.FirstSeenDistinct | taxease/components/csv-analyzer.tsx:193-202 | the dictionary's key order lists each category of the records exactly once and no other |
| CsvAnalyzer.CategoryStatsCount | taxease/components/csv-analyzer.tsx:190-209 | the breakdown has exactly as many rows as there are distinct record categories |
| CsvAnalyzer.GroupConservation | taxease/components/csv-analyzer.tsx:193-202 | the entries' amounts, counts and deductible parts add up to the total, the number of records and the conditional deductible sum |
| CsvAnalyzer.GroupDeductibleBounded | taxease/components/csv-analyzer.tsx:193-202 | with non-negative amounts each entry's deductible part lies in [0, its amount] |
| CsvAnalyzer.CategoryStatsConservation | taxease/components/csv-analyzer.tsx:190-209 | breakdown rows name the distinct categories in first-seen order; their amounts sum to the total, counts to the record count and deductible parts to the deductible total |
| CsvAnalyzer.CategoryStatsDeductibleBounded | taxease/components/csv-analyzer.tsx:193-209 | with non-negative amounts every row's deductible part lies in [0, its amount] |
| CsvAnalyzer.SumPercentages | taxease/components/csv-analyzer.tsx:204-208 | the percentages add up to the summed amounts over the divisor, times 100 |
| CsvAnalyzer.PercentagesSumTo100 | taxease/components/csv-analyzer.tsx:204-208 | with a non-zero total the percentages add up to exactly 100 |
| CsvAnalyzer.PercentagesOfZeroTotal | taxease/components/csv-analyzer.tsx:207 | with a zero total each percentage is amount × 100, and 0 when all amounts are non-negative |
| CsvAnalyzer.ResultsFor | taxease/components/csv-analyzer.tsx:174-180 | the dashboard payload carries the analysis unchanged, the breakdown `CategoryStats` of the records over the analysed total, and a one-point monthly trend |
| CsvAnalyzer.Analyzer.constructor | taxease/components/csv-analyzer.tsx:52-57 | not processing, progress 0, no records, no analysis, no results shown, completion flag down |
| CsvAnalyzer.Analyzer.HandleFileUpload | taxease/components/csv-analyzer.tsx:72-78 | only a present `text/csv` file starts processing from progress 0; anything else changes nothing |
| CsvAnalyzer.Analyzer.ProgressTick | taxease/components/csv-analyzer.tsx:79-88 | below 100 the progress rises by 10 and nothing else changes; at ≥ 100 the interval stops, the mock batch is analysed and progress is 100 |
| CsvAnalyzer.Analyzer.ProcessCSVData | taxease/components/csv-analyzer.tsx:92-188 | the stored records are the mock batch, the analysis is `Analyze` of them under 100000 / 0.3, processing ends and results show |
| CsvAnalyzer.Analyzer.HandleClose | taxease/components/csv-analyzer.tsx:211-215 | the completion flag is raised again exactly when an analysis exists |
| CsvAnalyzer.Analyzer.NotifyCompletion | taxease/components/csv-analyzer.tsx:217-236 | the payload is delivered iff the flag is up, an analysis exists and a listener is attached; it is `ResultsFor` the stored data and resets the flag |
| CsvAnalyzer.MockTotal | taxease/components/csv-analyzer.tsx:94-145 | the six mock records total 29950 |
| CsvAnalyzer.MockDeductible | taxease/components/csv-analyzer.tsx:94-146 | their deductible total is 24250 |
| CsvAnalyzer.MockAnalysis | taxease/components/csv-analyzer.tsx:94-170 | all eight figures: 29950, 24250, 5700, savings 7275, taxes 22725 / 30000, profits 47325 / 40050 |
| CsvAnalyzer.MockFirstSeen | taxease/components/csv-analyzer.tsx:94-143 | the mock categories in first-seen order are office, meals, other, software, travel |
| CsvAnalyzer.MockCategoryOrder | taxease/components/csv-analyzer.tsx:190-209 | the mock breakdown lists office, meals, other, software, travel in that order |
| TaxDerived.Assess | taxease/app/page.tsx:263-274 | verdict "Good" iff savings rate ≥ 0.2 or deductible ratio ≥ 0.6, each verdict with its fixed detail |
| TaxDerived.Derive | taxease/app/page.tsx:242-289 | savings = cash-outflow reduction = max(without − paid, 0) ≥ 0; tax rate 0 when income ≤ 0, deductible ratio 0 when total ≤ 0, savings rate 0 when the without-tax ≤ 0; savings rate ≥ 0; assessment by `Assess` |
| TaxDerived.DeriveStored | taxease/app/page.tsx:242-243 | nothing is derived iff no results are stored |
| TaxDerived.AfterTaxExpenseBound | taxease/app/page.tsx:249-251 | with rate ≥ 0 and deductible ≥ 0 the after-tax expense is at most the nominal expense, and at least the non-deductible part when rate ≤ 1 |
| TaxDerived.SavingsRateIsFraction | taxease/app/page.tsx:254-262 | with a non-negative paid tax the savings rate lies in [0, 1] |
| TaxDerived.DeriveRecoversAssumptions | taxease/app/page.tsx:244-256 | on analyser output the gross income is the assumed income, the tax rate the assumed rate, the after-tax expense total − savings, and the cash outflow total + paid tax |
| TaxDerived.DeriveSavingsOfAnalysis | taxease/app/page.tsx:254-262 | on analyser output the derived savings equal the analyser's potential savings, and the savings rate is deductible / income |
| TaxDerived.DeductibleRatioIsFraction | taxease/app/page.tsx:258-261 | with non-negative amounts the deductible ratio lies in [0, 1] |
| TaxDerived.MockDerived | taxease/app/page.tsx:242-289 | the twelve derived figures of the mock batch (income 100000, rate 0.3, after-tax 22675, …, verdict "Good") |
| TaxDerived.VerdictLabel | taxease/app/page.tsx:930-931 | the badge is the verdict, or "N/A" when no derivation or an empty verdict |
| TaxDerived.Recommend | taxease/app/page.tsx:936-944 | each of the three tips appears iff its own condition holds, in the fixed order, and no other tip appears |
| TaxDerived.TimingTipWithoutDerived | taxease/components/dashboard-overview.tsx:193 | without a derivation the year-end timing tip always appears |
| TaxDerived.MockRecommendations | taxease/app/page.tsx:936-944 | the mock batch earns only the documentation tip |
| Routing.GuardedView | taxease/app/page.tsx:297-303 | unauthenticated requests for views other than home/login give "login"; all others pass unchanged |
| Routing.GuardKeepsVisitorsPublic | taxease/app/page.tsx:297-303 | an unauthenticated visitor always ends on a public view |
| Routing.GuardIdempotent | taxease/app/page.tsx:297-303 | guarding twice is guarding once |
| Routing.Render | taxease/app/page-new.tsx:211-234 | the home page is shown iff the view is not one of the eight other known views; "mistake-detector" has its screen |
| Routing.RenderInjectiveOnKnown | taxease/app/page-new.tsx:211-234 | distinct known views show distinct screens |
| MainPage.RenderPageAsWritten | taxease/app/page.tsx:1569-1590 | the router as written sends "mistake-detector" to the home page and agrees with `Routing.Render` on all other views |
| MainPage.MistakeDetectorRoutingGap | taxease/app/page.tsx:1569-1590 | the two routers differ exactly on "mistake-detector", a view the page's own buttons navigate to |
| MainPage.ButtonTargetsRendered | taxease/app/page-new.tsx:211-234 | with the complete table every button target has a screen of its own |
| MainPage.App.constructor | taxease/app/page.tsx:220-240 | view "home", not authenticated, no results, dashboard tab "csv-analyzer" |
| MainPage.App.Derived | taxease/app/page.tsx:242-243 | the memo is absent iff no results are stored |
| MainPage.App.Recommendations | taxease/app/page.tsx:936-944 | the recommendation list of the dashboard page's overview card, present iff results are stored and the overview tab is selected (page.tsx:679), and equal to `Recommend` of the stored analysis |
| MainPage.App.Verdict | taxease/app/page.tsx:930-931 | "N/A" without results, otherwise the derived verdict |
| MainPage.App.Screen | taxease/app/page.tsx:1569-1590 | the page `renderPage` as written shows for the current view: the home page for "mistake-detector", the complete table's screen for every other view |
| MainPage.App.GuardedSetCurrentView | taxease/app/page.tsx:297-303 | the new view is `GuardedView`; an unauthenticated user stays on a public view; nothing else changes |
| MainPage.App.Navigate | taxease/app/page.tsx:595-619 | the direct `setCurrentView` of the page's buttons: the requested view is set whatever the sign-in state; nothing else changes |
| MainPage.App.TabBarShown | taxease/app/page.tsx:1195 | the tab bar is on screen only while the dashboard screen is rendered (page.tsx:1575-1576) and results are stored |
| MainPage.App.SelectDashboardTab | taxease/app/page.tsx:1195-1212 | while the tab bar is on screen, one of the seven tab ids becomes the dashboard tab; otherwise the tab is unchanged; view, sign-in state and results are always unchanged |
| MainPage.VisitorOpensPrivateView | taxease/app/page.tsx:595 | a fresh page, not signed in, reaches the non-public view "expense-entry" through a home-page card |
| MainPage.App.HandleCSVAnalysisComplete | taxease/app/page.tsx:291-295 | results stored, view "dashboard", tab "overview", and the memo is now the derivation of those results |
| MainPage.App.LoginSuccess | taxease/app/page.tsx:1574 | authenticated and on the dashboard |
| NewPage.App.constructor | taxease/app/page-new.tsx:42-45 | view "home", not authenticated, no results |
| NewPage.App.Derived | taxease/app/page-new.tsx:52-99 | absent iff no results; otherwise the same `Derive` as app/page.tsx |
| NewPage.App.Screen | taxease/app/page-new.tsx:211-234 | "mistake-detector" shows its screen; unknown views show the home page |
| NewPage.App.GuardedSetCurrentView | taxease/app/page-new.tsx:106-112 | the new view is `GuardedView`; an unauthenticated user stays on a public view |
| NewPage.App.HandleCSVAnalysisComplete | taxease/app/page-new.tsx:101-104 | results stored and view "dashboard" |
| NewPage.App.LoginSuccess | taxease/app/page-new.tsx:216 | authenticated and on the dashboard |
| NewPage.App.LoginThenNavigate | taxease/app/page-new.tsx:106-112 | after a login the guard lets every requested view through |
| DashboardOverview.Render | taxease/components/dashboard-overview.tsx:13-204 | nothing iff no results; tips are `Recommend`; with no derivation all tax figures are 0, the verdict "N/A" and the timing tip shown; otherwise the derivation's figures, rate in percent |
| DashboardOverview.SameAsMainPage | taxease/components/dashboard-overview.tsx:178-204 | with the derivation of the same analysis the overview shows the main page's verdict and tips |
| DashboardOverview.MockOverview | taxease/components/dashboard-overview.tsx:124-204 | the mock overview: 22725, 30000, 7275, 30%, 29950, 22675, 24250, 5700, "Good", only the documentation tip |
| Infographics.InputOf | taxease/components/infographics-insights.tsx:19-29 | analyser results provide the total expenses, the deductible expenses and the number of breakdown rows, all present |
| Infographics.DeductionRate | taxease/components/infographics-insights.tsx:23 | 0 when the total is ≤ 0; within [0, 100] when 0 ≤ deductible ≤ total |
| Infographics.PerformanceScore | taxease/components/infographics-insights.tsx:26-30 | always in [0, 100], and equal to the weighted sum whenever that lies in [0, 100] |
| Infographics.TermsSaturate | taxease/components/infographics-insights.tsx:28-29 | each capped term is ≤ 30, reaches 30 iff savings ≥ 10000 / categories ≥ 10, and is linear below |
| Infographics.ScoreUnclamped | taxease/components/infographics-insights.tsx:26-30 | with a rate in [0, 100] and non-negative savings the clamp has no effect |
| Infographics.LevelOf | taxease/components/infographics-insights.tsx:32-37 | Excellent iff ≥ 90, Good iff in [80, 90), Fair iff in [70, 80), Needs Improvement iff < 70 |
| Infographics.LevelName | taxease/components/infographics-insights.tsx:33-36 | the label shown for each level |
| Infographics.Message | taxease/components/infographics-insights.tsx:155-159 | the summary line chosen by the 90 / 80 / 70 thresholds (tied to the level by `MessageFollowsLevel`) |
| Infographics.MessageFollowsLevel | taxease/components/infographics-insights.tsx:155-159 | the summary message is determined by the level |
| Infographics.Compute | taxease/components/infographics-insights.tsx:17-39 | nothing iff no results; score in [0, 100]; level from the score; a missing total gives rate 0 |
| Infographics.MockInsights | taxease/components/infographics-insights.tsx:17-39 | the mock batch: rate 24250/29950 × 100, score in (69, 70), "Needs Improvement" |
| Infographics.AdditionalSavings | taxease/components/infographics-insights.tsx:284-285 | current + additional = potential |
| Infographics.Utilisation | taxease/components/infographics-insights.tsx:290-297 | 0 while nothing is claimed; current / potential × 100 otherwise, within (0, 100] when current ≤ potential; non-finite only for a zero potential |
| Infographics.OpportunityFigures | taxease/components/infographics-insights.tsx:80-113 | the four opportunities: 15000, 17000, 15000, 18000 unclaimed at 0%, 32%, 25%, 40% |
| Charts.MonthlyData | taxease/components/charts-and-graphs.tsx:20-33 | the stored trend when present, else the twelve demo months |
| Charts.CategoryData | taxease/components/charts-and-graphs.tsx:35-44 | the stored breakdown when present, else the eight demo categories |
| Charts.TotalDeductions | taxease/components/charts-and-graphs.tsx:90-93 | 0 for an empty list |
| Charts.TaxEfficiency | taxease/components/charts-and-graphs.tsx:95-100 | 0 for an empty list or a non-positive value sum, otherwise the rounded deduction percentage |
| Charts.MonthlyAverage | taxease/components/charts-and-graphs.tsx:102-105 | 0 for no months, otherwise the rounded mean |
| Charts.AnalysedCategoryCount | taxease/components/charts-and-graphs.tsx:107-109 | on analysed data the category card counts the distinct record categories; without stored results it counts the 8 demo categories |
| Charts.EfficiencyBounded | taxease/components/charts-and-graphs.tsx:95-100 | with each deductible within [0, its value] the efficiency lies in [0, 100] |
| Charts.AnalysedEfficiency | taxease/components/charts-and-graphs.tsx:95-100 | on analysed data the efficiency is 0 (rows carry no `value`), while total deductions equal the deductible total |
| Charts.AnalysedMonthlyAverage | taxease/components/charts-and-graphs.tsx:102-105 | on analysed data the monthly average is the rounded total |
| Charts.DemoDeductions | taxease/components/charts-and-graphs.tsx:35-44 | the demo deductions total 83700 |
| Charts.DemoValues | taxease/components/charts-and-graphs.tsx:35-44 | the demo values total 92000 |
| Charts.DemoMonthTotal | taxease/components/charts-and-graphs.tsx:20-33 | the demo months total 700000 |
| Charts.DemoFigures | taxease/components/charts-and-graphs.tsx:90-109 | without results: deductions 83700, efficiency 91, monthly average 58333, 8 categories |
| ExpenseManager.FilterExpensesMembership | taxease/components/enhanced-expense-manager.tsx:79-83 | an expense is listed iff it is in the list, its category matches ("all" matches all) and its lower-cased description contains the lower-cased search |
| ExpenseManager.FilterAllEmptyKeepsAll | taxease/components/enhanced-expense-manager.tsx:79-83 | "all" with an empty search lists every expense in order |
| ExpenseManager.FilterExpenses | taxease/components/enhanced-expense-manager.tsx:79-83 | the listed expenses: no more than the list, each one in the list and matching both criteria |
| ExpenseManager.TotalExpenses | taxease/components/enhanced-expense-manager.tsx:85 | 0 for no expenses, never negative when no amount is |
| ExpenseManager.DeductibleExpenses | taxease/components/enhanced-expense-manager.tsx:86 | 0 when nothing is deductible, the whole total when everything is |
| ExpenseManager.PendingExpenses | taxease/components/enhanced-expense-manager.tsx:87 | 0 when nothing is pending, the whole total when everything is |
| ExpenseManager.TotalsBounded | taxease/components/enhanced-expense-manager.tsx:85-87 | with non-negative amounts deductible and pending sums lie in [0, total] |
| ExpenseManager.DeductionRateBounded | taxease/components/enhanced-expense-manager.tsx:171 | with non-negative amounts the card's rate lies in [0, 100]; it is 0 when nothing is deductible and 100 when everything is |
| ExpenseManager.CategoryTotal | taxease/components/enhanced-expense-manager.tsx:374-378 | 0 for a category no expense has; within [0, total] when no amount is negative |
| ExpenseManager.RowOf | taxease/components/enhanced-expense-manager.tsx:374-378 | a row's amount is the category total; its percentage is 0 when total ≤ 0 |
| ExpenseManager.Breakdown | taxease/components/enhanced-expense-manager.tsx:374-378 | one row per fixed category, in the fixed order |
| ExpenseManager.UnlistedCategoryNotShown | taxease/components/enhanced-expense-manager.tsx:374-378 | an expense outside the fixed categories changes no row's amount |
| ExpenseManager.NewExpense | taxease/components/enhanced-expense-manager.tsx:91-101 | the new record is pending with no receipt and carries the form's fields and deductible flag |
| ExpenseManager.Manager.constructor | taxease/components/enhanced-expense-manager.tsx:26-72 | the initial list, an empty form, category "all", empty search |
| ExpenseManager.Manager.Filtered | taxease/components/enhanced-expense-manager.tsx:79-83 | every listed expense is in the list and matches the selected category and the search |
| ExpenseManager.Manager.AddExpense | taxease/components/enhanced-expense-manager.tsx:89-104 | exactly one record appended and the form reset iff all four fields are filled; otherwise nothing changes |
| ExpenseManager.AddRaisesTotals | taxease/components/enhanced-expense-manager.tsx:85-102 | adding raises the total and the pending sum by the new amount |
| ExpenseManager.InitialTotals | taxease/components/enhanced-expense-manager.tsx:26-87 | total 29000, deductible 29000, pending 8500 |
| CategoryManager.FilterByActivity | taxease/components/expense-category-manager.tsx:142-148 | listed iff in the list and name/activity match; "active" lists only active, "inactive" only inactive, other values nothing |
| CategoryManager.FilterCategories | taxease/components/expense-category-manager.tsx:142-148 | the listed categories: no more than the list, each one in the list and matching the search and the activity filter |
| CategoryManager.TotalExpenses | taxease/components/expense-category-manager.tsx:150 | 0 for no categories, never negative when no amount is |
| CategoryManager.ActiveCategories | taxease/components/expense-category-manager.tsx:151 | never more than the number of categories |
| CategoryManager.NewCategory | taxease/components/expense-category-manager.tsx:122-136 | non-default (so deletable), active, 0 expenses, 0 amount, 100 / 100 percentages, the form's fields |
| CategoryManager.AddKeepsTotalRaisesActive | taxease/components/expense-category-manager.tsx:122-151 | adding keeps the total amount and raises the active count by one |
| CategoryManager.InitialFigures | taxease/components/expense-category-manager.tsx:39-151 | 3 categories, total 58000, 3 active, none deletable |
| CategoryManager.CanDelete | taxease/components/expense-category-manager.tsx:425 | the delete button is shown iff the category is not a default one |
| CategoryManager.Manager.constructor | taxease/components/expense-category-manager.tsx:39-97 | the initial list, the reset form, empty search, filter "all", no suggestions |
| CategoryManager.Manager.Filtered | taxease/components/expense-category-manager.tsx:142-148 | every listed category is in the list and matches the search and the activity filter |
| CategoryManager.Manager.GenerateAISuggestions | taxease/components/expense-category-manager.tsx:99-118 | the two fixed suggestions are shown; the list is unchanged |
| CategoryManager.Manager.AddCategory | taxease/components/expense-category-manager.tsx:120-140 | exactly one category appended and the form reset to "#3B82F6" / "📄" iff name and description are filled; otherwise nothing changes |
| MistakeDetector.FilterMistakes | taxease/components/mistake-detector.tsx:144-145 | "all" gives the whole list; otherwise exactly the mistakes of that category |
| MistakeDetector.TotalPotentialSavings | taxease/components/mistake-detector.tsx:147-149 | the savings of the detected mistakes: 0 when none is detected, never negative when no saving is |
| MistakeDetector.DetectedCount | taxease/components/mistake-detector.tsx:151 | the detected and resolved counts together never exceed the list length |
| MistakeDetector.ResolvedCount | taxease/components/mistake-detector.tsx:152 | at most the list length |
| MistakeDetector.ActionsOffered | taxease/components/mistake-detector.tsx:318 | the action buttons are shown iff the mistake is still detected |
| MistakeDetector.SetStatus | taxease/components/mistake-detector.tsx:324 | same length; the entries with the id take the new status, every other entry is unchanged |
| MistakeDetector.SetStatusIsUpdate | taxease/components/mistake-detector.tsx:324 | with unique ids the change touches one position only |
| MistakeDetector.ResolveMovesCounts | taxease/components/mistake-detector.tsx:147-152 | resolving a detected mistake: detected −1, resolved +1, potential savings reduced by its savings |
| MistakeDetector.IgnoreMovesCounts | taxease/components/mistake-detector.tsx:147-152 | ignoring a detected mistake: detected −1, resolved unchanged, potential savings reduced by its savings |
| MistakeDetector.MockDetected | taxease/components/mistake-detector.tsx:35-96 | the first four mock mistakes are the detected ones |
| MistakeDetector.MockResolved | taxease/components/mistake-detector.tsx:35-96 | the fifth is the only resolved one |
| MistakeDetector.MockSavings | taxease/components/mistake-detector.tsx:147-149 | the mock potential savings are 27300 |
| MistakeDetector.MockUniqueIds | taxease/components/mistake-detector.tsx:35-96 | the mock ids are distinct |
| MistakeDetector.MockFigures | taxease/components/mistake-detector.tsx:147-152 | unique ids, 4 detected, 1 resolved, 27300 potential savings |
| MistakeDetector.Detector.constructor | taxease/components/mistake-detector.tsx:99-101 | the mock list, category "all", not scanning |
| MistakeDetector.Detector.Filtered | taxease/components/mistake-detector.tsx:144-145 | the cards on screen: all of them under "all", and always mistakes of the list |
| MistakeDetector.Detector.SelectCategory | taxease/components/mistake-detector.tsx:236-241 | one of the five button values becomes the selected category; the list is unchanged |
| MistakeDetector.Detector.MarkResolved | taxease/components/mistake-detector.tsx:318-326 | with the button present (card k of the filtered list is detected) the whole list is `SetStatus(…, that card's id, Resolved)`; otherwise unchanged |
| MistakeDetector.Detector.Ignore | taxease/components/mistake-detector.tsx:318-336 | likewise with `Ignored` |
| MistakeDetector.Detector.RunScan | taxease/components/mistake-detector.tsx:154-160 | scanning starts; the list is unchanged |
| MistakeDetector.Detector.ScanDone | taxease/components/mistake-detector.tsx:154-160 | scanning ends; the list is unchanged |
| LoanTracker.DeductibleIsTwelveMonths | taxease/components/loan-tracker.tsx:112-114 | the deductible amount (the sum of the per-loan annual deductions) is 12 × the monthly payments of the deductible loans |
| LoanTracker.TotalOutstanding | taxease/components/loan-tracker.tsx:110 | 0 for no loans, never negative when no balance is |
| LoanTracker.TotalMonthlyPayment | taxease/components/loan-tracker.tsx:111 | 0 for no loans, never negative when no payment is |
| LoanTracker.TaxDeductibleAmount | taxease/components/loan-tracker.tsx:112-114 | 0 when no loan is deductible; with non-negative payments within [0, 12 × all monthly payments] |
| LoanTracker.AnnualDeduction | taxease/components/loan-tracker.tsx:258 | a year of the loan's monthly payment, the summand of the deductible total |
| LoanTracker.Progress | taxease/components/loan-tracker.tsx:182 | (principal − balance) / principal × 100, 0 when nothing is repaid, non-finite only for a zero principal |
| LoanTracker.ProgressBounded | taxease/components/loan-tracker.tsx:182 | with 0 ≤ balance ≤ principal the progress lies in [0, 100], and is 100 at a zero balance |
| LoanTracker.LoanIcon | taxease/components/loan-tracker.tsx:82-95 | home, car and education have their icons; every other kind the card icon |
| LoanTracker.StatusColor | taxease/components/loan-tracker.tsx:97-108 | green iff active, red iff overdue, gray iff paid, blue iff none of these |
| LoanTracker.MockTotals | taxease/components/loan-tracker.tsx:36-114 | outstanding 3605000, monthly 75500, deductible 540000 |
| LoginPage.StepTitle | taxease/components/login-page.tsx:302-313 | "Welcome" iff outside steps 1-3; step 1 depends on the mode |
| LoginPage.StepDescription | taxease/components/login-page.tsx:315-326 | empty iff outside steps 1-3 |
| LoginPage.TitleDeterminesStep | taxease/components/login-page.tsx:302-313 | within steps 1-3 the title determines the step, and on step 1 the mode |
| LoginPage.SubmitCaption | taxease/components/login-page.tsx:187 | "Processing..." iff loading |
| LoginPage.ToggleCaption | taxease/components/login-page.tsx:196 | the sign-in prompt iff in sign-up mode |
| LoginPage.Login.constructor | taxease/components/login-page.tsx:18-27 | step 1, sign-in mode, not loading, no pending submission |
| LoginPage.Login.HandleAuth | taxease/components/login-page.tsx:29-34 | on step 1 and not loading (the form is shown from step 1 only, login-page.tsx:339, and its submit is disabled while loading, :180), loading starts and the timeout keeps the mode of this moment; otherwise nothing changes; step and mode unchanged; reachable states stay valid (loading only on step 1) |
| LoginPage.Login.AuthDone | taxease/components/login-page.tsx:34-41 | fires only while a submission is pending, else nothing changes; loading ends; by the mode captured at submission (a toggle meanwhile does not count), sign-up moves to step 2 without `onSuccess` and sign-in calls `onSuccess` (when given) and keeps the step |
| LoginPage.Login.HandleOnboarding | taxease/components/login-page.tsx:44-46 | from step 2, where the button is (:245, :340), step 3; on any other step nothing changes; mode and loading unchanged |
| LoginPage.Login.HandleDataUpload | taxease/components/login-page.tsx:48-51 | the view "csv-analyzer" is requested iff the page is on step 3, where the button is (:293, :341), and a setter was passed |
| LoginPage.Login.ToggleSignup | taxease/components/login-page.tsx:193 | on step 1, where the toggle is (:339), the mode flips, so toggling twice restores it; elsewhere nothing changes |
| ExpenseEntry.CategoryLabel | taxease/components/expense-entry.tsx:327 | absent iff no category of the list has the value; otherwise the label of one that has it |
| ExpenseEntry.CanAdvance | taxease/components/expense-entry.tsx:182 | "Next" is enabled iff amount and category are filled |
| ExpenseEntry.ReceiptLabel | taxease/components/expense-entry.tsx:336 | "Attached" iff a receipt is stored, "Scanned" iff none but scan data, "None" iff neither |
| ExpenseEntry.StepCompleted | taxease/components/expense-entry.tsx:393-410 | a step shows its check mark iff it lies before the current one |
| ExpenseEntry.StepHighlighted | taxease/components/expense-entry.tsx:393-410 | a step is drawn in the primary colour iff it is not after the current one |
| ExpenseEntry.IndicatorMarksCurrentStep | taxease/components/expense-entry.tsx:393-410 | completed steps are highlighted, and the one highlighted but not completed step is the current one |
| ExpenseEntry.Fill | taxease/components/expense-entry.tsx:73-78 | extracted amount, category and description replace the form's; date and receipt stay |
| ExpenseEntry.ExtractedCategoriesListed | taxease/components/expense-entry.tsx:52-59 | both simulated extractions name a listed category (Office Supplies, Meals & Entertainment) |
| ExpenseEntry.Wizard.constructor | taxease/components/expense-entry.tsx:34-43 | step 1, not scanning, no scan data, empty amount and category, today's date, no receipt |
| ExpenseEntry.Wizard.NextStep | taxease/components/expense-entry.tsx:181-182 | step 1 → 2 only with amount and category filled; otherwise unchanged |
| ExpenseEntry.Wizard.Back | taxease/components/expense-entry.tsx:252 | steps 2 and 3 go back one step |
| ExpenseEntry.Wizard.Skip | taxease/components/expense-entry.tsx:260 | step 2 → 3 |
| ExpenseEntry.Wizard.StartScan | taxease/components/expense-entry.tsx:61-62 | scanning starts on step 2 |
| ExpenseEntry.Wizard.ScanDone | taxease/components/expense-entry.tsx:63-80 | scan data stored, form filled with 2450 / office / its description, scanning ends, step 3 |
| ExpenseEntry.Wizard.UploadFile | taxease/components/expense-entry.tsx:83-86 | a chosen file is stored as the receipt and starts processing; no file changes nothing |
| ExpenseEntry.Wizard.UploadDone | taxease/components/expense-entry.tsx:87-104 | scan data stored, form filled with 1250 / meals / its description, step 3 |
| ExpenseEntry.Wizard.Save | taxease/components/expense-entry.tsx:358-362 | `onClose` is called iff on the review step |
| AssistantPage.History | taxease/components/ai-assistant-page.tsx:63 | one entry per message in order, same content, role "assistant" iff an assistant message, else "user" |
| AssistantPage.ReplyText | taxease/components/ai-assistant-page.tsx:70-85 | never empty: the reply, the fallback for an empty reply, or the error text on failure |
| AssistantPage.OutcomeOf | taxease/components/ai-assistant-page.tsx:69-75 | the route's reply reaches the page as its text; the route's error bodies carry no `reply` and arrive as an empty reply, not as a thrown error |
| AssistantPage.RouteErrorShowsFallback | taxease/components/ai-assistant-page.tsx:69-85 | every route error, a missing API key included, shows the empty-reply fallback and never the service-error text |
| AssistantPage.GenerateAIResponse | taxease/components/ai-assistant-page.tsx:90-110 | each reply iff its keywords occur in the lower-cased question and no earlier rule's do |
| AssistantPage.ResponseIgnoresCase | taxease/components/ai-assistant-page.tsx:91 | lower-casing the question first does not change the reply |
| AssistantPage.ExpenseBeatsSavings | taxease/components/ai-assistant-page.tsx:93-99 | a question with both "expense" and "savings" gets the deduction reply |
| AssistantPage.DeductionQuestionReply | taxease/components/ai-assistant-page.tsx:32-38 | the first quick question gets the deduction reply |
| AssistantPage.TrackingQuestionReply | taxease/components/ai-assistant-page.tsx:32-38 | the tracking quick question also gets the deduction reply |
| AssistantPage.Assistant.constructor | taxease/components/ai-assistant-page.tsx:18-29 | the greeting alone, empty input, not typing |
| AssistantPage.Assistant.Send | taxease/components/ai-assistant-page.tsx:48-68 | a blank input changes nothing; otherwise the user message is appended, the input cleared, typing starts and the posted history is `History` of the new transcript |
| AssistantPage.Assistant.Receive | taxease/components/ai-assistant-page.tsx:70-88 | exactly one assistant message with `ReplyText` appended; typing ends |
| AssistantPage.Assistant.QuickQuestion | taxease/components/ai-assistant-page.tsx:112-114 | the question fills the input; nothing is sent |
| ChatRoute.ModelRole | taxease/app/api/chat/route.ts:31 | assistant → model, every other role unchanged, so the three known roles map into user/model |
| ChatRoute.SystemParts | taxease/app/api/chat/route.ts:26-28 | one part iff the system prompt is non-empty |
| ChatRoute.HistoryParts | taxease/app/api/chat/route.ts:30-33 | one part per message, in order |
| ChatRoute.ToParts | taxease/app/api/chat/route.ts:24-33 | the request's parts: the system part (if any) followed by the history's parts, a missing history counting as empty |
| ChatRoute.PartsCount | taxease/app/api/chat/route.ts:24-33 | parts = messages + 1 for a non-empty system prompt; a missing history counts as empty |
| ChatRoute.SystemPartFirst | taxease/app/api/chat/route.ts:26-28 | with a system prompt the first part is user "System instructions: " + prompt |
| ChatRoute.PartsFollowHistory | taxease/app/api/chat/route.ts:30-33 | message i becomes part i (+1 after a system part) with its text unchanged and its role translated |
| ChatRoute.BuildParts | taxease/app/api/chat/route.ts:24-33 | the push loop builds exactly `ToParts` |
| ChatRoute.Post | taxease/app/api/chat/route.ts:9-42 | an unparsable body gives "Chat request failed" / 500 and a missing key "Missing GEMINI_API_KEY" / 500, both without a model call; otherwise the model gets `ToParts` and the reply or "Chat request failed" / 500 is returned |

## Left out

- **Rendering.** JSX, class names, icons, the charts library and animations are not modelled. The one exception is the labels and captions that branch on state (verdict badge, receipt label, step captions, icon and colour tables).
- **Display formatting.** `toLocaleString`, `toFixed` and string parsing (`parseFloat`) are left out: they only format or parse, and the parsed amount is a parameter.
- **Floating point.** IEEE-754 behaviour, NaN and Infinity are not modelled. Money is exact. A division that would give a non-finite value is an `Option` (`LoanTracker.Progress`, `Infographics.Utilisation`).
- **Unguarded display percentages.** Two display-only figures divide without a guard and are not modelled: the "profit boost" at components/dashboard-overview.tsx:50 (potential savings over the profit without tax) and the deductible percentage at components/dashboard-overview.tsx:65.
- **Unicode.** `toLowerCase` maps ASCII A-Z only. `trim` knows a fixed set of common whitespace characters. There is no Unicode case mapping.
- **Timers.** Delays and interval ids are not modelled. Each timer callback is a method run when the timer fires: `ProgressTick`, `AuthDone`, `ScanDone`, `UploadDone`, `Receive`.
- **Network and environment.** The model call in route.ts, `fetch`, `process.env` and `console.error` are left out. They are represented by the parameters `modelOutcome`, `Outcome` and `hasApiKey`. Because `fetch` resolves on an HTTP 500, the route's error bodies reach the page as a reply without text (`AssistantPage.OutcomeOf`); only a network or JSON failure is `Failed`.
- **React.** `useState` and `useMemo` caching are not modelled: state is class fields and memos are functions. Effects run when their method is called. The analyser's `useEffect` is `NotifyCompletion`.
- **`Object.entries` order.** The order is modelled as insertion order. JavaScript lists integer-like keys first; the model does not capture this for category names such as "2024".
- **Inherited dictionary keys.** `getCategoryStats` uses a plain object, so a category named like an `Object.prototype` member ("constructor", "toString") tallies into the inherited function, gets a NaN amount and is left out by `Object.entries`; "__proto__" is lost too. The model gives such a category an ordinary entry. The analyser only ever passes its built-in records, which use none of these names.
- **Field edits.** Form inputs that copy one typed value into state (`onChange` handlers) are left out as plain field assignments. So are the dark-mode, language, notification, voice-input (`toggleVoiceInput`) and search toggles of the pages, which no core rule reads. The mistake detector's category buttons are modelled (`MistakeDetector.Detector.SelectCategory`), because its action buttons act on the filtered list.
- **generateAIResponse** is not called anywhere in the source. The send path posts to the chat route instead. It is modelled as the pure function it is.
- **The analyser's record list** is the six built-in records, because `processCSVData` never reads the uploaded file. `Analyze` takes any list, so the properties hold for all record lists whose categories are not inherited object keys (see above).
- **LoanTracker.LoanIcon and LoanTracker.StatusColor** take strings. The source's union types exclude unknown values at compile time only, and the default branches handle them at run time.

## Findings

| source | as written | input that shows it | evidently intended | confidence | as-written member | corrected member |
|---|---|---|---|---|---|---|
| taxease/app/page.tsx:1569-1590 | `renderPage` has no case for "mistake-detector", so that view shows the home page | the view "mistake-detector", set by the buttons at taxease/app/page.tsx:619 and :1408 | show the mistake detector, as app/page-new.tsx:229-230 does | not executed | MainPage.RenderPageAsWritten | Routing.Render |
| taxease/app/page.tsx:595-619 | the home page's feature cards call `setCurrentView` directly, bypassing `guardedSetCurrentView` (page.tsx:297-303) | a visitor who has not signed in clicks "Manual Entry" and opens "expense-entry" | send the cards through the guard, as page-new.tsx:149 and :155 do for its home-page buttons | not executed; medium, since the guard exists for exactly this case | MainPage.VisitorOpensPrivateView | MainPage.App.GuardedSetCurrentView |
