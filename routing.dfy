/** The view names the two main pages switch on, the screen each one denotes, and the
    navigation guard both pages share (app/page.tsx, app/page-new.tsx). */
module Routing {

  datatype Screen =
    | HomeScreen
    | LoginScreen
    | DashboardScreen
    | AnalyticsScreen
    | AssistantScreen
    | QuickActionsScreen
    | ExpenseEntryScreen
    | CsvAnalyzerScreen
    | MistakeDetectorScreen

  /** The views an unauthenticated visitor may open. */
  predicate IsPublic(view: string)
  {
    view == "home" || view == "login"
  }

  /** `guardedSetCurrentView`: the view actually set when `view` is requested. */
  function GuardedView(isAuthenticated: bool, view: string): (v: string)
    ensures !isAuthenticated && !IsPublic(view) ==> v == "login"
    ensures isAuthenticated || IsPublic(view) ==> v == view
  {
    if !isAuthenticated && view != "home" && view != "login" then "login" else view
  }

  /** An unauthenticated visitor always ends on a public view. */
  lemma GuardKeepsVisitorsPublic(view: string)
    ensures IsPublic(GuardedView(false, view))
  {
  }

  /** Guarding twice is guarding once. */
  lemma GuardIdempotent(isAuthenticated: bool, view: string)
    ensures GuardedView(isAuthenticated, GuardedView(isAuthenticated, view)) == GuardedView(isAuthenticated, view)
  {
  }

  /** The screen `renderPage` shows for a view name, with every unknown name falling back to
      the home page. This is the complete table of page-new.tsx. */
  function Render(view: string): (s: Screen)
    ensures s == HomeScreen <==> view !in KnownViews - {"home"}
    ensures view == "mistake-detector" ==> s == MistakeDetectorScreen
  {
    if view == "login" then LoginScreen
    else if view == "dashboard" then DashboardScreen
    else if view == "analytics" then AnalyticsScreen
    else if view == "ai-assistant" then AssistantScreen
    else if view == "quick-actions" then QuickActionsScreen
    else if view == "expense-entry" then ExpenseEntryScreen
    else if view == "csv-analyzer" then CsvAnalyzerScreen
    else if view == "mistake-detector" then MistakeDetectorScreen
    else HomeScreen
  }

  /** The view names that have a screen of their own (home included). */
  const KnownViews: set<string> :=
    {"home", "login", "dashboard", "analytics", "ai-assistant", "quick-actions",
     "expense-entry", "csv-analyzer", "mistake-detector"}

  /** Distinct known views render distinct screens. */
  lemma RenderInjectiveOnKnown(v: string, w: string)
    requires v in KnownViews && w in KnownViews && v != w
    ensures Render(v) != Render(w)
  {
  }
}
