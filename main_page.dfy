/** The application shell of app/page.tsx: the view, authentication, stored analysis and
    dashboard tab it keeps, the derived metrics it memoises and the page it renders. */
module MainPage {
  import opened Wrappers
  import opened Routing
  import opened CsvAnalyzer
  import opened TaxDerived

  /** `renderPage` as written: the router has no case for "mistake-detector", so that view
      falls back to the home page like any unknown name. */
  function RenderPageAsWritten(view: string): (s: Screen)
    ensures view == "mistake-detector" ==> s == HomeScreen
    ensures view != "mistake-detector" ==> s == Render(view)
  {
    if view == "login" then LoginScreen
    else if view == "dashboard" then DashboardScreen
    else if view == "analytics" then AnalyticsScreen
    else if view == "ai-assistant" then AssistantScreen
    else if view == "quick-actions" then QuickActionsScreen
    else if view == "expense-entry" then ExpenseEntryScreen
    else if view == "csv-analyzer" then CsvAnalyzerScreen
    else HomeScreen
  }

  /** The views the page's own buttons navigate to, without passing the guard. */
  const ButtonTargets: set<string> :=
    {"expense-entry", "ai-assistant", "mistake-detector", "analytics", "csv-analyzer", "quick-actions"}

  /** The router as written disagrees with the complete table on "mistake-detector" only,
      although two of the page's own buttons lead there. */
  lemma MistakeDetectorRoutingGap(view: string)
    ensures RenderPageAsWritten(view) != Render(view) <==> view == "mistake-detector"
    ensures "mistake-detector" in ButtonTargets && RenderPageAsWritten("mistake-detector") == HomeScreen
  {
  }

  /** With the complete table every button target opens a screen of its own. */
  lemma ButtonTargetsRendered(view: string)
    requires view in ButtonTargets
    ensures Render(view) != HomeScreen
  {
  }

  /** The ids of the dashboard's tab bar. */
  const DashboardTabs: set<string> :=
    {"overview", "csv-analyzer", "analytics", "ai-assistant", "mistake-detector", "expense-entry", "quick-actions"}

  class App {
    var currentView: string
    var isAuthenticated: bool
    var csvAnalysisResults: Option<Results>
    var dashboardTab: string

    constructor ()
      ensures currentView == "home" && !isAuthenticated
      ensures csvAnalysisResults == None && dashboardTab == "csv-analyzer"
    {
      currentView := "home";
      isAuthenticated := false;
      csvAnalysisResults := None;
      dashboardTab := "csv-analyzer";
    }

    /** The `taxDerived` memo over the stored results. */
    function Derived(): (d: Option<Derived>)
      reads this
      ensures d.None? <==> csvAnalysisResults.None?
    {
      DeriveStored(csvAnalysisResults)
    }

    /** The recommendation list of the overview card, shown only with results on the overview tab. */
    function Recommendations(): (tips: Option<seq<string>>)
      reads this
      ensures tips.Some? <==> csvAnalysisResults.Some? && dashboardTab == "overview"
      ensures tips.Some? ==> tips.value == Recommend(csvAnalysisResults.value.analysis,
                                                     Some(Derive(csvAnalysisResults.value.analysis)))
    {
      if csvAnalysisResults.Some? && dashboardTab == "overview" then
        Some(Recommend(csvAnalysisResults.value.analysis, Derived()))
      else None
    }

    /** Whether the dashboard's tab bar is on screen: the dashboard page is open and
        results are stored. */
    function TabBarShown(): (shown: bool)
      reads this
      ensures shown ==> Screen() == DashboardScreen
      ensures shown <==> currentView == "dashboard" && csvAnalysisResults.Some?
    {
      currentView == "dashboard" && csvAnalysisResults.Some?
    }

    /** The verdict badge of the overview card. */
    function Verdict(): (badge: string)
      reads this
      ensures csvAnalysisResults.None? ==> badge == "N/A"
      ensures csvAnalysisResults.Some? ==> badge == Derive(csvAnalysisResults.value.analysis).assessment.verdict
    {
      VerdictLabel(Derived())
    }

    /** The screen `renderPage` as written shows for the current view: the home page for
        "mistake-detector", as for any view it does not list. */
    function Screen(): (s: Screen)
      reads this
      ensures s == RenderPageAsWritten(currentView)
      ensures currentView == "mistake-detector" ==> s == HomeScreen
      ensures currentView != "mistake-detector" ==> s == Render(currentView)
    {
      RenderPageAsWritten(currentView)
    }

    /** `guardedSetCurrentView`. */
    method GuardedSetCurrentView(view: string)
      modifies this
      ensures currentView == GuardedView(isAuthenticated, view)
      ensures !isAuthenticated ==> IsPublic(currentView)
      ensures isAuthenticated == old(isAuthenticated) && csvAnalysisResults == old(csvAnalysisResults)
      ensures dashboardTab == old(dashboardTab)
    {
      if !isAuthenticated && view != "home" && view != "login" {
        currentView := "login";
        return;
      }
      currentView := view;
    }

    /** `handleCSVAnalysisComplete`: the results are stored and the dashboard opens on its overview tab. */
    method HandleCSVAnalysisComplete(results: Results)
      modifies this
      ensures csvAnalysisResults == Some(results) && currentView == "dashboard" && dashboardTab == "overview"
      ensures isAuthenticated == old(isAuthenticated)
      ensures Derived() == Some(Derive(results.analysis))
    {
      csvAnalysisResults := Some(results);
      currentView := "dashboard";
      dashboardTab := "overview";
    }

    /** `setCurrentView(view)` called directly, as the home page's feature cards, the
        dashboard's shortcuts and the analyser's navigation do: no guard is applied. */
    method Navigate(view: string)
      modifies this
      ensures currentView == view
      ensures isAuthenticated == old(isAuthenticated) && csvAnalysisResults == old(csvAnalysisResults)
      ensures dashboardTab == old(dashboardTab)
    {
      currentView := view;
    }

    /** A button of the dashboard's tab bar. The bar is part of the dashboard page and is
        rendered only once results are stored, and only the seven tab ids can be chosen;
        otherwise nothing changes. */
    method SelectDashboardTab(tab: string)
      modifies this
      ensures old(TabBarShown()) && tab in DashboardTabs ==> dashboardTab == tab
      ensures !(old(TabBarShown()) && tab in DashboardTabs) ==> dashboardTab == old(dashboardTab)
      ensures currentView == old(currentView) && isAuthenticated == old(isAuthenticated)
      ensures csvAnalysisResults == old(csvAnalysisResults)
    {
      if TabBarShown() && tab in DashboardTabs {
        dashboardTab := tab;
      }
    }

    /** The login page's `onSuccess` callback. */
    method LoginSuccess()
      modifies this
      ensures isAuthenticated && currentView == "dashboard"
      ensures csvAnalysisResults == old(csvAnalysisResults) && dashboardTab == old(dashboardTab)
    {
      isAuthenticated := true;
      currentView := "dashboard";
    }
  }

  /** A visitor who has not signed in opens a private view straight from the home page:
      the feature cards call `setCurrentView` without the guard. */
  method VisitorOpensPrivateView() returns (app: App)
    ensures !app.isAuthenticated && app.currentView == "expense-entry" && !IsPublic(app.currentView)
  {
    app := new App();
    app.Navigate("expense-entry");
  }
}
