/** The lighter application shell of app/page-new.tsx. It shares the derived metrics and the
    guard with app/page.tsx but keeps no dashboard tab, and its router has a
    "mistake-detector" case. */
module NewPage {
  import opened Wrappers
  import opened Routing
  import opened CsvAnalyzer
  import opened TaxDerived

  class App {
    var currentView: string
    var isAuthenticated: bool
    var csvAnalysisResults: Option<Results>

    constructor ()
      ensures currentView == "home" && !isAuthenticated && csvAnalysisResults == None
    {
      currentView := "home";
      isAuthenticated := false;
      csvAnalysisResults := None;
    }

    /** The `taxDerived` memo; the formulas are those of app/page.tsx. */
    function Derived(): (d: Option<Derived>)
      reads this
      ensures d.None? <==> csvAnalysisResults.None?
      ensures d.Some? ==> d.value == Derive(csvAnalysisResults.value.analysis)
    {
      DeriveStored(csvAnalysisResults)
    }

    /** The screen `renderPage` shows for the current view. */
    function Screen(): (s: Screen)
      reads this
      ensures currentView == "mistake-detector" ==> s == MistakeDetectorScreen
      ensures currentView !in KnownViews ==> s == HomeScreen
    {
      Render(currentView)
    }

    /** `guardedSetCurrentView`. */
    method GuardedSetCurrentView(view: string)
      modifies this
      ensures currentView == GuardedView(isAuthenticated, view)
      ensures !isAuthenticated ==> IsPublic(currentView)
      ensures isAuthenticated == old(isAuthenticated) && csvAnalysisResults == old(csvAnalysisResults)
    {
      if !isAuthenticated && view != "home" && view != "login" {
        currentView := "login";
        return;
      }
      currentView := view;
    }

    /** `handleCSVAnalysisComplete`: the results are stored and the dashboard opens. */
    method HandleCSVAnalysisComplete(results: Results)
      modifies this
      ensures csvAnalysisResults == Some(results) && currentView == "dashboard"
      ensures isAuthenticated == old(isAuthenticated)
    {
      csvAnalysisResults := Some(results);
      currentView := "dashboard";
    }

    /** The login page's `onSuccess` callback. */
    method LoginSuccess()
      modifies this
      ensures isAuthenticated && currentView == "dashboard"
      ensures csvAnalysisResults == old(csvAnalysisResults)
    {
      isAuthenticated := true;
      currentView := "dashboard";
    }

    /** After a login the guard lets every requested view through. */
    method LoginThenNavigate(view: string)
      modifies this
      ensures isAuthenticated && currentView == view
      ensures csvAnalysisResults == old(csvAnalysisResults)
    {
      LoginSuccess();
      GuardedSetCurrentView(view);
    }
  }
}
