/**
 * The application shell (src/App.js): which screen is shown. It starts on the
 * login view behind a loading spinner, moves to the dashboard when a token is
 * stored, and switches views on login, logout and the two navigation buttons.
 */
module App {
  import opened Json
  import opened Session
  import Api

  const LoginView: string := "login"
  const DashboardView: string := "dashboard"
  const ScannerView: string := "scanner"

  datatype Screen = Spinner | LoginScreen | DashboardScreen | ScannerScreen

  /** Lines 45-103: the spinner while loading, otherwise the screen named by the
      view, with the login screen for any other name. */
  function Render(view: string, loading: bool): (r: Screen)
    ensures r == Spinner <==> loading
    ensures r == DashboardScreen <==> !loading && view == DashboardView
    ensures r == ScannerScreen <==> !loading && view == ScannerView
    ensures r == LoginScreen <==> !loading && view != DashboardView && view != ScannerView
  {
    if loading then Spinner
    else if view == LoginView then LoginScreen
    else if view == DashboardView then DashboardScreen
    else if view == ScannerView then ScannerScreen
    else LoginScreen
  }

  class AppShell {
    var currentView: string
    var loading: bool

    /** The view is always one of the three the shell knows. */
    predicate Valid()
      reads this
    {
      currentView == LoginView || currentView == DashboardView || currentView == ScannerView
    }

    function Shown(): Screen
      reads this
    {
      Render(currentView, loading)
    }

    /** Lines 10-11. */
    constructor ()
      ensures Valid() && currentView == LoginView && loading
      ensures Shown() == Spinner
    {
      currentView := LoginView;
      loading := true;
    }

    /** Lines 14-24: a stored token opens the dashboard; loading ends. */
    method CheckAuthentication(store: Store)
      requires Valid()
      modifies this
      ensures Valid() && !loading
      ensures Api.HasToken(store.token) ==> currentView == DashboardView
      ensures !Api.HasToken(store.token) ==> currentView == old(currentView)
    {
      if Api.HasToken(store.token) {
        currentView := DashboardView;
      }
      loading := false;
    }

    /** Lines 26-28. */
    method HandleLoginSuccess()
      modifies this
      ensures Valid() && currentView == DashboardView && loading == old(loading)
    {
      currentView := DashboardView;
    }

    /** Lines 30-34: the session is removed and the login view shown. */
    method HandleLogout(store: Store)
      modifies this, store
      ensures Valid() && currentView == LoginView && loading == old(loading)
      ensures store.token == None && store.usuario == None
    {
      store.Clear();
      currentView := LoginView;
    }

    /** Lines 36-38. */
    method HandleScannerClick()
      modifies this
      ensures Valid() && currentView == ScannerView && loading == old(loading)
    {
      currentView := ScannerView;
    }

    /** Lines 40-42. */
    method HandleDashboardClick()
      modifies this
      ensures Valid() && currentView == DashboardView && loading == old(loading)
    {
      currentView := DashboardView;
    }
  }

  /** On start-up the shell shows the dashboard exactly when a token is stored,
      and the login screen otherwise. */
  method StartUp(store: Store) returns (shown: Screen)
    ensures shown == DashboardScreen <==> Api.HasToken(store.token)
    ensures shown == LoginScreen <==> !Api.HasToken(store.token)
  {
    var app := new AppShell();
    app.CheckAuthentication(store);
    shown := app.Shown();
  }
}
