/**
 * The application shell: the current page, the admin flag read from the browser's
 * storage, hash routing, login and logout, and the guard in front of the dashboard.
 */
module App {
  import opened Wrappers

  datatype Page = HomePage | ContactPage | AdminPage | AdminLoginPage

  /** What `renderPage` puts on screen. */
  datatype View = HomeView | ContactView | LoginView | DashboardView

  /** The storage key of the admin flag. */
  const AdminKey := "adminLoggedIn"

  /** `localStorage.getItem('adminLoggedIn') === 'true'`. */
  predicate AdminStatus(stored: Option<string>) {
    stored == Some("true")
  }

  /** `window.location.hash.slice(1)`: the hash without its leading character. */
  function HashOf(locationHash: string): (h: string)
    ensures |locationHash| > 0 ==> [locationHash[0]] + h == locationHash
    ensures |locationHash| == 0 ==> h == ""
  {
    if |locationHash| == 0 then "" else locationHash[1..]
  }

  /**
   * `window.location.hash = h` for the hashes the shell writes ("admin", "admin/login",
   * "home"): the browser stores them behind a '#'. The browser's setter also drops a
   * leading '#' of its own and percent-encodes characters such as spaces; those cases
   * never arise here and are not part of this function.
   */
  function HashFor(h: string): string {
    "#" + h
  }

  /** Reading back a hash set through `HashFor` gives what was set (see its limits). */
  lemma HashRoundTrip(h: string)
    ensures HashOf(HashFor(h)) == h
  {
    assert HashFor(h)[1..] == h;
  }

  /** `handleHashChange`'s choice of page. */
  function Route(hash: string, loggedIn: bool): (p: Page)
    ensures p == ContactPage <==> hash == "contact"
    ensures p == AdminPage <==> (hash == "admin" || hash == "admin/login") && loggedIn
    ensures p == AdminLoginPage <==> (hash == "admin" || hash == "admin/login") && !loggedIn
    ensures p == HomePage <==> hash !in {"contact", "admin", "admin/login"}
  {
    if hash == "contact" then ContactPage
    else if hash == "admin" || hash == "admin/login" then
      (if loggedIn then AdminPage else AdminLoginPage)
    else HomePage
  }

  /** `renderPage` without its redirect: the view a page and the flag select. */
  function ViewFor(page: Page, isAdmin: bool): (v: View)
    ensures v == DashboardView <==> page == AdminPage && isAdmin
    ensures v == LoginView <==> page == AdminLoginPage || (page == AdminPage && !isAdmin)
    ensures v == ContactView <==> page == ContactPage
  {
    match page
    case AdminLoginPage => LoginView
    case AdminPage => if isAdmin then DashboardView else LoginView
    case ContactPage => ContactView
    case HomePage => HomeView
  }

  /** The footer is rendered everywhere except on the two admin pages. */
  predicate ShowsFooter(page: Page) {
    page != AdminPage && page != AdminLoginPage
  }

  /** The footer accompanies exactly the customer views, whatever the flag says. */
  lemma FooterOnlyWithCustomerViews(page: Page, isAdmin: bool)
    ensures ShowsFooter(page) <==> ViewFor(page, isAdmin) in {HomeView, ContactView}
    ensures ViewFor(page, isAdmin) == DashboardView ==> !ShowsFooter(page)
  {
  }

  class AppState {
    var currentPage: Page
    var isAdmin: bool
    /** The 'adminLoggedIn' entry of the browser's storage. */
    var storedFlag: Option<string>
    /** `window.location.hash`, with its '#'. */
    var locationHash: string

    /** The first render: home page, not admin; the mount effect has not run yet. */
    constructor (stored: Option<string>, hash: string)
      ensures currentPage == HomePage && !isAdmin
      ensures storedFlag == stored && locationHash == hash
    {
      currentPage := HomePage;
      isAdmin := false;
      storedFlag := stored;
      locationHash := hash;
    }

    /** `checkAdminStatus`: read the stored flag into `isAdmin` and return it. */
    method CheckAdminStatus() returns (loggedIn: bool)
      modifies this`isAdmin
      ensures loggedIn == isAdmin == AdminStatus(storedFlag)
    {
      loggedIn := storedFlag == Some("true");
      isAdmin := loggedIn;
    }

    /** `handleHashChange` (also run once on mount): re-read the flag, then route. */
    method HandleHashChange()
      modifies this`isAdmin, this`currentPage
      ensures isAdmin == AdminStatus(storedFlag)
      ensures currentPage == Route(HashOf(locationHash), isAdmin)
    {
      var hash := HashOf(locationHash);
      var loggedIn := CheckAdminStatus();
      if hash == "contact" {
        currentPage := ContactPage;
      } else if hash == "admin" || hash == "admin/login" {
        if loggedIn {
          currentPage := AdminPage;
        } else {
          currentPage := AdminLoginPage;
        }
      } else {
        currentPage := HomePage;
      }
    }

    /**
     * Another tab changed the storage. `key` is the changed key (`None` when that tab
     * cleared all of storage) and `newValue` the admin flag's value afterwards. Only a
     * change to the admin key makes this tab re-read the flag.
     */
    method HandleStorageChange(key: Option<string>, newValue: Option<string>)
      modifies this`storedFlag, this`isAdmin
      ensures key == Some(AdminKey) ==> storedFlag == newValue && isAdmin == AdminStatus(newValue)
      ensures key.None? ==> storedFlag == None && isAdmin == old(isAdmin)
      ensures key.Some? && key != Some(AdminKey) ==> storedFlag == old(storedFlag) && isAdmin == old(isAdmin)
    {
      if key == Some(AdminKey) {
        storedFlag := newValue;
        var _ := CheckAdminStatus();
      } else if key.None? {
        storedFlag := None;
      }
    }

    /**
     * `handleAdminLogin`: record the outcome; on success go to the dashboard. The login
     * page writes the admin flag to storage before it calls back; `storedAfter` is the
     * flag it left there, so a later re-read by `HandleHashChange` sees it.
     */
    method HandleAdminLogin(loggedIn: bool, storedAfter: Option<string>)
      modifies this`storedFlag, this`isAdmin, this`currentPage, this`locationHash
      ensures storedFlag == storedAfter
      ensures isAdmin == loggedIn
      ensures loggedIn ==> currentPage == AdminPage && locationHash == HashFor("admin")
      ensures !loggedIn ==> currentPage == old(currentPage) && locationHash == old(locationHash)
    {
      storedFlag := storedAfter;
      isAdmin := loggedIn;
      if loggedIn {
        currentPage := AdminPage;
        locationHash := HashFor("admin");
      }
    }

    /** `handleAdminLogout`: forget the stored flag and go home. */
    method HandleAdminLogout()
      modifies this`storedFlag, this`isAdmin, this`currentPage, this`locationHash
      ensures storedFlag == None && !isAdmin
      ensures currentPage == HomePage && locationHash == HashFor("home")
    {
      storedFlag := None;
      isAdmin := false;
      currentPage := HomePage;
      locationHash := HashFor("home");
    }

    /**
     * `renderPage`: the admin page without the flag redirects to the login page, so the
     * dashboard is only ever shown to an admin.
     */
    method RenderPage() returns (view: View)
      modifies this`currentPage, this`locationHash
      ensures view == ViewFor(old(currentPage), isAdmin)
      ensures view == DashboardView ==> isAdmin
      ensures old(currentPage) == AdminPage && !isAdmin ==>
        currentPage == AdminLoginPage && locationHash == HashFor("admin/login")
      ensures !(old(currentPage) == AdminPage && !isAdmin) ==>
        currentPage == old(currentPage) && locationHash == old(locationHash)
    {
      if currentPage == AdminLoginPage {
        view := LoginView;
      } else if currentPage == AdminPage {
        if !isAdmin {
          currentPage := AdminLoginPage;
          locationHash := HashFor("admin/login");
          view := LoginView;
        } else {
          view := DashboardView;
        }
      } else if currentPage == ContactPage {
        view := ContactView;
      } else {
        view := HomeView;
      }
    }
  }

  /**
   * The hashes the shell writes route back to the page it chose: "#admin" to the
   * dashboard when the stored flag says admin, "#admin/login" to the login page when it
   * does not, and "#home" home.
   */
  lemma WrittenHashesRouteBack(loggedIn: bool)
    ensures Route(HashOf(HashFor("admin")), true) == AdminPage
    ensures Route(HashOf(HashFor("admin/login")), false) == AdminLoginPage
    ensures Route(HashOf(HashFor("home")), loggedIn) == HomePage
  {
    HashRoundTrip("admin");
    HashRoundTrip("admin/login");
    HashRoundTrip("home");
  }

  /**
   * After another tab clears all of storage, this tab keeps its admin flag although the
   * stored flag is gone: the listener only reacts to the admin key.
   */
  method ClearElsewhereKeepsAdmin()
  {
    var app := new AppState(Some("true"), "#admin");
    app.HandleHashChange();
    assert app.isAdmin && app.currentPage == AdminPage by { HashRoundTrip("admin"); }
    app.HandleStorageChange(None, None);
    assert app.isAdmin && !AdminStatus(app.storedFlag);
    var view := app.RenderPage();
    assert view == DashboardView;
  }

  /** Logging out in another tab takes this tab's admin flag away and the dashboard with it. */
  method LogoutElsewhere()
  {
    var app := new AppState(Some("true"), "#admin");
    app.HandleHashChange();
    assert app.currentPage == AdminPage by { HashRoundTrip("admin"); }
    app.HandleStorageChange(Some(AdminKey), None);
    var view := app.RenderPage();
    assert view == LoginView && app.currentPage == AdminLoginPage;
    assert !ShowsFooter(app.currentPage);
  }

  /**
   * An admin who logs in from the login page and then triggers a hash change stays on
   * the dashboard, because the login page left the flag `'true'` in storage.
   */
  method LoginThenHashChange()
  {
    var app := new AppState(None, "#admin/login");
    app.HandleHashChange();
    assert app.currentPage == AdminLoginPage by { HashRoundTrip("admin/login"); }
    app.HandleAdminLogin(true, Some("true"));
    app.HandleHashChange();
    assert app.isAdmin && app.currentPage == AdminPage by { HashRoundTrip("admin"); }
    var view := app.RenderPage();
    assert view == DashboardView;
  }
}
