/**
 * The page router of the landing-page front end: which page is current, the session
 * restored from storage, login and logout, and what each page renders.
 */
module Router {
  import opened Wrappers
  import opened Js
  import opened Storage

  datatype Page = Landing | Login | Admin | UserDashboardPage

  /** What is rendered. */
  datatype Screen = LandingScreen | LoginScreen | AdminScreen | DashboardScreen

  /** The answer of a successful login as the login page hands it over. */
  datatype LoginData = LoginData(token: JsValue, isAdmin: JsValue, username: JsValue)

  /** A stored string as a JavaScript value: `getItem` gives `null` for a missing key. */
  function StoredValue(v: Option<string>): JsValue {
    if v.Some? then Str(v.value) else Null
  }

  class PageRouter {
    var currentPage: Page
    var isLoggedIn: bool
    var token: JsValue
    var isAdmin: JsValue
    var currentUsername: JsValue

    constructor ()
      ensures currentPage == Landing && !isLoggedIn && token == Null && isAdmin == Bool(false)
      ensures currentUsername == Str("")
    {
      currentPage := Landing;
      isLoggedIn := false;
      token := Null;
      isAdmin := Bool(false);
      currentUsername := Str("");
    }

    /** The mount effect: a stored token restores the session and opens the admin page
        exactly when the stored flag is the string `true`. */
    method Restore(ls: LocalStorage)
      modifies this
      ensures GetToken(ls).None? || GetToken(ls) == Some("") ==>
                currentPage == old(currentPage) && isLoggedIn == old(isLoggedIn) && token == old(token)
                && isAdmin == old(isAdmin) && currentUsername == old(currentUsername)
      ensures GetToken(ls).Some? && GetToken(ls) != Some("") ==>
                isLoggedIn && token == Str(GetToken(ls).value) && isAdmin == Bool(GetIsAdmin(ls))
                && currentUsername == StoredValue(GetUsername(ls))
                && currentPage == (if GetIsAdmin(ls) then Admin else UserDashboardPage)
    {
      var savedToken := ls.GetItem(AuthTokenKey);
      var savedIsAdmin := ls.GetItem(IsAdminKey) == Some("true");
      var savedUsername := ls.GetItem(UsernameKey);
      if savedToken.Some? && savedToken.value != "" {
        token := Str(savedToken.value);
        isLoggedIn := true;
        isAdmin := Bool(savedIsAdmin);
        currentUsername := StoredValue(savedUsername);
        currentPage := if savedIsAdmin then Admin else UserDashboardPage;
      }
    }

    /** `handleLoginSuccess`: the three keys are stored and the admin page opens iff the
        answer's `is_admin` is truthy. */
    method HandleLoginSuccess(ls: LocalStorage, data: LoginData)
      modifies this, ls
      ensures isLoggedIn && token == data.token && isAdmin == data.isAdmin && currentUsername == data.username
      ensures ls.items == old(ls.items)[AuthTokenKey := ToJsString(data.token)][IsAdminKey := ToJsString(data.isAdmin)]
                                       [UsernameKey := ToJsString(data.username)]
      ensures currentPage == (if Truthy(data.isAdmin) then Admin else UserDashboardPage)
    {
      token := data.token;
      isLoggedIn := true;
      isAdmin := data.isAdmin;
      currentUsername := data.username;
      ls.SetItem(AuthTokenKey, data.token);
      ls.SetItem(IsAdminKey, data.isAdmin);
      ls.SetItem(UsernameKey, data.username);
      currentPage := if Truthy(data.isAdmin) then Admin else UserDashboardPage;
    }

    /** `handleLogout`: the keys go, the state is cleared and the landing page returns. */
    method HandleLogout(ls: LocalStorage)
      modifies this, ls
      ensures ls.items == old(ls.items) - {AuthTokenKey, IsAdminKey, UsernameKey}
      ensures GetSession(ls) == Session(None, false, None)
      ensures !isLoggedIn && token == Null && isAdmin == Bool(false) && currentUsername == Str("")
      ensures currentPage == Landing
    {
      ls.RemoveItem(AuthTokenKey);
      ls.RemoveItem(IsAdminKey);
      ls.RemoveItem(UsernameKey);
      isLoggedIn := false;
      token := Null;
      isAdmin := Bool(false);
      currentUsername := Str("");
      currentPage := Landing;
    }

    method NavigateToLogin()
      modifies this
      ensures currentPage == Login
      ensures isLoggedIn == old(isLoggedIn) && token == old(token) && isAdmin == old(isAdmin)
      ensures currentUsername == old(currentUsername)
    {
      currentPage := Login;
    }

    method NavigateToLanding()
      modifies this
      ensures currentPage == Landing
      ensures isLoggedIn == old(isLoggedIn) && token == old(token) && isAdmin == old(isAdmin)
      ensures currentUsername == old(currentUsername)
    {
      currentPage := Landing;
    }

    /** What is rendered: the admin dashboard needs the admin page and a truthy flag; any
        page without a screen of its own falls back to the landing page. */
    function Render(): (s: Screen)
      reads this
      ensures s == AdminScreen <==> currentPage == Admin && Truthy(isAdmin)
      ensures s == DashboardScreen <==> currentPage == UserDashboardPage
      ensures s == LoginScreen <==> currentPage == Login
      ensures currentPage == Admin && !Truthy(isAdmin) ==> s == LandingScreen
    {
      if currentPage == Landing then LandingScreen
      else if currentPage == Login then LoginScreen
      else if currentPage == Admin && Truthy(isAdmin) then AdminScreen
      else if currentPage == UserDashboardPage then DashboardScreen
      else LandingScreen
    }
  }

  /** A login answer without `is_admin` opens the user dashboard, and the flag it stores,
      the string `undefined`, reads back as not admin. */
  lemma MissingAdminFlag(data: LoginData, items: map<string, string>)
    requires data.isAdmin == Undefined
    ensures !Truthy(data.isAdmin)
    ensures items[IsAdminKey := ToJsString(data.isAdmin)][IsAdminKey] != "true"
  {
  }
}
