/** The client's authentication context: five state variables kept in step
    with the session store by `checkAuth`, `login` and `logout`, and the
    role-to-dashboard routing of `navigateToProfile`. */
module AuthContext {
  import opened Wrappers
  import opened SessionManager

  datatype AuthState = AuthState(
    isAuthenticated: bool, userRole: Option<string>, userId: Option<string>,
    userName: Option<string>, isLoading: bool)

  /** The state before the first `checkAuth`. */
  const Initial: AuthState := AuthState(false, None, None, None, true)

  const Home: string := "/"
  const LoginRoute: string := "/login"
  const CompanyDashboard: string := "/company-dashboard"
  const FreelanceDashboard: string := "/freelance-dashboard"

  /** What `checkAuth` loads from the store. */
  function ReloadedState(items: map<string, string>): AuthState {
    AuthState(HasActiveSession(items), Lookup(items, RoleKey), Lookup(items, IdKey), Lookup(items, NameKey), false)
  }

  function LoggedIn(s: AuthState, d: SessionData): AuthState {
    s.(isAuthenticated := true, userRole := Some(d.userRole), userId := Some(d.userId), userName := Some(d.userName))
  }

  function LoggedOut(s: AuthState): AuthState {
    s.(isAuthenticated := false, userRole := None, userId := None, userName := None)
  }

  /** The dashboard for a role, and the login page for anyone unauthenticated
      or with another role. */
  function ProfileRoute(isAuthenticated: bool, role: Option<string>): (r: string)
    ensures r == CompanyDashboard <==> isAuthenticated && role == Some("Empresa")
    ensures r == FreelanceDashboard <==> isAuthenticated && role == Some("FreeLancer")
    ensures r != CompanyDashboard && r != FreelanceDashboard ==> r == LoginRoute
  {
    if !isAuthenticated then LoginRoute
    else if role == Some("Empresa") then CompanyDashboard
    else if role == Some("FreeLancer") then FreelanceDashboard
    else LoginRoute
  }

  class AuthProvider {
    const ls: Storage
    var isAuthenticated: bool
    var userRole: Option<string>
    var userId: Option<string>
    var userName: Option<string>
    var isLoading: bool
    /** The route of the last `navigate` call, if any. */
    var navigation: Option<string>

    function State(): AuthState
      reads this
    {
      AuthState(isAuthenticated, userRole, userId, userName, isLoading)
    }

    constructor (ls: Storage)
      ensures this.ls == ls && State() == Initial && navigation.None?
    {
      this.ls := ls;
      isAuthenticated, userRole, userId, userName, isLoading := false, None, None, None, true;
      navigation := None;
    }

    method CheckAuth()
      modifies this
      ensures State() == ReloadedState(ls.items) && navigation == old(navigation)
    {
      var role := ls.GetItem(RoleKey);
      var id := ls.GetItem(IdKey);
      var name := ls.GetItem(NameKey);
      isAuthenticated := HasActiveSession(ls.items);
      userRole := role;
      userId := id;
      userName := name;
      isLoading := false;
    }

    method Login(d: SessionData, now: int)
      modifies this, ls
      ensures ls.items == WithSession(old(ls.items), d, now)
      ensures State() == LoggedIn(old(State()), d) && navigation == old(navigation)
    {
      SetSessionData(ls, d, now);
      isAuthenticated := true;
      userRole := Some(d.userRole);
      userId := Some(d.userId);
      userName := Some(d.userName);
    }

    /** Clears the store and the state; goes home iff `redirect` (default true). */
    method Logout(redirect: bool)
      modifies this, ls
      ensures ls.items == Cleared(old(ls.items))
      ensures State() == LoggedOut(old(State()))
      ensures navigation == (if redirect then Some(Home) else old(navigation))
    {
      ClearSession(ls);
      isAuthenticated := false;
      userRole := None;
      userId := None;
      userName := None;
      if redirect {
        navigation := Some(Home);
      }
    }

    method NavigateToProfile()
      modifies this
      ensures navigation == Some(ProfileRoute(isAuthenticated, userRole)) && State() == old(State())
    {
      if !isAuthenticated {
        navigation := Some(LoginRoute);
        return;
      }
      if userRole == Some("Empresa") {
        navigation := Some(CompanyDashboard);
      } else if userRole == Some("FreeLancer") {
        navigation := Some(FreelanceDashboard);
      } else {
        navigation := Some(LoginRoute);
      }
    }
  }

  /** A reload after `login` restores exactly the state `login` set iff the
      token was non-empty; with an empty token the reloaded user is signed out. */
  lemma ReloadAfterLogin(s: AuthState, items: map<string, string>, d: SessionData, now: int)
    ensures ReloadedState(WithSession(items, d, now)) == LoggedIn(s, d).(isLoading := false) <==> d.token != ""
  {
    SessionDataReadsBack(items, d, now);
  }

  /** A reload after `logout` restores exactly the signed-out state. */
  lemma ReloadAfterLogout(s: AuthState, items: map<string, string>)
    ensures ReloadedState(Cleared(items)) == LoggedOut(s).(isLoading := false)
    ensures ProfileRoute(LoggedOut(s).isAuthenticated, LoggedOut(s).userRole) == LoginRoute
  {
    ClearedHasNoSession(items);
  }
}
