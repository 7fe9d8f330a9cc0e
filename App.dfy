/** The application shell: session restore from storage at start-up, the
    login and logout handlers, and the role gates on the dashboard, admin
    and wallet routes. */
module App {
  import opened Js
  import opened Outcomes
  import opened Browser
  import LoginPage

  /** The three routes whose element depends on the user's role. */
  datatype GatedPage = Dashboard | AdminDashboard | Wallet

  /** What a gated route shows: the loading text before the restore effect
      ran, the page with the props it receives, or "Access Denied". */
  datatype Screen = Loading | Show(page: GatedPage, token: Value, userId: Value) | AccessDenied

  /** The role a gated page asks for. */
  function RequiredRole(page: GatedPage): string {
    match page
    case AdminDashboard => "ADMIN"
    case Dashboard => "CUSTOMER"
    case Wallet => "CUSTOMER"
  }

  /** `user?.userRole === role`: strict equality against a string literal. */
  predicate HasRole(user: Value, role: string): (b: bool)
    ensures b <==> user.Obj? && Lookup(user.props, "userRole") == Str(role)
  {
    Get(user, "userRole") == Str(role)
  }

  /** The element a gated route renders once loading is over. */
  function Route(page: GatedPage, user: Value, token: Value): (s: Screen)
    ensures !s.Loading?
    ensures s.Show? <==> HasRole(user, RequiredRole(page))
    ensures s.Show? ==> s.page == page && s.token == token && s.userId == Get(user, "userId")
  {
    if HasRole(user, RequiredRole(page)) then Show(page, token, Get(user, "userId")) else AccessDenied
  }

  /** Without a user every gated page is denied. */
  lemma NoUserDenied(page: GatedPage, token: Value)
    ensures Route(page, Null, token) == AccessDenied
  {
  }

  /** No user is let into both the admin dashboard and a customer page. */
  lemma AdminAndCustomerExclusive(user: Value, token: Value, page: GatedPage)
    requires page != AdminDashboard
    ensures !(Route(AdminDashboard, user, token).Show? && Route(page, user, token).Show?)
  {
  }

  /** A user held as a string (not an object) passes no gate. */
  lemma StringUserDenied(page: GatedPage, s: string, token: Value)
    ensures Route(page, Str(s), token) == AccessDenied
  {
  }

  /** `localStorage.getItem("token") || sessionStorage.getItem("token")`. */
  function StoredToken(local: Area, session: Area): (v: Value)
    ensures Truthy(TokenItem(local)) ==> v == TokenItem(local)
    ensures !Truthy(TokenItem(local)) ==> v == TokenItem(session)
  {
    Or(TokenItem(local), TokenItem(session))
  }

  /** The same for "user". A stored user is `JSON.stringify` output, which is
      never the empty string, so an area's entry is truthy exactly when it
      is present; the result is the value `JSON.parse` gives back. */
  function StoredUser(local: Area, session: Area): (u: Option<Value>)
    ensures local.user.Some? ==> u == local.user
    ensures local.user.None? ==> u == session.user
  {
    if local.user.Some? then local.user else session.user
  }

  /** The start-up effect's decision: a session is restored only when both a
      truthy token and a user were found, each from whichever area had it. */
  function RestoredSession(local: Area, session: Area): (r: Option<(Value, Value)>)
    ensures r.Some? <==> Truthy(StoredToken(local, session)) && StoredUser(local, session).Some?
    ensures r.Some? ==> r.value == (StoredToken(local, session), StoredUser(local, session).value)
  {
    var token := StoredToken(local, session);
    var user := StoredUser(local, session);
    if Truthy(token) && user.Some? then Some((token, user.value)) else None
  }

  /** A non-empty token in localStorage wins over sessionStorage. */
  lemma LocalTokenTakesPrecedence(local: Area, session: Area, t: string)
    requires local.token == Some(t) && t != ""
    ensures StoredToken(local, session) == Str(t)
  {
  }

  /** A missing or empty localStorage token falls back to sessionStorage. */
  lemma SessionTokenFallback(local: Area, session: Area)
    requires local.token == None || local.token == Some("")
    ensures StoredToken(local, session) == TokenItem(session)
  {
  }

  /** What a remembered login writes is what the next start-up restores,
      whatever sessionStorage holds, as long as the token's string form is
      not empty. */
  lemma RememberedLoginRestores(token: Value, user: Value, session: Area)
    requires ToString(token) != ""
    ensures RestoredSession(LoginPage.RememberedArea(token, user), session)
         == Some((Str(ToString(token)), user))
  {
  }

  /** After both areas are cleared nothing is restored. */
  lemma ClearedStorageRestoresNothing()
    ensures RestoredSession(EmptyArea, EmptyArea) == None
  {
  }

  /** The application's session state. */
  class Component {
    var user: Value
    var token: Value
    var loading: bool

    /** `useState(null)`, `useState(null)`, `useState(true)`. */
    constructor ()
      ensures user == Null && token == Null && loading
    {
      user, token, loading := Null, Null, true;
    }

    /** The mount effect: restore the session if storage holds one, then end
      loading. Storage is only read. */
    method Restore(storage: Storage)
      modifies this
      ensures !loading
      ensures RestoredSession(storage.local, storage.session).Some? ==>
        (token, user) == RestoredSession(storage.local, storage.session).value
      ensures RestoredSession(storage.local, storage.session).None? ==>
        token == old(token) && user == old(user)
    {
      var r := RestoredSession(storage.local, storage.session);
      if r.Some? {
        token := r.value.0;
        user := r.value.1;
      }
      loading := false;
    }

    /** `handleLogin(receivedToken, receivedUser)`: the first argument
      becomes the token, the second the user. */
    method HandleLogin(receivedToken: Value, receivedUser: Value)
      modifies this
      ensures token == receivedToken && user == receivedUser && loading == old(loading)
    {
      token := receivedToken;
      user := receivedUser;
    }

    /** `handleLogout`: both storage areas are cleared and the session state
      emptied. */
    method HandleLogout(storage: Storage)
      modifies this, storage
      ensures storage.local == EmptyArea && storage.session == EmptyArea
      ensures user == Null && token == Null && loading == old(loading)
    {
      storage.local := EmptyArea;
      storage.session := EmptyArea;
      user := Null;
      token := Null;
    }

    /** What a gated route shows in the current state. */
    function Screen(page: GatedPage): (s: Screen)
      reads this
      ensures loading ==> s == Loading
      ensures !loading ==> s == Route(page, user, token)
    {
      if loading then Loading else Route(page, user, token)
    }
  }

  /** The login page calls `onLogin(user, token)` while the handler takes
      `(receivedToken, receivedUser)`: the application's user becomes the
      token, which is a string or absent, so the customer dashboard denies
      access right after a successful login, whatever the role. */
  lemma SwappedLoginDeniesDashboard(email: string, response: LoginPage.LoginResponse)
    requires !response.token.Obj?
    ensures var args := LoginPage.OnLoginArgumentsAsWritten(LoginPage.SessionUser(email, response), response.token);
      Route(Dashboard, args.1, args.0) == AccessDenied
  {
  }

  /** With the arguments in the handler's order, a CUSTOMER login opens the
      dashboard with the response's token and user id. */
  lemma LoginGrantsCustomerDashboard(email: string, response: LoginPage.LoginResponse)
    requires response.role == Str("CUSTOMER")
    ensures var args := LoginPage.OnLoginArguments(LoginPage.SessionUser(email, response), response.token);
      Route(Dashboard, args.1, args.0) == Show(Dashboard, response.token, response.userId)
  {
    LoginPage.SessionUserFields(email, response);
  }
}
