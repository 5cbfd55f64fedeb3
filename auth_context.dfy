/**
 * The client session store (the React auth provider): the signed-in user, the
 * access token, the loading flag, the browser's cookie jar and the app router.
 * React state setters become field assignments; `router.push` records the target.
 */
module AuthContext {
  import opened Wrappers
  import opened Strings
  import opened Identity

  const MockUserId: string := "mock-user-id"
  const MockUserName: string := "Usuario Simulad"
  const AccessCookie: string := "accessToken"
  const RefreshCookie: string := "refreshToken"

  /** The simulated access token `login` mints at a reading of `Date.now()`. */
  function MockAccessToken(now: nat): (t: string)
    ensures t != "" && "mock-access-token-mock-user-id-" <= t
    ensures ' ' !in t
  {
    var d := NatToDecimal(now);
    assert forall i :: 0 <= i < |d| ==> d[i] != ' ' by {
      forall i | 0 <= i < |d| ensures d[i] != ' ' { assert IsDigit(d[i]); }
    }
    "mock-access-token-" + MockUserId + "-" + d
  }

  /** `Cookies.get(name)`: the value of a cookie, if the jar holds it. */
  function CookieValue(cookies: map<string, string>, name: string): Option<string> {
    if name in cookies then Some(cookies[name]) else None
  }

  /** The app router; only the last navigation target is kept. */
  class Router {
    var target: Option<string>

    constructor ()
      ensures target == None
    {
      target := None;
    }

    method Push(path: string)
      modifies this
      ensures target == Some(path)
    {
      target := Some(path);
    }
  }

  /** A reading of the provider's state. */
  datatype Session = Session(user: Option<User>, accessToken: Option<string>, loading: bool, cookies: map<string, string>)

  /** The session with the user's `createdAt`, a clock reading, blanked out. */
  function Forget(s: Session): Session {
    s.(user := if s.user.Some? then Some(s.user.value.(createdAt := "")) else None)
  }

  class AuthProvider {
    var user: Option<User>
    var accessToken: Option<string>
    var loading: bool
    var cookies: map<string, string>
    const router: Router

    /** The provider mounts with no user, no token and `loading` set. */
    constructor (router: Router, cookies: map<string, string>)
      ensures this.router == router && this.cookies == cookies
      ensures user == None && accessToken == None && loading
    {
      this.router := router;
      this.cookies := cookies;
      user := None;
      accessToken := None;
      loading := true;
    }

    function State(): Session
      reads this
    {
      Session(user, accessToken, loading, cookies)
    }

    /** `isAuthenticated = !!accessToken`. */
    predicate IsAuthenticated()
      reads this
      ensures IsAuthenticated() <==> accessToken.Some? && |accessToken.value| > 0
    {
      Truthy(accessToken)
    }

    /**
     * `login`. An empty email or password returns before anything changes. Otherwise
     * `loading` is set and a simulated user and token are stored without asking any
     * server; the password is not looked at. `createdAt` is the reading of
     * `new Date().toISOString()`, `None` when that throws, which is what the catch
     * branch handles: it only clears `loading` again.
     */
    method Login(email: string, password: string, createdAt: Option<string>, now: nat)
      modifies this, router
      ensures cookies == old(cookies)
      ensures email == "" || password == "" ==>
        user == old(user) && accessToken == old(accessToken) && loading == old(loading)
        && router.target == old(router.target)
      ensures email != "" && password != "" && createdAt.Some? ==>
        user == Some(User(MockUserId, email, MockUserName, createdAt.value))
        && accessToken == Some(MockAccessToken(now))
        && loading
        && router.target == Some("/dashboard")
      ensures email != "" && password != "" && createdAt.None? ==>
        user == old(user) && accessToken == old(accessToken) && !loading
        && router.target == old(router.target)
    {
      if email == "" || password == "" {
        return;
      }
      loading := true;
      if createdAt.None? {
        loading := false;
        return;
      }
      var mockUser := User(MockUserId, email, MockUserName, createdAt.value);
      var mockAccessToken := MockAccessToken(now);
      user := Some(mockUser);
      accessToken := Some(mockAccessToken);
      router.Push("/dashboard");
    }

    /** `logout`: whatever the state, the session and both cookies are gone and the app goes to `/login`. */
    method Logout()
      modifies this, router
      ensures user == None && accessToken == None && !IsAuthenticated()
      ensures cookies == old(cookies) - {AccessCookie, RefreshCookie}
      ensures AccessCookie !in cookies && RefreshCookie !in cookies
      ensures loading == old(loading)
      ensures router.target == Some("/login")
    {
      user := None;
      accessToken := None;
      cookies := cookies - {AccessCookie};
      cookies := cookies - {RefreshCookie};
      router.Push("/login");
    }

    /**
     * `loadInitialState`: with both cookies set (and non-empty) the session takes the
     * stored access token and the fixed simulated user; otherwise user and token stay
     * as they were. Either way `loading` ends false and no cookie is written.
     */
    method LoadInitialState(createdAt: string)
      modifies this
      ensures cookies == old(cookies) && !loading
      ensures Truthy(CookieValue(cookies, AccessCookie)) && Truthy(CookieValue(cookies, RefreshCookie)) ==>
        accessToken == Some(cookies[AccessCookie])
        && user == Some(User(MockUserId, "test@example.com", MockUserName, createdAt))
      ensures !(Truthy(CookieValue(cookies, AccessCookie)) && Truthy(CookieValue(cookies, RefreshCookie))) ==>
        accessToken == old(accessToken) && user == old(user)
    {
      var storedAccessToken := CookieValue(cookies, AccessCookie);
      var storedRefreshToken := CookieValue(cookies, RefreshCookie);
      if Truthy(storedAccessToken) && Truthy(storedRefreshToken) {
        accessToken := storedAccessToken;
        user := Some(User(MockUserId, "test@example.com", MockUserName, createdAt));
      }
      loading := false;
    }
  }

  /** A successful login leaves the session authenticated with a non-empty token. */
  method LoginAuthenticates(p: AuthProvider, email: string, password: string, createdAt: string, now: nat)
    requires email != "" && password != ""
    modifies p, p.router
    ensures p.IsAuthenticated() && p.accessToken.value != ""
    ensures p.user.Some? && p.user.value.email == email
  {
    p.Login(email, password, Some(createdAt), now);
  }

  /**
   * Loading twice with the cookie jar unchanged gives the state of the first load
   * (`once`), apart from the `createdAt` of the simulated user.
   */
  method LoadTwice(p: AuthProvider, first: string, second: string) returns (once: Session)
    modifies p
    ensures once.loading == false && once.cookies == old(p.cookies)
    ensures Forget(p.State()) == Forget(once)
  {
    p.LoadInitialState(first);
    once := p.State();
    p.LoadInitialState(second);
  }
}
