/**
 * The Next.js middleware that gates every route: login and API paths pass, any
 * other path needs a non-empty access-token cookie or is redirected to `/login`.
 * The `config.matcher` pattern that decides which requests reach it is left out.
 */
module RouteGate {
  import opened Wrappers
  import opened Strings

  /** The parts of `request.nextUrl` a clone carries over. */
  datatype Url = Url(protocol: string, host: string, pathname: string, search: string, hash: string)

  datatype Request = Request(url: Url, cookies: map<string, string>)

  /** `NextResponse.next()` or `NextResponse.redirect(url)`. */
  datatype Decision = Next | Redirect(location: Url)

  function Cookie(req: Request, name: string): Option<string> {
    if name in req.cookies then Some(req.cookies[name]) else None
  }

  /** Paths that pass whatever the cookies say: a prefix test, so `/login-x` and `/apiary` pass too. */
  predicate IsPublic(pathname: string) {
    "/login" <= pathname || "/api" <= pathname
  }

  /** `middleware(request)`. */
  function Middleware(req: Request): (d: Decision)
    ensures d.Next? <==> IsPublic(req.url.pathname) || Truthy(Cookie(req, "accessToken"))
    ensures d.Redirect? ==> d.location == req.url.(pathname := "/login")
  {
    var accessToken := Cookie(req, "accessToken");
    var refreshToken := Cookie(req, "refreshToken");
    if IsPublic(req.url.pathname) then Next
    else if !Truthy(accessToken) then Redirect(req.url.(pathname := "/login"))
    else Next
  }

  /** The refresh-token cookie never changes the decision. */
  lemma RefreshCookieIrrelevant(req: Request, value: Option<string>)
    ensures var cookies := if value.Some? then req.cookies["refreshToken" := value.value] else req.cookies - {"refreshToken"};
      Middleware(req.(cookies := cookies)) == Middleware(req)
  {
    var cookies := if value.Some? then req.cookies["refreshToken" := value.value] else req.cookies - {"refreshToken"};
    assert Cookie(req.(cookies := cookies), "accessToken") == Cookie(req, "accessToken");
  }

  /** No redirect loop: the redirect target is itself let through, with any cookies. */
  lemma RedirectTargetPasses(req: Request, cookies: map<string, string>)
    requires Middleware(req).Redirect?
    ensures Middleware(Request(Middleware(req).location, cookies)) == Next
  {
  }

  /** A protected path with the cookie missing or empty is redirected, whatever else the request holds. */
  lemma ProtectedNeedsToken(req: Request)
    requires !IsPublic(req.url.pathname)
    ensures Middleware(req).Next? <==> "accessToken" in req.cookies && req.cookies["accessToken"] != ""
  {
  }
}
