/**
 * The Next.js middleware that keeps unauthenticated visitors away from the
 * private pages: a request for one of the protected paths that carries no
 * `token` cookie is redirected to a copy of its URL whose pathname is
 * `/login`; every other request continues.
 */
module RouteGuard {

  /** The components of a request URL (Next.js `NextURL`) that survive a clone. */
  datatype Url = Url(
    protocol: string,
    host: string,
    port: string,
    basePath: string,
    locale: string,
    pathname: string,
    search: string,
    hash: string)

  /** An incoming request: its URL and its cookies, by name. */
  datatype Request = Request(nextUrl: Url, cookies: map<string, string>)

  /** `NextResponse.next()` or `NextResponse.redirect(url)`. */
  datatype Decision = Continue | Redirect(url: Url)

  /** The private pages, in the order the middleware lists them. */
  const ProtectedRoutes: seq<string> := ["/", "/addproduct", "/product"]

  /** The paths on which the framework runs the middleware at all (`config.matcher`). */
  const Matcher: seq<string> := ["/", "/addproduct", "/product"]

  const LoginPath: string := "/login"

  const TokenCookie: string := "token"

  /**
   * `req.cookies.get('token')` yields a cookie object whenever a cookie of
   * that name was sent, and an object is truthy whatever its value, so only
   * presence matters.
   */
  predicate HasToken(req: Request)
  {
    TokenCookie in req.cookies
  }

  /** The middleware's decision for one request. */
  function Middleware(req: Request): Decision
  {
    var url := req.nextUrl;
    if url.pathname in ProtectedRoutes && !HasToken(req) then
      Redirect(url.(pathname := LoginPath))
    else
      Continue
  }

  /** What the framework does with a request: run the middleware only on matched paths. */
  function Dispatch(req: Request): Decision
  {
    if req.nextUrl.pathname in Matcher then Middleware(req) else Continue
  }

  /** The middleware redirects exactly the protected requests that carry no token. */
  lemma RedirectsIffProtectedWithoutToken(req: Request)
    ensures Middleware(req).Redirect? <==> req.nextUrl.pathname in ProtectedRoutes && !HasToken(req)
    ensures Middleware(req).Continue? <==> req.nextUrl.pathname !in ProtectedRoutes || HasToken(req)
  {
  }

  /** A protected path without a token is sent to `/login`. */
  lemma ProtectedWithoutTokenGoesToLogin(req: Request)
    requires req.nextUrl.pathname in {"/", "/addproduct", "/product"}
    requires TokenCookie !in req.cookies
    ensures Middleware(req).Redirect? && Middleware(req).url.pathname == "/login"
  {
  }

  /** A protected path with a token continues. */
  lemma ProtectedWithTokenContinues(req: Request)
    requires req.nextUrl.pathname in {"/", "/addproduct", "/product"}
    requires TokenCookie in req.cookies
    ensures Middleware(req) == Continue
  {
  }

  /** A path outside the protected list continues, with or without a token. */
  lemma UnprotectedContinues(req: Request)
    requires req.nextUrl.pathname !in {"/", "/addproduct", "/product"}
    ensures Middleware(req) == Continue
  {
  }

  /**
   * Matching is exact string membership: sub-paths, trailing slashes and
   * other capitalisations are not protected.
   */
  lemma MatchingIsExact(req: Request)
    requires req.nextUrl.pathname in {"/product/123", "/addproduct/", "/Product", "", "/login", "/register"}
    ensures Middleware(req) == Continue
  {
  }

  /** The token's value, and every other cookie, never affects the decision. */
  lemma OnlyTokenPresenceMatters(req1: Request, req2: Request)
    requires req1.nextUrl == req2.nextUrl
    requires TokenCookie in req1.cookies <==> TokenCookie in req2.cookies
    ensures Middleware(req1) == Middleware(req2)
  {
  }

  /** A redirect changes the pathname of the cloned URL and keeps every other component. */
  lemma RedirectKeepsOtherComponents(req: Request)
    requires Middleware(req).Redirect?
    ensures var u, v := req.nextUrl, Middleware(req).url;
      && v.pathname == LoginPath
      && v.protocol == u.protocol && v.host == u.host && v.port == u.port
      && v.basePath == u.basePath && v.locale == u.locale
      && v.search == u.search && v.hash == u.hash
  {
  }

  /** Following the redirect with the same cookies is let through: the guard cannot loop. */
  lemma RedirectDoesNotLoop(req: Request)
    requires Middleware(req).Redirect?
    ensures Middleware(Request(Middleware(req).url, req.cookies)) == Continue
  {
  }

  /**
   * The matcher and the protected list name the same paths, so every path
   * the middleware runs on is a protected one, and applying the matcher first
   * decides every request exactly as the middleware alone would.
   */
  lemma MatcherIsProtectedRoutes(req: Request)
    ensures forall p :: p in Matcher <==> p in ProtectedRoutes
    ensures Dispatch(req) == Middleware(req)
  {
  }
}
