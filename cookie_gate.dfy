/** The admin access gate at the project root, the one the framework runs
    on every request: any path with the admin prefix needs the
    `admin_authenticated` cookie, and the login endpoint sets that cookie. */
module CookieGate {
  import opened Routing

  /** The request's cookies, by name. */
  type Cookies = map<string, string>

  const AuthCookieName: string := "admin_authenticated"
  const AuthCookieValue: string := "true"

  /** The middleware as written: `request.cookies.get(name)` yields an
      entry whenever the cookie is present, whatever its value, so only
      presence is tested. */
  function Middleware(path: Path, cookies: Cookies): Response
  {
    var isAdminPage := StartsWith(path, AdminPrefix);
    var isAuthenticated := AuthCookieName in cookies;
    if isAdminPage && !isAuthenticated then Redirect(LoginPath) else Next
  }

  /** The cookies a browser holds after a successful login:
      `admin_authenticated` set to `true`, the others kept. */
  function AfterLogin(cookies: Cookies): (c: Cookies)
    ensures c.Keys == cookies.Keys + {AuthCookieName}
    ensures c[AuthCookieName] == AuthCookieValue
    ensures forall name :: name in cookies && name != AuthCookieName ==> name in c && c[name] == cookies[name]
  {
    cookies[AuthCookieName := AuthCookieValue]
  }

  lemma AnonymousAdminRequestRedirected(path: Path, cookies: Cookies)
    requires StartsWith(path, AdminPrefix) && AuthCookieName !in cookies
    ensures Middleware(path, cookies) == Redirect(LoginPath)
  {
  }

  lemma NonAdminPathsPass(path: Path, cookies: Cookies)
    requires !StartsWith(path, AdminPrefix)
    ensures Middleware(path, cookies) == Next
  {
  }

  /** With the cookie present every path passes, whatever its value,
      the empty string included. */
  lemma CookiePresencePasses(path: Path, cookies: Cookies)
    requires AuthCookieName in cookies
    ensures Middleware(path, cookies) == Next
    ensures Middleware(path, cookies[AuthCookieName := ""]) == Next
  {
  }

  /** The answer depends on nothing but whether the path has the admin
      prefix and whether the cookie is present. */
  lemma OnlyPrefixAndPresenceMatter(p1: Path, c1: Cookies, p2: Path, c2: Cookies)
    requires StartsWith(p1, AdminPrefix) == StartsWith(p2, AdminPrefix)
    requires (AuthCookieName in c1) == (AuthCookieName in c2)
    ensures Middleware(p1, c1) == Middleware(p2, c2)
  {
  }

  /** An anonymous request for the login page is redirected to the login
      page itself, and so is every request that follows the redirect: the
      browser never reaches a page that passes. */
  lemma LoginPageRedirectsToItself(cookies: Cookies)
    requires AuthCookieName !in cookies
    ensures Middleware(LoginPath, cookies) == Redirect(LoginPath)
  {
    LoginPathHasAdminPrefix();
  }

  /** After logging in, every path passes. */
  lemma LoginOpensEveryPath(path: Path, cookies: Cookies)
    ensures Middleware(path, AfterLogin(cookies)) == Next
  {
  }

  /** The gate with the login route exempted from the cookie test, as the
      redirect target requires. */
  function MiddlewareExemptingLogin(path: Path, cookies: Cookies): Response
  {
    var isAdminPage := StartsWith(path, AdminPrefix) && !StartsWith(path, LoginPath);
    var isAuthenticated := AuthCookieName in cookies;
    if isAdminPage && !isAuthenticated then Redirect(LoginPath) else Next
  }

  /** The exempting gate never sends a request to the path it asked for,
      and a redirect, once followed, reaches a page that passes. */
  lemma {:induction false} ExemptingLoginSettles(path: Path, cookies: Cookies)
    ensures MiddlewareExemptingLogin(path, cookies) != Redirect(path)
    ensures MiddlewareExemptingLogin(path, cookies).Redirect? ==>
      MiddlewareExemptingLogin(LoginPath, cookies) == Next
  {
    assert LoginPath[..|LoginPath|] == LoginPath;
  }

  /** The exempting gate differs from the one as written only on the login
      route, and keeps what logging in does. */
  lemma ExemptingLoginAgreesElsewhere(path: Path, cookies: Cookies)
    ensures !StartsWith(path, LoginPath) ==>
      MiddlewareExemptingLogin(path, cookies) == Middleware(path, cookies)
    ensures MiddlewareExemptingLogin(path, AfterLogin(cookies)) == Next
  {
  }
}
