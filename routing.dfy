/** What both admin gates share: request paths, the two routes they send
    visitors to, and the two answers a middleware can give. */
module Routing {

  type Path = string

  const AdminPrefix: Path := "/admin"
  const LoginPath: Path := "/admin-login"
  const DashboardPath: Path := "/admin/dashboard"

  /** `NextResponse.next()` lets the request through unchanged;
      `NextResponse.redirect(new URL(location, request.url))` sends the
      browser to `location` on the same origin. */
  datatype Response = Next | Redirect(location: Path)

  /** `path.startsWith(prefix)`. */
  predicate StartsWith(path: Path, prefix: Path)
  {
    |prefix| <= |path| && path[..|prefix|] == prefix
  }

  /** The login route itself carries the admin prefix. */
  lemma LoginPathHasAdminPrefix()
    ensures StartsWith(LoginPath, AdminPrefix)
  {
    assert LoginPath[..|AdminPrefix|] == AdminPrefix;
  }

  /** The dashboard carries the admin prefix but not the login prefix. */
  lemma DashboardPathPrefixes()
    ensures StartsWith(DashboardPath, AdminPrefix)
    ensures !StartsWith(DashboardPath, LoginPath)
  {
    assert DashboardPath[..|AdminPrefix|] == AdminPrefix;
    assert DashboardPath[6] != LoginPath[6];
  }

  /** Extending a path keeps every prefix it had. */
  lemma StartsWithTransitive(path: Path, p: Path, q: Path)
    requires StartsWith(path, p) && StartsWith(p, q)
    ensures StartsWith(path, q)
  {
    assert path[..|q|] == path[..|p|][..|q|];
  }
}
