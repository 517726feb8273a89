/** The admin access gate that consults a hosted-auth session: a visitor
    who already has a session is sent from the login route to the
    dashboard, a visitor without one is sent from any other admin route to
    the login route, and every other request passes. Whether a session
    exists is an input here. */
module SessionGate {
  import opened Routing

  /** The decision the middleware makes once the session is known. The
      login prefix is tested before the admin prefix. */
  function Decide(path: Path, hasSession: bool): Response
  {
    if StartsWith(path, LoginPath) then
      if hasSession then Redirect(DashboardPath) else Next
    else if StartsWith(path, AdminPrefix) then
      if !hasSession then Redirect(LoginPath) else Next
    else
      Next
  }

  /** The routes the middleware is configured for:
      `/admin/:path*` (`/admin` and everything below it) and `/admin-login`. */
  predicate Matched(path: Path)
  {
    path == AdminPrefix || StartsWith(path, AdminPrefix + "/") || path == LoginPath
  }

  /** What a request receives: unmatched paths never reach the middleware. */
  function Handle(path: Path, hasSession: bool): Response
  {
    if Matched(path) then Decide(path, hasSession) else Next
  }

  lemma LoggedInVisitorLeavesLogin(path: Path)
    requires StartsWith(path, LoginPath)
    ensures Decide(path, true) == Redirect(DashboardPath)
  {
  }

  lemma AnonymousVisitorSeesLogin(path: Path)
    requires StartsWith(path, LoginPath)
    ensures Decide(path, false) == Next
  {
  }

  lemma AnonymousVisitorSentToLogin(path: Path)
    requires StartsWith(path, AdminPrefix) && !StartsWith(path, LoginPath)
    ensures Decide(path, false) == Redirect(LoginPath)
  {
  }

  lemma LoggedInVisitorPassesAdmin(path: Path)
    requires StartsWith(path, AdminPrefix) && !StartsWith(path, LoginPath)
    ensures Decide(path, true) == Next
  {
  }

  /** A path with neither prefix passes with or without a session. */
  lemma OtherPathsPass(path: Path, hasSession: bool)
    requires !StartsWith(path, AdminPrefix)
    ensures Decide(path, hasSession) == Next
  {
    if StartsWith(path, LoginPath) {
      LoginPathHasAdminPrefix();
      StartsWithTransitive(path, LoginPath, AdminPrefix);
    }
  }

  /** No request is redirected to the path it asked for. */
  lemma {:induction false} NeverRedirectsToItself(path: Path, hasSession: bool)
    ensures Decide(path, hasSession) != Redirect(path)
  {
    DashboardPathPrefixes();
    if !StartsWith(path, LoginPath) {
      assert LoginPath[..|LoginPath|] == LoginPath;
      assert path != LoginPath;
    }
  }

  /** With the session unchanged, following a redirect once reaches a page
      that passes: there is never more than one redirect in a row. */
  lemma {:induction false} AtMostOneRedirect(path: Path, hasSession: bool)
    ensures Decide(path, hasSession).Redirect? ==>
      Decide(Decide(path, hasSession).location, hasSession) == Next
  {
    DashboardPathPrefixes();
    assert LoginPath[..|LoginPath|] == LoginPath;
  }

  /** Every path the matcher admits carries the admin prefix, so under the
      matcher the final pass-through branch is never taken. */
  lemma MatchedPathsAreAdminPaths(path: Path)
    requires Matched(path)
    ensures StartsWith(path, AdminPrefix)
  {
    LoginPathHasAdminPrefix();
    if StartsWith(path, AdminPrefix + "/") {
      assert (AdminPrefix + "/")[..|AdminPrefix|] == AdminPrefix;
      StartsWithTransitive(path, AdminPrefix + "/", AdminPrefix);
    }
  }

  /** Both redirect targets are matched routes, and a matched request gets
      the middleware's own decision; so the two properties above also hold
      for what requests actually receive. */
  lemma {:induction false} HandledRedirectsSettle(path: Path, hasSession: bool)
    ensures Handle(path, hasSession) != Redirect(path)
    ensures Handle(path, hasSession).Redirect? ==>
      Handle(Handle(path, hasSession).location, hasSession) == Next
  {
    NeverRedirectsToItself(path, hasSession);
    AtMostOneRedirect(path, hasSession);
    assert Matched(LoginPath);
    assert DashboardPath[..|AdminPrefix + "/"|] == AdminPrefix + "/";
    assert Matched(DashboardPath);
  }

  /** The matcher narrows the gate: `/administrator` starts with the admin
      prefix, yet an anonymous request for it passes because it is not a
      matched route. */
  lemma UnmatchedAdminLookalikePasses()
    ensures Decide("/administrator", false) == Redirect(LoginPath)
    ensures Handle("/administrator", false) == Next
  {
    assert "/administrator"[..|AdminPrefix|] == AdminPrefix;
    assert "/administrator"[6] != LoginPath[6];
    assert "/administrator"[6] != (AdminPrefix + "/")[6];
  }
}
