/** The session gate in front of the manager area: one routing decision per
    request, from the path, the `manager_session` cookie and the verifier. */
module Middleware {
  import opened Js
  import opened Tokens

  const LoginPath: string := "/m/login"
  const DashboardPath: string := "/m/dashboard"

  datatype Action = Next | Redirect(location: string)

  /** What the response does to the `manager_session` cookie. */
  datatype CookieWrite = Untouched | SetCookie(value: string, expires: int)

  datatype Decision = Decision(action: Action, cookie: CookieWrite)

  /** The cookie write that clears a rejected session: value '' and expiry at epoch 0. */
  const ClearCookie: CookieWrite := SetCookie("", 0)

  /** Paths under `/m/`, except the login page, need a session. */
  predicate IsProtected(path: string) {
    "/m/" <= path && path != LoginPath
  }

  /** The body of `middleware`. */
  function Gate(env: Env, path: string, cookie: Option<string>): (d: Decision)
    ensures d.cookie.SetCookie? ==> d.cookie == ClearCookie && d.action == Redirect(LoginPath)
    ensures d.action.Redirect? ==> d.action.location == LoginPath || d.action.location == DashboardPath
  {
    if IsProtected(path) then
      if cookie.None? then Decision(Redirect(LoginPath), Untouched)
      else if Verify(env, cookie.value).Some? then Decision(Next, Untouched)
      else Decision(Redirect(LoginPath), ClearCookie)
    else if path == LoginPath && cookie.Some? then
      if Verify(env, cookie.value).Some? then Decision(Redirect(DashboardPath), Untouched)
      else Decision(Next, Untouched)
    else Decision(Next, Untouched)
  }

  /** The first segment a path must not start with for `config.matcher`
      (`/((?!api|_next/static|_next/image|favicon.ico).*)`) to select it; the `.`
      in `favicon.ico` is a regular-expression wildcard. */
  predicate ExcludedByMatcher(rest: string) {
    || "api" <= rest
    || "_next/static" <= rest
    || "_next/image" <= rest
    || (|rest| >= 11 && rest[..7] == "favicon" && rest[8..11] == "ico")
  }

  predicate MatcherSelects(path: string) {
    |path| >= 1 && path[0] == '/' && !ExcludedByMatcher(path[1..])
  }

  /** A request as the framework handles it: the gate runs only on selected paths. */
  function Route(env: Env, path: string, cookie: Option<string>): (d: Decision)
    ensures !MatcherSelects(path) ==> d == Decision(Next, Untouched)
  {
    if MatcherSelects(path) then Gate(env, path, cookie) else Decision(Next, Untouched)
  }

  // ------------------------------------------------------------- properties

  /** `/m` itself, `/mx` and the login page are not protected; anything strictly below `/m/` else is. */
  lemma ProtectedPaths(rest: string)
    ensures !IsProtected("/m") && !IsProtected("/mx") && !IsProtected(LoginPath)
    ensures IsProtected("/m/" + rest) <==> "/m/" + rest != LoginPath
    ensures IsProtected(DashboardPath)
  {
    assert "/m/" <= "/m/" + rest;
    assert "/mx"[2] != '/';
  }

  /** A protected path without the cookie redirects to login and leaves the cookie alone. */
  lemma NoCookieRedirectsToLogin(env: Env, path: string)
    requires IsProtected(path)
    ensures Gate(env, path, None) == Decision(Redirect(LoginPath), Untouched)
  {
  }

  /** A protected path whose cookie fails verification (a missing secret included)
      redirects to login and clears the cookie. */
  lemma RejectedCookieIsCleared(env: Env, path: string, token: string)
    requires IsProtected(path)
    requires !HasSecret(env) || env.verify(env.jwtSecret.value, token, env.now).None?
    ensures Gate(env, path, Some(token)) == Decision(Redirect(LoginPath), ClearCookie)
  {
  }

  /** A protected path with a valid cookie proceeds unchanged. */
  lemma ValidCookieProceeds(env: Env, path: string, token: string)
    requires IsProtected(path) && Verify(env, token).Some?
    ensures Gate(env, path, Some(token)) == Decision(Next, Untouched)
  {
  }

  /** At the login page a valid cookie redirects to the dashboard; an invalid one
      proceeds without the cookie being cleared; no cookie proceeds. */
  lemma LoginPage(env: Env, cookie: Option<string>)
    ensures Gate(env, LoginPath, cookie)
            == if cookie.Some? && Verify(env, cookie.value).Some?
               then Decision(Redirect(DashboardPath), Untouched)
               else Decision(Next, Untouched)
  {
  }

  /** Only the login page, with a valid cookie, is ever sent to the dashboard, and
      the cookie is only ever written for a protected path with a rejected cookie. */
  lemma RedirectCases(env: Env, path: string, cookie: Option<string>)
    ensures Gate(env, path, cookie).action == Redirect(DashboardPath)
            <==> path == LoginPath && cookie.Some? && Verify(env, cookie.value).Some?
    ensures Gate(env, path, cookie).cookie.SetCookie?
            <==> IsProtected(path) && cookie.Some? && Verify(env, cookie.value).None?
    ensures !IsProtected(path) && path != LoginPath ==> Gate(env, path, cookie) == Decision(Next, Untouched)
  {
  }

  /** The matcher never exempts the manager area: every path under `/m/` is gated,
      while `/api/...` requests never are. */
  lemma MatcherCoversManagerArea(env: Env, path: string, cookie: Option<string>, rest: string)
    ensures "/m/" <= path ==> Route(env, path, cookie) == Gate(env, path, cookie)
    ensures Route(env, "/api/" + rest, cookie) == Decision(Next, Untouched)
  {
    if "/m/" <= path {
      assert path[1] == 'm';
      assert path[1..][0] == 'm';
    }
    var p := "/api/" + rest;
    assert p[1..][..3] == "api";
  }

  // ------------------------------------------------------- redirect chains

  /** The browser's cookie after a response: a cookie whose expiry is not after
      the current time is removed (section 5.3 of RFC 6265). */
  function StoreCookie(now: nat, jar: Option<string>, w: CookieWrite): Option<string> {
    match w
    case Untouched => jar
    case SetCookie(v, expires) => if expires <= now then None else Some(v)
  }

  /** Follow at most `hops` redirects from `path`; the path that is finally served,
      or `None` if it is still redirecting after that many. */
  function Follow(env: Env, path: string, jar: Option<string>, hops: nat): Option<string>
    decreases hops
  {
    var d := Route(env, path, jar);
    match d.action
    case Next => Some(path)
    case Redirect(location) =>
      if hops == 0 then None else Follow(env, location, StoreCookie(env.now, jar, d.cookie), hops - 1)
  }

  /** After an invalid-cookie redirect, the cookie is gone and the login page is served. */
  lemma ClearedCookieReachesLogin(env: Env, path: string, token: string)
    requires IsProtected(path) && Verify(env, token).None?
    ensures StoreCookie(env.now, Some(token), Gate(env, path, Some(token)).cookie) == None
    ensures Route(env, LoginPath, None) == Decision(Next, Untouched)
  {
  }

  /** No redirect loop: from any path and any cookie, at most two redirects lead to
      a page that is served, and that page is the requested one, the login page or
      the dashboard. Every hop is checked at the same `env.now`: a token that
      expires between hops is not covered. */
  lemma {:induction false} NoRedirectLoop(env: Env, path: string, jar: Option<string>)
    ensures Follow(env, path, jar, 2).Some?
    ensures Follow(env, path, jar, 2).value in {path, LoginPath, DashboardPath}
  {
    var d := Route(env, path, jar);
    assert MatcherSelects(LoginPath) by { assert LoginPath[1..][0] == 'm'; }
    assert MatcherSelects(DashboardPath) by { assert DashboardPath[1..][0] == 'm'; }
    assert IsProtected(DashboardPath);
    if d.action.Redirect? {
      var jar' := StoreCookie(env.now, jar, d.cookie);
      if d.action.location == LoginPath {
        // Either no cookie was sent or it was rejected, and a rejected one is cleared.
        assert jar' == None;
        assert Route(env, LoginPath, jar').action == Next;
      } else {
        // Only a valid cookie at the login page leads here, and it is kept.
        assert jar' == jar && Verify(env, jar.value).Some?;
        assert Route(env, DashboardPath, jar').action == Next;
      }
    }
  }
}
