/**
 * The request middleware that guards pages and API routes: public paths go
 * through untouched; a protected path without a session is sent to the login
 * page with the path to return to; a signed-in user who opens an `/auth/`
 * page is sent to the dashboard; a failing session lookup lets the request
 * through.
 */
module AuthMiddleware {
  import opened Wrappers
  import opened Text

  const LoginPath := "/auth/login"
  const DashboardPath := "/dashboard"

  /** What the session lookup gave: no session, a session, or an exception. */
  datatype SessionLookup = NoSession | HasSession | LookupThrows

  /** Pass the request on, or redirect it (with an optional `redirectTo` query parameter). */
  datatype Decision = Next | Redirect(location: string, redirectTo: Option<string>)

  /** Static files, the landing page, the documentation and the public SMS API. */
  predicate IsPublic(path: string)
  {
    || StartsWith(path, "/_next")
    || StartsWith(path, "/favicon.ico")
    || StartsWith(path, "/api/sms")
    || path == "/"
    || StartsWith(path, "/docs")
  }

  /** The dashboard and the key and statistics APIs need a session. */
  predicate IsProtected(path: string)
  {
    StartsWith(path, "/dashboard") || StartsWith(path, "/api/keys") || StartsWith(path, "/api/stats")
  }

  /** `middleware(req)` for the request path `path`. */
  function Middleware(path: string, session: SessionLookup): (d: Decision)
    ensures d == Redirect(LoginPath, Some(path)) <==> !IsPublic(path) && IsProtected(path) && session == NoSession
    ensures d == Redirect(DashboardPath, None) <==>
      !IsPublic(path) && session == HasSession && StartsWith(path, "/auth/")
    ensures d.Next? || d == Redirect(LoginPath, Some(path)) || d == Redirect(DashboardPath, None)
  {
    if IsPublic(path) then Next
    else match session
      case LookupThrows => Next
      case NoSession => if IsProtected(path) then Redirect(LoginPath, Some(path)) else Next
      case HasSession => if StartsWith(path, "/auth/") then Redirect(DashboardPath, None) else Next
  }

  /** Public paths never depend on the session. */
  lemma PublicPathsPass(path: string, session: SessionLookup)
    requires IsPublic(path)
    ensures Middleware(path, session) == Next
  {
  }

  /** A failing session lookup lets every request through, protected or not. */
  lemma FailsOpen(path: string)
    ensures Middleware(path, LookupThrows) == Next
  {
  }

  /** A signed-in user is never sent to the login page. */
  lemma SessionNeverRedirectedToLogin(path: string)
    ensures Middleware(path, HasSession).Redirect? ==> Middleware(path, HasSession).location == DashboardPath
  {
  }

  /** The two redirects cannot chain: the login page is not protected and the dashboard is not an `/auth/` page. */
  lemma RedirectsDoNotLoop()
    ensures Middleware(LoginPath, NoSession) == Next
    ensures Middleware(DashboardPath, HasSession) == Next
  {
    MismatchNotStartsWith(LoginPath, "/dashboard", 1);
    MismatchNotStartsWith(LoginPath, "/api/keys", 2);
    MismatchNotStartsWith(LoginPath, "/api/stats", 2);
    MismatchNotStartsWith(LoginPath, "/_next", 1);
    MismatchNotStartsWith(LoginPath, "/favicon.ico", 1);
    MismatchNotStartsWith(LoginPath, "/api/sms", 2);
    MismatchNotStartsWith(LoginPath, "/docs", 1);
    MismatchNotStartsWith(DashboardPath, "/auth/", 1);
    MismatchNotStartsWith(DashboardPath, "/_next", 1);
    MismatchNotStartsWith(DashboardPath, "/favicon.ico", 1);
    MismatchNotStartsWith(DashboardPath, "/api/sms", 1);
    MismatchNotStartsWith(DashboardPath, "/docs", 2);
  }

  /** The public SMS API is reachable without a session, the key API is not. */
  lemma SmsApiIsPublicKeyApiIsNot()
    ensures Middleware("/api/sms/send", NoSession) == Next
    ensures Middleware("/api/keys", NoSession) == Redirect(LoginPath, Some("/api/keys"))
  {
    assert StartsWith("/api/sms/send", "/api/sms");
    assert StartsWith("/api/keys", "/api/keys");
    MismatchNotStartsWith("/api/keys", "/api/sms", 5);
    MismatchNotStartsWith("/api/keys", "/_next", 1);
    MismatchNotStartsWith("/api/keys", "/favicon.ico", 1);
    MismatchNotStartsWith("/api/keys", "/docs", 1);
  }
}
