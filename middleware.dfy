/**
 * The route guard that runs before every page request: signed-in users are
 * sent from the login and sign-up pages to the dashboard, anonymous users are
 * sent from any path starting with `/dashboard` to the login page (which is
 * told where they came from), and everything else passes.
 */
module Middleware {
  import opened JsStrings

  datatype Decision =
    | RedirectToDashboard
    | RedirectToLogin(redirectedFrom: string)
    | Pass

  predicate IsAuthPage(pathname: string) {
    pathname == "/login" || pathname == "/signup"
  }

  /** The guard, for a request the matcher lets through. */
  function Guard(pathname: string, hasSession: bool): (d: Decision)
    ensures d == RedirectToDashboard <==> IsAuthPage(pathname) && hasSession
    ensures d.RedirectToLogin? <==> StartsWith(pathname, "/dashboard") && !hasSession
    ensures d.RedirectToLogin? ==> d.redirectedFrom == pathname
    ensures d == Pass <==> (IsAuthPage(pathname) && !hasSession)
                           || (!IsAuthPage(pathname) && (hasSession || !StartsWith(pathname, "/dashboard")))
  {
    if IsAuthPage(pathname) then
      if hasSession then RedirectToDashboard else Pass
    else if StartsWith(pathname, "/dashboard") && !hasSession then
      RedirectToLogin(pathname)
    else Pass
  }

  /** The path a redirect leads to. */
  function Target(d: Decision): string
    requires d != Pass
  {
    if d.RedirectToDashboard? then "/dashboard" else "/login"
  }

  /** Following a redirect never redirects again: the guard has no loops. */
  lemma NoRedirectLoop(pathname: string, hasSession: bool)
    requires Guard(pathname, hasSession) != Pass
    ensures Guard(Target(Guard(pathname, hasSession)), hasSession) == Pass
  {
    if !IsAuthPage(pathname) {
      assert !StartsWith("/login", "/dashboard");
    }
  }

  /** After signing in, the page the user was sent away from is let through. */
  lemma RedirectedFromPassesAfterLogin(pathname: string)
    requires Guard(pathname, false).RedirectToLogin?
    ensures Guard(Guard(pathname, false).redirectedFrom, true) == Pass
  {
  }

  /** `(?!_next/static|_next/image|favicon.ico)`: `.` here matches any character but a line terminator. */
  predicate ExcludedPrefix(rest: string) {
    || StartsWith(rest, "_next/static")
    || StartsWith(rest, "_next/image")
    || (|rest| >= 11 && rest[..7] == "favicon" && !IsLineTerminator(rest[7]) && rest[8..11] == "ico")
  }

  /** The matcher `/((?!_next/static|_next/image|favicon.ico).*)`: the paths the guard runs on. */
  predicate Matched(pathname: string) {
    && |pathname| >= 1 && pathname[0] == '/'
    && !ExcludedPrefix(pathname[1..])
    && NoLineTerminator(pathname[1..])
  }

  /** The whole middleware: unmatched paths are not guarded. */
  function Middleware(pathname: string, hasSession: bool): (d: Decision)
    ensures !Matched(pathname) ==> d == Pass
    ensures Matched(pathname) ==> d == Guard(pathname, hasSession)
  {
    if Matched(pathname) then Guard(pathname, hasSession) else Pass
  }

  /** Static assets and the favicon are never guarded. */
  lemma MatcherExclusions()
    ensures !Matched("/favicon.ico") && !Matched("/_next/static/chunks/app.js") && !Matched("/_next/image")
  {
    var favicon := "/favicon.ico"[1..];
    assert favicon == "favicon.ico";
    assert favicon[..7] == "favicon" && favicon[7] == '.' && favicon[8..11] == "ico";
    assert StartsWith("/_next/static/chunks/app.js"[1..], "_next/static");
    assert StartsWith("/_next/image"[1..], "_next/image");
  }

  /** The login and sign-up pages and the dashboard are guarded. */
  lemma MatcherPages()
    ensures Matched("/dashboard") && Matched("/login") && Matched("/signup")
  {
    PageMatched("/dashboard");
    PageMatched("/login");
    PageMatched("/signup");
  }

  /** A path whose first segment starts with a lower-case letter other than `f` is guarded. */
  lemma PageMatched(pathname: string)
    requires |pathname| >= 2 && pathname[0] == '/' && 'a' <= pathname[1] <= 'z' && pathname[1] != 'f'
    requires NoLineTerminator(pathname)
    ensures Matched(pathname)
  {
    var rest := pathname[1..];
    assert rest[0] == pathname[1];
    assert !StartsWith(rest, "_next/static") by { assert "_next/static"[0] == '_'; }
    assert !StartsWith(rest, "_next/image") by { assert "_next/image"[0] == '_'; }
    assert |rest| < 11 || rest[..7] != "favicon" by { assert "favicon"[0] == 'f'; }
    assert NoLineTerminator(rest) by {
      forall k | 0 <= k < |rest| ensures !IsLineTerminator(rest[k]) { assert rest[k] == pathname[k + 1]; }
    }
  }

  /**
   * Every anonymous request for a path starting with `/dashboard` (whatever
   * follows, so `/dashboardx` too) is sent to the login page.
   */
  lemma DashboardPrefixIsLiteral(pathname: string)
    requires StartsWith(pathname, "/dashboard") && NoLineTerminator(pathname)
    ensures Middleware(pathname, false) == RedirectToLogin(pathname)
  {
    assert pathname[..10][1] == 'd';
    PageMatched(pathname);
  }
}
