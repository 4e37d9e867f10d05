/**
 * The page middleware: which paths need a signed-in user, and where a request
 * is redirected when it is signed out on a protected page or signed in on a
 * sign-in page.
 */
module Middleware {
  import opened Seqs

  const ProtectedPaths: seq<string> := ["/dashboard", "/reminders", "/events", "/calendar"]

  /** `PROTECTED_PATHS.some(path => pathname.startsWith(path))`. */
  predicate IsProtected(pathname: string)
  {
    exists i :: 0 <= i < |ProtectedPaths| && StartsWith(pathname, ProtectedPaths[i])
  }

  /** The sign-in and registration pages. */
  predicate IsAuthPage(pathname: string)
  {
    StartsWith(pathname, "/login") || StartsWith(pathname, "/register")
  }

  datatype Decision =
    | RedirectToLogin(callbackUrl: string)  // to `/login?callbackUrl=...`
    | RedirectToDashboard
    | PassThrough

  /** The decision for a request with path `pathname` and query string `search`. */
  function Decide(pathname: string, search: string, signedIn: bool): (d: Decision)
    ensures d.RedirectToLogin? <==> IsProtected(pathname) && !signedIn
    ensures d.RedirectToLogin? ==> d.callbackUrl == pathname + search
    ensures d.RedirectToDashboard? <==> IsAuthPage(pathname) && signedIn && !(IsProtected(pathname) && !signedIn)
    ensures d.PassThrough? <==> !(IsProtected(pathname) && !signedIn) && !(IsAuthPage(pathname) && signedIn)
  {
    if IsProtected(pathname) && !signedIn then RedirectToLogin(pathname + search)
    else if IsAuthPage(pathname) && signedIn then RedirectToDashboard
    else PassThrough
  }

  /** A path starting with `/login` or `/register` is never protected. */
  lemma AuthPagesUnprotected(pathname: string)
    requires IsAuthPage(pathname)
    ensures !IsProtected(pathname)
  {
    if StartsWith(pathname, "/login") {
      assert pathname[1] == 'l';
    } else {
      assert pathname[1] == 'r' && pathname[3] == 'g';
    }
  }

  /** Neither redirect leads to another redirect: following it passes through. */
  lemma RedirectsSettle(pathname: string, search: string, signedIn: bool)
    ensures Decide(pathname, search, signedIn).RedirectToLogin? ==> Decide("/login", "", false) == PassThrough
    ensures Decide(pathname, search, signedIn).RedirectToDashboard? ==> Decide("/dashboard", "", true) == PassThrough
  {
    AuthPagesUnprotected("/login");
    assert !IsAuthPage("/dashboard") by {
      assert "/dashboard"[1] == 'd';
    }
  }

  /** A signed-in user reaches every protected page; a signed-out one reaches none. */
  lemma ProtectedNeedsSignIn(pathname: string, search: string)
    requires IsProtected(pathname)
    ensures Decide(pathname, search, true) == PassThrough
    ensures Decide(pathname, search, false) == RedirectToLogin(pathname + search)
  {
    if IsAuthPage(pathname) {
      AuthPagesUnprotected(pathname);
    }
  }
}
