/**
 * The sign-in callbacks: `authorized`, which guards routes by prefix, and the
 * credentials `authorize`, a chain of guards over a user lookup and a password
 * check. The lookup and the password-hash comparison are parameters.
 */
module Auth {
  import opened Wrappers
  import opened Seqs
  import Middleware

  /**
   * The prefixes `authorized` guards. The last one is compared literally: a
   * prefix test gives `*` no wildcard meaning.
   */
  const ProtectedPrefixes: seq<string> := ["/dashboard", "/reminders", "/api/reminders", "/api/events/*/status"]

  predicate IsProtectedRoute(pathname: string)
  {
    exists i :: 0 <= i < |ProtectedPrefixes| && StartsWith(pathname, ProtectedPrefixes[i])
  }

  /** `authorized`: refuses exactly the protected routes without a signed-in user. */
  function Authorized(pathname: string, loggedIn: bool): (ok: bool)
    ensures !ok <==> IsProtectedRoute(pathname) && !loggedIn
  {
    !(IsProtectedRoute(pathname) && !loggedIn)
  }

  /** A concrete event-status path is not matched by the starred prefix, so it is let through. */
  lemma StarIsLiteral()
    ensures IsProtectedRoute("/api/events/*/status")
    ensures !IsProtectedRoute("/api/events/abc/status")
    ensures Authorized("/api/events/abc/status", false)
  {
    assert StartsWith("/api/events/*/status", ProtectedPrefixes[3]);
    var p := "/api/events/abc/status";
    forall i | 0 <= i < |ProtectedPrefixes|
      ensures !StartsWith(p, ProtectedPrefixes[i])
    {
      if i < 3 {
        assert p[1] != ProtectedPrefixes[i][1] || p[5] != ProtectedPrefixes[i][5];
      } else {
        assert p[12] != ProtectedPrefixes[i][12];
      }
    }
  }

  /** The page middleware guards `/events`; this callback does not. */
  lemma EventsGuardedOnlyByMiddleware()
    ensures Middleware.IsProtected("/events")
    ensures !IsProtectedRoute("/events")
  {
    assert StartsWith("/events", Middleware.ProtectedPaths[2]);
    var p := "/events";
    forall i | 0 <= i < |ProtectedPrefixes|
      ensures !StartsWith(p, ProtectedPrefixes[i])
    {
      assert p[1] != ProtectedPrefixes[i][1] || |p| < |ProtectedPrefixes[i]|;
    }
  }

  /**
   * The two route guards side by side. A signed-in user passes `authorized`
   * everywhere. For a signed-out user: `/dashboard` and `/reminders` paths are
   * refused by both guards; the two API prefixes are refused by `authorized`
   * alone, the middleware letting them through; and `/events` and `/calendar`
   * paths are redirected by the middleware alone.
   */
  lemma GuardsCompared(pathname: string, search: string)
    ensures Authorized(pathname, true)
    ensures !Authorized(pathname, false) && Middleware.Decide(pathname, search, false).RedirectToLogin?
            <==> StartsWith(pathname, "/dashboard") || StartsWith(pathname, "/reminders")
    ensures !Authorized(pathname, false) && Middleware.Decide(pathname, search, false).PassThrough?
            <==> StartsWith(pathname, "/api/reminders") || StartsWith(pathname, "/api/events/*/status")
    ensures Authorized(pathname, false) && Middleware.Decide(pathname, search, false).RedirectToLogin?
            <==> StartsWith(pathname, "/events") || StartsWith(pathname, "/calendar")
  {
    var p := pathname;
    AnyOfFour(p, ProtectedPrefixes);
    AnyOfFour(p, Middleware.ProtectedPaths);
    SecondChar(p, "/api/reminders");
    SecondChar(p, "/api/events/*/status");
    SecondChar(p, "/dashboard");
    SecondChar(p, "/reminders");
    SecondChar(p, "/events");
    SecondChar(p, "/calendar");
  }

  /** A prefix test against a list of four, written out. */
  lemma AnyOfFour(p: string, ps: seq<string>)
    requires |ps| == 4
    ensures (exists i :: 0 <= i < |ps| && StartsWith(p, ps[i])) <==>
      StartsWith(p, ps[0]) || StartsWith(p, ps[1]) || StartsWith(p, ps[2]) || StartsWith(p, ps[3])
  {
  }

  /** A path with a given prefix shares its second character. */
  lemma SecondChar(p: string, q: string)
    requires 2 <= |q|
    ensures StartsWith(p, q) ==> p[1] == q[1]
  {
    if StartsWith(p, q) {
      assert p[..|q|][1] == q[1];
    }
  }

  /** The submitted form; a field may be missing. */
  datatype Credentials = Credentials(email: Option<string>, password: Option<string>)

  /** A stored user; accounts created through an external provider have no password hash. */
  datatype User = User(id: string, email: string, name: Option<string>, hashedPassword: Option<string>)

  /** What `authorize` hands to the session. */
  datatype SessionUser = SessionUser(id: string, email: string, name: Option<string>)

  /** A form field or stored string that is present and non-empty. */
  predicate Filled(s: Option<string>)
  {
    s.Some? && s.value != ""
  }

  /**
   * `authorize`: missing email or password, an unknown user, a user without a
   * password hash, or a failed comparison all give no user.
   */
  function Authorize(c: Credentials, findUser: string -> Option<User>,
                     compare: (string, string) -> bool): (r: Option<SessionUser>)
    ensures r.Some? <==> Filled(c.email) && Filled(c.password)
                         && findUser(c.email.value).Some?
                         && Filled(findUser(c.email.value).value.hashedPassword)
                         && compare(c.password.value, findUser(c.email.value).value.hashedPassword.value)
    ensures r.Some? ==> var u := findUser(c.email.value).value;
                        r.value == SessionUser(u.id, u.email, u.name)
  {
    if !Filled(c.email) || !Filled(c.password) then None
    else
      match findUser(c.email.value)
      case None => None
      case Some(u) =>
        if !Filled(u.hashedPassword) then None
        else if !compare(c.password.value, u.hashedPassword.value) then None
        else Some(SessionUser(u.id, u.email, u.name))
  }

  /** Without a password in the form no lookup result can sign the user in. */
  lemma NoPasswordNoUser(email: Option<string>, findUser: string -> Option<User>,
                         compare: (string, string) -> bool)
    ensures Authorize(Credentials(email, None), findUser, compare).None?
    ensures Authorize(Credentials(email, Some("")), findUser, compare).None?
  {
  }
}
