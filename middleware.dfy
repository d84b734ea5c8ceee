/** The edge middleware of `middleware.ts`: a raw prefix test of the request
    path against the protected and the sign-in prefixes decides between a
    redirect and passing the request on; the matcher decides which paths
    reach it at all. */
module Middleware {

  import opened Text

  const ProtectedPrefixes: seq<string> := ["/dashboard", "/profile", "/api/protected"]
  const AuthPrefixes: seq<string> := ["/login", "/signup"]
  const LoginPath := "/login"
  const DashboardPath := "/dashboard"
  const CallbackParam := "callbackUrl"

  /** What the middleware answers: a redirect to a same-origin path with its
      query parameters, or `NextResponse.next()`. */
  datatype Response = Redirect(path: string, query: seq<(string, string)>) | Next

  /** `prefixes.some(p => path.startsWith(p))` */
  predicate AnyPrefix(path: string, prefixes: seq<string>)
  {
    exists i :: 0 <= i < |prefixes| && StartsWith(path, prefixes[i])
  }

  predicate IsProtectedPath(path: string)
  {
    AnyPrefix(path, ProtectedPrefixes)
  }

  predicate IsAuthPath(path: string)
  {
    AnyPrefix(path, AuthPrefixes)
  }

  /** The decision for a request path; `hasSession` is whether the session
      lookup gave a truthy session. */
  function Decide(pathname: string, hasSession: bool): (r: Response)
    ensures r.Next? <==> !(IsProtectedPath(pathname) && !hasSession) && !(IsAuthPath(pathname) && hasSession)
    ensures r.Redirect? ==> r.path == LoginPath || r.path == DashboardPath
  {
    if IsProtectedPath(pathname) && !hasSession then Redirect(LoginPath, [(CallbackParam, pathname)])
    else if IsAuthPath(pathname) && hasSession then Redirect(DashboardPath, [])
    else Next
  }

  /** A path starting with a prefix of two or more characters shares the
      prefix's second character. */
  lemma SecondChar(path: string)
    ensures forall prefix :: StartsWith(path, prefix) && |prefix| >= 2 ==> |path| >= 2 && path[1] == prefix[1]
  {
    forall prefix | StartsWith(path, prefix) && |prefix| >= 2
      ensures |path| >= 2 && path[1] == prefix[1]
    {
      assert path[..|prefix|][1] == prefix[1];
    }
  }

  /** No path is both protected and a sign-in path: their prefixes already
      differ in the second character. */
  lemma PrefixSetsDisjoint(path: string)
    ensures !(IsProtectedPath(path) && IsAuthPath(path))
  {
    SecondChar(path);
  }

  /** The three outcomes and exactly when each happens: a guest on a
      protected path goes to '/login' carrying the path as `callbackUrl`, a
      signed-in user on a sign-in path goes to '/dashboard', and every other
      request passes. */
  lemma DecideSpec(pathname: string, hasSession: bool)
    ensures Decide(pathname, hasSession) == Redirect(LoginPath, [(CallbackParam, pathname)])
      <==> IsProtectedPath(pathname) && !hasSession
    ensures Decide(pathname, hasSession) == Redirect(DashboardPath, [])
      <==> IsAuthPath(pathname) && hasSession
    ensures Decide(pathname, hasSession) == Next
      <==> !(IsProtectedPath(pathname) && !hasSession) && !(IsAuthPath(pathname) && hasSession)
  {
    PrefixSetsDisjoint(pathname);
  }

  /** The prefix test is raw, so '/profiles' counts as protected. */
  lemma RawPrefixMatch()
    ensures IsProtectedPath("/profiles")
  {
    assert StartsWith("/profiles", ProtectedPrefixes[1]);
  }

  /** A character the regular expression `.` matches (anything but a line
      terminator). */
  predicate RegexDot(c: char)
  {
    c != '\n' && c != '\r' && c != '\U{2028}' && c != '\U{2029}'
  }

  /** The negative look-ahead `(?!api|_next/static|_next/image|favicon.ico)`
      fails on `rest`, where `.` in `favicon.ico` is any character. */
  predicate ExcludedRest(rest: string)
  {
    || StartsWith(rest, "api")
    || StartsWith(rest, "_next/static")
    || StartsWith(rest, "_next/image")
    || (|rest| >= 11 && rest[..7] == "favicon" && RegexDot(rest[7]) && rest[8..11] == "ico")
  }

  /** The matcher `/((?!api|_next/static|_next/image|favicon.ico).*)`: a path
      after whose leading '/' none of the excluded beginnings occurs. */
  predicate Matched(path: string)
  {
    |path| >= 1 && path[0] == '/' && !ExcludedRest(path[1..])
  }

  /** Every path under '/api' is excluded by the matcher, so the
      '/api/protected' prefix can never send anyone to '/login'. */
  lemma ApiProtectedNeverMatched(path: string)
    requires StartsWith(path, "/api/protected")
    ensures !Matched(path)
  {
    assert path[1..][..3] == path[..|"/api/protected"|][1..4];
  }

  /** On the paths the matcher lets through, protection is decided by the
      '/dashboard' and '/profile' prefixes alone. */
  lemma MatchedProtection(path: string)
    requires Matched(path)
    ensures IsProtectedPath(path) <==> StartsWith(path, "/dashboard") || StartsWith(path, "/profile")
  {
    if StartsWith(path, "/api/protected") {
      ApiProtectedNeverMatched(path);
    }
    if StartsWith(path, "/dashboard") {
      assert StartsWith(path, ProtectedPrefixes[0]);
    }
    if StartsWith(path, "/profile") {
      assert StartsWith(path, ProtectedPrefixes[1]);
    }
  }
}
