/** The client-side guard of `src/components/ProtectedRoute.tsx`: from the
    session flags, its two props and the current path it decides which
    navigations its effect issues and what it renders. */
module ProtectedRoute {

  import opened Wrappers

  const DefaultFallbackPath := "/login"
  const SignedInHome := "/tasks"

  /** The props as passed; None is an omitted (undefined) prop, which takes
      its default. */
  datatype Props = Props(requireAuth: Option<bool>, fallbackPath: Option<string>)

  /** What the component renders. */
  datatype View = LoadingView | NullView | ChildrenView

  /** `requireAuth = true` */
  function RequireAuth(p: Props): (b: bool)
    ensures p.requireAuth.None? ==> b
    ensures p.requireAuth.Some? ==> b == p.requireAuth.value
  {
    if p.requireAuth.Some? then p.requireAuth.value else true
  }

  /** `fallbackPath = '/login'` */
  function FallbackPath(p: Props): (path: string)
    ensures p.fallbackPath.None? ==> path == DefaultFallbackPath
    ensures p.fallbackPath.Some? ==> path == p.fallbackPath.value
  {
    if p.fallbackPath.Some? then p.fallbackPath.value else DefaultFallbackPath
  }

  /** The first redirect condition: the route needs a session it lacks. */
  predicate MissingSession(requireAuth: bool, isAuthenticated: bool)
  {
    requireAuth && !isAuthenticated
  }

  /** The second redirect condition: a guest-only route seen by a signed-in
      user anywhere but on the fallback path itself. */
  predicate UnwantedSession(requireAuth: bool, isAuthenticated: bool, fallback: string, pathname: string)
  {
    !requireAuth && isAuthenticated && pathname != fallback
  }

  /** The `router.push` calls one run of the effect issues, in order. */
  function Navigations(isLoading: bool, isAuthenticated: bool, p: Props, pathname: string): (pushes: seq<string>)
    ensures isLoading ==> pushes == []
    ensures |pushes| <= 1
  {
    var requireAuth := RequireAuth(p);
    var fallback := FallbackPath(p);
    if isLoading then []
    else
      (if MissingSession(requireAuth, isAuthenticated) then [fallback] else [])
      + (if UnwantedSession(requireAuth, isAuthenticated, fallback, pathname) then [SignedInHome] else [])
  }

  /** The effect never navigates while loading and issues at most one push:
      the fallback path (as it is, without a callback parameter) when a
      session is missing, '/tasks' when an unwanted session is present. */
  lemma NavigationsSpec(isLoading: bool, isAuthenticated: bool, p: Props, pathname: string)
    ensures var pushes := Navigations(isLoading, isAuthenticated, p, pathname);
      && |pushes| <= 1
      && (isLoading ==> pushes == [])
      && (!isLoading && MissingSession(RequireAuth(p), isAuthenticated) ==> pushes == [FallbackPath(p)])
      && (!isLoading && UnwantedSession(RequireAuth(p), isAuthenticated, FallbackPath(p), pathname) ==>
            pushes == [SignedInHome])
      && (pushes != [] <==>
            !isLoading && (MissingSession(RequireAuth(p), isAuthenticated)
                           || UnwantedSession(RequireAuth(p), isAuthenticated, FallbackPath(p), pathname)))
  {
  }

  /** What the component returns. */
  function Render(isLoading: bool, isAuthenticated: bool, p: Props, pathname: string): (v: View)
    ensures v == LoadingView <==> isLoading
    ensures v == ChildrenView ==> !MissingSession(RequireAuth(p), isAuthenticated)
  {
    var requireAuth := RequireAuth(p);
    var fallback := FallbackPath(p);
    if isLoading then LoadingView
    else if MissingSession(requireAuth, isAuthenticated)
         || UnwantedSession(requireAuth, isAuthenticated, fallback, pathname) then NullView
    else ChildrenView
  }

  /** The render and the effect agree: the placeholder shows exactly while
      loading, and once loaded the children show exactly when no navigation
      is issued. */
  lemma RenderMatchesNavigations(isLoading: bool, isAuthenticated: bool, p: Props, pathname: string)
    ensures Render(isLoading, isAuthenticated, p, pathname) == LoadingView <==> isLoading
    ensures !isLoading ==>
      (Render(isLoading, isAuthenticated, p, pathname) == ChildrenView
       <==> Navigations(isLoading, isAuthenticated, p, pathname) == [])
  {
    NavigationsSpec(isLoading, isAuthenticated, p, pathname);
  }

  /** With the props left out, a loaded guest is sent to '/login' and sees
      nothing, and a signed-in user sees the children. */
  lemma DefaultProps(isAuthenticated: bool, pathname: string)
    ensures !isAuthenticated ==>
      && Navigations(false, isAuthenticated, Props(None, None), pathname) == ["/login"]
      && Render(false, isAuthenticated, Props(None, None), pathname) == NullView
    ensures isAuthenticated ==>
      && Navigations(false, isAuthenticated, Props(None, None), pathname) == []
      && Render(false, isAuthenticated, Props(None, None), pathname) == ChildrenView
  {
  }
}
