/** The sign-out page of `src/app/logout/page.tsx`: its effect signs the
    user out through the session store when signed in, then navigates to
    the sign-in page and refreshes the route. */
module LogoutPage {

  import opened Wrappers
  import AuthContext
  import Browser

  const LoginPath := "/login"

  /** The observable steps of the effect: the awaited `logout()`, then
      `router.push` and `router.refresh`. */
  datatype Effect = CallLogout | Push(path: string) | Refresh

  /** The steps one run of `handleLogout` takes. */
  function Effects(isAuthenticated: bool): (effects: seq<Effect>)
    ensures CallLogout in effects <==> isAuthenticated
    ensures |effects| >= 2 && effects[|effects| - 2..] == [Push(LoginPath), Refresh]
    ensures |effects| == if isAuthenticated then 3 else 2
    ensures isAuthenticated ==> effects[0] == CallLogout
  {
    (if isAuthenticated then [CallLogout] else []) + [Push(LoginPath), Refresh]
  }

  /** `handleLogout` against the live session store: `logout` runs, and
      completes, exactly when the store is signed in; the store is then
      signed out, and the token leaves storage exactly when the remote
      sign-out resolved. */
  method HandleLogout(store: AuthContext.AuthStore, signOut: Outcome<()>) returns (effects: seq<Effect>)
    requires store.Valid()
    modifies store, store.storage
    ensures effects == Effects(old(store.isAuthenticated))
    ensures store.Valid() && !store.isAuthenticated
    ensures !old(store.isAuthenticated) ==> unchanged(store) && unchanged(store.storage)
    ensures old(store.isAuthenticated) ==>
      && store.user == None && store.session == None && !store.isLoading
      && (signOut.Ok? ==> store.storage.items == old(store.storage.items) - {Browser.AuthTokenKey} && store.error == None)
      && (signOut.Fail? ==>
            store.storage.items == old(store.storage.items) && store.error == Some(MessageOr(signOut.thrown, "Logout failed")))
  {
    effects := [];
    if store.isAuthenticated {
      store.Logout(signOut);
      effects := effects + [CallLogout];
    }
    effects := effects + [Push(LoginPath), Refresh];
  }
}
