/** The user records of `src/types/user.ts` and the Better Auth client, the
    conversion between them, and the `useAuth` hook guard; the conversion and
    the guard are written identically in `src/contexts/AuthContext.tsx` and
    `src/components/AuthProvider.tsx`, so they are defined once here. */
module Users {

  import opened Wrappers
  import opened Text

  /** `User` of `src/types/user.ts` */
  datatype User = User(
    userId: string,
    email: string,
    username: string,
    createdAt: string,
    updatedAt: string,
    isActive: bool)

  /** The Better Auth client's user; `name` is optional. */
  datatype AuthUser = AuthUser(
    id: string,
    email: string,
    name: Option<string>,
    createdAt: string,
    updatedAt: string)

  /** The session object the Better Auth client returns: its user sits
      either at `user` or at `data.user` (None where absent or falsy). */
  datatype SessionData = SessionData(user: Option<AuthUser>, dataUser: Option<AuthUser>)

  /** JavaScript truthiness of an optional string. */
  predicate Truthy(s: Option<string>)
  {
    s.Some? && s.value != ""
  }

  /** `user?.user_id` is truthy. */
  predicate HasUserId(user: Option<User>)
  {
    user.Some? && user.value.userId != ""
  }

  /** `convertBetterAuthUserToUser` */
  function ConvertUser(u: AuthUser): (r: User)
    ensures r.userId == u.id && r.email == u.email && r.isActive
  {
    User(u.id, u.email, if Truthy(u.name) then u.name.value else EmailPrefix(u.email),
         u.createdAt, u.updatedAt, true)
  }

  /** A converted user keeps identity, e-mail and timestamps, is always
      active, and is named by `name` when that is non-empty, otherwise by the
      part of the e-mail before its first '@' (the whole e-mail when it has
      none), which then holds no '@'. */
  lemma ConvertUserSpec(u: AuthUser)
    ensures var r := ConvertUser(u);
      && r.userId == u.id && r.email == u.email
      && r.createdAt == u.createdAt && r.updatedAt == u.updatedAt
      && r.isActive
      && (Truthy(u.name) ==> r.username == u.name.value)
      && (!Truthy(u.name) ==>
            StartsWith(u.email, r.username) && '@' !in r.username
            && ('@' in u.email <==> |r.username| < |u.email|))
  {
  }

  const NoProviderMessage := "useAuth must be used within an AuthProvider"

  /** `useAuth`: the context value when a provider is mounted above the
      caller, otherwise the error `useAuth` throws. */
  function UseAuth<C>(context: Option<C>): (r: Outcome<C>)
    ensures context.Some? <==> r.Ok?
    ensures context.Some? ==> r.value == context.value
    ensures context.None? ==> r.thrown == ErrorValue(NoProviderMessage)
  {
    match context
    case Some(c) => Ok(c)
    case None => Fail(ErrorValue(NoProviderMessage))
  }
}
