/** The older session store of `src/components/AuthProvider.tsx`, built on
    the Better Auth client: `refreshUser` reads the client's session first
    and falls back to the API's current user; `login` and `register` map the
    client's error messages to friendlier text. */
module LegacyAuthProvider {

  import opened Wrappers
  import opened Text
  import opened Users
  import Browser
  import ApiClient

  /** What `getSession()` produced: it threw, resolved with a falsy value or
      a non-object, or resolved with a session object. */
  datatype SessionReply =
    | SessionThrew(thrown: Thrown)
    | FalsySession
    | NonObjectSession
    | SessionObject(data: SessionData)

  /** The `error` of a Better Auth reply: its `message` ("" when absent or
      empty) and what its `toString()` gives. */
  datatype AuthFailure = AuthFailure(message: string, text: string)

  /** What `signIn.email` / `signUp.email` resolved with: a falsy value, or
      a reply whose `error` is falsy (None) or set. */
  datatype AuthReply = NoReply | Reply(error: Option<AuthFailure>)

  /** The parts of the `signIn.email` request the model tracks. */
  datatype SignInRequest = SignInRequest(email: string, password: string, rememberMe: bool, callbackURL: string)

  /** The `signUp.email` request. */
  datatype SignUpRequest = SignUpRequest(email: string, password: string, name: string)

  const InvalidCredentialsText := "Invalid email or password"
  const LoginRateLimitText := "Too many login attempts. Please try again later."
  const UserExistsText := "A user with this email already exists"
  const RegisterRateLimitText := "Too many registration attempts. Please try again later."
  const DefaultCallbackURL := "/dashboard"

  /** `sessionData.user || sessionData.data?.user` */
  function SessionUser(d: SessionData): (u: Option<AuthUser>)
    ensures d.user.Some? ==> u == d.user
    ensures d.user.None? ==> u == d.dataUser
  {
    if d.user.Some? then d.user else d.dataUser
  }

  /** `error.message || error.toString()` */
  function FailureText(e: AuthFailure): string
  {
    if e.message != "" then e.message else e.text
  }

  /** The message `login` throws for a sign-in error message. */
  function LoginErrorText(msg: string): (t: string)
    ensures t != ""
    ensures t != msg ==> t in {InvalidCredentialsText, LoginRateLimitText, "Login failed"}
  {
    if Contains(msg, "Invalid credentials") || Contains(msg, "invalid") then InvalidCredentialsText
    else if Contains(msg, "Too many requests") then LoginRateLimitText
    else if msg != "" then msg
    else "Login failed"
  }

  /** The credential test wins over the rate-limit test; a message matching
      neither passes through, and an empty one becomes 'Login failed'. */
  lemma LoginErrorTextCases(msg: string)
    ensures Contains(msg, "Invalid credentials") || Contains(msg, "invalid") ==>
      LoginErrorText(msg) == InvalidCredentialsText
    ensures !(Contains(msg, "Invalid credentials") || Contains(msg, "invalid")) && Contains(msg, "Too many requests") ==>
      LoginErrorText(msg) == LoginRateLimitText
    ensures !(Contains(msg, "Invalid credentials") || Contains(msg, "invalid") || Contains(msg, "Too many requests")) ==>
      LoginErrorText(msg) == (if msg == "" then "Login failed" else msg)
    ensures LoginErrorText(msg) != ""
  {
  }

  /** The message `register` throws for a sign-up error message. */
  function RegisterErrorText(msg: string): (t: string)
    ensures t != ""
    ensures t != msg ==> t in {UserExistsText, RegisterRateLimitText, "Registration failed"}
  {
    if Contains(msg, "User already exists") || Contains(msg, "already") then UserExistsText
    else if Contains(msg, "Too many requests") then RegisterRateLimitText
    else if msg != "" then msg
    else "Registration failed"
  }

  /** The test for 'User already exists' adds nothing: any message holding
      it holds 'already', so whether the duplicate-account text is chosen
      depends on 'already' alone. */
  lemma RegisterErrorTextOnlyAlready(msg: string)
    ensures Contains(msg, "User already exists") ==> Contains(msg, "already")
    ensures Contains(msg, "already") ==> RegisterErrorText(msg) == UserExistsText
    ensures !Contains(msg, "already") ==>
      RegisterErrorText(msg) == (if Contains(msg, "Too many requests") then RegisterRateLimitText
                                 else if msg != "" then msg else "Registration failed")
  {
    if Contains(msg, "User already exists") {
      ContainsAt("User already exists", "already", 5);
      ContainsTransitive(msg, "User already exists", "already");
    }
  }

  /** What `login`/`register` throw for a resolved reply that is not a
      success, or None when the reply is a success. */
  function ReplyFailure(reply: AuthReply, mapping: string -> string, noReply: string): (t: Option<Thrown>)
    ensures t.None? <==> reply.Reply? && reply.error.None?
    ensures reply.NoReply? ==> t == Some(ErrorValue(noReply))
    ensures reply.Reply? && reply.error.Some? ==> t == Some(ErrorValue(mapping(FailureText(reply.error.value))))
  {
    match reply
    case NoReply => Some(ErrorValue(noReply))
    case Reply(e) => if e.None? then None else Some(ErrorValue(mapping(FailureText(e.value))))
  }

  /** The part of the store's state a refresh decides. */
  datatype SessionState = SessionState(user: Option<User>, session: Option<SessionData>,
                                       isAuthenticated: bool, error: Option<string>)

  /** The state `refreshUser` ends in, from the session held before
      (`prior`), what `getSession()` produced and the API's current user. A
      session user signs in with that session; without one the API's user
      signs in, keeping the prior session; every other outcome signs out,
      with the thrown message as the error when the session call threw. */
  function Refreshed(prior: Option<SessionData>, reply: SessionReply, me: Outcome<Option<User>>): (r: SessionState)
    ensures r.user.Some? ==> r.isAuthenticated
    ensures r.isAuthenticated <==> reply.SessionObject? && (SessionUser(reply.data).Some? || me.Ok?)
    ensures reply.SessionObject? && SessionUser(reply.data).Some? ==>
      r == SessionState(Some(ConvertUser(SessionUser(reply.data).value)), Some(reply.data), true, None)
    ensures reply.SessionObject? && SessionUser(reply.data).None? && me.Ok? ==>
      r == SessionState(me.value, prior, true, None)
    ensures !r.isAuthenticated ==> r.user == None && r.session == None
    ensures r.error.Some? <==> reply.SessionThrew?
    ensures reply.SessionThrew? ==> r.error == Some(MessageOr(reply.thrown, "An unknown error occurred"))
  {
    match reply
    case SessionObject(d) =>
      if SessionUser(d).Some? then SessionState(Some(ConvertUser(SessionUser(d).value)), Some(d), true, None)
      else if me.Ok? then SessionState(me.value, prior, true, None)
      else SessionState(None, None, false, None)
    case FalsySession => SessionState(None, None, false, None)
    case NonObjectSession => SessionState(None, None, false, None)
    case SessionThrew(t) => SessionState(None, None, false, Some(MessageOr(t, "An unknown error occurred")))
  }

  class LegacyAuthStore {
    var user: Option<User>
    var session: Option<SessionData>
    var isAuthenticated: bool
    var isLoading: bool
    var error: Option<string>
    const storage: Browser.LocalStorage

    /** A held user implies the authenticated flag (the converse fails: the
        API fallback can authenticate with a null user). */
    ghost predicate Valid()
      reads this
    {
      user.Some? ==> isAuthenticated
    }

    /** The fields a refresh decides, as one value. */
    function State(): SessionState
      reads this
    {
      SessionState(user, session, isAuthenticated, error)
    }

    constructor (storage: Browser.LocalStorage)
      ensures Valid() && this.storage == storage
      ensures user == None && session == None && !isAuthenticated && isLoading && error == None
    {
      user := None;
      session := None;
      isAuthenticated := false;
      isLoading := true;
      error := None;
      this.storage := storage;
    }

    /** `refreshUser`: the Better Auth session first, then the API's current
        user; never throws and never touches the stored token. */
    method RefreshUser(reply: SessionReply, me: Outcome<Option<User>>)
      modifies this
      ensures Valid() && !isLoading
      ensures State() == Refreshed(old(session), reply, me)
    {
      isLoading := true;
      error := None;
      match reply {
        case SessionObject(d) =>
          var found := SessionUser(d);
          if found.Some? {
            user := Some(ConvertUser(found.value));
            session := Some(d);
            isAuthenticated := true;
          } else {
            match me {
              case Ok(apiUser) =>
                user := apiUser;
                isAuthenticated := true;
              case Fail(_) =>
                user := None;
                session := None;
                isAuthenticated := false;
            }
          }
        case FalsySession =>
          user := None;
          session := None;
          isAuthenticated := false;
        case NonObjectSession =>
          user := None;
          session := None;
          isAuthenticated := false;
        case SessionThrew(t) =>
          error := Some(MessageOr(t, "An unknown error occurred"));
          user := None;
          session := None;
          isAuthenticated := false;
      }
      isLoading := false;
    }

    /** The shared body of `login` and `register`: refresh on a successful
        reply, otherwise record and rethrow what was thrown. */
    method AcceptReply(reply: Outcome<AuthReply>, mapping: string -> string, noReply: string, fallback: string,
                       sessionAfter: SessionReply, me: Outcome<Option<User>>)
      returns (rethrown: Option<Thrown>)
      requires Valid()
      modifies this
      ensures Valid() && !isLoading
      ensures reply.Fail? ==> rethrown == Some(reply.thrown)
      ensures reply.Ok? ==> rethrown == ReplyFailure(reply.value, mapping, noReply)
      ensures rethrown.Some? ==>
        && error == Some(MessageOr(rethrown.value, fallback))
        && user == old(user) && session == old(session) && isAuthenticated == old(isAuthenticated)
      ensures rethrown.None? ==> State() == Refreshed(old(session), sessionAfter, me)
    {
      isLoading := true;
      error := None;
      rethrown := None;
      match reply {
        case Ok(r) =>
          rethrown := ReplyFailure(r, mapping, noReply);
          if rethrown.None? {
            RefreshUser(sessionAfter, me);
          }
        case Fail(t) =>
          rethrown := Some(t);
      }
      if rethrown.Some? {
        error := Some(MessageOr(rethrown.value, fallback));
      }
      isLoading := false;
    }

    /** `login`: signs in through Better Auth with `rememberMe` and the
        callback URL (default '/dashboard'), then refreshes. */
    method Login(email: string, password: string, callbackURL: Option<string>,
                 reply: Outcome<AuthReply>, sessionAfter: SessionReply, me: Outcome<Option<User>>)
      returns (sent: SignInRequest, rethrown: Option<Thrown>)
      requires Valid()
      modifies this
      ensures Valid() && !isLoading
      ensures sent == SignInRequest(email, password, true,
                                    if Truthy(callbackURL) then callbackURL.value else DefaultCallbackURL)
      ensures reply.Fail? ==> rethrown == Some(reply.thrown)
      ensures reply.Ok? ==> rethrown == ReplyFailure(reply.value, LoginErrorText, "Login failed - no response returned")
      ensures rethrown.Some? ==>
        && error == Some(MessageOr(rethrown.value, "Login failed"))
        && user == old(user) && session == old(session) && isAuthenticated == old(isAuthenticated)
      ensures rethrown.None? ==> State() == Refreshed(old(session), sessionAfter, me)
    {
      sent := SignInRequest(email, password, true,
                            if Truthy(callbackURL) then callbackURL.value else DefaultCallbackURL);
      rethrown := AcceptReply(reply, LoginErrorText, "Login failed - no response returned", "Login failed",
                              sessionAfter, me);
    }

    /** `register`: signs up through Better Auth with `name`, or the e-mail
        prefix as it is (not lower-cased), then refreshes. */
    method Register(email: string, password: string, name: Option<string>,
                    reply: Outcome<AuthReply>, sessionAfter: SessionReply, me: Outcome<Option<User>>)
      returns (sent: SignUpRequest, rethrown: Option<Thrown>)
      requires Valid()
      modifies this
      ensures Valid() && !isLoading
      ensures sent == SignUpRequest(email, password, if Truthy(name) then name.value else EmailPrefix(email))
      ensures reply.Fail? ==> rethrown == Some(reply.thrown)
      ensures reply.Ok? ==>
        rethrown == ReplyFailure(reply.value, RegisterErrorText, "Registration failed - no response returned")
      ensures rethrown.Some? ==>
        && error == Some(MessageOr(rethrown.value, "Registration failed"))
        && user == old(user) && session == old(session) && isAuthenticated == old(isAuthenticated)
      ensures rethrown.None? ==> State() == Refreshed(old(session), sessionAfter, me)
    {
      sent := SignUpRequest(email, password, if Truthy(name) then name.value else EmailPrefix(email));
      rethrown := AcceptReply(reply, RegisterErrorText, "Registration failed - no response returned",
                              "Registration failed", sessionAfter, me);
    }

    /** `logout`: always ends signed out; the stored token is removed only
        when the remote sign-out resolved. */
    method Logout(signOut: Outcome<()>)
      modifies this, storage
      ensures Valid() && !isLoading
      ensures user == None && session == None && !isAuthenticated
      ensures signOut.Ok? ==> storage.items == old(storage.items) - {Browser.AuthTokenKey} && error == None
      ensures signOut.Fail? ==>
        storage.items == old(storage.items) && error == Some(MessageOr(signOut.thrown, "Logout failed"))
    {
      isLoading := true;
      error := None;
      match signOut {
        case Ok(_) =>
          ApiClient.AuthLogout(storage);
          user := None;
          session := None;
          isAuthenticated := false;
        case Fail(t) =>
          error := Some(MessageOr(t, "Logout failed"));
          user := None;
          session := None;
          isAuthenticated := false;
      }
      isLoading := false;
    }
  }
}
