/** The session store of `src/contexts/AuthContext.tsx`, the provider the
    application mounts. Its state is the five React state fields; the
    stored bearer token lives in the shared `localStorage`. Each remote call
    (`getCurrentUser`, `login`, `register`, `signOut`) is an input: the
    value it resolved with, or what it threw. */
module AuthContext {

  import opened Wrappers
  import opened Text
  import opened Users
  import Browser
  import ApiClient

  /** The reply of the login and register endpoints: a token under `token`
      or under `access_token` (None where absent). */
  datatype TokenReply = TokenReply(token: Option<string>, accessToken: Option<string>)

  /** The body `login` posts. */
  datatype LoginRequest = LoginRequest(email: string, password: string)

  /** The body `register` posts. */
  datatype RegisterRequest = RegisterRequest(email: string, password: string, username: string)

  const LoginNoTokenMessage := "Login failed - no token returned"
  const RegisterNoTokenMessage := "Registration failed - no token returned"

  /** `response.token || response.access_token`, kept only when truthy. */
  function ReplyToken(r: TokenReply): (t: Option<string>)
    ensures t.Some? <==> Truthy(r.token) || Truthy(r.accessToken)
    ensures t.Some? ==> t.value != ""
    ensures Truthy(r.token) ==> t == r.token
    ensures !Truthy(r.token) && Truthy(r.accessToken) ==> t == r.accessToken
  {
    if Truthy(r.token) then r.token else if Truthy(r.accessToken) then r.accessToken else None
  }

  /** `.replace(/\s+/g, '_').toLowerCase()` */
  function NormalizeUsername(s: string): (r: string)
    ensures NoSpace(r)
    ensures forall i :: 0 <= i < |r| ==> !IsUpper(r[i])
  {
    ToLower(CollapseSpaces(s))
  }

  /** The username `register` derives from `name`, or else from the e-mail
      prefix. */
  function RegisterUsername(email: string, name: Option<string>): string
  {
    NormalizeUsername(if Truthy(name) then name.value else EmailPrefix(email))
  }

  /** A normalised username holds no white space and no upper-case letter,
      is no longer than its source, and is its source lower-cased when the
      source has no white space. */
  lemma NormalizeUsernameSpec(s: string)
    ensures var r := NormalizeUsername(s);
      && NoSpace(r)
      && (forall i :: 0 <= i < |r| ==> !IsUpper(r[i]))
      && |r| <= |s|
      && (NoSpace(s) ==> r == ToLower(s))
  {
    if NoSpace(s) {
      CollapseSpacesNoSpace(s);
    }
  }

  /** A stretch without white space is kept in order, lower-cased. */
  lemma NormalizeUsernameWord(x: string, y: string)
    requires NoSpace(x)
    ensures NormalizeUsername(x + y) == ToLower(x) + NormalizeUsername(y)
  {
    CollapseSpacesKeepsWord(x, y);
    ToLowerAppend(x, CollapseSpaces(y));
  }

  /** Each maximal run of white space becomes one '_', and the empty text
      stays empty; with `NormalizeUsernameWord` this determines every
      username. */
  lemma NormalizeUsernameRun(w: string, y: string)
    requires w != [] && forall i :: 0 <= i < |w| ==> IsSpace(w[i])
    requires y == [] || !IsSpace(y[0])
    ensures NormalizeUsername(w + y) == "_" + NormalizeUsername(y)
    ensures NormalizeUsername("") == ""
  {
    CollapseSpacesRun(w, y);
    ToLowerAppend("_", CollapseSpaces(y));
  }

  /** Normalising a normalised username changes nothing. */
  lemma NormalizeUsernameIdempotent(s: string)
    ensures NormalizeUsername(NormalizeUsername(s)) == NormalizeUsername(s)
  {
    var r := NormalizeUsername(s);
    NormalizeUsernameSpec(s);
    CollapseSpacesNoSpace(r);
  }

  /** The user `refreshUser` ends with: the current user when the call
      resolved with a truthy one, otherwise none. */
  function RefreshedUser(me: Outcome<Option<User>>): (u: Option<User>)
    ensures u.Some? <==> me.Ok? && me.value.Some?
    ensures u.Some? ==> u == me.value
  {
    if me.Ok? then me.value else None
  }

  class AuthStore {
    var user: Option<User>
    var session: Option<SessionData>
    var isAuthenticated: bool
    var isLoading: bool
    var error: Option<string>
    const storage: Browser.LocalStorage

    /** This provider never stores a session, and it is authenticated exactly
        when it holds a user. */
    ghost predicate Valid()
      reads this
    {
      session == None && (isAuthenticated <==> user.Some?)
    }

    /** The initial state: loading, nobody signed in. */
    constructor (storage: Browser.LocalStorage)
      ensures Valid() && this.storage == storage
      ensures user == None && !isAuthenticated && isLoading && error == None
    {
      user := None;
      session := None;
      isAuthenticated := false;
      isLoading := true;
      error := None;
      this.storage := storage;
    }

    /** `refreshUser`: never throws and never touches the stored token. */
    method RefreshUser(me: Outcome<Option<User>>)
      requires Valid()
      modifies this
      ensures Valid()
      ensures user == RefreshedUser(me) && isAuthenticated == user.Some?
      ensures !isLoading && error == None
    {
      isLoading := true;
      error := None;
      match me {
        case Ok(apiUser) =>
          if apiUser.Some? {
            user := apiUser;
            isAuthenticated := true;
          } else {
            user := None;
            session := None;
            isAuthenticated := false;
          }
        case Fail(_) =>
          user := None;
          session := None;
          isAuthenticated := false;
      }
      isLoading := false;
    }

    /** The shared tail of `login` and `register`: store a truthy token and
        refresh, or throw `noTokenMessage`; record and rethrow any error. */
    method AcceptToken(reply: Outcome<TokenReply>, me: Outcome<Option<User>>,
                       noTokenMessage: string, fallback: string)
      returns (rethrown: Option<Thrown>)
      requires Valid()
      modifies this, storage
      ensures Valid() && !isLoading
      ensures reply.Ok? && ReplyToken(reply.value).Some? ==>
        && rethrown == None
        && storage.items == old(storage.items)[Browser.AuthTokenKey := ReplyToken(reply.value).value]
        && user == RefreshedUser(me) && error == None
      ensures reply.Ok? && ReplyToken(reply.value).None? ==>
        rethrown == Some(ErrorValue(noTokenMessage)) && error == Some(noTokenMessage)
      ensures reply.Fail? ==>
        rethrown == Some(reply.thrown) && error == Some(MessageOr(reply.thrown, fallback))
      ensures rethrown.Some? ==>
        storage.items == old(storage.items) && user == old(user) && isAuthenticated == old(isAuthenticated)
    {
      isLoading := true;
      error := None;
      rethrown := None;
      match reply {
        case Ok(r) =>
          var token := ReplyToken(r);
          if token.Some? {
            storage.SetItem(Browser.AuthTokenKey, token.value);
            RefreshUser(me);
          } else {
            rethrown := Some(ErrorValue(noTokenMessage));
          }
        case Fail(t) =>
          rethrown := Some(t);
      }
      if rethrown.Some? {
        error := Some(MessageOr(rethrown.value, fallback));
      }
      isLoading := false;
    }

    /** `login`: the credentials are posted, the reply's token stored, and
        the user refreshed. */
    method Login(email: string, password: string, reply: Outcome<TokenReply>, me: Outcome<Option<User>>)
      returns (sent: LoginRequest, rethrown: Option<Thrown>)
      requires Valid()
      modifies this, storage
      ensures sent == LoginRequest(email, password)
      ensures Valid() && !isLoading
      ensures reply.Ok? && ReplyToken(reply.value).Some? ==>
        && rethrown == None
        && storage.items == old(storage.items)[Browser.AuthTokenKey := ReplyToken(reply.value).value]
        && user == RefreshedUser(me) && error == None
      ensures reply.Ok? && ReplyToken(reply.value).None? ==>
        rethrown == Some(ErrorValue(LoginNoTokenMessage)) && error == Some(LoginNoTokenMessage)
      ensures reply.Fail? ==>
        rethrown == Some(reply.thrown) && error == Some(MessageOr(reply.thrown, "Login failed"))
      ensures rethrown.Some? ==>
        storage.items == old(storage.items) && user == old(user) && isAuthenticated == old(isAuthenticated)
    {
      sent := LoginRequest(email, password);
      rethrown := AcceptToken(reply, me, LoginNoTokenMessage, "Login failed");
    }

    /** `register`: the username is derived before the request is sent;
        then as `login`. */
    method Register(email: string, password: string, name: Option<string>,
                    reply: Outcome<TokenReply>, me: Outcome<Option<User>>)
      returns (sent: RegisterRequest, rethrown: Option<Thrown>)
      requires Valid()
      modifies this, storage
      ensures sent == RegisterRequest(email, password, RegisterUsername(email, name))
      ensures Valid() && !isLoading
      ensures reply.Ok? && ReplyToken(reply.value).Some? ==>
        && rethrown == None
        && storage.items == old(storage.items)[Browser.AuthTokenKey := ReplyToken(reply.value).value]
        && user == RefreshedUser(me) && error == None
      ensures reply.Ok? && ReplyToken(reply.value).None? ==>
        rethrown == Some(ErrorValue(RegisterNoTokenMessage)) && error == Some(RegisterNoTokenMessage)
      ensures reply.Fail? ==>
        rethrown == Some(reply.thrown) && error == Some(MessageOr(reply.thrown, "Registration failed"))
      ensures rethrown.Some? ==>
        storage.items == old(storage.items) && user == old(user) && isAuthenticated == old(isAuthenticated)
    {
      sent := RegisterRequest(email, password, RegisterUsername(email, name));
      rethrown := AcceptToken(reply, me, RegisterNoTokenMessage, "Registration failed");
    }

    /** `logout`: always ends signed out; the stored token is removed only
        when the remote sign-out resolved. */
    method Logout(signOut: Outcome<()>)
      requires Valid()
      modifies this, storage
      ensures Valid() && !isLoading
      ensures user == None && session == None && !isAuthenticated
      ensures signOut.Ok? ==> storage.items == old(storage.items) - {Browser.AuthTokenKey} && error == None
      ensures signOut.Fail? ==>
        storage.items == old(storage.items) && error == Some(MessageOr(signOut.thrown, "Logout failed"))
    {
      isLoading := true;
      error := None;
      match signOut {
        case Ok(_) =>
          ApiClient.AuthLogout(storage);
          user := None;
          session := None;
          isAuthenticated := false;
        case Fail(t) =>
          error := Some(MessageOr(t, "Logout failed"));
          user := None;
          session := None;
          isAuthenticated := false;
      }
      isLoading := false;
    }
  }
}
