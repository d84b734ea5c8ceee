/** The combined sign-in / sign-up form of `src/components/LoginForm.tsx`,
    wired to the live session store of `src/contexts/AuthContext.tsx`. */
module LoginForm {

  import opened Wrappers
  import opened Text
  import AuthContext
  import Users
  import Browser

  const LoginCallbackURL := "/tasks"
  const FormErrorFallback := "An error occurred"

  /** The call `handleSubmit` makes on the session store, with the arguments
      it passes. */
  datatype Dispatch =
    | LoginCall(email: string, password: string, callbackURL: string)
    | RegisterCall(email: string, password: string, name: string)

  /** What the component renders: a notice for a signed-in user, or the form
      with its heading, submit label and mode-switch label. */
  datatype View = AlreadyLoggedIn | FormView(heading: string, submitLabel: string, switchLabel: string)

  /** The store call the form makes in the given mode. */
  function DispatchFor(isLogin: bool, email: string, password: string): (d: Dispatch)
    ensures d.LoginCall? <==> isLogin
    ensures d.email == email && d.password == password
    ensures d.LoginCall? ==> d.callbackURL == LoginCallbackURL
    ensures d.RegisterCall? ==> d.name == EmailPrefix(email) && StartsWith(email, d.name) && '@' !in d.name
  {
    if isLogin then LoginCall(email, password, LoginCallbackURL)
    else RegisterCall(email, password, EmailPrefix(email))
  }

  class Form {
    var email: string
    var password: string
    var isLogin: bool
    var error: Option<string>

    constructor ()
      ensures email == "" && password == "" && isLogin && error == None
    {
      email := "";
      password := "";
      isLogin := true;
      error := None;
    }

    /** The e-mail input's `onChange`. */
    method SetEmail(value: string)
      modifies this
      ensures email == value && password == old(password) && isLogin == old(isLogin) && error == old(error)
    {
      email := value;
    }

    /** The password input's `onChange`. */
    method SetPassword(value: string)
      modifies this
      ensures password == value && email == old(email) && isLogin == old(isLogin) && error == old(error)
    {
      password := value;
    }

    /** `handleSubmit`: clears the form error, calls `login` (the live store
        ignores the callback URL) or `register` with the e-mail prefix as
        name, and shows what a failing call threw. */
    method Submit(store: AuthContext.AuthStore, reply: Outcome<AuthContext.TokenReply>, me: Outcome<Option<Users.User>>)
      returns (dispatched: Dispatch)
      requires store.Valid()
      modifies this, store, store.storage
      ensures dispatched == DispatchFor(old(isLogin), old(email), old(password))
      ensures email == old(email) && password == old(password) && isLogin == old(isLogin)
      ensures store.Valid() && !store.isLoading
      ensures reply.Fail? ==> error == Some(MessageOr(reply.thrown, FormErrorFallback))
      ensures reply.Ok? && AuthContext.ReplyToken(reply.value).None? ==>
        error == Some(if isLogin then AuthContext.LoginNoTokenMessage else AuthContext.RegisterNoTokenMessage)
      ensures reply.Ok? && AuthContext.ReplyToken(reply.value).Some? ==>
        && error == None && store.error == None && store.user == AuthContext.RefreshedUser(me)
        && store.storage.items == old(store.storage.items)[Browser.AuthTokenKey := AuthContext.ReplyToken(reply.value).value]
      ensures !(reply.Ok? && AuthContext.ReplyToken(reply.value).Some?) ==>
        && store.storage.items == old(store.storage.items)
        && store.user == old(store.user) && store.isAuthenticated == old(store.isAuthenticated)
        && store.error == Some(if reply.Fail? then MessageOr(reply.thrown, if old(isLogin) then "Login failed" else "Registration failed")
                               else if old(isLogin) then AuthContext.LoginNoTokenMessage else AuthContext.RegisterNoTokenMessage)
    {
      error := None;
      dispatched := DispatchFor(isLogin, email, password);
      var rethrown: Option<Thrown>;
      if isLogin {
        var _, thrown := store.Login(email, password, reply, me);
        rethrown := thrown;
      } else {
        var _, thrown := store.Register(email, password, Some(dispatched.name), reply, me);
        rethrown := thrown;
      }
      if rethrown.Some? {
        error := Some(MessageOr(rethrown.value, FormErrorFallback));
      }
    }

    /** The mode switch: flips between sign-in and sign-up and clears the
        error; the typed credentials stay. */
    method Toggle()
      modifies this
      ensures isLogin == !old(isLogin) && error == None
      ensures email == old(email) && password == old(password)
    {
      isLogin := !isLogin;
      error := None;
    }

    /** What the component renders for the store's flags. */
    function Render(isAuthenticated: bool, isLoading: bool): (v: View)
      reads this
      ensures v.AlreadyLoggedIn? <==> isAuthenticated
      ensures v.FormView? ==> (v.heading == "Sign In" <==> isLogin)
      ensures v.FormView? && isLoading ==> v.submitLabel == "Processing..."
      ensures v.FormView? && !isLoading ==> v.submitLabel == v.heading
    {
      if isAuthenticated then AlreadyLoggedIn
      else
        var heading := if isLogin then "Sign In" else "Sign Up";
        FormView(heading, if isLoading then "Processing..." else heading,
                 if isLogin then "Need an account? Sign Up" else "Already have an account? Sign In")
    }
  }
}
