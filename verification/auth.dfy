/**
 * The sign-in and sign-up screen of `src/components/Auth.jsx`. Each form's
 * submit handler is split at its awaits: the submit clears the form's
 * message and error and starts loading; the response then sets an error or
 * a success message, writes the session to storage after a successful
 * sign-in, and always ends loading.
 */
module Auth {
  import opened JsValues
  import opened BrowserStorage
  import App

  datatype LoginForm = LoginForm(email: string, password: string)

  datatype RegisterForm = RegisterForm(userName: string, email: string, password: string)

  const EmptyRegisterForm := RegisterForm("", "", "")

  const InvalidCredentials := "Invalid credentials."
  const LoginFailed := "Unable to login. Please try again."
  const LoginSucceeded := "Login successful!"
  const CouldNotCreate := "Could not create account."
  const AccountCreated := "Account created! You can now login."
  const RegisterFailed := "Something went wrong. Try again."

  /** The tab a path opens on: "register" exactly for "/register". */
  function InitialTab(path: string): (tab: string)
    ensures tab == "register" <==> path == "/register"
    ensures tab != "register" ==> tab == "login"
  {
    if path == "/register" then "register" else "login"
  }

  /** How the server's answer to a login or register call is read. */
  datatype Verdict =
    | Accepted
    /** A falsy `status`: the server's message, or the screen's fallback when it has none. */
    | Refused(error: JsVal)
    /** The call rejected, or its result was `null`/`undefined` so reading `status` threw. */
    | Threw

  /** `if (!result.status) setError(result.message || fallback)`, inside a `try`. */
  function Judge(outcome: ApiOutcome, fallback: string): (v: Verdict)
    ensures v.Threw? <==> outcome.Rejected? || Nullish(outcome.value)
    ensures v.Accepted? <==> outcome.Resolved? && !Nullish(outcome.value) && Truthy(Get(outcome.value, "status"))
    ensures v.Refused? ==> v.error == Or(Get(outcome.value, "message"), Str(fallback))
    ensures v.Refused? && fallback != "" ==> Truthy(v.error)
  {
    match outcome
    case Rejected => Threw
    case Resolved(result) =>
      match Member(result, "status")
      case None => Threw
      case Some(status) =>
        if Truthy(status) then Accepted else Refused(Or(Get(result, "message"), Str(fallback)))
  }

  /** A refusal without a message shows the fallback; a truthy message is shown as it is. */
  lemma RefusalMessage(m: map<string, JsVal>, fallback: string)
    requires "status" !in m || !Truthy(m["status"])
    ensures "message" in m && Truthy(m["message"]) ==> Judge(Resolved(Obj(m)), fallback) == Refused(m["message"])
    ensures !("message" in m && Truthy(m["message"])) ==> Judge(Resolved(Obj(m)), fallback) == Refused(Str(fallback))
  {
  }

  /** The user fetch after an accepted sign-in: its JSON text for storage, or a failure that throws. */
  datatype UserFetch = FetchFailed | Fetched(userJson: string)

  /** The storage after a complete sign-in: the user record and the email, nothing else. */
  function SessionItems(items: map<string, string>, userJson: string, email: string): (m: map<string, string>)
    ensures m.Keys == items.Keys + {"user", "email"}
    ensures m["user"] == userJson && m["email"] == email
    ensures forall k :: k in items && k != "user" && k != "email" ==> m[k] == items[k]
  {
    items["user" := userJson]["email" := email]
  }

  /**
   * After a complete sign-in the route guard sees a session, so the sign-in
   * paths redirect to the dashboard and the protected screens render.
   */
  lemma SignedInAfterLogin(items: map<string, string>, userJson: string, email: string)
    requires email != ""
    ensures App.IsLoggedIn(SessionItems(items, userJson, email))
    ensures App.Route("/", SessionItems(items, userJson, email)) == App.Redirect("/dashboard")
    ensures App.Route("/dashboard", SessionItems(items, userJson, email)) == App.Render(App.DashboardScreen)
  {
    App.LoggedInIff(SessionItems(items, userJson, email));
  }

  class AuthScreen {
    var activeTab: string
    var loginForm: LoginForm
    var registerForm: RegisterForm
    var loginMessage: string
    var loginError: JsVal
    var loginLoading: bool
    var registerMessage: string
    var registerError: JsVal
    var registerLoading: bool

    /** The first render at `path`: empty forms, no messages, nothing loading. */
    constructor (path: string)
      ensures activeTab == InitialTab(path)
      ensures loginForm == LoginForm("", "") && registerForm == EmptyRegisterForm
      ensures loginMessage == "" && loginError == Str("") && !loginLoading
      ensures registerMessage == "" && registerError == Str("") && !registerLoading
    {
      activeTab := InitialTab(path);
      loginForm, registerForm := LoginForm("", ""), EmptyRegisterForm;
      loginMessage, loginError, loginLoading := "", Str(""), false;
      registerMessage, registerError, registerLoading := "", Str(""), false;
    }

    /** "Sign In" tab: the login form shows and the router goes to "/". */
    method ShowLogin() returns (navigate: string)
      modifies this`activeTab
      ensures activeTab == "login" && navigate == "/"
    {
      activeTab := "login";
      navigate := "/";
    }

    /** "Sign Up" tab: the register form shows and the router goes to "/register". */
    method ShowRegister() returns (navigate: string)
      modifies this`activeTab
      ensures activeTab == "register" && navigate == "/register"
    {
      activeTab := "register";
      navigate := "/register";
    }

    /** An input of the login form. */
    method EditLogin(f: LoginForm)
      modifies this`loginForm
      ensures loginForm == f
    {
      loginForm := f;
    }

    /** An input of the register form. */
    method EditRegister(f: RegisterForm)
      modifies this`registerForm
      ensures registerForm == f
    {
      registerForm := f;
    }

    /**
     * `handleLogin` up to the call. Both inputs are `required`, so with an
     * empty one the browser does not submit and nothing changes; otherwise
     * the message and error are cleared, loading starts, and the form is
     * sent.
     */
    method SubmitLogin() returns (request: Option<LoginForm>)
      modifies this`loginMessage, this`loginError, this`loginLoading
      ensures (loginForm.email == "" || loginForm.password == "") ==>
        request == None && loginMessage == old(loginMessage) && loginError == old(loginError) && loginLoading == old(loginLoading)
      ensures loginForm.email != "" && loginForm.password != "" ==>
        request == Some(loginForm) && loginMessage == "" && loginError == Str("") && loginLoading
    {
      if loginForm.email == "" || loginForm.password == "" {
        return None;
      }
      loginError := Str("");
      loginMessage := "";
      loginLoading := true;
      request := Some(loginForm);
    }

    /**
     * `handleLogin` after its calls, for the form that was submitted: a
     * refusal shows the server's message or "Invalid credentials."; a throw,
     * including a failed user fetch, shows "Unable to login. Please try
     * again."; only an accepted sign-in whose user fetch succeeds writes
     * `user` and `email`, shows the success message and asks to go to the
     * dashboard after a delay. Loading ends on every path.
     */
    method LoginResponded(store: Storage, sent: LoginForm, outcome: ApiOutcome, fetch: UserFetch) returns (navigateLater: Option<string>)
      modifies this`loginMessage, this`loginError, this`loginLoading, store
      ensures !loginLoading
      ensures Judge(outcome, InvalidCredentials).Refused? ==>
        loginError == Judge(outcome, InvalidCredentials).error && loginMessage == old(loginMessage) &&
        store.items == old(store.items) && navigateLater == None
      ensures (Judge(outcome, InvalidCredentials).Threw? || (Judge(outcome, InvalidCredentials).Accepted? && fetch.FetchFailed?)) ==>
        loginError == Str(LoginFailed) && loginMessage == old(loginMessage) &&
        store.items == old(store.items) && navigateLater == None
      ensures Judge(outcome, InvalidCredentials).Accepted? && fetch.Fetched? ==>
        store.items == SessionItems(old(store.items), fetch.userJson, sent.email) &&
        loginMessage == LoginSucceeded && loginError == old(loginError) && navigateLater == Some("/dashboard")
    {
      navigateLater := None;
      match Judge(outcome, InvalidCredentials) {
        case Refused(error) =>
          loginError := error;
        case Threw =>
          loginError := Str(LoginFailed);
        case Accepted =>
          match fetch {
            case FetchFailed =>
              loginError := Str(LoginFailed);
            case Fetched(userJson) =>
              store.SetItem("user", userJson);
              store.SetItem("email", sent.email);
              loginMessage := LoginSucceeded;
              navigateLater := Some("/dashboard");
          }
      }
      loginLoading := false;
    }

    /**
     * `handleLogin` after its calls as the code stands: the gateway exports
     * no `getUser`, so the user fetch throws on every accepted sign-in. No
     * path writes the session or heads for the dashboard.
     */
    method LoginRespondedAsWritten(store: Storage, sent: LoginForm, outcome: ApiOutcome) returns (navigateLater: Option<string>)
      modifies this`loginMessage, this`loginError, this`loginLoading, store
      ensures store.items == old(store.items) && navigateLater == None
      ensures loginMessage == old(loginMessage) && !loginLoading
      ensures Judge(outcome, InvalidCredentials).Accepted? ==> loginError == Str(LoginFailed)
    {
      navigateLater := LoginResponded(store, sent, outcome, FetchFailed);
    }

    /**
     * `handleLogin` after its calls with a user fetch that answers, as the
     * sign-in is meant to work: an accepted sign-in of a submitted form
     * leaves a session the route guard sees, and the dashboard it heads for
     * renders.
     */
    method LoginRespondedCorrected(store: Storage, sent: LoginForm, outcome: ApiOutcome, userJson: string) returns (navigateLater: Option<string>)
      requires sent.email != ""
      modifies this`loginMessage, this`loginError, this`loginLoading, store
      ensures !loginLoading
      ensures Judge(outcome, InvalidCredentials).Accepted? ==>
        App.IsLoggedIn(store.items) && loginMessage == LoginSucceeded && navigateLater == Some("/dashboard") &&
        App.Route("/dashboard", store.items) == App.Render(App.DashboardScreen)
      ensures !Judge(outcome, InvalidCredentials).Accepted? ==> store.items == old(store.items) && navigateLater == None
    {
      ghost var before := store.items;
      navigateLater := LoginResponded(store, sent, outcome, Fetched(userJson));
      if Judge(outcome, InvalidCredentials).Accepted? {
        SignedInAfterLogin(before, userJson, sent.email);
      }
    }

    /**
     * `handleRegister` up to the call: with an empty `required` input the
     * browser does not submit; otherwise the message and error are cleared,
     * loading starts, and the form is sent.
     */
    method SubmitRegister() returns (request: Option<RegisterForm>)
      modifies this`registerMessage, this`registerError, this`registerLoading
      ensures (registerForm.userName == "" || registerForm.email == "" || registerForm.password == "") ==>
        request == None && registerMessage == old(registerMessage) && registerError == old(registerError) &&
        registerLoading == old(registerLoading)
      ensures registerForm.userName != "" && registerForm.email != "" && registerForm.password != "" ==>
        request == Some(registerForm) && registerMessage == "" && registerError == Str("") && registerLoading
    {
      if registerForm.userName == "" || registerForm.email == "" || registerForm.password == "" {
        return None;
      }
      registerError := Str("");
      registerMessage := "";
      registerLoading := true;
      request := Some(registerForm);
    }

    /**
     * `handleRegister` after its call: a refusal shows the server's message
     * or "Could not create account."; a throw shows "Something went wrong.
     * Try again."; an accepted registration shows the success message, empties
     * all three fields and asks to return to "/" after a delay. Storage is
     * never touched, and loading ends on every path.
     */
    method RegisterResponded(outcome: ApiOutcome) returns (navigateLater: Option<string>)
      modifies this`registerMessage, this`registerError, this`registerLoading, this`registerForm
      ensures !registerLoading
      ensures Judge(outcome, CouldNotCreate).Refused? ==>
        registerError == Judge(outcome, CouldNotCreate).error && registerMessage == old(registerMessage) &&
        registerForm == old(registerForm) && navigateLater == None
      ensures Judge(outcome, CouldNotCreate).Threw? ==>
        registerError == Str(RegisterFailed) && registerMessage == old(registerMessage) &&
        registerForm == old(registerForm) && navigateLater == None
      ensures Judge(outcome, CouldNotCreate).Accepted? ==>
        registerMessage == AccountCreated && registerForm == EmptyRegisterForm &&
        registerError == old(registerError) && navigateLater == Some("/")
    {
      navigateLater := None;
      match Judge(outcome, CouldNotCreate) {
        case Refused(error) =>
          registerError := error;
        case Threw =>
          registerError := Str(RegisterFailed);
        case Accepted =>
          registerMessage := AccountCreated;
          registerForm := EmptyRegisterForm;
          navigateLater := Some("/");
      }
      registerLoading := false;
    }

    /** The delayed step after a registration: back to the login tab. */
    method AfterRegisterDelay() returns (navigate: string)
      modifies this`activeTab
      ensures activeTab == "login" && navigate == "/"
    {
      activeTab := "login";
      navigate := "/";
    }
  }
}
