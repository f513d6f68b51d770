/** The login page of src/pages/Login.tsx: its schema and where a submit leads. */
module LoginPage {
  import opened Common
  import opened Types
  import opened Forms
  import Auth
  import SessionCodec
  import AuthContext

  datatype LoginForm = LoginForm(email: string, password: string)

  const LoginFailed := "Login failed"

  function LoginChecks(f: LoginForm, isEmail: string -> bool): seq<Check> {
    [ Check("email", isEmail(f.email), "Valid email is required"),
      Check("password", MinLength(f.password, 6), "Password must be at least 6 characters") ]
  }

  /** The errors of `loginSchema`. */
  function LoginErrors(f: LoginForm, isEmail: string -> bool): Errors {
    ErrorsOf(LoginChecks(f, isEmail))
  }

  predicate Accepted(f: LoginForm, isEmail: string -> bool) {
    isEmail(f.email) && |f.password| >= 6
  }

  /** Each rule with its message; the form passes exactly when the email has the right shape and the password six characters. */
  lemma LoginErrorsSpec(f: LoginForm, isEmail: string -> bool)
    ensures var e := LoginErrors(f, isEmail);
      && ("email" in e <==> !isEmail(f.email))
      && ("email" in e ==> e["email"] == "Valid email is required")
      && ("password" in e <==> |f.password| < 6)
      && ("password" in e ==> e["password"] == "Password must be at least 6 characters")
      && e.Keys <= {"email", "password"}
      && (e == map[] <==> Accepted(f, isEmail))
  {
    var checks := LoginChecks(f, isEmail);
    ErrorsOfSpec(checks);
    assert checks[0].field == "email" && checks[1].field == "password";
    assert Fields(checks) == {"email", "password"};
  }

  /** Where a signed-in user is sent: /admin for the admin role, /profile for everyone else. */
  function Landing(role: Role): (path: string)
    ensures path == "/admin" <==> role == Admin
    ensures path == "/profile" <==> role != Admin
  {
    if role == Admin then "/admin" else "/profile"
  }

  /** The page: the resolver's errors, the banner error, and where the page navigated to. */
  class Login {
    const auth: AuthContext.AuthProvider
    var errors: Errors
    var loginError: string
    var navigatedTo: Option<string>

    constructor (auth: AuthContext.AuthProvider)
      ensures this.auth == auth
      ensures errors == map[] && loginError == "" && navigatedTo == None
    {
      this.auth := auth;
      errors := map[];
      loginError := "";
      navigatedTo := None;
    }

    /**
     * `handleSubmit(onSubmit)`: an invalid form only shows its errors; a
     * valid one clears the banner and signs in. A known email signs in
     * whatever the password, refreshes the context user and lands by role;
     * an unknown one shows the store's error.
     */
    method Submit(f: LoginForm, isEmail: string -> bool, token: string)
      requires auth.store.Valid()
      modifies this, auth, auth.store
      ensures auth.store.Valid()
      ensures errors == LoginErrors(f, isEmail)
      ensures errors == map[] <==> Accepted(f, isEmail)
      ensures !Accepted(f, isEmail) ==>
        && loginError == old(loginError) && navigatedTo == old(navigatedTo)
        && unchanged(auth) && unchanged(auth.store)
      ensures auth.store.users == old(auth.store.users)
      ensures auth.store.registrations == old(auth.store.registrations)
      ensures Accepted(f, isEmail) ==>
        match Auth.FindByEmail(auth.store.users, f.email)
        case None =>
          && loginError == Auth.InvalidCredentials && navigatedTo == old(navigatedTo)
          && unchanged(auth) && auth.store.cookies == old(auth.store.cookies)
        case Some(i) =>
          && loginError == "" && navigatedTo == Some(Landing(auth.store.users[i].role))
          && auth.store.cookies == old(auth.store.cookies)[Auth.AuthTokenKey := token]
               [Auth.UserDataKey := SessionCodec.Encode(auth.store.users[i])]
          && auth.user == Some(auth.store.users[i]) && auth.loading == old(auth.loading)
    {
      LoginErrorsSpec(f, isEmail);
      errors := LoginErrors(f, isEmail);
      if !Accepted(f, isEmail) {
        return;
      }
      loginError := "";
      var result := auth.store.SignIn(f.email, f.password, token);
      if result.Success? {
        auth.RefreshUser();
        navigatedTo := Some(Landing(result.user.role));
      } else {
        loginError := OrElse(result.error, LoginFailed);
      }
    }
  }

  /** Any password of six or more characters passes the schema for a well-shaped email, so every known email can log in. */
  lemma AnyLongPasswordAccepted(email: string, password: string, isEmail: string -> bool)
    requires isEmail(email) && |password| >= 6
    ensures LoginErrors(LoginForm(email, password), isEmail) == map[]
  {
    LoginErrorsSpec(LoginForm(email, password), isEmail);
  }
}
