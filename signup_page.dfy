/** The sign-up page of src/pages/SignUp.tsx: its schema and what a submit does. */
module SignUpPage {
  import opened Common
  import opened Types
  import opened Forms
  import Auth
  import SessionCodec
  import AuthContext

  datatype SignUpForm = SignUpForm(
    fullName: string,
    email: string,
    password: string,
    confirmPassword: string,
    schoolName: string,
    grade: Option<string>,
    role: string,
    agreedToTerms: bool)

  const PasswordsDiffer := "Passwords don't match"

  /** The field rules of `signupSchema`, one per field. */
  function FieldChecks(f: SignUpForm, isEmail: string -> bool): seq<Check> {
    [ Check("fullName", MinLength(f.fullName, 2), "Full name is required"),
      Check("email", isEmail(f.email), "Valid email is required"),
      Check("password", MinLength(f.password, 6), "Password must be at least 6 characters"),
      Check("schoolName", MinLength(f.schoolName, 2), "School name is required"),
      RoleCheck(f.role),
      Check("agreedToTerms", f.agreedToTerms, "You must agree to the terms") ]
  }

  /**
   * The errors of `signupSchema`: the field rules, plus the password match.
   * A failing length, email or terms rule leaves the object merely invalid,
   * so its password refinement still runs; a role outside the enum aborts
   * the object and the refinement is skipped.
   */
  function SignUpErrors(f: SignUpForm, isEmail: string -> bool): Errors {
    var fieldErrors := ErrorsOf(FieldChecks(f, isEmail));
    if IsFormRole(f.role) && f.password != f.confirmPassword then
      fieldErrors + map["confirmPassword" := PasswordsDiffer]
    else fieldErrors
  }

  /** Everything `signupSchema` demands. */
  predicate FieldsValid(f: SignUpForm, isEmail: string -> bool) {
    && MinLength(f.fullName, 2)
    && isEmail(f.email)
    && MinLength(f.password, 6)
    && MinLength(f.schoolName, 2)
    && IsFormRole(f.role)
    && f.agreedToTerms
  }

  /** Each rule puts its message on its own field exactly when it fails. */
  lemma EachFieldError(f: SignUpForm, isEmail: string -> bool)
    ensures var e := ErrorsOf(FieldChecks(f, isEmail));
      && ("fullName" in e <==> |f.fullName| < 2)
      && ("email" in e <==> !isEmail(f.email))
      && ("password" in e <==> |f.password| < 6)
      && ("schoolName" in e <==> |f.schoolName| < 2)
      && ("role" in e <==> !IsFormRole(f.role))
      && ("agreedToTerms" in e <==> !f.agreedToTerms)
      && ("fullName" in e ==> e["fullName"] == "Full name is required")
      && ("email" in e ==> e["email"] == "Valid email is required")
      && ("password" in e ==> e["password"] == "Password must be at least 6 characters")
      && ("schoolName" in e ==> e["schoolName"] == "School name is required")
      && ("role" in e ==> e["role"] == EnumMessage(f.role))
      && ("agreedToTerms" in e ==> e["agreedToTerms"] == "You must agree to the terms")
  {
    var checks := FieldChecks(f, isEmail);
    SignUpFieldsDistinct(f, isEmail);
    ErrorOfCheck(checks, 0);
    ErrorOfCheck(checks, 1);
    ErrorOfCheck(checks, 2);
    ErrorOfCheck(checks, 3);
    ErrorOfCheck(checks, 4);
    ErrorOfCheck(checks, 5);
  }

  /** The field rules never flag the confirmation, and pass together exactly when every field is valid. */
  lemma NoFieldErrors(f: SignUpForm, isEmail: string -> bool)
    ensures var e := ErrorsOf(FieldChecks(f, isEmail));
      && "confirmPassword" !in e
      && (e == map[] <==> FieldsValid(f, isEmail))
  {
    var checks := FieldChecks(f, isEmail);
    SignUpFieldsDistinct(f, isEmail);
    NoErrorsOf(checks);
    forall k | 0 <= k < |checks| ensures checks[k].field != "confirmPassword" {
      assert |checks[k].field| != |"confirmPassword"|;
    }
    if FieldsValid(f, isEmail) {
      forall k | 0 <= k < |checks| ensures checks[k].ok { }
    } else {
      assert !checks[0].ok || !checks[1].ok || !checks[2].ok || !checks[3].ok
        || !checks[4].ok || !checks[5].ok;
    }
  }

  /** The field errors: one per failing field rule, with that rule's message. */
  lemma FieldErrorsSpec(f: SignUpForm, isEmail: string -> bool)
    ensures var e := ErrorsOf(FieldChecks(f, isEmail));
      && ("fullName" in e <==> |f.fullName| < 2)
      && ("email" in e <==> !isEmail(f.email))
      && ("password" in e <==> |f.password| < 6)
      && ("schoolName" in e <==> |f.schoolName| < 2)
      && ("role" in e <==> !IsFormRole(f.role))
      && ("agreedToTerms" in e <==> !f.agreedToTerms)
      && "confirmPassword" !in e
      && ("fullName" in e ==> e["fullName"] == "Full name is required")
      && ("email" in e ==> e["email"] == "Valid email is required")
      && ("password" in e ==> e["password"] == "Password must be at least 6 characters")
      && ("schoolName" in e ==> e["schoolName"] == "School name is required")
      && ("role" in e ==> e["role"] == EnumMessage(f.role))
      && ("agreedToTerms" in e ==> e["agreedToTerms"] == "You must agree to the terms")
      && (e == map[] <==> FieldsValid(f, isEmail))
  {
    EachFieldError(f, isEmail);
    NoFieldErrors(f, isEmail);
  }

  /** The six rules guard six different fields. */
  lemma SignUpFieldsDistinct(f: SignUpForm, isEmail: string -> bool)
    ensures DistinctFields(FieldChecks(f, isEmail))
  {
    var checks := FieldChecks(f, isEmail);
    forall i, j | 0 <= i < j < |checks| ensures checks[i].field != checks[j].field {
      if i == 0 && j == 2 {
        assert checks[i].field[0] != checks[j].field[0];
      } else {
        assert |checks[i].field| != |checks[j].field|;
      }
    }
  }

  /** The form passes the whole schema, the password match included. */
  predicate Accepted(f: SignUpForm, isEmail: string -> bool) {
    FieldsValid(f, isEmail) && f.password == f.confirmPassword
  }

  /** Each rule of the schema, and that a form passes exactly when it meets them all and the passwords agree. */
  lemma SignUpErrorsSpec(f: SignUpForm, isEmail: string -> bool)
    ensures var e := SignUpErrors(f, isEmail);
      && ("fullName" in e <==> |f.fullName| < 2)
      && ("email" in e <==> !isEmail(f.email))
      && ("password" in e <==> |f.password| < 6)
      && ("schoolName" in e <==> |f.schoolName| < 2)
      && ("role" in e <==> !IsFormRole(f.role))
      && ("agreedToTerms" in e <==> !f.agreedToTerms)
      && ("confirmPassword" in e <==> IsFormRole(f.role) && f.password != f.confirmPassword)
      && ("confirmPassword" in e ==> e["confirmPassword"] == PasswordsDiffer)
      && ("fullName" in e ==> e["fullName"] == "Full name is required")
      && ("email" in e ==> e["email"] == "Valid email is required")
      && ("password" in e ==> e["password"] == "Password must be at least 6 characters")
      && ("schoolName" in e ==> e["schoolName"] == "School name is required")
      && ("role" in e ==> e["role"] == EnumMessage(f.role))
      && ("agreedToTerms" in e ==> e["agreedToTerms"] == "You must agree to the terms")
      && (e == map[] <==> Accepted(f, isEmail))
  {
    FieldErrorsSpec(f, isEmail);
  }

  /** The request `onSubmit` passes to `signUp`. */
  function Request(f: SignUpForm): (r: Auth.SignUpRequest)
    requires IsFormRole(f.role)
    ensures r.role != Admin && RoleName(r.role) == f.role
    ensures r.email == f.email && r.password == f.password && r.fullName == f.fullName
    ensures r.schoolName == f.schoolName && r.grade == f.grade
  {
    Auth.SignUpRequest(f.fullName, f.email, f.password, f.schoolName, f.grade, FormRole(f.role))
  }

  /** The page: the resolver's errors, the banner error, and where the page navigated to. */
  class SignUp {
    const auth: AuthContext.AuthProvider
    var errors: Errors
    var signupError: string
    var navigatedTo: Option<string>

    constructor (auth: AuthContext.AuthProvider)
      ensures this.auth == auth
      ensures errors == map[] && signupError == "" && navigatedTo == None
    {
      this.auth := auth;
      errors := map[];
      signupError := "";
      navigatedTo := None;
    }

    /**
     * `handleSubmit(onSubmit)`: an invalid form only shows its errors; a
     * valid one clears the banner and signs up, then either refreshes the
     * context user and goes to /profile or shows the store's error.
     */
    method Submit(f: SignUpForm, isEmail: string -> bool, id: string, createdAt: string, token: string, hashFails: bool)
      requires auth.store.Valid()
      modifies this, auth, auth.store
      ensures auth.store.Valid()
      ensures errors == SignUpErrors(f, isEmail)
      ensures errors == map[] <==> Accepted(f, isEmail)
      ensures !Accepted(f, isEmail) ==>
        && signupError == old(signupError) && navigatedTo == old(navigatedTo)
        && unchanged(auth) && unchanged(auth.store)
      ensures Accepted(f, isEmail) ==>
        var known := Auth.FindByEmail(old(auth.store.users), f.email).Some?;
        var created := User(id, f.email, f.fullName, f.schoolName, f.grade, FormRole(f.role), createdAt);
        && auth.store.registrations == old(auth.store.registrations)
        && (known ==>
              && signupError == Auth.DuplicateEmail && navigatedTo == old(navigatedTo)
              && auth.store.users == old(auth.store.users) && unchanged(auth)
              && auth.store.cookies == old(auth.store.cookies))
        && (!known && hashFails ==>
              && signupError == Auth.RegistrationFailed && navigatedTo == old(navigatedTo)
              && auth.store.users == old(auth.store.users) && unchanged(auth)
              && auth.store.cookies == old(auth.store.cookies))
        && (!known && !hashFails ==>
              && signupError == "" && navigatedTo == Some("/profile")
              && auth.store.users == old(auth.store.users) + [created]
              && auth.store.cookies == old(auth.store.cookies)[Auth.AuthTokenKey := token]
                   [Auth.UserDataKey := SessionCodec.Encode(created)]
              && auth.user == Some(created) && auth.loading == old(auth.loading))
    {
      SignUpErrorsSpec(f, isEmail);
      errors := SignUpErrors(f, isEmail);
      if !Accepted(f, isEmail) {
        return;
      }
      signupError := "";
      var result := auth.store.SignUp(Request(f), id, createdAt, token, hashFails);
      if result.Success? {
        auth.RefreshUser();
        navigatedTo := Some("/profile");
      } else {
        signupError := OrElse(result.error, Auth.RegistrationFailed);
      }
    }
  }
}
