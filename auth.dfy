/**
 * The mock account store and cookie session of src/lib/auth.ts: the
 * module-level `users` and `registrations` arrays and the two cookies
 * `auth_token` and `user_data`. Ids, tokens and timestamps, which the
 * source draws from the clock and `Math.random`, are parameters.
 */
module Auth {
  import opened Common
  import opened Types
  import SessionCodec
  import opened Seqs

  const AuthTokenKey := "auth_token"
  const UserDataKey := "user_data"
  const Pending := "pending"

  const DuplicateEmail := "User already exists with this email"
  const RegistrationFailed := "Registration failed"
  const InvalidCredentials := "Invalid email or password"

  /** The account the store starts with. */
  function SeedAdmin(createdAt: string): User {
    User("1", "admin@school.edu", "Admin User", "School Administration", None, Admin, createdAt)
  }

  /** What the sign-up page hands to `signUp`. */
  datatype SignUpRequest = SignUpRequest(
    fullName: string,
    email: string,
    password: string,
    schoolName: string,
    grade: Option<string>,
    role: Role)

  /** `{ success: true, user }` or `{ success: false, error }`. */
  datatype AuthResult = Success(user: User) | Failure(error: string)

  /** The cookies a previous visit left behind. */
  datatype SavedSession = SavedSession(token: string, user: User)

  /** `users.find(u => u.email === email)`, as the index of the first match. */
  function FindByEmail(users: seq<User>, email: string): (r: Option<nat>)
    ensures r.Some? ==> r.value < |users| && users[r.value].email == email
    ensures r.Some? ==> forall j :: 0 <= j < r.value ==> users[j].email != email
    ensures r.None? <==> forall j :: 0 <= j < |users| ==> users[j].email != email
  {
    FindFirst(users, (u: User) => u.email == email)
  }

  /** The record `addRegistration` stores for a submitted form. */
  function NewRegistration(form: RegistrationForm, id: string, date: string): (r: Registration)
    ensures r.form == form && r.status == Pending
  {
    Registration(form, id, date, Pending)
  }

  class AuthStore {
    var users: seq<User>
    var registrations: seq<Registration>
    var cookies: map<string, string>

    /**
     * The stored session is absent, empty, or the text of a well-formed user
     * record; every stored registration carries the status `addRegistration`
     * gave it.
     */
    ghost predicate Valid()
      reads this
    {
      && (UserDataKey in cookies ==>
            cookies[UserDataKey] == "" || SessionCodec.Decode(cookies[UserDataKey]).Some?)
      && forall k :: 0 <= k < |registrations| ==> registrations[k].status == Pending
    }

    /** `Cookies.get('auth_token')`. */
    function GetAuthToken(): (token: Option<string>)
      reads this
      ensures token.Some? <==> AuthTokenKey in cookies
      ensures token.Some? ==> token.value == cookies[AuthTokenKey]
    {
      if AuthTokenKey in cookies then Some(cookies[AuthTokenKey]) else None
    }

    /** `userData ? JSON.parse(userData) : null`. */
    function GetCurrentUser(): (user: Option<User>)
      reads this
      requires Valid()
      ensures user.Some? <==> UserDataKey in cookies && cookies[UserDataKey] != ""
      ensures user.Some? ==> SessionCodec.Encode(user.value) == cookies[UserDataKey]
    {
      if UserDataKey in cookies && cookies[UserDataKey] != "" then
        var u := SessionCodec.Decode(cookies[UserDataKey]);
        SessionCodec.EncodeDecode(cookies[UserDataKey], u.value);
        u
      else None
    }

    /** `getRegistrations`. */
    function GetRegistrations(): (regs: seq<Registration>)
      reads this
      ensures |regs| == |registrations|
      ensures Valid() ==> forall k :: 0 <= k < |regs| ==> regs[k].status == Pending
    {
      registrations
    }

    /** A fresh page load: the seeded admin, no registrations, and whatever session cookies survived. */
    constructor (adminCreatedAt: string, saved: Option<SavedSession>)
      ensures Valid()
      ensures users == [SeedAdmin(adminCreatedAt)] && registrations == []
      ensures saved.None? ==> cookies == map[]
      ensures saved.Some? ==> cookies == map[AuthTokenKey := saved.value.token,
                                              UserDataKey := SessionCodec.Encode(saved.value.user)]
      ensures GetCurrentUser() == if saved.Some? then Some(saved.value.user) else None
    {
      users := [SeedAdmin(adminCreatedAt)];
      registrations := [];
      if saved.Some? {
        cookies := map[AuthTokenKey := saved.value.token,
                       UserDataKey := SessionCodec.Encode(saved.value.user)];
        SessionCodec.DecodeEncode(saved.value.user);
      } else {
        cookies := map[];
      }
    }

    /** Writes both cookies; reading them back gives the token and the user. */
    method SetAuthToken(token: string, user: User)
      requires Valid()
      modifies this
      ensures Valid()
      ensures users == old(users) && registrations == old(registrations)
      ensures cookies == old(cookies)[AuthTokenKey := token][UserDataKey := SessionCodec.Encode(user)]
      ensures GetAuthToken() == Some(token) && GetCurrentUser() == Some(user)
    {
      cookies := cookies[AuthTokenKey := token][UserDataKey := SessionCodec.Encode(user)];
      SessionCodec.DecodeEncode(user);
    }

    /** Removes both cookies; afterwards there is no token and no current user. */
    method RemoveAuthToken()
      requires Valid()
      modifies this
      ensures Valid()
      ensures users == old(users) && registrations == old(registrations)
      ensures cookies == old(cookies) - {AuthTokenKey, UserDataKey}
      ensures GetAuthToken() == None && GetCurrentUser() == None
    {
      cookies := cookies - {AuthTokenKey, UserDataKey};
    }

    /**
     * `signUp`: an exactly equal email already in `users` is refused;
     * otherwise one user is appended and signed in. `hashFails` stands for
     * the password-hashing library throwing, the one way into the catch.
     */
    method SignUp(req: SignUpRequest, id: string, createdAt: string, token: string, hashFails: bool)
      returns (result: AuthResult)
      requires Valid()
      requires req.role != Admin
      modifies this
      ensures Valid()
      ensures registrations == old(registrations)
      ensures FindByEmail(old(users), req.email).Some? ==>
        result == Failure(DuplicateEmail) && users == old(users) && cookies == old(cookies)
      ensures FindByEmail(old(users), req.email).None? && hashFails ==>
        result == Failure(RegistrationFailed) && users == old(users) && cookies == old(cookies)
      ensures FindByEmail(old(users), req.email).None? && !hashFails ==>
        && result == Success(User(id, req.email, req.fullName, req.schoolName, req.grade, req.role, createdAt))
        && users == old(users) + [result.user]
        && cookies == old(cookies)[AuthTokenKey := token][UserDataKey := SessionCodec.Encode(result.user)]
        && GetCurrentUser() == Some(result.user)
        && GetAuthToken() == Some(token)
    {
      var existing := FindByEmail(users, req.email);
      if existing.Some? {
        return Failure(DuplicateEmail);
      }
      if hashFails {
        return Failure(RegistrationFailed);
      }
      var newUser := User(id, req.email, req.fullName, req.schoolName, req.grade, req.role, createdAt);
      users := users + [newUser];
      SetAuthToken(token, newUser);
      result := Success(newUser);
    }

    /** `signIn`: any password is accepted for a known email; the first user with that email is signed in. */
    method SignIn(email: string, password: string, token: string) returns (result: AuthResult)
      requires Valid()
      modifies this
      ensures Valid()
      ensures users == old(users) && registrations == old(registrations)
      ensures FindByEmail(users, email).None? ==>
        result == Failure(InvalidCredentials) && cookies == old(cookies)
      ensures FindByEmail(users, email).Some? ==>
        && result == Success(users[FindByEmail(users, email).value])
        && cookies == old(cookies)[AuthTokenKey := token][UserDataKey := SessionCodec.Encode(result.user)]
        && GetCurrentUser() == Some(result.user)
        && GetAuthToken() == Some(token)
    {
      var found := FindByEmail(users, email);
      if found.None? {
        return Failure(InvalidCredentials);
      }
      var user := users[found.value];
      SetAuthToken(token, user);
      result := Success(user);
    }

    method SignOut()
      requires Valid()
      modifies this
      ensures Valid()
      ensures users == old(users) && registrations == old(registrations)
      ensures cookies == old(cookies) - {AuthTokenKey, UserDataKey}
      ensures GetAuthToken() == None && GetCurrentUser() == None
    {
      RemoveAuthToken();
    }

    /** `addRegistration`: appends the form with a new id and date, always as pending. */
    method AddRegistration(form: RegistrationForm, id: string, date: string)
      requires Valid()
      modifies this
      ensures Valid()
      ensures users == old(users) && cookies == old(cookies)
      ensures registrations == old(registrations) + [NewRegistration(form, id, date)]
    {
      registrations := registrations + [NewRegistration(form, id, date)];
    }
  }

  /** The email comparison is exact: an address differing only in case is a different account. */
  lemma EmailMatchIsCaseSensitive(createdAt: string)
    ensures FindByEmail([SeedAdmin(createdAt)], "Admin@school.edu").None?
    ensures FindByEmail([SeedAdmin(createdAt)], "admin@school.edu") == Some(0)
  {
    assert "Admin@school.edu"[0] != "admin@school.edu"[0];
  }
}
