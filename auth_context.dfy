/** The React auth context of src/contexts/AuthContext.tsx over the cookie store. */
module AuthContext {
  import opened Common
  import opened Types
  import Auth

  const OutsideProvider := "useAuth must be used within an AuthProvider"

  /** The provider's state: the current user and whether the session is still being read. */
  class AuthProvider {
    const store: Auth.AuthStore
    var user: Option<User>
    var loading: bool

    /** First render: no user yet, still loading. */
    constructor (store: Auth.AuthStore)
      ensures this.store == store
      ensures user == None && loading
    {
      this.store := store;
      user := None;
      loading := true;
    }

    /** `refreshUser`: the user becomes exactly what the cookie holds; nothing else changes. */
    method RefreshUser()
      requires store.Valid()
      modifies this
      ensures user == store.GetCurrentUser()
      ensures loading == old(loading)
    {
      user := store.GetCurrentUser();
    }

    /** The mount effect: read the session once, then stop loading. */
    method Mount()
      requires store.Valid()
      modifies this
      ensures user == store.GetCurrentUser()
      ensures !loading
    {
      RefreshUser();
      loading := false;
    }

    /** `signOut`: both cookies are cleared and the user becomes null. */
    method SignOut()
      requires store.Valid()
      modifies this, store
      ensures store.Valid()
      ensures store.cookies == old(store.cookies) - {Auth.AuthTokenKey, Auth.UserDataKey}
      ensures store.users == old(store.users) && store.registrations == old(store.registrations)
      ensures store.GetCurrentUser() == None && store.GetAuthToken() == None
      ensures user == None && loading == old(loading)
    {
      store.SignOut();
      user := None;
    }
  }

  /** `useAuth`: the context value inside a provider, an error outside one. */
  function UseAuth<T>(context: Option<T>): (r: Result<T>)
    ensures context.None? <==> r == Err(OutsideProvider)
    ensures context.Some? ==> r == Ok(context.value)
  {
    match context
    case None => Err(OutsideProvider)
    case Some(c) => Ok(c)
  }
}
