/** The session context (src/context/AuthContext.tsx): the one piece of state
    `user`, set at start-up from storage and by the login, register and logout
    transitions, from which `isAuthenticated` is derived. */
module AuthContext {
  import opened Wrappers
  import opened Types
  import opened Storage
  import AuthService

  /** What the provider hands to its consumers. */
  datatype AuthContextValue = AuthContextValue(user: Option<User>, isAuthenticated: bool)

  const OutsideProviderMessage: string := "useAuth must be used within AuthProvider"

  /** An exception raised by an action of the context. */
  datatype Thrown = RequestFailed(error: HttpError) | StoredUserUnreadable

  class AuthProvider {
    const storage: BrowserStorage
    var user: Option<User>

    /** The state hook starts at null. */
    constructor (storage: BrowserStorage)
      ensures this.storage == storage && user == None
    {
      this.storage := storage;
      user := None;
    }

    /** The context value: `isAuthenticated` is `!!user`. */
    function Value(): (v: AuthContextValue)
      reads this
      ensures v.user == user
      ensures v.isAuthenticated <==> user.Some?
    {
      AuthContextValue(user, user.Some?)
    }

    /** The mount effect: adopts the stored profile when there is one. A stored
        text that does not parse makes `getCurrentUser` throw inside the effect. */
    method Init() returns (thrown: Option<Thrown>)
      modifies this
      ensures AuthService.CurrentUserOf(storage.items).Ok? && AuthService.CurrentUserOf(storage.items).value.Some? ==>
        user == AuthService.CurrentUserOf(storage.items).value
      ensures AuthService.CurrentUserOf(storage.items) == Ok(None) ==> user == old(user)
      ensures AuthService.CurrentUserOf(storage.items).Err? ==> user == old(user)
      ensures thrown == if AuthService.CurrentUserOf(storage.items).Err? then Some(StoredUserUnreadable) else None
    {
      var current := AuthService.CurrentUserOf(storage.items);
      match current {
        case Err(_) =>
          thrown := Some(StoredUserUnreadable);
        case Ok(found) =>
          thrown := None;
          if found.Some? {
            user := found;
          }
      }
    }

    /** `login`: on success the user becomes the reply's profile, whether or not
        a token came with it; a failed request leaves the user as it was. */
    method Login(credentials: LoginCredentials, reply: Reply<AuthResponse>) returns (thrown: Option<Thrown>)
      modifies this, storage
      ensures reply.Ok? ==> user == Some(UserOf(reply.value)) && thrown == None
      ensures reply.Err? ==> user == old(user) && thrown == Some(RequestFailed(reply.error))
      ensures storage.items == if reply.Ok? then AuthService.SessionPersisted(old(storage.items), reply.value) else old(storage.items)
    {
      var response := AuthService.Login(storage, credentials, reply);
      if response.Err? {
        thrown := Some(RequestFailed(response.error));
        return;
      }
      user := Some(User(response.value.username, response.value.email));
      thrown := None;
    }

    /** `register`: the same transition as `login`. */
    method Register(credentials: RegisterCredentials, reply: Reply<AuthResponse>) returns (thrown: Option<Thrown>)
      modifies this, storage
      ensures reply.Ok? ==> user == Some(UserOf(reply.value)) && thrown == None
      ensures reply.Err? ==> user == old(user) && thrown == Some(RequestFailed(reply.error))
      ensures storage.items == if reply.Ok? then AuthService.SessionPersisted(old(storage.items), reply.value) else old(storage.items)
    {
      var response := AuthService.Register(storage, credentials, reply);
      if response.Err? {
        thrown := Some(RequestFailed(response.error));
        return;
      }
      user := Some(User(response.value.username, response.value.email));
      thrown := None;
    }

    /** `logout`: clears storage, then the user, unconditionally. */
    method Logout()
      modifies this, storage
      ensures user == None && !Value().isAuthenticated
      ensures storage.items == AuthService.SessionCleared(old(storage.items))
    {
      AuthService.Logout(storage);
      user := None;
    }
  }

  /** `useAuth`: the provider's value, or an error when called outside one. */
  function UseAuth(context: Option<AuthContextValue>): (r: Result<AuthContextValue, string>)
    ensures r.Ok? <==> context.Some?
    ensures context.Some? ==> r.value == context.value
    ensures r.Err? ==> r.error == OutsideProviderMessage
  {
    match context
    case None => Err(OutsideProviderMessage)
    case Some(v) => Ok(v)
  }
}
