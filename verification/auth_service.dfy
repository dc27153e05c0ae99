/** The auth gateway (src/services/authService.ts): credential exchange with the
    server, and the only writer of the session keys `token` and `user` in
    browser storage. The server's reply is a parameter. */
module AuthService {
  import opened Wrappers
  import opened Types
  import opened UserJson
  import opened Storage

  const TokenKey: string := "token"
  const UserKey: string := "user"

  /** The thrown `JSON.parse` error for a stored profile that is not one. */
  datatype SyntaxError = SyntaxError

  /** The session keys are written and removed together. */
  ghost predicate SessionPaired(items: map<string, string>) {
    TokenKey in items <==> UserKey in items
  }

  /** Storage after a reply was received: the token and the profile are
      written when the reply's token is non-empty (a missing token is the
      empty string here), and nothing at all otherwise. */
  function SessionPersisted(items: map<string, string>, resp: AuthResponse): (r: map<string, string>)
    ensures resp.token == "" ==> r == items
    ensures resp.token != "" ==>
      && TokenKey in r && r[TokenKey] == resp.token
      && UserKey in r && r[UserKey] == EncodeUser(UserOf(resp))
    ensures r.Keys == if resp.token == "" then items.Keys else items.Keys + {TokenKey, UserKey}
    ensures forall k :: k != TokenKey && k != UserKey && k in items ==> r[k] == items[k]
    ensures SessionPaired(items) ==> SessionPaired(r)
  {
    if resp.token != "" then items[TokenKey := resp.token][UserKey := EncodeUser(UserOf(resp))]
    else items
  }

  /** Storage after logout: both session keys gone, every other entry kept,
      and clearing again would change nothing. */
  function SessionCleared(items: map<string, string>): (r: map<string, string>)
    ensures TokenKey !in r && UserKey !in r
    ensures r.Keys == items.Keys - {TokenKey, UserKey}
    ensures forall k :: k in r ==> r[k] == items[k]
    ensures SessionPaired(r)
    ensures TokenOf(r) == None && CurrentUserOf(r) == Ok(None)
    ensures r - {TokenKey, UserKey} == r
  {
    items - {TokenKey, UserKey}
  }

  /** `getToken`: the stored token verbatim, or null when there is none. */
  function TokenOf(items: map<string, string>): (r: Option<string>)
    ensures r.Some? <==> TokenKey in items
    ensures r.Some? ==> r.value == items[TokenKey]
  {
    if TokenKey in items then Some(items[TokenKey]) else None
  }

  /** `getCurrentUser`: null when the `user` entry is absent or empty, otherwise
      the parsed profile; a stored text that does not parse throws. */
  function CurrentUserOf(items: map<string, string>): (r: Result<Option<User>, SyntaxError>)
    ensures (UserKey !in items || items[UserKey] == "") ==> r == Ok(None)
    ensures UserKey in items && items[UserKey] != "" ==>
      (r.Ok? <==> DecodeUser(items[UserKey]).Some?) &&
      (r.Ok? ==> r.value == DecodeUser(items[UserKey]))
  {
    if UserKey !in items || items[UserKey] == "" then Ok(None)
    else
      match DecodeUser(items[UserKey])
      case Some(u) => Ok(Some(u))
      case None => Err(SyntaxError)
  }

  /** After a reply with a token, the store yields exactly that token and the
      reply's `{username, email}`. */
  lemma PersistedSessionReadsBack(items: map<string, string>, resp: AuthResponse)
    requires resp.token != ""
    ensures TokenOf(SessionPersisted(items, resp)) == Some(resp.token)
    ensures CurrentUserOf(SessionPersisted(items, resp)) == Ok(Some(User(resp.username, resp.email)))
  {
    DecodeEncodeUser(UserOf(resp));
  }

  /** The write that follows a successful reply (lines 12-18 and 27-33). */
  method PersistSession(storage: BrowserStorage, resp: AuthResponse)
    modifies storage
    ensures storage.items == SessionPersisted(old(storage.items), resp)
  {
    if resp.token != "" {
      storage.SetItem(TokenKey, resp.token);
      storage.SetItem(UserKey, EncodeUser(UserOf(resp)));
    }
  }

  /** `register`: on a failed request the exception propagates before any write. */
  method Register(storage: BrowserStorage, credentials: RegisterCredentials, reply: Reply<AuthResponse>)
    returns (r: Reply<AuthResponse>)
    modifies storage
    ensures r == reply
    ensures storage.items == if reply.Ok? then SessionPersisted(old(storage.items), reply.value) else old(storage.items)
  {
    if reply.Ok? {
      PersistSession(storage, reply.value);
    }
    r := reply;
  }

  /** `login`: the same persistence as `register`, against the login endpoint. */
  method Login(storage: BrowserStorage, credentials: LoginCredentials, reply: Reply<AuthResponse>)
    returns (r: Reply<AuthResponse>)
    modifies storage
    ensures r == reply
    ensures storage.items == if reply.Ok? then SessionPersisted(old(storage.items), reply.value) else old(storage.items)
  {
    if reply.Ok? {
      PersistSession(storage, reply.value);
    }
    r := reply;
  }

  /** `logout`: removes the token and then the profile. */
  method Logout(storage: BrowserStorage)
    modifies storage
    ensures storage.items == SessionCleared(old(storage.items))
  {
    storage.RemoveItem(TokenKey);
    storage.RemoveItem(UserKey);
  }
}
