/** Client code that uses only the contracts above, walking through the
    session's life: login, authorized requests, reload, logout. */
module Scenarios {
  import opened Wrappers
  import opened Types
  import opened Storage
  import opened ApiService
  import AuthService
  import AuthContext

  /** Login returning token T1, then listing projects carries `Bearer T1`; after
      logout the next request carries no credential, because the token is read
      from storage on every request. */
  method LoginListLogout() {
    var storage := new BrowserStorage(map[]);
    var provider := new AuthContext.AuthProvider(storage);
    var api := new ApiClient(storage);
    var reply: Reply<AuthResponse> := Ok(AuthResponse("T1", "alice", "a@b.com"));
    var thrown := provider.Login(LoginCredentials("a@b.com", "pw"), reply);
    assert thrown == None && provider.Value().isAuthenticated;
    AuthService.PersistedSessionReadsBack(map[], reply.value);
    assert AuthService.TokenOf(storage.items) == Some("T1");

    api.Send(GetProjects);
    assert HasToken(AuthService.TokenOf(storage.items)) && BearerPrefix + "T1" == "Bearer T1";
    assert api.sent[0].headers == map[AuthorizationHeader := "Bearer T1"];

    provider.Logout();
    api.Send(GetProjects);
    assert AuthorizationHeader !in api.sent[1].headers;
    assert !provider.Value().isAuthenticated;
  }

  /** A fresh provider over the storage a login wrote starts as that user. */
  method ReloadAfterLogin() {
    var storage := new BrowserStorage(map[]);
    var first := new AuthContext.AuthProvider(storage);
    var reply: Reply<AuthResponse> := Ok(AuthResponse("T1", "alice", "a@b.com"));
    var _ := first.Login(LoginCredentials("a@b.com", "pw"), reply);
    AuthService.PersistedSessionReadsBack(map[], reply.value);

    var second := new AuthContext.AuthProvider(storage);
    assert !second.Value().isAuthenticated;
    var thrown := second.Init();
    assert thrown == None && second.user == Some(User("alice", "a@b.com"));
  }

  /** A reply without a token authenticates the context while nothing is
      stored, so requests go out without a credential. */
  method AuthenticatedWithoutToken() {
    var storage := new BrowserStorage(map[]);
    var provider := new AuthContext.AuthProvider(storage);
    var api := new ApiClient(storage);
    var _ := provider.Login(LoginCredentials("a@b.com", "pw"), Ok(AuthResponse("", "alice", "a@b.com")));
    assert provider.Value().isAuthenticated;
    assert storage.items == map[];
    api.Send(GetProjects);
    assert AuthorizationHeader !in api.sent[0].headers;
  }

  /** A refused login leaves both the context and the storage as they were. */
  method FailedLoginChangesNothing(initial: map<string, string>) {
    var storage := new BrowserStorage(initial);
    var provider := new AuthContext.AuthProvider(storage);
    var thrown := provider.Login(LoginCredentials("a@b.com", "bad"), Err(HttpError(Some("Invalid credentials"))));
    assert thrown.Some? && provider.user == None && storage.items == initial;
  }
}
