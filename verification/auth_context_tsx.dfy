/** The authentication provider of src/auth/AuthContext.tsx: the `token` and `user` state
    cells and the `login`/`logout` transitions over the shared credential store. */
module AuthContextTsx {
  import opened Js
  import opened Types
  import opened Storage

  /** The `user` state: the empty object `{}` before login and after logout, or what the
      accepted login response carried (possibly undefined). */
  datatype UserState = EmptyUser | LoggedUser(user: Option<Usuario>)

  /** How `login` ends: a navigation, or the error it throws. */
  datatype LoginResult = NavigatedTo(path: string) | Thrown(message: string)

  /** Login followed by logout leaves neither credential, whatever the login response was
      and whatever the store held before. */
  lemma LoginThenLogoutClearsCredentials(m: map<string, string>, response: Option<LoginResponse>)
    ensures TokenKey !in WithoutCredentials(AfterLogin(m, response))
    ensures RefreshTokenKey !in WithoutCredentials(AfterLogin(m, response))
  {
  }

  class AuthProvider {
    const storage: LocalStorage
    var token: Option<string>
    var user: UserState

    /** The provider mounts with the stored "token" (or null) and the empty user. */
    constructor (storage: LocalStorage)
      ensures this.storage == storage
      ensures token == storage.GetItem(TokenKey) && user == EmptyUser
    {
      this.storage := storage;
      token := storage.GetItem(TokenKey);
      user := EmptyUser;
    }

    /** `login` with what `loginRequest` resolved to (None when it resolved to null). */
    method Login(response: Option<LoginResponse>) returns (r: LoginResult)
      modifies this, storage
      ensures storage.entries == AfterLogin(old(storage.entries), response)
      ensures LoginAccepted(response) ==>
        && token == response.value.accessToken && user == LoggedUser(response.value.user)
        && r == NavigatedTo("/dashboard")
      ensures !LoginAccepted(response) ==>
        token == old(token) && user == old(user) && r == Thrown("Login inválido")
    {
      if response.Some? && Truthy(response.value.accessToken) {
        storage.SetItem(TokenKey, response.value.accessToken.value);
        storage.SetItem(RefreshTokenKey, Interpolate(response.value.refreshToken));
        token := response.value.accessToken;
        user := LoggedUser(response.value.user);
        r := NavigatedTo("/dashboard");
      } else {
        r := Thrown("Login inválido");
      }
    }

    /** `logout`: both credentials removed, token null, user back to `{}`. */
    method Logout() returns (path: string)
      modifies this, storage
      ensures storage.entries == WithoutCredentials(old(storage.entries))
      ensures token == None && user == EmptyUser && path == "/login"
    {
      storage.RemoveItem(TokenKey);
      storage.RemoveItem(RefreshTokenKey);
      token := None;
      user := EmptyUser;
      path := "/login";
    }
  }
}
