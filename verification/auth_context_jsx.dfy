/** The older authentication provider of src/auth/AuthContext.jsx. Its `login` is the same
    as the TypeScript provider's; its `logout` removes only "token" and sets `user` to null. */
module AuthContextJsx {
  import opened Js
  import opened Types
  import opened Storage

  /** The `user` state: "" at mount, null after logout, or what the accepted login
      response carried (possibly undefined). */
  datatype UserState = EmptyText | NullUser | LoggedUser(user: Option<Usuario>)

  /** How `login` ends: a navigation, or the error it throws. */
  datatype LoginResult = NavigatedTo(path: string) | Thrown(message: string)

  /** The store after `logout`: "token" is gone and every other entry, "refreshToken"
      included, is left as it was. */
  function AfterLogout(m: map<string, string>): (m': map<string, string>)
    ensures TokenKey !in m'
    ensures m'.Keys == m.Keys - {TokenKey}
    ensures forall k :: k in m' ==> m'[k] == m[k]
  {
    m - {TokenKey}
  }

  /** After an accepted login, logout leaves the refresh credential of that login behind. */
  lemma LoginThenLogoutKeepsRefreshToken(m: map<string, string>, response: Option<LoginResponse>)
    requires LoginAccepted(response)
    ensures TokenKey !in AfterLogout(AfterLogin(m, response))
    ensures RefreshTokenKey in AfterLogout(AfterLogin(m, response))
    ensures AfterLogout(AfterLogin(m, response))[RefreshTokenKey] == Interpolate(response.value.refreshToken)
  {
  }

  class AuthProvider {
    const storage: LocalStorage
    var token: Option<string>
    var user: UserState

    /** The provider mounts with the stored "token" (or null) and the user "". */
    constructor (storage: LocalStorage)
      ensures this.storage == storage
      ensures token == storage.GetItem(TokenKey) && user == EmptyText
    {
      this.storage := storage;
      token := storage.GetItem(TokenKey);
      user := EmptyText;
    }

    /** `login` with what `loginRequest` resolved to (None when it resolved to null). */
    method Login(response: Option<LoginResponse>) returns (r: LoginResult)
      modifies this, storage
      ensures storage.entries == AfterLogin(old(storage.entries), response)
      ensures LoginAccepted(response) ==>
        && token == response.value.accessToken && user == LoggedUser(response.value.user)
        && r == NavigatedTo("/dashboard")
      ensures !LoginAccepted(response) ==>
        token == old(token) && user == old(user) && r == Thrown("Login inválido")
    {
      if response.Some? && Truthy(response.value.accessToken) {
        storage.SetItem(TokenKey, response.value.accessToken.value);
        storage.SetItem(RefreshTokenKey, Interpolate(response.value.refreshToken));
        token := response.value.accessToken;
        user := LoggedUser(response.value.user);
        r := NavigatedTo("/dashboard");
      } else {
        r := Thrown("Login inválido");
      }
    }

    /** `logout`: only "token" removed; token and user both null. */
    method Logout() returns (path: string)
      modifies this, storage
      ensures storage.entries == AfterLogout(old(storage.entries))
      ensures token == None && user == NullUser && path == "/login"
    {
      storage.RemoveItem(TokenKey);
      token := None;
      user := NullUser;
      path := "/login";
    }
  }
}
