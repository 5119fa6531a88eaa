/** The browser's durable key-value store (`localStorage`) as the console uses it:
    the access credential under "token" and the refresh credential under "refreshToken".
    One object is shared by the HTTP gateway and the authentication provider. */
module Storage {
  import opened Js
  import opened Types

  const TokenKey := "token"
  const RefreshTokenKey := "refreshToken"

  /** What a successful login or refresh leaves in the store: both credentials written,
      every other entry as it was. */
  function WithCredentials(m: map<string, string>, access: string, refresh: string): (m': map<string, string>)
    ensures TokenKey in m' && m'[TokenKey] == access
    ensures RefreshTokenKey in m' && m'[RefreshTokenKey] == refresh
    ensures m'.Keys == m.Keys + {TokenKey, RefreshTokenKey}
    ensures forall k :: k in m && k != TokenKey && k != RefreshTokenKey ==> m'[k] == m[k]
  {
    m[TokenKey := access][RefreshTokenKey := refresh]
  }

  /** What clearing both credentials leaves in the store. */
  function WithoutCredentials(m: map<string, string>): (m': map<string, string>)
    ensures TokenKey !in m' && RefreshTokenKey !in m'
    ensures m'.Keys == m.Keys - {TokenKey, RefreshTokenKey}
    ensures forall k :: k in m' ==> m'[k] == m[k]
  {
    m - {TokenKey, RefreshTokenKey}
  }

  /** `response?.accessToken` is truthy: the login is accepted. */
  predicate LoginAccepted(response: Option<LoginResponse>) {
    response.Some? && Truthy(response.value.accessToken)
  }

  /** The store after `login` handled `response`: both credentials written when it is
      accepted (an absent refresh credential is written as "undefined"), nothing written
      otherwise. */
  function AfterLogin(m: map<string, string>, response: Option<LoginResponse>): (m': map<string, string>)
    ensures LoginAccepted(response) ==>
      m' == WithCredentials(m, response.value.accessToken.value, Interpolate(response.value.refreshToken))
    ensures !LoginAccepted(response) ==> m' == m
  {
    if LoginAccepted(response) then
      WithCredentials(m, response.value.accessToken.value, Interpolate(response.value.refreshToken))
    else
      m
  }

  class LocalStorage {
    var entries: map<string, string>

    constructor (initial: map<string, string>)
      ensures entries == initial
    {
      entries := initial;
    }

    /** `localStorage.getItem(key)`: null when the key is absent. */
    function GetItem(key: string): (v: Option<string>)
      reads this
      ensures v.Some? <==> key in entries
      ensures v.Some? ==> v.value == entries[key]
    {
      if key in entries then Some(entries[key]) else None
    }

    /** `localStorage.setItem(key, value)`. */
    method SetItem(key: string, value: string)
      modifies this
      ensures entries == old(entries)[key := value]
    {
      entries := entries[key := value];
    }

    /** `localStorage.removeItem(key)`. */
    method RemoveItem(key: string)
      modifies this
      ensures entries == old(entries) - {key}
    {
      entries := entries - {key};
    }
  }
}
