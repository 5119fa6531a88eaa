/** The older, fetch-based gateway of src/auth/httpService.ts: one call attaches the stored
    bearer credential, and on a 401 with a stored refresh credential tries one refresh and
    at most one reissue, then throws on any final status outside 2xx. Nothing is queued and
    no flag is shared between calls. */
module HttpService {
  import opened Js
  import opened Storage
  import opened Types
  import opened AuthHeader

  const ContentType := "Content-Type"
  const ApplicationJson := "application/json"
  /** What `${x}` yields for a plain object `x`. */
  const ObjectText := "[object Object]"

  datatype Verb = GET | POST | PUT | DELETE

  /** A `RequestInit`: the method, the headers and the body, already serialised as JSON. */
  datatype RequestInit = RequestInit(verb: Verb, headers: Headers, body: Option<string>)

  /** One `fetch(baseUrl + url, init)` the call made. */
  datatype Sent = Sent(url: string, init: RequestInit)

  /** How one `fetch` ended: it threw before any response, or a response arrived whose body
      is the envelope. */
  datatype Reply<T> = NetworkFailure | Reply(status: int, json: BaseResponse<T>)

  /** How the refresh `fetch` ended: it threw (no response, or a body that is not the
      expected JSON), or a response arrived with its `ok` flag and the payload, if any. */
  datatype RefreshReply = RefreshThrew | RefreshReplied(ok: bool, payload: Option<TokenData>)

  /** What a call gives its caller: the envelope, or one of the two errors it throws. */
  datatype Outcome<T> = Returned(envelope: BaseResponse<T>) | HttpError(status: int) | TransportError

  /** `Response.ok`. */
  predicate Ok(status: int) {
    200 <= status <= 299
  }

  /** The options the four verb functions pass: GET and DELETE without body or headers,
      POST and PUT with a JSON content type and the serialised body. */
  function VerbInit(verb: Verb, json: string): (r: RequestInit)
    ensures r.verb == verb
    ensures (verb == GET || verb == DELETE) ==> r.body == None && r.headers == map[]
    ensures (verb == POST || verb == PUT) ==>
      r.body == Some(json) && r.headers == map[ContentType := ApplicationJson]
  {
    match verb
    case GET => RequestInit(GET, map[], None)
    case DELETE => RequestInit(DELETE, map[], None)
    case POST => RequestInit(POST, map[ContentType := ApplicationJson], Some(json))
    case PUT => RequestInit(PUT, map[ContentType := ApplicationJson], Some(json))
  }

  /** `headers.set(Authorization, value)`. */
  function SetAuthorization(init: RequestInit, value: string): (r: RequestInit)
    ensures r.verb == init.verb && r.body == init.body
    ensures r.headers.Keys == init.headers.Keys + {Authorization} && r.headers[Authorization] == value
    ensures forall k :: k in init.headers && k != Authorization ==> r.headers[k] == init.headers[k]
  {
    init.(headers := init.headers[Authorization := value])
  }

  /** The first request: the bearer header is set exactly when a truthy "token" is stored. */
  function WithStoredToken(init: RequestInit, token: Option<string>): (r: RequestInit)
    ensures r.verb == init.verb && r.body == init.body
    ensures Truthy(token) ==> Authorization in r.headers && r.headers[Authorization] == Bearer(token.value)
    ensures Truthy(token) ==> r.headers.Keys == init.headers.Keys + {Authorization}
    ensures !Truthy(token) ==> r == init
    ensures forall k :: k in init.headers && k != Authorization ==> k in r.headers && r.headers[k] == init.headers[k]
  {
    if Truthy(token) then SetAuthorization(init, Bearer(token.value)) else init
  }

  /** `tryRefreshToken`: the payload when the refresh response was ok and carried one,
      null in every other case. */
  function TryRefreshToken(reply: RefreshReply): (r: Option<TokenData>)
    ensures r.Some? <==> reply.RefreshReplied? && reply.ok && reply.payload.Some?
    ensures r.Some? ==> r.value == reply.payload.value
  {
    match reply
    case RefreshThrew => None
    case RefreshReplied(ok, payload) => if ok then payload else None
  }

  /** The end of `fetchWithAuth` for the last response it holds: the envelope when the
      status is 2xx, an HTTP error carrying the status otherwise; a fetch that threw
      propagates as a transport error. */
  function Finish<T>(reply: Reply<T>): (o: Outcome<T>)
    ensures o.TransportError? <==> reply.NetworkFailure?
    ensures o.Returned? <==> reply.Reply? && Ok(reply.status)
    ensures o.Returned? ==> o.envelope == reply.json
    ensures o.HttpError? ==> reply.Reply? && o.status == reply.status
  {
    match reply
    case NetworkFailure => TransportError
    case Reply(status, json) => if Ok(status) then Returned(json) else HttpError(status)
  }

  /** The header the reissue carries, AS WRITTEN: `Bearer ${newToken}` interpolates the whole
      payload object, not its access credential. */
  function ReissueHeaderAsWritten(t: TokenData): string {
    Bearer(ObjectText)
  }

  /** As written, the reissue never carries the access credential just stored (its text, or
      "undefined" when the payload lacks it), unless that credential happens to be the text
      "[object Object]". */
  lemma ReissueHeaderAsWrittenIsStale(t: TokenData)
    requires t.accessToken != Some(ObjectText)
    ensures ReissueHeaderAsWritten(t) != Bearer(Interpolate(t.accessToken))
  {
    assert Bearer(Interpolate(t.accessToken))[7..] == Interpolate(t.accessToken);
  }

  /** The header the reissue is evidently meant to carry: the access credential just stored. */
  function ReissueHeader(t: TokenData): string {
    Bearer(Interpolate(t.accessToken))
  }

  /** With the intended header, the reissue is exactly the request a fresh call would send
      once the refreshed credentials are stored, whatever the store and the first request's
      credential were before. */
  lemma ReissueMatchesFreshCall(init: RequestInit, previous: Option<string>, t: TokenData, m: map<string, string>)
    requires Interpolate(t.accessToken) != ""
    ensures var stored := WithCredentials(m, Interpolate(t.accessToken), Interpolate(t.refreshToken));
      SetAuthorization(WithStoredToken(init, previous), ReissueHeader(t))
        == WithStoredToken(init, Some(stored[TokenKey]))
  {
    var h := ReissueHeader(t);
    if Truthy(previous) {
      assert init.headers[Authorization := Bearer(previous.value)][Authorization := h]
        == init.headers[Authorization := h];
    }
  }

  class HttpClient {
    const storage: LocalStorage

    constructor (storage: LocalStorage)
      ensures this.storage == storage
    {
      this.storage := storage;
    }

    /** `fetchWithAuth(url, options)` against the replies the network gives: `first` to the
        first request, `refresh` to the refresh call, `second` to the reissue. Returns what
        the caller receives, the requests sent, the refresh credential sent to the refresh
        endpoint (None when no refresh was tried) and whether a redirect to /login was
        requested. */
    method FetchWithAuth<T>(url: string, options: RequestInit, first: Reply<T>, refresh: RefreshReply, second: Reply<T>)
      returns (outcome: Outcome<T>, sent: seq<Sent>, refreshedWith: Option<string>, redirectedToLogin: bool)
      modifies storage
      ensures 1 <= |sent| <= 2
      ensures sent[0] == Sent(url, WithStoredToken(options, old(storage.GetItem(TokenKey))))
      ensures refreshedWith.Some? <==>
        first.Reply? && first.status == 401 && Truthy(old(storage.GetItem(RefreshTokenKey)))
      ensures refreshedWith.Some? ==> refreshedWith == old(storage.GetItem(RefreshTokenKey))
      ensures refreshedWith.None? ==>
        && |sent| == 1 && outcome == Finish(first) && !redirectedToLogin
        && storage.entries == old(storage.entries)
      ensures refreshedWith.Some? && TryRefreshToken(refresh).Some? ==>
        var t := TryRefreshToken(refresh).value;
        && storage.entries == WithCredentials(old(storage.entries), Interpolate(t.accessToken), Interpolate(t.refreshToken))
        && |sent| == 2 && sent[1] == Sent(url, SetAuthorization(sent[0].init, ReissueHeaderAsWritten(t)))
        && outcome == Finish(second) && !redirectedToLogin
      ensures refreshedWith.Some? && TryRefreshToken(refresh).None? ==>
        && storage.entries == WithoutCredentials(old(storage.entries))
        && |sent| == 1 && redirectedToLogin && outcome == HttpError(401)
    {
      var token := storage.GetItem(TokenKey);
      var refreshToken := storage.GetItem(RefreshTokenKey);
      var init := WithStoredToken(options, token);
      sent := [Sent(url, init)];
      var response := first;
      refreshedWith := None;
      redirectedToLogin := false;
      if response.Reply? && response.status == 401 && Truthy(refreshToken) {
        refreshedWith := refreshToken;
        var newToken := TryRefreshToken(refresh);
        if newToken.Some? {
          storage.SetItem(TokenKey, Interpolate(newToken.value.accessToken));
          storage.SetItem(RefreshTokenKey, Interpolate(newToken.value.refreshToken));
          init := SetAuthorization(init, ReissueHeaderAsWritten(newToken.value));
          sent := sent + [Sent(url, init)];
          response := second;
        } else {
          storage.RemoveItem(TokenKey);
          storage.RemoveItem(RefreshTokenKey);
          redirectedToLogin := true;
        }
      }
      outcome := Finish(response);
    }

    /** `get`, `post`, `put` and `del`: `fetchWithAuth` with the options of the verb (`json`
        is the serialised body, unused by GET and DELETE). */
    method Send<T>(verb: Verb, url: string, json: string, first: Reply<T>, refresh: RefreshReply, second: Reply<T>)
      returns (outcome: Outcome<T>, sent: seq<Sent>, refreshedWith: Option<string>, redirectedToLogin: bool)
      modifies storage
      ensures 1 <= |sent| <= 2
      ensures sent[0] == Sent(url, WithStoredToken(VerbInit(verb, json), old(storage.GetItem(TokenKey))))
      ensures forall i :: 0 <= i < |sent| ==> sent[i].init.verb == verb && sent[i].init.body == VerbInit(verb, json).body
      ensures refreshedWith.Some? <==>
        first.Reply? && first.status == 401 && Truthy(old(storage.GetItem(RefreshTokenKey)))
      ensures refreshedWith.Some? ==> refreshedWith == old(storage.GetItem(RefreshTokenKey))
      ensures refreshedWith.None? ==>
        && |sent| == 1 && outcome == Finish(first) && !redirectedToLogin
        && storage.entries == old(storage.entries)
      ensures refreshedWith.Some? && TryRefreshToken(refresh).Some? ==>
        var t := TryRefreshToken(refresh).value;
        && storage.entries == WithCredentials(old(storage.entries), Interpolate(t.accessToken), Interpolate(t.refreshToken))
        && |sent| == 2 && sent[1] == Sent(url, SetAuthorization(sent[0].init, ReissueHeaderAsWritten(t)))
        && outcome == Finish(second) && !redirectedToLogin
      ensures refreshedWith.Some? && TryRefreshToken(refresh).None? ==>
        && storage.entries == WithoutCredentials(old(storage.entries))
        && |sent| == 1 && redirectedToLogin && outcome == HttpError(401)
    {
      outcome, sent, refreshedWith, redirectedToLogin := FetchWithAuth(url, VerbInit(verb, json), first, refresh, second);
    }
  }
}
