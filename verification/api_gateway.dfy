/** The axios-based request gateway of src/utils/api.ts: a request interceptor that attaches
    the stored bearer credential, and a response interceptor that, on a 401, either rejects,
    parks the request on a FIFO queue while a refresh is in flight, or becomes the single
    refresher. The process-wide `isRefreshing` flag and `refreshSubscribers` queue are the
    fields of `Gateway`; the two asynchronous events ("a 401 arrives for a request" and
    "the refresh call settles") are its methods. */
module Api {
  import opened Js
  import opened Storage
  import opened AuthHeader

  /** An axios request config: `id` names the request, `retry` is its `_retry` mark. */
  datatype Request = Request(id: nat, headers: Headers, retry: bool)

  /** How the `axios.post` to the refresh endpoint ended: it threw (no response, a status
      outside 2xx, or a body without an envelope), or it resolved with the payload found
      at `response.data.data`, which may be absent. */
  datatype RefreshCall = Threw | Resolved(data: Option<TokenData>)

  /** What the response interceptor does with an error. */
  datatype Decision = Reject | Enqueue | StartRefresh(refreshToken: string)

  /** How the refresher's suspended request ends: reissued together with every queued
      waiter, or rejected with its original error. */
  datatype Settlement = Reissued(waiters: seq<Request>, own: Request) | Rejected(own: Request)

  /** `r.headers["Authorization"] = "Bearer " + token`. */
  function SetAuthorization(r: Request, token: string): (r': Request)
    ensures r'.id == r.id && r'.retry == r.retry
    ensures Authorization in r'.headers && r'.headers[Authorization] == Bearer(token)
    ensures r'.headers.Keys == r.headers.Keys + {Authorization}
    ensures forall k :: k in r.headers && k != Authorization ==> r'.headers[k] == r.headers[k]
  {
    r.(headers := r.headers[Authorization := Bearer(token)])
  }

  /** The request interceptor: with a truthy stored "token" the request leaves with
      `Authorization: Bearer <token>`; otherwise it leaves untouched. */
  function AttachToken(stored: Option<string>, r: Request): (r': Request)
    ensures r'.id == r.id && r'.retry == r.retry
    ensures Truthy(stored) ==> Authorization in r'.headers && r'.headers[Authorization] == Bearer(stored.value)
    ensures Truthy(stored) ==> r'.headers.Keys == r.headers.Keys + {Authorization}
    ensures !Truthy(stored) ==> r'.headers == r.headers
    ensures forall k :: k in r.headers && k != Authorization ==> k in r'.headers && r'.headers[k] == r.headers[k]
  {
    if Truthy(stored) then SetAuthorization(r, stored.value) else r
  }

  /** `tryRefreshToken`: the payload when the call resolved with one, null otherwise. */
  function TryRefreshToken(call: RefreshCall): (r: Option<TokenData>)
    ensures r.Some? <==> call.Resolved? && call.data.Some?
    ensures r.Some? ==> r.value == call.data.value
  {
    match call
    case Threw => None
    case Resolved(data) => data
  }

  /** The response interceptor's choice for an error with the given status (None when no
      response arrived), the request's `_retry` mark, the stored refresh credential and the
      `isRefreshing` flag. */
  function Decide(status: Option<int>, retry: bool, refreshToken: Option<string>, refreshing: bool): (d: Decision)
    ensures d != Reject <==> status == Some(401) && !retry && Truthy(refreshToken)
    ensures d == Enqueue <==> d != Reject && refreshing
    ensures d.StartRefresh? <==> d != Reject && !refreshing
    ensures d.StartRefresh? ==> d.refreshToken == refreshToken.value
  {
    if status == Some(401) && !retry && Truthy(refreshToken) then
      if refreshing then Enqueue else StartRefresh(refreshToken.value)
    else
      Reject
  }

  /** What `onRefreshed(token)` hands back: every waiter, once, in the order it was queued,
      with the same new bearer credential and nothing else changed. */
  function Reissue(waiters: seq<Request>, token: string): (r: seq<Request>)
    ensures |r| == |waiters|
    ensures forall i :: 0 <= i < |r| ==>
      && r[i].id == waiters[i].id && r[i].retry == waiters[i].retry
      && Authorization in r[i].headers && r[i].headers[Authorization] == Bearer(token)
      && r[i].headers.Keys == waiters[i].headers.Keys + {Authorization}
    ensures forall i, k :: 0 <= i < |r| && k in waiters[i].headers && k != Authorization ==>
      r[i].headers[k] == waiters[i].headers[k]
  {
    seq(|waiters|, i requires 0 <= i < |waiters| => SetAuthorization(waiters[i], token))
  }

  /** The `forEach` of `onRefreshed`: each queued callback sets the header and reissues. */
  method ReissueAll(waiters: seq<Request>, token: string) returns (reissued: seq<Request>)
    ensures reissued == Reissue(waiters, token)
  {
    reissued := [];
    var i := 0;
    while i < |waiters|
      invariant 0 <= i <= |waiters|
      invariant reissued == Reissue(waiters[..i], token)
    {
      reissued := reissued + [SetAuthorization(waiters[i], token)];
      i := i + 1;
    }
    assert waiters[..i] == waiters;
  }

  /** A reissued request passes the request interceptor again; with the refreshed credential
      stored, the interceptor leaves it as it is. */
  lemma InterceptorKeepsRefreshedHeader(r: Request, token: string)
    ensures AttachToken(Some(token), SetAuthorization(r, token)) == SetAuthorization(r, token)
  {
    var r' := SetAuthorization(r, token);
    if token != "" {
      assert r'.headers[Authorization := Bearer(token)] == r'.headers;
    }
  }

  class Gateway {
    const storage: LocalStorage
    var isRefreshing: bool
    var refreshSubscribers: seq<Request>
    /** The request suspended at `await tryRefreshToken(...)`, if any. */
    var refresher: Option<Request>

    /** Single flight: a refresh is in flight exactly when one request is suspended on it,
        and that request carries its `_retry` mark. */
    ghost predicate Valid()
      reads this
    {
      && (isRefreshing <==> refresher.Some?)
      && (refresher.Some? ==> refresher.value.retry)
    }

    constructor (storage: LocalStorage)
      ensures Valid() && this.storage == storage
      ensures !isRefreshing && refreshSubscribers == [] && refresher == None
    {
      this.storage := storage;
      isRefreshing := false;
      refreshSubscribers := [];
      refresher := None;
    }

    /** The request interceptor, reading "token" at the moment the request leaves. */
    method InterceptRequest(r: Request) returns (r': Request)
      ensures r' == AttachToken(storage.GetItem(TokenKey), r)
    {
      var token := storage.GetItem(TokenKey);
      r' := AttachToken(token, r);
    }

    /** `subscribeTokenRefresh`: one waiter more, at the end of the queue. */
    method SubscribeTokenRefresh(r: Request)
      modifies this`refreshSubscribers
      ensures refreshSubscribers == old(refreshSubscribers) + [r]
    {
      refreshSubscribers := refreshSubscribers + [r];
    }

    /** `onRefreshed`: every waiter reissued in queue order with `token`, then the queue emptied. */
    method OnRefreshed(token: string) returns (reissued: seq<Request>)
      modifies this`refreshSubscribers
      ensures reissued == Reissue(old(refreshSubscribers), token)
      ensures refreshSubscribers == []
    {
      reissued := ReissueAll(refreshSubscribers, token);
      refreshSubscribers := [];
    }

    /** The response interceptor's synchronous part, for an error with the given status on
        request `r`: reject; or queue `r` behind the refresh in flight; or mark `r` retried,
        raise the flag and suspend `r` on a new refresh with the stored refresh credential. */
    method OnResponseError(r: Request, status: Option<int>) returns (d: Decision)
      requires Valid()
      modifies this
      ensures Valid()
      ensures d == Decide(status, r.retry, storage.GetItem(RefreshTokenKey), old(isRefreshing))
      ensures d == Reject ==>
        isRefreshing == old(isRefreshing) && refresher == old(refresher) && refreshSubscribers == old(refreshSubscribers)
      ensures d == Enqueue ==>
        isRefreshing && refresher == old(refresher) && refreshSubscribers == old(refreshSubscribers) + [r]
      ensures d.StartRefresh? ==>
        isRefreshing && refresher == Some(r.(retry := true)) && refreshSubscribers == old(refreshSubscribers)
    {
      var refreshToken := storage.GetItem(RefreshTokenKey);
      d := Decide(status, r.retry, refreshToken, isRefreshing);
      if d == Enqueue {
        SubscribeTokenRefresh(r);
      } else if d.StartRefresh? {
        refresher := Some(r.(retry := true));
        isRefreshing := true;
      }
    }

    /** The refresh call settles. The flag drops whatever the outcome. With a payload both
        credentials are written, then the queue is drained with the new access credential and
        the refresher's own request is reissued with it; without one both credentials are
        removed, the refresher's request is rejected and the queue is left as it is. */
    method OnRefreshSettled(call: RefreshCall) returns (s: Settlement)
      requires Valid() && isRefreshing
      modifies this, storage
      ensures Valid() && !isRefreshing && refresher == None
      ensures TryRefreshToken(call).Some? ==>
        var access := Interpolate(TryRefreshToken(call).value.accessToken);
        && storage.entries == WithCredentials(old(storage.entries), access, Interpolate(TryRefreshToken(call).value.refreshToken))
        && refreshSubscribers == []
        && s == Reissued(Reissue(old(refreshSubscribers), access), SetAuthorization(old(refresher).value, access))
      ensures TryRefreshToken(call).None? ==>
        && storage.entries == WithoutCredentials(old(storage.entries))
        && refreshSubscribers == old(refreshSubscribers)
        && s == Rejected(old(refresher).value)
      ensures s.Reissued? ==> forall w :: w in s.waiters + [s.own] ==>
        Authorization in w.headers && w.headers[Authorization] == Bearer(storage.entries[TokenKey])
    {
      var own := refresher.value;
      isRefreshing := false;
      refresher := None;
      var data := TryRefreshToken(call);
      if data.Some? {
        var access := Interpolate(data.value.accessToken);
        storage.SetItem(TokenKey, access);
        storage.SetItem(RefreshTokenKey, Interpolate(data.value.refreshToken));
        var waiters := OnRefreshed(access);
        s := Reissued(waiters, SetAuthorization(own, access));
      } else {
        storage.RemoveItem(TokenKey);
        storage.RemoveItem(RefreshTokenKey);
        s := Rejected(own);
      }
    }

    /** Several requests meet a 401 while no refresh is in flight and a refresh credential is
        stored: the first becomes the refresher and every later one queues behind it, in order. */
    method ReceiveUnauthorizedBurst(rs: seq<Request>) returns (ds: seq<Decision>)
      requires Valid() && !isRefreshing && Truthy(storage.GetItem(RefreshTokenKey))
      requires |rs| > 0 && forall i :: 0 <= i < |rs| ==> !rs[i].retry
      modifies this
      ensures Valid() && isRefreshing && refresher == Some(rs[0].(retry := true))
      ensures |ds| == |rs| && ds[0] == StartRefresh(storage.GetItem(RefreshTokenKey).value)
      ensures forall i :: 1 <= i < |ds| ==> ds[i] == Enqueue
      ensures refreshSubscribers == old(refreshSubscribers) + rs[1..]
    {
      var d := OnResponseError(rs[0], Some(401));
      ds := [d];
      var i := 1;
      while i < |rs|
        invariant 1 <= i <= |rs| && |ds| == i
        invariant Valid() && isRefreshing && refresher == Some(rs[0].(retry := true))
        invariant ds[0] == StartRefresh(storage.GetItem(RefreshTokenKey).value)
        invariant forall j :: 1 <= j < i ==> ds[j] == Enqueue
        invariant refreshSubscribers == old(refreshSubscribers) + rs[1..i]
      {
        d := OnResponseError(rs[i], Some(401));
        ds := ds + [d];
        assert rs[1..i + 1] == rs[1..i] + [rs[i]];
        i := i + 1;
      }
    }
  }
}
