/**
 * The shared API client's interceptors (frontend/src/api/axios.js): the bearer token on every request and the
 * refresh-and-retry state machine on failed responses. Each awaited step becomes a separate method call.
 */
module RequestPipeline {
  import opened Common
  import opened TokenStore

  const AUTHORIZATION: string := "Authorization"
  const BEARER: string := "Bearer "
  const TOKEN_EXPIRED: string := "token_expired"

  /** A request config: its headers and the `_retry` marker the response handler sets. */
  datatype Request = Request(url: string, headers: map<string, string>, retry: bool)

  /** A rejected call: the response status and `data.error_type` when a response arrived, and the request config. */
  datatype ApiError = ApiError(status: Option<int>, errorType: Option<string>, config: Request)

  /** Why a caller's promise was rejected: its own error, or the error the refresh call ended with. */
  datatype Reason = Original(err: ApiError) | RefreshError(cause: string)

  /** What the response-error handler did with a failed call. */
  datatype Handled =
    | Rejected(reason: Reason)  // the call's promise is rejected now
    | Queued                    // parked in `failedQueue` until the refresh in progress settles
    | AwaitingRefresh           // this call started the refresh and waits for its outcome

  /** A promise parked in `failedQueue`, with the request it will re-send with the new token. */
  datatype Pending = Pending(request: Request)

  /** How one parked promise was settled by `processQueue`. */
  datatype Settled = Resumed(request: Request) | Dropped(request: Request, reason: Reason)

  /** The request with `Authorization: Bearer <token>` set. */
  function WithBearer(req: Request, token: string): (r: Request)
    ensures AUTHORIZATION in r.headers && r.headers[AUTHORIZATION] == BEARER + token
    ensures r.url == req.url && r.retry == req.retry
    ensures forall h :: h != AUTHORIZATION ==> (h in r.headers <==> h in req.headers)
    ensures forall h :: h in req.headers && h != AUTHORIZATION ==> r.headers[h] == req.headers[h]
  {
    req.(headers := req.headers[AUTHORIZATION := BEARER + token])
  }

  /** The request interceptor: attaches the stored access token when one is present, else sends the config unchanged. */
  function AttachToken(config: Request, token: Option<string>): (sent: Request)
    ensures Present(token) ==> sent == WithBearer(config, token.value)
    ensures !Present(token) ==> sent == config
  {
    if Present(token) then WithBearer(config, token.value) else config
  }

  /** Whether a failure takes the refresh branch: a 401 marked `token_expired` on a request not yet retried. */
  predicate IsRefreshable(err: ApiError)
  {
    err.status == Some(401) && err.errorType == Some(TOKEN_EXPIRED) && !err.config.retry
  }

  /** A request already marked `_retry` never takes the refresh branch again. */
  lemma RetriedIsNotRefreshable(err: ApiError)
    requires err.config.retry
    ensures !IsRefreshable(err)
  {
  }

  /** How `processQueue(error, token)` settles one parked promise. */
  function SettleOne(p: Pending, error: Option<Reason>, token: string): (s: Settled)
    ensures error.Some? ==> s == Dropped(p.request, error.value)
    ensures error.None? ==> s == Resumed(WithBearer(p.request, token))
  {
    match error
    case Some(reason) => Dropped(p.request, reason)
    case None => Resumed(WithBearer(p.request, token))
  }

  /** The `forEach` of `processQueue`: every parked promise settled in push order, all the same way. */
  method Settle(queue: seq<Pending>, error: Option<Reason>, token: string) returns (out: seq<Settled>)
    ensures |out| == |queue|
    ensures error.Some? ==> forall i :: 0 <= i < |out| ==> out[i] == Dropped(queue[i].request, error.value)
    ensures error.None? ==> forall i :: 0 <= i < |out| ==> out[i] == Resumed(WithBearer(queue[i].request, token))
  {
    out := [];
    var i := 0;
    while i < |queue|
      invariant 0 <= i <= |queue| && |out| == i
      invariant forall k :: 0 <= k < i ==> out[k] == SettleOne(queue[k], error, token)
    {
      out := out + [SettleOne(queue[i], error, token)];
      i := i + 1;
    }
  }

  /** The module-level state of the client: the refresh flag, the queue, and what the interceptors have done. */
  class Pipeline {
    const store: Storage
    var isRefreshing: bool
    var failedQueue: seq<Pending>
    /** The request that started the refresh in progress, already marked `_retry`. */
    var inFlight: Option<Request>
    /** How many times `window.location.href = '/login'` has been assigned. */
    var redirects: nat
    /** How many refresh calls have been issued. */
    var refreshCalls: nat

    /**
     * A request waits on a refresh only while one is in progress, only one is ever in progress, and the request
     * that started it is marked `_retry`.
     */
    ghost predicate Valid()
      reads this
    {
      && (isRefreshing <==> inFlight.Some?)
      && (!isRefreshing ==> failedQueue == [])
      && (inFlight.Some? ==> inFlight.value.retry)
    }

    constructor (store: Storage)
      ensures Valid() && this.store == store
      ensures !isRefreshing && failedQueue == [] && redirects == 0 && refreshCalls == 0
    {
      this.store := store;
      isRefreshing := false;
      failedQueue := [];
      inFlight := None;
      redirects := 0;
      refreshCalls := 0;
    }

    /** The request interceptor, reading the stored access token. */
    function OnRequest(config: Request): (sent: Request)
      reads store
      ensures Present(store.GetItem(TOKEN)) ==> AUTHORIZATION in sent.headers && sent.headers[AUTHORIZATION] == BEARER + store.items[TOKEN]
      ensures !Present(store.GetItem(TOKEN)) ==> sent == config
      ensures Present(store.GetItem(TOKEN)) ==> sent == WithBearer(config, store.items[TOKEN])
      ensures sent.url == config.url && sent.retry == config.retry
    {
      AttachToken(config, store.GetItem(TOKEN))
    }

    /** Nothing about the refresh in progress changed: no refresh started or settled and nothing was parked. */
    twostate predicate RefreshUntouched()
      reads this
    {
      && isRefreshing == old(isRefreshing) && failedQueue == old(failedQueue) && inFlight == old(inFlight)
      && refreshCalls == old(refreshCalls)
    }

    /** A call went through without a failure: the store and the redirects are as they were. */
    twostate predicate Untouched()
      reads this, store
    {
      store.items == old(store.items) && redirects == old(redirects) && RefreshUntouched()
    }

    /**
     * The effect of a rejected call with this status and no `error_type`: a 401 removes both tokens and sends the
     * user to log in once, anything else leaves the store and the redirects alone.
     */
    twostate predicate RejectedWith(status: Option<int>)
      reads this, store
    {
      && (status == Some(401) ==> store.items == Cleared(old(store.items)) && redirects == old(redirects) + 1)
      && (status != Some(401) ==> store.items == old(store.items) && redirects == old(redirects))
      && RefreshUntouched()
    }

    /**
     * The response handler on a failed call to `url` whose body has no `error_type`, which is every failure the
     * backend sends: the call is rejected with its own error, and a 401 clears the session.
     */
    method RejectUnmarked(status: Option<int>, url: string) returns (h: Handled)
      requires Valid()
      modifies this, store
      ensures Valid() && RejectedWith(status)
      ensures h == Rejected(Original(ApiError(status, None, old(OnRequest(Request(url, map[], false))))))
    {
      h := OnResponseError(ApiError(status, None, OnRequest(Request(url, map[], false))));
    }

    /** `processQueue`: settles every parked promise in order, then empties the queue. */
    method ProcessQueue(error: Option<Reason>, token: string) returns (settled: seq<Settled>)
      modifies this
      ensures failedQueue == []
      ensures |settled| == |old(failedQueue)|
      ensures forall i :: 0 <= i < |settled| ==> settled[i] == SettleOne(old(failedQueue)[i], error, token)
      ensures isRefreshing == old(isRefreshing) && inFlight == old(inFlight)
      ensures redirects == old(redirects) && refreshCalls == old(refreshCalls)
    {
      settled := Settle(failedQueue, error, token);
      failedQueue := [];
    }

    /**
     * The response interceptor's error handler, up to its first suspension. A refreshable failure is parked while
     * a refresh is in progress; otherwise it marks its request `_retry` and starts the refresh, unless no refresh
     * token is stored, in which case it redirects and rejects. Any other 401 clears both tokens and redirects.
     */
    method OnResponseError(err: ApiError) returns (h: Handled)
      requires Valid()
      modifies this, store
      ensures Valid()
      ensures IsRefreshable(err) && old(isRefreshing) ==>
                && h == Queued
                && failedQueue == old(failedQueue) + [Pending(err.config)]
                && isRefreshing && inFlight == old(inFlight) && refreshCalls == old(refreshCalls)
                && redirects == old(redirects) && store.items == old(store.items)
      ensures IsRefreshable(err) && !old(isRefreshing) && !Present(old(store.GetItem(REFRESH_TOKEN))) ==>
                && h == Rejected(Original(err.(config := err.config.(retry := true))))
                && !isRefreshing && failedQueue == [] && refreshCalls == old(refreshCalls)
                && redirects == old(redirects) + 1 && store.items == old(store.items)
      ensures IsRefreshable(err) && !old(isRefreshing) && Present(old(store.GetItem(REFRESH_TOKEN))) ==>
                && h == AwaitingRefresh
                && isRefreshing && inFlight == Some(err.config.(retry := true)) && failedQueue == []
                && refreshCalls == old(refreshCalls) + 1
                && redirects == old(redirects) && store.items == old(store.items)
      ensures !IsRefreshable(err) && err.status == Some(401) ==>
                && h == Rejected(Original(err))
                && store.items == Cleared(old(store.items)) && redirects == old(redirects) + 1
                && isRefreshing == old(isRefreshing) && failedQueue == old(failedQueue) && inFlight == old(inFlight)
                && refreshCalls == old(refreshCalls)
      ensures !IsRefreshable(err) && err.status != Some(401) ==>
                && h == Rejected(Original(err))
                && store.items == old(store.items) && redirects == old(redirects)
                && isRefreshing == old(isRefreshing) && failedQueue == old(failedQueue) && inFlight == old(inFlight)
                && refreshCalls == old(refreshCalls)
    {
      if IsRefreshable(err) {
        if isRefreshing {
          failedQueue := failedQueue + [Pending(err.config)];
          return Queued;
        }
        var original := err.config.(retry := true);
        isRefreshing := true;
        var refreshToken := store.GetItem(REFRESH_TOKEN);
        if !Present(refreshToken) {
          redirects := redirects + 1;
          isRefreshing := false;
          return Rejected(Original(err.(config := original)));
        }
        refreshCalls := refreshCalls + 1;
        inFlight := Some(original);
        return AwaitingRefresh;
      }
      if err.status == Some(401) {
        store.ClearTokens();
        redirects := redirects + 1;
      }
      h := Rejected(Original(err));
    }

    /**
     * The refresh call answered with a new access token: it is stored (the refresh token is kept), every parked
     * promise resumes with it, and the request that started the refresh is re-sent once with it.
     */
    method RefreshSucceeded(accessToken: string) returns (retry: Request, settled: seq<Settled>)
      requires Valid() && isRefreshing
      modifies this, store
      ensures Valid() && !isRefreshing && failedQueue == []
      ensures store.items == old(store.items)[TOKEN := accessToken]
      ensures retry == WithBearer(old(inFlight).value, accessToken) && retry.retry
      ensures |settled| == |old(failedQueue)|
      ensures forall i :: 0 <= i < |settled| ==> settled[i] == Resumed(WithBearer(old(failedQueue)[i].request, accessToken))
      ensures redirects == old(redirects) && refreshCalls == old(refreshCalls)
    {
      store.SetItem(TOKEN, accessToken);
      settled := ProcessQueue(None, accessToken);
      retry := WithBearer(inFlight.value, accessToken);
      isRefreshing := false;
      inFlight := None;
    }

    /** The refresh call failed: every parked promise is rejected with its error, both tokens go, and the user is sent to log in. */
    method RefreshFailed(cause: string) returns (reason: Reason, settled: seq<Settled>)
      requires Valid() && isRefreshing
      modifies this, store
      ensures Valid() && !isRefreshing && failedQueue == []
      ensures reason == RefreshError(cause)
      ensures store.items == Cleared(old(store.items))
      ensures |settled| == |old(failedQueue)|
      ensures forall i :: 0 <= i < |settled| ==> settled[i] == Dropped(old(failedQueue)[i].request, reason)
      ensures redirects == old(redirects) + 1 && refreshCalls == old(refreshCalls)
    {
      reason := RefreshError(cause);
      settled := ProcessQueue(Some(reason), "");
      store.ClearTokens();
      redirects := redirects + 1;
      isRefreshing := false;
      inFlight := None;
    }
  }
}
