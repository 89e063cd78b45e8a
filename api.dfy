/**
 * The API client's response interceptor and the single-flight token refresh
 * it coordinates. The refresh flag and the queue of waiting requests are
 * module-level: every client built by setupAPIClient shares them. Each
 * interceptor call and each settlement of the refresh request is one atomic
 * step, as JavaScript runs one handler at a time.
 */
module Api {
  import opened Wrappers
  import opened Cookies
  import AuthContext

  const UNAUTHORIZED := 401
  /** The `code` of a 401 body that selects the refresh path. */
  const TOKEN_EXPIRED := "token.expired"
  const AUTHORIZATION := "Authorization"

  /** The part of a request's config the interceptor touches: its headers,
      which may be missing. */
  datatype RequestConfig = RequestConfig(url: string, headers: Option<map<string, string>>)

  /** `error.response`: its status and the `code` field of its body. */
  datatype ErrorResponse = ErrorResponse(status: int, code: Option<string>)

  /** An AxiosError: the response, if one arrived, and the request's config. */
  datatype AxiosError = AxiosError(response: Option<ErrorResponse>, config: Option<RequestConfig>)

  /** Why a promise from the interceptor is rejected. */
  datatype Rejection = RejectedWith(error: AxiosError) | AuthTokenError

  /** The interceptor's answer to an error: a promise that waits on the queue,
      or one already rejected. */
  datatype InterceptResult = Queued | Rejected(reason: Rejection)

  /** One failedRequestsQueue entry: the client and request it belongs to and
      the config its callbacks captured. */
  datatype QueuedRequest = QueuedRequest(client: nat, request: nat, config: Option<RequestConfig>)

  /** What a queue callback did: reissue the request with this config, or
      reject the waiting promise. */
  datatype Settlement = Reissued(config: RequestConfig) | Failed(reason: Rejection)
  datatype Settled = Settled(client: nat, request: nat, how: Settlement)

  /** One `POST /refresh` issued by a client, with the refresh token it sent
      (`undefined` when the cookie is missing). */
  datatype RefreshCall = RefreshCall(client: nat, refreshToken: Option<string>)

  /** The success handler: every response passes unchanged. */
  function OnFulfilled<R>(response: R): (r: R)
    ensures r == response
  {
    response
  }

  /** `error.response?.status === 401`. */
  predicate IsUnauthorized(error: AxiosError) {
    error.response.Some? && error.response.value.status == UNAUTHORIZED
  }

  /** A 401 whose body code is "token.expired". */
  predicate IsTokenExpired(error: AxiosError) {
    IsUnauthorized(error) && error.response.value.code == Some(TOKEN_EXPIRED)
  }

  /** `!originalConfig?.headers` fails: the entry can be reissued. */
  predicate HasHeaders(entry: QueuedRequest) {
    entry.config.Some? && entry.config.value.headers.Some?
  }

  /** The config with its `Authorization` header set to "Bearer " + token. */
  function WithAuthorization(config: RequestConfig, token: string): (c: RequestConfig)
    requires config.headers.Some?
    ensures c.url == config.url && c.headers.Some?
    ensures c.headers.value.Keys == config.headers.value.Keys + {AUTHORIZATION}
    ensures c.headers.value[AUTHORIZATION] == Bearer(token)
    ensures forall h :: h in config.headers.value && h != AUTHORIZATION ==>
      c.headers.value[h] == config.headers.value[h]
  {
    config.(headers := Some(config.headers.value[AUTHORIZATION := Bearer(token)]))
  }

  /** One entry's onSuccess(token): an entry without headers returns without
      settling; any other is reissued with the new header. */
  function OnSuccess(entry: QueuedRequest, token: string): seq<Settled> {
    if HasHeaders(entry) then [Settled(entry.client, entry.request, Reissued(WithAuthorization(entry.config.value, token)))]
    else []
  }

  /** The success drain: every entry's onSuccess, in queue order. Each
      settlement is the reissue, with the new header, of a queued entry that
      has headers, and there are never more settlements than entries. */
  function Reissues(queue: seq<QueuedRequest>, token: string): (r: seq<Settled>)
    ensures |r| <= |queue|
    ensures forall s :: s in r ==> exists k :: (0 <= k < |queue| && HasHeaders(queue[k]) &&
      s == Settled(queue[k].client, queue[k].request, Reissued(WithAuthorization(queue[k].config.value, token))))
  {
    if queue == [] then []
    else
      var rest := Reissues(queue[1..], token);
      assert forall s :: s in rest ==> exists k :: (0 <= k < |queue| && HasHeaders(queue[k]) &&
        s == Settled(queue[k].client, queue[k].request, Reissued(WithAuthorization(queue[k].config.value, token)))) by {
        forall s | s in rest
          ensures exists k :: (0 <= k < |queue| && HasHeaders(queue[k]) &&
            s == Settled(queue[k].client, queue[k].request, Reissued(WithAuthorization(queue[k].config.value, token))))
        {
          var j :| 0 <= j < |queue[1..]| && HasHeaders(queue[1..][j]) &&
            s == Settled(queue[1..][j].client, queue[1..][j].request, Reissued(WithAuthorization(queue[1..][j].config.value, token)));
          assert queue[1..][j] == queue[j + 1];
        }
      }
      OnSuccess(queue[0], token) + rest
  }

  /** The entries of a queue whose config has headers, in queue order. */
  function WithHeaders(queue: seq<QueuedRequest>): (f: seq<QueuedRequest>)
    ensures |f| <= |queue|
    ensures forall k :: 0 <= k < |f| ==> HasHeaders(f[k])
    ensures forall e :: e in f <==> e in queue && HasHeaders(e)
  {
    if queue == [] then []
    else (if HasHeaders(queue[0]) then [queue[0]] else []) + WithHeaders(queue[1..])
  }

  /** Reissuing every entry of a queue whose entries all have headers. */
  function ReissueAll(queue: seq<QueuedRequest>, token: string): (r: seq<Settled>)
    requires forall k :: 0 <= k < |queue| ==> HasHeaders(queue[k])
    ensures |r| == |queue|
    ensures forall k :: 0 <= k < |r| ==>
      HasHeaders(queue[k]) &&
      r[k] == Settled(queue[k].client, queue[k].request, Reissued(WithAuthorization(queue[k].config.value, token)))
  {
    seq(|queue|, k requires 0 <= k < |queue| =>
      assert HasHeaders(queue[k]);
      Settled(queue[k].client, queue[k].request, Reissued(WithAuthorization(queue[k].config.value, token))))
  }

  /** Filtering two queue segments is filtering one, then the other, so the
      kept entries stay in queue order, each as often as it was queued. */
  lemma {:induction false} WithHeadersAppend(a: seq<QueuedRequest>, b: seq<QueuedRequest>)
    ensures WithHeaders(a + b) == WithHeaders(a) + WithHeaders(b)
  {
    if a == [] {
      assert a + b == b;
    } else {
      assert (a + b)[1..] == a[1..] + b;
      WithHeadersAppend(a[1..], b);
    }
  }

  /** Reissuing two segments whose entries all have headers is reissuing
      one, then the other. */
  lemma ReissueAllAppend(a: seq<QueuedRequest>, b: seq<QueuedRequest>, token: string)
    requires forall k :: 0 <= k < |a| ==> HasHeaders(a[k])
    requires forall k :: 0 <= k < |b| ==> HasHeaders(b[k])
    ensures forall k :: 0 <= k < |a + b| ==> HasHeaders((a + b)[k])
    ensures ReissueAll(a + b, token) == ReissueAll(a, token) + ReissueAll(b, token)
  {
    assert forall k :: 0 <= k < |a + b| ==> (a + b)[k] == if k < |a| then a[k] else b[k - |a|];
  }

  /** The success drain is exactly: drop the entries without headers, then
      reissue each remaining one once, in queue order, with the new header. */
  lemma {:induction false} ReissuesAreFilteredQueue(queue: seq<QueuedRequest>, token: string)
    ensures Reissues(queue, token) == ReissueAll(WithHeaders(queue), token)
  {
    if queue != [] {
      ReissuesAreFilteredQueue(queue[1..], token);
      var head := if HasHeaders(queue[0]) then [queue[0]] else [];
      var tail := WithHeaders(queue[1..]);
      assert WithHeaders(queue) == head + tail;
      ReissueAllAppend(head, tail, token);
      assert ReissueAll(head, token) == OnSuccess(queue[0], token);
    }
  }

  /** The failure drain: every entry's onFailure(error), in queue order. The
      k-th settlement rejects the k-th waiting request with the refresh error. */
  function Rejections(queue: seq<QueuedRequest>, error: AxiosError): (r: seq<Settled>)
    ensures |r| == |queue|
    ensures forall k :: 0 <= k < |r| ==>
      r[k] == Settled(queue[k].client, queue[k].request, Failed(RejectedWith(error)))
  {
    if queue == [] then []
    else [Settled(queue[0].client, queue[0].request, Failed(RejectedWith(error)))] + Rejections(queue[1..], error)
  }

  /** Draining two queue segments is draining one, then the other. */
  lemma {:induction false} ReissuesAppend(a: seq<QueuedRequest>, b: seq<QueuedRequest>, token: string)
    ensures Reissues(a + b, token) == Reissues(a, token) + Reissues(b, token)
  {
    if a == [] {
      assert a + b == b;
    } else {
      assert (a + b)[1..] == a[1..] + b;
      ReissuesAppend(a[1..], b, token);
    }
  }

  /** Every reissued request carries "Bearer " + the one new token. */
  lemma {:induction false} ReissuesCarryToken(queue: seq<QueuedRequest>, token: string)
    ensures forall s :: s in Reissues(queue, token) ==>
      s.how.Reissued? && s.how.config.headers.Some? &&
      AUTHORIZATION in s.how.config.headers.value &&
      s.how.config.headers.value[AUTHORIZATION] == Bearer(token)
  {
    if queue != [] {
      ReissuesCarryToken(queue[1..], token);
    }
  }

  /** A request is reissued exactly when it was queued with headers; entries
      without headers are never settled. */
  lemma {:induction false} ReissuedIffQueuedWithHeaders(queue: seq<QueuedRequest>, token: string,
                                                        client: nat, request: nat)
    ensures (exists s :: s in Reissues(queue, token) && s.client == client && s.request == request) <==>
            (exists e :: e in queue && HasHeaders(e) && e.client == client && e.request == request)
  {
    if queue != [] {
      ReissuedIffQueuedWithHeaders(queue[1..], token, client, request);
      var e := queue[0];
      assert Reissues(queue, token) == OnSuccess(e, token) + Reissues(queue[1..], token);
      assert forall e' :: e' in queue <==> e' == e || e' in queue[1..];
    }
  }

  /** When every waiting request has headers, all of them are reissued, one
      each, in the order they were queued. */
  lemma {:induction false} ReissuesInQueueOrder(queue: seq<QueuedRequest>, token: string)
    requires forall k :: 0 <= k < |queue| ==> HasHeaders(queue[k])
    ensures |Reissues(queue, token)| == |queue|
    ensures forall k :: 0 <= k < |queue| ==>
      HasHeaders(queue[k]) &&
      Reissues(queue, token)[k] ==
        Settled(queue[k].client, queue[k].request, Reissued(WithAuthorization(queue[k].config.value, token)))
  {
    if queue != [] {
      ReissuesInQueueOrder(queue[1..], token);
    }
  }

  /**
   * The module-level state shared by every client: the `isRefreshing` flag
   * and `failedRequestsQueue`, with the log of refresh calls made, the log of
   * queue callbacks fired, and the number of refresh calls that have settled.
   * `refreshOwner` is the client whose refresh call is outstanding.
   */
  class RefreshCoordinator {
    var isRefreshing: bool
    var failedRequestsQueue: seq<QueuedRequest>
    var refreshCalls: seq<RefreshCall>
    var settled: seq<Settled>
    var settledRefreshes: nat
    ghost var refreshOwner: ApiClient?

    /** Single flight: the flag is up exactly while one refresh call is
        outstanding, and nothing waits on the queue while it is down. */
    ghost predicate Valid()
      reads this
    {
      && (isRefreshing <==> refreshOwner != null)
      && (!isRefreshing ==> failedRequestsQueue == [])
      && |refreshCalls| == settledRefreshes + (if isRefreshing then 1 else 0)
    }

    constructor ()
      ensures Valid() && !isRefreshing
      ensures failedRequestsQueue == [] && refreshCalls == [] && settled == [] && settledRefreshes == 0
    {
      isRefreshing := false;
      failedRequestsQueue := [];
      refreshCalls := [];
      settled := [];
      settledRefreshes := 0;
      refreshOwner := null;
    }
  }

  /**
   * One client made by setupAPIClient: the context whose cookies it reads
   * (a server request, or the browser when built without one), its two
   * default `Authorization` slots, and the shared module state.
   * `instanceAuth` is the header given to `axios.create`; `commonAuth` is
   * `api.defaults.headers.common["Authorization"]`, unset until a refresh
   * writes it. Axios lets the instance header override the common one, so a
   * new request from this client sends `instanceAuth`.
   */
  class ApiClient {
    const id: nat
    const ctx: Context
    const shared: RefreshCoordinator
    var instanceAuth: string
    var commonAuth: Option<string>

    /** setupAPIClient(ctx): the instance header is built from the token
        cookie as it is at creation, "Bearer undefined" when it is missing;
        the common header is not set. */
    constructor (id: nat, ctx: Context, shared: RefreshCoordinator)
      ensures this.id == id && this.ctx == ctx && this.shared == shared
      ensures instanceAuth == BearerOf(Lookup(ctx.cookies, TOKEN_COOKIE)) && commonAuth == None
    {
      this.id := id;
      this.ctx := ctx;
      this.shared := shared;
      instanceAuth := BearerOf(Lookup(ctx.cookies, TOKEN_COOKIE));
      commonAuth := None;
    }

    /**
     * The error handler. An expired token queues the request and, unless a
     * refresh is already under way, raises the flag and issues the one
     * refresh call with the refresh-token cookie. Any other 401 rejects with
     * AuthTokenError on the server, and in the browser signs out and rejects
     * with the original error. Every other error is rejected unchanged.
     */
    method OnRejected(error: AxiosError, request: nat) returns (r: InterceptResult)
      requires shared.Valid()
      modifies shared, ctx
      ensures shared.Valid()
      ensures instanceAuth == old(instanceAuth) && commonAuth == old(commonAuth)
      ensures !IsUnauthorized(error) ==>
        r == Rejected(RejectedWith(error)) && unchanged(shared, ctx)
      ensures IsTokenExpired(error) ==>
        && r == Queued
        && shared.failedRequestsQueue == old(shared.failedRequestsQueue) + [QueuedRequest(id, request, error.config)]
        && shared.isRefreshing
        && shared.settled == old(shared.settled) && shared.settledRefreshes == old(shared.settledRefreshes)
        && unchanged(ctx)
      ensures IsTokenExpired(error) && old(shared.isRefreshing) ==>
        shared.refreshCalls == old(shared.refreshCalls) && shared.refreshOwner == old(shared.refreshOwner)
      ensures IsTokenExpired(error) && !old(shared.isRefreshing) ==>
        && shared.refreshCalls == old(shared.refreshCalls) + [RefreshCall(id, Lookup(old(ctx.cookies), REFRESH_TOKEN_COOKIE))]
        && shared.refreshOwner == this
      ensures IsUnauthorized(error) && !IsTokenExpired(error) && !ctx.isBrowser ==>
        r == Rejected(AuthTokenError) && unchanged(shared, ctx)
      ensures IsUnauthorized(error) && !IsTokenExpired(error) && ctx.isBrowser ==>
        && r == Rejected(RejectedWith(error)) && unchanged(shared)
        && ctx.cookies == ClearSession(old(ctx.cookies))
        && ctx.routes == old(ctx.routes) + [AuthContext.SIGN_OUT_ROUTE]
    {
      if IsUnauthorized(error) {
        if error.response.value.code == Some(TOKEN_EXPIRED) {
          var refreshToken := Lookup(ctx.cookies, REFRESH_TOKEN_COOKIE);
          if !shared.isRefreshing {
            shared.isRefreshing := true;
            shared.refreshOwner := this;
            shared.refreshCalls := shared.refreshCalls + [RefreshCall(id, refreshToken)];
          }
          shared.failedRequestsQueue := shared.failedRequestsQueue + [QueuedRequest(id, request, error.config)];
          return Queued;
        } else if !ctx.isBrowser {
          return Rejected(AuthTokenError);
        } else {
          AuthContext.SignOut(ctx);
        }
      }
      r := Rejected(RejectedWith(error));
    }

    /**
     * The refresh call this client issued succeeded with a new token pair:
     * both cookies are stored, the common header carries the new token,
     * every waiting request that has headers is reissued in queue order with
     * that token, the queue is emptied and the flag goes down. The instance
     * header keeps the token of the client's creation, and it is the one
     * axios sends on this client's later requests.
     */
    method RefreshSucceeded(token: string, refreshToken: string)
      requires shared.Valid() && shared.refreshOwner == this
      modifies this, shared, ctx
      ensures shared.Valid() && !shared.isRefreshing && shared.failedRequestsQueue == []
      ensures shared.settled == old(shared.settled) + Reissues(old(shared.failedRequestsQueue), token)
      ensures shared.refreshCalls == old(shared.refreshCalls)
      ensures shared.settledRefreshes == old(shared.settledRefreshes) + 1
      ensures ctx.cookies == StoreSession(old(ctx.cookies), token, refreshToken)
      ensures ctx.routes == old(ctx.routes)
      ensures commonAuth == Some(Bearer(token))
      ensures instanceAuth == old(instanceAuth)
    {
      ctx.Set(TOKEN_COOKIE, token, SESSION_MAX_AGE, SESSION_PATH);
      ctx.Set(REFRESH_TOKEN_COOKIE, refreshToken, SESSION_MAX_AGE, SESSION_PATH);
      commonAuth := Some(Bearer(token));
      var queue := shared.failedRequestsQueue;
      var i := 0;
      while i < |queue|
        invariant 0 <= i <= |queue|
        invariant shared.settled == old(shared.settled) + Reissues(queue[..i], token)
        invariant ctx.cookies == StoreSession(old(ctx.cookies), token, refreshToken)
        invariant ctx.routes == old(ctx.routes) && commonAuth == Some(Bearer(token))
        invariant instanceAuth == old(instanceAuth)
        invariant shared.isRefreshing == old(shared.isRefreshing)
        invariant shared.refreshCalls == old(shared.refreshCalls)
        invariant shared.settledRefreshes == old(shared.settledRefreshes)
        invariant shared.refreshOwner == old(shared.refreshOwner)
      {
        ReissuesAppend(queue[..i], [queue[i]], token);
        assert queue[..i + 1] == queue[..i] + [queue[i]];
        shared.settled := shared.settled + OnSuccess(queue[i], token);
        i := i + 1;
      }
      assert queue[..i] == queue;
      shared.failedRequestsQueue := [];
      shared.isRefreshing := false;
      shared.refreshOwner := null;
      shared.settledRefreshes := shared.settledRefreshes + 1;
    }

    /**
     * The refresh call this client issued failed: every waiting request is
     * rejected with that error in queue order, the queue is emptied, the
     * browser signs out, and the flag goes down.
     */
    method RefreshFailed(error: AxiosError)
      requires shared.Valid() && shared.refreshOwner == this
      modifies shared, ctx
      ensures shared.Valid() && !shared.isRefreshing && shared.failedRequestsQueue == []
      ensures shared.settled == old(shared.settled) + Rejections(old(shared.failedRequestsQueue), error)
      ensures shared.refreshCalls == old(shared.refreshCalls)
      ensures shared.settledRefreshes == old(shared.settledRefreshes) + 1
      ensures instanceAuth == old(instanceAuth) && commonAuth == old(commonAuth)
      ensures ctx.isBrowser ==>
        ctx.cookies == ClearSession(old(ctx.cookies)) && ctx.routes == old(ctx.routes) + [AuthContext.SIGN_OUT_ROUTE]
      ensures !ctx.isBrowser ==> unchanged(ctx)
    {
      var queue := shared.failedRequestsQueue;
      var i := 0;
      while i < |queue|
        invariant 0 <= i <= |queue|
        invariant shared.settled == old(shared.settled) + Rejections(queue[..i], error)
        invariant unchanged(ctx)
        invariant shared.isRefreshing == old(shared.isRefreshing)
        invariant shared.refreshCalls == old(shared.refreshCalls)
        invariant shared.settledRefreshes == old(shared.settledRefreshes)
        invariant shared.refreshOwner == old(shared.refreshOwner)
      {
        assert queue[..i + 1] == queue[..i] + [queue[i]];
        shared.settled := shared.settled + [Settled(queue[i].client, queue[i].request, Failed(RejectedWith(error)))];
        i := i + 1;
      }
      assert queue[..i] == queue;
      shared.failedRequestsQueue := [];
      if ctx.isBrowser {
        AuthContext.SignOut(ctx);
      }
      shared.isRefreshing := false;
      shared.refreshOwner := null;
      shared.settledRefreshes := shared.settledRefreshes + 1;
    }
  }
  /** How the outstanding refresh call settles. */
  datatype RefreshOutcome = RefreshOk(token: string, refreshToken: string) | RefreshError(error: AxiosError)

  /** The queue entries for consecutive requests of one client. */
  function Enqueued(client: nat, firstRequest: nat, configs: seq<Option<RequestConfig>>): (q: seq<QueuedRequest>)
    ensures |q| == |configs|
    ensures forall k :: 0 <= k < |q| ==> q[k] == QueuedRequest(client, firstRequest + k, configs[k])
  {
    seq(|configs|, k requires 0 <= k < |configs| => QueuedRequest(client, firstRequest + k, configs[k]))
  }

  /** The configs the errors carry, in order. */
  function ConfigsOf(errors: seq<AxiosError>): (c: seq<Option<RequestConfig>>)
    ensures |c| == |errors| && forall k :: 0 <= k < |c| ==> c[k] == errors[k].config
  {
    seq(|errors|, k requires 0 <= k < |errors| => errors[k].config)
  }

  /**
   * K requests of one client fail with an expired token while no refresh is
   * under way, and then the refresh settles. Exactly one refresh call is
   * made; on success all K are reissued, in the order they failed, carrying
   * the one new token; on failure all K are rejected with the refresh error
   * and, in the browser, sign-out runs once.
   */
  method ConcurrentExpiry(client: ApiClient, errors: seq<AxiosError>, firstRequest: nat,
                          outcome: RefreshOutcome) returns (results: seq<InterceptResult>)
    requires client.shared.Valid() && !client.shared.isRefreshing
    requires |errors| > 0
    requires forall k :: 0 <= k < |errors| ==> IsTokenExpired(errors[k])
    modifies client, client.shared, client.ctx
    ensures client.shared.Valid() && !client.shared.isRefreshing && client.shared.failedRequestsQueue == []
    ensures results == seq(|errors|, _ => Queued)
    ensures client.shared.refreshCalls ==
      old(client.shared.refreshCalls) + [RefreshCall(client.id, Lookup(old(client.ctx.cookies), REFRESH_TOKEN_COOKIE))]
    ensures outcome.RefreshOk? ==>
      && client.shared.settled == old(client.shared.settled) + Reissues(Enqueued(client.id, firstRequest, ConfigsOf(errors)), outcome.token)
      && client.commonAuth == Some(Bearer(outcome.token))
      && client.instanceAuth == old(client.instanceAuth)
      && client.ctx.routes == old(client.ctx.routes)
      && client.ctx.cookies == StoreSession(old(client.ctx.cookies), outcome.token, outcome.refreshToken)
    ensures outcome.RefreshOk? && (forall k :: 0 <= k < |errors| ==> errors[k].config.Some? && errors[k].config.value.headers.Some?) ==>
      && |client.shared.settled| == |old(client.shared.settled)| + |errors|
      && forall k :: 0 <= k < |errors| ==>
           client.shared.settled[|old(client.shared.settled)| + k] ==
             Settled(client.id, firstRequest + k, Reissued(WithAuthorization(errors[k].config.value, outcome.token)))
    ensures outcome.RefreshError? ==>
      client.shared.settled == old(client.shared.settled) + Rejections(Enqueued(client.id, firstRequest, ConfigsOf(errors)), outcome.error)
    ensures outcome.RefreshError? && client.ctx.isBrowser ==>
      client.ctx.cookies == ClearSession(old(client.ctx.cookies)) &&
      client.ctx.routes == old(client.ctx.routes) + [AuthContext.SIGN_OUT_ROUTE]
  {
    var shared, ctx := client.shared, client.ctx;
    ghost var call := RefreshCall(client.id, Lookup(ctx.cookies, REFRESH_TOKEN_COOKIE));
    results := [];
    var i := 0;
    while i < |errors|
      invariant 0 <= i <= |errors|
      invariant shared.Valid() && unchanged(ctx) && unchanged(client)
      invariant results == seq(i, _ => Queued)
      invariant shared.failedRequestsQueue == Enqueued(client.id, firstRequest, ConfigsOf(errors)[..i])
      invariant shared.settled == old(shared.settled)
      invariant i == 0 ==> !shared.isRefreshing && shared.refreshCalls == old(shared.refreshCalls)
      invariant i > 0 ==> shared.isRefreshing && shared.refreshOwner == client &&
                          shared.refreshCalls == old(shared.refreshCalls) + [call]
    {
      var r := client.OnRejected(errors[i], firstRequest + i);
      assert ConfigsOf(errors)[..i + 1] == ConfigsOf(errors)[..i] + [errors[i].config];
      results := results + [r];
      i := i + 1;
    }
    assert ConfigsOf(errors)[..i] == ConfigsOf(errors);
    ghost var queue := shared.failedRequestsQueue;
    match outcome
    case RefreshOk(token, refreshToken) =>
      client.RefreshSucceeded(token, refreshToken);
      if forall k :: 0 <= k < |errors| ==> errors[k].config.Some? && errors[k].config.value.headers.Some? {
        ReissuesInQueueOrder(queue, token);
      }
    case RefreshError(error) =>
      client.RefreshFailed(error);
  }
}
