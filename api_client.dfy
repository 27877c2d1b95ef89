/** The authenticated request wrapper (lib/services/api.client.ts): refresh
    before sending when the token is stale, attach `Authorization: Bearer`
    (section 2.1 of RFC 6750) and a default `Content-Type`, and on a 401
    (section 15.5.2 of RFC 9110) refresh once and retry once. */
module ApiClient {
  import opened Wrappers
  import opened Http
  import opened Browser
  import opened AuthService

  /** The part of `RequestInit` the callers use. */
  datatype RequestOptions = RequestOptions(verb: Option<string>, headers: map<string, string>, body: Option<JsonObject>)

  /** The replies to the up to four exchanges one call can make: the refresh
      before sending, the request, the refresh after a 401 and the retry.
      A reply is only consulted when its exchange takes place. */
  datatype Exchanges<B> = Exchanges(
    refreshFirst: Reply<TokenGrant>,
    first: Reply<B>,
    refreshAfter401: Reply<TokenGrant>,
    retry: Reply<B>)

  /** The message thrown when the refresh after a 401, or the retry, fails. */
  const SessionEndedMessage := "Session expirée"

  /** One `apiClient` call: its result, the store and redirect flag it
      leaves, the requests it sends (refreshes included), and how many API
      requests and refresh attempts it makes. */
  datatype Outcome<B> = Outcome(
    result: Result<Response<B>>,
    storage: map<string, string>,
    redirected: bool,
    sent: seq<Request>,
    apiRequests: nat,
    refreshes: nat)

  /** `getAccessToken()`. */
  function StoredToken(st: map<string, string>): Option<string> {
    if AccessTokenKey in st then Some(st[AccessTokenKey]) else None
  }

  /** `if (token) headers.set('Authorization', `Bearer ${token}`)`. */
  function Authorize(headers: map<string, string>, token: Option<string>): map<string, string> {
    if token.Some? && token.value != "" then headers["Authorization" := Bearer(token.value)] else headers
  }

  /** The caller's headers, then the bearer token, then a default
      Content-Type unless the caller set one. */
  function BuildHeaders(init: map<string, string>, token: Option<string>): map<string, string> {
    var h := Authorize(init, token);
    if "Content-Type" in h then h else h["Content-Type" := "application/json"]
  }

  /** `fetch(url, {...options, headers})`; the method defaults to GET. */
  function RequestFor(url: string, options: RequestOptions, headers: map<string, string>): Request {
    Request(url, options.verb.GetOr("GET"), headers, options.body)
  }

  /** The message of a non-401 error response: its `message` field, else
      `Erreur <status>`. */
  function ErrorMessageFor(status: int, body: Parsed<JsonObject>): string {
    OrElse(Field(ErrorFields(body), "message"), StatusMessage(status))
  }

  /** `apiClient(url, options)` at time `now`. */
  function ApiCall<B>(st: map<string, string>, url: string, options: RequestOptions, ex: Exchanges<B>, now: int): Outcome<B> {
    if IsTokenExpired(st, now) then
      var pre := RefreshStep(st, ex.refreshFirst, now);
      if pre.result.Failure? then
        Outcome(Failure(SessionExpiredMessage), Cleared(pre.storage), true, pre.sent, 0, 1)
      else
        var o := Send(pre.storage, url, options, ex, now);
        o.(sent := pre.sent + o.sent, refreshes := o.refreshes + 1)
    else
      Send(st, url, options, ex, now)
  }

  /** From step 2 on: build the headers, send, and handle the response. */
  function Send<B>(st: map<string, string>, url: string, options: RequestOptions, ex: Exchanges<B>, now: int): Outcome<B> {
    var headers := BuildHeaders(options.headers, StoredToken(st));
    var request := RequestFor(url, options, headers);
    match ex.first
    case NetworkFailure(reason) => Outcome(Failure(reason), st, false, [request], 1, 0)
    case Received(response) =>
      if response.Refused? && response.errorStatus == 401 then
        Retry(st, url, options, headers, ex, now)
      else if response.Refused? then
        Outcome(Failure(ErrorMessageFor(response.errorStatus, response.errorBody)), st, false, [request], 1, 0)
      else
        Outcome(Success(response), st, false, [request], 1, 0)
  }

  /** After a 401: refresh, put the new token in the headers, send again and
      return whatever comes back. */
  function Retry<B>(st: map<string, string>, url: string, options: RequestOptions, headers: map<string, string>,
                    ex: Exchanges<B>, now: int): Outcome<B> {
    var request := RequestFor(url, options, headers);
    var again := RefreshStep(st, ex.refreshAfter401, now);
    if again.result.Failure? then
      Outcome(Failure(SessionEndedMessage), Cleared(again.storage), true, [request] + again.sent, 1, 1)
    else
      var retryRequest := RequestFor(url, options, Authorize(headers, StoredToken(again.storage)));
      var sent := [request] + again.sent + [retryRequest];
      match ex.retry
      case NetworkFailure(_) => Outcome(Failure(SessionEndedMessage), Cleared(again.storage), true, sent, 2, 1)
      case Received(response) => Outcome(Success(response), again.storage, false, sent, 2, 1)
  }

  /** The effect of `logout(); window.location.href = '/'` on a failed call. */
  method EndSession(w: Window)
    modifies w
    ensures w.storage == Cleared(old(w.storage)) && w.redirectedHome
    ensures w.sent == old(w.sent) && w.reloadRequested == old(w.reloadRequested)
  {
    Logout(w);
    w.RedirectHome();
  }

  /** `apiClient(url, options)`. */
  method Call<B>(w: Window, url: string, options: RequestOptions, ex: Exchanges<B>, now: int)
    returns (r: Result<Response<B>>)
    modifies w
    ensures var o := ApiCall(old(w.storage), url, options, ex, now);
            r == o.result && w.storage == o.storage && w.sent == old(w.sent) + o.sent &&
            w.redirectedHome == (old(w.redirectedHome) || o.redirected)
    ensures w.reloadRequested == old(w.reloadRequested)
  {
    // Step 1: refresh a stale token before anything is sent.
    if IsTokenExpired(w.storage, now) {
      var refreshed := RefreshAccessToken(w, ex.refreshFirst, now);
      if refreshed.Failure? {
        EndSession(w);
        return Failure(SessionExpiredMessage);
      }
    }
    r := SendRequest(w, url, options, ex, now);
  }

  /** Steps 2 to 6 of `apiClient`: the headers, the request and what is done
      with its response. */
  method SendRequest<B>(w: Window, url: string, options: RequestOptions, ex: Exchanges<B>, now: int)
    returns (r: Result<Response<B>>)
    modifies w
    ensures var o := Send(old(w.storage), url, options, ex, now);
            r == o.result && w.storage == o.storage && w.sent == old(w.sent) + o.sent &&
            w.redirectedHome == (old(w.redirectedHome) || o.redirected)
    ensures w.reloadRequested == old(w.reloadRequested)
  {
    ghost var st0 := w.storage;
    var headers := RequestHeaders(w, options);
    var request := Request(url, options.verb.GetOr("GET"), headers, options.body);
    assert request == RequestFor(url, options, BuildHeaders(options.headers, StoredToken(st0)));
    var reply := w.Fetch(request, ex.first);
    match reply
    case NetworkFailure(reason) =>
      r := Failure(reason);
    case Received(response) =>
      if response.Refused? && response.errorStatus == 401 {
        ghost var o := Retry(st0, url, options, headers, ex, now);
        assert o.sent == [request] + o.sent[1..];
        r := RetryRequest(w, url, options, headers, ex, now);
      } else if response.Refused? {
        r := Failure(ErrorMessageFor(response.errorStatus, response.errorBody));
      } else {
        r := Success(response);
      }
  }

  /** Step 3 of `apiClient`: `new Headers(options.headers)`, then the two
      `headers.set` calls. */
  method RequestHeaders(w: Window, options: RequestOptions) returns (headers: map<string, string>)
    ensures headers == BuildHeaders(options.headers, StoredToken(w.storage))
  {
    var token := w.GetItem(AccessTokenKey);
    headers := options.headers;
    if token.Some? && token.value != "" {
      headers := headers["Authorization" := Bearer(token.value)];
    }
    if "Content-Type" !in headers {
      headers := headers["Content-Type" := "application/json"];
    }
  }

  /** Step 5 of `apiClient`, after the first request (already sent with
      `headers`) was answered by a 401. */
  method RetryRequest<B>(w: Window, url: string, options: RequestOptions, headers: map<string, string>,
                         ex: Exchanges<B>, now: int)
    returns (r: Result<Response<B>>)
    modifies w
    ensures var o := Retry(old(w.storage), url, options, headers, ex, now);
            r == o.result && w.storage == o.storage && w.sent == old(w.sent) + o.sent[1..] &&
            w.redirectedHome == (old(w.redirectedHome) || o.redirected)
    ensures w.reloadRequested == old(w.reloadRequested)
  {
    var again := RefreshAccessToken(w, ex.refreshAfter401, now);
    if again.Failure? {
      EndSession(w);
      return Failure(SessionEndedMessage);
    }
    var newToken := w.GetItem(AccessTokenKey);
    var retryHeaders := headers;
    if newToken.Some? && newToken.value != "" {
      retryHeaders := retryHeaders["Authorization" := Bearer(newToken.value)];
    }
    var retried := w.Fetch(Request(url, options.verb.GetOr("GET"), retryHeaders, options.body), ex.retry);
    match retried
    case NetworkFailure(_) =>
      EndSession(w);
      r := Failure(SessionEndedMessage);
    case Received(second) =>
      r := Success(second);
  }

  // ---------------------------------------------------------------- verb helpers

  /** What `response.json()` yields: the expected payload for a 2xx response,
      or the error object of a non-2xx one (which `apiClient` hands back only
      as the answer to a retry). */
  datatype Payload<B> = Data(value: B) | ErrorObject(fields: JsonObject)

  function ReadJson<B>(response: Response<B>): Result<Payload<B>> {
    match response
    case Accepted(_, NotJson(reason)) => Failure(reason)
    case Accepted(_, Json(v)) => Success(Data(v))
    case Refused(_, NotJson(reason)) => Failure(reason)
    case Refused(_, Json(o)) => Success(ErrorObject(o))
  }

  /** `apiClient(...)` followed by `response.json()`. */
  function ThenJson<B>(r: Result<Response<B>>): Result<Payload<B>> {
    match r
    case Failure(m) => Failure(m)
    case Success(response) => ReadJson(response)
  }

  function VerbOptions(verb: string, body: Option<JsonObject>): RequestOptions {
    RequestOptions(Some(verb), map[], body)
  }

  /** `apiGet(url)`, `apiDelete(url)` and, with a body, `apiPost`, `apiPut`
      and `apiPatch`: one `apiClient` call with the verb, then `json()`. */
  method Verb<B>(w: Window, verb: string, url: string, body: Option<JsonObject>, ex: Exchanges<B>, now: int)
    returns (r: Result<Payload<B>>)
    modifies w
    ensures var o := ApiCall(old(w.storage), url, VerbOptions(verb, body), ex, now);
            r == ThenJson(o.result) && w.storage == o.storage && w.sent == old(w.sent) + o.sent &&
            w.redirectedHome == (old(w.redirectedHome) || o.redirected)
    ensures w.reloadRequested == old(w.reloadRequested)
  {
    var response := Call(w, url, VerbOptions(verb, body), ex, now);
    r := ThenJson(response);
  }

  method ApiGet<B>(w: Window, url: string, ex: Exchanges<B>, now: int) returns (r: Result<Payload<B>>)
    modifies w
    ensures var o := ApiCall(old(w.storage), url, VerbOptions("GET", None), ex, now);
            r == ThenJson(o.result) && w.storage == o.storage && w.sent == old(w.sent) + o.sent &&
            w.redirectedHome == (old(w.redirectedHome) || o.redirected)
    ensures w.reloadRequested == old(w.reloadRequested)
  {
    r := Verb(w, "GET", url, None, ex, now);
  }

  method ApiPost<B>(w: Window, url: string, data: JsonObject, ex: Exchanges<B>, now: int) returns (r: Result<Payload<B>>)
    modifies w
    ensures var o := ApiCall(old(w.storage), url, VerbOptions("POST", Some(data)), ex, now);
            r == ThenJson(o.result) && w.storage == o.storage && w.sent == old(w.sent) + o.sent &&
            w.redirectedHome == (old(w.redirectedHome) || o.redirected)
    ensures w.reloadRequested == old(w.reloadRequested)
  {
    r := Verb(w, "POST", url, Some(data), ex, now);
  }

  method ApiPut<B>(w: Window, url: string, data: JsonObject, ex: Exchanges<B>, now: int) returns (r: Result<Payload<B>>)
    modifies w
    ensures var o := ApiCall(old(w.storage), url, VerbOptions("PUT", Some(data)), ex, now);
            r == ThenJson(o.result) && w.storage == o.storage && w.sent == old(w.sent) + o.sent &&
            w.redirectedHome == (old(w.redirectedHome) || o.redirected)
    ensures w.reloadRequested == old(w.reloadRequested)
  {
    r := Verb(w, "PUT", url, Some(data), ex, now);
  }

  method ApiPatch<B>(w: Window, url: string, data: JsonObject, ex: Exchanges<B>, now: int) returns (r: Result<Payload<B>>)
    modifies w
    ensures var o := ApiCall(old(w.storage), url, VerbOptions("PATCH", Some(data)), ex, now);
            r == ThenJson(o.result) && w.storage == o.storage && w.sent == old(w.sent) + o.sent &&
            w.redirectedHome == (old(w.redirectedHome) || o.redirected)
    ensures w.reloadRequested == old(w.reloadRequested)
  {
    r := Verb(w, "PATCH", url, Some(data), ex, now);
  }

  method ApiDelete<B>(w: Window, url: string, ex: Exchanges<B>, now: int) returns (r: Result<Payload<B>>)
    modifies w
    ensures var o := ApiCall(old(w.storage), url, VerbOptions("DELETE", None), ex, now);
            r == ThenJson(o.result) && w.storage == o.storage && w.sent == old(w.sent) + o.sent &&
            w.redirectedHome == (old(w.redirectedHome) || o.redirected)
    ensures w.reloadRequested == old(w.reloadRequested)
  {
    r := Verb(w, "DELETE", url, None, ex, now);
  }

  // ---------------------------------------------------------------- lemmas

  /** The header rules: the bearer token when one is stored, the caller's
      Content-Type or else application/json, and every other caller header
      kept as given. */
  lemma HeaderRules(init: map<string, string>, token: Option<string>)
    ensures var h := BuildHeaders(init, token);
            (token.Some? && token.value != "" ==> "Authorization" in h && h["Authorization"] == Bearer(token.value)) &&
            (!(token.Some? && token.value != "") ==>
               ("Authorization" in h <==> "Authorization" in init) &&
               ("Authorization" in init ==> h["Authorization"] == init["Authorization"])) &&
            "Content-Type" in h &&
            ("Content-Type" in init ==> h["Content-Type"] == init["Content-Type"]) &&
            ("Content-Type" !in init ==> h["Content-Type"] == "application/json") &&
            (forall k :: k != "Authorization" && k != "Content-Type" ==>
               (k in h <==> k in init) && (k in init ==> h[k] == init[k]))
  {
  }

  /** A stale token whose refresh fails ends the session before the request
      is sent: the store is cleared, the page goes home and the call fails
      with "Session expirée, veuillez vous reconnecter". */
  lemma StaleTokenRefreshFails<B>(st: map<string, string>, url: string, options: RequestOptions, ex: Exchanges<B>, now: int)
    requires IsTokenExpired(st, now)
    requires RefreshStep(st, ex.refreshFirst, now).result.Failure?
    ensures var o := ApiCall(st, url, options, ex, now);
            o.result == Failure(SessionExpiredMessage) && o.storage == Cleared(st) && o.redirected &&
            o.apiRequests == 0 && o.refreshes == 1 && o.sent == RefreshStep(st, ex.refreshFirst, now).sent
  {
    ClearedAfterRefresh(st, ex.refreshFirst, now);
  }

  /** A stale token whose refresh succeeds is replaced before sending: the
      request carries the new token. */
  lemma StaleTokenRefreshed<B>(st: map<string, string>, url: string, options: RequestOptions, ex: Exchanges<B>, now: int)
    requires IsTokenExpired(st, now)
    requires RefreshStep(st, ex.refreshFirst, now).result.Success?
    ensures var grant := RefreshStep(st, ex.refreshFirst, now).result.value;
            var o := ApiCall(st, url, options, ex, now);
            |o.sent| >= 2 &&
            o.sent[1] == RequestFor(url, options, BuildHeaders(options.headers, Some(grant.accessToken))) &&
            o.refreshes >= 1
  {
    var pre := RefreshStep(st, ex.refreshFirst, now);
    assert StoredToken(pre.storage) == Some(pre.result.value.accessToken);
  }

  /** With a token that is not stale no refresh precedes the request, which
      goes out first, with `Bearer <stored token>` when one is stored. Unless
      it is answered by a 401, it is the only request. */
  lemma FreshTokenSendsOnce<B>(st: map<string, string>, url: string, options: RequestOptions, ex: Exchanges<B>, now: int)
    requires !IsTokenExpired(st, now)
    ensures var o := ApiCall(st, url, options, ex, now);
            |o.sent| >= 1 && o.sent[0] == RequestFor(url, options, BuildHeaders(options.headers, StoredToken(st))) &&
            (Has(st, AccessTokenKey) ==> o.sent[0].headers["Authorization"] == Bearer(st[AccessTokenKey]))
    ensures !(ex.first.Received? && ex.first.response.Refused? && ex.first.response.errorStatus == 401) ==>
              var o := ApiCall(st, url, options, ex, now);
              o.refreshes == 0 && o.apiRequests == 1 && |o.sent| == 1 && o.storage == st && !o.redirected
  {
  }

  /** A 2xx response to the first request is returned unchanged. */
  lemma AcceptedReturned<B>(st: map<string, string>, url: string, options: RequestOptions, ex: Exchanges<B>, now: int)
    requires ex.first.Received? && ex.first.response.Accepted?
    requires !IsTokenExpired(st, now) || RefreshStep(st, ex.refreshFirst, now).result.Success?
    ensures ApiCall(st, url, options, ex, now).result == Success(ex.first.response)
    ensures !ApiCall(st, url, options, ex, now).redirected
  {
  }

  /** The request is sent: the token was fresh, or its refresh before
      sending succeeded. */
  predicate Sends<B>(st: map<string, string>, ex: Exchanges<B>, now: int) {
    !IsTokenExpired(st, now) || RefreshStep(st, ex.refreshFirst, now).result.Success?
  }

  /** The store the request is sent from: the one the refresh before
      sending left when the token was stale, else the store as found. */
  function SendingStore<B>(st: map<string, string>, ex: Exchanges<B>, now: int): map<string, string> {
    if IsTokenExpired(st, now) then RefreshStep(st, ex.refreshFirst, now).storage else st
  }

  /** Once a request is sent, the call's result and store are those of
      `Send` from the sending store, with one more refresh when the token
      was stale. */
  lemma SentCallIsSend<B>(st: map<string, string>, url: string, options: RequestOptions, ex: Exchanges<B>, now: int)
    requires Sends(st, ex, now)
    ensures var o := ApiCall(st, url, options, ex, now);
            var d := Send(SendingStore(st, ex, now), url, options, ex, now);
            o.result == d.result && o.storage == d.storage && o.redirected == d.redirected &&
            o.apiRequests == d.apiRequests && o.refreshes == d.refreshes + (if IsTokenExpired(st, now) then 1 else 0) &&
            |o.sent| >= |d.sent| && o.sent[|o.sent| - |d.sent|..] == d.sent
  {
  }

  /** Any error status other than 401 fails with the body's `message`, else
      `Erreur <status>`, and leaves the store as the request found it. */
  lemma SendOtherError<B>(s: map<string, string>, url: string, options: RequestOptions, ex: Exchanges<B>, now: int)
    requires ex.first.Received? && ex.first.response.Refused? && ex.first.response.errorStatus != 401
    ensures var d := Send(s, url, options, ex, now);
            d.result == Failure(ErrorMessageFor(ex.first.response.errorStatus, ex.first.response.errorBody)) &&
            d.storage == s && !d.redirected && d.refreshes == 0 && d.apiRequests == 1
  {
  }

  /** The same for the whole call, on the fresh-token path and after a
      successful refresh before sending: the store is the one the request
      was sent from. */
  lemma OtherErrorStatus<B>(st: map<string, string>, url: string, options: RequestOptions, ex: Exchanges<B>, now: int)
    requires Sends(st, ex, now)
    requires ex.first.Received? && ex.first.response.Refused? && ex.first.response.errorStatus != 401
    ensures var o := ApiCall(st, url, options, ex, now);
            o.result == Failure(ErrorMessageFor(ex.first.response.errorStatus, ex.first.response.errorBody)) &&
            o.storage == SendingStore(st, ex, now) && !o.redirected && o.apiRequests == 1 &&
            o.refreshes == (if IsTokenExpired(st, now) then 1 else 0)
    ensures !IsTokenExpired(st, now) ==> ApiCall(st, url, options, ex, now).storage == st
    ensures Field(ErrorFields(ex.first.response.errorBody), "message") == "" ==>
              ApiCall(st, url, options, ex, now).result == Failure(StatusMessage(ex.first.response.errorStatus))
  {
    SentCallIsSend(st, url, options, ex, now);
    SendOtherError(SendingStore(st, ex, now), url, options, ex, now);
  }

  /** A 401 makes exactly one refresh; when it succeeds exactly one retry is
      sent, with the refreshed token, and its response is returned whatever
      its status. */
  lemma SendRetried<B>(s: map<string, string>, url: string, options: RequestOptions, ex: Exchanges<B>, now: int)
    requires ex.first.Received? && ex.first.response.Refused? && ex.first.response.errorStatus == 401
    requires RefreshStep(s, ex.refreshAfter401, now).result.Success?
    requires ex.retry.Received?
    ensures var d := Send(s, url, options, ex, now);
            var grant := RefreshStep(s, ex.refreshAfter401, now).result.value;
            var headers := BuildHeaders(options.headers, StoredToken(s));
            d.result == Success(ex.retry.response) && d.refreshes == 1 && d.apiRequests == 2 &&
            d.storage == Renewed(s, grant, now) && !d.redirected &&
            |d.sent| >= 2 && d.sent[0] == RequestFor(url, options, headers) &&
            d.sent[|d.sent| - 1] == RequestFor(url, options, Authorize(headers, Some(grant.accessToken)))
  {
    var again := RefreshStep(s, ex.refreshAfter401, now);
    assert StoredToken(again.storage) == Some(again.result.value.accessToken);
  }

  /** The same for the whole call, on both paths: after a refresh before
      sending, the 401 makes a second refresh, from the store the first one
      left, and the retry carries the newer token. */
  lemma UnauthorizedRetriedOnce<B>(st: map<string, string>, url: string, options: RequestOptions, ex: Exchanges<B>, now: int)
    requires Sends(st, ex, now)
    requires ex.first.Received? && ex.first.response.Refused? && ex.first.response.errorStatus == 401
    requires RefreshStep(SendingStore(st, ex, now), ex.refreshAfter401, now).result.Success?
    requires ex.retry.Received?
    ensures var s := SendingStore(st, ex, now);
            var o := ApiCall(st, url, options, ex, now);
            var grant := RefreshStep(s, ex.refreshAfter401, now).result.value;
            var headers := BuildHeaders(options.headers, StoredToken(s));
            o.result == Success(ex.retry.response) && o.apiRequests == 2 &&
            o.refreshes == (if IsTokenExpired(st, now) then 2 else 1) &&
            o.storage == Renewed(s, grant, now) && !o.redirected &&
            o.sent[|o.sent| - 1] == RequestFor(url, options, Authorize(headers, Some(grant.accessToken)))
  {
    SentCallIsSend(st, url, options, ex, now);
    SendRetried(SendingStore(st, ex, now), url, options, ex, now);
  }

  /** After a 401, a failing refresh or a retry that throws ends the session:
      the store is cleared, the page goes home and the call fails with
      "Session expirée". */
  lemma SendEndsSession<B>(s: map<string, string>, url: string, options: RequestOptions, ex: Exchanges<B>, now: int)
    requires ex.first.Received? && ex.first.response.Refused? && ex.first.response.errorStatus == 401
    requires RefreshStep(s, ex.refreshAfter401, now).result.Failure? || ex.retry.NetworkFailure?
    ensures var d := Send(s, url, options, ex, now);
            d.result == Failure(SessionEndedMessage) && d.storage == Cleared(s) && d.redirected
  {
    ClearedAfterRefresh(s, ex.refreshAfter401, now);
  }

  /** The same for the whole call, on both paths; after a refresh before
      sending the store is still cleared of every session entry either
      refresh wrote. */
  lemma UnauthorizedEndsSession<B>(st: map<string, string>, url: string, options: RequestOptions, ex: Exchanges<B>, now: int)
    requires Sends(st, ex, now)
    requires ex.first.Received? && ex.first.response.Refused? && ex.first.response.errorStatus == 401
    requires RefreshStep(SendingStore(st, ex, now), ex.refreshAfter401, now).result.Failure? || ex.retry.NetworkFailure?
    ensures var o := ApiCall(st, url, options, ex, now);
            o.result == Failure(SessionEndedMessage) && o.storage == Cleared(st) && o.redirected
  {
    SentCallIsSend(st, url, options, ex, now);
    SendEndsSession(SendingStore(st, ex, now), url, options, ex, now);
    if IsTokenExpired(st, now) {
      ClearedAfterRefresh(st, ex.refreshFirst, now);
    }
  }

  /** Whatever a refresh did to the store, a logout afterwards leaves the
      same store as a logout before it. */
  lemma ClearedAfterRefresh(st: map<string, string>, reply: Reply<TokenGrant>, now: int)
    ensures Cleared(RefreshStep(st, reply, now).storage) == Cleared(st)
  {
    var step := RefreshStep(st, reply, now);
    if step.result.Success? {
      assert step.storage == Renewed(st, step.result.value, now);
      assert Cleared(step.storage) == Cleared(st);
    } else {
      assert step.storage == st || step.storage == Cleared(st);
    }
  }

  /** However the exchanges go, a call sends at most two API requests and
      attempts at most two refreshes, and only a failed call redirects. */
  lemma CallBounds<B>(st: map<string, string>, url: string, options: RequestOptions, ex: Exchanges<B>, now: int)
    ensures var o := ApiCall(st, url, options, ex, now);
            o.apiRequests <= 2 && o.refreshes <= 2 && |o.sent| <= 4 &&
            (o.redirected ==> o.result.Failure? && o.storage == Cleared(st))
  {
    if IsTokenExpired(st, now) {
      var pre := RefreshStep(st, ex.refreshFirst, now);
      ClearedAfterRefresh(st, ex.refreshFirst, now);
      if pre.result.Success? {
        SendBounds(pre.storage, url, options, ex, now);
      }
    } else {
      SendBounds(st, url, options, ex, now);
    }
  }

  lemma SendBounds<B>(st: map<string, string>, url: string, options: RequestOptions, ex: Exchanges<B>, now: int)
    ensures var o := Send(st, url, options, ex, now);
            o.apiRequests <= 2 && o.refreshes <= 1 && |o.sent| <= 3 &&
            (o.redirected ==> o.result.Failure? && o.storage == Cleared(st))
  {
    ClearedAfterRefresh(st, ex.refreshAfter401, now);
  }

  /** Every request a call sends is a refresh request or the API request
      itself, to `url` with the caller's method and body. */
  lemma SentShape<B>(st: map<string, string>, url: string, options: RequestOptions, ex: Exchanges<B>, now: int, i: nat)
    requires i < |ApiCall(st, url, options, ex, now).sent|
    ensures var q := ApiCall(st, url, options, ex, now).sent[i];
            (exists t :: q == RefreshRequest(t)) ||
            (q.url == url && q.verb == options.verb.GetOr("GET") && q.body == options.body)
  {
    var o := ApiCall(st, url, options, ex, now);
    var q := o.sent[i];
    if IsTokenExpired(st, now) {
      var pre := RefreshStep(st, ex.refreshFirst, now);
      if i < |pre.sent| {
        assert q == RefreshRequest(st[RefreshTokenKey]);
      } else if pre.result.Success? {
        SendShape(pre.storage, url, options, ex, now, i - |pre.sent|);
        assert q == Send(pre.storage, url, options, ex, now).sent[i - |pre.sent|];
      }
    } else {
      SendShape(st, url, options, ex, now, i);
    }
  }

  lemma SendShape<B>(st: map<string, string>, url: string, options: RequestOptions, ex: Exchanges<B>, now: int, i: nat)
    requires i < |Send(st, url, options, ex, now).sent|
    ensures var q := Send(st, url, options, ex, now).sent[i];
            (exists t :: q == RefreshRequest(t)) ||
            (q.url == url && q.verb == options.verb.GetOr("GET") && q.body == options.body)
  {
    var q := Send(st, url, options, ex, now).sent[i];
    var again := RefreshStep(st, ex.refreshAfter401, now);
    if i == 1 && |again.sent| == 1 && ex.first.Received? && ex.first.response.Refused? && ex.first.response.errorStatus == 401 {
      assert q == RefreshRequest(st[RefreshTokenKey]);
    }
  }

  /** Each verb helper sends its own method: every request that is not a
      refresh goes to `url` with that method. */
  lemma VerbSent<B>(st: map<string, string>, verb: string, url: string, body: Option<JsonObject>, ex: Exchanges<B>, now: int, i: nat)
    requires i < |ApiCall(st, url, VerbOptions(verb, body), ex, now).sent|
    ensures var q := ApiCall(st, url, VerbOptions(verb, body), ex, now).sent[i];
            (exists t :: q == RefreshRequest(t)) || (q.url == url && q.verb == verb && q.body == body)
  {
    SentShape(st, url, VerbOptions(verb, body), ex, now, i);
  }
}
