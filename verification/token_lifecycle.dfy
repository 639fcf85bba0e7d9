/**
 * The bearer-token lifecycle of the Charge-Amps external API client
 * (chargeamps/external.py), stated over values.
 *
 * The client keeps four fields: the bearer token, the refresh token, the
 * token's expiry (seconds since the epoch) and the shared request headers.
 * Before every resource request it makes sure it holds a token that does not
 * expire within the next `TokenSkew` seconds, refreshing or logging in when it
 * does not; a resource request answered with 401 clears the token and is
 * retried exactly once.
 *
 * The network is replaced by the answers it gives: `AuthServer` says how the
 * refresh and login endpoints answer during one token acquisition, `HttpReply`
 * how the resource endpoint answers one request. The wall clock is the integer
 * `now`. Every request the client would send is recorded, in order, so that
 * "no request", "exactly one refresh" and "exactly one retry" can be stated.
 *
 * The class `External.ExternalClient` runs the same steps on mutable fields;
 * its methods are proved to agree with the functions here.
 */
module TokenLifecycle {
  import opened Wrappers

  const ApiBaseUrl: string := "https://eapi.charge.space"

  /** Seconds before the expiry at which a token is already treated as expired. */
  const TokenSkew: int := 30

  /** The HTTP status that makes the wrapper re-authenticate and retry. */
  const Unauthorized: int := 401

  /** Login credentials and the API key sent with both auth endpoints. */
  datatype Credentials = Credentials(email: string, password: string, apiKey: string)

  /**
   * What a successful login or refresh yields: the two tokens from the JSON
   * body, and the `exp` claim decoded (without signature check) from the
   * bearer token, absent when the token carries none.
   */
  datatype AuthPayload = AuthPayload(token: string, refreshToken: string, exp: Option<int>)

  /** One answer of an auth endpoint: a 2xx with its payload, or an HTTP status or transport error. */
  datatype AuthReply = Granted(payload: AuthPayload) | Refused

  /** How the refresh endpoint and the login endpoint answer during one token acquisition. */
  datatype AuthServer = AuthServer(refresh: AuthReply, login: AuthReply)

  datatype Verb = Get | Put | Post

  /** A request the client sends. */
  datatype Request =
    | RefreshRequest(apiKey: string, token: Option<string>, refreshToken: string)
    | LoginRequest(apiKey: string, email: string, password: string)
    | ApiRequest(verb: Verb, path: string, headers: map<string, string>)

  /** The four token fields of the client. */
  datatype TokenState = TokenState(
    token: Option<string>,
    refreshToken: Option<string>,
    expire: int,
    headers: map<string, string>)

  /** The fields after a token acquisition, the requests it sent, and whether it returned normally (else it raised). */
  datatype Acquisition = Acquisition(state: TokenState, requests: seq<Request>, ok: bool)

  /** How the resource endpoint answers one request. */
  datatype HttpReply = Status(code: int) | TransportError

  /** How a resource call ends: a 2xx response, or the exception it raises. */
  datatype Outcome = Done(code: int) | HttpStatusError(code: int) | AuthError | NetworkError

  /** The fields after a resource call, every request it sent, and how it ended. */
  datatype Exchange = Exchange(state: TokenState, requests: seq<Request>, outcome: Outcome)

  /** The fields of a newly constructed client. */
  const Initial: TokenState := TokenState(None, None, 0, map[])

  /** httpx's `raise_for_status` lets exactly the 2xx statuses through. */
  predicate IsSuccess(code: int) {
    200 <= code < 300
  }

  function Bearer(token: string): string {
    "Bearer " + token
  }

  function LoginOf(c: Credentials): Request {
    LoginRequest(c.apiKey, c.email, c.password)
  }

  /**
   * The relation the client keeps between its fields between calls: a token
   * comes with a refresh token and is the one in the Authorization header,
   * and without a token the expiry is 0.
   */
  predicate Coherent(s: TokenState) {
    && (s.token.Some? ==>
          s.refreshToken.Some? && "Authorization" in s.headers && s.headers["Authorization"] == Bearer(s.token.value))
    && (s.token.None? ==> s.expire == 0)
  }

  /** The token may still be used at `now` without asking the server. */
  predicate Fresh(s: TokenState, now: int) {
    s.expire - TokenSkew > now
  }

  /** `t` holds the answer `p`: its tokens, its `exp` claim (0 when missing), and its bearer header over `headers`. */
  predicate Holds(t: TokenState, p: AuthPayload, headers: map<string, string>) {
    && t.token == Some(p.token)
    && t.refreshToken == Some(p.refreshToken)
    && t.expire == (if p.exp.Some? then p.exp.value else 0)
    && t.headers == headers["Authorization" := Bearer(p.token)]
  }

  /** Installs the answer of a successful login or refresh. */
  function Install(s: TokenState, p: AuthPayload): (r: TokenState)
    ensures Holds(r, p, s.headers)
    ensures Coherent(r)
  {
    TokenState(Some(p.token), Some(p.refreshToken), p.exp.GetOr(0), s.headers["Authorization" := Bearer(p.token)])
  }

  /**
   * The login step: `sent` are the requests already sent during this
   * acquisition. A refused login forgets both tokens and the expiry and
   * leaves the headers alone.
   */
  function Login(s: TokenState, c: Credentials, reply: AuthReply, sent: seq<Request>): (r: Acquisition)
    ensures r.requests == sent + [LoginOf(c)]
    ensures r.ok <==> reply.Granted?
    ensures r.ok ==> Holds(r.state, reply.payload, s.headers)
    ensures !r.ok ==> r.state == TokenState(None, None, 0, s.headers)
  {
    var requests := sent + [LoginOf(c)];
    match reply
    case Granted(p) => Acquisition(Install(s, p), requests, true)
    case Refused => Acquisition(s.(token := None, refreshToken := None, expire := 0), requests, false)
  }

  /**
   * Acquisition of a token under the lock: refresh when a refresh token is
   * present; log in when there was none, when the refresh failed, or when no
   * bearer token was held even though the refresh succeeded (the refreshed
   * answer is then replaced by the login's).
   */
  function Acquire(s: TokenState, c: Credentials, server: AuthServer): (r: Acquisition)
    ensures 1 <= |r.requests| <= 2
    ensures r.requests[|r.requests| - 1] != LoginOf(c) ==>
              && TruthyText(s.refreshToken)
              && r.requests == [RefreshRequest(c.apiKey, s.token, s.refreshToken.value)]
              && r.ok
    ensures r.ok ==> Coherent(r.state)
    ensures !r.ok ==> r.state == TokenState(None, None, 0, s.headers)
  {
    if !TruthyText(s.refreshToken) then
      Login(s.(token := None), c, server.login, [])
    else
      var sent := [RefreshRequest(c.apiKey, s.token, s.refreshToken.value)];
      match server.refresh
      case Refused => Login(s.(token := None, refreshToken := None), c, server.login, sent)
      case Granted(p) =>
        if s.token.None? then Login(s, c, server.login, sent)
        else Acquisition(Install(s, p), sent, true)
  }

  /** Nothing to do while the token is fresh; otherwise acquire one. */
  function EnsureToken(s: TokenState, c: Credentials, now: int, server: AuthServer): (r: Acquisition)
    ensures r.requests == [] <==> Fresh(s, now)
    ensures |r.requests| <= 2
    ensures r.ok && r.requests != [] ==> Coherent(r.state)
  {
    if Fresh(s, now) then Acquisition(s, [], true) else Acquire(s, c, server)
  }

  /**
   * The headers of one request: every key of either map, taking the call's
   * own value where it has one and the shared value otherwise.
   */
  function MergeHeaders(shared: map<string, string>, own: map<string, string>): (r: map<string, string>)
    ensures r.Keys == shared.Keys + own.Keys
    ensures forall k :: k in own ==> r[k] == own[k]
    ensures forall k :: k in shared && k !in own ==> r[k] == shared[k]
  {
    shared + own
  }

  /** How a response that is no longer retried ends: `raise_for_status`, or the transport error itself. */
  function Completion(reply: HttpReply): (o: Outcome)
    ensures o.Done? <==> reply.Status? && IsSuccess(reply.code)
    ensures o.HttpStatusError? <==> reply.Status? && !IsSuccess(reply.code)
    ensures o.Done? || o.HttpStatusError? ==> o.code == reply.code
  {
    match reply
    case TransportError => NetworkError
    case Status(code) => if IsSuccess(code) then Done(code) else HttpStatusError(code)
  }

  /** After a 401: forget the bearer token and its expiry (keeping the refresh token), then ensure a token again. */
  function Reauthenticate(s: TokenState, c: Credentials, now: int, server: AuthServer): Acquisition {
    EnsureToken(s.(token := None, expire := 0), c, now, server)
  }

  /**
   * The request with one retry on 401, as written except that the retry is
   * awaited (the source omits that `await`, so its retry is never sent): the
   * retry is sent with the header dictionary merged before the first attempt,
   * so it carries the Authorization header of the token that was just
   * rejected.
   */
  function RetryAsWritten(s: TokenState, c: Credentials, verb: Verb, path: string, headers: map<string, string>,
                          now: int, first: HttpReply, server: AuthServer, second: HttpReply): (r: Exchange)
    ensures r.requests != [] && r.requests[0] == ApiRequest(verb, path, headers)
    ensures |r.requests| > 1 || r.outcome == AuthError ==> first == Status(Unauthorized)
    ensures r.outcome != AuthError && |r.requests| > 1 ==> r.requests[|r.requests| - 1] == r.requests[0]
  {
    var attempt := ApiRequest(verb, path, headers);
    if first.Status? && first.code == Unauthorized then
      var auth := Reauthenticate(s, c, now, server);
      if !auth.ok then Exchange(auth.state, [attempt] + auth.requests, AuthError)
      else Exchange(auth.state, [attempt] + auth.requests + [ApiRequest(verb, path, headers)], Completion(second))
    else
      Exchange(s, [attempt], Completion(first))
  }

  /**
   * The request with one retry on 401, as intended: the retry's headers are
   * merged again from the shared headers, which now hold the new token.
   */
  function Retry(s: TokenState, c: Credentials, verb: Verb, path: string, own: map<string, string>,
                 now: int, first: HttpReply, server: AuthServer, second: HttpReply): (r: Exchange)
    ensures r.requests != [] && r.requests[0] == ApiRequest(verb, path, MergeHeaders(s.headers, own))
    ensures |r.requests| > 1 || r.outcome == AuthError ==> first == Status(Unauthorized)
    ensures r.outcome != AuthError && |r.requests| > 1 ==>
              r.requests[|r.requests| - 1] == ApiRequest(verb, path, MergeHeaders(r.state.headers, own))
  {
    var attempt := ApiRequest(verb, path, MergeHeaders(s.headers, own));
    if first.Status? && first.code == Unauthorized then
      var auth := Reauthenticate(s, c, now, server);
      if !auth.ok then Exchange(auth.state, [attempt] + auth.requests, AuthError)
      else
        var again := ApiRequest(verb, path, MergeHeaders(auth.state.headers, own));
        Exchange(auth.state, [attempt] + auth.requests + [again], Completion(second))
    else
      Exchange(s, [attempt], Completion(first))
  }

  /**
   * A resource call (`_get`, `_put`, `_post`): ensure a token with the answers
   * `firstAuth`, then send the request, retrying once with `retryAuth` on 401.
   */
  function Send(s: TokenState, c: Credentials, verb: Verb, path: string, own: map<string, string>, now: int,
                firstAuth: AuthServer, first: HttpReply, retryAuth: AuthServer, second: HttpReply): (r: Exchange)
    ensures r.requests != []
    ensures EnsureToken(s, c, now, firstAuth).ok && first.Status? && IsSuccess(first.code) ==> r.outcome == Done(first.code)
    ensures r.outcome.Done? ==>
              || (first.Status? && IsSuccess(first.code) && r.outcome.code == first.code)
              || (second.Status? && IsSuccess(second.code) && r.outcome.code == second.code)
  {
    var auth := EnsureToken(s, c, now, firstAuth);
    if !auth.ok then Exchange(auth.state, auth.requests, AuthError)
    else
      var e := Retry(auth.state, c, verb, path, own, now, first, retryAuth, second);
      Exchange(e.state, auth.requests + e.requests, e.outcome)
  }

  /** The number of resource (non-auth) requests in `rs`. */
  function ApiRequestCount(rs: seq<Request>): nat {
    if rs == [] then 0
    else ApiRequestCount(rs[..|rs| - 1]) + (if rs[|rs| - 1].ApiRequest? then 1 else 0)
  }

  // ---------------------------------------------------------------------------
  // Token acquisition

  /** While the token is fresh, ensuring it sends nothing and changes nothing. */
  lemma FreshTokenIsKept(s: TokenState, c: Credentials, now: int, server: AuthServer)
    requires Fresh(s, now)
    ensures EnsureToken(s, c, now, server) == Acquisition(s, [], true)
  {
  }

  /** Ensuring twice at the same instant: the second call is a no-op once the first installed a token fresh at `now`. */
  lemma EnsureTwiceIsNoOp(s: TokenState, c: Credentials, now: int, server1: AuthServer, server2: AuthServer)
    requires EnsureToken(s, c, now, server1).ok
    requires Fresh(EnsureToken(s, c, now, server1).state, now)
    ensures var s1 := EnsureToken(s, c, now, server1).state;
            EnsureToken(s1, c, now, server2) == Acquisition(s1, [], true)
  {
  }

  /** A new client's first ensure, at any instant after the epoch, sends one login and no refresh. */
  lemma FirstEnsureLogsIn(c: Credentials, now: nat, server: AuthServer)
    ensures var r := EnsureToken(Initial, c, now, server);
            && r.requests == [LoginOf(c)]
            && r.ok == server.login.Granted?
            && (r.ok ==> r.state == Install(Initial, server.login.payload))
            && (!r.ok ==> r.state == Initial)
  {
  }

  /**
   * A stale token always leads to a request; it is a refresh, carrying the
   * current tokens, exactly when a non-empty refresh token is held.
   */
  lemma RefreshIffRefreshToken(s: TokenState, c: Credentials, now: int, server: AuthServer)
    requires !Fresh(s, now)
    ensures var r := EnsureToken(s, c, now, server);
            && |r.requests| >= 1
            && (r.requests[0].RefreshRequest? <==> TruthyText(s.refreshToken))
            && (TruthyText(s.refreshToken) ==> r.requests[0] == RefreshRequest(c.apiKey, s.token, s.refreshToken.value))
            && (!TruthyText(s.refreshToken) ==> r.requests == [LoginOf(c)])
  {
  }

  /**
   * A successful refresh avoids the login only when a bearer token was held;
   * without one (as after a 401), the login follows and its answer is the one
   * installed.
   */
  lemma RefreshSkipsLoginOnlyWithToken(s: TokenState, c: Credentials, now: int, server: AuthServer)
    requires !Fresh(s, now) && TruthyText(s.refreshToken) && server.refresh.Granted?
    ensures var r := EnsureToken(s, c, now, server);
            && (LoginOf(c) in r.requests <==> s.token.None?)
            && (s.token.Some? ==> r.ok && r.state == Install(s, server.refresh.payload) && |r.requests| == 1)
            && (s.token.None? ==> r.ok == server.login.Granted? && |r.requests| == 2)
            && (s.token.None? && r.ok ==> r.state == Install(s, server.login.payload))
  {
  }

  /** A failed refresh drops both tokens and falls back to a login. */
  lemma FailedRefreshFallsBackToLogin(s: TokenState, c: Credentials, now: int, server: AuthServer)
    requires !Fresh(s, now) && TruthyText(s.refreshToken) && server.refresh.Refused?
    ensures var r := EnsureToken(s, c, now, server);
            && r.requests == [RefreshRequest(c.apiKey, s.token, s.refreshToken.value), LoginOf(c)]
            && r.ok == server.login.Granted?
            && (r.ok ==> r.state == Install(s, server.login.payload))
  {
  }

  /**
   * An acquisition raises exactly when a login was sent and refused; it then
   * leaves no token, no refresh token, expiry 0 and the headers untouched.
   */
  lemma FailedLoginClears(s: TokenState, c: Credentials, now: int, server: AuthServer)
    ensures var r := EnsureToken(s, c, now, server);
            && (!r.ok <==> LoginOf(c) in r.requests && server.login.Refused?)
            && (!r.ok ==> r.state == TokenState(None, None, 0, s.headers))
  {
  }

  /**
   * When an acquisition returns normally after sending something, the fields
   * hold the last answer received: the login's when a login was sent, else
   * the refresh's.
   */
  lemma SuccessInstallsLastAnswer(s: TokenState, c: Credentials, now: int, server: AuthServer)
    requires !Fresh(s, now)
    ensures var r := EnsureToken(s, c, now, server);
            && (r.ok && LoginOf(c) in r.requests ==> server.login.Granted? && Holds(r.state, server.login.payload, s.headers))
            && (r.ok && LoginOf(c) !in r.requests ==> server.refresh.Granted? && Holds(r.state, server.refresh.payload, s.headers))
  {
  }

  /** Ensuring a token keeps the fields coherent. */
  lemma EnsureKeepsCoherent(s: TokenState, c: Credentials, now: int, server: AuthServer)
    requires Coherent(s)
    ensures Coherent(EnsureToken(s, c, now, server).state)
  {
  }

  /**
   * After a normal return, at any instant after the epoch, a token is held
   * and the shared headers carry it: no request goes out without a bearer
   * token.
   */
  lemma EnsuredTokenIsAttached(s: TokenState, c: Credentials, now: nat, server: AuthServer)
    requires Coherent(s)
    ensures var r := EnsureToken(s, c, now, server);
            r.ok ==> r.state.token.Some? && r.state.headers["Authorization"] == Bearer(r.state.token.value)
  {
    var r := EnsureToken(s, c, now, server);
    if Fresh(s, now) {
      assert s.expire > 0;
    }
  }

  /** A failed login is not sticky: the next ensure starts over with a single login, never a doomed refresh. */
  lemma FailureIsNotSticky(s: TokenState, c: Credentials, now: int, later: nat, server: AuthServer, next: AuthServer)
    requires !EnsureToken(s, c, now, server).ok
    ensures EnsureToken(EnsureToken(s, c, now, server).state, c, later, next).requests == [LoginOf(c)]
  {
  }

  /** A token without an `exp` claim is stale at every instant after the epoch, so each ensure renews it. */
  lemma MissingExpiryIsNeverFresh(s: TokenState, p: AuthPayload, now: nat)
    requires p.exp.None?
    ensures !Fresh(Install(s, p), now)
  {
  }

  /**
   * The lifecycle scenario: a login answers T1/R1 expiring an hour later;
   * twenty seconds past that hour the next ensure sends one refresh with R1
   * (and T1), and no login; before the skew window it sends nothing.
   */
  lemma RefreshAfterExpiry(c: Credentials, t0: nat, t1: string, r1: string, refreshed: AuthPayload, unused: AuthReply)
    requires r1 != ""
    ensures var s1 := EnsureToken(Initial, c, t0, AuthServer(unused, Granted(AuthPayload(t1, r1, Some(t0 + 3600))))).state;
            && EnsureToken(s1, c, t0 + 3569, AuthServer(Granted(refreshed), unused)).requests == []
            && EnsureToken(s1, c, t0 + 3620, AuthServer(Granted(refreshed), unused))
               == Acquisition(Install(s1, refreshed), [RefreshRequest(c.apiKey, Some(t1), r1)], true)
  {
  }

  // ---------------------------------------------------------------------------
  // The request wrapper

  lemma {:induction false} ApiRequestCountAppend(a: seq<Request>, b: seq<Request>)
    ensures ApiRequestCount(a + b) == ApiRequestCount(a) + ApiRequestCount(b)
    decreases |b|
  {
    if b == [] {
      assert a + b == a;
    } else {
      var b' := b[..|b| - 1];
      assert (a + b)[..|a + b| - 1] == a + b';
      ApiRequestCountAppend(a, b');
    }
  }

  lemma {:induction false} NoApiRequestCount(rs: seq<Request>)
    requires forall i :: 0 <= i < |rs| ==> !rs[i].ApiRequest?
    ensures ApiRequestCount(rs) == 0
    decreases |rs|
  {
    if rs != [] {
      NoApiRequestCount(rs[..|rs| - 1]);
    }
  }

  /** Token acquisition only talks to the auth endpoints. */
  lemma EnsureSendsNoApiRequest(s: TokenState, c: Credentials, now: int, server: AuthServer)
    ensures ApiRequestCount(EnsureToken(s, c, now, server).requests) == 0
  {
    NoApiRequestCount(EnsureToken(s, c, now, server).requests);
  }

  /**
   * Any first reply other than 401 ends the call after one request with the
   * fields unchanged: a 2xx response is returned, another status is raised,
   * and a transport error propagates.
   */
  lemma NonUnauthorizedIsFinal(s: TokenState, c: Credentials, verb: Verb, path: string, own: map<string, string>,
                               now: int, first: HttpReply, server: AuthServer, second: HttpReply)
    requires first != Status(Unauthorized)
    ensures Retry(s, c, verb, path, own, now, first, server, second)
            == Exchange(s, [ApiRequest(verb, path, MergeHeaders(s.headers, own))], Completion(first))
  {
  }

  /**
   * A token whose answer carried no `exp` claim is installed with expiry 0,
   * stale at once, and still used: from a new client, the resource request
   * right after the login carries its bearer header.
   */
  lemma StaleTokenIsUsedOnce(c: Credentials, verb: Verb, path: string, now: nat, t: string, rt: string,
                             refresh: AuthReply, first: HttpReply, retryAuth: AuthServer, second: HttpReply)
    ensures var firstAuth := AuthServer(refresh, Granted(AuthPayload(t, rt, None)));
            var e := Send(Initial, c, verb, path, map[], now, firstAuth, first, retryAuth, second);
            && !Fresh(EnsureToken(Initial, c, now, firstAuth).state, now)
            && |e.requests| >= 2
            && e.requests[..2] == [LoginOf(c), ApiRequest(verb, path, map["Authorization" := Bearer(t)])]
  {
    var firstAuth := AuthServer(refresh, Granted(AuthPayload(t, rt, None)));
    var auth := EnsureToken(Initial, c, now, firstAuth);
    assert auth.requests == [LoginOf(c)];
    assert MergeHeaders(auth.state.headers, map[]) == map["Authorization" := Bearer(t)];
  }

  /**
   * A 401 clears the bearer token and the expiry but keeps the refresh token,
   * re-authenticates, and sends exactly one more request, whose error status
   * is raised rather than retried.
   */
  lemma UnauthorizedIsRetriedOnce(s: TokenState, c: Credentials, verb: Verb, path: string, own: map<string, string>,
                                  now: int, server: AuthServer, second: HttpReply)
    ensures var e := Retry(s, c, verb, path, own, now, Status(Unauthorized), server, second);
            var auth := EnsureToken(TokenState(None, s.refreshToken, 0, s.headers), c, now, server);
            && e.state == auth.state
            && e.requests[..1 + |auth.requests|] == [ApiRequest(verb, path, MergeHeaders(s.headers, own))] + auth.requests
            && (auth.ok ==> |e.requests| == |auth.requests| + 2 && e.outcome == Completion(second))
            && (!auth.ok ==> |e.requests| == |auth.requests| + 1 && e.outcome == AuthError)
            && ApiRequestCount(e.requests) == if auth.ok then 2 else 1
  {
    var e := Retry(s, c, verb, path, own, now, Status(Unauthorized), server, second);
    var auth := EnsureToken(TokenState(None, s.refreshToken, 0, s.headers), c, now, server);
    var attempt := ApiRequest(verb, path, MergeHeaders(s.headers, own));
    EnsureSendsNoApiRequest(TokenState(None, s.refreshToken, 0, s.headers), c, now, server);
    ApiRequestCountAppend([attempt], auth.requests);
    assert ApiRequestCount([attempt]) == 1 by {
      assert [attempt][..0] == [];
    }
    if auth.ok {
      var again := ApiRequest(verb, path, MergeHeaders(auth.state.headers, own));
      ApiRequestCountAppend([attempt] + auth.requests, [again]);
      assert ApiRequestCount([again]) == 1 by {
        assert [again][..0] == [];
      }
      assert e.requests == [attempt] + auth.requests + [again];
    }
  }

  /**
   * After a 401 the client always logs in, even when it holds a refresh token
   * and the refresh succeeds: the refresh is sent with no bearer token and
   * its answer is discarded.
   */
  lemma UnauthorizedAlwaysLogsIn(s: TokenState, c: Credentials, verb: Verb, path: string, own: map<string, string>,
                                 now: nat, server: AuthServer, second: HttpReply)
    ensures var e := Retry(s, c, verb, path, own, now, Status(Unauthorized), server, second);
            && LoginOf(c) in e.requests
            && (TruthyText(s.refreshToken) ==> e.requests[1] == RefreshRequest(c.apiKey, None, s.refreshToken.value))
            && (e.outcome != AuthError ==> e.state == Install(s, server.login.payload))
  {
    var auth := EnsureToken(TokenState(None, s.refreshToken, 0, s.headers), c, now, server);
    assert LoginOf(c) in auth.requests;
  }

  /**
   * The retried request carries the token just obtained (the corrected
   * wrapper), unless the call supplies its own Authorization header.
   */
  lemma RetryCarriesNewToken(s: TokenState, c: Credentials, verb: Verb, path: string, own: map<string, string>,
                             now: nat, server: AuthServer, second: HttpReply)
    requires "Authorization" !in own
    ensures var e := Retry(s, c, verb, path, own, now, Status(Unauthorized), server, second);
            e.outcome != AuthError ==>
              && e.requests[|e.requests| - 1].ApiRequest?
              && e.state.token.Some?
              && e.requests[|e.requests| - 1].headers["Authorization"] == Bearer(e.state.token.value)
  {
  }

  /**
   * The wrapper as written resends the rejected token: after a 401 the
   * client logs in again, yet the retry carries the bearer header of the
   * token the server just rejected. It carries the new token only when the
   * login happens to answer with the same token.
   */
  lemma RetryAsWrittenResendsRejectedToken(s: TokenState, c: Credentials, verb: Verb, path: string,
                                           own: map<string, string>, now: nat, server: AuthServer, second: HttpReply)
    requires Coherent(s) && s.token.Some? && "Authorization" !in own
    ensures var e := RetryAsWritten(s, c, verb, path, MergeHeaders(s.headers, own), now, Status(Unauthorized), server, second);
            e.outcome != AuthError ==>
              && server.login.Granted?
              && e.state.token == Some(server.login.payload.token)
              && e.requests[|e.requests| - 1].headers["Authorization"] == Bearer(s.token.value)
              && (e.requests[|e.requests| - 1].headers["Authorization"] == Bearer(e.state.token.value)
                  <==> server.login.payload.token == s.token.value)
  {
    var e := RetryAsWritten(s, c, verb, path, MergeHeaders(s.headers, own), now, Status(Unauthorized), server, second);
    if e.outcome != AuthError {
      BearerInjective(s.token.value, server.login.payload.token);
    }
  }

  /** Distinct tokens give distinct bearer headers. */
  lemma BearerInjective(a: string, b: string)
    ensures Bearer(a) == Bearer(b) <==> a == b
  {
    if Bearer(a) == Bearer(b) {
      assert a == Bearer(a)[7..];
      assert b == Bearer(b)[7..];
    }
  }

  /**
   * An instance: T1 is rejected with a 401, the login answers T2, and the
   * retry still says "Bearer T1".
   */
  lemma RejectedTokenResentExample(c: Credentials, verb: Verb, path: string, second: HttpReply)
    ensures var s := TokenState(Some("T1"), Some("R1"), 0, map["Authorization" := Bearer("T1")]);
            var e := RetryAsWritten(s, c, verb, path, s.headers, 0, Status(Unauthorized),
                                    AuthServer(Refused, Granted(AuthPayload("T2", "R2", None))), second);
            && e.state.token == Some("T2")
            && e.requests[|e.requests| - 1] == ApiRequest(verb, path, map["Authorization" := "Bearer T1"])
            && e.requests[|e.requests| - 1].headers["Authorization"] != Bearer(e.state.token.value)
  {
    var s := TokenState(Some("T1"), Some("R1"), 0, map["Authorization" := Bearer("T1")]);
    var server := AuthServer(Refused, Granted(AuthPayload("T2", "R2", None)));
    assert MergeHeaders(s.headers, map[]) == s.headers;
    RetryAsWrittenResendsRejectedToken(s, c, verb, path, map[], 0, server, second);
    assert Bearer("T1") == "Bearer T1";
    BearerInjective("T1", "T2");
  }

  /** Every resource call keeps the fields coherent. */
  lemma SendKeepsCoherent(s: TokenState, c: Credentials, verb: Verb, path: string, own: map<string, string>, now: int,
                          firstAuth: AuthServer, first: HttpReply, retryAuth: AuthServer, second: HttpReply)
    requires Coherent(s)
    ensures Coherent(Send(s, c, verb, path, own, now, firstAuth, first, retryAuth, second).state)
  {
    var auth := EnsureToken(s, c, now, firstAuth);
    EnsureKeepsCoherent(s, c, now, firstAuth);
    if auth.ok && first.Status? && first.code == Unauthorized {
      EnsureKeepsCoherent(auth.state.(token := None, expire := 0), c, now, retryAuth);
    }
  }

  /** The wrapper sends at most two resource requests, and a second one only after a 401. */
  lemma RetryIsBounded(s: TokenState, c: Credentials, verb: Verb, path: string, own: map<string, string>, now: int,
                       first: HttpReply, server: AuthServer, second: HttpReply)
    ensures var r := Retry(s, c, verb, path, own, now, first, server, second);
            && ApiRequestCount(r.requests) <= 2
            && (ApiRequestCount(r.requests) == 2 ==> first == Status(Unauthorized))
  {
    var r := Retry(s, c, verb, path, own, now, first, server, second);
    if first == Status(Unauthorized) {
      UnauthorizedIsRetriedOnce(s, c, verb, path, own, now, server, second);
    } else {
      assert ApiRequestCount(r.requests) == 1 by {
        assert r.requests[..0] == [];
      }
    }
  }

  /** A resource call sends at most two resource requests, and a second one only after a 401. */
  lemma SendIsBounded(s: TokenState, c: Credentials, verb: Verb, path: string, own: map<string, string>, now: int,
                      firstAuth: AuthServer, first: HttpReply, retryAuth: AuthServer, second: HttpReply)
    ensures var e := Send(s, c, verb, path, own, now, firstAuth, first, retryAuth, second);
            && ApiRequestCount(e.requests) <= 2
            && (ApiRequestCount(e.requests) == 2 ==> first == Status(Unauthorized))
  {
    var auth := EnsureToken(s, c, now, firstAuth);
    EnsureSendsNoApiRequest(s, c, now, firstAuth);
    if auth.ok {
      var r := Retry(auth.state, c, verb, path, own, now, first, retryAuth, second);
      ApiRequestCountAppend(auth.requests, r.requests);
      RetryIsBounded(auth.state, c, verb, path, own, now, first, retryAuth, second);
    }
  }

  /**
   * The first resource request of a call goes out right after the ensure
   * step and carries the bearer token that step left in the fields.
   */
  lemma SendAttachesBearer(s: TokenState, c: Credentials, verb: Verb, path: string, own: map<string, string>, now: nat,
                           firstAuth: AuthServer, first: HttpReply, retryAuth: AuthServer, second: HttpReply)
    requires Coherent(s) && "Authorization" !in own
    ensures var e := Send(s, c, verb, path, own, now, firstAuth, first, retryAuth, second);
            var auth := EnsureToken(s, c, now, firstAuth);
            auth.ok ==>
              && auth.state.token.Some?
              && e.requests[|auth.requests|] == ApiRequest(verb, path, MergeHeaders(auth.state.headers, own))
              && e.requests[|auth.requests|].headers["Authorization"] == Bearer(auth.state.token.value)
  {
    EnsuredTokenIsAttached(s, c, now, firstAuth);
  }
}
