/**
 * The Charge-Amps external API client object (chargeamps/external.py): its
 * token fields, the token check, the exclusive token acquisition, the 401
 * retry and the header merge of the request helpers, as methods that update
 * the fields step by step. Each method is proved to agree with the matching
 * function of `TokenLifecycle`, where the lifecycle's properties are proved.
 */
module External {
  import opened Wrappers
  import opened TokenLifecycle

  class ExternalClient {
    const credentials: Credentials
    const baseUrl: string

    var token: Option<string>
    var refreshToken: Option<string>
    var tokenExpire: int
    var headers: map<string, string>

    /** The four token fields as one value. */
    function State(): TokenState
      reads this
    {
      TokenState(token, refreshToken, tokenExpire, headers)
    }

    ghost predicate Valid()
      reads this
    {
      Coherent(State())
    }

    /** A client starts with no token, no refresh token, expiry 0 and no shared headers. */
    constructor (email: string, password: string, apiKey: string, apiBaseUrl: Option<string>)
      ensures Valid()
      ensures State() == Initial
      ensures credentials == Credentials(email, password, apiKey)
      ensures baseUrl == if TruthyText(apiBaseUrl) then apiBaseUrl.value else ApiBaseUrl
    {
      credentials := Credentials(email, password, apiKey);
      baseUrl := if TruthyText(apiBaseUrl) then apiBaseUrl.value else ApiBaseUrl;
      headers := map[];
      token := None;
      tokenExpire := 0;
      refreshToken := None;
    }

    /**
     * Makes sure a usable token is held at `now`; `ok` is false when the
     * login failed and its error was re-raised. `requests` are the auth
     * requests sent, in order.
     */
    method EnsureToken(now: int, server: AuthServer) returns (requests: seq<Request>, ok: bool)
      requires Valid()
      modifies this
      ensures Valid()
      ensures Acquisition(State(), requests, ok) == TokenLifecycle.EnsureToken(old(State()), credentials, now, server)
      ensures old(Fresh(State(), now)) ==> requests == [] && ok && State() == old(State())
    {
      if tokenExpire - TokenSkew > now {
        return [], true;
      }
      // The lock that serialises concurrent acquisitions is not modelled.
      requests, ok := ExclusiveEnsureToken(server);
    }

    /** Refreshes or logs in, then installs the answer received. */
    method ExclusiveEnsureToken(server: AuthServer) returns (requests: seq<Request>, ok: bool)
      requires Valid()
      modifies this
      ensures Valid()
      ensures Acquisition(State(), requests, ok) == Acquire(old(State()), credentials, server)
      ensures !ok ==> token.None? && refreshToken.None? && tokenExpire == 0 && headers == old(headers)
    {
      ghost var s := State();
      var response: Option<AuthPayload> := None;
      requests := [];

      if TruthyText(refreshToken) {
        requests := requests + [RefreshRequest(credentials.apiKey, token, refreshToken.value)];
        match server.refresh {
          case Granted(p) =>
            response := Some(p);
          case Refused =>
            token := None;
            refreshToken := None;
        }
      } else {
        token := None;
      }

      if token.None? {
        requests := requests + [LoginRequest(credentials.apiKey, credentials.email, credentials.password)];
        match server.login {
          case Granted(p) =>
            response := Some(p);
          case Refused =>
            token := None;
            refreshToken := None;
            tokenExpire := 0;
            return requests, false;
        }
      }

      // The source logs "No response" and returns here; no path reaches it.
      if response.None? {
        assert false;
      }

      var payload := response.value;
      token := Some(payload.token);
      refreshToken := Some(payload.refreshToken);
      tokenExpire := payload.exp.GetOr(0);
      headers := headers["Authorization" := Bearer(payload.token)];
      ok := true;
    }

    /**
     * Sends one request with the call's own headers `own` merged over the
     * shared ones; on 401 forgets the token, ensures one again with the
     * answers `server`, and sends the request once more.
     *
     * Two departures from the source, which are its defects: the retried
     * request is awaited (the source calls it without `await`), and its
     * headers are merged again so that it carries the new token (the source
     * resends the dictionary merged before the 401).
     */
    method HttpxRetry(verb: Verb, path: string, own: map<string, string>, now: int,
                      first: HttpReply, server: AuthServer, second: HttpReply)
      returns (requests: seq<Request>, outcome: Outcome)
      requires Valid()
      modifies this
      ensures Valid()
      ensures Exchange(State(), requests, outcome)
              == Retry(old(State()), credentials, verb, path, own, now, first, server, second)
    {
      requests := [ApiRequest(verb, path, MergeHeaders(headers, own))];
      if first.Status? && first.code == Unauthorized {
        token := None;
        tokenExpire := 0;
        var authRequests, ok := EnsureToken(now, server);
        requests := requests + authRequests;
        if !ok {
          return requests, AuthError;
        }
        requests := requests + [ApiRequest(verb, path, MergeHeaders(headers, own))];
        outcome := Completion(second);
      } else {
        outcome := Completion(first);
      }
    }

    /**
     * A resource request (`_get`, `_put` and `_post` differ only in `verb`):
     * ensure a token, then send with one retry on 401. The final
     * `raise_for_status` of the source passes every response that reaches it.
     */
    method Send(verb: Verb, path: string, own: map<string, string>, now: int,
                firstAuth: AuthServer, first: HttpReply, retryAuth: AuthServer, second: HttpReply)
      returns (requests: seq<Request>, outcome: Outcome)
      requires Valid()
      modifies this
      ensures Valid()
      ensures Exchange(State(), requests, outcome)
              == TokenLifecycle.Send(old(State()), credentials, verb, path, own, now, firstAuth, first, retryAuth, second)
    {
      var authRequests, ok := EnsureToken(now, firstAuth);
      if !ok {
        return authRequests, AuthError;
      }
      var sent;
      sent, outcome := HttpxRetry(verb, path, own, now, first, retryAuth, second);
      requests := authRequests + sent;
    }
  }
}
