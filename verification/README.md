# Charge-Amps client: token lifecycle, request builders and CLI decisions in Dafny

This project models the parts of the Charge-Amps cloud API client that make
decisions of their own. The rest of that client only marshals HTTP requests.

- **Token lifecycle and 401 retry** (`chargeamps/external.py`). The client keeps
  four fields: the bearer token, the refresh token, the token expiry and the
  shared request headers. The skew is 30 seconds.
  - Before each resource request, `_ensure_token` does nothing while the
    expiry minus the skew is still in the future. Otherwise it refreshes
    (when a refresh token is held), logs in (when needed), and installs the
    answer.
  - `_httpx_retry` clears the token on a 401 and re-authenticates. It is meant
    to send the request once more. As written, that retry is never awaited and
    so never sent (see the `External.ExternalClient.HttpxRetry` line under
    "## Left out").
  - `token_lifecycle.dfy` (module `TokenLifecycle`) states all of this as
    functions over values, with the lemmas.
  - `external.dfy` (class `External.ExternalClient`) performs the same steps on
    mutable fields. Each method is proved equal to its function.
  - The network is represented by its answers. `AuthServer` gives the refresh
    and login answers for one acquisition; `HttpReply` gives the resource
    endpoint's answer. The wall clock is an integer `now`.
  - Every request the client would send is recorded in order. This makes
    "no request", "one refresh, no login" and "exactly one retry" statable.
- **Organisation request builders** (`chargeamps/organisation.py`, module
  `Organisation`). `verify_rfid` turns a tag description into query
  parameters, or rejects it with an empty dictionary. The sessions query, the
  users query and the new-user body are built key by key. A short password is
  refused.
- **CLI decisions** (`chargeamps/cli.py`, module `Cli`). These cover:
  - the default charge point;
  - the connector filter of the status command;
  - the session listing, filtered by connector and sorted by id;
  - the in-place patches of the two settings records;
  - the remote-start authorisation.
- `models.dfy` holds the API records as datatypes. The two mutable settings
  records are classes. `wrappers.dfy` holds `Option`, `Result` and Python
  truthiness for optional strings and integers.

Three behaviours one might expect of such a client are absent from the code,
and the model follows the code:
- There is no re-check of the expiry inside the lock.
  `_exclusive_ensure_token` acquires a token even when another caller has just
  installed one.
- There is no RFID check that rejects non-hex tags or tags of the wrong size.
  `verify_rfid` never looks at the tag itself, so "12G4" is accepted.
- A token whose expiry is missing or already past is still used. An answer
  without an `exp` claim is installed with expiry 0, and the resource request
  that follows carries it at once. Only the next ensure renews it
  (`TokenLifecycle.StaleTokenIsUsedOnce`, `TokenLifecycle.MissingExpiryIsNeverFresh`).

The 401 retry is modelled twice:
- `TokenLifecycle.RetryAsWritten` follows the code.
- The class and `TokenLifecycle.Send` use the corrected `TokenLifecycle.Retry`.

See Findings.

## Model

| member | source | states |
|---|---|---|
| `TokenLifecycle.Install` | chargeamps/external.py:108-116 | the fields hold the answer: its token and refresh token, its `exp` claim (0 when missing), and `Authorization: Bearer <token>` over the previous headers. So the fields are coherent: the token comes with a refresh token and is the one in the Authorization header |
| `TokenLifecycle.Login` | chargeamps/external.py:87-102 | one login request is appended to those already sent. It succeeds iff the server grants it. A grant installs its answer. A refusal leaves no tokens, expiry 0, and the headers untouched |
| `TokenLifecycle.Acquire` | chargeamps/external.py:67-116 | one or two auth requests. The last is a login unless a refresh alone succeeded, and that refresh was sent only because a refresh token was held. Success leaves the fields coherent. Failure leaves no tokens, expiry 0, and the headers untouched |
| `TokenLifecycle.EnsureToken` | chargeamps/external.py:55-65 | no request is sent iff the token is fresh at `now`; otherwise at most two. A success that sent something leaves the fields coherent |
| `TokenLifecycle.RetryAsWritten` | chargeamps/external.py:118-131 | as written, once the missing `await` is added. The first request uses the given headers. A retry or an auth error happens only after a 401. When the retry is sent, it is identical to the first request, headers included |
| `TokenLifecycle.Retry` | chargeamps/external.py:118-131 | corrected. The first request carries the merged headers. A retry or an auth error happens only after a 401. The retry's headers are merged again from the fields as re-authentication left them |
| `TokenLifecycle.Send` | chargeamps/external.py:133-155 | a resource call sends at least one request. When the ensure step succeeds and the first reply is 2xx, the call returns `Done` with that status. It ends in `Done` only with the 2xx status of the first or the retried response |
| `TokenLifecycle.MergeHeaders` | chargeamps/external.py:143 | request headers are the shared headers overridden by the call's own: union of keys; own value wins; shared value otherwise |
| `TokenLifecycle.Completion` | chargeamps/external.py:118-131 | a response that is not retried ends in `Done` exactly for 2xx and in an `HttpStatusError` with its status otherwise; a transport error propagates |
| `TokenLifecycle.FreshTokenIsKept` | chargeamps/external.py:55-57 | when expiry − 30 > now, ensuring a token sends nothing and changes nothing |
| `TokenLifecycle.EnsureTwiceIsNoOp` | chargeamps/external.py:55-57 | after a successful ensure that installed a token fresh at `now`, a second ensure at the same `now` is a no-op |
| `TokenLifecycle.FirstEnsureLogsIn` | chargeamps/external.py:43-102 | a new client (no token, no refresh token, expiry 0): its first ensure at any now ≥ 0 sends exactly one login and no refresh. It succeeds iff the login does. On success the login's answer is installed; on failure the fields stay as they were |
| `TokenLifecycle.RefreshIffRefreshToken` | chargeamps/external.py:70-86 | with a stale token, at least one request is sent. The first is a refresh, with the current tokens, iff the refresh token is truthy; otherwise the only request is a login |
| `TokenLifecycle.RefreshSkipsLoginOnlyWithToken` | chargeamps/external.py:70-96 | after a successful refresh, a login follows iff no bearer token was held. With a token, the refreshed answer is installed after one request. Without one, the login's answer is installed |
| `TokenLifecycle.FailedRefreshFallsBackToLogin` | chargeamps/external.py:80-96 | a failed refresh is followed by exactly one login, whose answer is installed when it succeeds |
| `TokenLifecycle.FailedLoginClears` | chargeamps/external.py:97-102 | an ensure raises iff a login was sent and refused. It then leaves token None, refresh token None, expiry 0 and the headers untouched |
| `TokenLifecycle.SuccessInstallsLastAnswer` | chargeamps/external.py:104-116 | on normal return after sending, the fields hold the last answer received. That is the tokens, the `exp` claim (0 when missing) and `Authorization: Bearer <token>`. So the "No response" branch is never taken |
| `TokenLifecycle.EnsureKeepsCoherent` | chargeamps/external.py:67-116 | ensuring a token preserves the fields' coherence invariant |
| `TokenLifecycle.EnsuredTokenIsAttached` | chargeamps/external.py:55-116 | from coherent fields, a normal return at any now ≥ 0 leaves a token held, and the shared headers carry it as a bearer header |
| `TokenLifecycle.FailureIsNotSticky` | chargeamps/external.py:70-102 | after a failed login, the next ensure at any now ≥ 0 sends a single login and no refresh |
| `TokenLifecycle.MissingExpiryIsNeverFresh` | chargeamps/external.py:113-114 | a token without an `exp` claim is stale at every now ≥ 0, so the next ensure always renews it |
| `TokenLifecycle.RefreshAfterExpiry` | chargeamps/external.py:55-79 | scenario: a login answers T1/R1 with exp = t0+3600. At t0+3569 the next ensure sends nothing. At t0+3620 it sends exactly one refresh carrying T1 and R1, no login, and installs the refreshed answer |
| `TokenLifecycle.EnsureSendsNoApiRequest` | chargeamps/external.py:67-116 | token acquisition sends only auth requests, never a resource request |
| `TokenLifecycle.NonUnauthorizedIsFinal` | chargeamps/external.py:118-131 | any first reply other than 401 ends the wrapper after one request, with the fields unchanged. The outcome is that reply's completion: a 2xx is returned, another status is raised, and a transport error propagates |
| `TokenLifecycle.StaleTokenIsUsedOnce` | chargeamps/external.py:110-116 | from a new client, a login answer without `exp` leaves a token that is not fresh. Yet the next request is the resource request carrying `Authorization: Bearer <token>` |
| `TokenLifecycle.UnauthorizedIsRetriedOnce` | chargeamps/external.py:123-130 | a 401 clears token and expiry but keeps the refresh token, then re-ensures. If that succeeds, exactly one more request is sent and its outcome is final (a second 401 is raised). If it fails, nothing more is sent and the auth error propagates. Resource requests: 2 or 1 |
| `TokenLifecycle.UnauthorizedAlwaysLogsIn` | chargeamps/external.py:123-127 | after a 401 a login is always sent. Any refresh goes first, without a bearer token, and its answer is discarded: the login's answer is the one installed |
| `TokenLifecycle.RetryCarriesNewToken` | chargeamps/external.py:118-131 | corrected retry: unless the call sets its own Authorization header, the retried request carries the token just obtained |
| `TokenLifecycle.RetryAsWrittenResendsRejectedToken` | chargeamps/external.py:118-131 | as written, for any held token and a call without its own Authorization header: when the re-authentication after a 401 succeeds, it was a login and its token is installed. Yet the retry carries the bearer of the rejected token. It carries the new one iff the login answered with the same token |
| `TokenLifecycle.RejectedTokenResentExample` | chargeamps/external.py:141-147 | as written, for example: T1 is rejected with 401, the login yields T2, and the retry still sends `Bearer T1` |
| `TokenLifecycle.SendKeepsCoherent` | chargeamps/external.py:133-155 | every resource call (`_get`/`_put`/`_post`) preserves the coherence invariant |
| `TokenLifecycle.RetryIsBounded` | chargeamps/external.py:118-131 | the wrapper sends at most two resource requests, and two only when the first was answered 401 |
| `TokenLifecycle.SendIsBounded` | chargeamps/external.py:141-147 | a resource call sends at most two resource requests, and two only when the first was answered 401 |
| `TokenLifecycle.SendAttachesBearer` | chargeamps/external.py:141-147 | the first resource request goes out right after the ensure step. It carries the merged headers, whose Authorization is the bearer of the token that step left |
| `External.ExternalClient.constructor` | chargeamps/external.py:27-49 | a new client: no token, no refresh token, expiry 0, empty headers; the given credentials; the given base URL or the default one |
| `External.ExternalClient.EnsureToken` | chargeamps/external.py:55-65 | the fields and requests are those of `TokenLifecycle.EnsureToken` on the old fields. A fresh token means no request and no change. Coherence is kept |
| `External.ExternalClient.ExclusiveEnsureToken` | chargeamps/external.py:67-116 | the fields and requests are those of `TokenLifecycle.Acquire` on the old fields. On failure: no tokens, expiry 0, headers unchanged. Coherence is kept |
| `External.ExternalClient.HttpxRetry` | chargeamps/external.py:118-131 | the fields, requests and outcome are those of the corrected `TokenLifecycle.Retry`. Coherence is kept |
| `External.ExternalClient.Send` | chargeamps/external.py:133-155 | the fields, requests and outcome are those of `TokenLifecycle.Send`: ensure, then request with one retry. Coherence is kept |
| `Organisation.VerifyRfid` | chargeamps/organisation.py:71-94 | the key-by-key result equals the parameter table `RfidParams`. It is empty iff the format is unknown, or iff the description is not an unsized "Hex" and has no length in {4, 7, 10} |
| `Organisation.UnknownFormatRejected` | chargeamps/organisation.py:80-85 | a format outside "Hex", "Dec", "ReverseDec" yields {} |
| `Organisation.HexWithoutLengthPassesTag` | chargeamps/organisation.py:74-79 | "Hex" with a missing or zero length yields exactly {"rfid": rfid}, with no length check |
| `Organisation.BadLengthRejected` | chargeamps/organisation.py:87-91 | a known format whose length is not 4, 7 or 10 yields {}. Unsized "Hex" is the exception; for Dec and ReverseDec this includes a missing length |
| `Organisation.AcceptedParams` | chargeamps/organisation.py:80-94 | an accepted sized description carries rfid, rfidLength and rfidFormat equal to the inputs. rfidDecimalFormatLength is present iff the format is decimal and that length is truthy. There are no other keys |
| `Organisation.TagTextNeverChecked` | chargeamps/organisation.py:74-79 | acceptance does not depend on the tag text. An accepted result maps "rfid" to the input unchanged ("12G4" included) |
| `Organisation.ChargingSessionsQuery` | chargeamps/organisation.py:107-116 | startTime and endTime appear iff given. The RFID parameters are merged iff the tag is truthy. No other keys |
| `Organisation.RejectedTagAddsNothing` | chargeamps/organisation.py:113-116 | a rejected tag description contributes no key to the sessions query |
| `Organisation.UsersQuery` | chargeamps/organisation.py:176-180 | the query holds rfidDecimalFormatLength iff that argument is truthy, and expand="rfid" iff the flag is set; nothing else |
| `Organisation.NewUserPayload` | chargeamps/organisation.py:202-221 | fails iff the password is truthy and shorter than 8, so a password of 8 is accepted. Otherwise the body holds exactly the truthy fields under their camel-case keys, plus the tags when given |
| `Models.ChargePointSettings.constructor` | chargeamps/models.py:61-66 | a settings record holds the given id, dimmer and downlight |
| `Models.ChargePointConnectorSettings.constructor` | chargeamps/models.py:69-77 | a connector settings record holds the given fields |
| `Cli.ChargePointId` | chargeamps/cli.py:25-29 | a truthy given id is used as is. Otherwise the first owned charge point's id is used, and `None` (the IndexError) means there is none |
| `Cli.StatusesOfCount` | chargeamps/cli.py:46-49 | the shown connector statuses are exactly those of the requested connector, each as often as it occurs |
| `Cli.StatusReportOf` | chargeamps/cli.py:46-51 | with a truthy connector id, the loop prints that connector's statuses in order; otherwise (None or 0) the whole status |
| `Cli.SessionsOnCount` | chargeamps/cli.py:67-72 | the selected sessions are exactly those whose connector equals the requested one (all when None), with their multiplicities |
| `Cli.SortByIdCorrect` | chargeamps/cli.py:73 | sorting by id yields a sequence ordered by Python string order that is a permutation of its input |
| `Cli.ListSessions` | chargeamps/cli.py:67-73 | the listing is sorted by id. Each session occurs as often as fetched when on the requested connector (every session when None) and not at all otherwise |
| `Cli.Capitalize` | chargeamps/cli.py:91 | same length; the first character upper-cased; every other character lower-cased |
| `Cli.DimmerChoices` | chargeamps/cli.py:261 | the choices off, low, medium and high become Off, Low, Medium and High |
| `Cli.PatchChargePointSettings` | chargeamps/cli.py:90-93 | a truthy dimmer becomes the capitalised choice; a given downlight replaces the downlight; the id and anything not given are kept |
| `Cli.PatchConnectorSettings` | chargeamps/cli.py:125-132 | max current, RFID lock and cable lock are each replaced iff given. The mode becomes "On"/"Off" iff `enabled` is given. The charge point and connector ids never change |
| `Cli.RemoteStartAuth` | chargeamps/cli.py:145-150 | the tag as given, format "hex", the given transaction id. The length is the number of whole bytes the hex digits encode: 2·len ≤ len(rfid) < 2·len + 2 |

## Findings

| source | as written | input that shows it | evidently intended | confidence | as-written member | corrected member |
|---|---|---|---|---|---|---|
| chargeamps/external.py:143 and :128 | `_get`/`_put`/`_post` merge the headers once, before the request. After a 401, `_httpx_retry` resends that same dictionary, so the retry carries the Authorization header of the token that was just rejected. Today the retry at :128 is never awaited and so never sent. The stale header shows once that missing `await` is added | token T1 answered 401; the re-login yields T2; the retried request (with the `await` added) still says `Bearer T1` | the retry carries `Bearer T2`, the token just obtained | high (not executed) | `TokenLifecycle.RetryAsWritten`, `TokenLifecycle.RetryAsWrittenResendsRejectedToken`, `TokenLifecycle.RejectedTokenResentExample` | `TokenLifecycle.Retry`, `TokenLifecycle.RetryCarriesNewToken` |

## Left out

- Concurrency and `_token_lock` (chargeamps/external.py:49, 64-65) are not modelled.
  - Nothing is claimed about concurrent callers sharing one acquisition.
  - The code does not re-check the expiry inside the lock, so two waiting callers would each acquire a token.
- `External.ExternalClient.HttpxRetry` departs from the source in two ways.
  - It awaits the retried request. The source calls it without `await` at chargeamps/external.py:128, so as written the retry is never sent, and the following `raise_for_status` fails on the coroutine object. Coroutines are not modelled.
  - It merges the headers again before the retry, so the retry carries the new token. The source resends the dictionary merged before the 401 (see Findings). `TokenLifecycle.RetryAsWritten` models that.
- HTTP transport, `urljoin` and the base URL in request targets are not modelled. Only the path is recorded.
- Request bodies and query parameters of resource calls, and JSON decoding, are not modelled.
- `jwt.decode` is not modelled. The decoded `exp` claim is an input; the answers' token fields are taken to be strings.
  - A decode failure would leave the new tokens installed with the old expiry and headers (lines 110-116). That case is not modelled.
- Wall-clock floats from `time.time()` are not modelled: time is an integer `now`.
- The `_token_skew` attribute is never reassigned, so it is the constant 30.
- Logging is not modelled.
- `shutdown` is not modelled; transport resources are out of scope.
- The response-decoding loops of the `get_*` methods (`model_validate`) are not modelled; they only convert JSON.
- `feature_required`, the organisation module's imports of names that `models.py` lacks, and the organisation endpoints other than the three builders are not modelled.
- The `Rfid` type passed to `add_organisation_user` is not part of this model.
  - Its serialised form is the `rfidTags` argument, included whenever present, since such objects are always truthy.
  - The ValueError message says "must exceed 8 characters", but the check accepts exactly 8; the model follows the check.
- `Organisation.NewUserPayload`: the `print(payload)` at chargeamps/organisation.py:222 is not modelled. It writes the body to standard output before the request, including the new user's password when one is given.
- Printing, argparse construction, config loading and `main_loop` in `chargeamps/cli.py` are not modelled.
- argparse gives each store_true/store_false pair a default of False. The patch methods take the optional arguments as the code reads them (`is not None`).
- The UUID of the remote start is a parameter.
- `Cli.ChargePointId`: the owned charge points are a parameter. The model does not capture that the source fetches them only when no id is given.
- `Cli.Capitalize`: ASCII case mapping only; Python's Unicode title-casing of the first character is not modelled. The dimmer choices are ASCII.
- `Cli.ListSessions`: `SortById` inserts stably, as Python's `sorted` does, but no lemma states stability for equal ids.
- Key order in query and body dictionaries is not modelled. Python dicts keep insertion order, for example `rfidDecimalFormatLength` before `rfidLength` (chargeamps/organisation.py:82, 88), and query strings and JSON bodies follow it. The model's maps have no order.
- `Models`: floating-point fields are `real`. An integer `--current` becomes the equal real.
