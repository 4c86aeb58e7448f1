/**
 * The license client: it obtains and caches an access token for a license
 * key, and validates the license against the license server. A non-200
 * answer or a 200 without data raises a `LicenseValidationException`; two
 * malformed 200 answers end in a PHP TypeError instead, and a failed token
 * fetch is a failure value, not an exception. The HTTP exchange is outside
 * the model: each method states the request it sends as an output and takes
 * the server's response to it as an input.
 */
module LicenseClient {
  import opened Wrappers
  import opened PhpValues
  import opened Exceptions
  import opened Caching

  const AccessTokenKeyPrefix: string := "license-client:access-token-"
  const TokenPath: string := "/api/licenses/token"
  const ValidatePath: string := "/api/licenses/validate"
  const MissingDataMessage: string := "Invalid license server response: missing data."
  const UnknownErrorMessage: string := "Unknown license server error."

  /**
   * What the HTTP client reports of a response: its status, the decoded JSON
   * body (`None` when the body does not decode) and the raw body text.
   */
  datatype HttpResponse = HttpResponse(status: int, json: Option<Json>, rawBody: string)

  /**
   * A request to the license server: the path under the configured server
   * URL, the `Authorization` header if any, and the JSON body. The host
   * headers are not modelled.
   */
  datatype Request = Request(path: string, authorization: Option<string>, body: map<string, Json>)

  /** A token, or the error response (or type error) that replaces it. */
  datatype TokenOutcome = Issued(token: string) | Failed

  /**
   * How `validateLicense` ends: it returns the license data, throws the
   * validation error, or fails with a PHP TypeError.
   */
  datatype ValidationOutcome = Validated(license: Json) | Thrown(error: LicenseValidationException) | TypeError

  /** The whole effect of one `getAccessToken` call on the cache. */
  datatype TokenStep = TokenStep(outcome: TokenOutcome, request: Option<Request>, entries: map<string, CacheEntry>)

  /** `$response->json()`: the decoded body, or null. */
  function Decoded(response: HttpResponse): Json {
    if response.json.Some? then response.json.value else JNull
  }

  /** The cache key under which the token for `licenseKey` is kept. */
  function AccessTokenKey(licenseKey: string): (key: string)
    ensures |key| == |AccessTokenKeyPrefix| + |licenseKey|
    ensures key[..|AccessTokenKeyPrefix|] == AccessTokenKeyPrefix
    ensures key[|AccessTokenKeyPrefix|..] == licenseKey
  {
    AccessTokenKeyPrefix + licenseKey
  }

  /** Distinct license keys never share a cache key. */
  lemma AccessTokenKeyInjective(a: string, b: string)
    ensures AccessTokenKey(a) == AccessTokenKey(b) <==> a == b
  {
  }

  /** The token request: `{license_key: licenseKey}`, without authorization. */
  function TokenRequest(licenseKey: string): Request {
    Request(TokenPath, None, map["license_key" := JString(licenseKey)])
  }

  /**
   * The validation body: the instance's license key merged with the caller's
   * data, the caller's fields written last so that they win.
   */
  function ValidationPayload(licenseKey: string, data: map<string, Json>): (payload: map<string, Json>)
    ensures payload.Keys == data.Keys + {"license_key"}
    ensures forall k :: k in data ==> payload[k] == data[k]
    ensures "license_key" !in data ==> payload["license_key"] == JString(licenseKey)
  {
    map["license_key" := JString(licenseKey)] + data
  }

  /** The `Authorization` header value for a possibly unset access token. */
  function BearerHeader(accessToken: Option<string>): string {
    "Bearer " + if accessToken.Some? then accessToken.value else ""
  }

  /**
   * The token a token response carries, when the response is status 200,
   * its `status` is exactly "success", and its `data` and `data.token` are
   * both non-empty.
   */
  function IssuedToken(response: HttpResponse): (token: Option<Json>)
    ensures token.Some? <==>
              && response.status == 200
              && Offset(Decoded(response), "status") == JString("success")
              && !IsEmpty(Offset(Decoded(response), "data"))
              && !IsEmpty(Offset(Offset(Decoded(response), "data"), "token"))
    ensures token.Some? ==> token.value == Offset(Offset(Decoded(response), "data"), "token")
    ensures token.Some? ==> !IsEmpty(token.value)
  {
    var body := Decoded(response);
    if response.status == 200
       && Offset(body, "status") == JString("success")
       && !IsEmpty(Offset(body, "data"))
       && !IsEmpty(Offset(Offset(body, "data"), "token"))
    then Some(Offset(Offset(body, "data"), "token"))
    else None
  }

  /** Returning the truthy value `v` from a function declared `null|string`. */
  function ReturnToken(v: Json): (outcome: TokenOutcome)
    requires !IsEmpty(v)
    ensures outcome.Failed? <==> IsArray(v)
    ensures outcome.Issued? ==> !IsEmpty(JString(outcome.token))
    ensures v.JString? ==> outcome == Issued(v.s)
    ensures v.JInt? ==> outcome == Issued(DecimalString(v.i))
    ensures v.JBool? ==> outcome == Issued("1")
  {
    var r := ReturnedAsString(v);
    if r.Some? then Issued(r.value) else Failed
  }

  /**
   * One `getAccessToken` call against cache entries `entries` at time `now`.
   * `response` answers the token request, if one is sent; `expiresAt` is its
   * `data.expires_at`, already parsed.
   */
  function GetAccessTokenStep(entries: map<string, CacheEntry>, licenseKey: string, now: int,
                              response: HttpResponse, expiresAt: int): (step: TokenStep)
    ensures step.request.None? <==> !IsEmpty(ValueAt(entries, AccessTokenKey(licenseKey), now))
    ensures step.request.Some? ==> step.request.value == TokenRequest(licenseKey)
    ensures var cached := ValueAt(entries, AccessTokenKey(licenseKey), now);
            !IsEmpty(cached) ==> step.outcome == ReturnToken(cached) && step.entries == entries
    ensures var cached := ValueAt(entries, AccessTokenKey(licenseKey), now);
            IsEmpty(cached) && IssuedToken(response).Some? ==>
              && step.outcome == ReturnToken(IssuedToken(response).value)
              && step.entries == AfterPut(entries, AccessTokenKey(licenseKey), IssuedToken(response).value, expiresAt, now)
    ensures var cached := ValueAt(entries, AccessTokenKey(licenseKey), now);
            IsEmpty(cached) && IssuedToken(response).None? ==> step.outcome == Failed && step.entries == entries
    ensures step.outcome.Issued? ==> !IsEmpty(JString(step.outcome.token))
  {
    var key := AccessTokenKey(licenseKey);
    var cached := ValueAt(entries, key, now);
    if !IsEmpty(cached) then
      TokenStep(ReturnToken(cached), None, entries)
    else
      match IssuedToken(response)
      case Some(token) => TokenStep(ReturnToken(token), Some(TokenRequest(licenseKey)), AfterPut(entries, key, token, expiresAt, now))
      case None => TokenStep(Failed, Some(TokenRequest(licenseKey)), entries)
  }

  /** `$response->json() ?? ['message' => $response->body() ?: 'Unknown license server error.']`. */
  function ErrorBody(response: HttpResponse): (body: Json)
    ensures Decoded(response) != JNull ==> body == Decoded(response)
    ensures Decoded(response) == JNull ==> body.JObject? && body.fields.Keys == {"message"}
    ensures Decoded(response) == JNull ==>
              Offset(body, "message") == JString(if IsEmpty(JString(response.rawBody)) then UnknownErrorMessage else response.rawBody)
  {
    var decoded := Decoded(response);
    if decoded != JNull then decoded
    else JObject(map["message" := JString(if IsEmpty(JString(response.rawBody)) then UnknownErrorMessage else response.rawBody)])
  }

  /** How `validateLicense` ends for `response`. */
  function ValidationOutcomeOf(response: HttpResponse): (outcome: ValidationOutcome)
    ensures response.status != 200 ==> outcome == Thrown(FromResponse(response.status, ErrorBody(response)))
    ensures outcome.Validated? <==>
              response.status == 200 && !IsEmpty(Offset(Decoded(response), "data")) && IsArray(Offset(Decoded(response), "data"))
    ensures outcome.Validated? ==> outcome.license == Offset(Decoded(response), "data")
    ensures outcome.Thrown? && response.status == 200 ==>
              outcome.error.statusCode == 502 && outcome.error.message == MissingDataMessage
    ensures var body := Decoded(response);
            var data := Offset(body, "data");
            outcome.TypeError? <==>
              response.status == 200
              && ((IsEmpty(data) && body != JNull && !IsArray(body)) || (!IsEmpty(data) && !IsArray(data)))
  {
    var body := Decoded(response);
    if response.status != 200 then
      Thrown(FromResponse(response.status, ErrorBody(response)))
    else if IsEmpty(Offset(body, "data")) then
      if body == JNull then Thrown(New(502, MissingDataMessage, None))
      else if IsArray(body) then Thrown(New(502, MissingDataMessage, Some(body)))
      else TypeError
    else if IsArray(Offset(body, "data")) then
      Validated(Offset(body, "data"))
    else
      TypeError
  }

  /** Whether `validateLicense` reaches the assignment to `$this->license`. */
  predicate StoresLicense(response: HttpResponse) {
    response.status == 200 && !IsEmpty(Offset(Decoded(response), "data"))
  }

  class LicenseClientService {
    /** The most recently validated license data; null until a validation stores one. */
    var license: Json
    const licenseKey: string
    /** Never acquired: the constructor leaves the token unset. */
    var accessToken: Option<string>

    constructor (licenseKey: string)
      ensures this.licenseKey == licenseKey
      ensures accessToken == None && license == JNull
    {
      this.licenseKey := licenseKey;
      accessToken := None;
      license := JNull;
    }

    /**
     * Sends the validation request and interprets `response`. Any status
     * but 200 throws the normalised error; a 200 without data throws a 502;
     * otherwise the data becomes the current license and is returned.
     */
    method ValidateLicense(data: map<string, Json>, response: HttpResponse)
      returns (request: Request, outcome: ValidationOutcome)
      modifies this`license
      ensures request == Request(ValidatePath, Some(BearerHeader(accessToken)), ValidationPayload(licenseKey, data))
      ensures outcome == ValidationOutcomeOf(response)
      ensures StoresLicense(response) ==> license == Offset(Decoded(response), "data")
      ensures !StoresLicense(response) ==> license == old(license)
      ensures outcome.Validated? ==> license == outcome.license
      ensures outcome.Thrown? ==> license == old(license)
    {
      request := Request(ValidatePath, Some(BearerHeader(accessToken)), ValidationPayload(licenseKey, data));
      if response.status != 200 {
        outcome := Thrown(FromResponse(response.status, ErrorBody(response)));
        return;
      }
      var body := Decoded(response);
      if IsEmpty(Offset(body, "data")) {
        if body == JNull {
          outcome := Thrown(New(502, MissingDataMessage, None));
        } else if IsArray(body) {
          outcome := Thrown(New(502, MissingDataMessage, Some(body)));
        } else {
          outcome := TypeError;
        }
        return;
      }
      license := Offset(body, "data");
      if IsArray(license) {
        outcome := Validated(license);
      } else {
        outcome := TypeError;
      }
    }

    /**
     * Returns the cached token for `licenseKey` when one is live and truthy,
     * without a request; otherwise sends the token request and, when
     * `response` carries a token, caches it until `expiresAt` and returns
     * it. Every other response is a failure and leaves the cache alone.
     */
    method GetAccessToken(licenseKey: string, cache: TokenCache, now: int, response: HttpResponse, expiresAt: int)
      returns (outcome: TokenOutcome, request: Option<Request>)
      modifies cache
      ensures GetAccessTokenStep(old(cache.entries), licenseKey, now, response, expiresAt)
              == TokenStep(outcome, request, cache.entries)
      ensures request.None? ==> cache.entries == old(cache.entries)
      ensures IssuedToken(response).None? ==> cache.entries == old(cache.entries)
    {
      var key := AccessTokenKey(licenseKey);
      var cached := cache.Get(key, now);
      if !IsEmpty(cached) {
        outcome, request := ReturnToken(cached), None;
        return;
      }
      request := Some(TokenRequest(licenseKey));
      var token := IssuedToken(response);
      if token.None? {
        outcome := Failed;
        return;
      }
      cache.Put(key, token.value, expiresAt, now);
      outcome := ReturnToken(token.value);
    }
  }

  /**
   * A live, truthy cached token is returned (as the declared return type
   * coerces it) without a request, whatever the server would have said.
   */
  lemma CacheHitSendsNothing(entries: map<string, CacheEntry>, licenseKey: string, now: int,
                             response1: HttpResponse, expiresAt1: int, response2: HttpResponse, expiresAt2: int)
    requires !IsEmpty(ValueAt(entries, AccessTokenKey(licenseKey), now))
    ensures GetAccessTokenStep(entries, licenseKey, now, response1, expiresAt1).request == None
    ensures GetAccessTokenStep(entries, licenseKey, now, response1, expiresAt1).entries == entries
    ensures GetAccessTokenStep(entries, licenseKey, now, response1, expiresAt1).outcome
            == ReturnToken(ValueAt(entries, AccessTokenKey(licenseKey), now))
    ensures GetAccessTokenStep(entries, licenseKey, now, response1, expiresAt1)
            == GetAccessTokenStep(entries, licenseKey, now, response2, expiresAt2)
  {
  }

  /** On a miss, a token-carrying response is cached under the key until `expiresAt` and returned. */
  lemma FetchedTokenIsCached(entries: map<string, CacheEntry>, licenseKey: string, now: int,
                             response: HttpResponse, expiresAt: int, token: string)
    requires IsEmpty(ValueAt(entries, AccessTokenKey(licenseKey), now))
    requires IssuedToken(response) == Some(JString(token))
    requires now < expiresAt
    ensures var step := GetAccessTokenStep(entries, licenseKey, now, response, expiresAt);
            && step.outcome == Issued(token)
            && step.entries == entries[AccessTokenKey(licenseKey) := CacheEntry(JString(token), expiresAt)]
  {
  }

  /** On a miss, any response without a token is a failure and the cache is unchanged. */
  lemma FailedFetchLeavesCache(entries: map<string, CacheEntry>, licenseKey: string, now: int,
                               response: HttpResponse, expiresAt: int)
    requires IsEmpty(ValueAt(entries, AccessTokenKey(licenseKey), now))
    requires IssuedToken(response).None?
    ensures GetAccessTokenStep(entries, licenseKey, now, response, expiresAt)
            == TokenStep(Failed, Some(TokenRequest(licenseKey)), entries)
  {
  }

  /**
   * A token once issued is issued again, without a request, by every later
   * call made before its expiry, whatever that call's response would be.
   */
  lemma IssuedTokenIsReused(entries: map<string, CacheEntry>, licenseKey: string, now: int,
                             response: HttpResponse, expiresAt: int,
                             later: int, response2: HttpResponse, expiresAt2: int)
    requires GetAccessTokenStep(entries, licenseKey, now, response, expiresAt).outcome.Issued?
    requires now <= later
    requires IsLive(GetAccessTokenStep(entries, licenseKey, now, response, expiresAt).entries, AccessTokenKey(licenseKey), later)
    ensures var first := GetAccessTokenStep(entries, licenseKey, now, response, expiresAt);
            var second := GetAccessTokenStep(first.entries, licenseKey, later, response2, expiresAt2);
            second.request.None? && second.entries == first.entries && second.outcome == first.outcome
  {
  }

  /** Any status other than 200 throws with that status and the normalised message and body. */
  lemma NonOkStatusThrows(response: HttpResponse)
    requires response.status != 200
    ensures var e := FromResponse(response.status, ErrorBody(response));
            && ValidationOutcomeOf(response) == Thrown(e)
            && e.statusCode == response.status
            && !StoresLicense(response)
  {
  }

  /**
   * An error response whose body is not JSON throws with the raw body as the
   * message, or 'Unknown license server error.' when the raw body is falsy,
   * and carries `{message: …}` as its body.
   */
  lemma NonJsonErrorUsesRawBody(response: HttpResponse)
    requires response.status != 200 && Decoded(response) == JNull
    ensures var m := if IsEmpty(JString(response.rawBody)) then UnknownErrorMessage else response.rawBody;
            ValidationOutcomeOf(response)
            == Thrown(LicenseValidationException(response.status, m, JObject(map["message" := JString(m)])))
  {
  }

  /** A 200 whose array or null body has empty or absent `data` throws a 502 carrying that body. */
  lemma MissingDataThrows502(response: HttpResponse)
    requires response.status == 200 && IsEmpty(Offset(Decoded(response), "data"))
    requires Decoded(response) == JNull || IsArray(Decoded(response))
    ensures ValidationOutcomeOf(response)
            == Thrown(LicenseValidationException(502, MissingDataMessage,
                                                 if Decoded(response) == JNull then EmptyArray else Decoded(response)))
    ensures !StoresLicense(response)
  {
  }

  /**
   * A 200 carrying `{data: {plan: "pro", seats: 5}}` validates to that data;
   * a 403 carrying `{message: "License revoked"}` throws 403 with that
   * message; a 200 carrying only `{status: "success"}` throws a 502.
   */
  lemma ValidationExamples(rawBody: string)
    ensures var data := JObject(map["plan" := JString("pro"), "seats" := JInt(5)]);
            ValidationOutcomeOf(HttpResponse(200, Some(JObject(map["data" := data])), rawBody)) == Validated(data)
    ensures var body := JObject(map["message" := JString("License revoked")]);
            ValidationOutcomeOf(HttpResponse(403, Some(body), rawBody))
            == Thrown(LicenseValidationException(403, "License revoked", body))
    ensures var body := JObject(map["status" := JString("success")]);
            ValidationOutcomeOf(HttpResponse(200, Some(body), rawBody))
            == Thrown(LicenseValidationException(502, MissingDataMessage, body))
  {
  }
}
