# License client: token cache, license validation and error normalisation

This project models the core of a PHP license client. The client asks a
remote license server whether the application's license is valid. It does
two things:

- **Access tokens.** It gets a short-lived access token for a license key.
  The token is kept in a shared cache under the key
  `license-client:access-token-{licenseKey}` until the absolute expiry the
  server gives. A live, truthy cached token is returned without asking the
  server again.
- **License validation.** It posts the license key, merged with the
  caller's data, to the validation endpoint. It returns the `data` field of
  a successful response and stores it as the client's current license.
  A non-200 response, or a 200 response without data, raises a
  `LicenseValidationException`. Its message comes from the response body
  by a fixed precedence: `message`, then `error`, then `errors` if that is
  a string, then a default. Two malformed 200 responses end in a PHP
  TypeError instead (see below). A failed token fetch is a failure value,
  not an exception.

Modules:

- `Wrappers` (`wrappers.dfy`): `Option`.
- `PhpValues` (`php_values.dfy`): the decoded JSON values PHP works with.
  PHP's empty array has two spellings, `JList([])` and `JObject(map[])`.
  Every predicate treats them alike; the model itself produces `JList([])`.
  It also defines PHP's `empty()` (`IsEmpty`), array offsets read as `empty()`
  sees them (`Offset`), and the coercion a function declared `null|string`
  applies to a non-string return value (`ReturnedAsString`, with
  `DecimalString` for integers).
- `Exceptions` (`license_validation_exception.dfy`): the exception as a
  value. It has the constructor (`New`), `GetResponseBody` and the
  normalisation `FromResponse`. Their properties are stated as lemmas.
- `Caching` (`token_cache.dfy`): the shared cache store. It is a class with
  `Get` and `Put`, specified by the functions `ValueAt` and `AfterPut`.
- `LicenseClient` (`license_client_service.dfy`): the class
  `LicenseClientService`. It has the fields `license`, `licenseKey` (a
  constant) and `accessToken`, and the methods `ValidateLicense` and
  `GetAccessToken`. Each method is specified by a function of its inputs:
  `ValidationOutcomeOf` and `GetAccessTokenStep`.

The HTTP exchange is not modelled. Each method returns the `Request` it
sends (path, `Authorization` header, JSON body) as an output. It takes the
server's `HttpResponse` (status, decoded JSON or `None`, raw body) as an
input. On a cache hit, `GetAccessToken` returns no request and ignores its
response argument. The clock is a `now: int` parameter. The token's parsed
`data.expires_at` is an `expiresAt: int` parameter.

Modelling choices that follow the code:

- "Success" means status exactly 200.
- The fallback error message is used when the raw body is PHP-falsy. That
  includes the body `"0"`, not only the empty body.
- A 200 response whose decoded body is neither null nor an array, and has
  no `data`, makes the exception constructor fail with a PHP TypeError
  (outcome `TypeError`). The constructor's third parameter is `?array`.
- A 200 response whose `data` is truthy but is not an array is stored in
  `license` first. Returning it then fails the `array` return type, so the
  outcome is also `TypeError`.
- The constructor never acquires a token, and `ValidateLicense` does not
  acquire one. `accessToken` stays unset, so the `Authorization` header
  sent is `"Bearer "`.
- `getAccessToken` returns an error response where a `null|string` is
  declared. That outcome, and every PHP TypeError on the token path, is the
  single outcome `Failed`.
- A cached or fetched token is returned as PHP coerces it. An integer
  becomes its decimal string, `true` becomes `"1"`, and an array is a
  TypeError (`Failed`). The cache stores the raw value before the return.
- A cache put whose expiry is not after `now` forgets the key, as the cache
  repository does for a time to live of zero or less. An entry is live
  while `now < expiresAt`.
- The caller's data in the validation body is written after `license_key`,
  so a caller-supplied `license_key` wins. This uses PHP 8.1 string-key
  spread.

## Model

| member | source | states |
|---|---|---|
| `Exceptions.New` | src/Exceptions/LicenseValidationException.php:11-19 | the exception keeps the status code and message given; a null body is stored as `[]`, any other body as given |
| `Exceptions.ResponseBodyOfNew` | src/Exceptions/LicenseValidationException.php:14-24 | `getResponseBody` after construction with a null body is `[]`, otherwise the body passed in |
| `Exceptions.FromResponse` | src/Exceptions/LicenseValidationException.php:26-40 | status code unchanged; body kept only if it is an array, else `[]`; the message is never empty and is either the default or the string held by `message`, `error` or `errors` |
| `Exceptions.MessageStringWins` | src/Exceptions/LicenseValidationException.php:31-32 | for every body whose `message` is a non-empty string, that string is the result message; on an object body it stays so whatever `error` and `errors` are set to |
| `Exceptions.NonStringMessageGivesDefault` | src/Exceptions/LicenseValidationException.php:31-32 | for every body whose `message` is non-empty but not a string, the result is the default message; on an object body it stays so whatever `error` and `errors` are set to |
| `Exceptions.ErrorDecidesWhenMessageEmpty` | src/Exceptions/LicenseValidationException.php:33-34 | for every body with `message` empty or absent and `error` non-empty, the message is `error` if it is a string and the default otherwise; on an object body whatever `errors` is set to |
| `Exceptions.ErrorsUsedOnlyAsString` | src/Exceptions/LicenseValidationException.php:35-37 | with `message` and `error` empty, the message is `errors` exactly when it is a non-empty string, otherwise the default |
| `Exceptions.NonArrayBodyGivesDefault` | src/Exceptions/LicenseValidationException.php:28-39 | a non-array body yields the exception (status, 'License validation failed.', `[]`) |
| `Exceptions.MessagePrecedenceExamples` | src/Exceptions/LicenseValidationException.php:31-39 | the bodies `{message:"A"}`, `{error:"B"}`, `{errors:"C"}` give A, B, C; `{errors:{field:["x"]}}` gives the default and keeps the body |
| `PhpValues.DecimalString` | src/Services/LicenseClientService.php:78 | the string an integer coerces to: a minus sign exactly for negatives, digits that read back as the magnitude, no leading zero, and "" or "0" only for zero |
| `PhpValues.ReturnedAsString` | src/Services/LicenseClientService.php:78 | a truthy value returned as `null\|string`: a string unchanged, an integer as its `DecimalString`, `true` as "1", an array a TypeError (`None`); any returned string is truthy |
| `Caching.ValueAt` | src/Services/LicenseClientService.php:82 | a cache read gives the stored value while `now` is before its expiry and null otherwise, so expired and missing entries read the same |
| `Caching.AfterPut` | src/Services/LicenseClientService.php:107 | a put stores (value, expiry) under the key, replacing any earlier entry, when the expiry is after `now`, and removes the key otherwise; other keys are untouched |
| `Caching.ReadAfterPut` | src/Services/LicenseClientService.php:82-107 | a read before the expiry returns the value just put |
| `Caching.ExpiredReadsAsNull` | src/Services/LicenseClientService.php:82-107 | a read at or after the expiry returns null |
| `Caching.PutLeavesOtherKeys` | src/Services/LicenseClientService.php:107 | a put under one key leaves every other key's reads unchanged |
| `Caching.TokenCache.Get` | src/Services/LicenseClientService.php:82 | the store's read returns `ValueAt` of its entries and changes nothing |
| `Caching.TokenCache.Put` | src/Services/LicenseClientService.php:107 | the store's entries become `AfterPut` of the old entries |
| `LicenseClient.AccessTokenKey` | src/Services/LicenseClientService.php:125-128 | the cache key is the prefix `license-client:access-token-` followed by the license key |
| `LicenseClient.AccessTokenKeyInjective` | src/Services/LicenseClientService.php:125-128 | two license keys share a cache key exactly when they are equal |
| `LicenseClient.ValidationPayload` | src/Services/LicenseClientService.php:48 | the body's keys are the caller's keys plus `license_key`; every caller field is kept as given, and `license_key` is the instance's key only when the caller did not supply one |
| `LicenseClient.IssuedToken` | src/Services/LicenseClientService.php:99-104 | a token response carries a token exactly when its status is 200, its `status` is "success", and `data` and `data.token` are non-empty; that token is `data.token` |
| `LicenseClient.ReturnToken` | src/Services/LicenseClientService.php:104-109 | returning a truthy token: a string is issued unchanged, an integer as its decimal string, `true` as "1"; it fails exactly when the token is an array; an issued token is never "" or "0" |
| `LicenseClient.GetAccessTokenStep` | src/Services/LicenseClientService.php:78-117 | on a live truthy cached value: no request, cache unchanged, and that value returned as coerced; otherwise the `{license_key}` token request is sent, and a response carrying token t returns t as coerced with the cache put (key, t, expiresAt), while any other response fails with the cache unchanged |
| `LicenseClient.CacheHitSendsNothing` | src/Services/LicenseClientService.php:80-86 | on a live truthy cached token: the cached token is returned, no request is sent, the cache is unchanged, and the outcome does not depend on the server's response |
| `LicenseClient.FetchedTokenIsCached` | src/Services/LicenseClientService.php:99-109 | on a miss, a response carrying string token t with a future expiry returns t and maps the key to (t, expiresAt) |
| `LicenseClient.FailedFetchLeavesCache` | src/Services/LicenseClientService.php:101-116 | on a miss, every response without a token sends the request, fails, and leaves the cache unchanged |
| `LicenseClient.IssuedTokenIsReused` | src/Services/LicenseClientService.php:80-109 | a token issued by one call is issued again, with no request and no cache change, by any later call made while its entry is live |
| `LicenseClient.ErrorBody` | src/Services/LicenseClientService.php:53 | the error body is the decoded body when there is one; otherwise `{message: rawBody}`, or 'Unknown license server error.' when the raw body is falsy |
| `LicenseClient.ValidationOutcomeOf` | src/Services/LicenseClientService.php:50-68 | any status but 200 throws `FromResponse(status, error body)`; validation succeeds exactly on a 200 whose `data` is a non-empty array, and returns that data; a 200 ends in a TypeError exactly when `data` is empty and the body is neither null nor an array, or `data` is non-empty and not an array; a 200 that throws is a 502 with the missing-data message |
| `LicenseClient.NonOkStatusThrows` | src/Services/LicenseClientService.php:50-55 | any status other than 200 throws with that status and the normalised message and body, and stores nothing |
| `LicenseClient.NonJsonErrorUsesRawBody` | src/Services/LicenseClientService.php:50-55 | a non-JSON error response throws with the raw body as message (or 'Unknown license server error.' when it is falsy) and `{message: …}` as body |
| `LicenseClient.MissingDataThrows502` | src/Services/LicenseClientService.php:57-64 | a 200 with empty or absent `data` and a null or array body throws 502 'Invalid license server response: missing data.' carrying the parsed body (`[]` for null) and stores nothing |
| `LicenseClient.ValidationExamples` | src/Services/LicenseClientService.php:50-68 | `{data:{plan:"pro",seats:5}}` with 200 returns that data; 403 `{message:"License revoked"}` throws 403 "License revoked"; 200 `{status:"success"}` throws 502 |
| `LicenseClient.LicenseClientService.constructor` | src/Services/LicenseClientService.php:21-26 | the license key is the one given, the access token is left unset and no license is stored |
| `LicenseClient.LicenseClientService.ValidateLicense` | src/Services/LicenseClientService.php:38-69 | sends the merged payload with `Bearer` + access token; the outcome is `ValidationOutcomeOf(response)`; `license` becomes `data` when the code reaches that assignment and is unchanged otherwise, in particular on every thrown error; the returned license equals the stored one; only `license` may change |
| `LicenseClient.LicenseClientService.GetAccessToken` | src/Services/LicenseClientService.php:78-117 | outcome, request and new cache are those of `GetAccessTokenStep` on the old cache; with no request, or with a response carrying no token, the cache is unchanged |

## Left out

- The HTTP transport, the host headers (`x-host`, `x-host-name`,
  `Content-Type`, `Accept`) and the configured server URL. A request is
  modelled by its path, `Authorization` header and body. Network failures of
  the transport are not modelled.
- Configuration lookups and date parsing. `data.expires_at` arrives as an
  already-parsed integer. A timestamp the date parser rejects raises an
  exception that the model does not represent.
- The internals of the cache store, beyond expiry at read time and
  forgetting on a non-positive time to live.
- Concurrent token refreshes from several processes. The model is
  single-threaded.
- JSON floating-point numbers. `Json` has integers only, so `empty(0.0)`
  and float-to-string coercion are not modelled.
- Integer keys in the caller's validation data. `data` is a string-keyed
  map, so the renumbering of integer keys by PHP's array spread is not
  modelled.
- `LicenseClient.LicenseClientService.GetAccessToken`: `Failed` is a
  deliberate abstraction, not PHP's own behaviour. The error response built
  by `errorResponse` is a `JsonResponse`, which can be turned into a
  string, and the file does not declare strict types. So when `message` is
  a string, PHP's coercive typing returns the response's HTTP text as if it
  were a token. The model keeps that case, and the TypeErrors on the same
  path (for example a null `message`), as the single failure `Failed`.
- `GetResponseBody` has no contract of its own. It is a getter, and its
  behaviour is stated by `Exceptions.ResponseBodyOfNew`.
- The response helpers, the service provider wiring and the unrelated
  reservation-state enum. They are presentation and framework glue with no
  logic of the client's.
