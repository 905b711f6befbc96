# openremote-client-service, modelled in Dafny

The service is a thin REST facade over the OpenRemote IoT platform. A caller's asset request
is validated against the field constraints of `AssetCreateRequest` and `AttributeObject`;
`AuthService` fetches an OAuth2 client-credentials token; `AssetService` sends the token as a
`Bearer` header to the platform's asset endpoint; and `GlobalExceptionHandler` turns every
exception into an HTTP status with an `ErrorResponse` body.

The model has three parts, all pure functions over immutable datatypes:

- **Request validator** (`validation.dfy`, `text.dfy`). `Valid` states the constraints
  declaratively. `Violations` computes the set of `(field, annotation)` pairs the validator
  reports, and its contract ties the two together. The constraints mean what chapter 7 ("Built-in
  Constraint definitions") of Jakarta Bean Validation 3.0 says: `@NotBlank` rejects null and
  blank strings, while `@Size`, `@Pattern` and `@Min` accept null. "Blank" follows the reference
  implementation, Hibernate Validator, which tests `trim().length() > 0`. `String.trim()` removes
  every character at or below U+0020, and `Text.TrimEmptyIffBlank` proves that this matches the
  declarative `IsBlank`. `\w` is Java's default `[A-Za-z0-9_]`. The cascaded `@Valid` skips null
  map values, so an attribute map entry is `Option<Attribute>`.
- **Authenticated pipeline** (`client.dfy`, `trace.dfy`, `auth.dfy`, `assets.dfy`). The
  Feign clients are function parameters returning `Ok(v) | Failed(NotFound | OtherFailure) | NullBody`.
  Every operation returns a `Run`: its result together with the remote calls it made, in order.
  The trace is what lets the model state that authentication comes first, that it happens
  exactly once, and that no token is reused. `GetTokenBody` is the unproxied method body.
  `GetToken` is what callers reach through the Resilience4j proxy: the body, with any failure
  handed to `getTokenFallback`. Because that fallback accepts every `Throwable`, a reply without
  a token leaves the proxy as `AuthException` (`AUTH_ERROR`), not as
  `AccessTokenNotFoundException` (`AUTH_TOKEN_NOT_FOUND`). This holds unless the Resilience4j
  configuration, which is not part of this model, excludes that exception; `Auth.MissingTokenCodes`
  states both outcomes. `CreateAsset` and `GetAsset` take the token step's `Run` as input, so
  they cover either provider.
- **Error translation** (`errors.dfy`). `Handle` is the table of the six handlers, built from
  the two `ErrorResponse` constructors. The clock is a parameter.

Two behaviours of the code are easy to miss. The model follows the code in both cases:

- `getAsset`'s `try` block also covers `getToken()`. A 404 raised while fetching the token would
  therefore be reported as a missing asset too. `GetAsset` models this. With the proxied
  provider it cannot happen, because every token failure is an `AuthException`.
- Both service methods log `response.getId()` before returning. A null reply from the asset
  client therefore raises `NullPointerException`, which the catch-all handler answers with
  500 `INTERNAL_ERROR`. This is `NullResponse` in the model.

## Model

| member | source | states |
|---|---|---|
| Validation.Valid | src/main/java/com/tworun/openremoteclientservice/dto/AssetCreateRequest.java:22-53 | the request's constraints as declared: version absent or >= 0; name non-blank and at most 1023 chars; parentId absent or 22 chars of `[0-9A-Za-z]`; realm non-blank and at most 255 chars; type non-blank; attributes non-null with at least one entry, and every non-null value a valid attribute |
| Validation.ValidAttribute | src/main/java/com/tworun/openremoteclientservice/dto/AttributeObject.java:21-24 | an attribute's constraints as declared: the name is non-blank and, when present, matches `^\w+$` |
| Validation.Message | src/main/java/com/tworun/openremoteclientservice/dto/AssetCreateRequest.java:23-52 | the `message` of each annotation, verbatim, including those on AttributeObject.java:22-23 |
| Validation.FieldPath | src/main/java/com/tworun/openremoteclientservice/exception/GlobalExceptionHandler.java:59 | the property path `err.getField()` yields: the field's own name, or `attributes[<key>].name` for an attribute's name |
| Validation.Declared | src/main/java/com/tworun/openremoteclientservice/dto/AssetCreateRequest.java:22-53 | which property each annotation sits on: a violation of a rule is only ever reported against that property |
| Errors.HandlerOf | src/main/java/com/tworun/openremoteclientservice/exception/GlobalExceptionHandler.java:36-96 | which `@ExceptionHandler` method each exception reaches; the client failures and the null-reply NPE reach only the catch-all |
| Validation.NotBlankIsTrimCheck | src/main/java/com/tworun/openremoteclientservice/dto/AssetCreateRequest.java:27 | @NotBlank, checked as "non-null and non-empty after trim()", is the same as "present and not made only of characters at or below U+0020" |
| Validation.WordIsNotBlank | src/main/java/com/tworun/openremoteclientservice/dto/AttributeObject.java:22-23 | a name matching `^\w+$` is never blank, so on a present name @Pattern implies @NotBlank |
| Validation.AttributeViolations | src/main/java/com/tworun/openremoteclientservice/dto/AttributeObject.java:21-24 | an attribute has no violation exactly when its name is present, non-empty and made only of letters, digits and `_`; the @NotBlank violation is reported exactly when the name is null or blank, and the @Pattern violation exactly when a present name is not a word; every violation is filed under `attributes[<key>].name` |
| Validation.NonWordCharacterRejected | src/main/java/com/tworun/openremoteclientservice/dto/AttributeObject.java:23 | a name containing any character outside `[A-Za-z0-9_]`, such as a space or a hyphen, is invalid and draws the pattern violation, under whatever key it is stored |
| Validation.AttributeNameDecides | src/main/java/com/tworun/openremoteclientservice/dto/AttributeObject.java:26-36 | value, meta, type and timestamp impose nothing: two attributes with the same name have the same violations |
| Validation.EntryViolations | src/main/java/com/tworun/openremoteclientservice/dto/AssetCreateRequest.java:53 | the cascade finds nothing exactly when every non-null map value is a valid attribute; each value's violations are included under its own key, and every reported violation is one of the violations of the non-null value stored under its key |
| Validation.AttributesViolations | src/main/java/com/tworun/openremoteclientservice/dto/AssetCreateRequest.java:50-53 | the attribute map is accepted exactly when it is non-null, has at least one entry and every entry is valid; null draws the @NotNull violation, an empty map the @Size violation |
| Validation.ScalarViolations | src/main/java/com/tworun/openremoteclientservice/dto/AssetCreateRequest.java:22-45 | the scalar fields are accepted exactly when version is absent or >= 0, name is non-blank and at most 1023 chars, parentId is absent or 22 chars of `[0-9A-Za-z]`, realm is non-blank and at most 255 chars, and type is non-blank with no length bound; each broken annotation draws its own violation |
| Validation.Violations | src/main/java/com/tworun/openremoteclientservice/dto/AssetCreateRequest.java:20-54 | the validator reports nothing exactly for a valid request; each of the request's own annotations (@NotBlank on name, realm and type, @Size on name and realm, @Min on version, @Pattern on parentId, @NotNull and @Size(min = 1) on attributes) is reported exactly when it is broken; every violation of a non-null attribute is included; each attribute violation is a violation of the non-null attribute stored under its key, and nothing else; each violation is reported against the property that carries its annotation |
| Validation.UnconstrainedFieldsIgnored | src/main/java/com/tworun/openremoteclientservice/dto/AssetCreateRequest.java:31-48 | changing `accessPublicRead` or `path` changes neither the violations nor validity |
| Validation.KeyIsNotCheckedAgainstName | src/main/java/com/tworun/openremoteclientservice/dto/AssetCreateRequest.java:53 | a valid attribute can be stored under any key of a valid request, whatever its own name: the key is never compared with the name |
| Validation.InvalidAttributeReportedUnderKey | src/test/java/com/tworun/openremoteclientservice/controller/AssetControllerTest.java:129-148 | an invalid attribute is reported at the field of the key it is stored under |
| Validation.SmartBulbRequestIsValid | src/test/java/com/tworun/openremoteclientservice/controller/AssetControllerTest.java:58-79 | the smart-bulb request of the controller tests is valid |
| Validation.BlankNameRejected | src/test/java/com/tworun/openremoteclientservice/controller/AssetControllerTest.java:95-100 | the same request with an empty name is rejected under `name` |
| Errors.NewErrorResponse | src/main/java/com/tworun/openremoteclientservice/exception/ErrorResponse.java:32-36 | the two-argument constructor stores code and message verbatim, leaves details absent and always stamps the time |
| Errors.NewErrorResponseWithDetails | src/main/java/com/tworun/openremoteclientservice/exception/ErrorResponse.java:38-43 | the three-argument constructor stores code, message and the details list as given (same elements, same order) and always stamps the time |
| Errors.Detail | src/main/java/com/tworun/openremoteclientservice/exception/GlobalExceptionHandler.java:59 | a detail line is exactly `<field>: ` followed by the annotation's message: it starts with the one, ends with the other, and is no longer than both together |
| Errors.Details | src/main/java/com/tworun/openremoteclientservice/exception/GlobalExceptionHandler.java:58-60 | one detail line per field error, in the binding layer's order |
| Errors.Handle | src/main/java/com/tworun/openremoteclientservice/exception/GlobalExceptionHandler.java:36-101 | AuthException gives 401 `AUTH_ERROR` with its message; AccessTokenNotFound gives 401 `AUTH_TOKEN_NOT_FOUND` with its message; validation gives 400 `VALIDATION_ERROR` "Validation failed" with the details; AssetNotFound gives 404 `ASSET_NOT_FOUND` with its message; a rate-limit rejection gives 429 `RATE_LIMIT_EXCEEDED` with a fixed message; anything else gives 500 `INTERNAL_ERROR` "An unexpected error occurred."; only validation carries details; the body is stamped with the current time |
| Errors.CodeIdentifiesHandler | src/main/java/com/tworun/openremoteclientservice/exception/GlobalExceptionHandler.java:36-101 | two exceptions get the same code exactly when the same handler answers them, and the same code always comes with the same status, so `AUTH_ERROR` and `AUTH_TOKEN_NOT_FOUND` stay distinct |
| Errors.FixedBodiesDoNotLeak | src/main/java/com/tworun/openremoteclientservice/exception/GlobalExceptionHandler.java:82-101 | the rate-limit and catch-all handlers answer with a body that does not depend on the exception, so its message is not leaked |
| Errors.DetailsNameEveryField | src/main/java/com/tworun/openremoteclientservice/exception/GlobalExceptionHandler.java:56-70 | every field error appears in the details as a line that starts with its property path |
| Errors.RejectionNamesEveryField | src/main/java/com/tworun/openremoteclientservice/exception/GlobalExceptionHandler.java:56-70 | whatever order the violations of a request are listed in, the answer is 400 `VALIDATION_ERROR` and each violated property heads some detail line |
| Errors.BlankRequiredFieldReported | src/test/java/com/tworun/openremoteclientservice/controller/AssetControllerTest.java:95-166 | a blank name, type or realm yields a detail line that starts with `name`, `type` or `realm` |
| Errors.BlankAttributeNameReported | src/test/java/com/tworun/openremoteclientservice/controller/AssetControllerTest.java:129-148 | a blank attribute name under key k yields a detail line that starts with `attributes[k].name` |
| Auth.TokenForm | src/main/java/com/tworun/openremoteclientservice/service/AuthService.java:50-53 | the token form is `grant_type=client_credentials`, `client_id`, `client_secret` in that order, carrying the configured id and secret |
| Auth.GetTokenBody | src/main/java/com/tworun/openremoteclientservice/service/AuthService.java:48-63 | exactly one call to the token endpoint, with the token form; a token is returned, unchanged, exactly when the reply is non-null and carries one; a null reply or a null token fails with AccessTokenNotFound; a client exception passes through |
| Auth.Fallback | src/main/java/com/tworun/openremoteclientservice/service/AuthService.java:69-73 | the fallback never returns a token: it raises AuthException "Auth service temporarily unavailable." wrapping the original exception |
| Auth.GetToken | src/main/java/com/tworun/openremoteclientservice/service/AuthService.java:46-48 | through the proxy, the same calls as the body; the body's token when it succeeds, the fallback of its exception otherwise |
| Auth.ProxiedFailuresAreAuthFailures | src/main/java/com/tworun/openremoteclientservice/service/AuthService.java:69-73 | every failure of the proxied getToken is an AuthException with the fallback's message, never AccessTokenNotFound |
| Auth.MissingTokenCodes | src/main/java/com/tworun/openremoteclientservice/service/AuthService.java:57-59 | a reply without a token is answered `AUTH_TOKEN_NOT_FOUND` when the body is called directly and `AUTH_ERROR` through the proxy |
| Assets.BearerHeader | src/main/java/com/tworun/openremoteclientservice/service/AssetService.java:23 | the header is the literal `Bearer ` followed by the token unchanged |
| Assets.BearerHeaderInjective | src/main/java/com/tworun/openremoteclientservice/service/AssetService.java:33 | distinct tokens give distinct headers |
| Assets.NotFoundMessage | src/main/java/com/tworun/openremoteclientservice/service/AssetService.java:39 | the not-found message is exactly "Asset not found with id: " followed by the id: it starts with the prefix, ends with the id and is no longer than both |
| Assets.CreateAsset | src/main/java/com/tworun/openremoteclientservice/service/AssetService.java:20-27 | a token failure is rethrown unchanged and no asset call is made; otherwise exactly one create call, with header `Bearer <token>` and the request unchanged; the reply is returned unchanged; every client failure, 404 included, passes through untranslated |
| Assets.GetAsset | src/main/java/com/tworun/openremoteclientservice/service/AssetService.java:29-41 | no asset call without a token; otherwise exactly one get call with `(Bearer <token>, id)` and the reply returned unchanged; a 404 becomes AssetNotFound with a message ending in the id; other failures pass through, and a raw 404 never escapes |
| Assets.CreateAuthenticatesFirst | src/main/java/com/tworun/openremoteclientservice/service/AssetService.java:22-24 | with the proxied provider, createAsset's first call is the token request; it makes exactly one token request (one attempt, see Left out), and one asset call exactly when a token came back; otherwise it fails with the token step's error |
| Assets.GetAuthenticatesFirst | src/main/java/com/tworun/openremoteclientservice/service/AssetService.java:32-34 | with the proxied provider, getAsset's first call is the token request; it makes exactly one token request (one attempt, see Left out), one asset call exactly when a token came back, and no asset call exactly when the token step failed, in which case it fails with the token step's error |
| Assets.NoTokenReuse | src/main/java/com/tworun/openremoteclientservice/service/AuthService.java:55 | no token is cached: two operations in a row make two token requests (one attempt each, see Left out) |
| Assets.MissingAssetIsNotFound | src/main/java/com/tworun/openremoteclientservice/service/AssetService.java:37-40 | with the proxied provider, getAsset fails with AssetNotFound exactly when a token was obtained and the asset endpoint answered 404; the caller then gets 404 `ASSET_NOT_FOUND` with a message ending in the id |
| Assets.CreateDoesNotTranslateNotFound | src/main/java/com/tworun/openremoteclientservice/service/AssetService.java:20-27 | a 404 from the create endpoint reaches the caller as an uncaught client exception, answered 500 |

## Left out

- HTTP and Feign plumbing: `AssetClient`, `AuthClient`, the trust-all SSL client, application bootstrap, Swagger metadata, routing and success statuses. The clients appear only as functions from their arguments to a `ClientOutcome`.
- Auth.GetToken: Resilience4j retry and circuit breaker are not modelled. Their configuration is not part of this model. `GetToken` makes one attempt and then applies the fallback. A retrying proxy would make several token calls per operation, and an open breaker would make none. A configuration that excludes AccessTokenNotFoundException from the fallback would let that exception through.
- The controller's `@RateLimiter`s (AssetController.java:46, 64, 83 and 104) are not modelled. Only the 429 answer to `RequestNotPermitted` is.
- `updateAsset` and `deleteAssets`: the controller calls them, but `AssetService` defines neither. `AssetClient` declares `updateAsset` (AssetClient.java:28-33), but no service calls it. `deleteAssets` exists nowhere. So neither has service behaviour to model.
- Test expectations that the code does not implement are not encoded: the "Failed to create asset" and "Failed to retrieve asset" wrappers, and the "Could not obtain access token" message of an AuthException.
- Logging, and the clock behind `LocalDateTime.now()`: the time is a parameter (`Timestamp`).
- `TokenResponse` expiry, type and scope fields are never read, so `TokenResponse` keeps only `accessToken`.
- `AttributeObject`'s value, meta and type are free-form `Object`s, modelled as a JSON value that no constraint inspects.
- Validation.Violations: string lengths are counted in Dafny characters. Java counts UTF-16 code units, so a name with characters outside the Basic Multilingual Plane can exceed 1023 units while having at most 1023 characters. `version` is an unbounded integer, not a 64-bit `Long`. This does not affect the `>= 0` check.
- The order of violations is not modelled. Bean Validation returns a set, and the binding layer lists it in an order of its own. `Errors.RejectionNamesEveryField` therefore holds for every ordering.
- `ClientFailure` does not carry the HTTP status or message of a non-404 Feign exception. The catch-all handler discards both.
