/** AuthService: fetching an OAuth2 client-credentials token, and the fallback the
    resilience proxy routes failures to. */
module Auth {
  import opened Wrappers
  import opened Dto
  import opened Client
  import opened Errors
  import opened Trace

  const GrantTypeKey := "grant_type"
  const ClientCredentialsGrant := "client_credentials"
  const ClientIdKey := "client_id"
  const ClientSecretKey := "client_secret"

  const TokenNullMessage := "Could not obtain access token from Auth server: token is null"
  const FallbackMessage := "Auth service temporarily unavailable."

  /** The configured client id and secret. */
  datatype Credentials = Credentials(clientId: string, clientSecret: string)

  /** The first value submitted under `key` (MultiValueMap.getFirst). */
  function FormValue(form: seq<FormField>, key: string): Option<string> {
    if form == [] then None
    else if form[0].key == key then Some(form[0].value)
    else FormValue(form[1..], key)
  }

  /** The keys of a form, in submission order. */
  function FormKeys(form: seq<FormField>): (keys: seq<string>)
    ensures |keys| == |form|
    ensures forall i :: 0 <= i < |form| ==> keys[i] == form[i].key
  {
    if form == [] then [] else [form[0].key] + FormKeys(form[1..])
  }

  /** The token request body: the grant type, then the client id, then the secret. */
  function TokenForm(c: Credentials): (form: seq<FormField>)
    ensures FormKeys(form) == [GrantTypeKey, ClientIdKey, ClientSecretKey]
    ensures FormValue(form, GrantTypeKey) == Some(ClientCredentialsGrant)
    ensures FormValue(form, ClientIdKey) == Some(c.clientId)
    ensures FormValue(form, ClientSecretKey) == Some(c.clientSecret)
  {
    var form := [FormField(GrantTypeKey, ClientCredentialsGrant), FormField(ClientIdKey, c.clientId),
                 FormField(ClientSecretKey, c.clientSecret)];
    assert FormValue(form[2..], ClientSecretKey) == Some(c.clientSecret);
    assert FormValue(form[1..], ClientSecretKey) == FormValue(form[2..], ClientSecretKey);
    form
  }

  /** The body of getToken, without the resilience proxy: one call to the token endpoint. A client
      exception passes through; a null reply or a reply without a token is AccessTokenNotFound. */
  function GetTokenBody(c: Credentials, auth: AuthClient): (run: Run<string>)
    ensures run.calls == [TokenCall(TokenForm(c))]
    ensures run.result.Success? <==> auth(TokenForm(c)).Ok? && auth(TokenForm(c)).value.accessToken.Some?
    ensures run.result.Success? ==> run.result.value == auth(TokenForm(c)).value.accessToken.value
    ensures run.result == Failure(AccessTokenNotFound(TokenNullMessage)) <==>
      auth(TokenForm(c)).NullBody? || (auth(TokenForm(c)).Ok? && auth(TokenForm(c)).value.accessToken.None?)
    ensures auth(TokenForm(c)).Failed? ==> run.result == Failure(ClientError(auth(TokenForm(c)).failure))
  {
    var form := TokenForm(c);
    var call := [TokenCall(form)];
    match auth(form)
    case Failed(failure) => Run(Failure(ClientError(failure)), call)
    case NullBody => Run(Failure(AccessTokenNotFound(TokenNullMessage)), call)
    case Ok(response) =>
      if response.accessToken.None? then Run(Failure(AccessTokenNotFound(TokenNullMessage)), call)
      else Run(Success(response.accessToken.value), call)
  }

  /** getTokenFallback: whatever was thrown, raise AuthException wrapping it. */
  function Fallback(thrown: Error): (r: Result<string>)
    ensures r.Failure?
    ensures r.error == AuthFailure(FallbackMessage, Some(thrown))
  {
    Failure(AuthFailure(FallbackMessage, Some(thrown)))
  }

  /** getToken as callers see it through the proxy: the body, with every exception handed to
      the fallback (one attempt; retries are not modelled). */
  function GetToken(c: Credentials, auth: AuthClient): (run: Run<string>)
    ensures run.calls == GetTokenBody(c, auth).calls
    ensures run.result.Success? <==> GetTokenBody(c, auth).result.Success?
    ensures run.result.Success? ==> run.result == GetTokenBody(c, auth).result
    ensures run.result.Failure? ==> run.result == Fallback(GetTokenBody(c, auth).result.error)
  {
    var body := GetTokenBody(c, auth);
    match body.result
    case Success(_) => body
    case Failure(thrown) => Run(Fallback(thrown), body.calls)
  }

  /** Through the proxy every failure reads as AuthException with the fallback's message, so
      AccessTokenNotFoundException never leaves getToken unless the proxy is configured to let it pass. */
  lemma ProxiedFailuresAreAuthFailures(c: Credentials, auth: AuthClient)
    ensures GetToken(c, auth).result.Failure? ==>
      GetToken(c, auth).result.error.AuthFailure? && GetToken(c, auth).result.error.message == FallbackMessage
    ensures !(GetToken(c, auth).result.Failure? && GetToken(c, auth).result.error.AccessTokenNotFound?)
  {
  }

  /** A reply without a token: the bare body answers AUTH_TOKEN_NOT_FOUND, the proxied call AUTH_ERROR. */
  lemma MissingTokenCodes(c: Credentials, auth: AuthClient, now: Timestamp)
    requires auth(TokenForm(c)).NullBody? || (auth(TokenForm(c)).Ok? && auth(TokenForm(c)).value.accessToken.None?)
    ensures GetTokenBody(c, auth).result.Failure?
    ensures Handle(GetTokenBody(c, auth).result.error, now).body.code == "AUTH_TOKEN_NOT_FOUND"
    ensures GetToken(c, auth).result.Failure?
    ensures Handle(GetToken(c, auth).result.error, now).body.code == "AUTH_ERROR"
  {
  }
}
