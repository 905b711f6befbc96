/** AssetService: each operation fetches a token, sends it as a bearer header, and calls the
    asset endpoint; getAsset turns the endpoint's 404 into AssetNotFoundException. */
module Assets {
  import opened Wrappers
  import opened Text
  import opened Dto
  import opened Client
  import opened Errors
  import opened Trace
  import opened Auth

  const BearerPrefix := "Bearer "
  const NotFoundPrefix := "Asset not found with id: "

  /** The Authorization header value: the literal prefix, then the token unchanged. */
  function BearerHeader(token: string): (header: string)
    ensures StartsWith(header, BearerPrefix)
    ensures header[|BearerPrefix|..] == token
  {
    var header := BearerPrefix + token;
    assert header[..|BearerPrefix|] == BearerPrefix;
    header
  }

  /** Distinct tokens give distinct headers. */
  lemma BearerHeaderInjective(t1: string, t2: string)
    requires BearerHeader(t1) == BearerHeader(t2)
    ensures t1 == t2
  {
  }

  /** The message of the AssetNotFoundException getAsset raises; it ends with the id. */
  function NotFoundMessage(assetId: string): (m: string)
    ensures StartsWith(m, NotFoundPrefix)
    ensures EndsWith(m, assetId)
    ensures |m| == |NotFoundPrefix| + |assetId|
  {
    var m := NotFoundPrefix + assetId;
    assert m[..|NotFoundPrefix|] == NotFoundPrefix;
    assert m[|m| - |assetId|..] == assetId;
    m
  }

  /** The client's reply handed back as it is; a null reply fails at the log line that reads its id. */
  function Pass(reply: ClientOutcome<AssetResponse>): Result<AssetResponse> {
    match reply
    case Ok(response) => Success(response)
    case Failed(failure) => Failure(ClientError(failure))
    case NullBody => Failure(NullResponse)
  }

  /** createAsset, given the outcome of the token step. Nothing is caught: a token failure is
      rethrown before the asset client is called, and every client failure passes through. */
  function CreateAsset(token: Run<string>, client: CreateClient, request: AssetCreateRequest)
    : (run: Run<AssetResponse>)
    ensures token.result.Failure? ==> run == Run(Failure(token.result.error), token.calls)
    ensures token.result.Success? ==>
      var header := BearerHeader(token.result.value);
      && run.calls == token.calls + [CreateCall(header, request)]
      && (client(header, request).Ok? ==> run.result == Success(client(header, request).value))
      && (client(header, request).Failed? ==> run.result == Failure(ClientError(client(header, request).failure)))
      && (client(header, request).NullBody? ==> run.result == Failure(NullResponse))
  {
    match token.result
    case Failure(e) => Run(Failure(e), token.calls)
    case Success(t) =>
      var header := BearerHeader(t);
      Run(Pass(client(header, request)), token.calls + [CreateCall(header, request)])
  }

  /** The part of getAsset inside its try block: token, header, one client call. */
  function FetchAsset(token: Run<string>, client: GetClient, assetId: string): Run<AssetResponse> {
    match token.result
    case Failure(e) => Run(Failure(e), token.calls)
    case Success(t) =>
      var header := BearerHeader(t);
      Run(Pass(client(header, assetId)), token.calls + [GetCall(header, assetId)])
  }

  /** getAsset, given the outcome of the token step. The catch covers the whole try block, so a
      404 from either call becomes AssetNotFoundException; everything else passes through. */
  function GetAsset(token: Run<string>, client: GetClient, assetId: string): (run: Run<AssetResponse>)
    ensures token.result.Failure? ==> run.calls == token.calls
    ensures token.result.Failure? && token.result.error != ClientError(NotFound) ==>
      run.result == Failure(token.result.error)
    ensures token.result.Success? ==>
      var header := BearerHeader(token.result.value);
      && run.calls == token.calls + [GetCall(header, assetId)]
      && (client(header, assetId).Ok? ==> run.result == Success(client(header, assetId).value))
      && (client(header, assetId) == Failed(OtherFailure) ==> run.result == Failure(ClientError(OtherFailure)))
      && (client(header, assetId).NullBody? ==> run.result == Failure(NullResponse))
    ensures || token.result == Failure(ClientError(NotFound))
            || (token.result.Success? && client(BearerHeader(token.result.value), assetId) == Failed(NotFound))
            ==> run.result == Failure(AssetNotFound(NotFoundMessage(assetId)))
    ensures run.result.Failure? && run.result.error.AssetNotFound? ==>
      || token.result == Failure(ClientError(NotFound))
      || (token.result.Success? && client(BearerHeader(token.result.value), assetId) == Failed(NotFound))
      || (token.result.Failure? && token.result.error == run.result.error)
    ensures run.result != Failure(ClientError(NotFound))
  {
    var attempt := FetchAsset(token, client, assetId);
    if attempt.result == Failure(ClientError(NotFound)) then
      Run(Failure(AssetNotFound(NotFoundMessage(assetId))), attempt.calls)
    else
      attempt
  }

  // ---- The operations with the proxied token provider in front ----

  /** createAsset issues exactly one token request, first, and calls the asset endpoint
      (once) only when a token came back; otherwise it fails with the token step's error. */
  lemma CreateAuthenticatesFirst(c: Credentials, auth: AuthClient, client: CreateClient, request: AssetCreateRequest)
    ensures var run := CreateAsset(GetToken(c, auth), client, request);
      && |run.calls| >= 1 && run.calls[0] == TokenCall(TokenForm(c))
      && TokenCalls(run.calls) == 1
      && (AssetCalls(run.calls) == 1 <==> GetToken(c, auth).result.Success?)
      && (AssetCalls(run.calls) == 0 <==> GetToken(c, auth).result.Failure?)
      && (AssetCalls(run.calls) == 0 ==> GetToken(c, auth).result.Failure? && run.result == Failure(GetToken(c, auth).result.error))
  {
    var token := GetToken(c, auth);
    var run := CreateAsset(token, client, request);
    CountsAdd(token.calls, run.calls[|token.calls|..]);
    assert run.calls == token.calls + run.calls[|token.calls|..];
  }

  /** getAsset likewise: one token request first, one asset call only after a token. */
  lemma GetAuthenticatesFirst(c: Credentials, auth: AuthClient, client: GetClient, assetId: string)
    ensures var run := GetAsset(GetToken(c, auth), client, assetId);
      && |run.calls| >= 1 && run.calls[0] == TokenCall(TokenForm(c))
      && TokenCalls(run.calls) == 1
      && (AssetCalls(run.calls) == 1 <==> GetToken(c, auth).result.Success?)
      && (AssetCalls(run.calls) == 0 <==> GetToken(c, auth).result.Failure?)
      && (AssetCalls(run.calls) == 0 ==> GetToken(c, auth).result.Failure? && run.result == Failure(GetToken(c, auth).result.error))
  {
    var token := GetToken(c, auth);
    var run := GetAsset(token, client, assetId);
    CountsAdd(token.calls, run.calls[|token.calls|..]);
    assert run.calls == token.calls + run.calls[|token.calls|..];
  }

  /** No token is kept between operations: two operations in a row ask for two tokens. */
  lemma NoTokenReuse(c: Credentials, auth: AuthClient, create: CreateClient, get: GetClient,
                     request: AssetCreateRequest, assetId: string)
    ensures TokenCalls(CreateAsset(GetToken(c, auth), create, request).calls
                       + GetAsset(GetToken(c, auth), get, assetId).calls) == 2
  {
    CreateAuthenticatesFirst(c, auth, create, request);
    GetAuthenticatesFirst(c, auth, get, assetId);
    CountsAdd(CreateAsset(GetToken(c, auth), create, request).calls, GetAsset(GetToken(c, auth), get, assetId).calls);
  }

  /** With the proxied token provider, getAsset reports a missing asset exactly when a token was
      obtained and the asset endpoint answered 404; the caller then sees 404 ASSET_NOT_FOUND with
      a message that ends with the id. */
  lemma MissingAssetIsNotFound(c: Credentials, auth: AuthClient, client: GetClient, assetId: string, now: Timestamp)
    ensures var run := GetAsset(GetToken(c, auth), client, assetId);
      && (run.result.Failure? && run.result.error.AssetNotFound? <==>
            GetToken(c, auth).result.Success? &&
            client(BearerHeader(GetToken(c, auth).result.value), assetId) == Failed(NotFound))
      && (run.result.Failure? && run.result.error.AssetNotFound? ==>
            && Handle(run.result.error, now).status == 404
            && Handle(run.result.error, now).body.code == "ASSET_NOT_FOUND"
            && EndsWith(Handle(run.result.error, now).body.message, assetId))
  {
  }

  /** createAsset never produces AssetNotFoundException: a 404 reaches the caller as an
      uncaught client exception, answered 500 INTERNAL_ERROR. */
  lemma CreateDoesNotTranslateNotFound(token: Run<string>, client: CreateClient, request: AssetCreateRequest,
                                       now: Timestamp)
    requires token.result.Success?
    requires client(BearerHeader(token.result.value), request) == Failed(NotFound)
    ensures CreateAsset(token, client, request).result == Failure(ClientError(NotFound))
    ensures Handle(CreateAsset(token, client, request).result.error, now).status == 500
  {
  }
}
