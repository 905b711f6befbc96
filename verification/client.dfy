/** The two remote clients, seen only through what a call can come back with. */
module Client {
  import opened Dto

  /** One entry of the form-encoded token request body. */
  datatype FormField = FormField(key: string, value: string)

  /** How a remote call can fail: a 404 (FeignException.NotFound) or any other exception. */
  datatype ClientFailure = NotFound | OtherFailure

  /** What a remote call comes back with; `NullBody` is a call that returned null. */
  datatype ClientOutcome<+T> = Ok(value: T) | Failed(failure: ClientFailure) | NullBody

  /** A remote call the service issues, with the arguments it passes. */
  datatype Call =
    | TokenCall(form: seq<FormField>)
    | CreateCall(header: string, request: AssetCreateRequest)
    | GetCall(header: string, assetId: string)

  /** The token endpoint, as a function of the submitted form. */
  type AuthClient = seq<FormField> -> ClientOutcome<TokenResponse>

  /** POST /asset, as a function of the Authorization header and the body. */
  type CreateClient = (string, AssetCreateRequest) -> ClientOutcome<AssetResponse>

  /** GET /asset/{assetId}, as a function of the Authorization header and the id. */
  type GetClient = (string, string) -> ClientOutcome<AssetResponse>
}
