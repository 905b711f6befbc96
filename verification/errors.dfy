/** The service's exceptions, the ErrorResponse body, and the table GlobalExceptionHandler
    applies to turn an exception into an HTTP status and body. */
module Errors {
  import opened Wrappers
  import opened Text
  import opened Client
  import opened Dto
  import opened Validation

  /** Every exception that reaches the handler. */
  datatype Error =
    | AuthFailure(message: string, cause: Option<Error>)  // AuthException
    | AccessTokenNotFound(message: string)                 // AccessTokenNotFoundException
    | AssetNotFound(message: string)                       // AssetNotFoundException
    | ValidationFailed(fieldErrors: seq<Violation>)        // MethodArgumentNotValidException
    | RateLimitRejected(message: string)                   // RequestNotPermitted
    | ClientError(failure: ClientFailure)                  // a FeignException nobody caught
    | NullResponse                                         // NullPointerException on a null client reply

  /** A value, or the exception thrown instead. */
  datatype Result<+T> = Success(value: T) | Failure(error: Error)

  /** A clock reading; the clock itself is a parameter of the model. */
  type Timestamp = nat

  datatype ErrorResponse = ErrorResponse(
    code: string,
    message: string,
    details: Option<seq<string>>,
    createdAt: Timestamp)

  datatype HttpError = HttpError(status: int, body: ErrorResponse)

  /** The two-argument constructor: no details, stamped with the current time. */
  function NewErrorResponse(code: string, message: string, now: Timestamp): (r: ErrorResponse)
    ensures r.code == code && r.message == message
    ensures r.details.None?
    ensures r.createdAt == now
  {
    ErrorResponse(code, message, None, now)
  }

  /** The three-argument constructor: the details list is kept as given. */
  function NewErrorResponseWithDetails(code: string, message: string, details: seq<string>, now: Timestamp)
    : (r: ErrorResponse)
    ensures r.code == code && r.message == message
    ensures r.details == Some(details)
    ensures r.createdAt == now
  {
    ErrorResponse(code, message, Some(details), now)
  }

  /** One detail line of a validation error: `<field>: <message>`. */
  function Detail(v: Violation): (d: string)
    ensures StartsWith(d, FieldPath(v.field) + ": ")
    ensures EndsWith(d, Message(v.rule))
    ensures |d| == |FieldPath(v.field)| + 2 + |Message(v.rule)|
  {
    var d := FieldPath(v.field) + ": " + Message(v.rule);
    assert d[..|FieldPath(v.field) + ": "|] == FieldPath(v.field) + ": ";
    assert d[|d| - |Message(v.rule)|..] == Message(v.rule);
    d
  }

  /** The field errors rendered in order, one detail line each. */
  function Details(errors: seq<Violation>): (ds: seq<string>)
    ensures |ds| == |errors|
    ensures forall i :: 0 <= i < |errors| ==> ds[i] == Detail(errors[i])
  {
    if errors == [] then [] else [Detail(errors[0])] + Details(errors[1..])
  }

  const InternalErrorMessage := "An unexpected error occurred."
  const RateLimitMessage := "You have exceeded the API rate limit. Please try again later."
  const ValidationMessage := "Validation failed"

  /** Which handler method an exception reaches. */
  datatype Handler = AuthHandler | TokenHandler | ValidationHandler | NotFoundHandler | RateLimitHandler | GlobalHandler

  function HandlerOf(e: Error): Handler {
    match e
    case AuthFailure(_, _) => AuthHandler
    case AccessTokenNotFound(_) => TokenHandler
    case ValidationFailed(_) => ValidationHandler
    case AssetNotFound(_) => NotFoundHandler
    case RateLimitRejected(_) => RateLimitHandler
    case ClientError(_) => GlobalHandler
    case NullResponse => GlobalHandler
  }

  /** GlobalExceptionHandler: the status and body each exception is answered with. */
  function Handle(e: Error, now: Timestamp): (r: HttpError)
    ensures r.body.createdAt == now
    ensures r.body.details.Some? <==> e.ValidationFailed?
    ensures e.AuthFailure? ==> r.status == 401 && r.body.code == "AUTH_ERROR" && r.body.message == e.message
    ensures e.AccessTokenNotFound? ==>
      r.status == 401 && r.body.code == "AUTH_TOKEN_NOT_FOUND" && r.body.message == e.message
    ensures e.ValidationFailed? ==>
      && r.status == 400 && r.body.code == "VALIDATION_ERROR" && r.body.message == ValidationMessage
      && r.body.details == Some(Details(e.fieldErrors))
    ensures e.AssetNotFound? ==> r.status == 404 && r.body.code == "ASSET_NOT_FOUND" && r.body.message == e.message
    ensures e.RateLimitRejected? ==>
      r.status == 429 && r.body.code == "RATE_LIMIT_EXCEEDED" && r.body.message == RateLimitMessage
    ensures HandlerOf(e) == GlobalHandler ==>
      r.status == 500 && r.body.code == "INTERNAL_ERROR" && r.body.message == InternalErrorMessage
  {
    match e
    case AuthFailure(message, _) => HttpError(401, NewErrorResponse("AUTH_ERROR", message, now))
    case AccessTokenNotFound(message) => HttpError(401, NewErrorResponse("AUTH_TOKEN_NOT_FOUND", message, now))
    case ValidationFailed(fieldErrors) =>
      HttpError(400, NewErrorResponseWithDetails("VALIDATION_ERROR", ValidationMessage, Details(fieldErrors), now))
    case AssetNotFound(message) => HttpError(404, NewErrorResponse("ASSET_NOT_FOUND", message, now))
    case RateLimitRejected(_) => HttpError(429, NewErrorResponse("RATE_LIMIT_EXCEEDED", RateLimitMessage, now))
    case ClientError(_) => HttpError(500, NewErrorResponse("INTERNAL_ERROR", InternalErrorMessage, now))
    case NullResponse => HttpError(500, NewErrorResponse("INTERNAL_ERROR", InternalErrorMessage, now))
  }

  /** The code names the handler: two exceptions get the same code exactly when the
      same handler method answers them, and the code fixes the status. */
  lemma CodeIdentifiesHandler(e1: Error, e2: Error, t1: Timestamp, t2: Timestamp)
    ensures Handle(e1, t1).body.code == Handle(e2, t2).body.code <==> HandlerOf(e1) == HandlerOf(e2)
    ensures Handle(e1, t1).body.code == Handle(e2, t2).body.code ==> Handle(e1, t1).status == Handle(e2, t2).status
  {
  }

  /** Only the messages of AuthException, AccessTokenNotFoundException and AssetNotFoundException
      reach the caller: every other handler answers with a body independent of the exception. */
  lemma FixedBodiesDoNotLeak(e1: Error, e2: Error, now: Timestamp)
    requires HandlerOf(e1) == HandlerOf(e2)
    requires HandlerOf(e1) in {RateLimitHandler, GlobalHandler}
    ensures Handle(e1, now) == Handle(e2, now)
  {
  }

  /** Every field error shows up in the details as a line that starts with its property path. */
  lemma {:induction false} DetailsNameEveryField(errors: seq<Violation>, v: Violation)
    requires v in errors
    ensures exists d :: d in Details(errors) && StartsWith(d, FieldPath(v.field))
  {
    var i :| 0 <= i < |errors| && errors[i] == v;
    var d := Details(errors)[i];
    var p := FieldPath(v.field);
    assert StartsWith(d, p + ": ");
    assert d[..|p|] == (p + ": ")[..|p|];
    assert d in Details(errors);
  }

  /** However the binding layer orders the violations of a rejected request, the answer is
      400 VALIDATION_ERROR and each violated property is named at the head of a detail line. */
  lemma RejectionNamesEveryField(r: AssetCreateRequest, errors: seq<Violation>, v: Violation, now: Timestamp)
    requires forall w :: w in errors <==> w in Violations(r)
    requires v in Violations(r)
    ensures Handle(ValidationFailed(errors), now).status == 400
    ensures Handle(ValidationFailed(errors), now).body.code == "VALIDATION_ERROR"
    ensures exists d :: d in Handle(ValidationFailed(errors), now).body.details.value && StartsWith(d, FieldPath(v.field))
  {
    DetailsNameEveryField(errors, v);
  }

  /** A blank name, type or realm is reported under `name`, `type` or `realm`. */
  lemma BlankRequiredFieldReported(r: AssetCreateRequest, errors: seq<Violation>, field: Field, now: Timestamp)
    requires forall w :: w in errors <==> w in Violations(r)
    requires field == NameField || field == TypeField || field == RealmField
    requires !NotBlank(match field case NameField => r.name case TypeField => r.assetType case _ => r.realm)
    ensures exists d :: d in Handle(ValidationFailed(errors), now).body.details.value && StartsWith(d, FieldPath(field))
    ensures FieldPath(field) in {"name", "type", "realm"}
  {
    var rule := match field case NameField => NameBlank case TypeField => TypeBlank case _ => RealmBlank;
    assert Violation(field, rule) in Violations(r);
    RejectionNamesEveryField(r, errors, Violation(field, rule), now);
  }

  /** A blank attribute name is reported under `attributes[<key>].name`, for the key the
      attribute is stored under, whatever the attribute's own name. */
  lemma BlankAttributeNameReported(r: AssetCreateRequest, errors: seq<Violation>, key: string, now: Timestamp)
    requires forall w :: w in errors <==> w in Violations(r)
    requires r.attributes.Some? && key in r.attributes.value && r.attributes.value[key].Some?
    requires !NotBlank(r.attributes.value[key].value.name)
    ensures exists d :: (d in Handle(ValidationFailed(errors), now).body.details.value &&
                         StartsWith(d, "attributes[" + key + "].name"))
  {
    var a := r.attributes.value[key].value;
    var v := Violation(AttributeNameField(key), AttributeNameBlank);
    assert v in AttributeViolations(key, a);
    assert v in Violations(r);
    RejectionNamesEveryField(r, errors, v, now);
    var ds := Handle(ValidationFailed(errors), now).body.details.value;
    var d :| d in ds && StartsWith(d, FieldPath(v.field));
    assert FieldPath(v.field) == "attributes[" + key + "].name";
  }
}
