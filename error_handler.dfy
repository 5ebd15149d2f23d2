/** The Express error middleware of middleware/errorHandler.js: a classification of the
    error a handler passed on, by its `name`, into a status code and a JSON body. */
module ErrorHandler {
  import opened Wrappers

  /** One entry of a Sequelize error's `errors` list. */
  datatype ErrorItem = ErrorItem(path: Option<string>, message: Option<string>)

  /** A Joi-style detail. */
  datatype Detail = Detail(message: Option<string>)

  /** The fields of a thrown error the handler reads. `details` is undefined unless set. */
  datatype AppError = AppError(
    name: string,
    message: Option<string>,
    status: Option<int>,
    details: Option<seq<Detail>>,
    errors: seq<ErrorItem>)

  /** `{ field, message }` for one Sequelize validation entry. */
  datatype FieldError = FieldError(field: Option<string>, message: Option<string>)

  /** The `details` of a `Validation Error` body. */
  datatype Details =
    | Messages(messages: seq<Option<string>>)
    | MessageText(text: Option<string>)
    | Fields(items: seq<FieldError>)

  /** The JSON response; `Option` fields that are `None` are left out of the JSON. */
  datatype ErrorResponse =
    | ValidationFailed(details: Details)
    | Duplicate(field: Option<string>)
    | Failure(code: int, message: string)

  function StatusOf(r: ErrorResponse): int {
    match r
    case ValidationFailed(_) => 400
    case Duplicate(_) => 409
    case Failure(code, _) => code
  }

  /** The `error` text of the body. */
  function ErrorText(r: ErrorResponse): string {
    match r
    case ValidationFailed(_) => "Validation Error"
    case Duplicate(_) => "Duplicate entry"
    case Failure(_, message) => message
  }

  /** JavaScript `x || fallback` on a number: `0` and `undefined` are falsy. */
  function StatusOr500(s: Option<int>): (c: int)
    ensures s.Some? && s.value != 0 ==> c == s.value
    ensures s.None? || s.value == 0 ==> c == 500
  {
    if s.Some? && s.value != 0 then s.value else 500
  }

  function DetailMessages(ds: seq<Detail>): (ms: seq<Option<string>>)
    ensures |ms| == |ds| && forall i | 0 <= i < |ds| :: ms[i] == ds[i].message
  {
    if |ds| == 0 then [] else [ds[0].message] + DetailMessages(ds[1..])
  }

  function FieldErrors(es: seq<ErrorItem>): (fs: seq<FieldError>)
    ensures |fs| == |es| && forall i | 0 <= i < |es| :: fs[i] == FieldError(es[i].path, es[i].message)
  {
    if |es| == 0 then [] else [FieldError(es[0].path, es[0].message)] + FieldErrors(es[1..])
  }

  /** `errorHandler`: the checks are tried in order and the first that applies answers. */
  function Classify(err: AppError): ErrorResponse {
    if err.name == "ValidationError" then
      ValidationFailed(if err.details.Some? then Messages(DetailMessages(err.details.value)) else MessageText(err.message))
    else if err.name == "SequelizeUniqueConstraintError" then
      Duplicate(if |err.errors| > 0 then err.errors[0].path else None)
    else if err.name == "SequelizeValidationError" then
      ValidationFailed(Fields(FieldErrors(err.errors)))
    else
      Failure(StatusOr500(err.status), if Truthy(err.message) then err.message.value else "Internal server error")
  }

  /** The status each kind of error gets, and the error text that goes with it. */
  lemma ClassifyStatus(err: AppError)
    ensures err.name == "ValidationError" ==> StatusOf(Classify(err)) == 400 && ErrorText(Classify(err)) == "Validation Error"
    ensures err.name == "SequelizeUniqueConstraintError" ==> StatusOf(Classify(err)) == 409 && ErrorText(Classify(err)) == "Duplicate entry"
    ensures err.name == "SequelizeValidationError" ==> StatusOf(Classify(err)) == 400 && ErrorText(Classify(err)) == "Validation Error"
    ensures err.name !in {"ValidationError", "SequelizeUniqueConstraintError", "SequelizeValidationError"} ==>
      Classify(err).Failure? && StatusOf(Classify(err)) == StatusOr500(err.status)
  {
  }

  /** A `ValidationError` answers 400 with its details' messages, one per detail and in order
      (an empty list stays a list), and falls back to its own message only when it has no details. */
  lemma ValidationErrorDetails(err: AppError)
    requires err.name == "ValidationError"
    ensures StatusOf(Classify(err)) == 400 && Classify(err).ValidationFailed?
    ensures err.details.Some? ==>
      Classify(err).details.Messages? &&
      |Classify(err).details.messages| == |err.details.value| &&
      forall i | 0 <= i < |err.details.value| :: Classify(err).details.messages[i] == err.details.value[i].message
    ensures err.details.None? ==> Classify(err).details.MessageText? && Classify(err).details.text == err.message
  {
  }

  /** A unique-constraint error answers 409 and names the path of its first entry, and no
      field when it has none. */
  lemma DuplicateNamesFirstPath(err: AppError)
    requires err.name == "SequelizeUniqueConstraintError"
    ensures StatusOf(Classify(err)) == 409 && Classify(err).Duplicate?
    ensures |err.errors| > 0 ==> Classify(err).field == err.errors[0].path
    ensures |err.errors| == 0 ==> Classify(err).field.None?
  {
  }

  /** A Sequelize validation error reports one `{ field, message }` per entry, in order. */
  lemma SequelizeValidationFields(err: AppError)
    requires err.name == "SequelizeValidationError"
    ensures Classify(err).ValidationFailed? && Classify(err).details.Fields?
    ensures |Classify(err).details.items| == |err.errors|
    ensures forall i | 0 <= i < |err.errors| ::
      Classify(err).details.items[i] == FieldError(err.errors[i].path, err.errors[i].message)
  {
  }

  /** Any other error answers with its own status and message when they are set (non-zero,
      non-empty), and with 500 and a generic message otherwise. */
  lemma FallbackResponse(err: AppError)
    requires err.name !in {"ValidationError", "SequelizeUniqueConstraintError", "SequelizeValidationError"}
    ensures err.status.Some? && err.status.value != 0 ==> StatusOf(Classify(err)) == err.status.value
    ensures err.status.None? || err.status == Some(0) ==> StatusOf(Classify(err)) == 500
    ensures Truthy(err.message) ==> ErrorText(Classify(err)) == err.message.value
    ensures !Truthy(err.message) ==> ErrorText(Classify(err)) == "Internal server error"
  {
  }
}
