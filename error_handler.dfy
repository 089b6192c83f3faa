/**
 * The Express error middleware: an ordered chain of tests on the error's
 * `name` and `code`, the first match deciding the status and the body.
 */
module ErrorHandler {
  import opened Common

  /** `err.code`: absent, a number (11000) or a text (`ECONNREFUSED`). */
  datatype ErrorCode = NoCode | NumCode(n: int) | TextCode(text: string)

  /**
   * The fields the handler reads. `errorMessages` are the messages of
   * `Object.values(err.errors)` in order; `keyValueKeys` are the keys of
   * `err.keyValue` in order.
   */
  datatype AppError = AppError(name: string, code: ErrorCode, errorMessages: seq<string>,
                               keyValueKeys: seq<string>, statusCode: Option<int>, message: Option<string>,
                               stack: string)

  /** The body's `details`: absent, the validation messages, or the retry hint text. */
  datatype Details = NoDetails | DetailList(messages: seq<string>) | DetailText(text: string)

  /** `stack` is present only in the default reply, and only in development. */
  datatype ErrorReply = ErrorReply(status: int, error: string, details: Details, stack: Option<string>)

  const ValidationFailed := "Error de validación"
  const InvalidToken := "Token inválido"
  const ExpiredToken := "Token expirado"
  const InvalidId := "ID inválido"
  const MlUnavailable := "Servicio de ML temporalmente no disponible"
  const RetryLater := "Intente nuevamente en unos momentos"
  const InternalError := "Error interno del servidor"
  const DuplicateSuffix := " ya existe"

  predicate IsValidation(e: AppError) { e.name == "ValidationError" }
  predicate IsTokenError(e: AppError) { e.name == "JsonWebTokenError" || e.name == "TokenExpiredError" }
  predicate IsCast(e: AppError) { e.name == "CastError" }
  predicate IsDuplicateKey(e: AppError) { e.code == NumCode(11000) }
  predicate IsConnection(e: AppError) { e.code == TextCode("ECONNREFUSED") || e.code == TextCode("ETIMEDOUT") }

  /** `err.statusCode || 500`: a missing or zero status code falls back to 500. */
  function FallbackStatus(e: AppError): (s: int)
    ensures e.statusCode.Some? && e.statusCode.value != 0 ==> s == e.statusCode.value
    ensures e.statusCode.None? || e.statusCode.value == 0 ==> s == 500
  {
    if e.statusCode.Some? && e.statusCode.value != 0 then e.statusCode.value else 500
  }

  /** `${field} ya existe` with the first key of `keyValue` (`undefined` when there is none). */
  function DuplicateKeyText(keys: seq<string>): (t: string)
    ensures |keys| > 0 ==> t == keys[0] + DuplicateSuffix
    ensures |keys| == 0 ==> t == "undefined" + DuplicateSuffix
  {
    (if |keys| > 0 then keys[0] else "undefined") + DuplicateSuffix
  }

  /**
   * `errorHandler(err)`: the first matching test wins. `development` is
   * whether `NODE_ENV` is `development`.
   */
  function Handle(e: AppError, development: bool): (r: ErrorReply)
    ensures IsValidation(e) ==> r == ErrorReply(400, ValidationFailed, DetailList(e.errorMessages), None)
    ensures !IsValidation(e) && e.name == "JsonWebTokenError" ==> r == ErrorReply(401, InvalidToken, NoDetails, None)
    ensures !IsValidation(e) && e.name == "TokenExpiredError" ==> r == ErrorReply(401, ExpiredToken, NoDetails, None)
    ensures !IsValidation(e) && !IsTokenError(e) && IsCast(e) ==> r == ErrorReply(400, InvalidId, NoDetails, None)
    ensures !IsValidation(e) && !IsTokenError(e) && !IsCast(e) && IsDuplicateKey(e) ==>
      r == ErrorReply(400, DuplicateKeyText(e.keyValueKeys), NoDetails, None)
    ensures !IsValidation(e) && !IsTokenError(e) && !IsCast(e) && IsConnection(e) ==>
      r == ErrorReply(503, MlUnavailable, DetailText(RetryLater), None)
    ensures !IsValidation(e) && !IsTokenError(e) && !IsCast(e) && !IsDuplicateKey(e) && !IsConnection(e) ==>
      r.status == FallbackStatus(e) && r.error == (if Truthy(e.message) then e.message.value else InternalError)
      && r.details == NoDetails && r.stack == (if development then Some(e.stack) else None)
  {
    if e.name == "ValidationError" then ErrorReply(400, ValidationFailed, DetailList(e.errorMessages), None)
    else if e.name == "JsonWebTokenError" then ErrorReply(401, InvalidToken, NoDetails, None)
    else if e.name == "TokenExpiredError" then ErrorReply(401, ExpiredToken, NoDetails, None)
    else if e.name == "CastError" then ErrorReply(400, InvalidId, NoDetails, None)
    else if e.code == NumCode(11000) then ErrorReply(400, DuplicateKeyText(e.keyValueKeys), NoDetails, None)
    else if e.code == TextCode("ECONNREFUSED") || e.code == TextCode("ETIMEDOUT") then
      ErrorReply(503, MlUnavailable, DetailText(RetryLater), None)
    else
      ErrorReply(FallbackStatus(e), if Truthy(e.message) then e.message.value else InternalError, NoDetails,
                 if development then Some(e.stack) else None)
  }

  /** Outside development no reply carries the stack, and the environment changes nothing else. */
  lemma StackOnlyInDevelopment(e: AppError)
    ensures Handle(e, false).stack.None?
    ensures Handle(e, true).(stack := None) == Handle(e, false)
  {
  }

  /** The name tests come before the code tests: a token error with a connection code is still a 401. */
  lemma NameBeatsCode(e: AppError, development: bool)
    requires IsTokenError(e) || IsCast(e) || IsValidation(e)
    ensures Handle(e, development).status == 400 || Handle(e, development).status == 401
    ensures Handle(e, development).status == 401 <==> !IsValidation(e) && IsTokenError(e)
  {
  }

  /** The status is one of the fixed ones unless the chain falls through to `statusCode`. */
  lemma StatusClassification(e: AppError, development: bool)
    ensures Handle(e, development).status == 503 <==>
      ((!IsValidation(e) && !IsTokenError(e) && !IsCast(e) && !IsDuplicateKey(e))
       && (IsConnection(e) || FallbackStatus(e) == 503))
    ensures e.statusCode.None? ==> Handle(e, development).status in {400, 401, 500, 503}
  {
  }
}
