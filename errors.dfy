/**
 * The closed error taxonomy the services map every failure into, and the
 * `UnauthorizedError` value with its fixed code and message.
 */
module Errors {

  newtype u16 = x: int | 0 <= x < 0x1_0000

  /** HTTP status 401 Unauthorized (section 15.5.2 of RFC 9110). */
  const UNAUTHORIZED_STATUS: u16 := 401

  datatype UnauthorizedError = UnauthorizedError(code: u16, message: string)

  /** `UnauthorizedError::new`: the status code of Unauthorized and the text "Unauthorized.". */
  function NewUnauthorizedError(): (e: UnauthorizedError)
    ensures e.code == UNAUTHORIZED_STATUS
    ensures e.message == "Unauthorized."
  {
    UnauthorizedError(UNAUTHORIZED_STATUS, "Unauthorized.")
  }

  /** `code()`: the stored code. */
  function Code(e: UnauthorizedError): u16
  {
    e.code
  }

  /** `message()`: the stored message. */
  function Message(e: UnauthorizedError): string
  {
    e.message
  }

  /** `Display`: the rendered text, which is the message and nothing else. */
  function Display(e: UnauthorizedError): (text: string)
    ensures text == Message(e)
  {
    e.message
  }

  /** A fresh Unauthorized error reports code 401 and renders as "Unauthorized.". */
  lemma NewUnauthorizedErrorObservations()
    ensures Code(NewUnauthorizedError()) == 401
    ensures Message(NewUnauthorizedError()) == "Unauthorized."
    ensures Display(NewUnauthorizedError()) == "Unauthorized."
  {
  }

  /** The error kinds a service can return; Unauthorized carries its error value. */
  datatype DomainError =
    | Unauthorized(cause: UnauthorizedError)
    | BadRequest
    | ResourceNotFound
    | InternalError

  /** The error every authorization failure produces. */
  const UNAUTHORIZED: DomainError := Unauthorized(NewUnauthorizedError())
}
