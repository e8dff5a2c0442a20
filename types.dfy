/**
 * The uniform error payload every failed request is answered with, as a value
 * (`ErrorResponse`) and as the mutable object a program holds (`ErrorObject`).
 * The `success` member is the literal `false` on every payload and is left implicit.
 */
module Types {
  import opened Wrappers
  import opened Js

  /** One field-level validation issue. */
  datatype ValidationItem = ValidationItem(path: string, message: Option<string>, errorCode: Option<string>)

  /** The payload; `additionalHeaders` are response headers that must never reach the body. */
  datatype ErrorResponse = ErrorResponse(
    status: Number,
    code: string,
    message: string,
    errors: Option<seq<ValidationItem>>,
    additionalHeaders: Option<map<string, string>>)

  /** A payload object whose members can be overwritten in place. */
  class ErrorObject {
    var status: Number
    var code: string
    var message: string
    var errors: Option<seq<ValidationItem>>
    var additionalHeaders: Option<map<string, string>>

    /** The object's current members as a value. */
    function Value(): ErrorResponse
      reads this
    {
      ErrorResponse(status, code, message, errors, additionalHeaders)
    }

    constructor (v: ErrorResponse)
      ensures Value() == v
    {
      status, code, message := v.status, v.code, v.message;
      errors, additionalHeaders := v.errors, v.additionalHeaders;
    }
  }
}
