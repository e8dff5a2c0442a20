/** The payload producer for failed upstream calls. */
module Utils {
  import opened Wrappers
  import opened Js
  import opened Types
  import opened ErrorNormaliser

  /** `badGatewayFromError`: a 502 payload carrying the message of an `Error`. */
  function BadGatewayFromError(err: RawError): (r: ErrorResponse)
    requires err.ErrorInstance? || err.HttpErrorValue?
    ensures r.status == Int(502) && r.code == "BAD_GATEWAY" && r.message == err.message
    ensures r.errors == None && r.additionalHeaders == None
  {
    ErrorResponse(Int(502), "BAD_GATEWAY", err.message, None, None)
  }

  /** Attached as the request's override, the payload is sent as it is with status 502 and no extra header. */
  lemma BadGatewayAsOverride(cause: RawError, err: RawError)
    requires cause.ErrorInstance? || cause.HttpErrorValue?
    requires IsActionable(err)
    ensures var payload := BadGatewayFromError(cause);
      Handle(err, false, Some(payload)) == Replied(Int(502), map[], payload)
  {
  }
}
