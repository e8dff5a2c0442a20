/** The copy of the 502 payload producer shipped in the compiled library tree. */
module LibUtils {
  import opened Wrappers
  import opened Js
  import opened Types
  import opened ErrorNormaliser
  import Utils

  /** `badGatewayFromError`, as the library tree has it. */
  function BadGatewayFromError(err: RawError): (r: ErrorResponse)
    requires err.ErrorInstance? || err.HttpErrorValue?
    ensures r.status == Int(502) && r.code == "BAD_GATEWAY" && r.message == err.message
    ensures r.errors == None && r.additionalHeaders == None
  {
    ErrorResponse(Int(502), "BAD_GATEWAY", err.message, None, None)
  }

  /** The library copy and the source version give the same payload for every error. */
  lemma SameAsSource(err: RawError)
    requires err.ErrorInstance? || err.HttpErrorValue?
    ensures BadGatewayFromError(err) == Utils.BadGatewayFromError(err)
  {
  }
}
