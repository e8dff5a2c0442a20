/** The route-miss handler: it hands one shared "not found" payload to the error channel. */
module NotFound {
  import opened Wrappers
  import opened Js
  import opened Types
  import opened Express
  import opened ErrorNormaliser

  /** The shared payload object. */
  const Payload: ErrorResponse := ErrorResponse(Int(404), "NOT_FOUND", "Not found", None, None)

  /** `notFoundMiddleware`: calls `next(payload)` whatever the request; the result is the value passed on. */
  function NotFoundMiddleware(req: Request): RawError {
    AsPlainObject(Payload)
  }

  /** With no override attached, the payload goes out with status 404 as a body equal to itself. */
  lemma NotFoundReply(req: Request)
    ensures Handle(NotFoundMiddleware(req), false, None) == Replied(Int(404), map[], Payload)
  {
    PlainObjectRoundTrip(Payload);
  }

  /**
   * Two requests in a row through `notFoundMiddleware` and then `errorMiddleware`:
   * the error-like branch builds a fresh object each time, so both replies are the same.
   */
  method NotFoundTwice() returns (status1: Number, body1: Option<ErrorResponse>, status2: Number, body2: Option<ErrorResponse>)
    ensures status1 == status2 == Int(404)
    ensures body1 == body2 == Some(Payload)
  {
    var req1 := new Request(null);
    var res1 := new Response();
    NotFoundReply(req1);
    var _ := ErrorMiddleware(NotFoundMiddleware(req1), req1, res1);
    status1, body1 := res1.statusCode, res1.body;

    var req2 := new Request(null);
    var res2 := new Response();
    NotFoundReply(req2);
    var _ := ErrorMiddleware(NotFoundMiddleware(req2), req2, res2);
    status2, body2 := res2.statusCode, res2.body;
  }
}
