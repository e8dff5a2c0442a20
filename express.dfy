/**
 * The parts of the host framework's request and response objects the
 * middlewares touch: the request's override-error slot, and the response's
 * "already sent" flag, headers, status line and JSON body.
 */
module Express {
  import opened Wrappers
  import opened Js
  import opened Types

  class Request {
    /** An error attached by upstream application code; `null` stands for `undefined`. */
    var overriddenError: ErrorObject?

    constructor (overriddenError: ErrorObject?)
      ensures this.overriddenError == overriddenError
    {
      this.overriddenError := overriddenError;
    }

    /** The value of the attached override, if any. */
    function Override(): Option<ErrorResponse>
      reads this, overriddenError
    {
      if overriddenError == null then None else Some(overriddenError.Value())
    }
  }

  class Response {
    var headersSent: bool
    var headers: map<string, string>
    var statusCode: Number
    var body: Option<ErrorResponse>

    /** A response nothing has been written to yet: the framework's default status is 200. */
    constructor ()
      ensures !headersSent && headers == map[] && statusCode == Int(200) && body == None
    {
      headersSent, headers, statusCode, body := false, map[], Int(200), None;
    }

    /** `res.header(name, value)`: sets one header, replacing any earlier value. */
    method Header(name: string, value: string)
      modifies this
      ensures headers == old(headers)[name := value]
      ensures headersSent == old(headersSent) && statusCode == old(statusCode) && body == old(body)
    {
      headers := headers[name := value];
    }

    /** Sets every header of `h`, one `res.header` call per key. */
    method SetHeaders(h: map<string, string>)
      modifies this
      ensures headers == old(headers) + h
      ensures headersSent == old(headersSent) && statusCode == old(statusCode) && body == old(body)
    {
      var pending := h.Keys;
      while pending != {}
        invariant pending <= h.Keys
        invariant headers == old(headers) + map k | k in h.Keys - pending :: h[k]
        invariant headersSent == old(headersSent) && statusCode == old(statusCode) && body == old(body)
        decreases pending
      {
        var name :| name in pending;
        Header(name, h[name]);
        pending := pending - {name};
      }
      assert h.Keys - pending == h.Keys;
    }

    /** `res.status(code)`. */
    method Status(code: Number)
      modifies this
      ensures statusCode == code
      ensures headersSent == old(headersSent) && headers == old(headers) && body == old(body)
    {
      statusCode := code;
    }

    /** `res.json(payload)`: serialises the payload as the body and sends the response. */
    method Json(payload: ErrorResponse)
      modifies this
      ensures body == Some(payload) && headersSent
      ensures headers == old(headers) && statusCode == old(statusCode)
    {
      body := Some(payload);
      headersSent := true;
    }
  }
}
