# Error normaliser of express-microservice-middlewares, in Dafny

This project models the error-handling core of a small set of Express
middlewares. `errorMiddleware` receives whatever value an upstream handler
passed to `next(err)`. It either forwards the value unchanged, or answers with
one uniform JSON payload (`ErrorResponse`: status, code, message, optional
validation `errors`), a sanitised HTTP status and any response headers the
payload asks for. The classification is first-match:

1. The response was already sent, or the value is not a non-null, non-array
   object: `next(err)` is called with the value itself.
2. An override attached to the request (`req.overriddenError`) wins. The slot
   is cleared. The override object itself is the one written to afterwards.
3. A request-validator `HttpError` goes through a fixed status table
   (400, 401, 403, 404, 405, 413, 415). A non-empty message beats the
   table's default. Any other status gives `UNKNOWN_ERROR`.
4. Any other object with a `status` key has its `undefined` members
   defaulted, then coerced with `+\`${status}\``, `${code}` and `${message}`.
5. Everything else is 500 `UNKNOWN_ERROR`, keeping the message of an `Error`.

Afterwards the payload's `additionalHeaders` are copied onto the response and
removed from the payload. A status below 400 or above 599 becomes 500. Then
`res.status(status).json(payload)` is sent. Two producers feed the
normaliser: the constant "not found" payload of `notFoundMiddleware`, and
`badGatewayFromError`, which exists both in `src/utils` and as a verbatim copy
in `lib/utils`.

Layout:

- `wrappers.dfy` (`Wrappers`): `Option`, for members that may be `undefined`.
- `js.dfy` (`Js`): the JavaScript semantics the coercions need. Numbers are
  integers or NaN. It defines `String(n)`, the template literal `${v}` and the
  unary plus `+s`, and proves that `+String(n)` is `n`.
- `types.dfy` (`Types`): `ErrorResponse` as a value, and `ErrorObject`, the
  mutable object a program holds.
- `express.dfy` (`Express`): `Request` with its override slot, and `Response`
  with `headersSent`, headers, status line and body.
- `error_normaliser.dfy` (`ErrorNormaliser`): the raw error value as a tagged
  union, `TransformOpenApiError`, the classification `Classify`, the clamp,
  the specification function `Handle`, the `ErrorMiddleware` method over the
  request and response objects, and the lemmas about them.
- `notfound.dfy` (`NotFound`), `utils.dfy` (`Utils`), `lib_utils.dfy`
  (`LibUtils`): the two payload producers and what happens when they are
  composed with the normaliser.

`ErrorMiddleware` is proved against `Handle`. Its postcondition covers the
two outcomes that end normally, a forward and a reply. The third outcome, an
exception thrown by the host while writing a header or serialising the body,
is not modelled (see "## Left out"). For a forwarded value, the request, the response and the override
object are unchanged. For a reply, the override slot is empty, the headers
are the old headers plus the payload's, and the status line and body are
`Handle`'s. The override object, when one was used, is left equal to the
body that was sent. The properties of the classification are then proved
about `Handle` and `Classify`.

What the code does not do, or does in a way a reader may not expect; the model follows the code:

- The code has no parse-error "type" table.
- It does not remap 502/503/504 to 500.
- It has no interception callback.
- It does not copy headers from validator errors.
- A validator error whose status is not in the table keeps that status.
  It becomes 500 only if it lies outside [400, 599]. Example: 422 is sent as
  422 with code `UNKNOWN_ERROR`.
- An override is not used verbatim. Its `additionalHeaders` are removed in
  place and its status is clamped in place.

## Model

| member | source | states |
|---|---|---|
| `Js.NumberStringRoundTrip` | src/middleware/error.ts:75 | for every modelled number n, `+String(n)` is n again, so a numeric `status` survives the `+\`${status}\`` coercion (NaN included) |
| `Js.NumberTemplateRoundTrip` | src/middleware/error.ts:75 | the same round trip stated for a number held as a property value: `+\`${v}\`` gives back v's number |
| `Types.ErrorObject.constructor` | lib/middleware/types.ts:3-17 | a new payload object holds exactly the given status, code, message, errors and additional headers |
| `Express.Response.SetHeaders` | src/middleware/error.ts:88-91 | the loop over the keys of `additionalHeaders` sets each key as a header with its value; afterwards the headers are the old ones overridden by the map, and the sent flag, status and body are untouched |
| `Express.Response.Header` | src/middleware/error.ts:90 | one `res.header(name, value)` call sets that header to the value, replacing an earlier value of the same name, and leaves every other header, the sent flag, the status and the body as they were |
| `Express.Response.Status` | src/middleware/error.ts:98 | `res.status(code)` records the status line and leaves the sent flag, the headers and the body alone |
| `Express.Response.Json` | src/middleware/error.ts:98 | `res.json` stores the payload as the body and marks the response as sent, leaving the status and the headers the middleware set alone (the headers Express adds itself are not modelled) |
| `ErrorNormaliser.TransformOpenApiError` | src/middleware/error.ts:5-56 | status and errors are copied from the validator error; for a status in the table the code is the table's and the message is the error's own if non-empty, else the table default; for any other status the code is `UNKNOWN_ERROR` and the message `Unknown error` whatever the error's message |
| `ErrorNormaliser.FromErrorLike` | src/middleware/error.ts:72-78 | the payload built for an object with a `status` key carries no validation errors and no additional headers; an undefined code becomes `UNKNOWN_ERROR` and an undefined message `Unknown error`, while any other code or message, `null` included, goes through `${v}` (a string is kept, `null` becomes "null"), because a destructuring default replaces `undefined` only. What it does to the status is stated by `ErrorLikeObject`, `NumericStringStatus` and `PlainObjectRoundTrip` |
| `ErrorNormaliser.Classify` | src/middleware/error.ts:69-86 | a classified payload never asks for additional headers, and it carries validation errors exactly when the value is a validator error |
| `ErrorNormaliser.ClampStatus` | src/middleware/error.ts:94-96 | every integer status below 400 or above 599 becomes exactly 500, one already in range is unchanged, and NaN is left alone because both comparisons are false for it |
| `ErrorNormaliser.Sanitise` | src/middleware/error.ts:93-96 | after the in-place writes the payload has no additional headers and a clamped status, while code, message and errors are kept |
| `ErrorNormaliser.Handle` | src/middleware/error.ts:58-98 | the value is forwarded exactly when the response was sent or the value is not a non-null, non-array object, and then it is forwarded unchanged; a reply's status line equals the body's status, lies in [400, 599] when it is an integer, the body has no additional headers, headers are set only from an override, and an override's code, message and errors reach the body |
| `ErrorNormaliser.Reply` | src/middleware/error.ts:88-98 | once a payload object is chosen, the response headers become the old ones extended by the object's `additionalHeaders`; the object itself is left equal to its sanitised value (headers removed, status clamped); and the response is sent with the object's new status as the status line and its new value as the body |
| `ErrorNormaliser.ErrorMiddleware` | src/middleware/error.ts:58-99 | the method realises `Handle` on the request and response objects: on a forward nothing is written and the override stays attached; on a reply the slot is cleared, the headers are extended by the payload's, the status and body are `Handle`'s, and the override object is left mutated to equal the body sent |
| `ErrorNormaliser.OverrideWins` | src/middleware/error.ts:66-68 | with an override attached, any two actionable values give the same reply: the override with its headers, sanitised |
| `ErrorNormaliser.OpenApiErrorReply` | src/middleware/error.ts:13-53 | a validator error is always answered with its errors and no extra header; a table status is sent unchanged with the table's code and the supplied-or-default message; any other status is sent clamped as `UNKNOWN_ERROR` / `Unknown error` |
| `ErrorNormaliser.ErrorLikeObject` | src/middleware/error.ts:71-78 | for an object with a `status` key, an undefined status becomes 500 and a numeric one is kept; an undefined code becomes `UNKNOWN_ERROR` and an undefined message `Unknown error`; string code and message are taken as they are; no validation errors are carried |
| `ErrorNormaliser.NumericStringStatus` | src/middleware/error.ts:75 | a status given as the decimal string of an integer, such as "400", becomes that integer |
| `ErrorNormaliser.StatusOnlyObject` | src/middleware/error.ts:71-96 | `{status}` alone replies with the default code and message and status 500 when the status is undefined or outside [400, 599], else the status itself |
| `ErrorNormaliser.ObjectWithoutStatus` | src/middleware/error.ts:79-85 | an object without a `status` key is answered 500 `UNKNOWN_ERROR`, with the message of an `Error` instance or `Unknown error` otherwise, and no extra header |
| `ErrorNormaliser.PlainObjectRoundTrip` | src/middleware/error.ts:71-78 | a payload handed to `next` as a plain object is classified back to the same status, code and message, without errors or headers |
| `ErrorNormaliser.SanitiseIdempotent` | src/middleware/error.ts:93-96 | sanitising twice equals sanitising once, and a sanitised payload asks for no headers, so a reused override object sends no extra header the second time |
| `ErrorNormaliser.OverrideUsedOnce` | src/middleware/error.ts:66-68 | an override answers the first error on a request and is consumed; a second `Error` on the reused request object, paired with a fresh response (in Express the first response is already sent, so the error would be forwarded), is classified normally as 500 `UNKNOWN_ERROR` with its own message |
| `ErrorNormaliser.SharedOverrideObject` | src/middleware/error.ts:67-93 | one override object attached to two requests: the first reply carries its additional headers, and the second carries none because the first use removed them in place |
| `NotFound.NotFoundReply` | src/middleware/notfound.ts:4-13 | whatever the request, the forwarded payload, sent through the normaliser with no override, is answered with status 404 and a body equal to the payload `{404, NOT_FOUND, Not found}` |
| `NotFound.NotFoundTwice` | src/middleware/notfound.ts:4-13 | two consecutive route misses give identical replies, status 404 with the payload as body, because the shared payload is never written to |
| `Utils.BadGatewayFromError` | src/utils/index.ts:5-12 | the payload has status 502, code `BAD_GATEWAY`, the error's own message, and no errors or additional headers |
| `Utils.BadGatewayAsOverride` | src/utils/index.ts:5-12 | attached as the request's override, the 502 payload is sent with status 502, unchanged, and with no extra header, because 502 lies in [400, 599] |
| `LibUtils.BadGatewayFromError` | lib/utils/index.ts:3-10 | the library copy gives status 502, code `BAD_GATEWAY`, the error's message, and no errors or additional headers |
| `LibUtils.SameAsSource` | lib/utils/index.ts:3-10 | the library copy and the source version return the same payload for every error |

## Left out

- ErrorMiddleware: header names and values are assumed acceptable to the host, and the payload serialisable. In Node, `res.header` throws for a name that is not a valid token (such as "X Auth") or a value holding CR, LF or a character above U+00FF, and `res.json` throws for a circular or BigInt `errors` value. The model's `Express.Response.Header` accepts every string and `Express.Response.Json` always succeeds, so `ErrorMiddleware` always ends in a forward or a reply. The throw path is not modelled, and neither is the partial state it leaves: the override slot already cleared, the earlier headers already set, and the override object not yet stripped or clamped.
- The HTML page of Express's default error handler, for forwarded values. The model records only the value passed to `next`.
- The `instanceof HttpError` test and `HttpError.create` belong to the request-validator library. A validator error is the `HttpErrorValue` variant with status, message and errors. A missing message is taken as the empty string, which is falsy in the same way.
- Numbers are integers or NaN. Fractions, infinities and `-0` are not modelled. Neither is the exponent notation `String(n)` uses from 1e21 on.
- `+s` is modelled for surrounding white space, an optional sign and decimal digits. Decimal-point forms such as "400.0", "400." and ".5", exponent, hexadecimal, binary and octal forms, and "Infinity", read as NaN in the model but as numbers in JavaScript. So `{status: "400.0"}` is sent as 400 by the code but with a NaN status line by the model. Unicode space separators beyond the ten listed characters are not stripped.
- What the host does with a NaN status line, `res.status(NaN)`, is not modelled. The model only records the status written.
- `${v}` of an object property is "[object Object]" for every object. Arrays, `Error` objects and custom `toString` methods are not modelled, and neither are symbols, which make the conversion throw.
- `key in err` looks up the prototype chain. The model's `props` stand for every visible property of the value. Property getters with side effects are not modelled.
- `success`: every payload carries the literal `false`. It is left implicit.
- JSON serialisation: the body is the payload value. `undefined` members are `None`.
- Validation issues keep only path, message and error code.
- Header names are compared exactly. Express compares them case-insensitively, so two keys differing only in case would end up as one header.
- Headers that Express writes itself are not modelled: `res.json` adds `Content-Type: application/json` when none is set, and `res.send` adds `Content-Length` and `ETag`. `ErrorMiddleware`'s `res.headers == old(res.headers) + headers` covers only the headers the middleware writes.
- Header values are stored as given. The charset handling of `res.header` for `Content-Type` is not modelled.
- The router registration helpers `attach`, `use`, `all`, `get`, `post`, `put`, `del`, `patch`, `options` and `head` in src/utils/index.ts are thin wrappers over the Express router.
- `debugErrorMiddleware` is console output followed by a pass-through.
- `addJsonContentTypeMiddleware` is a single header write.
- The re-export files src/index.ts and lib/index.ts have no behaviour.
- NotFound.NotFoundMiddleware: no contract of its own. What it promises (the payload, whatever the request) is stated by `NotFound.NotFoundReply` about its composition with the normaliser.
