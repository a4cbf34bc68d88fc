/** The Express objects the middleware works on: the request (with the
    `user` field that `AuthenticatedRequest` adds), the response, whose
    `status` and `json` calls are recorded in order, and the `next`
    continuation, whose calls are recorded with their error argument.
    Also the JSON bodies the core writes and the outcome of one middleware
    stage as a value. */
module Http {
  import opened Wire
  import opened Zod

  /** The identity claim carried by a token (`JwtPayload` in src/utils/jwt.ts). */
  datatype Claim = Claim(id: string, email: string, username: string)

  /** A value thrown by a parser that is not a validation error. */
  datatype Fault = Fault(description: string)

  /** One entry of a validation error's `details`. */
  datatype Detail = Detail(field: string, message: Message)

  /** The response envelope of src/utils/responseFormatter.ts: the
      `SuccessResponse` and `ErrorResponse` interfaces share one shape,
      told apart by `success`; a `None` member is left out of the JSON. */
  datatype Envelope = Envelope(
    success: bool,
    data: Option<Json>,
    error: Option<Json>,
    message: Option<string>,
    statusCode: int,
    timestamp: string)

  /** The JSON bodies written by the core. */
  datatype Body =
      /** `{error}`, written by the bearer-token gate. */
    | ErrorBody(error: string)
      /** `{error, details}`, written by the validation guards. */
    | ValidationErrorBody(error: string, details: seq<Detail>)
      /** The uniform envelope, written by `sendResponse`. */
    | EnvelopeBody(envelope: Envelope)

  /** The request as a value: header names are lower-case, as Node delivers them. */
  datatype Req = Req(
    headers: map<string, string>,
    params: map<string, string>,
    query: Json,
    body: Json,
    user: Option<Claim>)

  /** The outcome of one middleware stage: go on with the (possibly
      transformed) request, answer the client and stop, or hand an error
      to Express's error handling with `next(e)`. */
  datatype StepResult =
    | Continue(req: Req)
    | Respond(status: int, body: Body)
    | Forward(fault: Fault)

  /** An Express request object. */
  class Request {
    var headers: map<string, string>
    var params: map<string, string>
    var query: Json
    var body: Json
    var user: Option<Claim>

    constructor (v: Req)
      ensures Value() == v
    {
      headers, params, query, body, user := v.headers, v.params, v.query, v.body, v.user;
    }

    function Value(): Req
      reads this
    {
      Req(headers, params, query, body, user)
    }
  }

  datatype Call = WroteStatus(code: int) | WroteJson(body: Body)

  /** An Express response object; `log` is what has been written to it. */
  class Response {
    var log: seq<Call>

    constructor ()
      ensures log == []
    {
      log := [];
    }

    /** `res.status(code)`. */
    method Status(code: int)
      modifies this
      ensures log == old(log) + [WroteStatus(code)]
    {
      log := log + [WroteStatus(code)];
    }

    /** `res.json(body)`. */
    method SendJson(body: Body)
      modifies this
      ensures log == old(log) + [WroteJson(body)]
    {
      log := log + [WroteJson(body)];
    }
  }

  /** Express's `next`; `calls` records each call, `Some(e)` for `next(e)`. */
  class Next {
    var calls: seq<Option<Fault>>

    constructor ()
      ensures calls == []
    {
      calls := [];
    }

    method Call(error: Option<Fault>)
      modifies this
      ensures calls == old(calls) + [error]
    {
      calls := calls + [error];
    }
  }

  /** What carrying out a stage's outcome does to the three objects: a
      continuing stage replaces the request and calls `next()` once; an
      answering stage writes one status and one JSON body and leaves the
      request alone; a forwarding stage calls `next(e)` once. Nothing else
      is written in any case. */
  predicate Effected(r: StepResult, req0: Req, req1: Req,
                     log0: seq<Call>, log1: seq<Call>,
                     calls0: seq<Option<Fault>>, calls1: seq<Option<Fault>>)
  {
    match r
    case Continue(next) => req1 == next && log1 == log0 && calls1 == calls0 + [None]
    case Respond(status, body) =>
      req1 == req0 && log1 == log0 + [WroteStatus(status), WroteJson(body)] && calls1 == calls0
    case Forward(fault) => req1 == req0 && log1 == log0 && calls1 == calls0 + [Some(fault)]
  }
}
