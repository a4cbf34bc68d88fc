/** The uniform response envelope: the two builders and `sendResponse`,
    the single place where a handler writes its answer. The clock is a
    parameter (`now`, the ISO timestamp the builders stamp). */
module ResponseFormatter {
  import opened Wire
  import opened Http

  const DefaultErrorMessage := "An error occurred"

  /** A JavaScript default parameter: used only when the argument is `undefined`. */
  function OrElse<T>(given: Option<T>, fallback: T): T {
    if given.Some? then given.value else fallback
  }

  /** `code || fallback` for a status code: `undefined` and `0` are falsy. */
  function CodeOr(code: int, fallback: int): (r: int)
    ensures r != 0 <==> code != 0 || fallback != 0
    ensures code != 0 ==> r == code
    ensures code == 0 ==> r == fallback
  {
    if code != 0 then code else fallback
  }

  /** `formatSuccess(data, statusCode = 200, message?)`: a success envelope
      carrying `data` unchanged, `undefined` included (the JSON body then
      has no `data` key). Only an omitted code becomes 200; an explicit 0
      is kept. */
  function FormatSuccess(data: Option<Json>, statusCode: Option<int>, message: Option<string>, now: string)
    : (e: Envelope)
    ensures e.success && e.data == data && e.error.None?
    ensures statusCode.None? ==> e.statusCode == 200
    ensures statusCode.Some? ==> e.statusCode == statusCode.value
    ensures e.message == message && e.timestamp == now
  {
    Envelope(true, data, None, message, OrElse(statusCode, 200), now)
  }

  /** `formatError(message, error?, statusCode = 500)`: a failure envelope
      carrying `error` unchanged. Only an omitted code becomes 500. */
  function FormatError(message: string, error: Option<Json>, statusCode: Option<int>, now: string)
    : (e: Envelope)
    ensures !e.success && e.data.None? && e.error == error
    ensures statusCode.None? ==> e.statusCode == 500
    ensures statusCode.Some? ==> e.statusCode == statusCode.value
    ensures e.message == Some(message) && e.timestamp == now
  {
    Envelope(false, None, error, Some(message), OrElse(statusCode, 500), now)
  }

  /** The envelope `sendResponse` builds. The payload may be `undefined`
      (a handler's query that matched no row); it is carried as given, as
      `data` or as `error`. In the error branch a missing or empty message
      becomes the default message. */
  function SentEnvelope(isSuccess: bool, payload: Option<Json>, statusCode: Option<int>,
                        message: Option<string>, now: string): (e: Envelope)
    ensures e.success == isSuccess && e.timestamp == now
    ensures isSuccess ==> e == FormatSuccess(payload, statusCode, message, now)
    ensures !isSuccess ==> e == FormatError(
      if message.Some? && message.value != "" then message.value else DefaultErrorMessage,
      payload, statusCode, now)
    ensures isSuccess ==> e.data == payload && e.error.None?
    ensures !isSuccess ==> e.error == payload && e.data.None?
    ensures !isSuccess ==> e.message.Some? && e.message.value != ""
    ensures !isSuccess && message.Some? && message.value != "" ==> e.message == message
    ensures !isSuccess && (message.None? || message.value == "") ==> e.message == Some(DefaultErrorMessage)
  {
    if isSuccess then FormatSuccess(payload, statusCode, message, now)
    else
      var text := if message.Some? && message.value != "" then message.value else DefaultErrorMessage;
      FormatError(text, payload, statusCode, now)
  }

  /** The HTTP status `sendResponse` sets: the envelope's code unless it is
      0, then 200 for a success and 500 for an error. */
  function SentStatus(isSuccess: bool, e: Envelope): (code: int)
    ensures code != 0
    ensures e.statusCode != 0 ==> code == e.statusCode
    ensures e.statusCode == 0 ==> code == (if isSuccess then 200 else 500)
  {
    CodeOr(e.statusCode, if isSuccess then 200 else 500)
  }

  /** `sendResponse(res, isSuccess, payload, statusCode?, message?)`: one
      status, then one JSON body, which is the envelope that was built. */
  method SendResponse(res: Response, isSuccess: bool, payload: Option<Json>, statusCode: Option<int>,
                      message: Option<string>, now: string)
    modifies res
    ensures res.log == old(res.log) + [
      WroteStatus(SentStatus(isSuccess, SentEnvelope(isSuccess, payload, statusCode, message, now))),
      WroteJson(EnvelopeBody(SentEnvelope(isSuccess, payload, statusCode, message, now)))]
  {
    if isSuccess {
      var successResponse := FormatSuccess(payload, statusCode, message, now);
      res.Status(CodeOr(successResponse.statusCode, 200));
      res.SendJson(EnvelopeBody(successResponse));
    } else {
      var text := if message.Some? && message.value != "" then message.value else DefaultErrorMessage;
      var errorResponse := FormatError(text, payload, statusCode, now);
      res.Status(CodeOr(errorResponse.statusCode, 500));
      res.SendJson(EnvelopeBody(errorResponse));
    }
  }

  /** What a client can rely on: `success` tells the branch, the status
      written is never 0, and it agrees with the envelope's `statusCode`
      exactly when that code is not 0 (an explicit 0 is answered with the
      default status while the body still says 0); any other explicit code
      is both written and carried in the body. */
  lemma SentResponseAgrees(isSuccess: bool, payload: Option<Json>, statusCode: Option<int>,
                           message: Option<string>, now: string)
    ensures var e := SentEnvelope(isSuccess, payload, statusCode, message, now);
      var code := SentStatus(isSuccess, e);
      && e.success == isSuccess
      && code != 0
      && (code == e.statusCode <==> e.statusCode != 0)
      && (statusCode.None? ==> code == e.statusCode == (if isSuccess then 200 else 500))
      && (statusCode == Some(0) ==> e.statusCode == 0 && code == (if isSuccess then 200 else 500))
      && (statusCode.Some? && statusCode.value != 0 ==> code == e.statusCode == statusCode.value)
  {
  }
}
