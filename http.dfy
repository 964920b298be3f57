/** What the three network services share: the abstract shape of an HTTP exchange, the
    status-code classification of a failed response (the 5xx server-error class and the 400 / 404
    client errors of RFC 9110 sections 15.5 and 15.6), the outer `catch` that maps every throwable
    through `toIDDigitalError`, and the decision taken on a failed challenge validation. */
module Http {
  import opened Wrappers
  import opened Errors

  /** A received response, with the JSON reads the services perform on its body already resolved:
      each is the string read, or `None` when org.json throws because the body is not JSON or the
      key is missing. */
  datatype Response = Response(
    code: int,
    body: string,
    dataChallengeId: Option<string>,  // JSONObject(body).getJSONObject("data").getString("challengeId")
    dataSessionId: Option<string>,    // JSONObject(body).getJSONObject("data").getString("sessionId")
    errorCode: Option<string>)        // JSONObject(body).getString("code")

  /** The outcome of executing the call and reading the body: a response, or the throwable raised by
      the transport. */
  datatype Transport = Delivered(response: Response) | TransportFailed(error: Throwable)

  /** A request body: a JSON object with string members, or text sent as it is. */
  datatype Body = JsonObject(members: seq<(string, string)>) | RawText(text: string)

  /** A POST request to a full URL. */
  datatype Request = Request(url: string, body: Body)

  /** What a service call did: the request it sent, if it got that far, and what it returned or
      threw. */
  datatype Exchange<T> = Exchange(sent: Option<Request>, result: Result<T, IDDigitalError>)

  /** The exception org.json raises on a failed read. Its message is not modelled. */
  const JsonReadFailure: Throwable := Runtime(JsonException, None)

  /** OkHttp's `Response.isSuccessful`. */
  predicate IsSuccessful(code: int) {
    200 <= code < 300
  }

  predicate IsServerErrorClass(code: int) {
    500 <= code <= 599
  }

  predicate IsBadRequestOrNotFound(code: int) {
    code == 400 || code == 404
  }

  /** The `when (response.code)` thrown for a response that is not successful. */
  function StatusError(code: int, body: Option<string>): (e: IDDigitalError)
    ensures e.ServiceUnavailable? <==> IsServerErrorClass(code)
    ensures e.BadResponse? <==> IsBadRequestOrNotFound(code)
    ensures e.UnexpectedResponse? <==> !IsServerErrorClass(code) && !IsBadRequestOrNotFound(code)
    ensures (e.ServiceUnavailable? || e.BadResponse? || e.UnexpectedResponse?)
    ensures e.statusCode == code && e.responseBody == body
  {
    if IsServerErrorClass(code) then ServiceUnavailable(code, body)
    else if IsBadRequestOrNotFound(code) then BadResponse(code, body)
    else UnexpectedResponse(code, body)
  }

  /** The outer `catch (e: Throwable) { throw e.toIDDigitalError(context) }`. */
  function Recover<T>(r: Result<T, Throwable>, context: string): (x: Result<T, IDDigitalError>)
    ensures r.Ok? <==> x.Ok?
    ensures r.Ok? ==> x.value == r.value
    ensures r.Err? ==> x.error == ToIDDigitalError(r.error, context)
  {
    match r
    case Ok(v) => Ok(v)
    case Err(t) => Err(ToIDDigitalError(t, context))
  }

  /** The connectivity guard every service method starts with: offline, NoInternetConnection is
      thrown before any request is built; online, the request is sent and the try block decides. */
  function Send<T>(online: bool, request: Request, outcome: Result<T, IDDigitalError>): (x: Exchange<T>)
    ensures x.sent.Some? <==> online
    ensures !online ==> x.result == Err(NoInternetConnection)
    ensures online ==> x.sent.value == request && x.result == outcome
  {
    if !online then Exchange(None, Err(NoInternetConnection)) else Exchange(Some(request), outcome)
  }

  /** A status error thrown inside the try comes out of the catch unchanged. */
  lemma StatusErrorPassesThrough(code: int, body: Option<string>, context: string)
    ensures ToIDDigitalError(Digital(StatusError(code, body)), context) == StatusError(code, body)
  {
  }

  /** The try block of a non-validating call up to the point where the payload is read: a failed
      response throws its status error, a successful one yields the payload read, whose failure
      throws the JSON exception. */
  function ReadPayload(call: Transport, field: Response -> Option<string>): (r: Result<string, Throwable>)
    ensures call.TransportFailed? ==> r == Err(call.error)
    ensures call.Delivered? && !IsSuccessful(call.response.code) ==>
              r == Err(Digital(StatusError(call.response.code, Some(call.response.body))))
    ensures call.Delivered? && IsSuccessful(call.response.code) ==>
              r == (if field(call.response).Some? then Ok(field(call.response).value) else Err(JsonReadFailure))
  {
    match call
    case TransportFailed(t) => Err(t)
    case Delivered(resp) =>
      if !IsSuccessful(resp.code) then Err(Digital(StatusError(resp.code, Some(resp.body))))
      else match field(resp)
        case Some(v) => Ok(v)
        case None => Err(JsonReadFailure)
  }

  /** The try block of a call that returns Unit: a status error, or nothing. */
  function CheckStatus(call: Transport): (r: Result<(), Throwable>)
    ensures r.Ok? <==> call.Delivered? && IsSuccessful(call.response.code)
    ensures call.TransportFailed? ==> r == Err(call.error)
    ensures call.Delivered? && !IsSuccessful(call.response.code) ==>
              r == Err(Digital(StatusError(call.response.code, Some(call.response.body))))
  {
    match call
    case TransportFailed(t) => Err(t)
    case Delivered(resp) =>
      if !IsSuccessful(resp.code) then Err(Digital(StatusError(resp.code, Some(resp.body)))) else Ok(())
  }

  /** The try block of a validating call that reads the backend's error code on a failure:
      "invalid-pin" returns false, "too-many-attempts" throws TooManyAttempts with `reason`, and
      only then is the status mapped. The code comparisons here are string equality. */
  function ValidateDecision(call: Transport, reason: string): (r: Result<bool, Throwable>)
  {
    match call
    case TransportFailed(t) => Err(t)
    case Delivered(resp) =>
      if IsSuccessful(resp.code) then Ok(true)
      else match resp.errorCode
        case None => Err(JsonReadFailure)
        case Some(code) =>
          if code == "invalid-pin" then Ok(false)
          else if code == "too-many-attempts" then Err(Digital(TooManyAttempts(reason)))
          else Err(Digital(StatusError(resp.code, Some(resp.body))))
  }

  predicate FailedWithCode(call: Transport, code: string) {
    call.Delivered? && !IsSuccessful(call.response.code) && call.response.errorCode == Some(code)
  }

  /** The three outcomes of a validation and exactly the responses that produce them; the body
      code is consulted before the status class. */
  lemma ValidateDecisionCases(call: Transport, reason: string, context: string)
    ensures Recover(ValidateDecision(call, reason), context) == Ok(true) <==>
              call.Delivered? && IsSuccessful(call.response.code)
    ensures Recover(ValidateDecision(call, reason), context) == Ok(false) <==>
              FailedWithCode(call, "invalid-pin")
    ensures FailedWithCode(call, "too-many-attempts") ==>
              Recover(ValidateDecision(call, reason), context) == Err(TooManyAttempts(reason))
    ensures call.Delivered? && !IsSuccessful(call.response.code) && call.response.errorCode.Some? &&
            call.response.errorCode.value != "invalid-pin" && call.response.errorCode.value != "too-many-attempts" ==>
              Recover(ValidateDecision(call, reason), context) ==
                Err(StatusError(call.response.code, Some(call.response.body)))
  {
  }

  /** A failed response with no readable code skips the status mapping: the JSON exception is
      caught and surfaces as UnknownError with the method's context. */
  lemma ValidateMissingCodeIsUnknown(call: Transport, reason: string, context: string)
    requires call.Delivered? && !IsSuccessful(call.response.code) && call.response.errorCode.None?
    ensures Recover(ValidateDecision(call, reason), context) == Err(UnknownError(context, Some(JsonReadFailure)))
  {
  }

  /** A transport failure is classified by `toIDDigitalError`, with the method's context. */
  lemma TransportFailureClassified(call: Transport, reason: string, context: string)
    requires call.TransportFailed?
    ensures Recover(ValidateDecision(call, reason), context) == Err(ToIDDigitalError(call.error, context))
    ensures Recover(CheckStatus(call), context) == Err(ToIDDigitalError(call.error, context))
  {
  }

  // The comparison as written: `backendErrorCode === "invalid-pin"` is reference identity, true only
  // when the code read from the body is the very object of the literal. `interned` says whether that
  // is so for a code with the literal's characters; a String object that parsing the body has just
  // built is not the interned literal, so on the JVM `interned` is false.

  /** The validation decision as written, with identity comparisons. */
  function ValidateDecisionAsWritten(call: Transport, reason: string, interned: bool): (r: Result<bool, Throwable>)
  {
    match call
    case TransportFailed(t) => Err(t)
    case Delivered(resp) =>
      if IsSuccessful(resp.code) then Ok(true)
      else match resp.errorCode
        case None => Err(JsonReadFailure)
        case Some(code) =>
          if interned && code == "invalid-pin" then Ok(false)
          else if interned && code == "too-many-attempts" then Err(Digital(TooManyAttempts(reason)))
          else Err(Digital(StatusError(resp.code, Some(resp.body))))
  }

  /** With a freshly built code, a wrong PIN reported with status 400 and code "invalid-pin" throws
      BadResponse instead of returning false, and the validation can never return false at all. */
  lemma InvalidPinMissedAsWritten(reason: string, context: string, interned: bool)
    requires !interned
    ensures var call := Delivered(Response(400, "{\"code\":\"invalid-pin\"}", None, None, Some("invalid-pin")));
            Recover(ValidateDecisionAsWritten(call, reason, interned), context) ==
              Err(BadResponse(400, Some("{\"code\":\"invalid-pin\"}"))) &&
            Recover(ValidateDecision(call, reason), context) == Ok(false)
    ensures forall call: Transport :: ValidateDecisionAsWritten(call, reason, interned) != Ok(false)
  {
  }

  /** The identity comparisons decide like string equality on every response exactly when the code
      read is the interned literal. */
  lemma AsWrittenAgreesExactlyWhenInterned(reason: string, interned: bool)
    ensures (forall call: Transport :: ValidateDecisionAsWritten(call, reason, interned) == ValidateDecision(call, reason))
            <==> interned
  {
    if !interned {
      var call := Delivered(Response(400, "", None, None, Some("invalid-pin")));
      assert ValidateDecisionAsWritten(call, reason, interned) != ValidateDecision(call, reason);
    }
  }
}
