/** The PIN challenge endpoints (data/network/PinService.kt). Each method is a function of the
    connectivity check, the configured base URL, its arguments and the abstract transport outcome. */
module PinService {
  import opened Wrappers
  import opened Errors
  import opened Models
  import opened Http
  import opened BaseService

  /** The create body: the document, with type "ci" and country "UY" when absent. Member order is
      not significant. */
  function CreateBody(document: Document): Body {
    JsonObject([("documentNumber", document.number),
                ("documentType", document.docType.GetOr("ci")),
                ("documentCountry", document.country.GetOr("UY"))])
  }

  /** `createChallenge`: POST challenges/pin/, returning `data.challengeId`. */
  function CreateChallenge(online: bool, baseUrl: string, document: Document, call: Transport): (x: Exchange<string>)
    ensures x.sent.Some? <==> online
    ensures !online ==> x.result == Err(NoInternetConnection)
    ensures online ==> x.sent.value == Request(JoinUrl(baseUrl, "challenges/pin/"), CreateBody(document))
    ensures x.result.Ok? <==>
              online && call.Delivered? && IsSuccessful(call.response.code) && call.response.dataChallengeId.Some?
    ensures x.result.Ok? ==> x.result.value == call.response.dataChallengeId.value
    ensures online && call.Delivered? && !IsSuccessful(call.response.code) ==>
              x.result == Err(StatusError(call.response.code, Some(call.response.body)))
    ensures online && call.Delivered? && IsSuccessful(call.response.code) && call.response.dataChallengeId.None? ==>
              x.result == Err(UnknownError("Error in createChallenge", Some(JsonReadFailure)))
    ensures online && call.TransportFailed? ==> x.result == Err(ToIDDigitalError(call.error, "Error in createChallenge"))
  {
    Send(online, Request(JoinUrl(baseUrl, "challenges/pin/"), CreateBody(document)),
         Recover(ReadPayload(call, (r: Response) => r.dataChallengeId), "Error in createChallenge"))
  }

  /** `executeChallenge`: POST challenges/{id}/execute/ with an empty JSON object; returns Unit. */
  function ExecuteChallenge(online: bool, baseUrl: string, challengeId: string, call: Transport): (x: Exchange<()>)
    ensures x.sent.Some? <==> online
    ensures !online ==> x.result == Err(NoInternetConnection)
    ensures online ==> x.sent.value == Request(JoinUrl(baseUrl, "challenges/" + challengeId + "/execute/"), RawText("{}"))
    ensures x.result.Ok? <==> online && call.Delivered? && IsSuccessful(call.response.code)
    ensures online && call.Delivered? && !IsSuccessful(call.response.code) ==>
              x.result == Err(StatusError(call.response.code, Some(call.response.body)))
    ensures online && call.TransportFailed? ==> x.result == Err(ToIDDigitalError(call.error, "Error in executeChallenge"))
  {
    Send(online, Request(JoinUrl(baseUrl, "challenges/" + challengeId + "/execute/"), RawText("{}")),
         Recover(CheckStatus(call), "Error in executeChallenge"))
  }

  /** `validateChallenge`: POST challenges/{id}/validate/ with the PIN. */
  function ValidateChallenge(online: bool, baseUrl: string, challengeId: string, pin: string, call: Transport): (x: Exchange<bool>)
    ensures x.sent.Some? <==> online
    ensures !online ==> x.result == Err(NoInternetConnection)
    ensures online ==> x.sent.value == Request(JoinUrl(baseUrl, "challenges/" + challengeId + "/validate/"), JsonObject([("pin", pin)]))
    ensures x.result == Ok(true) <==> online && call.Delivered? && IsSuccessful(call.response.code)
    ensures x.result == Ok(false) <==> online && FailedWithCode(call, "invalid-pin")
    ensures online && FailedWithCode(call, "too-many-attempts") ==> x.result == Err(TooManyAttempts("too many pin attempts"))
    ensures online && call.Delivered? && !IsSuccessful(call.response.code) && call.response.errorCode.None? ==>
              x.result == Err(UnknownError("Error in validateChallenge", Some(JsonReadFailure)))
    ensures online && call.Delivered? && !IsSuccessful(call.response.code) && call.response.errorCode.Some? &&
            call.response.errorCode.value != "invalid-pin" && call.response.errorCode.value != "too-many-attempts" ==>
              x.result == Err(StatusError(call.response.code, Some(call.response.body)))
    ensures online && call.TransportFailed? ==> x.result == Err(ToIDDigitalError(call.error, "Error in validateChallenge"))
  {
    ValidateDecisionCases(call, "too many pin attempts", "Error in validateChallenge");
    Send(online, Request(JoinUrl(baseUrl, "challenges/" + challengeId + "/validate/"), JsonObject([("pin", pin)])),
         Recover(ValidateDecision(call, "too many pin attempts"), "Error in validateChallenge"))
  }

  /** The create body falls back to "ci" and "UY" exactly when the document leaves them out. */
  lemma CreateBodyDefaults(document: Document)
    ensures CreateBody(document).members[0] == ("documentNumber", document.number)
    ensures document.docType.None? ==> CreateBody(document).members[1] == ("documentType", "ci")
    ensures document.docType.Some? ==> CreateBody(document).members[1] == ("documentType", document.docType.value)
    ensures document.country.None? ==> CreateBody(document).members[2] == ("documentCountry", "UY")
    ensures document.country.Some? ==> CreateBody(document).members[2] == ("documentCountry", document.country.value)
  {
  }
}
