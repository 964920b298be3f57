/** The association and generic challenge endpoints (data/network/ValidationSessionService.kt). */
module ValidationSessionService {
  import opened Wrappers
  import opened Errors
  import opened Models
  import opened Http
  import opened BaseService

  /** The association body: snake_case keys, with type "ci" and country "UY" when absent. */
  function AssociationBody(document: Document): Body {
    JsonObject([("document_number", document.number),
                ("document_type", document.docType.GetOr("ci")),
                ("document_country", document.country.GetOr("UY"))])
  }

  /** `createDeviceAssociation`: POST associations/; returns Unit and parses no session. */
  function CreateDeviceAssociation(online: bool, baseUrl: string, document: Document, call: Transport): (x: Exchange<()>)
    ensures x.sent.Some? <==> online
    ensures !online ==> x.result == Err(NoInternetConnection)
    ensures online ==> x.sent.value == Request(JoinUrl(baseUrl, "associations/"), AssociationBody(document))
    ensures x.result.Ok? <==> online && call.Delivered? && IsSuccessful(call.response.code)
    ensures online && call.Delivered? && !IsSuccessful(call.response.code) ==>
              x.result == Err(StatusError(call.response.code, Some(call.response.body)))
    ensures online && call.TransportFailed? ==> x.result == Err(ToIDDigitalError(call.error, "Error in createDeviceAssociation"))
  {
    Send(online, Request(JoinUrl(baseUrl, "associations/"), AssociationBody(document)),
         Recover(CheckStatus(call), "Error in createDeviceAssociation"))
  }

  /** `executeChallenge(id, data)`: the body is the string rendering of the data record, which is
      abstracted to `renderedData`. Returns Unit. */
  function ExecuteChallenge(online: bool, baseUrl: string, challengeId: string, renderedData: string, call: Transport): (x: Exchange<()>)
    ensures x.sent.Some? <==> online
    ensures !online ==> x.result == Err(NoInternetConnection)
    ensures online ==> x.sent.value == Request(JoinUrl(baseUrl, "challenges/" + challengeId + "/execute/"), RawText(renderedData))
    ensures x.result.Ok? <==> online && call.Delivered? && IsSuccessful(call.response.code)
    ensures online && call.Delivered? && !IsSuccessful(call.response.code) ==>
              x.result == Err(StatusError(call.response.code, Some(call.response.body)))
    ensures online && call.TransportFailed? ==> x.result == Err(ToIDDigitalError(call.error, "Error in executeChallenge"))
  {
    Send(online, Request(JoinUrl(baseUrl, "challenges/" + challengeId + "/execute/"), RawText(renderedData)),
         Recover(CheckStatus(call), "Error in executeChallenge"))
  }

  /** `validateChallenge(id, data)`: the body is the Gson rendering of the record, abstracted to
      `dataJson`; the decision has the same precedence as the PIN service's, with the reason
      "too many attempts". */
  function ValidateChallenge(online: bool, baseUrl: string, challengeId: string, dataJson: string, call: Transport): (x: Exchange<bool>)
    ensures x.sent.Some? <==> online
    ensures !online ==> x.result == Err(NoInternetConnection)
    ensures online ==> x.sent.value == Request(JoinUrl(baseUrl, "challenges/" + challengeId + "/validate/"), RawText(dataJson))
    ensures x.result == Ok(true) <==> online && call.Delivered? && IsSuccessful(call.response.code)
    ensures x.result == Ok(false) <==> online && FailedWithCode(call, "invalid-pin")
    ensures online && FailedWithCode(call, "too-many-attempts") ==> x.result == Err(TooManyAttempts("too many attempts"))
    ensures online && call.Delivered? && !IsSuccessful(call.response.code) && call.response.errorCode.None? ==>
              x.result == Err(UnknownError("Error in validateChallenge", Some(JsonReadFailure)))
    ensures online && call.Delivered? && !IsSuccessful(call.response.code) && call.response.errorCode.Some? &&
            call.response.errorCode.value != "invalid-pin" && call.response.errorCode.value != "too-many-attempts" ==>
              x.result == Err(StatusError(call.response.code, Some(call.response.body)))
    ensures online && call.TransportFailed? ==> x.result == Err(ToIDDigitalError(call.error, "Error in validateChallenge"))
  {
    ValidateDecisionCases(call, "too many attempts", "Error in validateChallenge");
    Send(online, Request(JoinUrl(baseUrl, "challenges/" + challengeId + "/validate/"), RawText(dataJson)),
         Recover(ValidateDecision(call, "too many attempts"), "Error in validateChallenge"))
  }

  /** The association body falls back to "ci" and "UY" exactly when the document leaves them out. */
  lemma AssociationBodyDefaults(document: Document)
    ensures AssociationBody(document).members[0] == ("document_number", document.number)
    ensures AssociationBody(document).members[1] == ("document_type", document.docType.GetOr("ci"))
    ensures AssociationBody(document).members[2] == ("document_country", document.country.GetOr("UY"))
    ensures document.docType.None? ==> AssociationBody(document).members[1].1 == "ci"
    ensures document.country.None? ==> AssociationBody(document).members[2].1 == "UY"
  {
  }
}
