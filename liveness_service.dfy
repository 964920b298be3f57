/** The liveness challenge endpoints (data/network/LivenessService.kt). */
module LivenessService {
  import opened Wrappers
  import opened Errors
  import opened Models
  import opened Http
  import opened BaseService
  import PinService

  /** `createChallenge`: POST challenges/liveness/ with the same defaulted body as the PIN service,
      returning `data.challengeId`. */
  function CreateChallenge(online: bool, baseUrl: string, document: Document, call: Transport): (x: Exchange<string>)
    ensures x.sent.Some? <==> online
    ensures !online ==> x.result == Err(NoInternetConnection)
    ensures online ==> x.sent.value == Request(JoinUrl(baseUrl, "challenges/liveness/"), PinService.CreateBody(document))
    ensures x.result.Ok? <==>
              online && call.Delivered? && IsSuccessful(call.response.code) && call.response.dataChallengeId.Some?
    ensures x.result.Ok? ==> x.result.value == call.response.dataChallengeId.value
    ensures online && call.Delivered? && !IsSuccessful(call.response.code) ==>
              x.result == Err(StatusError(call.response.code, Some(call.response.body)))
    ensures online && call.Delivered? && IsSuccessful(call.response.code) && call.response.dataChallengeId.None? ==>
              x.result == Err(UnknownError("Error in createChallenge", Some(JsonReadFailure)))
    ensures online && call.TransportFailed? ==> x.result == Err(ToIDDigitalError(call.error, "Error in createChallenge"))
  {
    Send(online, Request(JoinUrl(baseUrl, "challenges/liveness/"), PinService.CreateBody(document)),
         Recover(ReadPayload(call, (r: Response) => r.dataChallengeId), "Error in createChallenge"))
  }

  /** `executeChallenge`: POST challenges/{id}/execute/, returning `data.sessionId`, the vendor
      face-liveness session to run. */
  function ExecuteChallenge(online: bool, baseUrl: string, challengeId: string, call: Transport): (x: Exchange<string>)
    ensures x.sent.Some? <==> online
    ensures !online ==> x.result == Err(NoInternetConnection)
    ensures online ==> x.sent.value == Request(JoinUrl(baseUrl, "challenges/" + challengeId + "/execute/"), RawText("{}"))
    ensures x.result.Ok? <==>
              online && call.Delivered? && IsSuccessful(call.response.code) && call.response.dataSessionId.Some?
    ensures x.result.Ok? ==> x.result.value == call.response.dataSessionId.value
    ensures online && call.Delivered? && !IsSuccessful(call.response.code) ==>
              x.result == Err(StatusError(call.response.code, Some(call.response.body)))
    ensures online && call.Delivered? && IsSuccessful(call.response.code) && call.response.dataSessionId.None? ==>
              x.result == Err(UnknownError("Error in executeChallenge", Some(JsonReadFailure)))
    ensures online && call.TransportFailed? ==> x.result == Err(ToIDDigitalError(call.error, "Error in executeChallenge"))
  {
    Send(online, Request(JoinUrl(baseUrl, "challenges/" + challengeId + "/execute/"), RawText("{}")),
         Recover(ReadPayload(call, (r: Response) => r.dataSessionId), "Error in executeChallenge"))
  }

  /** `validateChallenge`: POST challenges/{id}/validate/; returns Unit, so there is no negative
      outcome, and every failed response throws its status error. */
  function ValidateChallenge(online: bool, baseUrl: string, challengeId: string, call: Transport): (x: Exchange<()>)
    ensures x.sent.Some? <==> online
    ensures !online ==> x.result == Err(NoInternetConnection)
    ensures online ==> x.sent.value == Request(JoinUrl(baseUrl, "challenges/" + challengeId + "/validate/"), RawText("{}"))
    ensures x.result.Ok? <==> online && call.Delivered? && IsSuccessful(call.response.code)
    ensures online && call.Delivered? && !IsSuccessful(call.response.code) ==>
              x.result == Err(StatusError(call.response.code, Some(call.response.body)))
    ensures online && call.TransportFailed? ==> x.result == Err(ToIDDigitalError(call.error, "Error in validateChallenge"))
  {
    Send(online, Request(JoinUrl(baseUrl, "challenges/" + challengeId + "/validate/"), RawText("{}")),
         Recover(CheckStatus(call), "Error in validateChallenge"))
  }

  /** The liveness validation never looks at the backend's error code: two responses that differ
      only in it give the same outcome, even "invalid-pin". */
  lemma ValidateIgnoresErrorCode(online: bool, baseUrl: string, challengeId: string, r: Response, code: Option<string>)
    ensures ValidateChallenge(online, baseUrl, challengeId, Delivered(r)) ==
            ValidateChallenge(online, baseUrl, challengeId, Delivered(r.(errorCode := code)))
  {
  }
}
