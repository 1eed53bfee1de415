/** How `make_request` in bot.py turns the server's answer into an outcome. */
module Dispatch {

  import opened Text
  import Json

  /** The body as `response.json()` sees it: a decoded document, or text that does not decode
      (`response.json()` then raises with the decoder's message). */
  datatype Body = NotJson(decodeError: string) | JsonBody(value: Json.Value)

  /** What the network hands back for one POST: a transport fault (`requests.post` raised), or a
      response with its status code, its body and its raw text. */
  datatype Reply =
    | TransportFault(error: string)
    | Received(status: int, body: Body, text: string)

  /** Why a task failed: the API answered with something unrecognised (shown with the response
      text), or an exception was caught (shown with its message). */
  datatype FailureDetail = Rejected(responseText: string) | Fault(message: string)

  /** The tri-state outcome of one dispatch. */
  datatype Outcome = Succeeded | AlreadyCompleted | Failed(detail: FailureDetail)
  {
    /** The boolean `make_request` returns: an already-completed quest does not count as failed. */
    predicate IsSuccess()
    {
      !Failed?
    }
  }

  /** The API's "nothing to do" answer: a JSON object that has the keys `statusCode`, `data` and
      `message`, with `data` equal to null. Other keys may be present too. */
  predicate IsNullDataEnvelope(v: Json.Value)
  {
    match v
    case JObject(fields) =>
      && "statusCode" in fields && "data" in fields && "message" in fields
      && fields["data"] == Json.JNull
    case _ => false
  }

  /** The text a 401 response must contain to be read as "quest already completed". */
  const InvalidTmaMarker: string := "Invalid TMA authentication"

  /** The classification of `make_request`. The body is decoded before any status is looked at,
      so an undecodable body fails whatever its status. Among decoded bodies: a 400 null-data
      envelope, then status 201, then a 401 mentioning the marker, then everything else. */
  function Classify(reply: Reply): Outcome
  {
    match reply
    case TransportFault(error) => Failed(Fault(error))
    case Received(status, NotJson(error), _) => Failed(Fault(error))
    case Received(status, JsonBody(value), text) =>
      if status == 400 && IsNullDataEnvelope(value) then Succeeded
      else if status == 201 then Succeeded
      else if status == 401 && Contains(text, InvalidTmaMarker) then AlreadyCompleted
      else Failed(Rejected(text))
  }

  /** What each outcome means, case by case, with the marker test stated as "occurs at some
      position": success exactly for a decoded 400 envelope or a decoded 201; already completed
      exactly for a decoded 401 whose text holds the marker; a rejection carrying the response
      text for every other decoded answer; a fault carrying the error when nothing decodable came
      back. */
  lemma ClassifyMeaning(reply: Reply)
    ensures Classify(reply).Succeeded? <==>
              && reply.Received? && reply.body.JsonBody?
              && ((reply.status == 400 && IsNullDataEnvelope(reply.body.value)) || reply.status == 201)
    ensures Classify(reply).AlreadyCompleted? <==>
              && reply.Received? && reply.body.JsonBody?
              && reply.status == 401
              && exists i :: OccursAt(reply.text, InvalidTmaMarker, i)
    ensures Classify(reply).Failed? && Classify(reply).detail.Rejected? <==>
              && reply.Received? && reply.body.JsonBody?
              && !(reply.status == 400 && IsNullDataEnvelope(reply.body.value))
              && reply.status != 201
              && !(reply.status == 401 && exists i :: OccursAt(reply.text, InvalidTmaMarker, i))
    ensures Classify(reply).Failed? && Classify(reply).detail.Rejected? ==> Classify(reply).detail.responseText == reply.text
    ensures Classify(reply).Failed? && Classify(reply).detail.Fault? <==> reply.TransportFault? || reply.body.NotJson?
    ensures reply.TransportFault? ==> Classify(reply) == Failed(Fault(reply.error))
    ensures reply.Received? && reply.body.NotJson? ==> Classify(reply) == Failed(Fault(reply.body.decodeError))
  {
    if reply.Received? {
      ContainsIff(reply.text, InvalidTmaMarker);
    }
  }

  /** `make_request`'s boolean: true exactly for the three recognised answers. */
  lemma SuccessFlag(reply: Reply)
    ensures Classify(reply).IsSuccess() <==>
              && reply.Received? && reply.body.JsonBody?
              && (|| (reply.status == 400 && IsNullDataEnvelope(reply.body.value))
                  || reply.status == 201
                  || (reply.status == 401 && exists i :: OccursAt(reply.text, InvalidTmaMarker, i)))
  {
    ClassifyMeaning(reply);
  }

  /** A status other than 400, 201 and 401 always fails, with the response text as detail, or with
      the fault message when there was no decodable response. */
  lemma OtherStatusFails(reply: Reply)
    requires reply.Received? ==> reply.status !in {400, 201, 401}
    ensures Classify(reply).Failed?
    ensures reply.Received? && reply.body.JsonBody? ==> Classify(reply) == Failed(Rejected(reply.text))
  {
  }

  /** The marker means "already completed" on a 401 only: on any other status it is ignored. */
  lemma MarkerOnlyCountsOn401(reply: Reply)
    requires reply.Received? && reply.status != 401
    ensures !Classify(reply).AlreadyCompleted?
  {
  }
}
