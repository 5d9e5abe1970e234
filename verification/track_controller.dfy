/**
 * The HTTP actions of the track API as decision functions: from whether the id was
 * found, the decoded request body and what the service does with it, to the status and
 * JSON body of the response, together with the payload handed to the service, if any.
 */
module TrackController {
  import opened Wrappers
  import opened Php
  import opened TrackService

  const HttpOk := 200
  const HttpCreated := 201
  const HttpBadRequest := 400
  const HttpNotFound := 404

  const InvalidJsonMessage := "Invalid JSON data"
  const NotFoundMessage := "Track not found"

  /** What the service call returned, or the message of the InvalidArgumentException it threw. */
  datatype ServiceResult = Stored(track: TrackData) | Rejected(message: string)

  datatype Body = ErrorBody(error: string) | TrackBody(track: TrackData) | TrackListBody(tracks: seq<TrackData>)

  datatype Response = Response(status: int, body: Body)

  /** A response and the payload the action handed to the service (`None`: not called). */
  datatype Exchange = Exchange(response: Response, serviceInput: Option<Payload>)

  /**
   * `!$data` after `json_decode`: undecodable text and `null` decode to `None`;
   * an empty object or array decodes to the empty map.
   */
  predicate FalsyBody(decoded: Option<Payload>)
    ensures !FalsyBody(decoded) ==> decoded.Some? && |decoded.value| > 0
    ensures decoded == Some(map[]) ==> FalsyBody(decoded)
  {
    decoded.None? || decoded.value == map[]
  }

  /** GET /api/tracks: every stored track, as the repository lists them. */
  function Index(all: seq<TrackData>): (r: Response)
    ensures r.status == HttpOk && r.body.TrackListBody? && r.body.tracks == all
  {
    Response(HttpOk, TrackListBody(all))
  }

  /** The response for a service result: `success` with the track, or 400 with the message. */
  function Respond(result: ServiceResult, success: int): (r: Response)
    ensures result.Stored? ==> r == Response(success, TrackBody(result.track))
    ensures result.Rejected? ==> r == Response(HttpBadRequest, ErrorBody(result.message))
  {
    match result
    case Stored(t) => Response(success, TrackBody(t))
    case Rejected(m) => Response(HttpBadRequest, ErrorBody(m))
  }

  /** POST /api/tracks. */
  function Create(decoded: Option<Payload>, createTrack: Payload -> ServiceResult): (x: Exchange)
    ensures x.serviceInput.Some? <==> !FalsyBody(decoded)
    ensures x.serviceInput.Some? ==> x.serviceInput.value == decoded.value
    ensures FalsyBody(decoded) ==> x.response == Response(HttpBadRequest, ErrorBody(InvalidJsonMessage))
    ensures x.response.status == HttpCreated <==> !FalsyBody(decoded) && createTrack(decoded.value).Stored?
    ensures x.response.status != HttpCreated ==> x.response.status == HttpBadRequest && x.response.body.ErrorBody?
    ensures !FalsyBody(decoded) ==> x.response == Respond(createTrack(decoded.value), HttpCreated)
  {
    if FalsyBody(decoded) then
      Exchange(Response(HttpBadRequest, ErrorBody(InvalidJsonMessage)), None)
    else
      Exchange(Respond(createTrack(decoded.value), HttpCreated), Some(decoded.value))
  }

  /**
   * PUT /api/tracks/{id}: `found` is the repository's lookup of the id. An unknown id
   * answers 404 before the body is looked at.
   */
  function Update(found: Option<TrackData>, decoded: Option<Payload>,
                  updateTrack: (TrackData, Payload) -> ServiceResult): (x: Exchange)
    ensures found.None? ==> x == Exchange(Response(HttpNotFound, ErrorBody(NotFoundMessage)), None)
    ensures x.serviceInput.Some? <==> found.Some? && !FalsyBody(decoded)
    ensures x.serviceInput.Some? ==> x.serviceInput.value == decoded.value
    ensures found.Some? && FalsyBody(decoded) ==>
      x.response == Response(HttpBadRequest, ErrorBody(InvalidJsonMessage))
    ensures x.response.status == HttpOk <==>
      found.Some? && !FalsyBody(decoded) && updateTrack(found.value, decoded.value).Stored?
    ensures found.Some? && !FalsyBody(decoded) ==>
      x.response == Respond(updateTrack(found.value, decoded.value), HttpOk)
  {
    if found.None? then
      Exchange(Response(HttpNotFound, ErrorBody(NotFoundMessage)), None)
    else if FalsyBody(decoded) then
      Exchange(Response(HttpBadRequest, ErrorBody(InvalidJsonMessage)), None)
    else
      Exchange(Respond(updateTrack(found.value, decoded.value), HttpOk), Some(decoded.value))
  }

  /**
   * POST with an empty JSON object: it decodes to an empty array, which is falsy, so the
   * answer is "Invalid JSON data" and the validator is never consulted.
   */
  lemma EmptyObjectIsInvalidJson(createTrack: Payload -> ServiceResult)
    ensures Create(Some(map[]), createTrack) ==
      Exchange(Response(HttpBadRequest, ErrorBody(InvalidJsonMessage)), None)
  {
  }
}
