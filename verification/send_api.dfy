/**
 * The `POST /api/send` handler: decode the body, call `sendEmail`, and map the
 * outcome to an HTTP status. Body decoding and the relay are given as values.
 */
module SendApi {
  import opened Mailer

  /** The outcome of decoding the JSON request body. */
  datatype Parsed = ParseError | Decoded(req: Request)

  /** The status sent back, and the submissions handed to the relay while handling the request. */
  datatype Response = Response(status: int, submitted: seq<Submission>)

  const StatusOk: int := 200
  const StatusBadRequest: int := 400

  /**
   * A body that does not decode gives 400 with nothing submitted; otherwise
   * exactly the resolved submission goes to the relay, and the status is 200
   * when it is delivered and 400 when the relay reports an error.
   */
  function HandleSend(cfg: Settings, parsed: Parsed, relay: Submission -> SendResult): (r: Response)
    ensures r.status == StatusOk || r.status == StatusBadRequest
    ensures parsed.ParseError? ==> r.status == StatusBadRequest && r.submitted == []
    ensures parsed.Decoded? ==> r.submitted == [Resolve(cfg, parsed.req)]
    ensures r.status == StatusOk <==> parsed.Decoded? && relay(Resolve(cfg, parsed.req)).Delivered?
  {
    match parsed
    case ParseError => Response(StatusBadRequest, [])
    case Decoded(req) =>
      var attempt := SendEmail(cfg, req, relay);
      if attempt.result.RelayError? then Response(StatusBadRequest, attempt.submitted)
      else Response(StatusOk, attempt.submitted)
  }

  /**
   * The two failure causes are indistinguishable to the caller: a decode error
   * and a relay error give the same status.
   */
  lemma FailuresLookAlike(cfg: Settings, req: Request, relay: Submission -> SendResult)
    requires relay(Resolve(cfg, req)).RelayError?
    ensures HandleSend(cfg, Decoded(req), relay).status == HandleSend(cfg, ParseError, relay).status
  {
  }
}
