/**
 * `PollinationsTextStream` end to end: build the request, hand it to the
 * network, refuse any status other than 200, and relay the body.
 */
module TextStream {
  import opened Wrappers
  import opened Request
  import opened Relay

  /** Text in front of every upstream status error. */
  const ErrorPrefix: string := "Pollinations API returned an error: "

  /**
   * The body of the upstream response: absent (the response is then read
   * whole with `text()`), or a stream given as its reads, each decoded to
   * text, followed by the message of a read that rejected, if one did.
   */
  datatype Body = NoBody(text: string) | Streamed(received: seq<string>, failure: Option<string>)

  datatype Response = Response(status: int, statusText: string, body: Body)

  /**
   * The single read of the error branch, decoded: "" when there is no body
   * stream or it ends at once (decoding `undefined` gives ""), the rejection
   * when the read fails.
   */
  function FirstRead(body: Body): Result<string, string> {
    match body
    case NoBody(_) => Ok("")
    case Streamed(received, failure) =>
      if |received| > 0 then Ok(received[0])
      else if failure.Some? then Err(failure.value)
      else Ok("")
  }

  /**
   * The status gate: a status other than exactly 200 raises an error whose
   * text is the first body read when that is non-empty, else the status
   * text (a rejected read raises its own error instead); 200 passes.
   */
  function StatusError(res: Response): Option<string> {
    if res.status != 200 then
      match FirstRead(res.body)
      case Ok(first) => Some(ErrorPrefix + (if first != "" then first else res.statusText))
      case Err(e) => Some(e)
    else None
  }

  /**
   * The whole call. `model` and `jsonMode` are `None` when the caller leaves
   * them `undefined`. `r` is the random draw behind the seed, `fetch` the
   * network (an `Err` being a rejected fetch), `parse` stands for
   * `JSON.parse(..).content` and `frame` for the event-source parser turning
   * the decoded reads into notifications.
   */
  function PollinationsTextStream(inputCode: string, model: Option<string>, systemPrompt: Option<string>,
                                  jsonMode: Option<bool>, r: real, fetch: RequestBody -> Result<Response, string>,
                                  parse: string -> Option<string>,
                                  frame: seq<string> -> seq<Notification>): (out: Result<Relayed, string>)
    requires 0.0 <= r < 1.0
    ensures var sent := fetch(BuildRequest(inputCode, model, systemPrompt, jsonMode, r));
            sent.Err? ==> out == Err(sent.error)
    // The status gate, stated on the response itself.
    ensures var sent := fetch(BuildRequest(inputCode, model, systemPrompt, jsonMode, r));
            sent.Ok? ==>
            var res := sent.value;
            (out.Err? <==> res.status != 200) &&
            (res.status != 200 && res.body.NoBody? ==> out.error == ErrorPrefix + res.statusText) &&
            (res.status != 200 && res.body.Streamed? ==>
               var received := res.body.received;
               (|received| > 0 && received[0] != "" ==> out.error == ErrorPrefix + received[0]) &&
               (|received| > 0 && received[0] == "" ==> out.error == ErrorPrefix + res.statusText) &&
               (|received| == 0 && res.body.failure.None? ==> out.error == ErrorPrefix + res.statusText) &&
               (|received| == 0 && res.body.failure.Some? ==> out.error == res.body.failure.value))
    // What a successful call relays.
    ensures var sent := fetch(BuildRequest(inputCode, model, systemPrompt, jsonMode, r));
            var mode := jsonMode == Some(true);
            sent.Ok? && out.Ok? ==>
            var res := sent.value;
            (res.body.Streamed? ==>
               var expected := Expected([], frame(res.body.received), mode, parse);
               out.value.chunks == expected.chunks &&
               out.value.state == (if res.body.failure.Some? && expected.state == Open then Errored
                                   else expected.state)) &&
            (res.body.NoBody? ==>
               var t := Text(res.body.text, mode, parse);
               out.value == (if t.Some? then Relayed([t.value], Closed) else Relayed([], Errored)))
  {
    var mode := jsonMode.GetOr(false);
    match fetch(BuildRequest(inputCode, model, systemPrompt, jsonMode, r))
    case Err(e) => Err(e)
    case Ok(res) =>
      match StatusError(res)
      case Some(message) => Err(message)
      case None =>
        match res.body
        case NoBody(text) => Ok(Bodiless(text, mode, parse))
        case Streamed(received, failure) =>
          var relayed := Feed(Start, frame(received), mode, parse);
          FeedMatchesExpected([], frame(received), mode, parse);
          Ok(if failure.Some? then Abort(relayed) else relayed)
  }
}
