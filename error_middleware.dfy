/** The error middleware: a first-match classification of whatever error
    a handler passed to next(), into the error envelope; and the handler
    that answers requests no route matched. */
module ErrorMiddleware {
  import opened Wrappers
  import opened JsValues
  import opened Http

  const ParseFailed := "entity.parse.failed"
  const DefaultMessage := "Something went wrong"

  /** What the middleware does: send a response (and say whether it
      logged), or throw a TypeError itself, when a ZodError has no
      `errors` list or a code-11000 error has no `keyValue` object. */
  datatype Handled = Replied(response: Response, logged: bool) | Threw

  predicate IsParseFailure(e: ErrorObject) { e.errorType == Some(ParseFailed) }
  predicate IsZodError(e: ErrorObject) { e.name == Some("ZodError") }
  predicate IsDuplicateKey(e: ErrorObject) { e.code == Some(11000) }
  predicate IsCastError(e: ErrorObject) { e.name == Some("CastError") }

  /** One of the four probes that come before the fallback. */
  predicate Recognised(e: ErrorObject)
  {
    IsParseFailure(e) || IsZodError(e) || IsDuplicateKey(e) || IsCastError(e)
  }

  function ErrorReply(status: int, message: Option<string>): Handled
  {
    Replied(Response(status, Envelope("error", Some(status), message, None)), false)
  }

  /** The ZodError branch: errors[0]?.path[0], ?.expected, ?.received read
      as undefined when there is no first issue. */
  function ZodReply(issues: seq<Issue>): Handled
  {
    if |issues| > 0 && issues[0].code == "invalid_type" then
      var first := issues[0];
      var key := if |first.path| > 0 then Some(first.path[0]) else None;
      ErrorReply(400, Some(Show(key) + " should be a " + Show(first.expected) + " not " + Show(first.received)))
    else
      ErrorReply(400, if |issues| > 0 then issues[0].message else None)
  }

  /** errorMiddleware. `statusCode || 500` and `message || default` treat
      0 and "" as absent. */
  function Handle(e: ErrorObject): (h: Handled)
    // the first probe that matches decides, in this order
    ensures IsParseFailure(e) ==>
              h == Replied(Response(400, Envelope("error", None, Some("Bad JSON request body"), None)), false)
    ensures !IsParseFailure(e) && IsZodError(e) ==>
              if e.errors.None? then h.Threw?
              else h == ZodReply(e.errors.value)
    ensures !IsParseFailure(e) && !IsZodError(e) && IsDuplicateKey(e) ==>
              if e.keyValue.None? then h.Threw?
              else h == ErrorReply(400, Some(Show(if |e.keyValue.value| > 0 then Some(e.keyValue.value[0]) else None)
                                             + " already exist"))
    ensures !IsParseFailure(e) && !IsZodError(e) && !IsDuplicateKey(e) && IsCastError(e) ==>
              h == ErrorReply(400, Some("Invalid resource ID"))
    // the fallback: the carried status code and message, or the defaults
    ensures !Recognised(e) ==> h.Replied? && h.logged
    ensures !Recognised(e) ==>
              (h.response.status == 500 <==> e.statusCode.None? || e.statusCode == Some(0) || e.statusCode == Some(500))
    ensures !Recognised(e) && e.statusCode.Some? && e.statusCode.value != 0 ==> h.response.status == e.statusCode.value
    ensures !Recognised(e) ==>
              h.response.body.message ==
              Some(if e.message.None? || e.message == Some("") then DefaultMessage else e.message.value)
    // what holds of every reply
    ensures h.Replied? ==> h.response.body.status == "error" && h.response.body.data.None?
    ensures h.Replied? ==> (h.logged <==> !Recognised(e))
    ensures h.Replied? && Recognised(e) ==> h.response.status == 400
    ensures h.Replied? ==> (h.response.body.statusCode.None? <==> IsParseFailure(e))
    ensures h.Replied? && h.response.body.statusCode.Some? ==> h.response.body.statusCode.value == h.response.status
  {
    if IsParseFailure(e) then
      Replied(Response(400, Envelope("error", None, Some("Bad JSON request body"), None)), false)
    else if IsZodError(e) then
      match e.errors
      case None => Threw
      case Some(issues) => ZodReply(issues)
    else if IsDuplicateKey(e) then
      match e.keyValue
      case None => Threw
      case Some(keys) => ErrorReply(400, Some(Show(if |keys| > 0 then Some(keys[0]) else None) + " already exist"))
    else if IsCastError(e) then
      ErrorReply(400, Some("Invalid resource ID"))
    else
      var status := if e.statusCode.Some? && e.statusCode.value != 0 then e.statusCode.value else 500;
      var message := if e.message.Some? && e.message.value != "" then e.message.value else DefaultMessage;
      Replied(Response(status, Envelope("error", Some(status), Some(message), None)), true)
  }

  /** A ZodError whose first issue is invalid_type gets
      "<path[0]> should be a <expected> not <received>". */
  lemma ZodTypeIssueMessage(e: ErrorObject, key: string, expected: string, received: string)
    requires !IsParseFailure(e) && IsZodError(e)
    requires FirstIssue(e).Some? && FirstIssue(e).value.code == "invalid_type"
    requires |FirstIssue(e).value.path| > 0 && FirstIssue(e).value.path[0] == key
    requires FirstIssue(e).value.expected == Some(expected) && FirstIssue(e).value.received == Some(received)
    ensures Handle(e) == ErrorReply(400, Some(key + " should be a " + expected + " not " + received))
  {
  }

  /** A ZodError whose first issue has any other code gets that issue's
      own message; one with an empty list gets no message at all. */
  lemma ZodOtherIssueMessage(e: ErrorObject)
    requires !IsParseFailure(e) && IsZodError(e) && e.errors.Some?
    requires FirstIssue(e).None? || FirstIssue(e).value.code != "invalid_type"
    ensures Handle(e) == ErrorReply(400, if FirstIssue(e).Some? then FirstIssue(e).value.message else None)
  {
  }

  /** An unrecognised error without a status code and with a non-empty
      message: 500 with that message, logged. */
  lemma FallbackKeepsMessage(e: ErrorObject)
    requires !Recognised(e) && e.statusCode.None? && e.message.Some? && e.message.value != ""
    ensures Handle(e) == Replied(Response(500, Envelope("error", Some(500), e.message, None)), true)
  {
  }

  /** unhandledRoutes: 404 for a method and URL no route matched. */
  function UnhandledRoutes(verb: string, originalUrl: string): (r: Response)
    ensures r.status == 404 && r.body.status == "error" && r.body.statusCode == Some(404) && r.body.data.None?
    ensures r.body.message == Some(verb + " request to: " + originalUrl + " not available on this server!")
  {
    Response(404, Envelope("error", Some(404), Some(verb + " request to: " + originalUrl + " not available on this server!"), None))
  }

  /** A request like POST /nope gets the documented message. */
  lemma UnhandledPostNope()
    ensures UnhandledRoutes("POST", "/nope").body.message == Some("POST request to: /nope not available on this server!")
  {
    assert "POST" + " request to: " == "POST request to: ";
    assert "POST request to: " + "/nope" == "POST request to: /nope";
    assert "POST request to: /nope" + " not available on this server!"
           == "POST request to: /nope not available on this server!";
  }

  /** A body that is not valid JSON gets 400 "Bad JSON request body". */
  lemma MalformedJsonIs400(detail: string)
    ensures Handle(BodyParseError(detail)).response == Response(400, Envelope("error", None, Some("Bad JSON request body"), None))
  {
  }
}
