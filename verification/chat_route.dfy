/** The chat endpoint `POST /api/chat`: a session gate, a shape check on the
    body, a bound on the number of messages, then a streamed answer from the
    upstream model. Anything thrown on the way is caught and turned into an
    `upstream_error` envelope whose status is chosen by looking for marker
    words in the lower-cased error message. */
module ChatRoute {
  import opened Wrappers
  import opened JsStrings
  import Auth

  /** A value thrown inside the handler: whether it is an `Error` instance,
      and the message it carries (only read when it is one). */
  datatype Thrown = Thrown(isError: bool, message: JsString)

  /** What `auth()` did: resolved to a session or to null, or threw. */
  datatype SessionLookup = Resolved(session: Option<Auth.AuthSession>) | LookupThrew(thrown: Thrown)

  /** What reading the request body gave. `ParseFails` is an `Error` thrown
      while reading it (malformed JSON, or a null body whose `messages` cannot
      be read); `NoMessages` is a falsy `messages` field; `NotArray` a truthy
      field that is not an array; `MessageArray` an array of that length. */
  datatype RequestBody = ParseFails(message: JsString) | NoMessages | NotArray | MessageArray(count: nat)

  /** What the upstream step did: building the provider, converting the
      messages and calling `streamText` either returned the stream response
      or threw synchronously. Which provider failures throw here, rather than
      arriving inside the streamed 200 answer, is decided by the model SDK. */
  datatype Upstream = Ok | Throws(thrown: Thrown)

  datatype ErrorCode = Unauthorized | ValidationError | UpstreamError

  /** The `code` string of the JSON error envelope. */
  function CodeName(c: ErrorCode): (r: JsString)
    ensures r == Js("unauthorized") || r == Js("validation_error") || r == Js("upstream_error")
  {
    match c
    case Unauthorized => Js("unauthorized")
    case ValidationError => Js("validation_error")
    case UpstreamError => Js("upstream_error")
  }

  /** The `error` object of a JSON failure body. */
  datatype ErrorEnvelope = ErrorEnvelope(code: ErrorCode, message: JsString, statusCode: int, requestId: Option<JsString>)

  /** A streamed UI-message answer, or a JSON error body. */
  datatype Payload = MessageStream | JsonError(error: ErrorEnvelope)

  datatype Response = Response(status: int, payload: Payload)

  /** The response, and whether the upstream step (building the provider,
      converting the messages, calling `streamText`) was reached. */
  datatype Exchange = Exchange(response: Response, upstreamCalled: bool)

  /** The most messages one request may carry. */
  const MaxMessages: nat := 20

  const AuthMarkers: seq<JsString> := [Js("api key"), Js("unauthorized"), Js("401")]
  const RateLimitMarkers: seq<JsString> := [Js("rate limit"), Js("429")]
  const NetworkMarkers: seq<JsString> := [Js("network"), Js("fetch"), Js("503"), Js("502")]

  const AuthRequiredText: JsString := Js("Authentication required")
  const MissingArrayText: JsString := Js("Invalid request format: messages array required")

  const AuthFailedMessage: JsString := Js("AI service authentication failed")
  const BusyMessage: JsString := Js("Service temporarily busy. Please wait and try again.")
  const UnavailableMessage: JsString := Js("AI service temporarily unavailable")
  const GenericMessage: JsString := Js("Unable to generate response. Please try again.")

  /** Some marker occurs in `text`. */
  predicate MentionsAny(text: JsString, markers: seq<JsString>) {
    exists m :: m in markers && Includes(text, m)
  }

  /** The statuses the catch block can answer with. */
  predicate IsCaughtStatus(status: int) {
    status == 401 || status == 429 || status == 503 || status == 500
  }

  /** The user-facing text that goes with each status of the catch block. */
  function UserMessageFor(status: int): JsString {
    if status == 401 then AuthFailedMessage
    else if status == 429 then BusyMessage
    else if status == 503 then UnavailableMessage
    else GenericMessage
  }

  /** The status and user-facing message the catch block picks. */
  datatype Classification = Classification(status: int, userMessage: JsString)

  /** The catch block's mapping from a thrown value to a status: a value that
      is not an `Error` gets 500; otherwise the lower-cased message is checked
      for authentication, then rate-limit, then network markers. */
  function Classify(e: Thrown): (c: Classification)
    ensures IsCaughtStatus(c.status)
    ensures c.userMessage == UserMessageFor(c.status)
    ensures !e.isError ==> c.status == 500
  {
    if !e.isError then Classification(500, GenericMessage)
    else
      var text := ToLowerAscii(e.message);
      if MentionsAny(text, AuthMarkers) then Classification(401, AuthFailedMessage)
      else if MentionsAny(text, RateLimitMarkers) then Classification(429, BusyMessage)
      else if MentionsAny(text, NetworkMarkers) then Classification(503, UnavailableMessage)
      else Classification(500, GenericMessage)
  }

  /** A marker group and the status it selects. */
  datatype Rule = Rule(markers: seq<JsString>, status: int)

  /** The classification written as a priority table. */
  const Rules: seq<Rule> :=
    [Rule(AuthMarkers, 401), Rule(RateLimitMarkers, 429), Rule(NetworkMarkers, 503)]

  /** The status of the first rule one of whose markers occurs in `text`, or
      500 when none does. */
  function FirstMatch(text: JsString, rules: seq<Rule>): int {
    if rules == [] then 500
    else if MentionsAny(text, rules[0].markers) then rules[0].status
    else FirstMatch(text, rules[1..])
  }

  /** For an `Error`, the catch block's status is the first matching rule of
      the priority table applied to the lower-cased message. */
  lemma ClassifyIsFirstMatchingRule(e: Thrown)
    requires e.isError
    ensures Classify(e).status == FirstMatch(ToLowerAscii(e.message), Rules)
  {
    var text := ToLowerAscii(e.message);
    assert Rules[1..][1..][1..] == [];
    assert FirstMatch(text, Rules[1..][1..]) == (if MentionsAny(text, NetworkMarkers) then 503 else 500);
  }

  /** An authentication marker wins over every other marker. */
  lemma AuthMarkerWins(e: Thrown)
    requires e.isError && MentionsAny(ToLowerAscii(e.message), AuthMarkers)
    ensures Classify(e).status == 401
  {
  }

  /** A rate-limit marker wins over network markers. */
  lemma RateLimitBeatsNetwork(e: Thrown)
    requires e.isError
    requires !MentionsAny(ToLowerAscii(e.message), AuthMarkers)
    requires MentionsAny(ToLowerAscii(e.message), RateLimitMarkers)
    ensures Classify(e).status == 429
  {
  }

  /** Marker tests ignore ASCII case: lower-casing the message first changes
      nothing. */
  lemma ClassifyIgnoresCase(message: JsString)
    ensures Classify(Thrown(true, ToLowerAscii(message))) == Classify(Thrown(true, message))
  {
    ToLowerAsciiIdempotent(message);
  }

  /** A thrown value that is not an `Error` gets 500 whatever it says. */
  lemma NonErrorIsGeneric(message: JsString)
    ensures Classify(Thrown(false, message)) == Classification(500, GenericMessage)
  {
  }

  /** An invalid-key failure is an authentication failure, whatever the
      case it is written in. */
  lemma InvalidKeyIsAuthFailure()
    ensures Classify(Thrown(true, Js("Invalid API Key"))).status == 401
  {
    var text := ToLowerAscii(Js("Invalid API Key"));
    assert OccursAt(text, Js("api key"), 8);
    IncludesIffOccurs(text, Js("api key"));
    assert Js("api key") in AuthMarkers;
  }

  /** A message naming both `429` and `401` is an authentication failure:
      the rate-limit marker is there, but the authentication test runs first. */
  lemma BothStatusesMeansAuthFailure(message: JsString)
    requires Includes(ToLowerAscii(message), Js("429"))
    requires Includes(ToLowerAscii(message), Js("401"))
    ensures MentionsAny(ToLowerAscii(message), RateLimitMarkers)
    ensures Classify(Thrown(true, message)) == Classification(401, AuthFailedMessage)
  {
    assert Js("429") in RateLimitMarkers;
    assert Js("401") in AuthMarkers;
  }

  /** The three codes are different strings, so a client can tell an
      unauthenticated request, a rejected body and a caught failure apart. */
  lemma CodeNamesDistinct(c: ErrorCode, d: ErrorCode)
    requires c != d
    ensures CodeName(c) != CodeName(d)
  {
    assert |CodeName(Unauthorized)| == 12;
    assert |CodeName(ValidationError)| == 16;
    assert |CodeName(UpstreamError)| == 14;
  }

  /** `session?.user` is truthy. */
  predicate HasUser(session: Option<Auth.AuthSession>) {
    session.Some? && session.value.user.Some?
  }

  /** The text of the 422 envelope, with the received count in decimal. */
  function CountMessage(count: nat): JsString {
    Js("Message count must be between 1 and 20 (received ") + DecimalString(count) + Js(")")
  }

  /** The invariant every answer keeps: a stream exactly when the status is
      200; in an error body, `statusCode` equals the status and a request id
      is present exactly for caught failures, whose status is one of the
      catch block's four. */
  predicate WellFormed(r: Response, requestId: JsString) {
    && (r.status == 200 <==> r.payload.MessageStream?)
    && (r.payload.JsonError? ==>
          && r.payload.error.statusCode == r.status
          && (r.payload.error.requestId.Some? <==> r.payload.error.code == UpstreamError)
          && (r.payload.error.requestId.Some? ==> r.payload.error.requestId.value == requestId)
          && (r.payload.error.code == UpstreamError ==> IsCaughtStatus(r.status)))
  }

  /** The envelope every caught failure produces. */
  function Caught(requestId: JsString, e: Thrown, upstreamCalled: bool): (x: Exchange)
    ensures WellFormed(x.response, requestId)
    ensures x.response.status == Classify(e).status
    ensures x.response.payload.JsonError? && x.response.payload.error.code == UpstreamError
    ensures x.upstreamCalled == upstreamCalled
  {
    var c := Classify(e);
    Exchange(
      Response(c.status, JsonError(ErrorEnvelope(UpstreamError, c.userMessage, c.status, Some(requestId)))),
      upstreamCalled)
  }

  /** A JSON error answered before anything was thrown: it carries no
      request id and the upstream is not called. */
  function EarlyError(code: ErrorCode, message: JsString, status: int): (x: Exchange)
    requires code != UpstreamError && status != 200
    ensures forall requestId :: WellFormed(x.response, requestId)
    ensures !x.upstreamCalled
  {
    Exchange(Response(status, JsonError(ErrorEnvelope(code, message, status, None))), false)
  }

  /** `POST(req)`, with the request id, the session lookup, the body and the
      upstream call's behaviour as inputs. */
  function Post(requestId: JsString, lookup: SessionLookup, body: RequestBody, upstream: Upstream): (x: Exchange)
    ensures WellFormed(x.response, requestId)
    ensures x.upstreamCalled <==>
      && lookup.Resolved? && HasUser(lookup.session)
      && body.MessageArray? && 1 <= body.count <= MaxMessages
  {
    match lookup
    case LookupThrew(e) => Caught(requestId, e, false)
    case Resolved(session) =>
      if !HasUser(session) then EarlyError(Unauthorized, AuthRequiredText, 401)
      else
        match body
        case ParseFails(m) => Caught(requestId, Thrown(true, m), false)
        case NoMessages => EarlyError(ValidationError, MissingArrayText, 400)
        case NotArray => EarlyError(ValidationError, MissingArrayText, 400)
        case MessageArray(n) =>
          if n == 0 || n > MaxMessages then EarlyError(ValidationError, CountMessage(n), 422)
          else
            match upstream
            case Ok => Exchange(Response(200, MessageStream), true)
            case Throws(e) => Caught(requestId, e, true)
  }

  /** Without a signed-in user the answer is 401 `unauthorized`, whatever
      the body and the upstream would have done, and the upstream is never
      called. */
  lemma NoUserGets401(requestId: JsString, session: Option<Auth.AuthSession>, body: RequestBody, upstream: Upstream)
    requires !HasUser(session)
    ensures Post(requestId, Resolved(session), body, upstream)
      == Exchange(Response(401, JsonError(ErrorEnvelope(Unauthorized, AuthRequiredText, 401, None))), false)
  {
  }

  /** With a user, a falsy or non-array `messages` field is a 400
      `validation_error`, never a count error, whatever the upstream would
      have done. */
  lemma MissingArrayGets400(requestId: JsString, session: Option<Auth.AuthSession>, body: RequestBody, upstream: Upstream)
    requires HasUser(session)
    requires body.NoMessages? || body.NotArray?
    ensures Post(requestId, Resolved(session), body, upstream)
      == Exchange(Response(400, JsonError(ErrorEnvelope(ValidationError, MissingArrayText, 400, None))), false)
  {
  }

  /** The count's decimal text sits just before the closing parenthesis. */
  lemma CountMessageEndsWithCount(n: nat)
    ensures CountMessage(n)[|CountMessage(n)| - 1 - |DecimalString(n)|..|CountMessage(n)| - 1] == DecimalString(n)
  {
    var head := Js("Message count must be between 1 and 20 (received ");
    var digits := DecimalString(n);
    var m := head + digits + Js(")");
    assert m[|head|..|head| + |digits|] == digits;
  }

  /** With a user, an array that is empty or longer than twenty is a 422
      `validation_error` whose message reports the count it received; an
      empty array is truthy, so it reaches this check rather than the 400. */
  lemma CountOutOfRangeGets422(requestId: JsString, session: Option<Auth.AuthSession>, n: nat, upstream: Upstream)
    requires HasUser(session)
    requires n == 0 || n > MaxMessages
    ensures Post(requestId, Resolved(session), MessageArray(n), upstream)
      == Exchange(Response(422, JsonError(ErrorEnvelope(ValidationError, CountMessage(n), 422, None))), false)
    ensures DecimalValue(CountMessage(n)[|CountMessage(n)| - 1 - |DecimalString(n)|..|CountMessage(n)| - 1]) == n
  {
    CountMessageEndsWithCount(n);
    DecimalRoundTrip(n);
  }

  /** A request answered with a stream is exactly one with a user, between
      one and twenty messages, and an upstream call that did not throw. */
  lemma StreamsIff(requestId: JsString, lookup: SessionLookup, body: RequestBody, upstream: Upstream)
    ensures Post(requestId, lookup, body, upstream).response.status == 200 <==>
      && lookup.Resolved? && HasUser(lookup.session)
      && body.MessageArray? && 1 <= body.count <= MaxMessages
      && upstream.Ok?
  {
  }

  /** Every failure after the session and shape checks goes through the
      catch block: the status is the classifier's, the code is
      `upstream_error`, and the request id is reported. */
  lemma UpstreamFailureIsClassified(requestId: JsString, session: Option<Auth.AuthSession>, n: nat, e: Thrown)
    requires HasUser(session)
    requires 1 <= n <= MaxMessages
    ensures var x := Post(requestId, Resolved(session), MessageArray(n), Throws(e));
      && x.upstreamCalled
      && x.response.status == Classify(e).status
      && x.response.payload == JsonError(ErrorEnvelope(UpstreamError, Classify(e).userMessage, Classify(e).status, Some(requestId)))
  {
  }

  /** A failure of the session lookup, or of reading the body, is
      classified the same way and never reaches the upstream. */
  lemma EarlyThrowsAreClassified(requestId: JsString, session: Option<Auth.AuthSession>, message: JsString,
                                 e: Thrown, body: RequestBody, upstream: Upstream)
    requires HasUser(session)
    ensures Post(requestId, LookupThrew(e), body, upstream) == Caught(requestId, e, false)
    ensures Post(requestId, Resolved(session), ParseFails(message), upstream) == Caught(requestId, Thrown(true, message), false)
  {
  }

  /** The `unauthorized` code appears exactly when the lookup found no user;
      an upstream authentication failure is also a 401 but is tagged
      `upstream_error`. */
  lemma UnauthorizedCodeIffNoUser(requestId: JsString, lookup: SessionLookup, body: RequestBody, upstream: Upstream)
    ensures var r := Post(requestId, lookup, body, upstream).response;
      (r.payload.JsonError? && r.payload.error.code == Unauthorized) <==> (lookup.Resolved? && !HasUser(lookup.session))
  {
  }

  /** A body that fails to parse goes through the same marker tests as an
      upstream failure, so a parser message that happens to mention `401` is
      answered as an upstream authentication failure. */
  lemma MalformedBodyCanReadAsAuthFailure(requestId: JsString, session: Option<Auth.AuthSession>,
                                          message: JsString, upstream: Upstream)
    requires HasUser(session)
    requires Includes(ToLowerAscii(message), Js("401"))
    ensures Post(requestId, Resolved(session), ParseFails(message), upstream)
      == Exchange(Response(401, JsonError(ErrorEnvelope(UpstreamError, AuthFailedMessage, 401, Some(requestId)))), false)
  {
    assert Js("401") in AuthMarkers;
  }

  /** A parser message of that kind: the offset it reports is `401`. */
  lemma MalformedBodyExample()
    ensures Includes(ToLowerAscii(Js("Unexpected token at position 401")), Js("401"))
  {
    var text := ToLowerAscii(Js("Unexpected token at position 401"));
    assert OccursAt(text, Js("401"), 29);
    IncludesIffOccurs(text, Js("401"));
  }

  /** Worked cases: one message streams; twenty-five messages are a 422;
      an upstream step that throws `Invalid API Key` is a 401 tagged
      `upstream_error`. */
  lemma ChatScenarios(requestId: JsString, session: Option<Auth.AuthSession>)
    requires HasUser(session)
    ensures Post(requestId, Resolved(session), MessageArray(1), Ok) == Exchange(Response(200, MessageStream), true)
    ensures Post(requestId, Resolved(session), MessageArray(25), Ok).response.status == 422
    ensures Post(requestId, Resolved(session), MessageArray(25), Ok).response.payload.error.code == ValidationError
    ensures Post(requestId, Resolved(session), MessageArray(1), Throws(Thrown(true, Js("Invalid API Key")))).response
      == Response(401, JsonError(ErrorEnvelope(UpstreamError, AuthFailedMessage, 401, Some(requestId))))
  {
    InvalidKeyIsAuthFailure();
  }
}
