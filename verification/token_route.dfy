/** The token endpoint `POST /api/assistant-ui-token`: a signed-in user with
    an email gets a bearer token for the hosted thread store, scoped to a user
    and workspace id derived from the email by replacing every character that
    is not a letter, digit, `-` or `_` with `-`. */
module TokenRoute {
  import opened Wrappers
  import opened JsStrings
  import Auth

  const Dash: CodeUnit := 0x2D
  const Underscore: CodeUnit := 0x5F

  /** The class `[a-zA-Z0-9-_]`, matched against one UTF-16 code unit: the pattern
      has no `u` flag, so it sees code units, and the `-` after the range
      `0-9` is a literal dash. */
  predicate IsIdUnit(u: CodeUnit) {
    || 0x61 <= u <= 0x7A
    || 0x41 <= u <= 0x5A
    || 0x30 <= u <= 0x39
    || u == Dash
    || u == Underscore
  }

  /** `email.replace(/[^a-zA-Z0-9-_]/g, "-")`, one code unit at a time. */
  function SanitizeUserId(email: JsString): (r: JsString)
    ensures |r| == |email|
    ensures forall i | 0 <= i < |r| :: IsIdUnit(r[i])
    ensures forall i | 0 <= i < |r| :: IsIdUnit(email[i]) ==> r[i] == email[i]
    ensures forall i | 0 <= i < |r| :: !IsIdUnit(email[i]) ==> r[i] == Dash
  {
    if email == [] then []
    else [if IsIdUnit(email[0]) then email[0] else Dash] + SanitizeUserId(email[1..])
  }

  /** Sanitising an already sanitised id changes nothing. */
  lemma SanitizeIdempotent(email: JsString)
    ensures SanitizeUserId(SanitizeUserId(email)) == SanitizeUserId(email)
  {
  }

  /** An id is left unchanged exactly when it is already made of allowed
      units. */
  lemma SanitizeFixedPoints(id: JsString)
    ensures SanitizeUserId(id) == id <==> forall i | 0 <= i < |id| :: IsIdUnit(id[i])
  {
    if SanitizeUserId(id) == id {
      assert forall i | 0 <= i < |id| :: IsIdUnit(SanitizeUserId(id)[i]);
    }
  }

  /** The result never contains `@`. */
  lemma SanitizedHasNoAt(email: JsString)
    ensures Js("@")[0] !in SanitizeUserId(email)
  {
  }

  const ExampleEmail: JsString := [0x61, 0x2E, 0x62, 0x2B, 0x63, 0x40, 0x78, 0x2E, 0x63, 0x6F, 0x6D]
  const ExampleId: JsString := [0x61, 0x2D, 0x62, 0x2D, 0x63, 0x2D, 0x78, 0x2D, 0x63, 0x6F, 0x6D]

  /** The example's units: `a.b+c@x.com` and `a-b-c-x-com`. */
  lemma ExampleUnits()
    ensures Js("a.b+c@x.com") == ExampleEmail
    ensures Js("a-b-c-x-com") == ExampleId
  {
  }

  /** The worked example: dots, plus and at-sign each become a dash. */
  lemma SanitizeExample()
    ensures SanitizeUserId(Js("a.b+c@x.com")) == Js("a-b-c-x-com")
  {
    ExampleUnits();
    var got := SanitizeUserId(ExampleEmail);
    assert got[0] == ExampleId[0] && got[1] == ExampleId[1] && got[2] == ExampleId[2];
    assert got[3] == ExampleId[3] && got[4] == ExampleId[4] && got[5] == ExampleId[5];
    assert got[6] == ExampleId[6] && got[7] == ExampleId[7] && got[8] == ExampleId[8];
    assert got[9] == ExampleId[9] && got[10] == ExampleId[10];
  }

  /** Sanitising works unit by unit, so it distributes over concatenation. */
  lemma {:induction false} SanitizeConcat(a: JsString, b: JsString)
    ensures SanitizeUserId(a + b) == SanitizeUserId(a) + SanitizeUserId(b)
  {
    if a != [] {
      SanitizeConcat(a[1..], b);
      assert (a + b)[1..] == a[1..] + b;
    }
  }

  /** A character outside the Basic Multilingual Plane is a surrogate pair of
      two code units, so wherever it stands it becomes two dashes. */
  lemma SanitizeSurrogatePair(before: JsString, high: CodeUnit, low: CodeUnit, after: JsString)
    requires 0xD800 <= high <= 0xDBFF && 0xDC00 <= low <= 0xDFFF
    ensures SanitizeUserId(before + [high, low] + after)
      == SanitizeUserId(before) + [Dash, Dash] + SanitizeUserId(after)
  {
    SanitizeConcat(before + [high, low], after);
    SanitizeConcat(before, [high, low]);
  }

  /** What the hosted store's client is built with. */
  datatype CloudRequest = CloudRequest(userId: JsString, workspaceId: JsString)

  /** What creating a token did: returned one, or threw (constructing the
      client or the call itself). */
  datatype IssueOutcome = Issued(token: JsString) | IssueThrew

  /** A plain-text response. */
  datatype TextResponse = TextResponse(status: int, body: JsString)

  /** The response, and the client request made, if any. */
  datatype Exchange = Exchange(response: TextResponse, request: Option<CloudRequest>)

  /** `session?.user?.email` is truthy: there is a user with a non-empty
      email. */
  predicate HasEmail(session: Option<Auth.AuthSession>) {
    && session.Some?
    && session.value.user.Some?
    && session.value.user.value.email.Some?
    && session.value.user.value.email.value != []
  }

  /** `POST()`, with the session and the token call's behaviour as inputs. */
  function Post(session: Option<Auth.AuthSession>, issue: IssueOutcome): (x: Exchange)
    ensures !HasEmail(session) ==> x == Exchange(TextResponse(401, Js("Unauthorized")), None)
    ensures HasEmail(session) ==>
      && x.request.Some?
      && x.request.value.userId == SanitizeUserId(session.value.user.value.email.value)
      && x.request.value.workspaceId == x.request.value.userId
    ensures x.response.status == 200 <==> HasEmail(session) && issue.Issued?
    ensures x.response.status == 200 ==> x.response.body == issue.token
    ensures HasEmail(session) && issue.IssueThrew? ==> x.response == TextResponse(500, Js("Failed to generate token"))
  {
    if !HasEmail(session) then Exchange(TextResponse(401, Js("Unauthorized")), None)
    else
      var userId := SanitizeUserId(session.value.user.value.email.value);
      var request := CloudRequest(userId, userId);
      match issue
      case Issued(token) => Exchange(TextResponse(200, token), Some(request))
      case IssueThrew => Exchange(TextResponse(500, Js("Failed to generate token")), Some(request))
  }

  /** The ids sent to the store are URL-safe and never carry the `@`. */
  lemma RequestIdsAreSafe(session: Option<Auth.AuthSession>, issue: IssueOutcome)
    requires Post(session, issue).request.Some?
    ensures var req := Post(session, issue).request.value;
      && (forall i | 0 <= i < |req.userId| :: IsIdUnit(req.userId[i]))
      && Js("@")[0] !in req.workspaceId
  {
    SanitizedHasNoAt(session.value.user.value.email.value);
  }

  /** A session with an empty email is treated as signed out. */
  lemma EmptyEmailIsUnauthorized(user: Auth.SessionUser, expires: JsString, issue: IssueOutcome)
    requires user.email == Some([])
    ensures Post(Some(Auth.AuthSession(Some(user), expires)), issue).response.status == 401
  {
  }
}
