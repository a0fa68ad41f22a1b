/** The authentication configuration: the start-up check of the environment,
    the session lifetime, and the two callbacks that copy the user id between
    the signed token and the session handed to route handlers. Signing, the
    OAuth flow and session lookup belong to the authentication library and are
    not modelled. */
module Auth {
  import opened Wrappers
  import opened JsStrings

  /** `process.env`: variable names to values; a name that is absent reads as
      `undefined`. */
  type Env = map<JsString, JsString>

  /** `process.env[key]` is truthy: present and not the empty string. */
  predicate IsSet(env: Env, key: JsString) {
    key in env && env[key] != []
  }

  const PhaseKey: JsString := Js("NEXT_PHASE")
  const BuildPhase: JsString := Js("phase-production-build")

  /** The variables the server cannot start without, in the order they are
      reported. */
  const RequiredKeys: seq<JsString> :=
    [Js("AUTH_GOOGLE_ID"), Js("AUTH_GOOGLE_SECRET"), Js("AUTH_SECRET")]

  /** The process is the production build, during which the check is skipped. */
  predicate InBuildPhase(env: Env) {
    PhaseKey in env && env[PhaseKey] == BuildPhase
  }

  /** `xs` can be obtained from `ys` by deleting elements: same order, no
      element invented. */
  predicate IsSubsequence(xs: seq<JsString>, ys: seq<JsString>)
    decreases |ys|
  {
    if xs == [] then true
    else if ys == [] then false
    else if xs[0] == ys[0] then IsSubsequence(xs[1..], ys[1..])
    else IsSubsequence(xs, ys[1..])
  }

  /** `keys.filter((key) => !process.env[key])`. */
  function Missing(env: Env, keys: seq<JsString>): (r: seq<JsString>)
    ensures forall k :: k in r <==> k in keys && !IsSet(env, k)
    ensures IsSubsequence(r, keys)
  {
    if keys == [] then []
    else if IsSet(env, keys[0]) then Missing(env, keys[1..])
    else [keys[0]] + Missing(env, keys[1..])
  }

  const MessageHead: JsString := Js("Missing required auth environment variables: ")
  const MessageTail: JsString :=
    Js("\n") + Js("Please check your .env.local file and ensure all variables are set.")

  /** The text of the error thrown when variables are missing. */
  function MissingMessage(missing: seq<JsString>): JsString {
    MessageHead + Join(missing, Js(", ")) + MessageTail
  }

  /** `validateAuthEnv()`: `Fail(message)` stands for the thrown `Error`. */
  function ValidateAuthEnv(env: Env): (r: Outcome<JsString>)
    ensures InBuildPhase(env) ==> r == Pass
    ensures !InBuildPhase(env) ==>
      (r.Fail? <==> exists k :: k in RequiredKeys && !IsSet(env, k))
    ensures r.Fail? ==> r.error == MissingMessage(Missing(env, RequiredKeys))
  {
    if InBuildPhase(env) then Pass
    else
      var missing := Missing(env, RequiredKeys);
      if |missing| > 0 then
        assert missing[0] in missing;
        Fail(MissingMessage(missing))
      else Pass
  }

  /** The thrown message names every required variable that is unset. */
  lemma ValidationNamesEachMissingKey(env: Env)
    requires ValidateAuthEnv(env).Fail?
    ensures forall k | k in RequiredKeys && !IsSet(env, k) :: Includes(ValidateAuthEnv(env).error, k)
  {
    var missing := Missing(env, RequiredKeys);
    var joined := Join(missing, Js(", "));
    JoinIncludesEach(missing, Js(", "));
    forall k | k in missing
      ensures Includes(MissingMessage(missing), k)
    {
      IncludesInConcat(MessageHead, joined, MessageTail, k);
    }
  }

  /** With nothing configured every required variable is reported, in order,
      and the message lists all three, separated by commas. */
  lemma EmptyEnvReportsAllKeys()
    ensures Missing(map[], RequiredKeys) == RequiredKeys
    ensures ValidateAuthEnv(map[]) == Fail(MissingMessage(RequiredKeys))
    ensures Join(RequiredKeys, Js(", "))
      == Js("AUTH_GOOGLE_ID") + Js(", ") + Js("AUTH_GOOGLE_SECRET") + Js(", ") + Js("AUTH_SECRET")
  {
    var ks := RequiredKeys;
    assert Missing(map[], ks[2..]) == [ks[2]];
    assert Missing(map[], ks[1..]) == [ks[1], ks[2]];
    assert !InBuildPhase(map[]);
    assert Join(ks, Js(", ")) == ks[0] + Js(", ") + (ks[1] + Js(", ") + ks[2]);
  }

  /** Session lifetime in seconds. */
  const SessionMaxAge: nat := 30 * 24 * 60 * 60

  /** Sessions last thirty days. */
  lemma SessionMaxAgeIsThirtyDays()
    ensures SessionMaxAge == 2592000
    ensures SessionMaxAge / (24 * 60 * 60) == 30
  {
  }

  /** The user profile the provider reports on sign-in. */
  datatype Profile = Profile(id: Option<JsString>, name: Option<JsString>, email: Option<JsString>)

  /** The signed session token: its subject, the `id` claim the callback
      writes, and every other claim. */
  datatype Jwt = Jwt(sub: Option<JsString>, id: Option<JsString>, claims: map<JsString, JsString>)

  /** The user record inside a session. */
  datatype SessionUser = SessionUser(id: Option<JsString>, name: Option<JsString>, email: Option<JsString>)

  /** The session object `auth()` hands to route handlers. */
  datatype AuthSession = AuthSession(user: Option<SessionUser>, expires: JsString)

  /** The `jwt` callback: on sign-in (a profile is present) the token's `id`
      becomes the profile's id; otherwise the token comes back untouched. */
  function JwtCallback(token: Jwt, user: Option<Profile>): (r: Jwt)
    ensures user.None? ==> r == token
    ensures user.Some? ==> r.id == user.value.id
    ensures r.sub == token.sub && r.claims == token.claims
  {
    match user
    case None => token
    case Some(u) => token.(id := u.id)
  }

  /** The `session` callback: when there is a token and the session has a
      user, the user's `id` becomes the token's subject; otherwise the session
      comes back untouched. */
  function SessionCallback(session: AuthSession, token: Option<Jwt>): (r: AuthSession)
    ensures token.None? || session.user.None? ==> r == session
    ensures token.Some? && session.user.Some? ==>
      && r.user.Some?
      && r.user.value.id == token.value.sub
      && r.user.value.name == session.user.value.name
      && r.user.value.email == session.user.value.email
    ensures r.expires == session.expires
  {
    match (token, session.user)
    case (Some(t), Some(u)) => session.(user := Some(u.(id := t.sub)))
    case _ => session
  }

  /** Running the `jwt` callback again with the same profile changes nothing. */
  lemma JwtCallbackIdempotent(token: Jwt, user: Option<Profile>)
    ensures JwtCallback(JwtCallback(token, user), user) == JwtCallback(token, user)
  {
  }

  /** The id a session exposes is the token's subject, whatever `id` claim
      the `jwt` callback stored: the two callbacks write different fields. */
  lemma SessionIdIsTokenSubject(session: AuthSession, token: Jwt, user: Option<Profile>)
    requires session.user.Some?
    ensures SessionCallback(session, Some(JwtCallback(token, user))).user.value.id == token.sub
  {
  }
}
