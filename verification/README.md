# Authenticated chat relay: decision logic in Dafny

This project models the small, pure decision procedures underneath a web
chat application that relays signed-in users' messages to a hosted language
model and streams the answer back. Four parts of the application are modelled:

- **The chat endpoint** (`POST /api/chat`) is in module `ChatRoute`. It
  checks in a fixed order: a session gate (401 `unauthorized`), then the shape
  of the body (400 `validation_error`), then the message count of 1 to 20
  (422 `validation_error`). If all three pass, the upstream model's answer is
  streamed. Anything thrown inside the handler's `try` is caught and
  classified, by looking for marker words in the ASCII-lower-cased error
  message, as 401, 429, 503 or 500. Every caught failure is tagged
  `upstream_error` and carries the request id.
- **The route guard** is in module `Middleware`. Public paths pass through:
  raw prefix tests for `/login`, `/api/auth` and `/_next`, plus an exact test
  for `/favicon.ico`. A signed-in user passes through. Everyone else is
  redirected to `/login`. The path matcher `/((?!_next/static|_next/image).*)`
  decides whether the guard runs at all.
- **The token endpoint** (`POST /api/assistant-ui-token`) is in module
  `TokenRoute`. The session email is made URL-safe by replacing every UTF-16
  code unit outside `[A-Za-z0-9_-]` with `-`. The result is used as both user
  id and workspace id. A missing email gives 401, a failed token creation 500,
  and success 200 with the token as the body.
- **The authentication configuration** is in module `Auth`. The start-up
  check lists the unset required variables and throws unless the build phase
  is running. The session lifetime is thirty days. The `jwt` and `session`
  callbacks copy the user id between the token and the session.

Strings are JavaScript strings: sequences of UTF-16 code units (module
`JsStrings`). The module also holds `startsWith`, `includes`, ASCII
`toLowerCase`, `join`, and the decimal text of a number. `Js("...")` writes one
of the source's string literals, all of which are ASCII. Inputs the handlers
get from outside are parameters of the model:

- the session lookup;
- the parsed body;
- whether the upstream call or the token call threw;
- the request id;
- the environment map.

There is no `internal_error` code. Every caught failure is tagged
`upstream_error`, even one that has nothing to do with the upstream model: a
session lookup that throws, or a body that is not valid JSON. Such a failure
goes through the same marker tests. So a JSON parser message that mentions
`401` is answered as an upstream authentication failure
(`ChatRoute.MalformedBodyCanReadAsAuthFailure`).

## Model

| member | source | states |
|---|---|---|
| `ChatRoute.Post` | app/api/chat/route.ts:20-171 | Every answer is a stream exactly when its status is 200. In a JSON error body, `statusCode` equals the HTTP status, and a request id is present exactly for `upstream_error` failures, whose status is 401, 429, 503 or 500. The upstream step is reached exactly when the lookup found a user and the body is an array of 1 to 20 messages. |
| `ChatRoute.NoUserGets401` | app/api/chat/route.ts:27-43 | Without a session user the answer is 401 `unauthorized` with no request id, whatever the body or the upstream, and the upstream is never called. |
| `ChatRoute.MissingArrayGets400` | app/api/chat/route.ts:48-66 | With a user, a falsy or non-array `messages` field is 400 `validation_error`, never a count error, and the upstream is not called. |
| `ChatRoute.CountOutOfRangeGets422` | app/api/chat/route.ts:68-86 | With a user, an empty array or one longer than 20 is 422 `validation_error`. Its message ends with the count it received, in decimal, and reading that back gives the count. |
| `ChatRoute.StreamsIff` | app/api/chat/route.ts:27-125 | The answer is 200 exactly when there is a user, the array has 1 to 20 messages and the upstream call does not throw. |
| `ChatRoute.UpstreamFailureIsClassified` | app/api/chat/route.ts:113-169 | A throwing upstream call on a valid request gives the classifier's status and message, code `upstream_error` and the request id. |
| `ChatRoute.EarlyThrowsAreClassified` | app/api/chat/route.ts:25-48 | A throwing session lookup, or a body that fails to parse, is classified like an upstream failure and never reaches the upstream. |
| `ChatRoute.UnauthorizedCodeIffNoUser` | app/api/chat/route.ts:28-43 | The `unauthorized` code appears exactly when the session lookup found no user. |
| `ChatRoute.MalformedBodyCanReadAsAuthFailure` | app/api/chat/route.ts:48-141 | For a signed-in user, every body parse error whose lower-cased message contains `401` is answered 401 `upstream_error` with the authentication-failure text and the request id, and the upstream is not reached. |
| `ChatRoute.MalformedBodyExample` | app/api/chat/route.ts:134-137 | One such message: "Unexpected token at position 401" contains `401` after lowering. |
| `ChatRoute.ChatScenarios` | app/api/chat/route.ts:20-171 | One message streams. Twenty-five messages give 422 `validation_error`. An upstream step that throws an `Error` with message "Invalid API Key" gives 401 `upstream_error` with the request id. |
| `ChatRoute.Classify` | app/api/chat/route.ts:130-154 | The status is one of 401, 429, 503, 500, and the user message is the one paired with it. A thrown value that is not an `Error` gets 500. |
| `ChatRoute.ClassifyIsFirstMatchingRule` | app/api/chat/route.ts:136-153 | For an `Error`, the status is that of the first rule (authentication, rate limit, network) with a marker in the lower-cased message, or 500 if none matches. |
| `ChatRoute.AuthMarkerWins` | app/api/chat/route.ts:137-141 | Any authentication marker gives 401, whatever else the message says. |
| `ChatRoute.RateLimitBeatsNetwork` | app/api/chat/route.ts:143-153 | Without an authentication marker, a rate-limit marker gives 429 even if a network marker is present. |
| `ChatRoute.ClassifyIgnoresCase` | app/api/chat/route.ts:134 | Lower-casing the message first does not change the classification. |
| `ChatRoute.NonErrorIsGeneric` | app/api/chat/route.ts:130-133 | A non-`Error` thrown value gets 500 and the generic message, whatever its text. |
| `ChatRoute.InvalidKeyIsAuthFailure` | app/api/chat/route.ts:134-141 | "Invalid API Key", in mixed case, is classified 401. |
| `ChatRoute.BothStatusesMeansAuthFailure` | app/api/chat/route.ts:137-147 | Every `Error` whose lower-cased message contains both `429` (a rate-limit marker) and `401` is classified 401 with the authentication-failure text. |
| `ChatRoute.CodeNamesDistinct` | app/api/chat/route.ts:33-159 | The three envelope codes `unauthorized`, `validation_error` and `upstream_error` are pairwise different strings. |
| `Middleware.Guard` | middleware.ts:22-43 | A redirect happens exactly when the user is signed out and the path is not public, and it always goes to `/login`. |
| `Middleware.PublicPathsPassThrough` | middleware.ts:27-34 | A public path passes through, signed in or not. |
| `Middleware.SignedInPassesThrough` | middleware.ts:41-42 | A signed-in user always passes through. |
| `Middleware.SignedOutRedirectedToLogin` | middleware.ts:36-39 | A signed-out request for a non-public path is redirected to `/login`. |
| `Middleware.RedirectTargetIsPublic` | middleware.ts:28-38 | Following a redirect never produces another redirect. |
| `Middleware.LookAlikePathsArePublic` | middleware.ts:28-29 | `/loginx` and `/api/authz` are public, because the tests are raw prefix tests. |
| `Middleware.IconTestIsExact` | middleware.ts:31 | `/favicon.ico` is public, but `/favicon.ico/x` is protected and a signed-out request for it is redirected. |
| `Middleware.Handle` | middleware.ts:53-55 | With the matcher in front, a redirect happens exactly when the matcher selects the path, the user is signed out and the path is not public. |
| `Middleware.SkippedPathsArePublic` | middleware.ts:27-54 | Every `/`-rooted path the matcher skips starts with `/_next`, so it is public. |
| `Middleware.MatcherPreservesDecision` | middleware.ts:22-55 | For every `/`-rooted path, the matcher never changes the guard's decision. |
| `Middleware.AssetPathsSkipGuard` | middleware.ts:54 | Every path that starts with `/_next/static` or `/_next/image`, whatever follows, is skipped by the matcher. |
| `Middleware.OtherPathsAreGuarded` | middleware.ts:54 | Every `/_next/` path whose next segment starts with neither `s` nor `i` is guarded. |
| `Middleware.PagesAreGuarded` | middleware.ts:54 | Every path `/` + rest, where rest is empty or does not start with `_`, is guarded. |
| `TokenRoute.SanitizeUserId` | app/api/assistant-ui-token/route.ts:7-9 | The length is preserved and every output unit is in `[A-Za-z0-9_-]`. Allowed units are kept and every other unit becomes `-`. |
| `TokenRoute.SanitizeIdempotent` | app/api/assistant-ui-token/route.ts:8 | Sanitising twice is sanitising once. |
| `TokenRoute.SanitizeFixedPoints` | app/api/assistant-ui-token/route.ts:8 | An id is unchanged exactly when all its units are already allowed. |
| `TokenRoute.SanitizedHasNoAt` | app/api/assistant-ui-token/route.ts:6-9 | No sanitised id contains `@`. |
| `TokenRoute.SanitizeExample` | app/api/assistant-ui-token/route.ts:7-9 | `a.b+c@x.com` becomes `a-b-c-x-com`. |
| `TokenRoute.SanitizeConcat` | app/api/assistant-ui-token/route.ts:8 | Sanitising a concatenation is concatenating the sanitised parts. |
| `TokenRoute.SanitizeSurrogatePair` | app/api/assistant-ui-token/route.ts:8 | Any surrogate pair, that is any character outside the Basic Multilingual Plane, becomes two dashes wherever it stands, and the text around it is sanitised as before. |
| `TokenRoute.Post` | app/api/assistant-ui-token/route.ts:11-37 | Without a non-empty session email the answer is 401 and no token is requested. Otherwise user id and workspace id both equal the sanitised email. The answer is 200 with the token exactly when the token call succeeds, and 500 when it throws. |
| `TokenRoute.RequestIdsAreSafe` | app/api/assistant-ui-token/route.ts:19-27 | The ids sent to the token service use only allowed units and contain no `@`. |
| `TokenRoute.EmptyEmailIsUnauthorized` | app/api/assistant-ui-token/route.ts:14-16 | An empty email string is falsy, so it gives 401. |
| `Auth.Missing` | lib/auth.ts:16-25 | The result holds exactly the keys whose variable is absent or empty, in the order of the key list. |
| `Auth.ValidateAuthEnv` | lib/auth.ts:10-33 | In the production build phase it never throws. Otherwise it throws exactly when some required variable is unset, and the message lists the missing keys joined by ", ". |
| `Auth.ValidationNamesEachMissingKey` | lib/auth.ts:27-32 | The thrown message contains the name of every unset required variable. |
| `Auth.EmptyEnvReportsAllKeys` | lib/auth.ts:16-32 | With an empty environment all three keys are reported, in order, as `AUTH_GOOGLE_ID, AUTH_GOOGLE_SECRET, AUTH_SECRET`. |
| `Auth.SessionMaxAgeIsThirtyDays` | lib/auth.ts:55 | The session lifetime is 2,592,000 seconds, which is thirty days. |
| `Auth.JwtCallback` | lib/auth.ts:62-67 | With a profile, the token's `id` becomes the profile's id and nothing else changes. Without one, the token is returned unchanged. |
| `Auth.JwtCallbackIdempotent` | lib/auth.ts:62-67 | Running the `jwt` callback twice with the same profile is the same as running it once. |
| `Auth.SessionCallback` | lib/auth.ts:68-73 | With a token and a session user, the user's `id` becomes the token's `sub` and the other fields are kept. Otherwise the session is returned unchanged. |
| `Auth.SessionIdIsTokenSubject` | lib/auth.ts:62-73 | The session's user id is the token subject, whatever `id` claim the `jwt` callback stored. |
| `JsStrings.StartsWith` | middleware.ts:28-30 | `startsWith` holds exactly when the pattern is a prefix of the string, unit for unit. |
| `JsStrings.IncludesIffOccurs` | app/api/chat/route.ts:137 | `includes` holds exactly when the pattern occurs as a contiguous block. |
| `JsStrings.ToLowerAsciiPointwise` | app/api/chat/route.ts:134 | No upper-case ASCII letter is left, and a unit changes exactly when it was one. |
| `JsStrings.ToLowerAsciiIdempotent` | app/api/chat/route.ts:134 | Lowering twice is lowering once. |
| `JsStrings.JoinIncludesEach` | lib/auth.ts:29 | Every joined item occurs in the joined string. |
| `JsStrings.DecimalRoundTrip` | app/api/chat/route.ts:77 | Reading back the decimal text of a count gives the count. |

## Left out

- Streaming and the model SDK: building the provider, choosing the model and prompt, the sampling parameters, `convertToModelMessages`, `streamText` and the stream response are library calls. The model records only that the upstream was called, and whether that call threw or a stream (status 200) was returned. A failure in the middle of the stream happens after the response has started and outside the `try`, so it is not modelled.
- ChatRoute.Upstream: the model lets any thrown value from the upstream step (lines 93-125) reach the catch block. Whether a provider failure (a rejected key, a rate limit, a network error) throws there or arrives inside the already-started 200 stream is decided by the model SDK, which is not part of this model. The claims about classified upstream failures hold for failures that throw, such as one from `convertToModelMessages`.
- The system prompt: `getSystemPrompt` ignores its argument and returns a fixed text, so there is nothing to prove about it.
- The request id and logging: `crypto.randomUUID` is a parameter, and `console` output is not modelled. The `runtime` and `maxDuration` settings belong to the hosting platform.
- The authentication library: `auth()`, the Google sign-in flow, token signing and the `pages`/`trustHost` settings. The session lookup is an input. In the token endpoint the lookup runs outside the `try`, and a lookup that throws there is not modelled.
- The start-up check runs when the module loads, and an import that fails stops every route. That consequence is not modelled; only the check's outcome is.
- Token issuance: the hosted store's client and its token call are reduced to "issued a token" or "threw".
- JSON parsing: `req.json()` is reduced to the four body shapes. The contents of the messages are not modelled.
- ChatRoute.Classify: it lowers ASCII letters only. JavaScript's `toLowerCase` also maps non-ASCII characters, some of them onto ASCII letters. For example, the Kelvin sign U+212A becomes `k`, so the source classifies "API \u212AEY" (a Kelvin sign in place of the K) as 401 and the model gives 500.
- Middleware.Guard: the redirect target is the path `/login`. The source builds an absolute URL on the request's origin, and the origin is not modelled.
- Middleware.Handle: the matcher is modelled on the pathname alone. The regular expression's `.` does not match line terminators, but a parsed pathname is percent-encoded and never contains one. The framework's extra matching of data routes and locales is not modelled.
- JsStrings.Js: this writes source literals one code unit per character. It is only used on ASCII text. Non-BMP text, as in `TokenRoute.SanitizeSurrogatePair`, is written as surrogate code units.
- The user interface (sign-in page, error page, sidebar, assistant shell) is presentation only.
