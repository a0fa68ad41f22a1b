/** The route guard that runs ahead of page and API requests: public paths
    and signed-in users pass through, everyone else is sent to the sign-in
    page. A path matcher decides whether the guard runs at all. */
module Middleware {
  import opened JsStrings

  /** What the guard tells the server to do with a request. */
  datatype Action = PassThrough | Redirect(location: JsString)

  /** The sign-in page, and the target of every redirect. */
  const LoginPath: JsString := Js("/login")

  /** Paths reachable without a session: raw prefix tests on the pathname
      for the sign-in page, the authentication endpoints and framework
      assets, and an exact test for the browser icon. */
  predicate IsPublic(pathname: JsString) {
    || StartsWith(pathname, Js("/login"))
    || StartsWith(pathname, Js("/api/auth"))
    || StartsWith(pathname, Js("/_next"))
    || pathname == Js("/favicon.ico")
  }

  /** The guard callback, given the pathname and whether a session exists. */
  function Guard(pathname: JsString, isLoggedIn: bool): (a: Action)
    ensures a.Redirect? <==> !isLoggedIn && !IsPublic(pathname)
    ensures a.Redirect? ==> a.location == LoginPath
  {
    if IsPublic(pathname) then PassThrough
    else if !isLoggedIn then Redirect(LoginPath)
    else PassThrough
  }

  /** A public path passes through whether or not anyone is signed in. */
  lemma PublicPathsPassThrough(pathname: JsString, isLoggedIn: bool)
    requires IsPublic(pathname)
    ensures Guard(pathname, isLoggedIn) == PassThrough
  {
  }

  /** A signed-in user always passes through. */
  lemma SignedInPassesThrough(pathname: JsString)
    ensures Guard(pathname, true) == PassThrough
  {
  }

  /** Anyone not signed in who asks for a protected path goes to `/login`. */
  lemma SignedOutRedirectedToLogin(pathname: JsString)
    requires !IsPublic(pathname)
    ensures Guard(pathname, false) == Redirect(LoginPath)
  {
  }

  /** Following a redirect never leads to another one: its target is public. */
  lemma RedirectTargetIsPublic(pathname: JsString, isLoggedIn: bool, again: bool)
    requires Guard(pathname, isLoggedIn).Redirect?
    ensures Guard(Guard(pathname, isLoggedIn).location, again) == PassThrough
  {
    assert StartsWith(LoginPath, Js("/login"));
  }

  /** The prefix tests are raw, so look-alike paths are public too. */
  lemma LookAlikePathsArePublic()
    ensures IsPublic(Js("/loginx"))
    ensures IsPublic(Js("/api/authz"))
  {
  }

  /** The icon test is exact: the icon itself is public, a path below it is
      protected and a signed-out request for it is redirected. */
  lemma IconTestIsExact()
    ensures IsPublic(Js("/favicon.ico"))
    ensures !IsPublic(Js("/favicon.ico/x"))
    ensures Guard(Js("/favicon.ico/x"), false) == Redirect(LoginPath)
  {
    assert Js("/favicon.ico/x") != Js("/favicon.ico");
  }

  /** The matcher `/((?!_next/static|_next/image).*)`: the pathname starts
      with `/` and what follows does not begin with either asset prefix. */
  predicate GuardApplies(pathname: JsString) {
    && |pathname| >= 1
    && pathname[0] == Js("/")[0]
    && !StartsWith(pathname[1..], Js("_next/static"))
    && !StartsWith(pathname[1..], Js("_next/image"))
  }

  /** A request with the matcher in front of the guard. */
  function Handle(pathname: JsString, isLoggedIn: bool): (a: Action)
    ensures a.Redirect? <==> GuardApplies(pathname) && !isLoggedIn && !IsPublic(pathname)
  {
    if GuardApplies(pathname) then Guard(pathname, isLoggedIn) else PassThrough
  }

  /** A path skipped by the matcher starts with `/_next` whenever it starts
      with `/`, so the guard would have let it through anyway. */
  lemma SkippedPathsArePublic(pathname: JsString)
    requires |pathname| >= 1 && pathname[0] == Js("/")[0]
    requires !GuardApplies(pathname)
    ensures IsPublic(pathname)
  {
    var rest := pathname[1..];
    assert StartsWith(rest, Js("_next/static")) || StartsWith(rest, Js("_next/image"));
    assert rest[..5] == Js("_next");
    assert pathname[..6] == [pathname[0]] + rest[..5];
  }

  /** For every pathname that starts with `/`, the matcher never changes the
      decision: it only saves running the guard on asset requests. */
  lemma MatcherPreservesDecision(pathname: JsString, isLoggedIn: bool)
    requires |pathname| >= 1 && pathname[0] == Js("/")[0]
    ensures Handle(pathname, isLoggedIn) == Guard(pathname, isLoggedIn)
  {
    if !GuardApplies(pathname) {
      SkippedPathsArePublic(pathname);
    }
  }

  /** Static assets and optimised images are not guarded: nothing that
      follows `/_next/static` or `/_next/image` brings the guard back. */
  lemma AssetPathsSkipGuard(rest: JsString)
    ensures !GuardApplies(Js("/_next/static") + rest)
    ensures !GuardApplies(Js("/_next/image") + rest)
  {
    assert "/_next/static" == "/" + "_next/static";
    assert "/_next/image" == "/" + "_next/image";
    JsConcat("/", "_next/static");
    JsConcat("/", "_next/image");
    assert (Js("/") + Js("_next/static") + rest)[1..] == Js("_next/static") + rest;
    assert (Js("/") + Js("_next/image") + rest)[1..] == Js("_next/image") + rest;
  }

  /** Every other `/_next` path is guarded: one whose segment after `/_next/`
      starts with neither `s` nor `i` (data routes, for instance). */
  lemma OtherPathsAreGuarded(rest: JsString)
    requires |rest| >= 1 && rest[0] != Js("s")[0] && rest[0] != Js("i")[0]
    ensures GuardApplies(Js("/_next/") + rest)
  {
    assert "/_next/" == "/" + "_next/";
    JsConcat("/", "_next/");
    var p := Js("/") + Js("_next/") + rest;
    assert p[1..] == Js("_next/") + rest;
    assert p[1..][6] == rest[0];
  }

  /** Every page and API path is guarded: one whose first segment does not
      start with `_`, including the root `/`. */
  lemma PagesAreGuarded(rest: JsString)
    requires rest == [] || rest[0] != Js("_")[0]
    ensures GuardApplies(Js("/") + rest)
  {
    assert (Js("/") + rest)[1..] == rest;
  }
}
