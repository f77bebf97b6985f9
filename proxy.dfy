/**
 * The request middleware: it classifies the path, tries a token refresh for
 * a protected page without an access token, and decides between letting the
 * request through and redirecting it.
 *
 * Cookies are optional texts; an empty cookie counts as missing (`|| null`).
 * `decodeURIComponent`, `JSON.parse` and the backend refresh call are inputs:
 * the decoder and the parser as partial functions (`None` when they throw),
 * the refresh as its outcome.
 */
module Proxy {
  import opened Common

  /** The cookies the middleware reads. */
  datatype Request = Request(path: string, accessToken: Option<string>, refreshToken: Option<string>, appUser: Option<string>)

  /** The answer of `POST /auth/refresh`: a network error, or a status with its `Set-Cookie` headers. */
  datatype RefreshOutcome = NetworkError | Answered(ok: bool, setCookies: seq<string>)

  /** `NextResponse.next()` with forwarded cookies, or a redirect that deletes cookies. */
  datatype Response = Next(setCookies: seq<string>) | Redirect(to: string, deleted: seq<string>)

  /** The session cookies cleared when a refresh fails. */
  const SessionCookies: seq<string> := ["access_token", "refresh_token", "app_user", "x-device-id"]

  predicate Present(c: Option<string>) { c.Some? && c.value != "" }

  predicate IsProtected(path: string)
  {
    StartsWith(path, "/bid") || StartsWith(path, "/profile") || StartsWith(path, "/admin") || StartsWith(path, "/agent")
  }

  predicate IsAuthRoute(path: string) { path == "/sign-in" || path == "/sign-up" }

  /** The refresh and logout endpoints and every public page are left alone. */
  predicate PassesUntouched(path: string)
  {
    StartsWith(path, "/api/auth/refresh") || StartsWith(path, "/api/auth/logout") || (!IsProtected(path) && !IsAuthRoute(path))
  }

  /**
   * `refreshAccessToken`: no call without a refresh cookie; the new cookies
   * on a 2xx answer; nothing on any other answer or a network error.
   */
  function RefreshAccessToken(refreshToken: Option<string>, outcome: RefreshOutcome): (r: Option<seq<string>>)
    ensures !Present(refreshToken) ==> r.None?
    ensures r.Some? <==> Present(refreshToken) && outcome.Answered? && outcome.ok
  {
    if !Present(refreshToken) then None
    else if outcome.Answered? && outcome.ok then Some(outcome.setCookies)
    else None
  }

  /** A parsed user cookie is kept only when it is an object (arrays are objects too). */
  function UserOf(v: Json): Option<Json>
  {
    if v.JObject? || v.JArray? then Some(v) else None
  }

  /** `user.role`: a member of an object; an array has none. */
  function Role(user: Json): Option<Json>
  {
    if user.JObject? then Member(user.fields, "role") else None
  }

  /** The `app_user` cookie URI-decoded and parsed; `None` is a user of `null`. */
  function DecodeUser(raw: Option<string>, decode: string -> Option<string>, parse: string -> Option<Json>): Option<Json>
  {
    if !Present(raw) then None
    else
      var d := decode(raw.value);
      if d.None? then None
      else
        var v := parse(d.value);
        if v.None? then None else UserOf(v.value)
  }

  function HasRole(user: Option<Json>, role: string): bool
  {
    user.Some? && Role(user.value) == Some(JString(role))
  }

  /** `proxy`: the early-return decision chain. */
  function Decide(req: Request, outcome: RefreshOutcome, decode: string -> Option<string>, parse: string -> Option<Json>): Response
  {
    var token := Present(req.accessToken);
    var user := DecodeUser(req.appUser, decode, parse);
    var path := req.path;
    if PassesUntouched(path) then Next([])
    else if IsProtected(path) && !token then
      var refreshed := RefreshAccessToken(req.refreshToken, outcome);
      if refreshed.Some? then Next(refreshed.value) else Redirect("/sign-in", SessionCookies)
    else if token && user.None? then Redirect("/sign-in", [])
    else if StartsWith(path, "/admin") && (user.None? || !token) then Redirect("/sign-in", [])
    else if StartsWith(path, "/admin") && HasRole(user, "AGENT") then Redirect("/agent/dashboard", [])
    else if StartsWith(path, "/admin") && HasRole(user, "USER") then Redirect("/sign-in", [])
    else if IsAuthRoute(path) && token && user.Some? && HasRole(user, "ADMIN") then Redirect("/admin", [])
    else Next([])
  }

  /** Whether the middleware calls the backend refresh endpoint for this request. */
  predicate RefreshCalled(req: Request)
  {
    !PassesUntouched(req.path) && IsProtected(req.path) && !Present(req.accessToken) && Present(req.refreshToken)
  }

  // ---------------------------------------------------------------------
  // Properties
  // ---------------------------------------------------------------------

  /** Public pages and the refresh and logout endpoints pass through with nothing added. */
  lemma PublicPassesThrough(req: Request, outcome: RefreshOutcome, decode: string -> Option<string>, parse: string -> Option<Json>)
    requires (!IsProtected(req.path) && !IsAuthRoute(req.path))
      || StartsWith(req.path, "/api/auth/refresh") || StartsWith(req.path, "/api/auth/logout")
    ensures Decide(req, outcome, decode, parse) == Next([])
  {
  }

  /**
   * A protected page without an access token passes, with the new cookies
   * forwarded, exactly when the refresh succeeds; otherwise it goes to
   * /sign-in and the four session cookies are deleted.
   */
  lemma MissingTokenRefresh(req: Request, outcome: RefreshOutcome, decode: string -> Option<string>, parse: string -> Option<Json>)
    requires IsProtected(req.path) && !Present(req.accessToken)
    ensures var r := Decide(req, outcome, decode, parse);
      && (RefreshCalled(req) && outcome.Answered? && outcome.ok ==> r == Next(outcome.setCookies))
      && (!(RefreshCalled(req) && outcome.Answered? && outcome.ok) ==> r == Redirect("/sign-in", SessionCookies))
  {
    ProtectedNotPublic(req.path);
  }

  /** A protected path is never one of the untouched ones. */
  lemma ProtectedNotPublic(path: string)
    requires IsProtected(path)
    ensures !PassesUntouched(path)
  {
    assert path[1] != 'a' || path[2] != 'p' by {
      if StartsWith(path, "/bid") {
        PrefixChar(path, "/bid", 1);
      } else if StartsWith(path, "/profile") {
        PrefixChar(path, "/profile", 1);
      } else if StartsWith(path, "/admin") {
        PrefixChar(path, "/admin", 2);
      } else {
        PrefixChar(path, "/agent", 2);
      }
    }
    ApiPrefix(path, "/api/auth/refresh");
    ApiPrefix(path, "/api/auth/logout");
  }

  lemma PrefixChar(s: string, p: string, i: nat)
    requires StartsWith(s, p) && i < |p|
    ensures s[i] == p[i]
  {
    assert s[..|p|][i] == s[i];
  }

  /** Both auth endpoints start with "/ap". */
  lemma ApiPrefix(path: string, endpoint: string)
    requires |endpoint| > 2 && endpoint[1] == 'a' && endpoint[2] == 'p'
    ensures StartsWith(path, endpoint) ==> path[1] == 'a' && path[2] == 'p'
  {
    if StartsWith(path, endpoint) {
      PrefixChar(path, endpoint, 1);
      PrefixChar(path, endpoint, 2);
    }
  }

  /** The outcome of the refresh call matters only when the call is made. */
  lemma RefreshOnlyWhenCalled(req: Request, o1: RefreshOutcome, o2: RefreshOutcome,
                              decode: string -> Option<string>, parse: string -> Option<Json>)
    requires !RefreshCalled(req)
    ensures Decide(req, o1, decode, parse) == Decide(req, o2, decode, parse)
  {
  }

  /** With an access token but no readable user object, a guarded page goes to /sign-in. */
  lemma TokenWithoutUser(req: Request, outcome: RefreshOutcome, decode: string -> Option<string>, parse: string -> Option<Json>)
    requires !PassesUntouched(req.path) && Present(req.accessToken)
    requires DecodeUser(req.appUser, decode, parse).None?
    ensures Decide(req, outcome, decode, parse) == Redirect("/sign-in", [])
  {
  }

  /** A user cookie that is missing, fails to decode, fails to parse or is not an object is no user. */
  lemma UserCookieFailures(raw: Option<string>, decode: string -> Option<string>, parse: string -> Option<Json>)
    ensures !Present(raw) ==> DecodeUser(raw, decode, parse).None?
    ensures Present(raw) && decode(raw.value).None? ==> DecodeUser(raw, decode, parse).None?
    ensures Present(raw) && decode(raw.value).Some? && parse(decode(raw.value).value).None? ==>
      DecodeUser(raw, decode, parse).None?
    ensures Present(raw) && decode(raw.value).Some? && parse(decode(raw.value).value).Some? ==>
      var v := parse(decode(raw.value).value).value;
      DecodeUser(raw, decode, parse) == (if v.JObject? || v.JArray? then Some(v) else None)
  {
  }

  /**
   * Under /admin with a token and a user: AGENT goes to the agent dashboard,
   * USER goes to /sign-in and every other role passes.
   */
  lemma AdminRoles(req: Request, outcome: RefreshOutcome, decode: string -> Option<string>, parse: string -> Option<Json>)
    requires StartsWith(req.path, "/admin") && Present(req.accessToken)
    requires DecodeUser(req.appUser, decode, parse).Some?
    ensures var user := DecodeUser(req.appUser, decode, parse);
      && (HasRole(user, "AGENT") ==> Decide(req, outcome, decode, parse) == Redirect("/agent/dashboard", []))
      && (HasRole(user, "USER") ==> Decide(req, outcome, decode, parse) == Redirect("/sign-in", []))
      && (!HasRole(user, "AGENT") && !HasRole(user, "USER") ==> Decide(req, outcome, decode, parse) == Next([]))
  {
    AdminNotAuthRoute(req.path);
    ProtectedNotPublic(req.path);
  }

  lemma AdminNotAuthRoute(path: string)
    requires StartsWith(path, "/admin")
    ensures !IsAuthRoute(path)
  {
    assert path[1] == path[..6][1] == 'a';
  }

  /** A signed-in ADMIN on /sign-in or /sign-up goes to /admin; other roles and visitors stay. */
  lemma AuthRouteRedirect(req: Request, outcome: RefreshOutcome, decode: string -> Option<string>, parse: string -> Option<Json>)
    requires IsAuthRoute(req.path)
    ensures var user := DecodeUser(req.appUser, decode, parse);
      && (Present(req.accessToken) && HasRole(user, "ADMIN") ==> Decide(req, outcome, decode, parse) == Redirect("/admin", []))
      && (Present(req.accessToken) && user.Some? && !HasRole(user, "ADMIN") ==> Decide(req, outcome, decode, parse) == Next([]))
      && (!Present(req.accessToken) ==> Decide(req, outcome, decode, parse) == Next([]))
  {
    AuthRouteNotProtected(req.path);
  }

  lemma AuthRouteNotProtected(path: string)
    requires IsAuthRoute(path)
    ensures !IsProtected(path) && !PassesUntouched(path)
  {
    assert path[1] == 's';
  }

  /** Every redirect goes to one of three pages, and only a failed refresh deletes cookies. */
  lemma RedirectTargets(req: Request, outcome: RefreshOutcome, decode: string -> Option<string>, parse: string -> Option<Json>)
    ensures var r := Decide(req, outcome, decode, parse);
      r.Redirect? ==> (
        && (r.to == "/sign-in" || r.to == "/agent/dashboard" || r.to == "/admin")
        && (r.deleted != [] ==> r.to == "/sign-in" && IsProtected(req.path) && !Present(req.accessToken)))
  {
  }
}
