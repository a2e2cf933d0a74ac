/** The server request hook (src/hooks.server.ts): the cookie writer handed to
    the provider client, fail-closed session resolution, and the `/admin` gate
    that stores the resolved identity in the request's locals. */
module Hooks {

  import opened Types

  // ---------------------------------------------------------------------------
  // Session resolution (`safeGetSession`)
  // ---------------------------------------------------------------------------

  /** What `getUser()` reports: the provider-verified user, or an error. */
  datatype VerifyResult = Verified(user: User) | VerifyFailed(message: string)

  /** `{ session, user }` as handed to the rest of the request. */
  datatype Resolution = Resolution(session: Option<Session>, user: Option<User>)

  /** `safeGetSession`: a locally decoded session counts only once `getUser`
      has verified it; any other outcome is "nobody". */
  function SafeGetSession(decoded: Option<Session>, verify: VerifyResult): (r: Resolution)
    ensures r.session.Some? <==> r.user.Some?
    ensures r.session.Some? <==> decoded.Some? && verify.Verified?
    ensures r.session.Some? ==> r.session == decoded && r.user == Some(verify.user)
  {
    if decoded.None? then Resolution(None, None)
    else if verify.VerifyFailed? then Resolution(None, None)
    else Resolution(decoded, Some(verify.user))
  }

  /** With nothing decoded the answer is "nobody", whatever `getUser` would have said:
      the verification result is never consulted. */
  lemma NoDecodedSessionIgnoresVerify(v1: VerifyResult, v2: VerifyResult)
    ensures SafeGetSession(None, v1) == SafeGetSession(None, v2) == Resolution(None, None)
  {
  }

  /** A decoded session that fails verification is dropped together with the user. */
  lemma FailClosed(decoded: Option<Session>, message: string)
    ensures SafeGetSession(decoded, VerifyFailed(message)) == Resolution(None, None)
  {
  }

  // ---------------------------------------------------------------------------
  // The `/admin` gate (`authGuard`)
  // ---------------------------------------------------------------------------

  const ADMIN_PREFIX := "/admin"

  /** `s.startsWith(prefix)`. */
  predicate StartsWith(s: string, prefix: string)
  {
    |prefix| <= |s| && s[..|prefix|] == prefix
  }

  /** The access policy the gate enforces: outside `/admin` anyone, inside only a
      resolved identity whose role is `admin`. */
  predicate MayPass(session: Option<Session>, user: Option<User>, pathname: string)
  {
    !StartsWith(pathname, ADMIN_PREFIX) || (session.Some? && IsAdmin(user))
  }

  /** The gate's verdict: hand the request to `resolve`, or redirect. */
  datatype Decision = Resolve | Redirect(status: int, location: string)

  /** The decision `authGuard` takes from the resolved identity and the path. */
  function GateDecision(session: Option<Session>, user: Option<User>, pathname: string): (d: Decision)
    ensures d.Resolve? <==> MayPass(session, user, pathname)
    ensures d.Redirect? ==> d.status == SEE_OTHER
    ensures d == Redirect(SEE_OTHER, LoginRedirect(pathname)) <==>
              StartsWith(pathname, ADMIN_PREFIX) && !Authenticated(session, user)
    ensures d == Redirect(SEE_OTHER, UNAUTHORIZED_PATH) <==>
              StartsWith(pathname, ADMIN_PREFIX) && Authenticated(session, user) && !IsAdmin(user)
  {
    if StartsWith(pathname, ADMIN_PREFIX) then
      if session.None? || user.None? then Redirect(SEE_OTHER, LoginRedirect(pathname))
      else if user.value.role != Some(ADMIN_ROLE) then Redirect(SEE_OTHER, UNAUTHORIZED_PATH)
      else Resolve
    else Resolve
  }

  /** The prefix test is on the raw string, so `/administrator` is gated like `/admin/...`. */
  lemma AdministratorIsGated(session: Option<Session>, user: Option<User>)
    requires !IsAdmin(user)
    ensures GateDecision(session, user, "/administrator").Redirect?
  {
  }

  /** A request whose identity was resolved by `SafeGetSession` passes the gate exactly
      when the path is outside `/admin` or the verified user is an administrator. */
  lemma ResolvedIdentityGate(decoded: Option<Session>, verify: VerifyResult, pathname: string)
    ensures var r := SafeGetSession(decoded, verify);
      GateDecision(r.session, r.user, pathname).Resolve? <==>
        !StartsWith(pathname, ADMIN_PREFIX) ||
        (decoded.Some? && verify.Verified? && verify.user.role == Some(ADMIN_ROLE))
  {
  }

  /** The request's locals: where the hook leaves the resolved identity for the handlers. */
  class Locals {
    var session: Option<Session>
    var user: Option<User>

    constructor ()
      ensures session.None? && user.None?
    {
      session := None;
      user := None;
    }
  }

  /** `authGuard`: stores the resolution in `locals` before deciding, then applies
      the `/admin` checks in order. */
  method AuthGuard(locals: Locals, pathname: string, decoded: Option<Session>, verify: VerifyResult)
    returns (d: Decision)
    modifies locals
    ensures locals.session == SafeGetSession(decoded, verify).session
    ensures locals.user == SafeGetSession(decoded, verify).user
    ensures d == GateDecision(locals.session, locals.user, pathname)
  {
    var resolved := SafeGetSession(decoded, verify);
    locals.session := resolved.session;
    locals.user := resolved.user;
    if StartsWith(pathname, ADMIN_PREFIX) {
      if locals.session.None? || locals.user.None? {
        return Redirect(SEE_OTHER, LoginRedirect(pathname));
      }
      var role := locals.user.value.role;
      if role != Some(ADMIN_ROLE) {
        return Redirect(SEE_OTHER, UNAUTHORIZED_PATH);
      }
    }
    return Resolve;
  }

  // ---------------------------------------------------------------------------
  // Writing the provider's cookies (`setAll`)
  // ---------------------------------------------------------------------------

  /** A cookie the provider asks to set; options are named, as in the options object. */
  datatype Cookie = Cookie(name: string, value: string, options: map<string, string>)

  const PATH_OPTION := "path"
  const ROOT_PATH := "/"

  /** `{ ...options, path: '/' }` applied to one cookie. */
  function WithRootPath(c: Cookie): (r: Cookie)
    ensures r.name == c.name && r.value == c.value
    ensures r.options.Keys == c.options.Keys + {PATH_OPTION}
    ensures r.options[PATH_OPTION] == ROOT_PATH
    ensures forall k :: k in c.options && k != PATH_OPTION ==> r.options[k] == c.options[k]
  {
    c.(options := c.options[PATH_OPTION := ROOT_PATH])
  }

  /** The response's cookie jar: every `cookies.set` call, in order. */
  class CookieJar {
    var written: seq<Cookie>

    constructor ()
      ensures written == []
    {
      written := [];
    }

    /** `setAll`: writes each requested cookie, in order, with its path forced to `/`. */
    method SetAll(toSet: seq<Cookie>)
      modifies this
      ensures |written| == |old(written)| + |toSet|
      ensures written[..|old(written)|] == old(written)
      ensures forall i :: 0 <= i < |toSet| ==> written[|old(written)| + i] == WithRootPath(toSet[i])
    {
      var i := 0;
      while i < |toSet|
        invariant 0 <= i <= |toSet|
        invariant |written| == |old(written)| + i
        invariant written[..|old(written)|] == old(written)
        invariant forall j :: 0 <= j < i ==> written[|old(written)| + j] == WithRootPath(toSet[j])
      {
        written := written + [WithRootPath(toSet[i])];
        i := i + 1;
      }
    }
  }
}
