/**
 * The request middleware: it loads the session user, refreshes an expiring
 * token, and then redirects or lets the request through according to its own
 * three route lists. The HTTP method plays no part. The decision is a pure
 * function (`Decide`); `OnRequest` performs it step by step on the session
 * store and the request locals.
 */
module Middleware {
  import opened Wrappers
  import opened AuthTypes
  import AuthErrors
  import AuthHelpers
  import JsStrings
  import Routes
  import opened Session

  const PublicRoutes: seq<string> := [
    "/", "/auth/login", "/auth/register", "/auth/forgot-password", "/auth/reset-password", "/unauthorized", "/api"
  ]

  const AuthRoutes: seq<string> := ["/auth/login", "/auth/register", "/auth/forgot-password", "/auth/reset-password"]

  const ProtectedRoutes: seq<string> := ["/dashboard", "/profile", "/admin", "/auth/logout"]

  const DashboardPath := "/dashboard"
  const UnauthorizedPath := "/unauthorized"
  const LoginRedirectPrefix := "/auth/login?redirect="
  const SessionErrorPath := "/auth/login?error=session-error"

  /** The five-minute buffer, in seconds. */
  const ExpiryBuffer := 300

  /**
   * `isTokenExpired(expiresAt)`: the current time in whole seconds
   * (Math.floor(Date.now() / 1000)) has reached expiresAt - 300.
   */
  predicate IsTokenExpired(nowMs: int, expiresAt: int)
  {
    nowMs / 1000 >= expiresAt - ExpiryBuffer
  }

  /**
   * Flooring the clock changes nothing: the token counts as expired exactly
   * when the helper in the auth library calls it expiring soon.
   */
  lemma TokenExpiredIffExpiringSoon(nowMs: int, expiresAt: int)
    ensures IsTokenExpired(nowMs, expiresAt) <==> nowMs >= (expiresAt - ExpiryBuffer) * 1000
    ensures IsTokenExpired(nowMs, expiresAt) <==> AuthHelpers.IsTokenExpiringSoon(nowMs, expiresAt)
  {
    var q := nowMs / 1000;
    assert q * 1000 <= nowMs < q * 1000 + 1000;
    var e := expiresAt - ExpiryBuffer;
    if q >= e {
      assert q * 1000 >= e * 1000;
    } else {
      assert q + 1 <= e;
      assert (q + 1) * 1000 <= e * 1000;
    }
  }

  /**
   * `hasRoutePermission(user, pathname)`: /admin… needs 'admin.access' or the
   * super_admin role, /dashboard… needs 'dashboard.access', everything else
   * (profile, logout, any other path) is open to a signed-in user.
   */
  predicate HasRoutePermission(user: SessionUser, path: string)
  {
    if "/admin" <= path then "admin.access" in user.permissions || user.role == "super_admin"
    else if "/dashboard" <= path then "dashboard.access" in user.permissions
    else true
  }

  /** The only two ways to lack a route permission. */
  lemma LacksRoutePermissionIff(user: SessionUser, path: string)
    ensures !HasRoutePermission(user, path) <==>
      ("/admin" <= path && "admin.access" !in user.permissions && user.role != "super_admin")
      || (!("/admin" <= path) && "/dashboard" <= path && "dashboard.access" !in user.permissions)
  {
  }

  /** `createSessionUser(authResponse, permissions)`. */
  function CreateSessionUser(r: AuthResponse, permissions: seq<string>): (u: SessionUser)
    ensures u == AuthHelpers.ToSessionUser(r, permissions)
  {
    SessionUser(
      id := r.user.id,
      email := r.user.email,
      first_name := r.user.user_metadata.first_name,
      last_name := r.user.user_metadata.last_name,
      role := r.user.role,
      permissions := permissions,
      access_token := r.access_token,
      refresh_token := r.refresh_token,
      expires_at := r.expires_at)
  }

  // ---------------------------------------------------------------------------
  // The decision

  datatype Response = Redirect(location: string) | Next

  /** What the first part of `onRequest` leaves behind. */
  datatype AuthState = AuthState(
    isAuthenticated: bool,
    user: Option<SessionUser>,
    writes: seq<SessionOp>,
    calls: seq<ServiceCall>)

  datatype Decision = Decision(
    response: Response,
    isAuthenticated: bool,
    user: Option<SessionUser>,
    writes: seq<SessionOp>,
    calls: seq<ServiceCall>)

  /**
   * Reading the session user and refreshing an expired token. The refresh and
   * permission calls are given by their outcomes; a failure of either is
   * caught, destroys the session and leaves the request anonymous.
   */
  function Authenticate(
    stored: Option<SessionUser>, nowMs: int,
    refresh: Result<AuthResponse, AuthErrors.AuthError>,
    perms: Result<UserPermissions, AuthErrors.AuthError>): (a: AuthState)
    ensures a.isAuthenticated <==> a.user.Some?
    ensures a.writes == [] || a.writes == [Destroyed] || (a.user.Some? && a.writes == [Wrote(a.user.value)])
    ensures a.isAuthenticated && a.writes == [] ==> a.user == stored
    ensures a.writes == [Destroyed] ==> !a.isAuthenticated
    ensures stored.None? ==> a.writes == [] && a.calls == []
  {
    match stored
    case None => AuthState(false, None, [], [])
    case Some(u) =>
      if !IsTokenExpired(nowMs, u.expires_at) then AuthState(true, Some(u), [], [])
      else
        var askRefresh := [RefreshToken(u.refresh_token)];
        match refresh
        case Failure(_) => AuthState(false, None, [Destroyed], askRefresh)
        case Success(r) =>
          var calls := askRefresh + [GetUserPermissions(r.access_token)];
          match perms
          case Failure(_) => AuthState(false, None, [Destroyed], calls)
          case Success(p) =>
            var updated := CreateSessionUser(r, p.permissions);
            AuthState(true, Some(updated), [Wrote(updated)], calls)
  }

  predicate IsAuthRoute(path: string)
  {
    Routes.MatchesRoutePattern(path, AuthRoutes)
  }

  predicate IsProtectedRoute(path: string)
  {
    Routes.MatchesRoutePattern(path, ProtectedRoutes)
  }

  /** The route-protection part of `onRequest`, given the authentication outcome. */
  function Route(isAuthenticated: bool, user: Option<SessionUser>, path: string): Response
  {
    if IsAuthRoute(path) && isAuthenticated then Redirect(DashboardPath)
    else if IsProtectedRoute(path) && !isAuthenticated then
      Redirect(LoginRedirectPrefix + JsStrings.EncodeURIComponent(path))
    else if IsProtectedRoute(path) && isAuthenticated && user.Some? && !HasRoutePermission(user.value, path) then
      Redirect(UnauthorizedPath)
    else Next
  }

  /**
   * The whole of `onRequest`. `loadFails` says that reading the session
   * threw, the one exception that reaches the outer catch block.
   */
  function Decide(
    stored: Option<SessionUser>, loadFails: bool, nowMs: int,
    refresh: Result<AuthResponse, AuthErrors.AuthError>,
    perms: Result<UserPermissions, AuthErrors.AuthError>,
    path: string): (d: Decision)
    ensures d.isAuthenticated <==> d.user.Some?
    ensures |d.writes| <= 1
  {
    if loadFails then
      Decision(if IsProtectedRoute(path) then Redirect(SessionErrorPath) else Next, false, None, [Destroyed], [])
    else
      var a := Authenticate(stored, nowMs, refresh, perms);
      Decision(Route(a.isAuthenticated, a.user, path), a.isAuthenticated, a.user, a.writes, a.calls)
  }

  // ---------------------------------------------------------------------------
  // Properties of the decision

  /** A session user whose token is still valid is used as is, and the session is not written. */
  lemma ValidSessionUserIsUsed(
    u: SessionUser, nowMs: int, refresh: Result<AuthResponse, AuthErrors.AuthError>,
    perms: Result<UserPermissions, AuthErrors.AuthError>, path: string)
    requires !IsTokenExpired(nowMs, u.expires_at)
    ensures var d := Decide(Some(u), false, nowMs, refresh, perms, path);
      d.isAuthenticated && d.user == Some(u) && d.writes == [] && d.calls == []
  {
  }

  /** A successful refresh overwrites the session once with the refreshed user. */
  lemma RefreshOverwritesOnce(
    u: SessionUser, nowMs: int, r: AuthResponse, p: UserPermissions, path: string)
    requires IsTokenExpired(nowMs, u.expires_at)
    ensures var d := Decide(Some(u), false, nowMs, Success(r), Success(p), path);
      && d.isAuthenticated
      && d.user == Some(CreateSessionUser(r, p.permissions))
      && d.writes == [Wrote(CreateSessionUser(r, p.permissions))]
      && d.calls == [RefreshToken(u.refresh_token), GetUserPermissions(r.access_token)]
  {
  }

  /**
   * If the refresh or the permission fetch fails, the session is destroyed,
   * the request is anonymous and is routed like any anonymous request.
   */
  lemma RefreshFailureDestroys(
    u: SessionUser, nowMs: int, refresh: Result<AuthResponse, AuthErrors.AuthError>,
    perms: Result<UserPermissions, AuthErrors.AuthError>, path: string)
    requires IsTokenExpired(nowMs, u.expires_at)
    requires refresh.Failure? || perms.Failure?
    ensures var d := Decide(Some(u), false, nowMs, refresh, perms, path);
      && !d.isAuthenticated && d.user == None
      && d.writes == [Destroyed]
      && d.response == Route(false, None, path)
  {
  }

  /** Without a session user the request is anonymous and the session untouched. */
  lemma NoSessionUserIsAnonymous(
    nowMs: int, refresh: Result<AuthResponse, AuthErrors.AuthError>,
    perms: Result<UserPermissions, AuthErrors.AuthError>, path: string)
    ensures var d := Decide(None, false, nowMs, refresh, perms, path);
      !d.isAuthenticated && d.user == None && d.writes == [] && d.calls == []
  {
  }

  /** A signed-in visitor on a sign-in page goes to /dashboard, whatever the role. */
  lemma AuthPageRedirectsToDashboard(isAuthenticated: bool, user: Option<SessionUser>, path: string)
    requires isAuthenticated && IsAuthRoute(path)
    ensures Route(isAuthenticated, user, path) == Redirect("/dashboard")
  {
  }

  /** An anonymous visitor on a protected page is sent to sign in, with the page encoded as `redirect`. */
  lemma AnonymousProtectedRedirectsToLogin(path: string)
    requires IsProtectedRoute(path)
    ensures Route(false, None, path) == Redirect("/auth/login?redirect=" + JsStrings.EncodeURIComponent(path))
  {
  }

  lemma TargetsDiffer(x: string)
    ensures DashboardPath != UnauthorizedPath
    ensures LoginRedirectPrefix + x != UnauthorizedPath
    ensures LoginRedirectPrefix + x != DashboardPath
  {
    assert DashboardPath[1] == 'd' && UnauthorizedPath[1] == 'u';
    assert (LoginRedirectPrefix + x)[1] == 'a';
  }

  /**
   * /unauthorized is the answer exactly for a signed-in visitor on a protected
   * page that is not a sign-in page and whose route permission is missing.
   */
  lemma UnauthorizedIff(isAuthenticated: bool, user: Option<SessionUser>, path: string)
    requires isAuthenticated <==> user.Some?
    ensures Route(isAuthenticated, user, path) == Redirect("/unauthorized") <==>
      && isAuthenticated && !IsAuthRoute(path) && IsProtectedRoute(path)
      && !HasRoutePermission(user.value, path)
  {
    TargetsDiffer(JsStrings.EncodeURIComponent(path));
  }

  /** An exception while loading the session destroys it; only protected pages redirect. */
  lemma LoadFailureDestroys(
    stored: Option<SessionUser>, nowMs: int, refresh: Result<AuthResponse, AuthErrors.AuthError>,
    perms: Result<UserPermissions, AuthErrors.AuthError>, path: string)
    ensures var d := Decide(stored, true, nowMs, refresh, perms, path);
      && !d.isAuthenticated && d.user == None && d.writes == [Destroyed] && d.calls == []
      && d.response == (if IsProtectedRoute(path) then Redirect("/auth/login?error=session-error") else Next)
  {
  }

  /** The session store afterwards agrees with the request locals. */
  lemma StoreAgreesWithLocals(
    stored: Option<SessionUser>, loadFails: bool, nowMs: int,
    refresh: Result<AuthResponse, AuthErrors.AuthError>,
    perms: Result<UserPermissions, AuthErrors.AuthError>, path: string)
    ensures var d := Decide(stored, loadFails, nowMs, refresh, perms, path);
      Replay(stored, d.writes) == (if d.isAuthenticated then d.user else if d.writes == [] then stored else None)
  {
  }

  // ---------------------------------------------------------------------------
  // The imperative handler

  /** `context.locals`. */
  class Locals {
    var isAuthenticated: bool
    var user: Option<SessionUser>

    constructor()
      ensures !isAuthenticated && user == None
    {
      isAuthenticated := false;
      user := None;
    }
  }

  /**
   * `onRequest`: assigns the locals and writes the session step by step;
   * the outcome is the one `Decide` describes.
   */
  method OnRequest(
    store: SessionStore, locals: Locals, path: string, nowMs: int, loadFails: bool,
    refresh: Result<AuthResponse, AuthErrors.AuthError>,
    perms: Result<UserPermissions, AuthErrors.AuthError>)
    returns (response: Response, calls: seq<ServiceCall>)
    requires store.Valid()
    modifies store, locals
    ensures store.Valid()
    ensures var d := Decide(old(store.user), loadFails, nowMs, refresh, perms, path);
      && response == d.response && calls == d.calls
      && locals.isAuthenticated == d.isAuthenticated && locals.user == d.user
      && store.history == old(store.history) + d.writes
      && store.user == Replay(old(store.user), d.writes)
  {
    locals.isAuthenticated := false;
    locals.user := None;
    calls := [];
    if loadFails {
      store.Destroy();
      locals.user := None;
      locals.isAuthenticated := false;
      if Routes.MatchesRoutePattern(path, ProtectedRoutes) {
        return Redirect(SessionErrorPath), calls;
      }
      return Next, calls;
    }
    var sessionUser := store.Get();
    if sessionUser.Some? {
      var u := sessionUser.value;
      if IsTokenExpired(nowMs, u.expires_at) {
        calls := calls + [RefreshToken(u.refresh_token)];
        if refresh.Success? {
          calls := calls + [GetUserPermissions(refresh.value.access_token)];
        }
        if refresh.Success? && perms.Success? {
          var updated := CreateSessionUser(refresh.value, perms.value.permissions);
          store.Set(updated);
          locals.user := Some(updated);
          locals.isAuthenticated := true;
        } else {
          store.Destroy();
          locals.user := None;
          locals.isAuthenticated := false;
        }
      } else {
        locals.user := sessionUser;
        locals.isAuthenticated := true;
      }
    }
    var isAuthRoute := Routes.MatchesRoutePattern(path, AuthRoutes);
    var isProtected := Routes.MatchesRoutePattern(path, ProtectedRoutes);
    if isAuthRoute && locals.isAuthenticated {
      return Redirect(DashboardPath), calls;
    }
    if isProtected && !locals.isAuthenticated {
      return Redirect(LoginRedirectPrefix + JsStrings.EncodeURIComponent(path)), calls;
    }
    if isProtected && locals.isAuthenticated && locals.user.Some? {
      if !HasRoutePermission(locals.user.value, path) {
        return Redirect(UnauthorizedPath), calls;
      }
    }
    return Next, calls;
  }
}
