/**
 * The user-level authorization helpers: predicates over an optional session
 * user, the exact-key route permission table, display names and initials.
 */
module UserUtils {
  import opened Wrappers
  import opened AuthTypes
  import AuthHelpers
  import JsStrings
  import Seqs

  /** `isAuthenticated(user)`: a user is present. */
  predicate IsAuthenticated(user: Option<SessionUser>)
  {
    user.Some?
  }

  predicate HasRole(user: SessionUser, role: string)
  {
    user.role == role
  }

  predicate IsSuperAdmin(user: SessionUser)
  {
    user.role == "super_admin"
  }

  /** Being super admin is nothing but having the role 'super_admin'. */
  lemma SuperAdminIsRole(user: SessionUser)
    ensures IsSuperAdmin(user) <==> HasRole(user, "super_admin")
    ensures IsSuperAdmin(user) ==> forall r :: HasRole(user, r) <==> r == "super_admin"
  {
  }

  predicate HasPermission(user: SessionUser, permission: string)
  {
    AuthHelpers.HasPermission(user.permissions, permission)
  }

  predicate HasAnyPermission(user: SessionUser, permissions: seq<string>)
  {
    AuthHelpers.HasAnyPermission(user.permissions, permissions)
  }

  predicate HasAllPermissions(user: SessionUser, permissions: seq<string>)
  {
    AuthHelpers.HasAllPermissions(user.permissions, permissions)
  }

  /** `every` of nothing holds, `some` of nothing fails, and for a real list all implies any. */
  lemma AllAndAnyForUser(user: SessionUser, permissions: seq<string>)
    ensures HasAllPermissions(user, []) && !HasAnyPermission(user, [])
    ensures permissions != [] && HasAllPermissions(user, permissions) ==> HasAnyPermission(user, permissions)
  {
    AuthHelpers.AllAndAny(user.permissions, permissions);
  }

  /** The route table of `canAccessRoute`, looked up by exact key. */
  const RoutePermissions: seq<(string, string)> := [
    ("/admin", "admin.access"),
    ("/dashboard", "dashboard.access"),
    ("/users", "users.read"),
    ("/profiles", "profiles.read"),
    ("/appointments", "appointments.read"),
    ("/locations", "locations.read"),
    ("/services", "services.read"),
    ("/schedules", "schedules.read"),
    ("/roles", "roles.read"),
    ("/permissions", "permissions.read"),
    ("/reports", "reports.read"),
    ("/settings", "settings.read")
  ]

  /** The permission list of an exact route key, or None for an unmapped route. */
  function RouteEntry(route: string): (r: Option<seq<string>>)
    ensures r.Some? <==> exists i :: 0 <= i < |RoutePermissions| && RoutePermissions[i].0 == route
    ensures forall i :: 0 <= i < |RoutePermissions| && RoutePermissions[i].0 == route ==> r == Some([RoutePermissions[i].1])
  {
    FindRoute(RoutePermissions, route)
  }

  function FindRoute(table: seq<(string, string)>, route: string): (r: Option<seq<string>>)
    requires forall i, j :: 0 <= i < j < |table| ==> table[i].0 != table[j].0
    ensures r.Some? <==> exists i :: 0 <= i < |table| && table[i].0 == route
    ensures forall i :: 0 <= i < |table| && table[i].0 == route ==> r == Some([table[i].1])
  {
    if table == [] then None
    else if table[0].0 == route then Some([table[0].1])
    else FindRoute(table[1..], route)
  }

  /**
   * `canAccessRoute(user, route)`: a route missing from the table is open;
   * a listed route needs one of its permissions.
   */
  function CanAccessRoute(user: SessionUser, route: string): (b: bool)
    ensures RouteEntry(route).None? ==> b
    ensures forall i :: 0 <= i < |RoutePermissions| && RoutePermissions[i].0 == route ==>
              (b <==> RoutePermissions[i].1 in user.permissions)
  {
    match RouteEntry(route)
    case None => true
    case Some(perms) =>
      assert HasAnyPermission(user, perms) <==> perms[0] in user.permissions;
      HasAnyPermission(user, perms)
  }

  /** Sub-paths are not listed, so they are open to every user, whatever the role. */
  lemma AdminSubPathOpen(user: SessionUser)
    ensures CanAccessRoute(user, "/admin/x")
  {
    forall i | 0 <= i < |RoutePermissions| ensures RoutePermissions[i].0 != "/admin/x" {
      match i
      case 0 => case 1 => case 2 => case 3 => case 4 => case 5 =>
      case 6 => case 7 => case 8 => case 9 => case 10 => case 11 =>
    }
  }

  /** The super_admin role is no bypass: without 'admin.access' the admin route is closed. */
  lemma SuperAdminNoBypass(user: SessionUser)
    requires "admin.access" !in user.permissions
    ensures !CanAccessRoute(user, "/admin")
  {
    assert RoutePermissions[0] == ("/admin", "admin.access");
  }

  // ---------------------------------------------------------------------------
  // Names

  /** `getFullName(user)`: `${first_name} ${last_name}`.trim(). */
  function GetFullName(user: SessionUser): string
  {
    JsStrings.Trim(user.first_name + " " + user.last_name)
  }

  /** With both names free of surrounding whitespace, the full name is the two joined by one space. */
  lemma FullNameOfTrimmedNames(user: SessionUser)
    requires user.first_name != "" && user.last_name != ""
    requires !JsStrings.IsWhiteSpace(user.first_name[0]) && !JsStrings.IsWhiteSpace(user.last_name[|user.last_name| - 1])
    ensures GetFullName(user) == user.first_name + " " + user.last_name
  {
    var s := user.first_name + " " + user.last_name;
    assert s[0] == user.first_name[0] && s[|s| - 1] == user.last_name[|user.last_name| - 1];
    assert JsStrings.LeadingWhiteSpace(s) == 0 && s[0..] == s;
    assert JsStrings.TrailingWhiteSpace(s) == 0;
  }

  /** A missing last name leaves no trailing space. */
  lemma FullNameWithoutLastName(user: SessionUser)
    requires user.last_name == "" && user.first_name != ""
    requires !JsStrings.IsWhiteSpace(user.first_name[0]) && !JsStrings.IsWhiteSpace(user.first_name[|user.first_name| - 1])
    ensures GetFullName(user) == user.first_name
  {
    var s := user.first_name + " ";
    assert s == user.first_name + " " + user.last_name;
    assert JsStrings.LeadingWhiteSpace(s) == 0 && s[0..] == s;
    assert s[..|s| - 1] == user.first_name;
    assert JsStrings.TrailingWhiteSpace(user.first_name) == 0;
    assert JsStrings.TrailingWhiteSpace(s) == 1;
  }

  /** `name.charAt(0).toUpperCase()`: "" for an empty name. */
  function Initial(name: string): (r: string)
    ensures name == "" <==> r == ""
    ensures |r| <= 2
    ensures name != "" ==> r == JsStrings.UpperChar(name[0])
  {
    if name == [] then "" else JsStrings.UpperChar(name[0])
  }

  /** `getInitials(user)`: the upper-cased first characters of both names. */
  function GetInitials(user: SessionUser): (r: string)
    ensures |r| <= 4
    ensures user.first_name == "" ==> r == Initial(user.last_name)
    ensures user.last_name == "" ==> r == Initial(user.first_name)
    ensures r == "" <==> user.first_name == "" && user.last_name == ""
    ensures user.first_name != "" && user.last_name != "" ==>
      r == JsStrings.UpperChar(user.first_name[0]) + JsStrings.UpperChar(user.last_name[0])
  {
    Initial(user.first_name) + Initial(user.last_name)
  }

  /** `isTokenExpiringSoon(user)`: the user's token expires within five minutes. */
  predicate IsTokenExpiringSoon(user: SessionUser, nowMs: int)
  {
    AuthHelpers.IsTokenExpiringSoon(nowMs, user.expires_at)
  }

  /**
   * The seconds are not rounded, so the token is expiring soon from the
   * millisecond (expires_at - 300) * 1000 on; an expired token is among them.
   */
  lemma ExpiringSoonFrom(user: SessionUser, nowMs: int)
    ensures IsTokenExpiringSoon(user, nowMs) <==> nowMs >= (user.expires_at - 300) * 1000
    ensures AuthHelpers.IsTokenExpired(nowMs, user.expires_at) ==> IsTokenExpiringSoon(user, nowMs)
  {
    if AuthHelpers.IsTokenExpired(nowMs, user.expires_at) {
      AuthHelpers.ExpiredIsExpiringSoon(nowMs, user.expires_at);
    }
  }

  /**
   * `groupPermissionsByCategory(permissions)`: the same grouping as the
   * identity service's helper of that name.
   */
  method GroupPermissionsByCategory(permissions: seq<string>) returns (grouped: map<string, seq<string>>, keys: seq<string>)
    ensures forall c :: c in grouped <==> exists k :: 0 <= k < |permissions| && AuthHelpers.Category(permissions[k]) == c
    ensures forall c :: c in grouped ==> grouped[c] == Seqs.Filter(permissions, AuthHelpers.InCategory(c))
    ensures forall k :: 0 <= k < |keys| ==> keys[k] in grouped
    ensures Seqs.NoDuplicates(keys) && AuthHelpers.SumSizes(grouped, keys) == |permissions|
  {
    grouped, keys := AuthHelpers.GroupPermissionsByCategory(permissions);
    AuthHelpers.GroupedSpec(permissions);
  }

  /** `canPerformCRUD(user, resource, action)`. */
  function CanPerformCrud(user: SessionUser, resource: string, action: AuthHelpers.CrudAction): (b: bool)
    ensures b <==> HasPermission(user, resource + "." + action.Name())
    ensures b <==> exists k :: 0 <= k < |user.permissions| && user.permissions[k] == resource + "." + action.Name()
  {
    AuthHelpers.CanPerformCrud(user.permissions, resource, action)
  }
}
