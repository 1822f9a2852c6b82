/**
 * The central route configuration and its classifier: prefix and wildcard
 * matching, the longest-prefix lookup of required permissions, the any-of
 * access check, the landing page per role and the available-routes filter.
 */
module Routes {
  import opened Wrappers
  import JsStrings
  import Seqs
  import AuthHelpers

  const PublicRoutes: seq<string> := [
    "/", "/auth/login", "/auth/register", "/auth/forgot-password", "/auth/reset-password",
    "/unauthorized", "/api", "/legal/terms", "/legal/privacy"
  ]

  const AuthRoutes: seq<string> := ["/auth/login", "/auth/register", "/auth/forgot-password", "/auth/reset-password"]

  const ProtectedRoutes: seq<string> := [
    "/dashboard", "/appointment", "/doctors", "/auth/logout", "/services",
    "/patients", "/histories", "/reports", "/settings", "/profile"
  ]

  /** The restricted routes and their permissions, in the record's key order. */
  const Restricted: seq<(string, seq<string>)> := [
    ("/settings/users", ["users.read", "admin.access"]),
    ("/settings/roles", ["roles.read", "admin.access"]),
    ("/settings/permissions", ["permissions.read", "admin.access"]),
    ("/users", ["users.read"]),
    ("/users/create", ["users.create"]),
    ("/users/edit", ["users.update"]),
    ("/users/delete", ["users.delete"]),
    ("/appointment", ["appointments.read"]),
    ("/appointment/new", ["appointments.create"]),
    ("/appointment/edit", ["appointments.update"]),
    ("/appointment/delete", ["appointments.delete"]),
    ("/appointment/confirm", ["appointments.confirm"]),
    ("/appointment/cancel", ["appointments.cancel"]),
    ("/appointment/reschedule", ["appointments.reschedule"]),
    ("/appointment/check-in", ["appointments.check_in"]),
    ("/doctors", ["users.read"]),
    ("/doctors/schedules", ["schedules.read"]),
    ("/doctors/availability", ["schedules.read"]),
    ("/services", ["services.read"]),
    ("/services/create", ["services.create"]),
    ("/services/edit", ["services.update"]),
    ("/services/delete", ["services.delete"]),
    ("/patients", ["profiles.read"]),
    ("/patients/new", ["profiles.create"]),
    ("/patients/edit", ["profiles.update"]),
    ("/patients/delete", ["profiles.delete"]),
    ("/histories", ["profiles.read"]),
    ("/histories/create", ["profiles.create"]),
    ("/histories/edit", ["profiles.update"]),
    ("/reports", ["reports.read"]),
    ("/reports/create", ["reports.create"]),
    ("/reports/financial", ["reports.read"]),
    ("/settings", ["settings.read"]),
    ("/settings/general", ["settings.read"]),
    ("/settings/update", ["settings.update"])
  ]

  // ---------------------------------------------------------------------------
  // Pattern matching

  predicate EndsWithStar(route: string)
  {
    |route| > 0 && route[|route| - 1] == '*'
  }

  /** One route of `matchesRoutePattern`: exact, wildcard, API route or plain prefix. */
  predicate RouteMatches(path: string, route: string)
  {
    if route == path then true
    else if EndsWithStar(route) then route[..|route| - 1] <= path
    else if JsStrings.Includes(route, "/api") then route <= path
    else route <= path
  }

  /** The exact-match and API branches add nothing: matching is by prefix, less a trailing '*'. */
  lemma RouteMatchesIsPrefix(path: string, route: string)
    ensures RouteMatches(path, route) <==>
      if EndsWithStar(route) then route[..|route| - 1] <= path else route <= path
  {
    if route == path && EndsWithStar(route) {
      assert route[..|route| - 1] == path[..|route| - 1];
    }
  }

  /** `matchesRoutePattern(pathname, routes)`: some route matches. */
  function MatchesRoutePattern(path: string, routes: seq<string>): (b: bool)
    ensures b <==> exists i :: 0 <= i < |routes| && RouteMatches(path, routes[i])
  {
    if routes == [] then false else RouteMatches(path, routes[0]) || MatchesRoutePattern(path, routes[1..])
  }

  predicate IsPublicRoute(path: string)
  {
    MatchesRoutePattern(path, PublicRoutes)
  }

  predicate IsAuthRoute(path: string)
  {
    MatchesRoutePattern(path, AuthRoutes)
  }

  predicate IsProtectedRoute(path: string)
  {
    MatchesRoutePattern(path, ProtectedRoutes)
  }

  /** '/' is public and matching is by prefix, so every absolute path counts as public. */
  lemma EveryAbsolutePathIsPublic(path: string)
    requires |path| > 0 && path[0] == '/'
    ensures IsPublicRoute(path)
  {
    assert PublicRoutes[0] == "/";
    assert "/" <= path;
    assert RouteMatches(path, PublicRoutes[0]);
  }

  // ---------------------------------------------------------------------------
  // Required permissions: exact key first, then the longest key that is a prefix

  function Keys(table: seq<(string, seq<string>)>): (ks: seq<string>)
    ensures |ks| == |table| && forall i :: 0 <= i < |table| ==> ks[i] == table[i].0
  {
    Seqs.Map(table, (e: (string, seq<string>)) => e.0)
  }

  /** `record[key]`: the value of the first entry with that key. */
  function LookupPermissions(table: seq<(string, seq<string>)>, key: string): (r: Option<seq<string>>)
    ensures r.Some? <==> exists i :: 0 <= i < |table| && table[i].0 == key
    ensures r.Some? ==> exists i :: 0 <= i < |table| && table[i] == (key, r.value)
  {
    if table == [] then None
    else if table[0].0 == key then Some(table[0].1)
    else LookupPermissions(table[1..], key)
  }

  /** The sort comparator `(a, b) => b.length - a.length`: longer keys first. */
  function LongerFirst(): (string, string) -> bool
  {
    (a: string, b: string) => JsStrings.JsLength(a) >= JsStrings.JsLength(b)
  }

  function SortedKeys(table: seq<(string, seq<string>)>): seq<string>
  {
    Seqs.SortBy(Keys(table), LongerFirst())
  }

  function PrefixOf(path: string): string -> bool
  {
    k => k <= path
  }

  /** The for-loop of `getRequiredPermissions`: the first sorted key that is a prefix of the path. */
  function PrefixSearch(table: seq<(string, seq<string>)>, path: string): seq<string>
  {
    var sorted := SortedKeys(table);
    match Seqs.FindIndex(sorted, PrefixOf(path))
    case None => []
    case Some(i) => LookupPermissions(table, sorted[i]).GetOr([])
  }

  function RequiredPermissionsIn(table: seq<(string, seq<string>)>, path: string): seq<string>
  {
    match LookupPermissions(table, path)
    case Some(v) => v
    case None => PrefixSearch(table, path)
  }

  /** `getRequiredPermissions(pathname)` over the shipped configuration. */
  function GetRequiredPermissions(path: string): seq<string>
  {
    RequiredPermissionsIn(Restricted, path)
  }

  /** `k` is a key, a prefix of the path, and no key that is a prefix of the path is longer. */
  ghost predicate IsLongestPrefixKey(table: seq<(string, seq<string>)>, path: string, k: string)
  {
    && (exists i :: 0 <= i < |table| && table[i].0 == k)
    && k <= path
    && forall i :: 0 <= i < |table| && table[i].0 <= path ==> |table[i].0| <= |k|
  }

  /** Two prefixes of the same path with the same length are the same string. */
  lemma LongestPrefixKeyUnique(table: seq<(string, seq<string>)>, path: string, k1: string, k2: string)
    requires IsLongestPrefixKey(table, path, k1) && IsLongestPrefixKey(table, path, k2)
    ensures k1 == k2
  {
    var i1 :| 0 <= i1 < |table| && table[i1].0 == k1;
    var i2 :| 0 <= i2 < |table| && table[i2].0 == k2;
    assert |k1| == |k2|;
    assert k1 == path[..|k1|] && k2 == path[..|k2|];
  }

  lemma {:induction false} JsLengthConcat(a: string, b: string)
    ensures JsStrings.JsLength(a + b) == JsStrings.JsLength(a) + JsStrings.JsLength(b)
  {
    if a != [] {
      assert (a + b)[0] == a[0] && (a + b)[1..] == a[1..] + b;
      JsLengthConcat(a[1..], b);
    } else {
      assert a + b == b;
    }
  }

  /** Of two prefixes of one path, the one with more characters has more code units. */
  lemma PrefixLengths(path: string, a: string, b: string)
    requires a <= path && b <= path
    ensures |a| < |b| ==> JsStrings.JsLength(a) < JsStrings.JsLength(b)
  {
    if |a| < |b| {
      var rest := b[|a|..];
      assert b == a + rest by { assert a == path[..|a|] && b == path[..|b|]; }
      JsLengthConcat(a, rest);
    }
  }

  predicate LongerOrEqual(a: string, b: string)
  {
    JsStrings.JsLength(a) >= JsStrings.JsLength(b)
  }

  lemma LongerFirstTotalPreorder()
    ensures Seqs.TotalPreorder(LongerFirst())
  {
    var le := LongerFirst();
    forall a, b ensures le(a, b) || le(b, a) {
      assert le(a, b) == LongerOrEqual(a, b) && le(b, a) == LongerOrEqual(b, a);
    }
    forall a, b, c | le(a, b) && le(b, c) ensures le(a, c) {
      assert le(a, b) == LongerOrEqual(a, b) && le(b, c) == LongerOrEqual(b, c);
    }
  }

  /** The sorted keys are the keys, longest first. */
  lemma SortedKeysFacts(table: seq<(string, seq<string>)>)
    ensures Seqs.SortedBy(SortedKeys(table), LongerFirst())
    ensures forall x :: x in SortedKeys(table) <==> x in Keys(table)
  {
    var keys := Keys(table);
    Seqs.SortByPermutes(keys, LongerFirst());
    LongerFirstTotalPreorder();
    Seqs.SortBySorted(keys, LongerFirst());
    forall x ensures x in SortedKeys(table) <==> x in keys {
      assert x in SortedKeys(table) <==> x in multiset(SortedKeys(table));
      assert x in keys <==> x in multiset(keys);
    }
  }

  /** In a list sorted longest first, the first prefix of the path is a longest one. */
  lemma FirstPrefixIsLongest(sorted: seq<string>, path: string, j: nat)
    requires Seqs.SortedBy(sorted, LongerFirst())
    requires Seqs.FindIndex(sorted, PrefixOf(path)) == Some(j)
    ensures sorted[j] <= path
    ensures forall x :: x in sorted && x <= path ==> |x| <= |sorted[j]|
  {
    assert PrefixOf(path)(sorted[j]);
    forall x | x in sorted && x <= path ensures |x| <= |sorted[j]| {
      var m :| 0 <= m < |sorted| && sorted[m] == x;
      assert PrefixOf(path)(sorted[m]);
      if j < m {
        assert LongerFirst()(sorted[j], sorted[m]);
      }
      PrefixLengths(path, sorted[j], x);
    }
  }

  /** The prefix search returns the permissions of the longest key that is a prefix of the path. */
  lemma PrefixSearchIsLongest(table: seq<(string, seq<string>)>, path: string)
    ensures forall k :: IsLongestPrefixKey(table, path, k) ==> PrefixSearch(table, path) == LookupPermissions(table, k).value
    ensures (forall i :: 0 <= i < |table| ==> !(table[i].0 <= path)) ==> PrefixSearch(table, path) == []
  {
    SortedKeysFacts(table);
    var keys := Keys(table);
    var sorted := SortedKeys(table);
    match Seqs.FindIndex(sorted, PrefixOf(path))
    case None =>
      forall i | 0 <= i < |table| ensures !(table[i].0 <= path) {
        assert keys[i] in sorted;
        var m :| 0 <= m < |sorted| && sorted[m] == keys[i];
        assert !PrefixOf(path)(sorted[m]);
      }
    case Some(j) =>
      var found := sorted[j];
      FirstPrefixIsLongest(sorted, path, j);
      assert found in keys;
      var fi :| 0 <= fi < |keys| && keys[fi] == found;
      assert IsLongestPrefixKey(table, path, found) by {
        forall i | 0 <= i < |table| && table[i].0 <= path ensures |table[i].0| <= |found| {
          assert keys[i] in sorted;
        }
      }
      forall k | IsLongestPrefixKey(table, path, k)
        ensures PrefixSearch(table, path) == LookupPermissions(table, k).value
      {
        LongestPrefixKeyUnique(table, path, k, found);
      }
  }

  /** When the path is itself a key, the exact-match shortcut agrees with the prefix search. */
  lemma ExactShortcutAgrees(table: seq<(string, seq<string>)>, path: string)
    requires LookupPermissions(table, path).Some?
    ensures PrefixSearch(table, path) == LookupPermissions(table, path).value
  {
    assert IsLongestPrefixKey(table, path, path) by {
      forall i | 0 <= i < |table| && table[i].0 <= path ensures |table[i].0| <= |path| {
      }
    }
    PrefixSearchIsLongest(table, path);
  }

  /**
   * `getRequiredPermissions` returns the permissions of the longest key
   * that is a prefix of the path, and [] when no key is.
   */
  lemma RequiredPermissionsIsLongestPrefix(table: seq<(string, seq<string>)>, path: string)
    ensures forall k :: IsLongestPrefixKey(table, path, k) ==> RequiredPermissionsIn(table, path) == LookupPermissions(table, k).value
    ensures (forall i :: 0 <= i < |table| ==> !(table[i].0 <= path)) ==> RequiredPermissionsIn(table, path) == []
  {
    PrefixSearchIsLongest(table, path);
    if LookupPermissions(table, path).Some? {
      ExactShortcutAgrees(table, path);
    }
  }

  predicate NonEmptyValues(table: seq<(string, seq<string>)>)
  {
    forall i :: 0 <= i < |table| ==> table[i].1 != []
  }

  /** Some key is a prefix of the path exactly when permissions are required. */
  lemma RequiredIffSomePrefixKey(table: seq<(string, seq<string>)>, path: string)
    requires NonEmptyValues(table)
    ensures RequiredPermissionsIn(table, path) != [] <==> exists i :: 0 <= i < |table| && table[i].0 <= path
  {
    RequiredPermissionsIsLongestPrefix(table, path);
    if exists i :: 0 <= i < |table| && table[i].0 <= path {
      var k := LongestPrefixKeyOf(table, path);
      var r := LookupPermissions(table, k);
      var i :| 0 <= i < |table| && table[i] == (k, r.value);
    }
  }

  /** Some key of greatest length among those that are prefixes of the path. */
  lemma {:induction false} LongestPrefixKeyOf(table: seq<(string, seq<string>)>, path: string) returns (k: string)
    requires exists i :: 0 <= i < |table| && table[i].0 <= path
    ensures IsLongestPrefixKey(table, path, k)
  {
    if !(exists i :: 1 <= i < |table| && table[i].0 <= path) {
      k := table[0].0;
      forall i | 0 <= i < |table| && table[i].0 <= path ensures |table[i].0| <= |k| {
        assert i == 0;
      }
    } else {
      var i1 :| 1 <= i1 < |table| && table[i1].0 <= path;
      assert table[1..][i1 - 1] == table[i1];
      var rest := LongestPrefixKeyOf(table[1..], path);
      var j :| 0 <= j < |table[1..]| && table[1..][j].0 == rest;
      assert table[j + 1].0 == rest;
      k := if table[0].0 <= path && |table[0].0| > |rest| then table[0].0 else rest;
      forall i | 0 <= i < |table| && table[i].0 <= path ensures |table[i].0| <= |k| {
        if i > 0 {
          assert table[1..][i - 1] == table[i];
        }
      }
    }
  }

  /** Every configured route requires at least one permission. */
  lemma RestrictedValuesNonEmpty()
    ensures NonEmptyValues(Restricted)
  {
    forall i | 0 <= i < |Restricted| ensures Restricted[i].1 != [] { }
  }

  /** `isRestrictedRoute(pathname)`. */
  predicate IsRestrictedRoute(path: string)
  {
    |GetRequiredPermissions(path)| > 0
  }

  /** Restricted exactly when some configured key is a prefix of the path. */
  lemma RestrictedIffPrefixKey(path: string)
    ensures IsRestrictedRoute(path) <==> exists i :: 0 <= i < |Restricted| && Restricted[i].0 <= path
  {
    RestrictedValuesNonEmpty();
    RequiredIffSomePrefixKey(Restricted, path);
  }

  // ---------------------------------------------------------------------------
  // Landing page, access check, available routes

  /** The `redirectMap` record: role to landing page. */
  function RedirectMap(role: string): Option<string>
  {
    match role
    case "super_admin" => Some("/dashboard")
    case "admin" => Some("/dashboard")
    case "doctor" => Some("/dashboard")
    case "nurse" => Some("/dashboard")
    case "receptionist" => Some("/appointment")
    case "patient" => Some("/dashboard")
    case "coordinator" => Some("/appointment")
    case "technician" => Some("/appointment")
    case _ => None
  }

  /**
   * `getDefaultRedirectAfterLogin(userRole)`: receptionists, coordinators and
   * technicians land on /appointment, every other role, known or not, on
   * /dashboard.
   */
  function GetDefaultRedirectAfterLogin(role: string): (r: string)
    ensures r == "/appointment" <==> role == "receptionist" || role == "coordinator" || role == "technician"
    ensures r != "/appointment" ==> r == "/dashboard"
  {
    match RedirectMap(role)
    case Some(target) => if target != "" then target else "/dashboard"
    case None => "/dashboard"
  }

  /**
   * `canAccessRoute(userPermissions, pathname)`: open when nothing is
   * required, otherwise one of the required permissions must be held.
   */
  function CanAccessRoute(permissions: seq<string>, path: string): (b: bool)
    ensures b <==> (GetRequiredPermissions(path) == []
                    || exists k :: 0 <= k < |GetRequiredPermissions(path)| && GetRequiredPermissions(path)[k] in permissions)
  {
    var required := GetRequiredPermissions(path);
    if |required| == 0 then true else AuthHelpers.HasAnyPermission(permissions, required)
  }

  /** A user holding only 'appointments.read' cannot reach /settings/users. */
  lemma AppointmentsReaderDeniedSettingsUsers()
    ensures !CanAccessRoute(["appointments.read"], "/settings/users")
  {
    assert Restricted[0] == ("/settings/users", ["users.read", "admin.access"]);
    assert GetRequiredPermissions("/settings/users") == ["users.read", "admin.access"];
  }

  /**
   * A key of 16 to 18 characters that differs from /settings/users at
   * position 1, 3 or 11.
   */
  predicate LeavesSettingsUsers(k: string)
  {
    |k| <= 15 || |k| > 18 || k[1] != 's' || k[3] != 't' || k[11] != 's'
  }

  // Entry by entry, no longer key starts like /settings/users.
  lemma LongKeysLeaveSettingsUsers0(i: int)
    requires 0 <= i < 12
    ensures LeavesSettingsUsers(Restricted[i].0)
  {
    match i
    case 0 => case 1 => case 2 => case 3 => case 4 => case 5 => case 6 =>
    case 7 => case 8 => case 9 => case 10 => case 11 =>
  }

  lemma LongKeysLeaveSettingsUsers1(i: int)
    requires 12 <= i < 24
    ensures LeavesSettingsUsers(Restricted[i].0)
  {
    match i
    case 12 => case 13 => case 14 => case 15 => case 16 => case 17 => case 18 =>
    case 19 => case 20 => case 21 => case 22 => case 23 =>
  }

  lemma LongKeysLeaveSettingsUsers2(i: int)
    requires 24 <= i < 35
    ensures LeavesSettingsUsers(Restricted[i].0)
  {
    match i
    case 24 => case 25 => case 26 => case 27 => case 28 => case 29 => case 30 =>
    case 31 => case 32 => case 33 => case 34 =>
  }

  /**
   * The prefix lookup ignores segment boundaries and prefers the longer
   * key: /settings/users/42 needs what /settings/users needs, not what
   * /settings needs.
   */
  lemma SettingsUserDetailNeedsUserAdmin()
    ensures GetRequiredPermissions("/settings/users/42") == ["users.read", "admin.access"]
  {
    var path := "/settings/users/42";
    assert Restricted[0] == ("/settings/users", ["users.read", "admin.access"]);
    assert IsLongestPrefixKey(Restricted, path, "/settings/users") by {
      forall i | 0 <= i < |Restricted| && Restricted[i].0 <= path
        ensures |Restricted[i].0| <= 15
      {
        if i < 12 {
          LongKeysLeaveSettingsUsers0(i);
        } else if i < 24 {
          LongKeysLeaveSettingsUsers1(i);
        } else {
          LongKeysLeaveSettingsUsers2(i);
        }
      }
    }
    RequiredPermissionsIsLongestPrefix(Restricted, path);
  }

  function AllRoutes(): seq<string>
  {
    ProtectedRoutes + Keys(Restricted)
  }

  function Accessible(permissions: seq<string>): string -> bool
  {
    route => CanAccessRoute(permissions, route)
  }

  /**
   * `getAvailableRoutes(userPermissions)`: the protected routes followed by
   * the restricted keys, keeping, in order and with repeats, exactly those
   * the user can access.
   */
  function GetAvailableRoutes(permissions: seq<string>): (r: seq<string>)
    ensures Seqs.KeepsExactly(r, AllRoutes(), Accessible(permissions))
  {
    Seqs.FilterKeepsExactly(AllRoutes(), Accessible(permissions));
    Seqs.Filter(AllRoutes(), Accessible(permissions))
  }
}
