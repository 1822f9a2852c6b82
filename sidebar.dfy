/**
 * The sidebar configuration and the utilities that tailor it to a user:
 * permission and role filters on items and groups, ordering by `order`, the
 * active-route test and the search for the active item. Icons are not kept.
 */
module Sidebar {
  import opened Wrappers
  import Seqs
  import AuthHelpers

  datatype SidebarItem = SidebarItem(
    caption: string,   // the item's `label`
    href: string,
    permissions: Option<seq<string>>,
    roles: Option<seq<string>>)

  datatype SidebarGroup = SidebarGroup(
    id: string,
    title: string,
    items: seq<SidebarItem>,
    permissions: Option<seq<string>>,
    roles: Option<seq<string>>,
    order: int)

  function Item(caption: string, href: string, permissions: seq<string>): SidebarItem
  {
    SidebarItem(caption, href, Some(permissions), None)
  }

  function Group(id: string, title: string, order: int, permissions: seq<string>, items: seq<SidebarItem>): SidebarGroup
  {
    SidebarGroup(id, title, items, Some(permissions), None, order)
  }

  /** `sidebarGroups`. */
  const SidebarGroups: seq<SidebarGroup> := [
    Group("dashboard", "Dashboard", 1, ["dashboard.access"], [
      Item("Resumen General", "/dashboard", ["dashboard.access"])]),
    Group("appointments", "Citas", 2, ["appointments.read"], [
      Item("Todas las Citas", "/appointment", ["appointments.read"]),
      Item("Agendar Cita", "/appointment/new", ["appointments.create"]),
      Item("Citas de Hoy", "/appointment/today", ["appointments.read"]),
      Item("Calendario", "/appointment/calendar", ["appointments.read"])]),
    Group("patients", "Pacientes", 3, ["profiles.read"], [
      Item("Todos los Pacientes", "/patients", ["profiles.read"]),
      Item("Registrar Paciente", "/patients/new", ["profiles.create"])]),
    Group("doctors", "Doctores", 4, ["users.read"], [
      Item("Especialistas", "/doctors", ["users.read"]),
      Item("Disponibilidad", "/doctors/availability", ["schedules.read"])]),
    Group("services", "Servicios", 5, ["services.read"], [
      Item("Consulta General", "/services", ["services.read"])]),
    Group("histories", "Historiales", 6, ["profiles.read"], [
      Item("Historiales Médicos", "/histories", ["profiles.read"])]),
    Group("reports", "Reportes", 7, ["reports.read"], [
      Item("Estadísticas", "/reports", ["reports.read"]),
      Item("Financieros", "/reports/financial", ["reports.read"])]),
    Group("settings", "Configuración", 8, ["settings.read"], [
      Item("General", "/settings/general", ["settings.read"]),
      Item("Usuarios", "/settings/users", ["users.read", "admin.access"])])
  ]

  // ---------------------------------------------------------------------------
  // Filters

  /** An absent or empty list places no restriction. */
  predicate Unrestricted(list: Option<seq<string>>)
  {
    list.None? || list.value == []
  }

  /** Absent or empty permissions, or one of them held. */
  predicate ItemAllowed(permissions: seq<string>, item: SidebarItem)
  {
    Unrestricted(item.permissions) || AuthHelpers.HasAnyPermission(permissions, item.permissions.value)
  }

  function AllowedBy(permissions: seq<string>): SidebarItem -> bool
  {
    item => ItemAllowed(permissions, item)
  }

  /** `filterItemsByPermissions`: exactly the allowed items, in order. */
  function FilterItemsByPermissions(items: seq<SidebarItem>, permissions: seq<string>): (r: seq<SidebarItem>)
    ensures Seqs.KeepsExactly(r, items, AllowedBy(permissions))
    ensures forall k :: 0 <= k < |r| ==>
      Unrestricted(r[k].permissions) || exists j :: 0 <= j < |r[k].permissions.value| && r[k].permissions.value[j] in permissions
  {
    Seqs.FilterKeepsExactly(items, AllowedBy(permissions));
    var r := Seqs.Filter(items, AllowedBy(permissions));
    assert forall k :: 0 <= k < |r| ==> ItemAllowed(permissions, r[k]);
    r
  }

  predicate RoleAllowed(role: string, item: SidebarItem)
  {
    Unrestricted(item.roles) || role in item.roles.value
  }

  function RoleBy(role: string): SidebarItem -> bool
  {
    item => RoleAllowed(role, item)
  }

  /** `filterItemsByRole`: exactly the items open to every role or listing this one, in order. */
  function FilterItemsByRole(items: seq<SidebarItem>, role: string): (r: seq<SidebarItem>)
    ensures Seqs.KeepsExactly(r, items, RoleBy(role))
    ensures forall k :: 0 <= k < |r| ==> Unrestricted(r[k].roles) || role in r[k].roles.value
  {
    Seqs.FilterKeepsExactly(items, RoleBy(role));
    var r := Seqs.Filter(items, RoleBy(role));
    assert forall k :: 0 <= k < |r| ==> RoleAllowed(role, r[k]);
    r
  }

  /** A group survives when its own permissions allow the user and one of its items does. */
  predicate GroupSurvives(permissions: seq<string>, g: SidebarGroup)
  {
    && (Unrestricted(g.permissions) || AuthHelpers.HasAnyPermission(permissions, g.permissions.value))
    && |FilterItemsByPermissions(g.items, permissions)| > 0
  }

  function SurvivesFor(permissions: seq<string>): SidebarGroup -> bool
  {
    g => GroupSurvives(permissions, g)
  }

  /** The group with its items narrowed to those the user may see. */
  function Narrowed(permissions: seq<string>): SidebarGroup -> SidebarGroup
  {
    (g: SidebarGroup) => g.(items := FilterItemsByPermissions(g.items, permissions))
  }

  /**
   * `filterGroupsByPermissions`: the surviving groups, in order, each with
   * every field kept except its items, which become the allowed items.
   */
  function FilterGroupsByPermissions(groups: seq<SidebarGroup>, permissions: seq<string>): (r: seq<SidebarGroup>)
    ensures exists kept: seq<SidebarGroup> ::
      && Seqs.KeepsExactly(kept, groups, SurvivesFor(permissions))
      && |r| == |kept|
      && forall k :: 0 <= k < |r| ==> r[k] == kept[k].(items := FilterItemsByPermissions(kept[k].items, permissions))
    ensures forall k :: 0 <= k < |r| ==> |r[k].items| > 0
  {
    var kept := Seqs.Filter(groups, SurvivesFor(permissions));
    Seqs.FilterKeepsExactly(groups, SurvivesFor(permissions));
    var r := Seqs.Map(kept, Narrowed(permissions));
    assert forall k :: 0 <= k < |r| ==> GroupSurvives(permissions, kept[k]);
    r
  }

  function RoleNarrowed(role: string): SidebarGroup -> SidebarGroup
  {
    (g: SidebarGroup) => g.(items := FilterItemsByRole(g.items, role))
  }

  predicate OrderLe(a: SidebarGroup, b: SidebarGroup)
  {
    a.order <= b.order
  }

  /** The comparator `(a, b) => a.order - b.order`. */
  function ByOrder(): (SidebarGroup, SidebarGroup) -> bool
  {
    (a: SidebarGroup, b: SidebarGroup) => OrderLe(a, b)
  }

  lemma ByOrderTotalPreorder()
    ensures Seqs.TotalPreorder(ByOrder())
  {
    var le := ByOrder();
    forall a, b ensures le(a, b) || le(b, a) {
      assert le(a, b) == OrderLe(a, b) && le(b, a) == OrderLe(b, a);
    }
    forall a, b, c | le(a, b) && le(b, c) ensures le(a, c) {
      assert le(a, b) == OrderLe(a, b) && le(b, c) == OrderLe(b, c) && le(a, c) == OrderLe(a, c);
    }
  }

  /** The groups of `getSidebarForUser` before sorting: permission filter, then role filter. */
  function RoleFiltered(groups: seq<SidebarGroup>, permissions: seq<string>, role: string): seq<SidebarGroup>
  {
    Seqs.Map(FilterGroupsByPermissions(groups, permissions), RoleNarrowed(role))
  }

  /** `getSidebarForUser` over any configuration. */
  function SidebarFor(groups: seq<SidebarGroup>, permissions: seq<string>, role: string): (r: seq<SidebarGroup>)
  {
    Seqs.SortBy(RoleFiltered(groups, permissions, role), ByOrder())
  }

  /** `getSidebarForUser(userPermissions, userRole)` over `sidebarGroups`. */
  function GetSidebarForUser(permissions: seq<string>, role: string): seq<SidebarGroup>
  {
    SidebarFor(SidebarGroups, permissions, role)
  }

  /** The sidebar is the filtered groups, rearranged into non-decreasing `order`. */
  lemma SidebarSortedPermutation(groups: seq<SidebarGroup>, permissions: seq<string>, role: string)
    ensures multiset(SidebarFor(groups, permissions, role)) == multiset(RoleFiltered(groups, permissions, role))
    ensures forall i, j :: 0 <= i < j < |SidebarFor(groups, permissions, role)| ==>
      SidebarFor(groups, permissions, role)[i].order <= SidebarFor(groups, permissions, role)[j].order
  {
    var s := RoleFiltered(groups, permissions, role);
    Seqs.SortByPermutes(s, ByOrder());
    ByOrderTotalPreorder();
    Seqs.SortBySorted(s, ByOrder());
    var r := SidebarFor(groups, permissions, role);
    forall i, j | 0 <= i < j < |r| ensures r[i].order <= r[j].order {
      assert ByOrder()(r[i], r[j]);
    }
  }

  /** The role filter runs after the emptiness check, so a returned group can have no items. */
  lemma RoleFilterCanEmptyAGroup()
    ensures var item := SidebarItem("Usuarios", "/settings/users", None, Some(["admin"]));
      var g := SidebarGroup("settings", "Configuración", [item], None, None, 1);
      SidebarFor([g], [], "doctor") == [g.(items := [])]
  {
    var item := SidebarItem("Usuarios", "/settings/users", None, Some(["admin"]));
    var g := SidebarGroup("settings", "Configuración", [item], None, None, 1);
    assert ItemAllowed([], item);
    assert FilterItemsByPermissions([item], []) == [item];
    assert GroupSurvives([], g);
    assert Seqs.Filter([g], SurvivesFor([])) == [g];
    assert FilterGroupsByPermissions([g], []) == [g];
    assert !RoleAllowed("doctor", item);
    assert FilterItemsByRole([item], "doctor") == [];
    assert RoleFiltered([g], [], "doctor") == [g.(items := [])];
  }

  /** Every shipped group requires at least one permission. */
  predicate GroupsRequirePermissions(groups: seq<SidebarGroup>)
  {
    forall i :: 0 <= i < |groups| ==> groups[i].permissions.Some? && groups[i].permissions.value != []
  }

  lemma ShippedGroupsRequirePermissions()
    ensures GroupsRequirePermissions(SidebarGroups)
  {
    forall i | 0 <= i < |SidebarGroups|
      ensures SidebarGroups[i].permissions.Some? && SidebarGroups[i].permissions.value != []
    {
    }
  }

  /** Without permissions no group that requires one survives. */
  lemma NoPermissionsNoSidebar(groups: seq<SidebarGroup>, role: string)
    requires GroupsRequirePermissions(groups)
    ensures SidebarFor(groups, [], role) == []
  {
    forall i | 0 <= i < |groups| ensures !SurvivesFor([])(groups[i]) {
      assert !AuthHelpers.HasAnyPermission([], groups[i].permissions.value);
    }
    Seqs.FilterNone(groups, SurvivesFor([]));
  }

  /** A user with no permissions gets an empty sidebar from the shipped configuration. */
  lemma NoPermissionsEmptySidebar(role: string)
    ensures GetSidebarForUser([], role) == []
  {
    ShippedGroupsRequirePermissions();
    NoPermissionsNoSidebar(SidebarGroups, role);
  }

  // ---------------------------------------------------------------------------
  // Active route

  /** `isActiveRoute(currentPath, itemHref)`. */
  predicate IsActiveRoute(currentPath: string, href: string)
  {
    if href == "/dashboard" && currentPath == "/dashboard" then true
    else if href != "/dashboard" && href <= currentPath then true
    else currentPath == href
  }

  /** /dashboard is active only on itself; any other link on every path it prefixes. */
  lemma ActiveRouteIff(currentPath: string, href: string)
    ensures IsActiveRoute(currentPath, href) <==>
      if href == "/dashboard" then currentPath == "/dashboard" else href <= currentPath
  {
  }

  /** The items of all groups, group after group. */
  function AllItems(groups: seq<SidebarGroup>): (r: seq<SidebarItem>)
  {
    if groups == [] then [] else groups[0].items + AllItems(groups[1..])
  }

  /** The inner loop of `findActiveItem`. */
  function FindInItems(items: seq<SidebarItem>, currentPath: string): (r: Option<SidebarItem>)
    ensures r.Some? ==> FirstActive(items, currentPath, r.value)
    ensures r.None? <==> forall k :: 0 <= k < |items| ==> !IsActiveRoute(currentPath, items[k].href)
  {
    if items == [] then None
    else if IsActiveRoute(currentPath, items[0].href) then Some(items[0])
    else
      var r := FindInItems(items[1..], currentPath);
      assert forall k :: 1 <= k < |items| ==> items[k] == items[1..][k - 1];
      r
  }

  /** First active item, in `items` then `rest` order. */
  ghost predicate FirstActive(items: seq<SidebarItem>, currentPath: string, x: SidebarItem)
  {
    exists k ::
      && 0 <= k < |items| && items[k] == x && IsActiveRoute(currentPath, items[k].href)
      && forall j :: 0 <= j < k ==> !IsActiveRoute(currentPath, items[j].href)
  }

  lemma FirstActiveConcat(a: seq<SidebarItem>, b: seq<SidebarItem>, currentPath: string, x: SidebarItem)
    requires (FirstActive(a, currentPath, x))
      || ((forall k :: 0 <= k < |a| ==> !IsActiveRoute(currentPath, a[k].href)) && FirstActive(b, currentPath, x))
    ensures FirstActive(a + b, currentPath, x)
  {
    if FirstActive(a, currentPath, x) {
      var k :| 0 <= k < |a| && a[k] == x && IsActiveRoute(currentPath, a[k].href)
        && forall j :: 0 <= j < k ==> !IsActiveRoute(currentPath, a[j].href);
      assert (a + b)[k] == x;
      assert forall j :: 0 <= j < k ==> (a + b)[j] == a[j];
    } else {
      var k :| 0 <= k < |b| && b[k] == x && IsActiveRoute(currentPath, b[k].href)
        && forall j :: 0 <= j < k ==> !IsActiveRoute(currentPath, b[j].href);
      assert (a + b)[|a| + k] == x;
      assert forall j :: 0 <= j < |a| + k ==> (a + b)[j] == if j < |a| then a[j] else b[j - |a|];
    }
  }

  /**
   * `findActiveItem(groups, currentPath)`: the first active item in
   * group-then-item order, or none when no item is active.
   */
  function FindActiveItem(groups: seq<SidebarGroup>, currentPath: string): (r: Option<SidebarItem>)
    ensures r.Some? ==> FirstActive(AllItems(groups), currentPath, r.value)
    ensures r.None? <==> forall k :: 0 <= k < |AllItems(groups)| ==> !IsActiveRoute(currentPath, AllItems(groups)[k].href)
  {
    if groups == [] then None
    else
      var items := groups[0].items;
      var rest := AllItems(groups[1..]);
      assert AllItems(groups) == items + rest;
      assert forall k :: 0 <= k < |items + rest| ==> (items + rest)[k] == if k < |items| then items[k] else rest[k - |items|];
      match FindInItems(items, currentPath)
      case Some(x) =>
        FirstActiveConcat(items, rest, currentPath, x);
        Some(x)
      case None =>
        var r := FindActiveItem(groups[1..], currentPath);
        if r.Some? then FirstActiveConcat(items, rest, currentPath, r.value); r else r
  }
}
