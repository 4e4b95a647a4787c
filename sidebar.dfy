/**
 * The dashboard sidebar: the constant navigation tree, the filter that drops the
 * items the session user may not see (and then the groups left empty), and the
 * active-item test. Icons, descriptions and layout are presentation only.
 */
module Sidebar {
  import opened Wrappers
  import opened Seqs
  import opened Permissions
  import opened Auth
  import opened UsePermissions

  datatype NavItem = NavItem(href: string, name: string, permission: Option<Permission>, adminOnly: bool, comingSoon: bool)

  datatype NavGroup = NavGroup(name: string, items: seq<NavItem>)

  /** The navigation tree the component declares, group by group. */
  const NavGroups: seq<NavGroup> := [Overview, Studio, Administration, SupportAndProfile]

  const Overview := NavGroup("Übersicht", [
    NavItem("/dashboard", "Dashboard", None, false, false)])

  const Studio := NavGroup("Restlos Studio", [
    NavItem("/dashboard/marketing", "Marketing", Some(Marketing), false, false),
    NavItem("/dashboard/management", "Management", Some(Management), false, true),
    NavItem("/dashboard/projects", "Projekte", Some(Projects), false, true),
    NavItem("/dashboard/accounting", "Buchhaltung", Some(Accounting), false, true),
    NavItem("/dashboard/hr", "Personalwesen", Some(Hr), false, true)])

  const Administration := NavGroup("Administration", [
    NavItem("/dashboard/users", "Nutzerverwaltung", None, true, false),
    NavItem("/dashboard/settings", "Einstellungen", None, true, false)])

  const SupportAndProfile := NavGroup("Support & Profile", [
    NavItem("/dashboard/integrations", "Integrationen", None, false, false),
    NavItem("/dashboard/audiences", "Legacy: Zielgruppen", None, false, false),
    NavItem("/dashboard/support", "Support", None, false, false)])

  /** The item filter: admin-only items need `isAdmin()`, items with a permission need `canAccessDepartment`. */
  predicate Visible(session: Option<Claims>, item: NavItem) {
    && !(item.adminOnly && !IsAdmin(session))
    && !(item.permission.Some? && !CanAccessDepartment(session, item.permission.value))
  }

  function VisibleTo(session: Option<Claims>): NavItem -> bool {
    (item: NavItem) => Visible(session, item)
  }

  /** A group with its items filtered. */
  function Narrowed(session: Option<Claims>, g: NavGroup): NavGroup {
    g.(items := Filter(g.items, VisibleTo(session)))
  }

  /** `navGroups.map(...)`: every group narrowed, in order. */
  function NarrowAll(session: Option<Claims>, gs: seq<NavGroup>): (r: seq<NavGroup>)
    ensures |r| == |gs| && forall i :: 0 <= i < |gs| ==> r[i] == Narrowed(session, gs[i])
    decreases |gs|
  {
    if gs == [] then [] else [Narrowed(session, gs[0])] + NarrowAll(session, gs[1..])
  }

  function NonEmpty(g: NavGroup): bool {
    g.items != []
  }

  /** `getFilteredNavGroups` over any tree: narrow every group, then drop the empty ones. */
  function FilteredGroups(session: Option<Claims>, gs: seq<NavGroup>): seq<NavGroup> {
    Filter(NarrowAll(session, gs), NonEmpty)
  }

  /** `getFilteredNavGroups()`. */
  function FilteredNavGroups(session: Option<Claims>): seq<NavGroup> {
    FilteredGroups(session, NavGroups)
  }

  /** `pathname === item.href`. */
  predicate IsActive(pathname: string, item: NavItem) {
    pathname == item.href
  }

  /** A coming-soon item is rendered as a disabled button; every other item is a link. */
  predicate IsLink(item: NavItem) {
    !item.comingSoon
  }

  // ----- Properties -----

  /**
   * No group of the result is empty; every item shown passes the filter, so admin-only items
   * appear only for admins and permission items only with `canAccessDepartment`; every item of
   * the tree that passes is shown, in a group carrying its group's name.
   */
  lemma FilterRules(session: Option<Claims>, gs: seq<NavGroup>)
    ensures var r := FilteredGroups(session, gs);
      && (forall h :: h in r ==> h.items != [])
      && (forall h, it :: h in r && it in h.items ==> Visible(session, it))
      && (forall h, it :: h in r && it in h.items && it.adminOnly ==> IsAdmin(session))
      && (forall h, it :: h in r && it in h.items && it.permission.Some? ==> CanAccessDepartment(session, it.permission.value))
      && (forall g, it :: g in gs && it in g.items && Visible(session, it) ==>
            exists h :: h in r && h.name == g.name && it in h.items)
  {
    ShownAreVisible(session, gs);
    forall g, it | g in gs && it in g.items && Visible(session, it)
      ensures exists h :: h in FilteredGroups(session, gs) && h.name == g.name && it in h.items
    {
      VisibleIsShown(session, gs, g, it);
    }
  }

  /** Every shown group has items, and every shown item passes the filter. */
  lemma ShownAreVisible(session: Option<Claims>, gs: seq<NavGroup>)
    ensures forall h :: h in FilteredGroups(session, gs) ==> h.items != []
    ensures forall h, it :: h in FilteredGroups(session, gs) && it in h.items ==> Visible(session, it)
  {
    var r := FilteredGroups(session, gs);
    var n := NarrowAll(session, gs);
    forall h, it | h in r && it in h.items ensures Visible(session, it) {
      var i :| 0 <= i < |n| && n[i] == h;
    }
  }

  /** An item of the tree that passes the filter is shown in a group with its group's name. */
  lemma VisibleIsShown(session: Option<Claims>, gs: seq<NavGroup>, g: NavGroup, it: NavItem)
    requires g in gs && it in g.items && Visible(session, it)
    ensures exists h :: h in FilteredGroups(session, gs) && h.name == g.name && it in h.items
  {
    var n := NarrowAll(session, gs);
    var i :| 0 <= i < |gs| && gs[i] == g;
    var h := n[i];
    assert it in h.items;
    assert h in FilteredGroups(session, gs);
  }

  /** Items with neither `adminOnly` nor a permission are shown to everybody. */
  lemma UnrestrictedAlwaysShown(session: Option<Claims>, gs: seq<NavGroup>, g: NavGroup, it: NavItem)
    requires g in gs && it in g.items && !it.adminOnly && it.permission.None?
    ensures exists h :: h in FilteredGroups(session, gs) && h.name == g.name && it in h.items
  {
    FilterRules(session, gs);
  }

  /** The groups keep their order, and within each shown group the items keep theirs. */
  lemma FilterKeepsOrder(session: Option<Claims>, gs: seq<NavGroup>)
    ensures IsSubsequence(FilteredGroups(session, gs), NarrowAll(session, gs))
    ensures forall i :: 0 <= i < |gs| ==> IsSubsequence(NarrowAll(session, gs)[i].items, gs[i].items)
  {
    FilterIsSubsequence(NarrowAll(session, gs), NonEmpty);
    forall i | 0 <= i < |gs| ensures IsSubsequence(NarrowAll(session, gs)[i].items, gs[i].items) {
      FilterIsSubsequence(gs[i].items, VisibleTo(session));
    }
  }

  /** An admin sees every item of every group, and so every non-empty group. */
  lemma AdminSeesAll(session: Option<Claims>, gs: seq<NavGroup>)
    requires IsAdmin(session)
    requires forall i :: 0 <= i < |gs| ==> gs[i].items != []
    ensures FilteredGroups(session, gs) == gs
  {
    var n := NarrowAll(session, gs);
    forall i | 0 <= i < |gs| ensures n[i] == gs[i] {
      FilterAll(gs[i].items, VisibleTo(session));
    }
    assert n == gs;
    FilterAll(gs, NonEmpty);
  }

  /** An admin sees the whole tree. */
  lemma AdminSeesEverything(session: Option<Claims>)
    requires IsAdmin(session)
    ensures FilteredNavGroups(session) == NavGroups
  {
    AdminSeesAll(session, NavGroups);
  }

  /** Without a session only items with neither `adminOnly` nor a permission are visible. */
  lemma SignedOutVisible(it: NavItem)
    ensures Visible(None, it) <==> !it.adminOnly && it.permission.None?
  {
  }

  /** Without a session a group of unrestricted items is kept whole, and a group of restricted items is emptied. */
  lemma SignedOutGroup(g: NavGroup)
    ensures (forall it :: it in g.items ==> !it.adminOnly && it.permission.None?) ==> Narrowed(None, g) == g
    ensures (forall it :: it in g.items ==> it.adminOnly || it.permission.Some?) ==> Narrowed(None, g).items == []
  {
    forall it ensures Visible(None, it) <==> !it.adminOnly && it.permission.None? {
      SignedOutVisible(it);
    }
    if forall it :: it in g.items ==> !it.adminOnly && it.permission.None? {
      FilterAll(g.items, VisibleTo(None));
    }
    var f := Filter(g.items, VisibleTo(None));
    if f != [] {
      assert f[0] in f;
    }
  }

  /** The hrefs of the tree are distinct, so at most one item is active for any path. */
  lemma AtMostOneActive(pathname: string, g: nat, i: nat, h: nat, j: nat)
    requires g < |NavGroups| && i < |NavGroups[g].items| && h < |NavGroups| && j < |NavGroups[h].items|
    requires IsActive(pathname, NavGroups[g].items[i]) && IsActive(pathname, NavGroups[h].items[j])
    ensures g == h && i == j
  {
  }

  /** Exactly the four department items other than marketing are coming soon, and so are not links. */
  lemma ComingSoonItems(g: nat, i: nat)
    requires g < |NavGroups| && i < |NavGroups[g].items|
    ensures !IsLink(NavGroups[g].items[i]) <==> g == 1 && 1 <= i
  {
  }
}
