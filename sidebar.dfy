/**
 * The sidebar: the menu of the signed-in user's role, and the open flags of
 * its collapsible groups.
 */
module Sidebar {
  import opened Wrappers
  import opened Roles
  import opened Auth
  import opened Routes
  import opened App

  /** A navigation link: the target path as segments and its label. */
  datatype Link = Link(to: seq<string>, caption: string)

  /** A menu entry: a single link, or a labelled group of links. */
  datatype MenuItem = Single(link: Link) | Group(caption: string, subMenu: seq<Link>)

  const ProfileGroup: MenuItem := Group("Account Manager", [
    Link(["profile", "am"], "Profile AM"),
    Link(["profile", "am", "update"], "Update AM")
  ])

  const AdminMenu: seq<MenuItem> := [
    Single(Link(["executive"], "Executive Dashboard")),
    Single(Link(["admin", "approval"], "User Approval")),
    Single(Link(["manager", "approval"], "User Approval")),
    Group("ECRM Workspace", [
      Link(["ecrm-workspace"], "Data AM"),
      Link(["ecrm-workspace", "validation"], "Validation AM")
    ])
  ]

  const SalesMenu: seq<MenuItem> := [
    Single(Link([], "Beranda")),
    Single(Link(["customers"], "Pelanggan")),
    Single(Link(["contacts"], "Kontak")),
    Single(Link(["aktivitas"], "Aktivitas")),
    Single(Link(["sales-plans"], "Sales Plan")),
    ProfileGroup
  ]

  const ManagerMenu: seq<MenuItem> := [
    Single(Link(["manager"], "Dashboard Kinerja")),
    Single(Link(["manager", "sales-plans"], "Sales Plan")),
    Single(Link(["manager", "approval"], "User Approval")),
    ProfileGroup
  ]

  /** `MENU.base`. */
  const BaseMenu: seq<MenuItem> := []

  /** `MENU[role] || []`: the keys are the role identifiers and `base`, whose list is empty. */
  function MenuFor(role: Option<string>): (items: seq<MenuItem>)
    ensures role == Some(Id(Admin)) ==> items == AdminMenu
    ensures role == Some(Id(Sales)) ==> items == SalesMenu
    ensures role == Some(Id(Manager)) ==> items == ManagerMenu
    ensures role.None? || FromId(role.value).None? ==> items == []
  {
    if role == Some("admin") then AdminMenu
    else if role == Some("sales") then SalesMenu
    else if role == Some("manager") then ManagerMenu
    else []
  }

  /** What the sidebar renders: nothing without a user, else the base items and the role's items. */
  function ItemsFor(user: Option<Identity>): (r: Option<seq<MenuItem>>)
    ensures r.None? <==> user.None?
    ensures r.Some? ==> r.value == BaseMenu + MenuFor(user.value.role)
  {
    if user.None? then None else Some(BaseMenu + MenuFor(user.value.role))
  }

  /** A signed-in user whose role is outside the registry gets an empty menu. */
  lemma UnknownRoleEmptyMenu(user: Option<Identity>)
    requires user.Some? && (user.value.role.None? || FromId(user.value.role.value).None?)
    ensures ItemsFor(user) == Some([])
  {
  }

  /** A user holding a registry role gets that role's menu. */
  lemma RoleMenu(user: Option<Identity>, r: Role)
    requires user.Some? && user.value.role == Some(Id(r))
    ensures r == Admin ==> ItemsFor(user) == Some(AdminMenu)
    ensures r == Sales ==> ItemsFor(user) == Some(SalesMenu)
    ensures r == Manager ==> ItemsFor(user) == Some(ManagerMenu)
  {
    assert BaseMenu + MenuFor(user.value.role) == MenuFor(user.value.role);
  }

  /** The links one item shows. */
  function LinksOf(item: MenuItem): (ls: seq<Link>)
    ensures item.Single? ==> ls == [item.link]
    ensures item.Group? ==> ls == item.subMenu
  {
    match item
    case Single(l) => [l]
    case Group(_, sub) => sub
  }

  /** All links of a menu, in display order. */
  function Links(items: seq<MenuItem>): seq<Link> {
    if |items| == 0 then [] else LinksOf(items[0]) + Links(items[1..])
  }

  /** A link is shown iff some item shows it. */
  lemma {:induction false} InLinks(items: seq<MenuItem>, l: Link)
    ensures l in Links(items) <==> exists i :: 0 <= i < |items| && l in LinksOf(items[i])
  {
    if |items| > 0 {
      InLinks(items[1..], l);
      if l in LinksOf(items[0]) {
        assert 0 < |items| && l in LinksOf(items[0]);
      }
      if exists i :: 1 <= i < |items| && l in LinksOf(items[i]) {
        var i :| 1 <= i < |items| && l in LinksOf(items[i]);
        assert items[1..][i - 1] == items[i];
      }
      forall i | 0 <= i < |items[1..]| && l in LinksOf(items[1..][i])
        ensures exists k :: 0 <= k < |items| && l in LinksOf(items[k])
      {
        assert items[1..][i] == items[i + 1];
      }
    }
  }

  /** The target of one of the approval links, which the route table has no entry for. */
  predicate IsApproval(to: seq<string>) {
    to == ["admin", "approval"] || to == ["manager", "approval"]
  }

  /** Every link of the sales menu opens for sales. */
  lemma SalesMenuOpens()
    ensures forall i, j :: 0 <= i < |SalesMenu| && 0 <= j < |LinksOf(SalesMenu[i])| ==>
      Opens(Sales, LinksOf(SalesMenu[i])[j].to)
  {
    forall i, j | 0 <= i < |SalesMenu| && 0 <= j < |LinksOf(SalesMenu[i])|
      ensures Opens(Sales, LinksOf(SalesMenu[i])[j].to)
    {
      var to := LinksOf(SalesMenu[i])[j].to;
      if i == 0 || i == 4 {
        assert to == [] || to == ["sales-plans"];
        SalesOnlyPaths(Sales);
      } else if i == 1 {
        assert to == ["customers"];
        CustomerPaths(Sales, "1");
      } else if i == 2 {
        assert to == ["contacts"];
        ContactPaths(Sales, "1");
      } else {
        assert to in [["aktivitas"], ["profile", "am"], ["profile", "am", "update"]];
        ProfileAndActivityPaths(Sales);
      }
    }
  }

  /** Every admin link opens for admin, except the two approval links, which fall to `/`. */
  lemma AdminMenuOpens()
    ensures forall i, j :: 0 <= i < |AdminMenu| && 0 <= j < |LinksOf(AdminMenu[i])| ==>
      (Opens(Admin, LinksOf(AdminMenu[i])[j].to) <==> !IsApproval(LinksOf(AdminMenu[i])[j].to))
    ensures forall i, j :: 0 <= i < |AdminMenu| && 0 <= j < |LinksOf(AdminMenu[i])| ==>
      (IsApproval(LinksOf(AdminMenu[i])[j].to) ==> Dispatch(LinksOf(AdminMenu[i])[j].to) == FallbackRedirect("/", true))
  {
    forall i, j | 0 <= i < |AdminMenu| && 0 <= j < |LinksOf(AdminMenu[i])|
      ensures var to := LinksOf(AdminMenu[i])[j].to;
        (Opens(Admin, to) <==> !IsApproval(to)) && (IsApproval(to) ==> Dispatch(to) == FallbackRedirect("/", true))
    {
      if i == 0 || i == 3 {
        AdminOnlyPaths(Admin);
      } else {
        ApprovalPathsFallBack();
      }
    }
  }

  /** Every manager link opens for manager, except the approval link, which falls to `/`. */
  lemma ManagerMenuOpens()
    ensures forall i, j :: 0 <= i < |ManagerMenu| && 0 <= j < |LinksOf(ManagerMenu[i])| ==>
      (Opens(Manager, LinksOf(ManagerMenu[i])[j].to) <==> !IsApproval(LinksOf(ManagerMenu[i])[j].to))
    ensures forall i, j :: 0 <= i < |ManagerMenu| && 0 <= j < |LinksOf(ManagerMenu[i])| ==>
      (IsApproval(LinksOf(ManagerMenu[i])[j].to) ==> Dispatch(LinksOf(ManagerMenu[i])[j].to) == FallbackRedirect("/", true))
  {
    forall i, j | 0 <= i < |ManagerMenu| && 0 <= j < |LinksOf(ManagerMenu[i])|
      ensures var to := LinksOf(ManagerMenu[i])[j].to;
        (Opens(Manager, to) <==> !IsApproval(to)) && (IsApproval(to) ==> Dispatch(to) == FallbackRedirect("/", true))
    {
      var to := LinksOf(ManagerMenu[i])[j].to;
      if i < 2 {
        assert to == ["manager"] || to == ["manager", "sales-plans"];
        ManagerMenuPaths(Manager);
      } else if i == 2 {
        assert to == ["manager", "approval"];
        ApprovalPathsFallBack();
      } else {
        assert to == ["profile", "am"] || to == ["profile", "am", "update"];
        ProfileAndActivityPaths(Manager);
      }
    }
  }

  /** Whether a group is open: a label never toggled reads as closed. */
  predicate IsOpen(open: map<string, bool>, name: string) {
    name in open && open[name]
  }

  /** `{ ...prev, [label]: !prev[label] }`. */
  function Toggled(open: map<string, bool>, name: string): (r: map<string, bool>)
    ensures IsOpen(r, name) == !IsOpen(open, name)
    ensures forall k :: k != name ==> (k in r <==> k in open) && (k in open ==> r[k] == open[k])
  {
    open[name := !IsOpen(open, name)]
  }

  /** Toggling a label twice restores every group's open flag. */
  lemma ToggleTwice(open: map<string, bool>, name: string, k: string)
    ensures IsOpen(Toggled(Toggled(open, name), name), k) == IsOpen(open, k)
  {
  }

  /** The sidebar's local state. */
  class SidebarState {
    var openMenus: map<string, bool>

    constructor ()
      ensures openMenus == map[]
    {
      openMenus := map[];
    }

    /** `toggleMenu(label)`. */
    method ToggleMenu(name: string)
      modifies this
      ensures openMenus == Toggled(old(openMenus), name)
    {
      var wasOpen := name in openMenus && openMenus[name];
      openMenus := openMenus[name := !wasOpen];
    }
  }
}
