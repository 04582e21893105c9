/**
 * The application's route tree: public entries are mounted on their own;
 * every other entry is mounted under the layout, the authentication guard
 * and a role guard given that entry's roles; anything else inside the guarded
 * tree is redirected to `/`.
 */
module App {
  import opened Wrappers
  import opened Roles
  import opened Auth
  import opened Routes

  /** Where a concrete path lands in the route tree. */
  datatype Mount =
    | PublicPage(index: nat)
    | Guarded(index: nat, allowed: seq<Role>)
    | FallbackRedirect(to: string, replace: bool)

  /** `routes.filter(r => r.public)`. */
  function PublicOf(t: seq<Route>): (r: seq<Route>)
    ensures forall k :: 0 <= k < |r| ==> r[k].isPublic
  {
    if |t| == 0 then [] else (if t[0].isPublic then [t[0]] else []) + PublicOf(t[1..])
  }

  /** `routes.filter(r => !r.public)`. */
  function ProtectedOf(t: seq<Route>): (r: seq<Route>)
    ensures forall k :: 0 <= k < |r| ==> !r[k].isPublic
  {
    if |t| == 0 then [] else (if t[0].isPublic then [] else [t[0]]) + ProtectedOf(t[1..])
  }

  /** Every route lands in exactly one of the two groups. */
  lemma {:induction false} GroupsPartition(t: seq<Route>)
    ensures multiset(PublicOf(t)) + multiset(ProtectedOf(t)) == multiset(t)
  {
    if |t| > 0 {
      GroupsPartition(t[1..]);
      assert t == [t[0]] + t[1..];
    }
  }

  /** When the public routes come first, the public group is that prefix. */
  lemma {:induction false} PublicPrefix(t: seq<Route>, k: nat)
    requires k <= |t|
    requires forall i :: 0 <= i < |t| ==> (t[i].isPublic <==> i < k)
    ensures PublicOf(t) == t[..k] && ProtectedOf(t) == t[k..]
  {
    if |t| > 0 {
      if k > 0 {
        PublicPrefix(t[1..], k - 1);
        assert t[..k] == [t[0]] + t[1..][..k - 1];
        assert t[k..] == t[1..][k - 1..];
      } else {
        PublicPrefix(t[1..], 0);
        assert t == [t[0]] + t[1..];
      }
    }
  }

  /** The public group of the table is /login, /register and /403. */
  lemma PublicGroup()
    ensures PublicOf(Table) == Table[..3] && ProtectedOf(Table) == Table[3..]
  {
    PublicEntries();
    PublicPrefix(Table, 3);
  }

  /** Where `path` lands: the unique matching entry, or the `*` redirect. */
  function Dispatch(path: seq<string>): (m: Mount)
    ensures m.PublicPage? ==> m.index < |Table| && Table[m.index].isPublic && Matches(Table[m.index].segs, path)
    ensures m.Guarded? ==>
      m.index < |Table| && !Table[m.index].isPublic &&
      Matches(Table[m.index].segs, path) && m.allowed == Table[m.index].roles
    ensures m.FallbackRedirect? ==>
      m == FallbackRedirect("/", true) && forall i :: 0 <= i < |Table| ==> !Matches(Table[i].segs, path)
  {
    if exists i :: 0 <= i < |Table| && Matches(Table[i].segs, path) then
      UniqueMatch(path);
      var i :| 0 <= i < |Table| && Matches(Table[i].segs, path);
      if Table[i].isPublic then PublicPage(i) else Guarded(i, Table[i].roles)
    else
      FallbackRedirect("/", true)
  }

  lemma UniqueMatch(path: seq<string>)
    ensures forall i, j ::
      0 <= i < |Table| && 0 <= j < |Table| && Matches(Table[i].segs, path) && Matches(Table[j].segs, path) ==> i == j
  {
    forall i, j | 0 <= i < |Table| && 0 <= j < |Table| && Matches(Table[i].segs, path) && Matches(Table[j].segs, path)
      ensures i == j
    {
      NoOverlap(i, j, path);
    }
  }

  /** A path matching entry k lands on entry k. */
  lemma DispatchAt(k: nat, path: seq<string>)
    requires k < |Table| && Matches(Table[k].segs, path)
    ensures Dispatch(path) == if Table[k].isPublic then PublicPage(k) else Guarded(k, Table[k].roles)
  {
    var m := Dispatch(path);
    NoOverlap(m.index, k, path);
  }

  /** The identifiers handed to the role guard. */
  function RoleIds(rs: seq<Role>): (ids: seq<string>)
    ensures |ids| == |rs| && forall k :: 0 <= k < |rs| ==> ids[k] == Id(rs[k])
  {
    seq(|rs|, k requires 0 <= k < |rs| => Id(rs[k]))
  }

  /** The role test a mounted page applies; public pages need no identity. */
  predicate RoleGate(user: Option<Identity>, m: Mount) {
    match m
    case PublicPage(_) => true
    case Guarded(_, allowed) => HasRole(user, Many(RoleIds(allowed)))
    case FallbackRedirect(_, _) => true
  }

  /** Public pages render for anyone, signed in or not. */
  lemma PublicNeedsNoIdentity(path: seq<string>, user: Option<Identity>)
    requires Dispatch(path).PublicPage?
    ensures RoleGate(user, Dispatch(path)) && RoleGate(None, Dispatch(path))
  {
  }

  /** A user holding a registry role passes a guarded page iff that role is allowed there. */
  lemma GateByRole(user: Option<Identity>, r: Role, path: seq<string>)
    requires user.Some? && user.value.role == Some(Id(r))
    requires Dispatch(path).Guarded?
    ensures RoleGate(user, Dispatch(path)) <==> r in Dispatch(path).allowed
  {
    var allowed := Dispatch(path).allowed;
    var ids := RoleIds(allowed);
    if Id(r) in ids {
      var k :| 0 <= k < |ids| && ids[k] == Id(r);
      IdRoundTrip(r);
      IdRoundTrip(allowed[k]);
    }
    if r in allowed {
      var k :| 0 <= k < |allowed| && allowed[k] == r;
      assert ids[k] == Id(r);
    }
  }

  /** Whether a user holding role r may open a path: public, or guarded with r allowed. */
  predicate Opens(r: Role, path: seq<string>) {
    match Dispatch(path)
    case PublicPage(_) => true
    case Guarded(_, allowed) => r in allowed
    case FallbackRedirect(_, _) => false
  }

  /** The ECRM workspace and the executive pages open for admin only. */
  lemma AdminOnlyPaths(r: Role)
    ensures Opens(r, ["ecrm-workspace"]) <==> r == Admin
    ensures Opens(r, ["ecrm-workspace", "validation"]) <==> r == Admin
    ensures Opens(r, ["executive"]) <==> r == Admin
    ensures Opens(r, ["executive", "region"]) <==> r == Admin
  {
    DispatchAt(11, ["ecrm-workspace"]);
    DispatchAt(12, ["ecrm-workspace", "validation"]);
    DispatchAt(18, ["executive"]);
    DispatchAt(19, ["executive", "region"]);
  }

  /** The home page and the sales-plan list open for sales only. */
  lemma SalesOnlyPaths(r: Role)
    ensures Opens(r, []) <==> r == Sales
    ensures Opens(r, ["sales-plans"]) <==> r == Sales
  {
    DispatchAt(3, []);
    DispatchAt(17, ["sales-plans"]);
  }

  /** The contact pages open for sales only. */
  lemma ContactPaths(r: Role, id: string)
    requires id != ""
    ensures Opens(r, ["contacts"]) <==> r == Sales
    ensures Opens(r, ["contacts", id]) <==> r == Sales
  {
    DispatchAt(8, ["contacts"]);
    DispatchAt(9, ["contacts", id]);
  }

  /** The three CSG pages open for sales only. */
  lemma CsgPaths(r: Role, id: string)
    requires id != ""
    ensures Opens(r, ["CSG"]) <==> r == Sales
    ensures Opens(r, ["CSG", id]) <==> r == Sales
    ensures Opens(r, ["CSG", id, "7-guidance"]) <==> r == Sales
  {
    DispatchAt(23, ["CSG"]);
    DispatchAt(24, ["CSG", id]);
    DispatchAt(25, ["CSG", id, "7-guidance"]);
  }

  /** Every guarded page under /manager opens for admin and manager, never for sales. */
  lemma ManagerPaths(path: seq<string>)
    requires |path| > 0 && path[0] == "manager" && Dispatch(path).Guarded?
    ensures Opens(Admin, path) && Opens(Manager, path) && !Opens(Sales, path)
  {
    var m := Dispatch(path);
    assert SegMatches(Table[m.index].segs[0], path[0]);
    ManagerEntries();
  }

  lemma AllRolesIn(r: Role)
    ensures r in All
  {
    match r
    case Admin => assert All[0] == r;
    case Sales => assert All[1] == r;
    case Manager => assert All[2] == r;
  }

  /** The customer list and detail pages open for every role. */
  lemma CustomerPaths(r: Role, id: string)
    requires id != ""
    ensures Opens(r, ["customers"]) && Opens(r, ["customers", id])
  {
    AllRolesIn(r);
    DispatchAt(4, ["customers"]);
    DispatchAt(5, ["customers", id]);
  }

  /** A customer's sales-plan and account-profile pages open for every role. */
  lemma CustomerSubPaths(r: Role, id: string, planId: string)
    requires id != "" && planId != ""
    ensures Opens(r, ["customers", id, "sales-plan", planId])
    ensures Opens(r, ["customers", id, "account-profile"])
  {
    AllRolesIn(r);
    DispatchAt(6, ["customers", id, "sales-plan", planId]);
    DispatchAt(7, ["customers", id, "account-profile"]);
  }

  /** The AM-profile pages open for every role; /aktivitas for admin and sales only. */
  lemma ProfileAndActivityPaths(r: Role)
    ensures Opens(r, ["profile", "am"]) && Opens(r, ["profile", "am", "detail"])
    ensures Opens(r, ["profile", "am", "update"])
    ensures Opens(r, ["aktivitas"]) <==> r != Manager
  {
    AllRolesIn(r);
    DispatchAt(20, ["profile", "am"]);
    DispatchAt(21, ["profile", "am", "detail"]);
    DispatchAt(22, ["profile", "am", "update"]);
    DispatchAt(10, ["aktivitas"]);
  }

  /** The manager dashboard and the manager sales-plan page are guarded entries. */
  lemma ManagerMenuPaths(r: Role)
    ensures Opens(r, ["manager"]) <==> r != Sales
    ensures Opens(r, ["manager", "sales-plans"]) <==> r != Sales
  {
    DispatchAt(13, ["manager"]);
    DispatchAt(16, ["manager", "sales-plans"]);
    ManagerPaths(["manager"]);
    ManagerPaths(["manager", "sales-plans"]);
  }

  /** Two-segment entries start with a literal other than "admin", and none is /manager/approval. */
  lemma TwoSegmentEntry(i: nat)
    requires i < |Table| && |Table[i].segs| == 2
    ensures Table[i].segs[0].Lit? && Table[i].segs[0].text != "admin"
    ensures Table[i].segs[0] == Lit("manager") ==> Table[i].segs[1].Lit? && Table[i].segs[1].text != "approval"
  {
    if i < 13 {
    } else {
    }
  }

  /** No entry exists for the two approval pages: they fall to the `*` redirect to `/`. */
  lemma ApprovalPathsFallBack()
    ensures Dispatch(["admin", "approval"]) == FallbackRedirect("/", true)
    ensures Dispatch(["manager", "approval"]) == FallbackRedirect("/", true)
  {
    var a, m := ["admin", "approval"], ["manager", "approval"];
    forall i | 0 <= i < |Table| ensures !Matches(Table[i].segs, a) && !Matches(Table[i].segs, m) {
      if |Table[i].segs| == 2 {
        TwoSegmentEntry(i);
        assert !SegMatches(Table[i].segs[0], a[0]);
        assert !SegMatches(Table[i].segs[0], m[0]) || !SegMatches(Table[i].segs[1], m[1]);
      }
    }
  }
}
