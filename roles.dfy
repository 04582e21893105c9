/** The closed registry of roles, their string identifiers and display labels. */
module Roles {
  import opened Wrappers

  datatype Role = Sales | Manager | Admin

  /** The identifier each role has in `ROLES`, as stored on a signed-in user. */
  function Id(r: Role): string {
    match r
    case Sales => "sales"
    case Manager => "manager"
    case Admin => "admin"
  }

  /** The text shown for a role. */
  function Label(r: Role): string {
    match r
    case Admin => "ADMINISTRATOR"
    case Sales => "Account Manager"
    case Manager => "Manager Business Service"
  }

  /** `ALL_ROLES`: the values of `ROLES` in declaration order. */
  const AllRoles: seq<Role> := [Sales, Manager, Admin]

  /** The identifiers of `ALL_ROLES`. */
  function AllIds(): (ids: seq<string>)
    ensures |ids| == |AllRoles|
    ensures forall i :: 0 <= i < |ids| ==> ids[i] == Id(AllRoles[i])
  {
    ["sales", "manager", "admin"]
  }

  /** The role a stored identifier names, if any. */
  function FromId(s: string): (r: Option<Role>)
    ensures r.Some? ==> Id(r.value) == s
    ensures r.None? ==> forall x: Role :: Id(x) != s
  {
    if s == "sales" then Some(Sales)
    else if s == "manager" then Some(Manager)
    else if s == "admin" then Some(Admin)
    else None
  }

  /** Identifiers name roles one to one. */
  lemma IdRoundTrip(r: Role)
    ensures FromId(Id(r)) == Some(r)
  {
  }

  /** ALL_ROLES lists three distinct roles, every role once, sales first. */
  lemma AllRolesComplete()
    ensures |AllRoles| == 3 && AllRoles[0] == Sales
    ensures forall i, j :: 0 <= i < j < |AllRoles| ==> AllRoles[i] != AllRoles[j]
    ensures forall r: Role :: r in AllRoles
  {
    forall r: Role ensures r in AllRoles {
      match r
      case Sales => assert AllRoles[0] == r;
      case Manager => assert AllRoles[1] == r;
      case Admin => assert AllRoles[2] == r;
    }
  }

  /** Every role has a label, and no two roles share one. */
  lemma LabelsDistinct(a: Role, b: Role)
    ensures Label(a) != ""
    ensures Label(a) == Label(b) ==> a == b
  {
  }
}
