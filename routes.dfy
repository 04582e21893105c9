/**
 * The route table: each entry is a path pattern, a public flag and, for
 * protected entries, the roles allowed in. A pattern is a list of segments;
 * a `:name` segment matches any one non-empty path segment.
 */
module Routes {
  import opened Wrappers
  import opened Text
  import opened Roles

  datatype Seg = Lit(text: string) | Param(name: string)

  /** A route entry. Public entries carry no roles. */
  datatype Route = Route(segs: seq<Seg>, isPublic: bool, roles: seq<Role>)

  function SegText(s: Seg): string {
    match s
    case Lit(t) => t
    case Param(n) => [':'] + n
  }

  /** The pattern as written in the table: `/` or `/a/:b/c`. */
  function PathText(segs: seq<Seg>): string {
    if |segs| == 0 then "/" else RenderSegs(segs)
  }

  function RenderSegs(segs: seq<Seg>): string {
    if |segs| == 0 then "" else "/" + SegText(segs[0]) + RenderSegs(segs[1..])
  }

  /** The segments of a concrete path such as `/customers/42`; `/` has none. */
  function Segments(path: string): seq<string> {
    if |path| <= 1 then [] else Split(path[1..], {'/'})
  }

  predicate SegMatches(s: Seg, part: string) {
    match s
    case Lit(t) => part == t
    case Param(_) => part != ""
  }

  /** A pattern matches a concrete path segment by segment. */
  predicate Matches(segs: seq<Seg>, path: seq<string>) {
    |segs| == |path| && forall i :: 0 <= i < |segs| ==> SegMatches(segs[i], path[i])
  }

  /**
   * Two patterns could match one path: same length, and wherever both hold
   * a literal, the literals agree.
   */
  predicate Compatible(p: seq<Seg>, q: seq<Seg>) {
    |p| == |q| && forall i :: 0 <= i < |p| ==> (p[i].Lit? && q[i].Lit? ==> p[i].text == q[i].text)
  }

  /** Patterns that are not compatible never match the same path. */
  lemma MatchBothCompatible(p: seq<Seg>, q: seq<Seg>, path: seq<string>)
    requires Matches(p, path) && Matches(q, path)
    ensures Compatible(p, q)
  {
    forall i | 0 <= i < |p| && p[i].Lit? && q[i].Lit?
      ensures p[i].text == q[i].text
    {
      assert SegMatches(p[i], path[i]) && SegMatches(q[i], path[i]);
    }
  }

  function L(t: string): Seg { Lit(t) }

  const All: seq<Role> := [Admin, Sales, Manager]
  const ManagerAdmin: seq<Role> := [Manager, Admin]

  /** The `routes` array, in order. */
  const Table: seq<Route> := [
    Route([L("login")], true, []),
    Route([L("register")], true, []),
    Route([L("403")], true, []),
    Route([], false, [Sales]),
    Route([L("customers")], false, All),
    Route([L("customers"), Param("id")], false, All),
    Route([L("customers"), Param("id"), L("sales-plan"), Param("planId")], false, All),
    Route([L("customers"), Param("id"), L("account-profile")], false, All),
    Route([L("contacts")], false, [Sales]),
    Route([L("contacts"), Param("id")], false, [Sales]),
    Route([L("aktivitas")], false, [Admin, Sales]),
    Route([L("ecrm-workspace")], false, [Admin]),
    Route([L("ecrm-workspace"), L("validation")], false, [Admin]),
    Route([L("manager")], false, ManagerAdmin),
    Route([L("manager"), L("performance")], false, ManagerAdmin),
    Route([L("manager"), L("account-managers")], false, ManagerAdmin),
    Route([L("manager"), L("sales-plans")], false, ManagerAdmin),
    Route([L("sales-plans")], false, [Sales]),
    Route([L("executive")], false, [Admin]),
    Route([L("executive"), L("region")], false, [Admin]),
    Route([L("profile"), L("am")], false, All),
    Route([L("profile"), L("am"), L("detail")], false, All),
    Route([L("profile"), L("am"), L("update")], false, All),
    Route([L("CSG")], false, [Sales]),
    Route([L("CSG"), Param("id")], false, [Sales]),
    Route([L("CSG"), Param("id"), L("7-guidance")], false, [Sales])
  ]

  /** Both patterns hold different literals at position k. */
  predicate LitClash(p: seq<Seg>, q: seq<Seg>, k: nat) {
    k < |p| && k < |q| && p[k].Lit? && q[k].Lit? && p[k].text != q[k].text
  }

  /** A finite witness that two patterns of at most four segments are incompatible. */
  predicate Separated(p: seq<Seg>, q: seq<Seg>) {
    |p| != |q| || LitClash(p, q, 0) || LitClash(p, q, 1) || LitClash(p, q, 2) || LitClash(p, q, 3)
  }

  lemma SeparatedIncompatible(p: seq<Seg>, q: seq<Seg>)
    requires Separated(p, q)
    ensures !Compatible(p, q)
  {
  }

  lemma TableSeparated(i: nat, j: nat)
    requires i < j < |Table|
    ensures Separated(Table[i].segs, Table[j].segs)
  {
    if i < 9 {
      if j < 9 {
      } else if j < 18 {
      } else {
      }
    } else if i < 18 {
      if j < 18 {
      } else {
      }
    } else {
    }
  }

  /** No concrete path matches two entries of the table. */
  lemma NoOverlap(i: nat, j: nat, path: seq<string>)
    requires i < |Table| && j < |Table|
    requires Matches(Table[i].segs, path) && Matches(Table[j].segs, path)
    ensures i == j
  {
    if i < j {
      TableSeparated(i, j);
      SeparatedIncompatible(Table[i].segs, Table[j].segs);
      MatchBothCompatible(Table[i].segs, Table[j].segs, path);
    } else if j < i {
      TableSeparated(j, i);
      SeparatedIncompatible(Table[j].segs, Table[i].segs);
      MatchBothCompatible(Table[j].segs, Table[i].segs, path);
    }
  }

  /** The path patterns of the table are pairwise distinct. */
  lemma PatternsDistinct(i: nat, j: nat)
    requires i < j < |Table|
    ensures Table[i].segs != Table[j].segs
  {
    TableSeparated(i, j);
  }

  /** Exactly the first three entries are public: /login, /register and /403. */
  lemma PublicEntries()
    ensures forall i :: 0 <= i < |Table| ==> (Table[i].isPublic <==> i < 3)
    ensures PathText(Table[0].segs) == "/login"
    ensures PathText(Table[1].segs) == "/register"
    ensures PathText(Table[2].segs) == "/403"
  {
  }

  /** Every protected entry admits at least one role. */
  lemma ProtectedHaveRoles()
    ensures forall i :: 0 <= i < |Table| && !Table[i].isPublic ==> |Table[i].roles| > 0
  {
  }

  /** Every /manager entry admits admin and never sales. */
  lemma ManagerEntries()
    ensures forall i :: 0 <= i < |Table| && |Table[i].segs| > 0 && Table[i].segs[0] == Lit("manager") ==>
      Admin in Table[i].roles && Manager in Table[i].roles && Sales !in Table[i].roles
  {
  }

  /** A concrete path as link text: `/` or `/a/b`. */
  function Href(path: seq<string>): (t: string)
    ensures |t| >= 1 && t[0] == '/'
  {
    if |path| == 0 then "/" else "/" + Join(path, "/")
  }

  /** Reading the segments of a link gives the path back. */
  lemma SegmentsOfHref(path: seq<string>)
    requires forall k :: 0 <= k < |path| ==> path[k] != "" && '/' !in path[k]
    ensures Segments(Href(path)) == path
  {
    if |path| > 0 {
      var j := Join(path, "/");
      assert Href(path)[1..] == j;
      SplitJoin(path, '/');
    }
  }
}
