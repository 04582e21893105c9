/**
 * The gap-analysis worksheet of a customer's guidance page: groups of
 * activities, one per value-chain category, each activity with optional
 * sub-activities; the counts above the table; the set of expanded rows; and
 * the editors that add, change and delete rows.
 */
module Guidance {
  import opened Wrappers
  import opened Text

  /** One line of the sheet: an activity or a sub-activity. */
  datatype Activity = Activity(id: string, activity: string, gap: string, action: string)

  /** A top-level row and its sub-activities (a missing list reads as empty). */
  datatype Row = Row(item: Activity, children: seq<Activity>)

  datatype Group = Group(category: string, rows: seq<Row>)

  /** The three editable columns. */
  datatype Field = ActivityField | GapField | ActionField

  /** An empty line with the given id. */
  function Blank(id: string): Activity {
    Activity(id, "", "", "")
  }

  /** The sheet the page starts with: nine categories, one row each, two of them with one sub-activity. */
  const DefaultGroups: seq<Group> := [
    Group("Inbound Logistics", [Row(
      Activity("in-1", "Penerimaan material / koordinasi supplier",
        "Lead time tidak konsisten; belum ada SLA dengan vendor.",
        "Buat SLA pengiriman, tambahkan checklist penerimaan, dan dashboard kedatangan."),
      [Activity("in-1-1", "Koordinasi jadwal kedatangan dengan warehouse",
        "Notifikasi kedatangan belum terstandardisasi.",
        "Gunakan reminder + template broadcast ke tim warehouse.")])]),
    Group("Operations", [Row(
      Activity("op-1", "Proses provisioning / delivery service",
        "Handover antar tim masih manual; banyak rework.",
        "Standarisasi SOP handover, gunakan template MoM, dan audit mingguan."),
      [Activity("op-1-1", "Checklist kesiapan perangkat",
        "Belum ada checklist yang dipakai konsisten.",
        "Buat checklist standar dan wajib diisi sebelum handover.")])]),
    Group("Outbound Logistics", [Row(
      Activity("out-1", "Distribusi layanan ke site pelanggan",
        "Tracking progress ke pelanggan tidak real-time.",
        "Share tracker status ke pelanggan, otomatisasi notifikasi milestone."), [])]),
    Group("Marketing & Sales", [Row(
      Activity("ms-1", "Campaign / penawaran solusi",
        "Belum ada segmentasi prioritas; follow-up tidak terjadwal.",
        "Segmentasi top account, set cadency contact, dan matangkan pitch deck."), [])]),
    Group("Service", [Row(
      Activity("svc-1", "Incident & request handling",
        "Root cause tidak terdokumentasi; preventive plan belum jalan.",
        "Catat RCA per incident, mapping quick wins preventif, monitor aging."), [])]),
    Group("Firm Infrastructure", [Row(
      Activity("fi-1", "Governance & reporting",
        "Tidak ada dashboard terpadu untuk CSG.",
        "Buat dashboard mingguan, tetapkan owner data, dan cadence review."), [])]),
    Group("Human Resources Management", [Row(
      Activity("hr-1", "Capability & capacity CSG",
        "Belum ada kurikulum pelatihan spesifik segmen.",
        "Susun kurikulum role-based, jadwalkan coaching bulanan."), [])]),
    Group("Technology Development", [Row(
      Activity("tech-1", "Tools / integrasi sistem",
        "Data aktivitas tersebar; belum ada integrasi kalender dan CRM.",
        "Integrasikan kalender, CRM, dan tiket; siapkan template ekspor."), [])]),
    Group("Procurement", [Row(
      Activity("proc-1", "Pengadaan pendukung layanan",
        "Vendor list terbatas; waktu pengadaan panjang.",
        "Perluas vendor list, set kontrak payung, definisikan SLA pengadaan."), [])])]

  // ---------------------------------------------------------------- stats

  /** Sub-activities under a list of rows. */
  function Children(rows: seq<Row>): nat {
    if rows == [] then 0 else Children(rows[..|rows| - 1]) + |rows[|rows| - 1].children|
  }

  /** Top-level rows over all groups. */
  function Activities(data: seq<Group>): nat {
    if data == [] then 0 else Activities(data[..|data| - 1]) + |data[|data| - 1].rows|
  }

  /** Sub-activities over all groups. */
  function SubActivities(data: seq<Group>): nat {
    if data == [] then 0 else SubActivities(data[..|data| - 1]) + Children(data[|data| - 1].rows)
  }

  /** `stats`: the groups, and the rows and sub-activities added up group by group, row by row. */
  method CountStats(data: seq<Group>) returns (categories: nat, activities: nat, subActivities: nat)
    ensures categories == |data|
    ensures activities == Activities(data)
    ensures subActivities == SubActivities(data)
  {
    categories := |data|;
    activities := 0;
    subActivities := 0;
    var i := 0;
    while i < |data|
      invariant 0 <= i <= |data|
      invariant activities == Activities(data[..i])
      invariant subActivities == SubActivities(data[..i])
    {
      var rows := data[i].rows;
      activities := activities + |rows|;
      var before := subActivities;
      var j := 0;
      while j < |rows|
        invariant 0 <= j <= |rows|
        invariant subActivities == before + Children(rows[..j])
      {
        subActivities := subActivities + |rows[j].children|;
        assert rows[..j + 1][..j] == rows[..j];
        j := j + 1;
      }
      assert rows[..j] == rows;
      assert data[..i + 1][..i] == data[..i];
      i := i + 1;
    }
    assert data[..i] == data;
  }

  /** Each default category has one row; only the first two rows have a sub-activity, one each. */
  lemma DefaultShape(k: nat)
    requires k < |DefaultGroups|
    ensures |DefaultGroups[k].rows| == 1
    ensures |DefaultGroups[k].rows[0].children| == if k < 2 then 1 else 0
  {
    if k == 0 {
    } else if k == 1 {
    } else if k == 2 {
    } else if k == 3 {
    } else if k == 4 {
    } else if k == 5 {
    } else if k == 6 {
    } else if k == 7 {
    } else {
      assert k == 8;
    }
  }

  /** The first `n` default categories hold `n` activities and, from the second on, two sub-activities. */
  lemma {:induction false} DefaultPrefixStats(n: nat)
    requires n <= |DefaultGroups|
    ensures Activities(DefaultGroups[..n]) == n
    ensures SubActivities(DefaultGroups[..n]) == if n < 2 then n else 2
  {
    if n > 0 {
      DefaultPrefixStats(n - 1);
      assert DefaultGroups[..n][..n - 1] == DefaultGroups[..n - 1];
      var rows := DefaultGroups[n - 1].rows;
      DefaultShape(n - 1);
      assert rows[..0] == [];
    }
  }

  /** The sheet the page starts with counts nine categories, nine activities and two sub-activities. */
  lemma DefaultStats()
    ensures |DefaultGroups| == 9
    ensures Activities(DefaultGroups) == 9
    ensures SubActivities(DefaultGroups) == 2
  {
    DefaultPrefixStats(9);
    assert DefaultGroups[..9] == DefaultGroups;
  }

  /** Two sheets with the same number of rows and sub-activities group by group have the same counts. */
  lemma {:induction false} StatsAgree(a: seq<Group>, b: seq<Group>)
    requires |a| == |b|
    requires forall i :: 0 <= i < |a| ==> |a[i].rows| == |b[i].rows| && Children(a[i].rows) == Children(b[i].rows)
    ensures Activities(a) == Activities(b) && SubActivities(a) == SubActivities(b)
    decreases |a|
  {
    if a != [] {
      StatsAgree(a[..|a| - 1], b[..|b| - 1]);
    }
  }

  /** Two row lists with the same number of sub-activities row by row have the same total. */
  lemma {:induction false} ChildrenAgree(a: seq<Row>, b: seq<Row>)
    requires |a| == |b|
    requires forall j :: 0 <= j < |a| ==> |a[j].children| == |b[j].children|
    ensures Children(a) == Children(b)
    decreases |a|
  {
    if a != [] {
      ChildrenAgree(a[..|a| - 1], b[..|b| - 1]);
    }
  }

  // --------------------------------------------------------- open rows

  /** `toggleRow`: the id leaves the set of expanded rows if it is there, and joins it otherwise. */
  function Toggled(openIds: set<string>, rowId: string): (r: set<string>)
    ensures rowId in r <==> rowId !in openIds
    ensures forall id :: id != rowId ==> (id in r <==> id in openIds)
  {
    if rowId in openIds then openIds - {rowId} else openIds + {rowId}
  }

  /** Toggling a row twice leaves the set as it was. */
  lemma ToggleTwice(openIds: set<string>, rowId: string)
    ensures Toggled(Toggled(openIds, rowId), rowId) == openIds
  {
  }

  // ---------------------------------------------------------------- edits

  function FieldOf(a: Activity, field: Field): string {
    match field
    case ActivityField => a.activity
    case GapField => a.gap
    case ActionField => a.action
  }

  /** `{ ...row, [field]: value }`: the one column takes the value, the id and the other columns stay. */
  function SetField(a: Activity, field: Field, value: string): (r: Activity)
    ensures r.id == a.id
    ensures FieldOf(r, field) == value
    ensures forall g :: g != field ==> FieldOf(r, g) == FieldOf(a, g)
  {
    match field
    case ActivityField => a.(activity := value)
    case GapField => a.(gap := value)
    case ActionField => a.(action := value)
  }

  /** The line with the id takes the value; any other line stays. */
  function Edit(a: Activity, rowId: string, field: Field, value: string): Activity {
    if a.id == rowId then SetField(a, field, value) else a
  }

  /** Each group of the category has its rows replaced by `f` of them; the other groups stay. */
  function InCategory(data: seq<Group>, category: string, f: seq<Row> -> seq<Row>): (r: seq<Group>)
    ensures |r| == |data|
    ensures forall i :: 0 <= i < |r| ==> r[i].category == data[i].category
    ensures forall i :: 0 <= i < |r| && data[i].category != category ==> r[i] == data[i]
    ensures forall i :: 0 <= i < |r| && data[i].category == category ==> r[i].rows == f(data[i].rows)
  {
    seq(|data|, i requires 0 <= i < |data| =>
      if data[i].category == category then data[i].(rows := f(data[i].rows)) else data[i])
  }

  /** `updateCell` as written: only top-level rows are looked at, so a sub-activity's edit never lands. */
  function WithCellAsWritten(data: seq<Group>, category: string, rowId: string, field: Field, value: string): seq<Group> {
    InCategory(data, category, (rows: seq<Row>) =>
      seq(|rows|, j requires 0 <= j < |rows| => rows[j].(item := Edit(rows[j].item, rowId, field, value))))
  }

  /** `updateCell` as intended: the line with the id, top-level or sub-activity, takes the value. */
  function WithCell(data: seq<Group>, category: string, rowId: string, field: Field, value: string): seq<Group> {
    InCategory(data, category, (rows: seq<Row>) =>
      seq(|rows|, j requires 0 <= j < |rows| =>
        Row(Edit(rows[j].item, rowId, field, value),
          seq(|rows[j].children|, k requires 0 <= k < |rows[j].children| =>
            Edit(rows[j].children[k], rowId, field, value)))))
  }

  /**
   * A sub-activity whose id no top-level row of its category carries: the
   * edit as written leaves the sheet as it was, while the intended edit
   * gives the sub-activity the new value.
   */
  lemma ChildEditDropped(data: seq<Group>, category: string, rowId: string, field: Field, value: string,
      i: nat, j: nat, k: nat)
    requires i < |data| && data[i].category == category
    requires j < |data[i].rows| && k < |data[i].rows[j].children|
    requires data[i].rows[j].children[k].id == rowId
    requires FieldOf(data[i].rows[j].children[k], field) != value
    requires forall g, n ::
      0 <= g < |data| && data[g].category == category && 0 <= n < |data[g].rows| ==> data[g].rows[n].item.id != rowId
    ensures WithCellAsWritten(data, category, rowId, field, value) == data
    ensures FieldOf(WithCell(data, category, rowId, field, value)[i].rows[j].children[k], field) == value
  {
    var r := WithCellAsWritten(data, category, rowId, field, value);
    forall g | 0 <= g < |data|
      ensures r[g] == data[g]
    {
      if data[g].category == category {
        assert r[g].rows == data[g].rows;
      }
    }
  }

  /**
   * The intended edit: in the category, every line with the id has the
   * field set and its id and other columns kept, every other line stays,
   * and no row or sub-activity is added or removed; the other categories
   * are untouched.
   */
  lemma WithCellExact(data: seq<Group>, category: string, rowId: string, field: Field, value: string,
      i: nat, j: nat)
    requires i < |data| && j < |data[i].rows|
    ensures var r := WithCell(data, category, rowId, field, value);
      && |r| == |data| && r[i].category == data[i].category && |r[i].rows| == |data[i].rows|
      && (data[i].category != category ==> r[i] == data[i])
      && (data[i].category == category ==>
        && r[i].rows[j].item == Edit(data[i].rows[j].item, rowId, field, value)
        && |r[i].rows[j].children| == |data[i].rows[j].children|
        && forall k :: 0 <= k < |data[i].rows[j].children| ==>
          r[i].rows[j].children[k] == Edit(data[i].rows[j].children[k], rowId, field, value))
  {
  }

  /** An edit changes text only, so the counts stay. */
  lemma WithCellKeepsStats(data: seq<Group>, category: string, rowId: string, field: Field, value: string)
    ensures var r := WithCell(data, category, rowId, field, value);
      Activities(r) == Activities(data) && SubActivities(r) == SubActivities(data)
  {
    var r := WithCell(data, category, rowId, field, value);
    forall i | 0 <= i < |data|
      ensures |data[i].rows| == |r[i].rows| && Children(data[i].rows) == Children(r[i].rows)
    {
      ChildrenAgree(data[i].rows, r[i].rows);
    }
    StatsAgree(data, r);
  }

  // ----------------------------------------------------------- additions

  /** `${parentId}-child-${Date.now()}`. */
  function ChildId(parentId: string, now: nat): string {
    parentId + "-child-" + ToDecimal(now)
  }

  /** `${category}-act-${Date.now()}`. */
  function ActivityId(category: string, now: nat): string {
    category + "-act-" + ToDecimal(now)
  }

  /** `addChild`: an empty sub-activity appended under each row of the category with the parent's id. */
  function WithChild(data: seq<Group>, category: string, parentId: string, now: nat): seq<Group> {
    InCategory(data, category, (rows: seq<Row>) =>
      seq(|rows|, j requires 0 <= j < |rows| =>
        if rows[j].item.id == parentId then rows[j].(children := rows[j].children + [Blank(ChildId(parentId, now))])
        else rows[j]))
  }

  /**
   * Adding a sub-activity: the parent rows of the category get one empty
   * line at the end of their sub-activities; every other row, and every
   * other category, stays.
   */
  lemma WithChildExact(data: seq<Group>, category: string, parentId: string, now: nat, i: nat, j: nat)
    requires i < |data| && j < |data[i].rows|
    ensures var r := WithChild(data, category, parentId, now);
      && |r| == |data| && |r[i].rows| == |data[i].rows|
      && r[i].rows[j].item == data[i].rows[j].item
      && (data[i].category == category && data[i].rows[j].item.id == parentId ==>
        r[i].rows[j].children == data[i].rows[j].children + [Blank(ChildId(parentId, now))])
      && (data[i].category != category || data[i].rows[j].item.id != parentId ==> r[i].rows[j] == data[i].rows[j])
  {
  }

  /** The number of rows of the category carrying the id. */
  function Carrying(data: seq<Group>, category: string, rowId: string): nat {
    if data == [] then 0
    else
      var g := data[|data| - 1];
      Carrying(data[..|data| - 1], category, rowId) + (if g.category == category then RowsWithId(g.rows, rowId) else 0)
  }

  function RowsWithId(rows: seq<Row>, rowId: string): nat {
    if rows == [] then 0
    else RowsWithId(rows[..|rows| - 1], rowId) + (if rows[|rows| - 1].item.id == rowId then 1 else 0)
  }

  /** Adding a sub-activity under each matching row raises that group's sub-activities by the number of those rows. */
  lemma {:induction false} ChildrenGrow(rows: seq<Row>, bigger: seq<Row>, parentId: string)
    requires |bigger| == |rows|
    requires forall j :: 0 <= j < |rows| ==>
      |bigger[j].children| == |rows[j].children| + (if rows[j].item.id == parentId then 1 else 0)
    ensures Children(bigger) == Children(rows) + RowsWithId(rows, parentId)
    decreases |rows|
  {
    if rows != [] {
      ChildrenGrow(rows[..|rows| - 1], bigger[..|bigger| - 1], parentId);
    }
  }

  lemma {:induction false} SubActivitiesGrow(data: seq<Group>, bigger: seq<Group>, category: string, parentId: string)
    requires |bigger| == |data|
    requires forall i :: 0 <= i < |data| ==> bigger[i].category == data[i].category && |bigger[i].rows| == |data[i].rows|
    requires forall i :: 0 <= i < |data| ==>
      Children(bigger[i].rows) == Children(data[i].rows) + (if data[i].category == category then RowsWithId(data[i].rows, parentId) else 0)
    ensures SubActivities(bigger) == SubActivities(data) + Carrying(data, category, parentId)
    ensures Activities(bigger) == Activities(data)
    decreases |data|
  {
    if data != [] {
      SubActivitiesGrow(data[..|data| - 1], bigger[..|bigger| - 1], category, parentId);
    }
  }

  /** Adding a sub-activity keeps the activity count and adds one sub-activity per matching parent row. */
  lemma WithChildStats(data: seq<Group>, category: string, parentId: string, now: nat)
    ensures var r := WithChild(data, category, parentId, now);
      && Activities(r) == Activities(data)
      && SubActivities(r) == SubActivities(data) + Carrying(data, category, parentId)
  {
    var r := WithChild(data, category, parentId, now);
    forall i | 0 <= i < |data|
      ensures Children(r[i].rows) ==
        Children(data[i].rows) + (if data[i].category == category then RowsWithId(data[i].rows, parentId) else 0)
    {
      if data[i].category == category {
        ChildrenGrow(data[i].rows, r[i].rows, parentId);
      }
    }
    SubActivitiesGrow(data, r, category, parentId);
  }

  /** `addActivity`: an empty row without sub-activities appended to each group of the category. */
  function WithActivity(data: seq<Group>, category: string, now: nat): seq<Group> {
    InCategory(data, category, (rows: seq<Row>) => rows + [Row(Blank(ActivityId(category, now)), [])])
  }

  /** The number of groups of the category. */
  function GroupsOf(data: seq<Group>, category: string): nat {
    if data == [] then 0
    else GroupsOf(data[..|data| - 1], category) + (if data[|data| - 1].category == category then 1 else 0)
  }

  /** Adding an activity: each group of the category ends with the new empty row; the others stay. */
  lemma WithActivityExact(data: seq<Group>, category: string, now: nat, i: nat)
    requires i < |data|
    ensures var r := WithActivity(data, category, now);
      && |r| == |data|
      && (data[i].category == category ==> r[i].rows == data[i].rows + [Row(Blank(ActivityId(category, now)), [])])
      && (data[i].category != category ==> r[i] == data[i])
  {
  }

  /** Adding an activity adds one row per group of the category and no sub-activity. */
  lemma {:induction false} WithActivityStats(data: seq<Group>, category: string, now: nat)
    ensures var r := WithActivity(data, category, now);
      && Activities(r) == Activities(data) + GroupsOf(data, category)
      && SubActivities(r) == SubActivities(data)
    decreases |data|
  {
    var r := WithActivity(data, category, now);
    if data != [] {
      var init := data[..|data| - 1];
      WithActivityStats(init, category, now);
      assert r[..|r| - 1] == WithActivity(init, category, now);
      var g := data[|data| - 1];
      if g.category == category {
        var rows := g.rows;
        var more := rows + [Row(Blank(ActivityId(category, now)), [])];
        assert more[..|more| - 1] == rows;
        assert Children(more) == Children(rows);
      }
    }
  }

  // ------------------------------------------------------------- deletion

  /**
   * `deleteRow`: with a parent id (a non-empty one; an empty id reads as
   * none), the sub-activities with the id go from that parent's rows;
   * without, the top-level rows with the id go from the category.
   */
  function WithoutRow(data: seq<Group>, category: string, rowId: string, parentId: Option<string>): seq<Group> {
    if parentId.Some? && parentId.value != "" then
      InCategory(data, category, (rows: seq<Row>) =>
        seq(|rows|, j requires 0 <= j < |rows| =>
          if rows[j].item.id == parentId.value then rows[j].(children := DropId(rows[j].children, rowId))
          else rows[j]))
    else
      InCategory(data, category, (rows: seq<Row>) => DropRow(rows, rowId))
  }

  /** `children.filter(child => child.id !== rowId)`. */
  function DropId(children: seq<Activity>, rowId: string): (r: seq<Activity>)
    ensures |r| <= |children|
    ensures forall k :: 0 <= k < |r| ==> r[k].id != rowId && r[k] in children
  {
    if children == [] then []
    else (if children[0].id == rowId then [] else [children[0]]) + DropId(children[1..], rowId)
  }

  /** `rows.filter(row => row.id !== rowId)`. */
  function DropRow(rows: seq<Row>, rowId: string): (r: seq<Row>)
    ensures |r| <= |rows|
    ensures forall j :: 0 <= j < |r| ==> r[j].item.id != rowId && r[j] in rows
  {
    if rows == [] then []
    else (if rows[0].item.id == rowId then [] else [rows[0]]) + DropRow(rows[1..], rowId)
  }

  /** Only the lines with the id go: each other line is kept. */
  lemma {:induction false} DropIdKeeps(children: seq<Activity>, rowId: string, a: Activity)
    ensures a in DropId(children, rowId) <==> a in children && a.id != rowId
    decreases |children|
  {
    if children != [] {
      DropIdKeeps(children[1..], rowId, a);
      assert children == [children[0]] + children[1..];
    }
  }

  lemma {:induction false} DropRowKeeps(rows: seq<Row>, rowId: string, row: Row)
    ensures row in DropRow(rows, rowId) <==> row in rows && row.item.id != rowId
    decreases |rows|
  {
    if rows != [] {
      DropRowKeeps(rows[1..], rowId, row);
      assert rows == [rows[0]] + rows[1..];
    }
  }

  /**
   * Deleting a sub-activity: the parent's sub-activities lose exactly
   * those with the id; every top-level row stays in place.
   */
  lemma DeleteChildExact(data: seq<Group>, category: string, rowId: string, parentId: string,
      i: nat, j: nat, a: Activity)
    requires parentId != ""
    requires i < |data| && j < |data[i].rows|
    ensures var r := WithoutRow(data, category, rowId, Some(parentId));
      && |r| == |data| && |r[i].rows| == |data[i].rows|
      && r[i].rows[j].item == data[i].rows[j].item
      && (data[i].category == category && data[i].rows[j].item.id == parentId ==>
        (a in r[i].rows[j].children <==> a in data[i].rows[j].children && a.id != rowId))
      && (data[i].category != category || data[i].rows[j].item.id != parentId ==> r[i].rows[j] == data[i].rows[j])
  {
    DropIdKeeps(data[i].rows[j].children, rowId, a);
  }

  /**
   * Deleting a top-level row: the category's groups lose exactly the rows
   * with the id, sub-activities and all; the other categories stay.
   */
  lemma DeleteRowExact(data: seq<Group>, category: string, rowId: string, parentId: Option<string>,
      i: nat, row: Row)
    requires parentId.None? || parentId.value == ""
    requires i < |data|
    ensures var r := WithoutRow(data, category, rowId, parentId);
      && |r| == |data|
      && (data[i].category == category ==> (row in r[i].rows <==> row in data[i].rows && row.item.id != rowId))
      && (data[i].category != category ==> r[i] == data[i])
  {
    DropRowKeeps(data[i].rows, rowId, row);
  }

  /** Deleting leaves no line with the id where it deleted. */
  lemma DeleteLeavesNone(data: seq<Group>, category: string, rowId: string, parentId: Option<string>)
    ensures var r := WithoutRow(data, category, rowId, parentId);
      forall i, j :: 0 <= i < |r| && r[i].category == category && 0 <= j < |r[i].rows| ==>
        if parentId.Some? && parentId.value != "" then
          (r[i].rows[j].item.id == parentId.value ==> forall k :: 0 <= k < |r[i].rows[j].children| ==> r[i].rows[j].children[k].id != rowId)
        else r[i].rows[j].item.id != rowId
  {
  }

  // ----------------------------------------------------------------- page

  /** The sheet's state: the groups, the edit mode, and the expanded rows. */
  class GuidanceSheet {
    var data: seq<Group>
    var isEditing: bool
    var openIds: set<string>

    /** The sheet starts from the given groups (by default `DefaultGroups`), not editing, nothing expanded. */
    constructor (items: seq<Group>)
      ensures data == items && !isEditing && openIds == {}
    {
      data := items;
      isEditing := false;
      openIds := {};
    }

    /** `handleEditToggle`: a given `onEdit` is called instead of switching the mode. */
    method EditToggle(hasOnEdit: bool) returns (calledOnEdit: bool)
      modifies this
      ensures calledOnEdit == hasOnEdit
      ensures isEditing == (if hasOnEdit then old(isEditing) else !old(isEditing))
      ensures data == old(data) && openIds == old(openIds)
    {
      if hasOnEdit {
        return true;
      }
      isEditing := !isEditing;
      return false;
    }

    method ToggleRow(rowId: string)
      modifies this
      ensures openIds == Toggled(old(openIds), rowId)
      ensures data == old(data) && isEditing == old(isEditing)
    {
      var next := openIds;
      if rowId in next {
        next := next - {rowId};
      } else {
        next := next + {rowId};
      }
      openIds := next;
    }

    method UpdateCell(category: string, rowId: string, field: Field, value: string)
      modifies this
      ensures data == WithCell(old(data), category, rowId, field, value)
      ensures isEditing == old(isEditing) && openIds == old(openIds)
    {
      data := WithCell(data, category, rowId, field, value);
    }

    /** `addChild`: the sub-activity is added and its parent expanded. */
    method AddChild(category: string, parentId: string, now: nat)
      modifies this
      ensures data == WithChild(old(data), category, parentId, now)
      ensures openIds == old(openIds) + {parentId}
      ensures isEditing == old(isEditing)
    {
      data := WithChild(data, category, parentId, now);
      openIds := openIds + {parentId};
    }

    /** `addActivity`: the row is added and expanded. */
    method AddActivity(category: string, now: nat)
      modifies this
      ensures data == WithActivity(old(data), category, now)
      ensures openIds == old(openIds) + {ActivityId(category, now)}
      ensures isEditing == old(isEditing)
    {
      data := WithActivity(data, category, now);
      openIds := openIds + {ActivityId(category, now)};
    }

    /** `deleteRow`: the line goes and its id leaves the expanded rows. */
    method DeleteRow(category: string, rowId: string, parentId: Option<string>)
      modifies this
      ensures data == WithoutRow(old(data), category, rowId, parentId)
      ensures openIds == old(openIds) - {rowId}
      ensures isEditing == old(isEditing)
    {
      data := WithoutRow(data, category, rowId, parentId);
      openIds := openIds - {rowId};
    }
  }
}
