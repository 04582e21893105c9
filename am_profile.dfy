/**
 * The account-manager profile page: the filter over the loaded rows, the
 * page window and statistics, and the list of account managers waiting for
 * approval.
 */
module AmProfile {
  import opened Text
  import opened Seqs
  import opened AmRows
  import AmUpdate

  /** The filter bar; "" (or never set) means the criterion is not set. */
  datatype ProfileFilter = ProfileFilter(q: string, region: string, kelAm: string, amAktif: string)

  const NoFilter := ProfileFilter("", "", "", "")

  /** The filter callback of `filtered`: region, group and status first, the search last. */
  predicate Passes(row: Row, f: ProfileFilter) {
    if f.region != "" && FieldValue(row, "tr") != f.region then false
    else if f.kelAm != "" && FieldValue(row, "kel_am") != f.kelAm then false
    else if f.amAktif != "" && Upper(FieldValue(row, "am_aktif")) != f.amAktif then false
    else if f.q != "" then
      var q := Lower(f.q);
      Contains(Lower(FieldValue(row, "nama_am")), q)
      || Contains(Lower(FieldValue(row, "nik_am")), q)
      || Contains(Lower(FieldValue(row, "id_sales")), q)
    else true
  }

  /** `filtered`: the profile page's own copy of the update page's filter (see `SameFilteredList`). */
  function Filtered(ams: seq<Row>, f: ProfileFilter): (r: seq<Row>)
    ensures |r| <= |ams|
    ensures forall i :: 0 <= i < |r| ==> Passes(r[i], f)
  {
    Filter(ams, (row: Row) => Passes(row, f))
  }

  /** Though it tests in another order, the profile filter keeps exactly the rows the update page keeps. */
  lemma SameAsUpdateFilter(row: Row, f: ProfileFilter)
    ensures Passes(row, f) <==> AmUpdate.Passes(row, AmUpdate.AmFilter(f.q, f.region, f.kelAm, f.amAktif))
  {
  }

  /** The profile page lists exactly the rows the update page lists, in the same order. */
  lemma {:induction false} SameFilteredList(ams: seq<Row>, f: ProfileFilter)
    ensures Filtered(ams, f) == AmUpdate.Filtered(ams, AmUpdate.AmFilter(f.q, f.region, f.kelAm, f.amAktif))
  {
    if |ams| > 0 {
      SameAsUpdateFilter(ams[0], f);
      SameFilteredList(ams[1..], f);
    }
  }

  /** With every criterion empty, every row passes: the update page's empty filter, through `SameFilteredList`. */
  lemma NoFilterKeepsAll(ams: seq<Row>)
    ensures Filtered(ams, NoFilter) == ams
  {
    SameFilteredList(ams, NoFilter);
    AmUpdate.NoFilterKeepsAll(ams);
  }

  /** The region options read each row through the key "TR". */
  function RegionOptions(ams: seq<Row>): seq<string> {
    Regions(ams, "TR")
  }

  /** The options are distinct and each is the non-empty region of some row, read as the filter reads it when the row has one spelling of the key. */
  lemma RegionOptionsExact(ams: seq<Row>, r: string)
    requires forall i :: 0 <= i < |ams| ==> "tr" !in ams[i] || "TR" !in ams[i]
    ensures Distinct(RegionOptions(ams))
    ensures r in RegionOptions(ams) <==> r != "" && exists i :: 0 <= i < |ams| && FieldValue(ams[i], "tr") == r
  {
    RegionsExact(ams, "TR", r);
    forall i | 0 <= i < |ams|
      ensures FieldValue(ams[i], "TR") == FieldValue(ams[i], "tr")
    {
      RegionKeysAgree(ams[i]);
    }
  }

  /** An entry of the approval list. */
  datatype PendingAm = PendingAm(idSales: string, nama: string, nik: string, tr: string, levelAm: string)

  /** The two entries the approval list starts with. */
  const InitialPending: seq<PendingAm> := [
    PendingAm("PND-001", "Budi Santoso (Pending)", "123456", "REG-1", "AM PRO HIRE"),
    PendingAm("PND-002", "Citra Lestari (Pending)", "789012", "REG-2", "AM SME")]

  /** Approve: the list without the entries carrying that sales id. */
  function Approve(pending: seq<PendingAm>, id: string): seq<PendingAm> {
    Filter(pending, (p: PendingAm) => p.idSales != id)
  }

  /** Approving removes exactly the entries with that id and keeps the others in their order. */
  lemma ApproveExact(pending: seq<PendingAm>, id: string, p: PendingAm)
    ensures p in Approve(pending, id) <==> p in pending && p.idSales != id
    ensures forall i :: 0 <= i < |Approve(pending, id)| ==> Approve(pending, id)[i].idSales != id
    ensures (forall i :: 0 <= i < |pending| ==> pending[i].idSales != id) ==> Approve(pending, id) == pending
  {
    FilterMembers(pending, (q: PendingAm) => q.idSales != id, p);
    if forall i :: 0 <= i < |pending| ==> pending[i].idSales != id {
      FilterAllPass(pending, (q: PendingAm) => q.idSales != id);
    }
  }

  /** Order is kept: approving distributes over a split of the list. */
  lemma ApproveAppend(a: seq<PendingAm>, b: seq<PendingAm>, id: string)
    ensures Approve(a + b, id) == Approve(a, id) + Approve(b, id)
  {
    FilterAppend(a, b, (q: PendingAm) => q.idSales != id);
  }

  /** The page's state. */
  class AmProfilePage {
    var ams: seq<Row>
    var filter: ProfileFilter
    var page: int
    var rowsPerPage: nat
    var pending: seq<PendingAm>

    constructor ()
      ensures ams == [] && filter == NoFilter && page == 1 && rowsPerPage == 10
      ensures pending == InitialPending
    {
      ams := [];
      filter := NoFilter;
      page := 1;
      rowsPerPage := 10;
      pending := InitialPending;
    }

    /** The rows of the current page. */
    function Shown(): seq<Row>
      reads this
    {
      PageRows(Filtered(ams, filter), page, rowsPerPage)
    }

    /** The three figures: filtered rows, active filtered rows, distinct regions. */
    function Stats(): (r: (nat, nat, nat))
      reads this
      ensures r.1 <= r.0 <= |ams|
    {
      (|Filtered(ams, filter)|, ActiveCount(Filtered(ams, filter)), |RegionOptions(ams)|)
    }

    method Loaded(data: seq<Row>)
      modifies this
      ensures ams == data
      ensures filter == old(filter) && page == old(page) && rowsPerPage == old(rowsPerPage)
      ensures pending == old(pending)
    {
      ams := data;
    }

    /** A filter change keeps the current page number. */
    method SetFilter(f: ProfileFilter)
      modifies this
      ensures filter == f
      ensures ams == old(ams) && page == old(page) && rowsPerPage == old(rowsPerPage)
      ensures pending == old(pending)
    {
      filter := f;
    }

    method SetRowsPerPage(n: nat)
      modifies this
      ensures rowsPerPage == n && page == 1
      ensures ams == old(ams) && filter == old(filter) && pending == old(pending)
    {
      rowsPerPage := n;
      page := 1;
    }

    method Prev()
      modifies this
      ensures page == PrevPage(old(page))
      ensures ams == old(ams) && filter == old(filter) && rowsPerPage == old(rowsPerPage)
      ensures pending == old(pending)
    {
      page := PrevPage(page);
    }

    method Next()
      modifies this
      ensures page == NextPage(old(page), rowsPerPage, |Filtered(ams, filter)|)
      ensures ams == old(ams) && filter == old(filter) && rowsPerPage == old(rowsPerPage)
      ensures pending == old(pending)
    {
      var total := |Filtered(ams, filter)|;
      if PageEnd(page, rowsPerPage, total) < total {
        page := page + 1;
      }
    }

    method ApprovePending(id: string)
      modifies this
      ensures pending == Approve(old(pending), id)
      ensures ams == old(ams) && filter == old(filter) && page == old(page)
      ensures rowsPerPage == old(rowsPerPage)
    {
      pending := Approve(pending, id);
    }
  }
}
