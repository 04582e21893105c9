/**
 * The account-manager update page: the conjunctive filter over the loaded
 * rows, the page window, the statistics, the form filled from a clicked row
 * and the checks made before an update is sent.
 */
module AmUpdate {
  import opened Wrappers
  import opened Text
  import opened Seqs
  import opened AmRows
  import DateFormat

  /** The filter bar; "" means the criterion is not set. */
  datatype AmFilter = AmFilter(q: string, region: string, kelAm: string, amAktif: string)

  const NoFilter := AmFilter("", "", "", "")

  /** The search: the lower-cased query inside the lower-cased name, NIK or sales id. */
  predicate QueryMatches(row: Row, q: string) {
    var lq := Lower(q);
    Contains(Lower(FieldValue(row, "nama_am")), lq)
    || Contains(Lower(FieldValue(row, "nik_am")), lq)
    || Contains(Lower(FieldValue(row, "id_sales")), lq)
  }

  /** The filter callback of `filteredAms`, test by test in the order it makes them. */
  predicate Passes(row: Row, f: AmFilter) {
    if f.q != "" && !QueryMatches(row, f.q) then false
    else if f.region != "" && FieldValue(row, "tr") != f.region then false
    else if f.kelAm != "" && FieldValue(row, "kel_am") != f.kelAm then false
    else if f.amAktif != "" && Upper(FieldValue(row, "am_aktif")) != f.amAktif then false
    else true
  }

  /**
   * `filteredAms`. The profile page filters with a callback of its own,
   * kept as `AmProfile.Filtered` beside this one because the two pages
   * test in different orders; `AmProfile.SameFilteredList` proves the two
   * lists equal.
   */
  function Filtered(ams: seq<Row>, f: AmFilter): (r: seq<Row>)
    ensures |r| <= |ams|
  {
    Filter(ams, (row: Row) => Passes(row, f))
  }

  /** With no criterion set the filter keeps every row, in order. */
  lemma NoFilterKeepsAll(ams: seq<Row>)
    ensures Filtered(ams, NoFilter) == ams
  {
    FilterAllPass(ams, (row: Row) => Passes(row, NoFilter));
  }

  /** A row is kept iff it is loaded and meets every criterion that is set. */
  lemma FilteredMembers(ams: seq<Row>, f: AmFilter, row: Row)
    ensures row in Filtered(ams, f) <==>
      row in ams
      && (f.q == "" || QueryMatches(row, f.q))
      && (f.region == "" || FieldValue(row, "tr") == f.region)
      && (f.kelAm == "" || FieldValue(row, "kel_am") == f.kelAm)
      && (f.amAktif == "" || Upper(FieldValue(row, "am_aktif")) == f.amAktif)
  {
    FilterMembers(ams, (r: Row) => Passes(r, f), row);
  }

  /** Setting one more criterion never lets more rows through. */
  lemma NarrowingShrinks(ams: seq<Row>, f: AmFilter, g: AmFilter)
    requires g.q == f.q || f.q == ""
    requires g.region == f.region || f.region == ""
    requires g.kelAm == f.kelAm || f.kelAm == ""
    requires g.amAktif == f.amAktif || f.amAktif == ""
    ensures |Filtered(ams, g)| <= |Filtered(ams, f)|
  {
    FilterWeaker(ams, (r: Row) => Passes(r, g), (r: Row) => Passes(r, f));
  }

  /** Filtering on status "AKTIF" makes every shown row count as active. */
  lemma AktifFilterAllActive(ams: seq<Row>, f: AmFilter)
    requires f.amAktif == "AKTIF"
    ensures ActiveCount(Filtered(ams, f)) == |Filtered(ams, f)|
  {
    var s := Filtered(ams, f);
    forall i | 0 <= i < |s|
      ensures IsAktif(s[i])
    {
      assert Passes(s[i], f);
    }
    FilterAllPass(s, IsAktif);
  }

  // ---------------------------------------------------------------- form

  /** The keys of `emptyForm`, in order. */
  const FormKeys: seq<string> := [
    "perner_ish_amex_only", "tgl_nik_telkm_amex", "id_sales", "nik_am", "nama_am", "notel",
    "email", "level_am", "kel_am", "tr", "witel", "bp", "bko", "tgl_aktif", "am_aktif", "telda",
    "loc_kerja_am", "gender", "tgl_lahir", "usia", "masa_kerja", "tgl_aktif_pro_hire",
    "tgl_akhr_pro_hire", "perpnjng_pro_hire", "tgl_out_sebagai_am", "ket_out", "pendidikan",
    "jurusan", "universitas", "tahun_lulus", "laptop", "cek_laptop", "fase_laptop",
    "ket_kerusakan_laptop", "tgl_terima_laptop", "link_ba_laptop", "nomor_cc", "ket_cc",
    "baju_telkom", "size_baju", "size_jaket", "sertf_train_ext", "link_evid_train_ext", "hobi",
    "bakat", "pengalaman_kerja", "skill_bahasa", "nama_bank", "no_rek"]

  /** `emptyForm`. */
  function EmptyForm(): (m: map<string, string>)
    ensures forall k :: k in m <==> k in FormKeys
    ensures forall k :: k in m ==> m[k] == ""
  {
    map k | k in FormKeys :: ""
  }

  /**
   * What `handleRowClick` puts in one field: a non-empty value holding a '-'
   * is cut to its date, any other value is copied, a missing one becomes "".
   * The row is read by its exact key.
   */
  function CellValue(am: Row, key: string): string {
    if key in am && am[key] != "" && '-' in am[key] then DateFormat.FormatDate(DateFormat.Str(am[key]))
    else if key in am then am[key]
    else ""
  }

  /** A field is a prefix of the row's value, and the whole value when it holds no space and no 'T'. */
  lemma CellValuePrefix(am: Row, key: string)
    ensures CellValue(am, key) <= ValueAt(am, key)
    ensures key in am && ' ' !in am[key] && 'T' !in am[key] ==> CellValue(am, key) == am[key]
    ensures key in am && '-' !in am[key] ==> CellValue(am, key) == am[key]
  {
    if key in am && am[key] != "" && '-' in am[key] {
      DateFormat.FormatDateCases(DateFormat.Str(am[key]));
    }
  }

  /** The form after a row is clicked: every form key, filled from the row. */
  function RowForm(am: Row): (m: map<string, string>)
    ensures forall k :: k in m <==> k in FormKeys
  {
    map k | k in FormKeys :: CellValue(am, k)
  }

  /** The `forEach` of `handleRowClick`: one field per key, filled from the row. */
  method Formatted(am: Row, keys: seq<string>) returns (formatted: map<string, string>)
    ensures formatted == map k | k in keys :: CellValue(am, k)
  {
    formatted := map[];
    var i := 0;
    while i < |keys|
      invariant 0 <= i <= |keys|
      invariant forall k :: k in formatted <==> k in keys[..i]
      invariant forall k :: k in formatted ==> formatted[k] == CellValue(am, k)
    {
      var key := keys[i];
      formatted := formatted[key := CellValue(am, key)];
      i := i + 1;
      assert keys[..i] == keys[..i - 1] + [key];
    }
    assert keys[..i] == keys;
  }

  /** A form field counts as filled when it is present and not "". */
  predicate Filled(form: map<string, string>, key: string) {
    key in form && form[key] != ""
  }

  /** What the update button shows. */
  datatype UpdatePrompt =
    | NoSelection
    | Incomplete
    | ConfirmUpdate(target: Option<string>)

  /**
   * `handleSubmit`: no row selected, or the name or sales id of the form
   * empty, refuses; otherwise the update targets the selected row's sales
   * id, else its NIK, both read by their exact key.
   */
  function SubmitPromptOf(selected: Option<Row>, form: map<string, string>): (p: UpdatePrompt)
    ensures p == NoSelection <==> selected.None?
    ensures p == Incomplete <==> selected.Some? && !(Filled(form, "nama_am") && Filled(form, "id_sales"))
    ensures p.ConfirmUpdate? && Filled(selected.value, "id_sales") ==>
      p.target == Some(selected.value["id_sales"])
    ensures p.ConfirmUpdate? && !Filled(selected.value, "id_sales") ==>
      (p.target.Some? <==> "nik_am" in selected.value)
      && (p.target.Some? ==> p.target.value == selected.value["nik_am"])
  {
    if selected.None? then NoSelection
    else if !Filled(form, "nama_am") || !Filled(form, "id_sales") then Incomplete
    else
      var am := selected.value;
      ConfirmUpdate(if Filled(am, "id_sales") then Some(am["id_sales"]) else Wrappers.Lookup(am, "nik_am"))
  }

  /** The page's state. */
  class AmUpdatePage {
    var ams: seq<Row>
    var filter: AmFilter
    var page: int
    var rowsPerPage: nat
    var selected: Option<Row>
    var form: map<string, string>

    constructor ()
      ensures ams == [] && filter == NoFilter && page == 1 && rowsPerPage == 10
      ensures selected == None && form == EmptyForm()
    {
      ams := [];
      filter := NoFilter;
      page := 1;
      rowsPerPage := 10;
      selected := None;
      form := EmptyForm();
    }

    /** The rows of the current page. */
    function Shown(): seq<Row>
      reads this
    {
      PageRows(Filtered(ams, filter), page, rowsPerPage)
    }

    /** The three figures: filtered rows, active filtered rows, distinct regions. */
    function Stats(): (r: (nat, nat, nat))
      reads this
      ensures r.1 <= r.0 <= |ams|
    {
      (|Filtered(ams, filter)|, ActiveCount(Filtered(ams, filter)), |Regions(ams, "tr")|)
    }

    /** The rows `getAMs` delivered; a failed load delivers none. */
    method Loaded(data: seq<Row>)
      modifies this
      ensures ams == data
      ensures filter == old(filter) && page == old(page) && rowsPerPage == old(rowsPerPage)
      ensures selected == old(selected) && form == old(form)
    {
      ams := data;
    }

    /** A new filter bar value: every filter control goes back to page 1. */
    method SetFilter(f: AmFilter)
      modifies this
      ensures filter == f && page == 1
      ensures ams == old(ams) && rowsPerPage == old(rowsPerPage)
      ensures selected == old(selected) && form == old(form)
    {
      filter := f;
      page := 1;
    }

    method SetRowsPerPage(n: nat)
      modifies this
      ensures rowsPerPage == n && page == 1
      ensures ams == old(ams) && filter == old(filter)
      ensures selected == old(selected) && form == old(form)
    {
      rowsPerPage := n;
      page := 1;
    }

    method Prev()
      modifies this
      ensures page == PrevPage(old(page))
      ensures ams == old(ams) && filter == old(filter) && rowsPerPage == old(rowsPerPage)
      ensures selected == old(selected) && form == old(form)
    {
      page := PrevPage(page);
    }

    method Next()
      modifies this
      ensures page == NextPage(old(page), rowsPerPage, |Filtered(ams, filter)|)
      ensures ams == old(ams) && filter == old(filter) && rowsPerPage == old(rowsPerPage)
      ensures selected == old(selected) && form == old(form)
    {
      var total := |Filtered(ams, filter)|;
      if PageEnd(page, rowsPerPage, total) < total {
        page := page + 1;
      }
    }

    /** `handleRowClick`: select the row and fill every form key from it. */
    method RowClick(am: Row)
      modifies this
      ensures selected == Some(am) && form == RowForm(am)
      ensures ams == old(ams) && filter == old(filter) && page == old(page)
      ensures rowsPerPage == old(rowsPerPage)
    {
      selected := Some(am);
      var formatted := Formatted(am, FormKeys);
      form := formatted;
    }

    /** `handleChange`: the named field takes the value. */
    method Change(name: string, value: string)
      modifies this
      ensures form == old(form)[name := value]
      ensures ams == old(ams) && filter == old(filter) && page == old(page)
      ensures rowsPerPage == old(rowsPerPage) && selected == old(selected)
    {
      form := form[name := value];
    }

    /** The confirmed reset empties the form and keeps the selection. */
    method ConfirmReset()
      modifies this
      ensures form == EmptyForm()
      ensures ams == old(ams) && filter == old(filter) && page == old(page)
      ensures rowsPerPage == old(rowsPerPage) && selected == old(selected)
    {
      form := EmptyForm();
    }

    method Submit() returns (p: UpdatePrompt)
      ensures p == SubmitPromptOf(selected, form)
    {
      p := SubmitPromptOf(selected, form);
    }
  }
}
