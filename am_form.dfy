/**
 * The "add account manager" form: the sales id generated for an SME account
 * manager, the effect that fills the id from the group the manager belongs
 * to, the field edits, the reset summary and the guard on submit.
 */
module AmForm {
  import opened Wrappers
  import opened Text
  import opened Seqs

  // ------------------------------------------------------------ SME ids

  /** An account manager as loaded from the service; a non-string id is None. */
  datatype AmRow = AmRow(kelAm: string, idSales: Option<string>)

  /** `/^A\d{5}$/`. */
  predicate IsSmeId(s: string) {
    |s| == 6 && s[0] == 'A' && AllDigits(s[1..])
  }

  /** A row counted by the generator: an SME account manager with an id of the SME shape. */
  predicate Counted(a: AmRow) {
    a.kelAm == "AM SME" && a.idSales.Some? && IsSmeId(a.idSales.value)
  }

  /** The number of a counted id: `parseInt(id.substring(1), 10)` of its five digits. */
  function SmeNumber(a: AmRow): nat
    requires Counted(a)
  {
    DecimalValue(a.idSales.value[1..])
  }

  /** The numbers of the counted rows, in list order. */
  function SmeNumbers(rows: seq<AmRow>): (ns: seq<nat>)
    ensures |ns| <= |rows|
  {
    if |rows| == 0 then []
    else (if Counted(rows[0]) then [SmeNumber(rows[0])] else []) + SmeNumbers(rows[1..])
  }

  /** A number is listed iff some counted row carries it. */
  lemma {:induction false} SmeNumbersMembers(rows: seq<AmRow>, n: nat)
    ensures n in SmeNumbers(rows) <==> exists a :: a in rows && Counted(a) && SmeNumber(a) == n
  {
    if |rows| > 0 {
      SmeNumbersMembers(rows[1..], n);
      assert rows == [rows[0]] + rows[1..];
      if n in SmeNumbers(rows) && n !in SmeNumbers(rows[1..]) {
        assert rows[0] in rows && Counted(rows[0]) && SmeNumber(rows[0]) == n;
      }
    }
  }

  /** `smeIds.length ? Math.max(...smeIds) : 0`. */
  function MaxOf(ns: seq<nat>): (m: nat)
    ensures forall i :: 0 <= i < |ns| ==> ns[i] <= m
    ensures |ns| == 0 ==> m == 0
    ensures |ns| > 0 ==> m in ns
  {
    if |ns| == 0 then 0
    else
      var rest := MaxOf(ns[1..]);
      if ns[0] >= rest then ns[0] else rest
  }

  /** `generateNextIdSalesSME`: "A" and the largest counted number plus one, padded to five digits. */
  function NextSmeId(rows: seq<AmRow>): string {
    "A" + PadStart(ToDecimal(MaxOf(SmeNumbers(rows)) + 1), 5, '0')
  }

  /** The generated id is "A" and digits whose value is the largest counted number plus one. */
  lemma NextSmeIdValue(rows: seq<AmRow>)
    ensures var id := NextSmeId(rows);
      |id| >= 6 && id[0] == 'A' && AllDigits(id[1..])
      && DecimalValue(id[1..]) == MaxOf(SmeNumbers(rows)) + 1
  {
    var n := MaxOf(SmeNumbers(rows)) + 1;
    var d := ToDecimal(n);
    var p := PadStart(d, 5, '0');
    var z := p[..|p| - |d|];
    assert p == z + d;
    LeadingZeros(z, d);
    DecimalRoundTrip(n);
    assert NextSmeId(rows)[1..] == p;
  }

  /** The generated id is numerically above every counted id. */
  lemma NextSmeIdAbove(rows: seq<AmRow>, a: AmRow)
    requires a in rows && Counted(a)
    ensures DecimalValue(NextSmeId(rows)[1..]) > SmeNumber(a)
  {
    NextSmeIdValue(rows);
    SmeNumbersMembers(rows, SmeNumber(a));
  }

  /** With nothing counted the first id is "A00001". */
  lemma FirstSmeId(rows: seq<AmRow>)
    requires forall a :: a in rows ==> !Counted(a)
    ensures NextSmeId(rows) == "A00001"
  {
    if |SmeNumbers(rows)| > 0 {
      SmeNumbersMembers(rows, SmeNumbers(rows)[0]);
      assert false;
    }
    assert ToDecimal(1) == "1";
  }

  /** The generated id has the shape the generator counts iff the largest number is below 99999. */
  lemma NextSmeIdShape(rows: seq<AmRow>)
    ensures IsSmeId(NextSmeId(rows)) <==> MaxOf(SmeNumbers(rows)) < 99999
  {
    var n := MaxOf(SmeNumbers(rows)) + 1;
    ToDecimalLength(n, 5);
    assert Pow10(5) == 100000 by {
      assert Pow10(1) == 10 && Pow10(2) == 100 && Pow10(3) == 1000 && Pow10(4) == 10000;
    }
    NextSmeIdValue(rows);
  }

  /** After "A99999" the generator hands out a six-digit id its own pattern rejects. */
  lemma SmeIdOverflow(rows: seq<AmRow>)
    requires exists a :: a in rows && Counted(a) && SmeNumber(a) == 99999
    ensures !IsSmeId(NextSmeId(rows)) && DecimalValue(NextSmeId(rows)[1..]) == 100000
  {
    assert MaxOf(SmeNumbers(rows)) == 99999 by {
      MaxReached(rows);
    }
    NextSmeIdShape(rows);
    NextSmeIdValue(rows);
  }

  /** A counted 99999 is the largest counted number. */
  lemma MaxReached(rows: seq<AmRow>)
    requires exists a :: a in rows && Counted(a) && SmeNumber(a) == 99999
    ensures MaxOf(SmeNumbers(rows)) == 99999
  {
    SmeNumbersMembers(rows, 99999);
    var ns := SmeNumbers(rows);
    var m := MaxOf(ns);
    var j :| 0 <= j < |ns| && ns[j] == m;
    SmeNumbersMembers(rows, m);
    var b :| b in rows && Counted(b) && SmeNumber(b) == m;
    FiveDigitsBound(b.idSales.value[1..]);
  }

  /** Five digits denote at most 99999. */
  lemma FiveDigitsBound(s: string)
    requires |s| == 5 && AllDigits(s)
    ensures DecimalValue(s) <= 99999
  {
    var s4, s3, s2, s1 := s[..4], s[..3], s[..2], s[..1];
    assert s4[..3] == s3 && s3[..2] == s2 && s2[..1] == s1 && s1[..0] == [];
    assert DecimalValue(s1) <= 9;
    assert DecimalValue(s2) <= 99;
    assert DecimalValue(s3) <= 999;
    assert DecimalValue(s4) <= 9999;
  }

  // ----------------------------------------------------------- form data

  /** One field of the form object, in the order its keys were first set. */
  datatype Entry = Entry(key: string, value: string)

  /** The keys of `initialForm`, in order. */
  const FormKeys: seq<string> := [
    "perner_ish_amex_only", "tgl_nik_telkm_amex", "id_sales", "nik_am", "nama_am", "notel",
    "email", "level_am", "kel_am", "tr", "witel", "bp", "bko", "tgl_aktif", "am_aktif", "telda",
    "loc_kerja_am", "gender", "tgl_lahir", "usia", "masa_kerja", "tgl_aktif_pro_hire",
    "tgl_akhr_pro_hire", "perpnjng_pro_hire", "tgl_out_sebagai_am", "ket_out", "pendidikan",
    "jurusan", "universitas", "tahun_lulus", "laptop", "cek_laptop", "fase_laptop",
    "ket_kerusakan_laptop", "tgl_terima_laptop", "link_ba_laptop_am", "nomor_cc", "ket_cc",
    "baju_telkom", "size_baju", "size_jaket", "sertf_train_ext", "link_evid_train_ext", "hobi",
    "bakat", "pengalaman_kerja", "skill_bahasa", "nama_bank", "no_rek"]

  /** `initialForm`: every key empty. */
  function InitialForm(): (f: seq<Entry>)
    ensures |f| == |FormKeys| && forall i :: 0 <= i < |f| ==> f[i] == Entry(FormKeys[i], "")
  {
    seq(|FormKeys|, i requires 0 <= i < |FormKeys| => Entry(FormKeys[i], ""))
  }

  function Keys(f: seq<Entry>): (ks: seq<string>)
    ensures |ks| == |f| && forall i :: 0 <= i < |f| ==> ks[i] == f[i].key
  {
    seq(|f|, i requires 0 <= i < |f| => f[i].key)
  }

  /** `formData[key]`, with a missing key read as "". */
  function Get(f: seq<Entry>, key: string): string {
    if |f| == 0 then "" else if f[0].key == key then f[0].value else Get(f[1..], key)
  }

  /**
   * `{ ...f, [key]: value }`: an existing key keeps its place and takes the
   * value; a new key is added at the end.
   */
  function Set(f: seq<Entry>, key: string, value: string): (r: seq<Entry>)
    ensures key in Keys(f) ==> Keys(r) == Keys(f)
    ensures key !in Keys(f) ==> Keys(r) == Keys(f) + [key]
  {
    if |f| == 0 then [Entry(key, value)]
    else if f[0].key == key then
      KeysCons(f[0], f[1..]);
      KeysCons(Entry(key, value), f[1..]);
      [Entry(key, value)] + f[1..]
    else
      KeysCons(f[0], f[1..]);
      var rest := Set(f[1..], key, value);
      KeysCons(f[0], rest);
      [f[0]] + rest
  }

  lemma KeysCons(e: Entry, rest: seq<Entry>)
    ensures Keys([e] + rest) == [e.key] + Keys(rest)
  {
  }

  /** After a set, the key reads the new value and every other key reads what it did. */
  lemma {:induction false} SetGet(f: seq<Entry>, key: string, value: string, other: string)
    ensures Get(Set(f, key, value), key) == value
    ensures other != key ==> Get(Set(f, key, value), other) == Get(f, other)
  {
    if |f| > 0 && f[0].key != key {
      SetGet(f[1..], key, value, other);
    }
  }

  /** The groups whose id is their NIK. */
  const NikGroups: seq<string> := ["AM Pro Hire", "AM Organik", "AM Organik MD"]

  /**
   * The auto-id effect: an SME manager takes the generated id, a Pro Hire
   * or Organik manager takes the NIK, and any other group leaves the id as it is.
   */
  function AutoId(f: seq<Entry>, rows: seq<AmRow>): seq<Entry> {
    var group := Get(f, "kel_am");
    if group == "AM SME" then Set(f, "id_sales", NextSmeId(rows))
    else if group in NikGroups then Set(f, "id_sales", Get(f, "nik_am"))
    else f
  }

  /** What the effect leaves in `id_sales`, and that it touches nothing else. */
  lemma AutoIdResult(f: seq<Entry>, rows: seq<AmRow>, other: string)
    ensures var group := Get(f, "kel_am");
      Get(AutoId(f, rows), "id_sales") ==
        if group == "AM SME" then NextSmeId(rows)
        else if group in NikGroups then Get(f, "nik_am")
        else Get(f, "id_sales")
    ensures other != "id_sales" ==> Get(AutoId(f, rows), other) == Get(f, other)
  {
    SetGet(f, "id_sales", NextSmeId(rows), other);
    SetGet(f, "id_sales", Get(f, "nik_am"), other);
  }

  /** Running the effect again, with the same group, NIK and rows, changes nothing more. */
  lemma AutoIdSettles(f: seq<Entry>, rows: seq<AmRow>)
    ensures forall k :: Get(AutoId(AutoId(f, rows), rows), k) == Get(AutoId(f, rows), k)
  {
    forall k
      ensures Get(AutoId(AutoId(f, rows), rows), k) == Get(AutoId(f, rows), k)
    {
      var g := AutoId(f, rows);
      AutoIdResult(f, rows, "kel_am");
      AutoIdResult(f, rows, "nik_am");
      AutoIdResult(f, rows, k);
      AutoIdResult(g, rows, k);
    }
  }

  // --------------------------------------------------------------- reset

  /** `fieldLabels`; the key "perpanjng_pro_hire" is the one the renewal input writes. */
  const FieldLabels: map<string, string> := map[
    "perner_ish_amex_only" := "No Perner ISH AMEX",
    "tgl_nik_telkm_amex" := "Tanggal NIK Telkom AMEX",
    "id_sales" := "ID Sales",
    "nik_am" := "NIK AM",
    "nama_am" := "Nama AM",
    "notel" := "No. Telp",
    "email" := "Email",
    "kel_am" := "Kel AM",
    "bp" := "BP",
    "bko" := "BKO",
    "witel" := "Witel",
    "tr" := "Regional",
    "telda" := "Telda",
    "loc_kerja_am" := "Lokasi Kerja AM",
    "gender" := "Gender",
    "tgl_lahir" := "Tanggal Lahir",
    "usia" := "Usia",
    "tgl_aktif" := "Tanggal Aktif",
    "am_aktif" := "Status AM",
    "tgl_out_sebagai_am" := "Tanggal Out AM",
    "ket_out" := "Keterangan AM OUT",
    "tgl_aktif_pro_hire" := "Tanggal Aktif Pro Hire",
    "perpanjng_pro_hire" := "Update Perpanjangan Kontrak",
    "tgl_akhr_pro_hire" := "Tanggal Akhir Pro Hire",
    "pendidikan" := "Pendidikan Terakhir",
    "jurusan" := "Jurusan",
    "universitas" := "Nama Universitas",
    "tahun_lulus" := "Tahun Lulus",
    "laptop" := "Laptop",
    "cek_laptop" := "Cek Laptop",
    "fase_laptop" := "Fase Laptop",
    "ket_kerusakan_laptop" := "Keterangan Kerusakan Laptop",
    "tgl_terima_laptop" := "Tanggal Terima Laptop",
    "link_ba_laptop_am" := "Link BA Laptop",
    "nomor_cc" := "Nomor CC",
    "ket_cc" := "Keterangan CC",
    "baju_telkom" := "Baju Telkom",
    "size_baju" := "Size Baju",
    "size_jaket" := "Size Jaket",
    "sertf_train_ext" := "Sertifikat Training Eksternal",
    "link_evid_train_ext" := "Link Evidensi Training Eksternal",
    "hobi" := "Hobi",
    "bakat" := "Bakat",
    "pengalaman_kerja" := "Pengalaman Kerja",
    "skill_bahasa" := "Skill Bahasa",
    "nama_bank" := "Nama Bank",
    "no_rek" := "No. Rekening"]

  /** `fieldLabels[key] || key`; no label is empty, so a listed key always shows its label. */
  function Label(key: string): string {
    if key in FieldLabels then FieldLabels[key] else key
  }

  /** The summary lines of the filled fields, in form order. */
  function FilledLines(f: seq<Entry>): (lines: seq<string>)
    ensures |lines| <= |f|
  {
    if |f| == 0 then []
    else
      (if f[0].value != "" then ["• " + Label(f[0].key) + " : " + f[0].value] else [])
      + FilledLines(f[1..])
  }

  /** What the reset button shows: a note that the form is empty, or the fields it would clear. */
  datatype ResetPrompt = AlreadyEmpty | ConfirmClear(lines: seq<string>)

  function ResetPromptOf(f: seq<Entry>): ResetPrompt {
    var lines := FilledLines(f);
    if |lines| == 0 then AlreadyEmpty else ConfirmClear(lines)
  }

  /** The reset only informs iff every field is empty; otherwise it lists one line per filled field. */
  lemma {:induction false} ResetPromptCases(f: seq<Entry>)
    ensures ResetPromptOf(f) == AlreadyEmpty <==> forall i :: 0 <= i < |f| ==> f[i].value == ""
    ensures ResetPromptOf(f).ConfirmClear? ==>
      |ResetPromptOf(f).lines| == |Filter(f, (e: Entry) => e.value != "")|
  {
    FilledCount(f);
  }

  lemma {:induction false} FilledCount(f: seq<Entry>)
    ensures |FilledLines(f)| == |Filter(f, (e: Entry) => e.value != "")|
    ensures |FilledLines(f)| == 0 <==> forall i :: 0 <= i < |f| ==> f[i].value == ""
  {
    if |f| > 0 {
      FilledCount(f[1..]);
      if |FilledLines(f)| == 0 {
        forall i | 0 <= i < |f|
          ensures f[i].value == ""
        {
          if i > 0 {
            assert f[i] == f[1..][i - 1];
          }
        }
      }
    }
  }

  /** A freshly opened form has nothing to reset. */
  lemma InitialFormEmpty()
    ensures ResetPromptOf(InitialForm()) == AlreadyEmpty
  {
    ResetPromptCases(InitialForm());
  }

  // -------------------------------------------------------------- submit

  /** What submitting shows: the refusal, or the confirmation before saving. */
  datatype SubmitPrompt = IdMissing | ConfirmSave(nik: string, idSales: string, name: string)

  function SubmitPromptOf(f: seq<Entry>): (p: SubmitPrompt)
    ensures p == IdMissing <==> Get(f, "id_sales") == ""
    ensures p.ConfirmSave? ==> p.idSales == Get(f, "id_sales")
  {
    if Get(f, "id_sales") == "" then IdMissing
    else ConfirmSave(Get(f, "nik_am"), Get(f, "id_sales"), Get(f, "nama_am"))
  }

  /** An SME manager can always be submitted once the effect has run. */
  lemma SmeSubmittable(f: seq<Entry>, rows: seq<AmRow>)
    requires Get(f, "kel_am") == "AM SME"
    ensures SubmitPromptOf(AutoId(f, rows)).ConfirmSave?
  {
    AutoIdResult(f, rows, "id_sales");
    NextSmeIdValue(rows);
  }

  /** The page's state: the loaded account managers and the form data. */
  class AmInsertPage {
    var rows: seq<AmRow>
    var form: seq<Entry>

    constructor ()
      ensures rows == [] && form == InitialForm()
    {
      rows := [];
      form := InitialForm();
    }

    /** The rows `getAMs` delivered. */
    method Loaded(data: seq<AmRow>)
      modifies this
      ensures rows == data && form == old(form)
    {
      rows := data;
    }

    /** `handleChange`: the input's id takes its value. */
    method Change(id: string, value: string)
      modifies this
      ensures form == Set(old(form), id, value) && rows == old(rows)
    {
      form := Set(form, id, value);
    }

    /** The auto-id effect, run after the group, the NIK or the rows change. */
    method SyncId()
      modifies this
      ensures form == AutoId(old(form), rows) && rows == old(rows)
    {
      var group := Get(form, "kel_am");
      if group == "AM SME" {
        form := Set(form, "id_sales", NextSmeId(rows));
      } else if group in NikGroups {
        form := Set(form, "id_sales", Get(form, "nik_am"));
      }
    }

    /** The reset button; confirming the prompt runs `ConfirmReset`. */
    method Reset() returns (p: ResetPrompt)
      ensures p == ResetPromptOf(form)
      ensures p.AlreadyEmpty? <==> forall i :: 0 <= i < |form| ==> form[i].value == ""
    {
      p := ResetPromptOf(form);
      ResetPromptCases(form);
    }

    method ConfirmReset()
      modifies this
      ensures form == InitialForm() && rows == old(rows)
    {
      form := InitialForm();
    }

    /** The submit button. */
    method Submit() returns (p: SubmitPrompt)
      ensures p == SubmitPromptOf(form)
    {
      p := SubmitPromptOf(form);
    }
  }
}
