/**
 * What the account-manager profile and update pages share: reading a field
 * of a loaded row whatever the case of its key, the active test, the region
 * options and the page window over the filtered rows.
 */
module AmRows {
  import opened Text
  import opened Seqs

  /** A row as the service delivers it: its string-valued properties by key. */
  type Row = map<string, string>

  /**
   * `getFieldValue`: the key, else its upper-case form, else its lower-case
   * form, else "". A present key wins even when its value is "".
   */
  function FieldValue(row: Row, key: string): string {
    if key in row then row[key]
    else if Upper(key) in row then row[Upper(key)]
    else if Lower(key) in row then row[Lower(key)]
    else ""
  }

  /**
   * The value read is the first of the three spellings present in the row,
   * and "" exactly when none is present or the first present one is empty.
   */
  lemma FieldValueFirstPresent(row: Row, key: string)
    ensures key in row ==> FieldValue(row, key) == row[key]
    ensures key !in row && Upper(key) in row ==> FieldValue(row, key) == row[Upper(key)]
    ensures FieldValue(row, key) != "" ==>
      FieldValue(row, key) in {ValueAt(row, key), ValueAt(row, Upper(key)), ValueAt(row, Lower(key))}
    ensures key !in row && Upper(key) !in row && Lower(key) !in row ==> FieldValue(row, key) == ""
  {
  }

  function ValueAt(row: Row, key: string): string {
    if key in row then row[key] else ""
  }

  /** `isAktif`: the upper-cased status is "AKTIF". */
  predicate IsAktif(row: Row) {
    Upper(FieldValue(row, "am_aktif")) == "AKTIF"
  }

  /** The number of active rows, never more than there are rows. */
  function ActiveCount(rows: seq<Row>): (n: nat)
    ensures n <= |rows|
  {
    |Filter(rows, IsAktif)|
  }

  /** One field read from every row, in row order. */
  function Column(rows: seq<Row>, key: string): (c: seq<string>)
    ensures |c| == |rows| && forall i :: 0 <= i < |rows| ==> c[i] == FieldValue(rows[i], key)
  {
    seq(|rows|, i requires 0 <= i < |rows| => FieldValue(rows[i], key))
  }

  predicate NonEmpty(s: string) { s != "" }

  /** `[...new Set(rows.map(r => getFieldValue(r, key)).filter(Boolean))]`. */
  function Regions(rows: seq<Row>, key: string): seq<string> {
    Dedup(Filter(Column(rows, key), NonEmpty))
  }

  /** The region options are distinct, and a value is offered iff some row carries it non-empty. */
  lemma RegionsExact(rows: seq<Row>, key: string, r: string)
    ensures Distinct(Regions(rows, key))
    ensures r in Regions(rows, key) <==> r != "" && exists i :: 0 <= i < |rows| && FieldValue(rows[i], key) == r
  {
    var c := Column(rows, key);
    var f := Filter(c, NonEmpty);
    FilterMembers(c, NonEmpty, r);
    if r in f {
      var j :| 0 <= j < |f| && f[j] == r;
      assert f[j] in Dedup(f);
    }
    if r in Dedup(f) {
      var j :| 0 <= j < |Dedup(f)| && Dedup(f)[j] == r;
      assert r in f;
      var i :| 0 <= i < |c| && c[i] == r;
      assert FieldValue(rows[i], key) == r;
    }
    if r != "" && exists i :: 0 <= i < |rows| && FieldValue(rows[i], key) == r {
      var i :| 0 <= i < |rows| && FieldValue(rows[i], key) == r;
      assert c[i] == r;
    }
  }

  /**
   * Read through "TR" a row tries "TR" then "tr"; read through "tr" it tries
   * "tr" then "TR". The two readings differ only on a row carrying both keys.
   */
  lemma RegionKeysAgree(row: Row)
    ensures ("tr" !in row || "TR" !in row) ==> FieldValue(row, "TR") == FieldValue(row, "tr")
    ensures "tr" in row && "TR" in row ==> FieldValue(row, "TR") == row["TR"] && FieldValue(row, "tr") == row["tr"]
  {
    assert Upper("tr") == "TR" by {
      assert Upper("tr")[0] == 'T' && Upper("tr")[1] == 'R';
    }
    assert Lower("TR") == "tr" by {
      assert Lower("TR")[0] == 't' && Lower("TR")[1] == 'r';
    }
    assert Upper("TR") == "TR" by {
      assert Upper("TR")[0] == 'T' && Upper("TR")[1] == 'R';
    }
    assert Lower("tr") == "tr" by {
      assert Lower("tr")[0] == 't' && Lower("tr")[1] == 'r';
    }
  }

  // ----------------------------------------------------------- pagination

  /** `Math.min(start + rowsPerPage, total)` with `start = (page - 1) * rowsPerPage`. */
  function PageStart(page: int, rows: nat): int {
    (page - 1) * rows
  }

  function PageEnd(page: int, rows: nat, total: nat): (e: int)
    ensures e <= total && e <= PageStart(page, rows) + rows
  {
    if PageStart(page, rows) + rows <= total then PageStart(page, rows) + rows else total
  }

  /** Where `Array.prototype.slice` puts an index: negative counts from the end, then clamped. */
  function SliceIndex(k: int, len: nat): (r: nat)
    ensures r <= len
  {
    if k < 0 then (if len + k < 0 then 0 else len + k) else if k > len then len else k
  }

  /** `s.slice(a, b)`. */
  function Slice<T>(s: seq<T>, a: int, b: int): (r: seq<T>)
    ensures |r| <= |s|
  {
    var lo := SliceIndex(a, |s|);
    var hi := SliceIndex(b, |s|);
    if hi <= lo then [] else s[lo..hi]
  }

  /** The rows the table shows on a page. */
  function PageRows<T>(s: seq<T>, page: int, rows: nat): seq<T> {
    Slice(s, PageStart(page, rows), PageEnd(page, rows, |s|))
  }

  /** Whatever the page number, a page never shows more than `rowsPerPage` rows. */
  lemma PageRowsBound<T>(s: seq<T>, page: int, rows: nat)
    ensures |PageRows(s, page, rows)| <= rows
  {
  }

  /** For a page from 1 on, the window is the run of rows from the page start, empty past the end. */
  lemma PageRowsWindow<T>(s: seq<T>, page: int, rows: nat)
    requires page >= 1
    ensures PageStart(page, rows) <= |s| ==>
      PageRows(s, page, rows) == s[PageStart(page, rows)..PageEnd(page, rows, |s|)]
    ensures PageStart(page, rows) >= |s| ==> PageRows(s, page, rows) == []
  {
    assert PageStart(page, rows) >= 0 by {
      assert (page - 1) * rows >= 0 by { MulNonNegative(page - 1, rows); }
    }
  }

  lemma MulNonNegative(a: int, b: int)
    requires a >= 0 && b >= 0
    ensures a * b >= 0
  {
  }

  /** Row `i` of the filtered list is shown on page `i / rowsPerPage + 1`, at position `i % rowsPerPage`. */
  lemma PageOfIndex<T>(s: seq<T>, rows: nat, i: nat)
    requires rows >= 1 && i < |s|
    ensures var p := PageRows(s, i / rows + 1, rows);
      i % rows < |p| && p[i % rows] == s[i]
  {
    var page := i / rows + 1;
    assert PageStart(page, rows) == (i / rows) * rows;
    assert (i / rows) * rows + i % rows == i;
    PageRowsWindow(s, page, rows);
  }

  /** `onPrev`: one page back, never below page 1. */
  function PrevPage(page: int): (p: int)
    ensures p >= 1
    ensures page > 1 ==> p == page - 1
  {
    if page - 1 > 1 then page - 1 else 1
  }

  /** `onNext`: one page on while rows remain after this page's window. */
  function NextPage(page: int, rows: nat, total: nat): int {
    if PageEnd(page, rows, total) < total then page + 1 else page
  }

  /**
   * From a page at or after 1, next advances exactly when the next page
   * shows at least one row, so it never leads to an empty page.
   */
  lemma NextPageNonEmpty<T>(s: seq<T>, page: int, rows: nat)
    requires page >= 1 && rows >= 1
    ensures NextPage(page, rows, |s|) == page + 1 <==> |PageRows(s, page + 1, rows)| > 0
  {
    assert PageStart(page + 1, rows) == PageStart(page, rows) + rows;
    PageRowsWindow(s, page, rows);
    PageRowsWindow(s, page + 1, rows);
  }
}
