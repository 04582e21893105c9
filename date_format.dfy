/**
 * `formatDate`, which cuts a stored date or date-time down to the
 * `YYYY-MM-DD` text a date input accepts.
 */
module DateFormat {
  import opened Text

  /**
   * A value handed to `formatDate`: a string, or any other JavaScript value,
   * of which only its truthiness matters.
   */
  datatype Value = Str(text: string) | NonString(truthy: bool)

  /** The text before the first `c`, which is `s.split(c)[0]`. */
  function Before(s: string, c: char): (r: string)
    ensures r == Split(s, {c})[0]
    ensures r == s[..FirstIndexIn(s, {c})] && c !in r
  {
    s[..FirstIndexIn(s, {c})]
  }

  /** `formatDate(value)`. */
  function FormatDate(v: Value): string {
    match v
    case NonString(_) => ""
    case Str(s) =>
      if s == "" then ""
      else if ' ' in s then Before(s, ' ')
      else if 'T' in s then Before(s, 'T')
      else s
  }

  /**
   * A string is cut before its first space, else before its first 'T', else
   * kept: the result is always a prefix of the input. Any other value, falsy
   * or not, gives "".
   */
  lemma FormatDateCases(v: Value)
    ensures v.NonString? ==> FormatDate(v) == ""
    ensures v.Str? && ' ' in v.text ==> FormatDate(v) == v.text[..FirstIndexIn(v.text, {' '})]
    ensures v.Str? && ' ' !in v.text && 'T' in v.text ==> FormatDate(v) == v.text[..FirstIndexIn(v.text, {'T'})]
    ensures v.Str? && ' ' !in v.text && 'T' !in v.text ==> FormatDate(v) == v.text
    ensures v.Str? ==> FormatDate(v) <= v.text
  {
  }

  /** The result holds no space, and a 'T' only when the input held no space. */
  lemma FormatDateCuts(v: Value)
    ensures ' ' !in FormatDate(v)
    ensures v.Str? && ' ' !in v.text ==> 'T' !in FormatDate(v)
  {
    if v.Str? && v.text != "" && ' ' in v.text {
      var s := v.text;
      var k := FirstIndexIn(s, {' '});
      assert FormatDate(v) == s[..k];
    }
  }

  /**
   * Formatting a formatted date again changes nothing unless the text before
   * the first space still holds a 'T' (a date-time followed by a space).
   */
  lemma FormatDateIdempotent(v: Value)
    requires v.Str? && ' ' in v.text ==> 'T' !in Before(v.text, ' ')
    ensures FormatDate(Str(FormatDate(v))) == FormatDate(v)
  {
    FormatDateCuts(v);
  }

  /** With a 'T' left before the first space, the second pass cuts again. */
  lemma FormatDateTwiceCutsAgain(s: string)
    requires ' ' in s && 'T' in Before(s, ' ')
    ensures FormatDate(Str(FormatDate(Str(s)))) == Before(Before(s, ' '), 'T') != FormatDate(Str(s))
  {
    var r := Before(s, ' ');
    assert FormatDate(Str(s)) == r;
    assert r != "" && ' ' !in r;
    assert 'T' !in Before(r, 'T');
  }
}
