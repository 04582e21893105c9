/**
 * The `slugify` helper two pages share: a name turned into lower-case
 * letters and digits separated by single dashes.
 */
module Slugs {
  import opened Text
  import opened Seqs

  /** The characters a slug keeps as they are: `[a-z0-9]`. */
  predicate IsSlugChar(c: char) {
    ('a' <= c <= 'z') || ('0' <= c <= '9')
  }

  /** Every character is kept or a '-', and no two '-' are adjacent. */
  predicate DashSeparated(s: string) {
    (forall i :: 0 <= i < |s| ==> IsSlugChar(s[i]) || s[i] == '-')
    && (forall i :: 0 <= i < |s| - 1 ==> s[i] != '-' || s[i + 1] != '-')
  }

  /** The string after its leading run of characters outside `[a-z0-9]`. */
  function SkipRun(s: string): (r: string)
    ensures |r| <= |s|
    ensures s != [] && !IsSlugChar(s[0]) ==> |r| < |s|
  {
    if s == [] || IsSlugChar(s[0]) then s else SkipRun(s[1..])
  }

  /** What is left after the run starts with a kept character, if anything. */
  lemma {:induction false} SkipRunStops(s: string)
    ensures SkipRun(s) == [] || IsSlugChar(SkipRun(s)[0])
    decreases |s|
  {
    if s != [] && !IsSlugChar(s[0]) {
      SkipRunStops(s[1..]);
    }
  }

  /** `.replace(/[^a-z0-9]+/g, '-')`: each run of other characters becomes one '-'. */
  function Collapse(s: string): string
    decreases |s|
  {
    if s == [] then []
    else if IsSlugChar(s[0]) then [s[0]] + Collapse(s[1..])
    else "-" + Collapse(SkipRun(s))
  }

  /**
   * The result is dash-separated, empty only for the empty string, and
   * starts with '-' exactly when the string starts outside `[a-z0-9]`.
   */
  lemma {:induction false} CollapseShape(s: string)
    ensures DashSeparated(Collapse(s))
    ensures s == [] <==> Collapse(s) == []
    ensures s != [] ==> (Collapse(s)[0] == '-' <==> !IsSlugChar(s[0]))
    decreases |s|
  {
    if s != [] {
      if IsSlugChar(s[0]) {
        CollapseShape(s[1..]);
      } else {
        CollapseShape(SkipRun(s));
        SkipRunStops(s);
      }
    }
  }

  /** `.replace(/(^-|-$)/g, '')`: a leading and a trailing '-' are dropped. */
  function StripDashes(s: string): (r: string)
    ensures |r| <= |s|
  {
    var a := if |s| > 0 && s[0] == '-' then s[1..] else s;
    if |a| > 0 && a[|a| - 1] == '-' then a[..|a| - 1] else a
  }

  /** The slug before the fallback. */
  function SlugCore(value: string): string {
    StripDashes(Collapse(Trim(Lower(value))))
  }

  /**
   * `slugify`: lower-cased, trimmed, runs outside `[a-z0-9]` joined into
   * one '-', edge dashes dropped; when nothing is left, the fallback (each
   * page has its own, made from the clock).
   */
  function Slugify(value: string, fallback: string): string {
    var core := SlugCore(value);
    if core == "" then fallback else core
  }

  /** The characters of a string in `[a-z0-9]`, in order. */
  function SlugChars(s: string): string {
    Filter(s, IsSlugChar)
  }

  lemma {:induction false} SkipRunChars(s: string)
    ensures SlugChars(SkipRun(s)) == SlugChars(s)
    decreases |s|
  {
    if s != [] && !IsSlugChar(s[0]) {
      SkipRunChars(s[1..]);
    }
  }

  /** Collapsing keeps every character of `[a-z0-9]`, in order. */
  lemma {:induction false} CollapseChars(s: string)
    ensures SlugChars(Collapse(s)) == SlugChars(s)
    decreases |s|
  {
    if s != [] {
      if IsSlugChar(s[0]) {
        CollapseChars(s[1..]);
        assert Collapse(s)[1..] == Collapse(s[1..]);
      } else {
        CollapseChars(SkipRun(s));
        SkipRunChars(s);
        assert Collapse(s)[1..] == Collapse(SkipRun(s));
      }
    }
  }

  /** A blank string has no slug character. */
  lemma {:induction false} BlankChars(s: string)
    requires IsBlank(s)
    ensures SlugChars(s) == []
    decreases |s|
  {
    if s != [] {
      BlankChars(s[1..]);
    }
  }

  /** Blanks before a string add no slug character. */
  lemma BlankPrefixChars(p: string, a: string)
    requires IsBlank(p)
    ensures SlugChars(p + a) == SlugChars(a)
  {
    FilterAppend(p, a, IsSlugChar);
    BlankChars(p);
  }

  /** Blanks after a string add no slug character. */
  lemma BlankSuffixChars(b: string, q: string)
    requires IsBlank(q)
    ensures SlugChars(b + q) == SlugChars(b)
  {
    FilterAppend(b, q, IsSlugChar);
    BlankChars(q);
  }

  lemma TrimStartChars(s: string)
    ensures SlugChars(TrimStart(s)) == SlugChars(s)
  {
    var a := TrimStart(s);
    TrimStartSpec(s);
    assert s == s[..|s| - |a|] + a;
    BlankPrefixChars(s[..|s| - |a|], a);
  }

  lemma TrimEndChars(s: string)
    ensures SlugChars(TrimEnd(s)) == SlugChars(s)
  {
    var b := TrimEnd(s);
    TrimEndSpec(s);
    assert s == b + s[|b|..];
    BlankSuffixChars(b, s[|b|..]);
  }

  /** Trimming removes only blanks, so it keeps every slug character. */
  lemma TrimChars(s: string)
    ensures SlugChars(Trim(s)) == SlugChars(s)
  {
    TrimStartChars(s);
    TrimEndChars(TrimStart(s));
  }

  /** Dropping edge dashes keeps every slug character. */
  lemma StripChars(s: string)
    ensures SlugChars(StripDashes(s)) == SlugChars(s)
  {
    var a := if |s| > 0 && s[0] == '-' then s[1..] else s;
    if |s| > 0 && s[0] == '-' {
      assert s == [s[0]] + a;
      FilterAppend([s[0]], a, IsSlugChar);
    }
    if |a| > 0 && a[|a| - 1] == '-' {
      assert a == a[..|a| - 1] + [a[|a| - 1]];
      FilterAppend(a[..|a| - 1], [a[|a| - 1]], IsSlugChar);
    }
  }

  /** A dash-separated string without slug characters is "" or "-". */
  lemma NoCharsShort(s: string)
    requires DashSeparated(s) && SlugChars(s) == []
    ensures |s| <= 1
  {
    if |s| >= 2 {
      FilterMembers(s, IsSlugChar, s[0]);
      FilterMembers(s, IsSlugChar, s[1]);
    }
  }

  /** Dropping edge dashes of a dash-separated string leaves one. */
  lemma StripShape(s: string)
    requires DashSeparated(s)
    ensures DashSeparated(StripDashes(s))
    ensures var r := StripDashes(s); r == [] || (r[0] != '-' && r[|r| - 1] != '-')
  {
  }

  /**
   * The slug keeps exactly the `[a-z0-9]` characters of the lower-cased
   * value, in order; the fallback is taken exactly when there are none.
   * Otherwise the slug is made of those characters and single dashes, and
   * neither starts nor ends with a dash.
   */
  lemma SlugifyShape(value: string, fallback: string)
    ensures SlugCore(value) == "" <==> SlugChars(Lower(value)) == []
    ensures SlugChars(SlugCore(value)) == SlugChars(Lower(value))
    ensures SlugCore(value) == "" ==> Slugify(value, fallback) == fallback
    ensures var r := SlugCore(value);
      r != "" ==> Slugify(value, fallback) == r && DashSeparated(r) && r[0] != '-' && r[|r| - 1] != '-'
  {
    var t := Trim(Lower(value));
    var c := Collapse(t);
    CollapseShape(t);
    TrimChars(Lower(value));
    CollapseChars(t);
    StripChars(c);
    StripShape(c);
    var r := StripDashes(c);
    if r != "" {
      assert r[0] in r;
      assert r[0] != '-';
      FilterMembers(r, IsSlugChar, r[0]);
    }
    if SlugChars(c) == [] {
      NoCharsShort(c);
    }
  }

  /** A dash-separated string collapses to itself. */
  lemma {:induction false} CollapseFixed(s: string)
    requires DashSeparated(s)
    ensures Collapse(s) == s
    decreases |s|
  {
    if s != [] {
      assert DashSeparated(s[1..]);
      CollapseFixed(s[1..]);
      if !IsSlugChar(s[0]) {
        assert SkipRun(s) == s[1..];
      }
    }
  }

  /** A dash-separated string without edge dashes is its own slug. */
  lemma SlugFixed(r: string)
    requires DashSeparated(r) && r != [] && r[0] != '-' && r[|r| - 1] != '-'
    ensures SlugCore(r) == r
  {
    assert Lower(r) == r;
    assert IsSlugChar(r[0]) && IsSlugChar(r[|r| - 1]);
    TrimFixed(r);
    CollapseFixed(r);
  }

  /** A slug that is not the fallback is its own slug, whatever the later fallback. */
  lemma SlugifyIdempotent(value: string, fallback: string, later: string)
    requires SlugCore(value) != ""
    ensures Slugify(Slugify(value, fallback), later) == Slugify(value, fallback)
  {
    SlugifyShape(value, fallback);
    SlugFixed(SlugCore(value));
  }
}
