/**
 * The string handling the crawler applies to texts read from the page:
 * `str.replace(pat, '')`, Python's `int(...)`, the star-rating parse
 * `int(text.replace('평점', ''))` and the review-count parse
 * `int(text.replace(',', ''))`.
 */
module Text {
  import opened Wrappers

  /** The label the shopping site prints in front of a star rating ("평점"). */
  const StarLabel: string := "\U{D3C9}\U{C810}"

  // ---------------------------------------------------------------------
  // str.replace(pat, '')
  // ---------------------------------------------------------------------

  /**
   * `s.replace(pat, '')`: scan left to right, dropping every non-overlapping
   * occurrence of `pat`.
   */
  function RemoveAll(s: string, pat: string): (r: string)
    requires |pat| > 0
    ensures |r| <= |s|
    decreases |s|
  {
    if |s| < |pat| then s
    else if s[..|pat|] == pat then RemoveAll(s[|pat|..], pat)
    else [s[0]] + RemoveAll(s[1..], pat)
  }

  /** A text in which the first character of `pat` never occurs is left as it is. */
  lemma {:induction false} RemoveAllAbsent(s: string, pat: string)
    requires |pat| > 0
    requires forall i :: 0 <= i < |s| ==> s[i] != pat[0]
    ensures RemoveAll(s, pat) == s
    decreases |s|
  {
    if |s| >= |pat| {
      assert s[..|pat|][0] == s[0] != pat[0];
      RemoveAllAbsent(s[1..], pat);
    }
  }

  /** Removing a one-character pattern distributes over concatenation. */
  lemma {:induction false} RemoveCharConcat(a: string, b: string, c: char)
    ensures RemoveAll(a + b, [c]) == RemoveAll(a, [c]) + RemoveAll(b, [c])
    decreases |a|
  {
    if a == [] {
      assert a + b == b;
    } else {
      assert (a + b)[1..] == a[1..] + b;
      assert (a + b)[..1] == a[..1];
      RemoveCharConcat(a[1..], b, c);
    }
  }

  // ---------------------------------------------------------------------
  // int(...)
  // ---------------------------------------------------------------------

  /** The ASCII characters `int()` skips as white space. */
  predicate IsSpace(c: char)
  {
    c == ' ' || c == '\t' || c == '\n' || c == '\r' || c == '\U{B}' || c == '\U{C}'
  }

  predicate IsDigit(c: char)
  {
    '0' <= c <= '9'
  }

  predicate AllDigits(s: string)
  {
    forall i :: 0 <= i < |s| ==> IsDigit(s[i])
  }

  function TrimLeft(s: string): (r: string)
    ensures |r| <= |s|
    ensures r == s[|s| - |r|..]
    ensures r != [] ==> !IsSpace(r[0])
  {
    if s != [] && IsSpace(s[0]) then TrimLeft(s[1..]) else s
  }

  function TrimRight(s: string): (r: string)
    ensures |r| <= |s|
    ensures r == s[..|r|]
    ensures r != [] ==> !IsSpace(r[|r| - 1])
  {
    if s != [] && IsSpace(s[|s| - 1]) then TrimRight(s[..|s| - 1]) else s
  }

  /** The white space `int()` ignores around a number, removed from both ends. */
  function Strip(s: string): string
  {
    TrimRight(TrimLeft(s))
  }

  /**
   * The value of a string of decimal digits, most significant first; `None`
   * as soon as a character is not a digit.
   */
  function DigitsValue(ds: string): (v: Option<nat>)
  {
    if ds == [] then Some(0)
    else match DigitsValue(ds[..|ds| - 1])
      case None => None
      case Some(hi) =>
        if IsDigit(ds[|ds| - 1]) then Some(hi * 10 + (ds[|ds| - 1] as int - '0' as int)) else None
  }

  /** A string has a decimal value exactly when all its characters are digits. */
  lemma {:induction false} DigitsValueDefined(ds: string)
    ensures DigitsValue(ds).Some? <==> AllDigits(ds)
  {
    if ds != [] {
      var hi := ds[..|ds| - 1];
      DigitsValueDefined(hi);
      if AllDigits(ds) {
        assert forall i :: 0 <= i < |hi| ==> hi[i] == ds[i];
      } else if AllDigits(hi) {
        assert !IsDigit(ds[|ds| - 1]);
      } else {
        var i :| 0 <= i < |hi| && !IsDigit(hi[i]);
        assert ds[i] == hi[i];
      }
    }
  }

  /**
   * Python's `int(s)` on a string: surrounding white space is ignored, one
   * optional sign, then at least one decimal digit; anything else is the
   * `ValueError` path, here `None`.
   */
  function ParseInt(s: string): (r: Option<int>)
  {
    var t := Strip(s);
    var signed := t != [] && (t[0] == '+' || t[0] == '-');
    var ds := if signed then t[1..] else t;
    if ds == [] then None
    else match DigitsValue(ds)
      case None => None
      case Some(v) => Some(if signed && t[0] == '-' then -(v as int) else v)
  }

  function Digit(d: nat): (c: char)
    requires d < 10
    ensures IsDigit(c) && c as int - '0' as int == d
  {
    ('0' as int + d) as char
  }

  /** `str(n)` for a natural number: its decimal digits without leading zeros. */
  function FormatInt(n: nat): (r: string)
    ensures r != [] && AllDigits(r)
    ensures r[0] != '0' || n == 0
  {
    if n < 10 then [Digit(n)] else FormatInt(n / 10) + [Digit(n % 10)]
  }

  lemma {:induction false} DigitsValueFormat(n: nat)
    ensures DigitsValue(FormatInt(n)) == Some(n)
  {
    var r := FormatInt(n);
    if n < 10 {
      assert r[..0] == [];
    } else {
      DigitsValueFormat(n / 10);
      assert r[..|r| - 1] == FormatInt(n / 10);
    }
  }

  lemma StripDigits(ds: string)
    requires ds != [] && AllDigits(ds)
    ensures Strip(ds) == ds
  {
    assert !IsSpace(ds[0]) && !IsSpace(ds[|ds| - 1]);
  }

  /** `int(str(n)) == n` for every natural number. */
  lemma ParseFormat(n: nat)
    ensures ParseInt(FormatInt(n)) == Some(n)
  {
    StripDigits(FormatInt(n));
    DigitsValueFormat(n);
  }

  /** `int('-' + str(n)) == -n`. */
  lemma ParseNegative(n: nat)
    ensures ParseInt("-" + FormatInt(n)) == Some(-(n as int))
  {
    var s := "-" + FormatInt(n);
    assert !IsSpace(s[0]) && !IsSpace(s[|s| - 1]);
    assert Strip(s) == s;
    assert s[1..] == FormatInt(n);
    DigitsValueFormat(n);
  }

  /** Surrounding white space does not change what `int` reads. */
  lemma ParsePadded(n: nat, left: string, right: string)
    requires forall i :: 0 <= i < |left| ==> IsSpace(left[i])
    requires forall i :: 0 <= i < |right| ==> IsSpace(right[i])
    ensures ParseInt(left + FormatInt(n) + right) == Some(n)
  {
    var ds := FormatInt(n);
    StripPadded(left, ds, right);
    StripDigits(ds);
    ParseSeesStripped(left + ds + right, ds);
    ParseFormat(n);
  }

  lemma StripPadded(left: string, s: string, right: string)
    requires forall i :: 0 <= i < |left| ==> IsSpace(left[i])
    requires forall i :: 0 <= i < |right| ==> IsSpace(right[i])
    requires s != [] && !IsSpace(s[0]) && !IsSpace(s[|s| - 1])
    ensures Strip(left + s + right) == s
  {
    assert left + s + right == left + (s + right);
    assert (s + right)[0] == s[0];
    TrimLeftSpaces(left, s + right);
    TrimRightSpaces(s, right);
  }

  lemma ParseSeesStripped(a: string, b: string)
    requires Strip(a) == Strip(b)
    ensures ParseInt(a) == ParseInt(b)
  {
  }

  lemma {:induction false} TrimLeftSpaces(sp: string, s: string)
    requires forall i :: 0 <= i < |sp| ==> IsSpace(sp[i])
    requires s != [] && !IsSpace(s[0])
    ensures TrimLeft(sp + s) == s
    decreases |sp|
  {
    if sp == [] {
      assert sp + s == s;
    } else {
      assert (sp + s)[0] == sp[0];
      assert (sp + s)[1..] == sp[1..] + s;
      TrimLeftSpaces(sp[1..], s);
    }
  }

  lemma {:induction false} TrimRightSpaces(s: string, sp: string)
    requires forall i :: 0 <= i < |sp| ==> IsSpace(sp[i])
    requires s != [] && !IsSpace(s[|s| - 1])
    ensures TrimRight(s + sp) == s
    decreases |sp|
  {
    if sp == [] {
      assert s + sp == s;
    } else {
      assert (s + sp)[..|s + sp| - 1] == s + sp[..|sp| - 1];
      TrimRightSpaces(s, sp[..|sp| - 1]);
    }
  }

  // ---------------------------------------------------------------------
  // The two parses of crawl.py
  // ---------------------------------------------------------------------

  /** `int(star_text.replace('평점', ''))`. */
  function StarOf(starText: string): Option<int>
  {
    ParseInt(RemoveAll(starText, StarLabel))
  }

  /** `int(text.replace(',', ''))`. */
  function CountOf(countText: string): Option<int>
  {
    ParseInt(RemoveAll(countText, ","))
  }

  /** A rating printed as "평점" followed by its digits reads back as that rating. */
  lemma StarOfLabelled(n: nat)
    ensures StarOf(StarLabel + FormatInt(n)) == Some(n)
  {
    var s := StarLabel + FormatInt(n);
    assert s[..|StarLabel|] == StarLabel;
    assert s[|StarLabel|..] == FormatInt(n);
    RemoveAllAbsent(FormatInt(n), StarLabel);
    ParseFormat(n);
  }

  /** Digits with a comma between every group of three, counted from the right. */
  function Grouped(ds: string): (r: string)
    decreases |ds|
  {
    if |ds| <= 3 then ds else Grouped(ds[..|ds| - 3]) + "," + ds[|ds| - 3..]
  }

  lemma {:induction false} RemoveCommasGrouped(ds: string)
    requires AllDigits(ds)
    ensures RemoveAll(Grouped(ds), ",") == ds
    decreases |ds|
  {
    if |ds| <= 3 {
      RemoveAllAbsent(ds, ",");
    } else {
      var hi, lo := ds[..|ds| - 3], ds[|ds| - 3..];
      assert AllDigits(hi) by {
        assert forall i :: 0 <= i < |hi| ==> hi[i] == ds[i];
      }
      assert AllDigits(lo) by {
        assert forall i :: 0 <= i < |lo| ==> lo[i] == ds[i + |ds| - 3];
      }
      RemoveCommasGrouped(hi);
      RemoveCommaGroup(Grouped(hi), lo);
      assert hi + lo == ds;
    }
  }

  /** Dropping the commas of `g + "," + lo`, where `lo` is digits, keeps `lo` whole. */
  lemma RemoveCommaGroup(g: string, lo: string)
    requires AllDigits(lo)
    ensures RemoveAll(g + "," + lo, ",") == RemoveAll(g, ",") + lo
  {
    RemoveCharConcat(g + ",", lo, ',');
    RemoveCharConcat(g, ",", ',');
    assert RemoveAll(",", ",") == [];
    RemoveAllAbsent(lo, ",");
  }

  /** A review count displayed with thousands separators ("1,234") reads back as the count. */
  lemma CountOfGrouped(n: nat)
    ensures CountOf(Grouped(FormatInt(n))) == Some(n)
  {
    RemoveCommasGrouped(FormatInt(n));
    ParseFormat(n);
  }

  /** `needle in hay`, Python's substring test. */
  predicate Contains(hay: string, needle: string)
  {
    exists i | 0 <= i <= |hay| - |needle| :: OccursAt(hay, needle, i)
  }

  predicate OccursAt(hay: string, needle: string, i: int)
  {
    0 <= i <= |hay| - |needle| && hay[i..i + |needle|] == needle
  }
}
