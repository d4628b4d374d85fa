/** The java.lang.String and number-parsing operations the file parser
    relies on: contains, lastIndexOf, substring, replaceAll with a literal
    pattern, Integer.parseInt and Float.parseFloat (decimal notation only). */
module Text {
  import opened Wrappers

  /** Whether p occurs in s at position i. */
  predicate OccursAt(s: string, p: string, i: int)
  {
    0 <= i && i + |p| <= |s| && s[i..i + |p|] == p
  }

  predicate IsPrefix(p: string, s: string)
  {
    |p| <= |s| && s[..|p|] == p
  }

  /** String.contains, scanning from the left. */
  predicate Contains(s: string, p: string)
    decreases |s|
  {
    IsPrefix(p, s) || (|s| > 0 && Contains(s[1..], p))
  }

  /** An occurrence anywhere makes Contains hold. */
  lemma {:induction false} OccursContains(s: string, p: string, i: int)
    requires OccursAt(s, p, i)
    ensures Contains(s, p)
    decreases i
  {
    if i == 0 {
      assert s[..|p|] == s[0..|p|];
    } else {
      assert s[1..][i - 1..i - 1 + |p|] == s[i..i + |p|];
      OccursContains(s[1..], p, i - 1);
    }
  }

  /** Contains means an occurrence somewhere, in both directions. */
  lemma {:induction false} ContainsIff(s: string, p: string)
    ensures Contains(s, p) <==> exists i :: OccursAt(s, p, i)
    decreases |s|
  {
    if IsPrefix(p, s) {
      assert OccursAt(s, p, 0);
    } else if |s| > 0 && Contains(s[1..], p) {
      ContainsIff(s[1..], p);
      var i :| OccursAt(s[1..], p, i);
      assert s[1..][i..i + |p|] == s[i + 1..i + 1 + |p|];
      assert OccursAt(s, p, i + 1);
    }
    forall i | OccursAt(s, p, i)
      ensures Contains(s, p)
    {
      OccursContains(s, p, i);
    }
  }

  /** Only a non-empty string contains a non-empty pattern. */
  lemma ContainsNonEmpty(s: string, p: string)
    requires Contains(s, p) && |p| > 0
    ensures |s| > 0
  {
  }

  /** A pattern found in s has each of its characters in s. */
  lemma ContainsHasChars(s: string, p: string, j: int)
    requires 0 <= j < |p|
    ensures Contains(s, p) ==> p[j] in s
  {
    if Contains(s, p) {
      ContainsIff(s, p);
      var i :| OccursAt(s, p, i);
      assert s[i..i + |p|][j] == s[i + j];
    }
  }

  /** String.lastIndexOf: the last position of p in s, or -1. */
  function LastIndexOf(s: string, p: string): (r: int)
    ensures r == -1 || OccursAt(s, p, r)
    decreases |s|
  {
    if |p| > |s| then -1
    else if s[|s| - |p|..] == p then |s| - |p|
    else if |s| == 0 then -1
    else LastIndexOf(s[..|s| - 1], p)
  }

  /** Every occurrence lies at or before the one lastIndexOf reports. */
  lemma {:induction false} LastIndexOfBound(s: string, p: string, j: int)
    requires OccursAt(s, p, j)
    ensures j <= LastIndexOf(s, p)
    decreases |s|
  {
    if s[|s| - |p|..] != p && |s| > 0 {
      var t := s[..|s| - 1];
      assert j != |s| - |p|;
      assert t[j..j + |p|] == s[j..j + |p|];
      LastIndexOfBound(t, p, j);
    }
  }

  /** lastIndexOf finds the last occurrence, and -1 exactly when there is none. */
  lemma LastIndexOfIsLast(s: string, p: string)
    ensures forall j :: LastIndexOf(s, p) < j ==> !OccursAt(s, p, j)
    ensures LastIndexOf(s, p) == -1 <==> !Contains(s, p)
  {
    ContainsIff(s, p);
    forall j | OccursAt(s, p, j)
      ensures j <= LastIndexOf(s, p)
    {
      LastIndexOfBound(s, p, j);
    }
  }

  /** line.substring(line.lastIndexOf(": ") + 2): the text after the last
      ": ", or everything but the first character when the line has none. */
  function Suffix(line: string): (v: string)
    requires |line| > 0
    ensures |v| < |line|
  {
    var i := LastIndexOf(line, ": ");
    line[i + 2..]
  }

  /** With its last ": " at k, a line's value is what follows it. */
  lemma SuffixAt(line: string, k: nat)
    requires OccursAt(line, ": ", k) && forall j :: k < j ==> !OccursAt(line, ": ", j)
    ensures Suffix(line) == line[k + 2..]
  {
    LastIndexOfBound(line, ": ", k);
  }

  /** No ": " starts inside ": " + v, past its first character, when v
      holds none. */
  lemma NoSeparatorAfter(line: string, k: nat, v: string)
    requires |line| == k + 2 + |v| && line[k..k + 2] == ": " && line[k + 2..] == v && !Contains(v, ": ")
    ensures forall j :: k < j ==> !OccursAt(line, ": ", j)
  {
    ContainsIff(v, ": ");
    forall j | k < j && j + 2 <= |line|
      ensures !OccursAt(line, ": ", j)
    {
      if j == k + 1 {
        assert line[j] == line[k..k + 2][1];
        assert line[j..j + 2][0] == line[j];
      } else {
        assert line[j..j + 2] == v[j - k - 2..j - k];
        assert !OccursAt(v, ": ", j - k - 2);
      }
    }
  }

  lemma LabelSplit(key: string, v: string)
    ensures var line := key + ": " + v;
      |line| == |key| + 2 + |v| && line[|key|..|key| + 2] == ": " && line[|key| + 2..] == v
  {
    var line := key + ": " + v;
    assert line[|key|..|key| + 2] == ": ";
    assert line[|key| + 2..] == v;
  }

  /** A labelled line gives back its value, provided the value holds no ": ". */
  lemma SuffixOfLabelled(key: string, v: string)
    requires !Contains(v, ": ")
    ensures Suffix(key + ": " + v) == v
  {
    LabelSplit(key, v);
    NoSeparatorAfter(key + ": " + v, |key|, v);
    SuffixAt(key + ": " + v, |key|);
  }

  /** Without any ": " the first character is dropped. */
  lemma SuffixWithoutSeparator(line: string)
    requires |line| > 0 && !Contains(line, ": ")
    ensures Suffix(line) == line[1..]
  {
    LastIndexOfIsLast(line, ": ");
  }

  /** s.replaceAll(pat, "") for a pattern without regular-expression
      metacharacters: occurrences are removed left to right without overlap. */
  function RemoveAll(s: string, pat: string): (r: string)
    requires |pat| > 0
    ensures |r| <= |s|
    decreases |s|
  {
    if |s| == 0 then ""
    else if IsPrefix(pat, s) then RemoveAll(s[|pat|..], pat)
    else [s[0]] + RemoveAll(s[1..], pat)
  }

  /** A string without the pattern comes back unchanged. */
  lemma {:induction false} RemoveAllAbsent(s: string, pat: string)
    requires |pat| > 0 && !Contains(s, pat)
    ensures RemoveAll(s, pat) == s
    decreases |s|
  {
    if |s| > 0 {
      RemoveAllAbsent(s[1..], pat);
    }
  }

  /** Removing a trailing pattern from text that never starts it. */
  lemma {:induction false} RemoveAllTrailing(s: string, pat: string)
    requires |pat| > 0 && pat[0] !in s
    ensures RemoveAll(s + pat, pat) == s
    decreases |s|
  {
    if |s| == 0 {
      assert IsPrefix(pat, s + pat);
      assert (s + pat)[|pat|..] == "";
    } else {
      assert !IsPrefix(pat, s + pat) by {
        assert (s + pat)[0] == s[0];
      }
      assert (s + pat)[1..] == s[1..] + pat;
      RemoveAllTrailing(s[1..], pat);
    }
  }

  /** Removing a leading pattern from text that does not contain it. */
  lemma RemoveAllLeading(s: string, pat: string)
    requires |pat| > 0 && !Contains(s, pat)
    ensures RemoveAll(pat + s, pat) == s
  {
    assert IsPrefix(pat, pat + s);
    assert (pat + s)[|pat|..] == s;
    RemoveAllAbsent(s, pat);
  }

  predicate IsDigit(c: char)
  {
    '0' <= c <= '9'
  }

  predicate AllDigits(s: string)
  {
    forall i :: 0 <= i < |s| ==> IsDigit(s[i])
  }

  /** The number a string of decimal digits denotes, most significant first. */
  function DigitsValue(s: string): (n: nat)
    requires AllDigits(s)
    decreases |s|
  {
    if |s| == 0 then 0
    else DigitsValue(s[..|s| - 1]) * 10 + (s[|s| - 1] - '0') as int
  }

  function Pow10(k: nat): (r: nat)
    ensures r > 0
  {
    if k == 0 then 1 else 10 * Pow10(k - 1)
  }

  /** A number of k digits is below 10^k. */
  lemma {:induction false} DigitsValueBelow(s: string)
    requires AllDigits(s)
    ensures DigitsValue(s) < Pow10(|s|)
    decreases |s|
  {
    if |s| > 0 {
      DigitsValueBelow(s[..|s| - 1]);
    }
  }

  /** Decimal rendering of a natural number, without leading zeros. */
  function ShowNat(n: nat): (s: string)
    ensures |s| > 0 && AllDigits(s)
  {
    if n < 10 then [('0' as int + n) as char]
    else ShowNat(n / 10) + [('0' as int + n % 10) as char]
  }

  function ShowInt(n: int): (s: string)
  {
    if n < 0 then "-" + ShowNat(-n) else ShowNat(n)
  }

  /** Reading a rendered number gives the number back. */
  lemma {:induction false} ShowNatValue(n: nat)
    ensures DigitsValue(ShowNat(n)) == n
  {
    var s := ShowNat(n);
    if n >= 10 {
      ShowNatValue(n / 10);
      assert s[..|s| - 1] == ShowNat(n / 10);
    }
  }

  const IntMin: int := -0x8000_0000
  const IntMax: int := 0x7FFF_FFFF

  /** Integer.parseInt in base 10: an optional sign and at least one ASCII
      digit, within the 32-bit range; anything else throws (None). */
  function ParseInt(s: string): (r: Option<int>)
    ensures r.Some? ==> IntMin <= r.value <= IntMax
  {
    if |s| == 0 then None
    else if s[0] == '-' || s[0] == '+' then
      var body := s[1..];
      if |body| == 0 || !AllDigits(body) then None
      else
        var n: int := if s[0] == '-' then 0 - DigitsValue(body) else DigitsValue(body);
        if IntMin <= n <= IntMax then Some(n) else None
    else if !AllDigits(s) then None
    else if DigitsValue(s) <= IntMax then Some(DigitsValue(s)) else None
  }

  lemma SignDropped(b: string)
    ensures |"-" + b| == |b| + 1 && ("-" + b)[0] == '-' && ("-" + b)[1..] == b
  {
  }

  /** A minus sign and digits are read as the negated number, in range. */
  lemma ParseIntNegative(s: string)
    requires |s| > 1 && s[0] == '-' && AllDigits(s[1..]) && DigitsValue(s[1..]) <= -IntMin
    ensures ParseInt(s) == Some(0 - DigitsValue(s[1..]))
  {
  }

  /** Digits alone are read as their number, in range. */
  lemma ParseIntDigits(s: string)
    requires |s| > 0 && AllDigits(s) && DigitsValue(s) <= IntMax
    ensures ParseInt(s) == Some(DigitsValue(s))
  {
    assert IsDigit(s[0]);
  }

  /** Integer.parseInt reads back every 32-bit number as rendered. */
  lemma ParseIntShow(n: int)
    requires IntMin <= n <= IntMax
    ensures ParseInt(ShowInt(n)) == Some(n)
  {
    if n < 0 {
      ShowNatValue(-n);
      SignDropped(ShowNat(-n));
      ParseIntNegative(ShowInt(n));
    } else {
      ShowNatValue(n);
      ParseIntDigits(ShowNat(n));
    }
  }

  /** Text that holds a non-digit somewhere is refused. */
  lemma ParseIntRefuses(s: string, i: int)
    requires 0 < i < |s| && !IsDigit(s[i])
    ensures ParseInt(s) == None
  {
    assert !AllDigits(s);
    assert !AllDigits(s[1..]) by {
      assert s[1..][i - 1] == s[i];
    }
  }

  /** String.trim: drop characters up to ' ' at both ends. */
  function TrimStart(s: string): (r: string)
    ensures |r| <= |s|
  {
    if |s| > 0 && s[0] <= ' ' then TrimStart(s[1..]) else s
  }

  function TrimEnd(s: string): (r: string)
    ensures |r| <= |s|
  {
    if |s| > 0 && s[|s| - 1] <= ' ' then TrimEnd(s[..|s| - 1]) else s
  }

  function Trim(s: string): string
  {
    TrimEnd(TrimStart(s))
  }

  /** The position of the first '.', or |s| when there is none. */
  function DotIndex(s: string): (k: nat)
    ensures k <= |s| && (k < |s| ==> s[k] == '.')
    ensures forall j :: 0 <= j < k ==> s[j] != '.'
  {
    if |s| == 0 then 0
    else if s[0] == '.' then 0
    else 1 + DotIndex(s[1..])
  }

  /** The value of the digits after a decimal point. */
  function Fraction(ds: string): (x: real)
    requires AllDigits(ds)
    ensures 0.0 <= x < 1.0
    decreases |ds|
  {
    if |ds| == 0 then 0.0
    else ((ds[0] - '0') as int as real + Fraction(ds[1..])) / 10.0
  }

  /** Unsigned decimal notation: digits, optionally a point and more digits,
      and at least one digit in all. */
  function ParseDecimal(t: string): (r: Option<real>)
    ensures r.Some? ==> r.value >= 0.0
  {
    var k := DotIndex(t);
    if k == |t| then
      if |t| > 0 && AllDigits(t) then Some(DigitsValue(t) as real) else None
    else
      var whole := t[..k];
      var frac := t[k + 1..];
      if AllDigits(whole) && AllDigits(frac) && |whole| + |frac| > 0 then
        Some(DigitsValue(whole) as real + Fraction(frac))
      else None
  }

  /** Float.parseFloat restricted to decimal notation: leading and trailing
      blanks are trimmed, an optional sign, then ParseDecimal. */
  function ParseFloat(s: string): (r: Option<real>)
  {
    var t := Trim(s);
    if |t| > 0 && (t[0] == '-' || t[0] == '+') then
      match ParseDecimal(t[1..])
      case None => None
      case Some(x) => Some(if t[0] == '-' then -x else x)
    else ParseDecimal(t)
  }

  /** Trimming leaves text without blanks at its ends alone. */
  lemma TrimPlain(s: string)
    requires |s| > 0 && s[0] > ' ' && s[|s| - 1] > ' '
    ensures Trim(s) == s
  {
  }

  /** Digits alone are a whole number. */
  lemma ParseDecimalWhole(d: string)
    requires AllDigits(d) && |d| > 0
    ensures ParseDecimal(d) == Some(DigitsValue(d) as real)
  {
    DotAbsent(d);
  }

  /** Text whose first '.' follows the digits d and precedes the digits
      ds, with at least one digit in all. */
  lemma ParseDecimalSplit(s: string, d: string, ds: string)
    requires |s| == |d| + 1 + |ds| && s[..|d|] == d && s[|d| + 1..] == ds && DotIndex(s) == |d|
    requires AllDigits(d) && AllDigits(ds) && |d| + |ds| > 0
    ensures ParseDecimal(s) == Some(DigitsValue(d) as real + Fraction(ds))
  {
  }

  lemma PointSplit(d: string, ds: string)
    ensures var s := d + "." + ds;
      |s| == |d| + 1 + |ds| && s[..|d|] == d && s[|d|] == '.' && s[|d| + 1..] == ds
  {
    var s := d + "." + ds;
    assert s[..|d|] == d;
    assert s[|d| + 1..] == ds;
  }

  /** Digits, a point and digits are a whole part plus a fraction. */
  lemma ParseDecimalPoint(d: string, ds: string)
    requires AllDigits(d) && AllDigits(ds) && |d| + |ds| > 0
    ensures ParseDecimal(d + "." + ds) == Some(DigitsValue(d) as real + Fraction(ds))
  {
    DotAfter(d, ds);
    PointSplit(d, ds);
    ParseDecimalSplit(d + "." + ds, d, ds);
  }

  /** Without blanks or a sign, Float.parseFloat is ParseDecimal. */
  lemma ParseFloatUnsigned(t: string)
    requires |t| > 0 && t[0] != '-' && t[0] != '+'
    requires t[0] > ' ' && t[|t| - 1] > ' '
    ensures ParseFloat(t) == ParseDecimal(t)
  {
    TrimPlain(t);
  }

  /** Float.parseFloat reads a rendered whole number back. */
  lemma ParseFloatShowInt(n: int)
    ensures ParseFloat(ShowInt(n)) == Some(n as real)
  {
    var m: nat := if n < 0 then -n else n;
    var d := ShowNat(m);
    ShowNatValue(m);
    ParseDecimalWhole(d);
    if n < 0 {
      SignDropped(d);
      ParseFloatNegative(ShowInt(n));
    } else {
      ParseFloatUnsigned(d);
    }
  }

  /** A minus sign and digits: the negated decimal. */
  lemma ParseFloatNegative(s: string)
    requires |s| > 1 && s[0] == '-' && AllDigits(s[1..]) && ParseDecimal(s[1..]).Some?
    ensures ParseFloat(s) == Some(-ParseDecimal(s[1..]).value)
  {
    assert s[|s| - 1] == s[1..][|s| - 2];
    TrimPlain(s);
  }

  /** Float.parseFloat reads "whole.digits" as the decimal it denotes. */
  lemma ParseFloatFraction(w: nat, ds: string)
    requires AllDigits(ds)
    ensures ParseFloat(ShowNat(w) + "." + ds) == Some(w as real + Fraction(ds))
  {
    var d := ShowNat(w);
    ShowNatValue(w);
    ParseDecimalPoint(d, ds);
    PointSplit(d, ds);
    ParseFloatPlain(d + "." + ds, d, ds);
  }

  /** Digits, a point and digits need no trimming and carry no sign. */
  lemma ParseFloatPlain(s: string, d: string, ds: string)
    requires |s| == |d| + 1 + |ds| && s[..|d|] == d && s[|d|] == '.' && s[|d| + 1..] == ds
    requires |d| > 0 && AllDigits(d) && AllDigits(ds)
    ensures ParseFloat(s) == ParseDecimal(s)
  {
    assert s[0] == d[0];
    if |ds| > 0 {
      assert s[|s| - 1] == ds[|ds| - 1];
    }
    ParseFloatUnsigned(s);
  }

  lemma {:induction false} DotAbsent(d: string)
    requires AllDigits(d)
    ensures DotIndex(d) == |d|
    decreases |d|
  {
    if |d| > 0 {
      DotAbsent(d[1..]);
    }
  }

  lemma {:induction false} DotAfter(d: string, ds: string)
    requires AllDigits(d)
    ensures DotIndex(d + "." + ds) == |d|
    decreases |d|
  {
    if |d| > 0 {
      assert (d + "." + ds)[1..] == d[1..] + "." + ds;
      DotAfter(d[1..], ds);
    }
  }
}
