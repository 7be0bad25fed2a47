/** The few string operations of Python's `str` that the pipeline relies on. */
module Strings {
  import opened Wrappers
  import opened Seqs

  /** `c.lower()` restricted to ASCII letters. */
  function LowerChar(c: char): char
  {
    if 'A' <= c <= 'Z' then (c as int + 32) as char else c
  }

  /** `s.lower()` on ASCII text. */
  function Lower(s: string): string
  {
    seq(|s|, i requires 0 <= i < |s| => LowerChar(s[i]))
  }

  /** `s.startswith(p)` */
  predicate StartsWith(s: string, p: string)
  {
    |p| <= |s| && s[..|p|] == p
  }

  /** `s.endswith(p)` */
  predicate EndsWith(s: string, p: string)
  {
    |p| <= |s| && s[|s| - |p|..] == p
  }

  /** `sub in s` */
  predicate Contains(s: string, sub: string)
    decreases |s|
  {
    StartsWith(s, sub) || (|s| > 0 && Contains(s[1..], sub))
  }

  /** `s.split(sep)` for a one-character separator: never empty, "" splits to [""]. */
  function Split(s: string, sep: char): (parts: seq<string>)
    ensures |parts| >= 1
    decreases |s|
  {
    if |s| == 0 then [""]
    else if s[0] == sep then [""] + Split(s[1..], sep)
    else
      var rest := Split(s[1..], sep);
      [[s[0]] + rest[0]] + rest[1..]
  }

  /** `sep.join(parts)` */
  function Join(parts: seq<string>, sep: char): string
    decreases |parts|
  {
    if |parts| == 0 then ""
    else if |parts| == 1 then parts[0]
    else parts[0] + [sep] + Join(parts[1..], sep)
  }

  /** `s.split(sep, 1)[0]`: the text before the first separator, or all of `s`. */
  function FirstField(s: string, sep: char): string
  {
    Split(s, sep)[0]
  }

  /** `Path(p).name`: the last `/`-separated component of a path. */
  function BaseName(p: string): string
  {
    var parts := Split(p, '/');
    parts[|parts| - 1]
  }

  /** Joining the pieces of a split gives back the original text. */
  lemma {:induction false} JoinSplit(s: string, sep: char)
    ensures Join(Split(s, sep), sep) == s
    decreases |s|
  {
    if |s| == 0 {
    } else if s[0] == sep {
      JoinSplit(s[1..], sep);
      var rest := Split(s[1..], sep);
      assert Join([""] + rest, sep) == "" + [sep] + Join(rest, sep);
      assert s == [sep] + s[1..];
    } else {
      JoinSplit(s[1..], sep);
      JoinPrependChar(s[0], Split(s[1..], sep), sep);
      assert s == [s[0]] + s[1..];
    }
  }

  /** Putting a character in front of the first piece puts it in front of the joined text. */
  lemma JoinPrependChar(c: char, rest: seq<string>, sep: char)
    requires |rest| >= 1
    ensures Join([[c] + rest[0]] + rest[1..], sep) == [c] + Join(rest, sep)
  {
    var parts := [[c] + rest[0]] + rest[1..];
    assert parts[1..] == rest[1..];
    if |rest| > 1 {
      assert Join(rest, sep) == rest[0] + [sep] + Join(rest[1..], sep);
      assert Join(parts, sep) == [c] + rest[0] + [sep] + Join(rest[1..], sep);
    }
  }

  /** Text without the separator splits into one piece. */
  lemma {:induction false} SplitNoSeparator(s: string, sep: char)
    requires sep !in s
    ensures Split(s, sep) == [s]
    decreases |s|
  {
    if |s| > 0 {
      assert sep !in s[1..] by { assert forall k :: 0 <= k < |s[1..]| ==> s[1..][k] == s[k + 1]; }
      SplitNoSeparator(s[1..], sep);
      assert s == [s[0]] + s[1..];
    }
  }

  /** Splitting `a + sep + b` splits `a` and `b` separately. */
  lemma {:induction false} SplitAround(a: string, sep: char, b: string)
    ensures Split(a + [sep] + b, sep) == Split(a, sep) + Split(b, sep)
    decreases |a|
  {
    if |a| == 0 {
      assert a + [sep] + b == [sep] + b;
      assert ([sep] + b)[1..] == b;
    } else {
      var t := a + [sep] + b;
      assert t[0] == a[0];
      assert t[1..] == a[1..] + [sep] + b;
      SplitAround(a[1..], sep, b);
      if a[0] == sep {
      } else {
        var rest := Split(a[1..], sep);
        assert Split(a[1..] + [sep] + b, sep) == rest + Split(b, sep);
        assert (rest + Split(b, sep))[0] == rest[0];
        assert (rest + Split(b, sep))[1..] == rest[1..] + Split(b, sep);
      }
    }
  }

  /** The last component of `dir/name` is `name` when `name` has no slash. */
  lemma BaseNameOfJoin(dir: string, name: string)
    requires '/' !in name
    ensures BaseName(dir + "/" + name) == name
  {
    SplitAround(dir, '/', name);
    SplitNoSeparator(name, '/');
  }

  /** Python's `<=` on `str`: lexicographic by code point. */
  predicate LexLe(a: string, b: string)
    decreases |a|
  {
    |a| == 0 || (|b| > 0 && (a[0] < b[0] || (a[0] == b[0] && LexLe(a[1..], b[1..]))))
  }

  lemma {:induction false} LexLeReflexive(a: string)
    ensures LexLe(a, a)
    decreases |a|
  {
    if |a| > 0 {
      LexLeReflexive(a[1..]);
    }
  }

  lemma {:induction false} LexLeTotal(a: string, b: string)
    ensures LexLe(a, b) || LexLe(b, a)
    decreases |a|
  {
    if |a| > 0 && |b| > 0 && a[0] == b[0] {
      LexLeTotal(a[1..], b[1..]);
    }
  }

  lemma {:induction false} LexLeTransitive(a: string, b: string, c: string)
    requires LexLe(a, b) && LexLe(b, c)
    ensures LexLe(a, c)
    decreases |a|
  {
    if |a| > 0 && a[0] == b[0] && b[0] == c[0] {
      LexLeTransitive(a[1..], b[1..], c[1..]);
    }
  }

  lemma {:induction false} LexLeAntisymmetric(a: string, b: string)
    requires LexLe(a, b) && LexLe(b, a)
    ensures a == b
    decreases |a|
  {
    if |a| > 0 {
      LexLeAntisymmetric(a[1..], b[1..]);
      assert a == [a[0]] + a[1..] && b == [b[0]] + b[1..];
    }
  }

  function DigitChar(d: nat): char
    requires d < 10
  {
    ('0' as int + d) as char
  }

  /** `f"{n}"` for a natural number. */
  function NatToString(n: nat): string
    decreases n
  {
    if n < 10 then [DigitChar(n)] else NatToString(n / 10) + [DigitChar(n % 10)]
  }

  predicate IsDigit(c: char)
  {
    '0' <= c <= '9'
  }

  predicate AllDigits(s: string)
  {
    forall i :: 0 <= i < |s| ==> IsDigit(s[i])
  }

  /** The value of a string of decimal digits (zero for the empty string). */
  function DigitsValue(s: string): nat
    requires AllDigits(s)
    decreases |s|
  {
    if |s| == 0 then 0 else 10 * DigitsValue(s[..|s| - 1]) + (s[|s| - 1] as int - '0' as int)
  }

  function Pow10(n: nat): (r: nat)
    ensures r > 0
  {
    if n == 0 then 1 else 10 * Pow10(n - 1)
  }

  /** Unsigned decimal text: only digits and points, at most one point, at least one digit. */
  predicate UnsignedText(s: string)
  {
    && (forall i :: 0 <= i < |s| ==> IsDigit(s[i]) || s[i] == '.')
    && (forall i, j :: 0 <= i < j < |s| && s[i] == '.' ==> s[j] != '.')
    && exists i :: 0 <= i < |s| && IsDigit(s[i])
  }

  /** Decimal text: an optional leading sign, then unsigned decimal text. */
  predicate DecimalText(s: string)
  {
    if |s| > 0 && (s[0] == '-' || s[0] == '+') then UnsignedText(s[1..]) else UnsignedText(s)
  }

  /** The value of a whole part and fraction digits written either side of a point. */
  function PointValue(whole: string, frac: string): real
    requires AllDigits(whole) && AllDigits(frac)
  {
    DigitsValue(whole) as real + DigitsValue(frac) as real / Pow10(|frac|) as real
  }

  /** Unsigned decimal text: digits, then optionally a `.` and more digits, with at least one digit. */
  function ParseUnsigned(s: string): (r: Option<real>)
    ensures r.Some? <==> UnsignedText(s)
  {
    if '.' !in s then
      if |s| > 0 && AllDigits(s) then Some(DigitsValue(s) as real) else None
    else
      var k := IndexOf(s, '.');
      var whole, frac := s[..k], s[k + 1..];
      assert forall i :: 0 <= i < |s| && i != k ==> s[i] == (if i < k then whole[i] else frac[i - k - 1]);
      if AllDigits(whole) && AllDigits(frac) && |whole| + |frac| > 0 then
        assert |whole| > 0 ==> IsDigit(s[0]);
        assert |frac| > 0 ==> IsDigit(s[k + 1]);
        Some(PointValue(whole, frac))
      else None
  }

  /** Unsigned decimal text reads as a non-negative number. */
  lemma ParseUnsignedNonNegative(s: string)
    ensures ParseUnsigned(s).Some? ==> ParseUnsigned(s).value >= 0.0
  {
    if ParseUnsigned(s).Some? && '.' in s {
      var k := IndexOf(s, '.');
      PointValueNonNegative(s[..k], s[k + 1..]);
    }
  }

  lemma PointValueNonNegative(whole: string, frac: string)
    requires AllDigits(whole) && AllDigits(frac)
    ensures PointValue(whole, frac) >= 0.0
  {
  }

  /**
   * `float(text)` for plain decimal text: an optional sign, then unsigned decimal text. Text
   * holding anything but digits, one `.` and a leading sign is not a number.
   */
  function ParseReal(s: string): (r: Option<real>)
    ensures r.Some? <==> DecimalText(s)
    ensures r.Some? ==> exists i :: 0 <= i < |s| && IsDigit(s[i])
    ensures r.Some? ==> forall i :: 0 < i < |s| ==> IsDigit(s[i]) || s[i] == '.'
    ensures r.Some? && |s| > 0 && s[0] != '-' ==> r.value >= 0.0
  {
    if |s| > 0 && (s[0] == '-' || s[0] == '+') then
      match ParseUnsigned(s[1..])
      case None => None
      case Some(v) =>
        assert forall i :: 0 < i < |s| ==> s[i] == s[1..][i - 1];
        ParseUnsignedNonNegative(s[1..]);
        Some(if s[0] == '-' then -v else v)
    else
      ParseUnsignedNonNegative(s);
      ParseUnsigned(s)
  }

  /** The digits of a natural number. */
  lemma {:induction false} NatToStringDigits(n: nat)
    ensures |NatToString(n)| > 0 && AllDigits(NatToString(n)) && '.' !in NatToString(n)
    ensures DigitsValue(NatToString(n)) == n
    decreases n
  {
    if n >= 10 {
      NatToStringDigits(n / 10);
      var s := NatToString(n);
      assert s[..|s| - 1] == NatToString(n / 10);
    }
  }

  /** Printing a whole number and reading it back, with or without a minus sign, gives the number. */
  lemma ParseNatToString(n: nat)
    ensures ParseReal(NatToString(n)) == Some(n as real)
    ensures ParseReal("-" + NatToString(n)) == Some(-(n as real))
  {
    NatToStringDigits(n);
    var s := NatToString(n);
    assert ("-" + s)[1..] == s;
  }

  /** Digits, a point and digits read as the whole part plus the scaled fraction. */
  lemma ParseUnsignedPoint(whole: string, frac: string)
    requires AllDigits(whole) && AllDigits(frac) && |whole| > 0
    ensures ParseUnsigned(whole + "." + frac) == Some(PointValue(whole, frac))
  {
    var s := whole + "." + frac;
    var k := |whole|;
    assert s[k] == '.';
    assert forall j :: 0 <= j < k ==> s[j] == whole[j] && s[j] != '.';
    assert IndexOf(s, '.') == k by {
      IndexOfFirst(s, '.', k);
    }
    assert s[..k] == whole;
    assert s[k + 1..] == frac;
  }

  /** The point value with the whole part's value already known. */
  lemma PointValueOf(whole: string, frac: string, w: nat)
    requires AllDigits(whole) && AllDigits(frac) && DigitsValue(whole) == w
    ensures Some(PointValue(whole, frac)) == Some(w as real + DigitsValue(frac) as real / Pow10(|frac|) as real)
  {
  }

  /** Text starting with a digit has no sign to strip. */
  lemma ParseRealUnsigned(s: string)
    requires |s| > 0 && IsDigit(s[0])
    ensures ParseReal(s) == ParseUnsigned(s)
  {
  }

  /** Digits, a point and digits carry no sign, so `float` reads them as unsigned text. */
  lemma ParseRealPoint(whole: string, frac: string)
    requires AllDigits(whole) && AllDigits(frac) && |whole| > 0
    ensures ParseReal(whole + "." + frac) == ParseUnsigned(whole + "." + frac)
  {
    var s := whole + "." + frac;
    assert s[0] == whole[0];
    ParseRealUnsigned(s);
  }

  /** Digits, a point and digits, as unsigned text, read as the whole value plus the scaled fraction. */
  lemma ParseUnsignedPointValue(whole: string, frac: string, w: nat)
    requires AllDigits(whole) && AllDigits(frac) && |whole| > 0 && DigitsValue(whole) == w
    ensures ParseUnsigned(whole + "." + frac) == Some(w as real + DigitsValue(frac) as real / Pow10(|frac|) as real)
  {
    ParseUnsignedPoint(whole, frac);
    PointValueOf(whole, frac, w);
  }

  /** Whole digits, a point and fraction digits read as the whole part plus the scaled fraction. */
  lemma ParseDecimalPoint(whole: string, frac: string, w: nat)
    requires AllDigits(whole) && AllDigits(frac) && |whole| > 0 && DigitsValue(whole) == w
    ensures ParseReal(whole + "." + frac) == Some(w as real + DigitsValue(frac) as real / Pow10(|frac|) as real)
  {
    ParseRealPoint(whole, frac);
    ParseUnsignedPointValue(whole, frac, w);
  }

  /** Printing a whole part, a point and fraction digits, and reading it back, gives their value. */
  lemma ParseFraction(w: nat, f: string)
    requires AllDigits(f)
    ensures ParseReal(NatToString(w) + "." + f) == Some(w as real + DigitsValue(f) as real / Pow10(|f|) as real)
  {
    NatToStringDigits(w);
    ParseDecimalPoint(NatToString(w), f, w);
  }
}
