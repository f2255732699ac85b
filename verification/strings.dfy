/** String helpers: substring search, joining, decimal numerals and the
    character classes the source's regular expressions use. */
module Strings {

  /** `needle` occurs in `s` starting at offset `i`. */
  predicate OccursAt(s: string, needle: string, i: int)
  {
    0 <= i && i + |needle| <= |s| && s[i..i + |needle|] == needle
  }

  /** JavaScript's `s.includes(needle)` and Python's `needle in s`. */
  predicate Contains(s: string, needle: string)
  {
    exists i :: 0 <= i <= |s| - |needle| && OccursAt(s, needle, i)
  }

  /** `Array.prototype.join(sep)` over strings. */
  function Join(parts: seq<string>, sep: string): (r: string)
    ensures |parts| == 0 ==> r == ""
    ensures |parts| == 1 ==> r == parts[0]
  {
    if |parts| == 0 then ""
    else if |parts| == 1 then parts[0]
    else Join(parts[..|parts| - 1], sep) + sep + parts[|parts| - 1]
  }

  /** Joining one more part appends the separator and that part. */
  lemma JoinSnoc(parts: seq<string>, sep: string, last: string)
    requires |parts| > 0
    ensures Join(parts + [last], sep) == Join(parts, sep) + sep + last
  {
    assert (parts + [last])[..|parts|] == parts;
  }

  /** A string placed between two others occurs in the result at the end of the first. */
  lemma ContainsMiddle(a: string, x: string, b: string)
    ensures OccursAt(a + x + b, x, |a|)
    ensures Contains(a + x + b, x)
  {
    assert (a + x + b)[|a|..|a| + |x|] == x;
    assert OccursAt(a + x + b, x, |a|);
  }

  /** Containment survives putting text on either side. */
  lemma ContainsWithin(a: string, x: string, b: string, y: string)
    requires Contains(x, y)
    ensures Contains(a + x + b, y)
  {
    var i :| 0 <= i <= |x| - |y| && OccursAt(x, y, i);
    assert (a + x + b)[|a| + i..|a| + i + |y|] == x[i..i + |y|];
    assert OccursAt(a + x + b, y, |a| + i);
  }

  /** A string occurs in any string it ends. */
  lemma ContainsSuffix(a: string, x: string)
    ensures Contains(a + x, x)
  {
    ContainsMiddle(a, x, "");
    assert a + x + "" == a + x;
  }

  /** A string occurs in any string it begins. */
  lemma ContainsPrefix(x: string, b: string)
    ensures Contains(x + b, x)
  {
    ContainsMiddle("", x, b);
    assert "" + x + b == x + b;
  }

  /** Containment survives appending text. */
  lemma ContainsExtendRight(s: string, b: string, y: string)
    requires Contains(s, y)
    ensures Contains(s + b, y)
  {
    ContainsWithin("", s, b, y);
    assert "" + s + b == s + b;
  }

  /** Containment survives prepending text. */
  lemma ContainsExtendLeft(a: string, s: string, y: string)
    requires Contains(s, y)
    ensures Contains(a + s, y)
  {
    ContainsWithin(a, s, "", y);
    assert a + s + "" == a + s;
  }

  /** Every part of a join occurs in the joined string. */
  lemma {:induction false} JoinContains(parts: seq<string>, sep: string, k: nat)
    requires k < |parts|
    ensures Contains(Join(parts, sep), parts[k])
    decreases |parts|
  {
    if |parts| == 1 {
      ContainsMiddle("", parts[0], "");
      assert "" + parts[0] + "" == parts[0];
    } else {
      var init := parts[..|parts| - 1];
      if k == |parts| - 1 {
        ContainsMiddle(Join(init, sep) + sep, parts[k], "");
        assert Join(init, sep) + sep + parts[k] + "" == Join(parts, sep);
      } else {
        JoinContains(init, sep, k);
        assert init[k] == parts[k];
        ContainsWithin("", Join(init, sep), sep + parts[|parts| - 1], parts[k]);
        assert "" + Join(init, sep) + (sep + parts[|parts| - 1]) == Join(parts, sep);
      }
    }
  }

  predicate IsDigit(c: char)
  {
    '0' <= c <= '9'
  }

  function DigitValue(c: char): (d: nat)
    requires IsDigit(c)
    ensures d < 10
  {
    (c as int) - ('0' as int)
  }

  function DigitChar(d: nat): (c: char)
    requires d < 10
    ensures IsDigit(c) && DigitValue(c) == d
  {
    (('0' as int) + d) as char
  }

  /** The decimal numeral of a natural number, as JavaScript's `String(n)`
      and Python's `str(n)` print it: no sign and no leading zero. */
  function NatToString(n: nat): (r: string)
    ensures |r| > 0
    ensures forall k :: 0 <= k < |r| ==> IsDigit(r[k])
    ensures r[0] == '0' ==> n == 0
    decreases n
  {
    if n < 10 then [DigitChar(n)]
    else NatToString(n / 10) + [DigitChar(n % 10)]
  }

  /** The value of a non-empty run of decimal digits. */
  function DecimalValue(s: string): nat
    requires forall k :: 0 <= k < |s| ==> IsDigit(s[k])
  {
    if |s| == 0 then 0
    else 10 * DecimalValue(s[..|s| - 1]) + DigitValue(s[|s| - 1])
  }

  /** Reading a numeral back yields the number that was printed. */
  lemma {:induction false} DecimalValueOfNatToString(n: nat)
    ensures DecimalValue(NatToString(n)) == n
    decreases n
  {
    if n >= 10 {
      var s := NatToString(n);
      assert s[..|s| - 1] == NatToString(n / 10);
      DecimalValueOfNatToString(n / 10);
    }
  }

  /** The integer numeral, with a leading '-' for negative values. */
  function IntToString(i: int): (r: string)
    ensures |r| > 0
    ensures i < 0 <==> r[0] == '-'
  {
    if i < 0 then "-" + NatToString(-i) else NatToString(i)
  }

  /** The characters JavaScript's regular-expression class `\s` matches:
      the WhiteSpace and LineTerminator code points of ECMAScript. */
  predicate IsJsWhitespace(c: char)
  {
    || c == '\t' || c == '\n' || c == '\U{000B}' || c == '\U{000C}' || c == '\r'
    || c == ' ' || c == '\U{00A0}' || c == '\U{1680}'
    || ('\U{2000}' <= c <= '\U{200A}')
    || c == '\U{2028}' || c == '\U{2029}' || c == '\U{202F}' || c == '\U{205F}'
    || c == '\U{3000}' || c == '\U{FEFF}'
  }
}
