/**
 * Text as Qt and the wide-character Win32 API hold it: a sequence of
 * UTF-16 code units. QString's operator< and operator!= compare the code
 * units ordinally, and a proper prefix sorts first.
 */
module Strings {

  /** One UTF-16 code unit (a QChar, a WCHAR). */
  newtype CodeUnit = x: int | 0 <= x < 0x1_0000

  type Text = seq<CodeUnit>

  /** The UTF-16 encoding of one Unicode scalar value. */
  function CharUnits(c: char): (u: Text)
    ensures 1 <= |u| <= 2
    ensures |u| == 1 <==> c as int < 0x1_0000
    ensures |u| == 1 ==> u[0] as int == c as int
    ensures |u| == 2 ==> 0xD800 <= u[0] as int < 0xDC00 <= u[1] as int < 0xE000
  {
    var v := c as int;
    if v < 0x1_0000 then [v as CodeUnit]
    else [(0xD800 + (v - 0x1_0000) / 0x400) as CodeUnit, (0xDC00 + (v - 0x1_0000) % 0x400) as CodeUnit]
  }

  /** The UTF-16 encoding of a string literal, as QString stores it. */
  function Utf16(s: string): (t: Text)
    ensures |s| <= |t| <= 2 * |s|
  {
    if |s| == 0 then [] else CharUnits(s[0]) + Utf16(s[1..])
  }

  /** Text made only of Basic Multilingual Plane characters is one code unit per character. */
  lemma {:induction false} Utf16Bmp(s: string)
    requires forall i :: 0 <= i < |s| ==> s[i] as int < 0x1_0000
    ensures |Utf16(s)| == |s|
    ensures forall i :: 0 <= i < |s| ==> Utf16(s)[i] as int == s[i] as int
  {
    if |s| > 0 {
      Utf16Bmp(s[1..]);
      assert Utf16(s) == [s[0] as int as CodeUnit] + Utf16(s[1..]);
    }
  }

  predicate Less(a: Text, b: Text)
    decreases |a|
  {
    if |a| == 0 then |b| > 0
    else if |b| == 0 then false
    else if a[0] != b[0] then a[0] < b[0]
    else Less(a[1..], b[1..])
  }

  lemma {:induction false} LessIrreflexive(a: Text)
    ensures !Less(a, a)
    decreases |a|
  {
    if |a| > 0 {
      LessIrreflexive(a[1..]);
    }
  }

  lemma {:induction false} LessTransitive(a: Text, b: Text, c: Text)
    requires Less(a, b) && Less(b, c)
    ensures Less(a, c)
    decreases |a|
  {
    if |a| > 0 && a[0] == b[0] && b[0] == c[0] {
      LessTransitive(a[1..], b[1..], c[1..]);
    }
  }

  /** Any two texts are equal or ordered one way, and never both ways. */
  lemma {:induction false} LessTrichotomy(a: Text, b: Text)
    ensures a == b || Less(a, b) || Less(b, a)
    ensures !(Less(a, b) && Less(b, a))
    decreases |a|
  {
    if |a| > 0 && |b| > 0 && a[0] == b[0] {
      LessTrichotomy(a[1..], b[1..]);
      if a[1..] == b[1..] {
        assert a == [a[0]] + a[1..] && b == [b[0]] + b[1..];
      }
    }
  }

  /** A proper prefix sorts before the longer text. */
  lemma {:induction false} PrefixIsLess(a: Text, b: Text)
    requires |a| < |b| && a == b[..|a|]
    ensures Less(a, b)
    decreases |a|
  {
    if |a| > 0 {
      assert a[1..] == b[1..][..|a| - 1];
      PrefixIsLess(a[1..], b[1..]);
    }
  }

  /**
   * The order is by code unit, not by character: U+1F600 is stored as the
   * surrogate pair D83D DE00 and so sorts before U+FF01, although its
   * scalar value is the larger.
   */
  lemma SurrogatePairSortsBeforeHighBmp()
    ensures '\U{1F600}' as int > '\U{FF01}' as int
    ensures Less(Utf16("\U{1F600}"), Utf16("\U{FF01}"))
  {
    assert Utf16("\U{1F600}") == [0xD83D, 0xDE00];
    assert Utf16("\U{FF01}") == [0xFF01];
  }
}
