/**
 * How FlowLayout::totalWidthForHeight reacts to more height. For items of
 * one size (what window tiles provide, since every tile reports the same
 * size hint) more height never needs more width, as long as the effective
 * height is positive. For items of different sizes the claim fails, and
 * concrete inputs show it.
 */
module FlowMonotone {
  import opened Common
  import opened Geometry
  import opened FlowGeometry
  import opened FlowColumns

  predicate Uniform(sizes: seq<Size>, u: Size) {
    forall i :: 0 <= i < |sizes| ==> sizes[i] == u
  }

  /** A column over a prefix stops where the column over the whole stops, or at the prefix's end. */
  lemma {:induction false} ColumnLengthPrefix(sizes: seq<Size>, y: int, p: Params, m: nat)
    requires m <= |sizes|
    ensures ColumnLength(sizes[..m], y, p) == Min(m, ColumnLength(sizes, y, p))
    decreases m
  {
    if m > 0 && !ShouldWrapToNextColumn(y, sizes[0].height, p.eff) {
      ColumnLengthPrefix(sizes[1..], y + sizes[0].height + p.vs, p, m - 1);
      assert sizes[..m][1..] == sizes[1..][..m - 1];
    }
  }

  /** p2 describes the same layout pass as p1 over a taller effective rectangle. */
  predicate Taller(p1: Params, p2: Params) {
    && p1.eff.Top() == p2.eff.Top()
    && 0 < p1.eff.Height() <= p2.eff.Height()
    && p1.vs == p2.vs && p1.hs == p2.hs && p1.rtl == p2.rtl
  }

  /** A column never takes fewer items when the rectangle is taller. */
  lemma {:induction false} ColumnLengthGrowsWithHeight(sizes: seq<Size>, y: int, p1: Params, p2: Params)
    requires Taller(p1, p2)
    ensures ColumnLength(sizes, y, p1) <= ColumnLength(sizes, y, p2)
    decreases |sizes|
  {
    if |sizes| > 0 && !ShouldWrapToNextColumn(y, sizes[0].height, p1.eff) {
      assert !ShouldWrapToNextColumn(y, sizes[0].height, p2.eff);
      ColumnLengthGrowsWithHeight(sizes[1..], y + sizes[0].height + p1.vs, p1, p2);
    }
  }

  /** Equal-sized items: a taller rectangle and no more items never give more columns. */
  lemma {:induction false} FewerColumnsWhenTaller(s: seq<Size>, t: seq<Size>, u: Size, p1: Params, p2: Params)
    requires Uniform(s, u) && Uniform(t, u) && |s| <= |t| && Taller(p1, p2)
    ensures |Columns(s, p2)| <= |Columns(t, p1)|
    decreases |s|
  {
    if |s| > 0 {
      var top := p1.eff.Top();
      var k1 := ColumnLength(t, top, p1);
      var k2 := ColumnLength(s, top, p2);
      assert s == t[..|s|];
      ColumnLengthPrefix(t, top, p1, |s|);
      ColumnLengthGrowsWithHeight(s, top, p1, p2);
      FewerColumnsWhenTaller(s[k2..], t[k1..], u, p1, p2);
    }
  }

  lemma {:induction false} MaxWidthFromUniform(m: int, col: seq<Size>, u: Size)
    requires Uniform(col, u) && |col| > 0
    ensures MaxWidthFrom(m, col) == Max(m, u.width)
    decreases |col|
  {
    if |col| > 1 {
      MaxWidthFromUniform(Max(m, col[0].width), col[1..], u);
    }
  }

  /** Equal-sized items: every column is as wide as one item (or 0 for negative widths). */
  lemma {:induction false} UniformColumnsWidth(sizes: seq<Size>, u: Size, p: Params)
    requires Uniform(sizes, u)
    ensures SumColumnWidths(Columns(sizes, p)) == |Columns(sizes, p)| * Max(0, u.width)
    decreases |sizes|
  {
    if |sizes| > 0 {
      var k := ColumnLength(sizes, p.eff.Top(), p);
      MaxWidthFromUniform(0, sizes[..k], u);
      UniformColumnsWidth(sizes[k..], u, p);
      var rest := Columns(sizes[k..], p);
      assert |Columns(sizes, p)| == 1 + |rest|;
      assert (1 + |rest|) * Max(0, u.width) == Max(0, u.width) + |rest| * Max(0, u.width);
    }
  }

  /** The layout width of equal-sized items, by number of columns. */
  lemma UniformWidthByColumnCount(rect: Rect, m: Margins, sizes: seq<Size>, u: Size, rtl: bool, hs: int, vs: int)
    requires Uniform(sizes, u) && |sizes| > 0
    ensures var n := |Columns(sizes, LayoutParams(rect, m, rtl, hs, vs))|;
            LayoutWidth(rect, m, sizes, rtl, hs, vs)
              == (if rtl then m.left else 2 * m.left) + m.right + n * (Max(0, u.width) + hs) - hs
  {
    var p := LayoutParams(rect, m, rtl, hs, vs);
    var n := |Columns(sizes, p)|;
    if rtl {
      RtlWidthIsColumnsPlusGaps(rect, m, sizes, hs, vs);
    } else {
      LtrWidthCountsLeftMarginTwice(rect, m, sizes, hs, vs);
    }
    UniformColumnsWidth(sizes, u, p);
    assert n * Max(0, u.width) + (n - 1) * hs == n * (Max(0, u.width) + hs) - hs;
  }

  lemma MulMonotone(a: int, b: int, c: int)
    requires a <= b && c >= 0
    ensures a * c <= b * c
  {
    assert b * c - a * c == (b - a) * c;
  }

  /**
   * totalWidthForHeight is non-increasing in the height for items of one
   * size, provided the effective height (height minus top and bottom
   * margins) is positive and a column plus its spacing is not negative.
   */
  lemma WidthForHeightNonIncreasing(m: Margins, sizes: seq<Size>, u: Size, rtl: bool, hs: int, vs: int, h1: int, h2: int)
    requires Uniform(sizes, u)
    requires h1 - m.top - m.bottom > 0 && h1 <= h2
    requires Max(0, u.width) + hs >= 0
    ensures WidthForHeight(m, sizes, rtl, hs, vs, h2) <= WidthForHeight(m, sizes, rtl, hs, vs, h1)
  {
    var p1 := LayoutParams(ProbeRect(h1), m, rtl, hs, vs);
    var p2 := LayoutParams(ProbeRect(h2), m, rtl, hs, vs);
    assert Taller(p1, p2);
    if |sizes| == 0 {
      assert Walk(sizes, Start(p1), p1) == Start(p1);
      assert Walk(sizes, Start(p2), p2) == Start(p2);
    } else {
      FewerColumnsWhenTaller(sizes, sizes, u, p1, p2);
      UniformWidthByColumnCount(ProbeRect(h1), m, sizes, u, rtl, hs, vs);
      UniformWidthByColumnCount(ProbeRect(h2), m, sizes, u, rtl, hs, vs);
      MulMonotone(|Columns(sizes, p2)|, |Columns(sizes, p1)|, Max(0, u.width) + hs);
    }
  }

  /**
   * Items of different sizes: one narrow tall item followed by two wide
   * short ones need 110 pixels at height 20 but 200 at height 26, so the
   * non-increasing claim needs equal sizes.
   */
  lemma MixedSizesCanNeedMoreWidth()
    ensures WidthForHeight(Margins(0, 0, 0, 0), [Size(10, 15), Size(100, 10), Size(100, 5)], true, 0, 0, 20) == 110
    ensures WidthForHeight(Margins(0, 0, 0, 0), [Size(10, 15), Size(100, 10), Size(100, 5)], true, 0, 0, 26) == 200
  {
    var a, b, c := Size(10, 15), Size(100, 10), Size(100, 5);
    var sizes := [a, b, c];
    assert sizes[1..] == [b, c] && sizes[1..][1..] == [c];
    var m := Margins(0, 0, 0, 0);
    var p20 := LayoutParams(ProbeRect(20), m, true, 0, 0);
    assert p20 == Params(Rect(0, 0, 9999, 19), true, 0, 0);
    assert Step(Start(p20), a, p20) == Cursor(10000, 15, 10);
    assert Step(Cursor(10000, 15, 10), b, p20) == Cursor(9990, 10, 100);
    assert Step(Cursor(9990, 10, 100), c, p20) == Cursor(9990, 15, 100);
    WalkThree(a, b, c, Start(p20), p20);
    var p26 := LayoutParams(ProbeRect(26), m, true, 0, 0);
    assert p26 == Params(Rect(0, 0, 9999, 25), true, 0, 0);
    assert Step(Start(p26), a, p26) == Cursor(10000, 15, 10);
    assert Step(Cursor(10000, 15, 10), b, p26) == Cursor(10000, 25, 100);
    assert Step(Cursor(10000, 25, 100), c, p26) == Cursor(9900, 5, 100);
    WalkThree(a, b, c, Start(p26), p26);
  }

  lemma WalkThree(a: Size, b: Size, c: Size, start: Cursor, p: Params)
    ensures Walk([a, b, c], start, p) == Step(Step(Step(start, a, p), b, p), c, p)
  {
    assert [a, b, c][1..] == [b, c] && [b, c][1..] == [c] && [c][1..] == [];
    var c1 := Step(start, a, p);
    var c2 := Step(c1, b, p);
    assert Walk([a, b, c], start, p) == Walk([b, c], c1, p);
    assert Walk([b, c], c1, p) == Walk([c], c2, p);
    assert Walk([c], c2, p) == Walk([], Step(c2, c, p), p);
  }

  /**
   * Five 100x30 tiles, spacing 2, no margins, height 65: two tiles fit in a
   * column, so three columns are needed and the width is 3 * 100 + 2 * 2.
   * (The settings are parameters pinned by requires clauses, which keeps
   * the verifier from unrolling the layout over literal arguments.)
   */
  lemma FiveTilesNeedThreeColumns(tiles: seq<Size>, m: Margins, rtl: bool, hs: int, vs: int, height: int)
    requires |tiles| == 5 && Uniform(tiles, Size(100, 30))
    requires m == Margins(0, 0, 0, 0) && rtl && hs == 2 && vs == 2 && height == 65
    ensures WidthForHeight(m, tiles, rtl, hs, vs, height) == 304
  {
    FiveTilesThreeColumns(tiles, m, rtl, hs, vs, height);
    ThreeUniformColumns(m, tiles, Size(100, 30), rtl, hs, vs, height);
  }

  lemma FiveTilesThreeColumns(tiles: seq<Size>, m: Margins, rtl: bool, hs: int, vs: int, height: int)
    requires |tiles| == 5 && Uniform(tiles, Size(100, 30))
    requires m == Margins(0, 0, 0, 0) && rtl && hs == 2 && vs == 2 && height == 65
    ensures |Columns(tiles, LayoutParams(ProbeRect(height), m, rtl, hs, vs))| == 3
  {
    var p := LayoutParams(ProbeRect(height), m, rtl, hs, vs);
    assert p.eff.Top() == 0 && p.eff.Bottom() == 64;
    FiveInThreeColumns(tiles, p);
  }

  /** The width the probe reports for three RTL columns of identical items. */
  lemma ThreeUniformColumns(m: Margins, sizes: seq<Size>, u: Size, rtl: bool, hs: int, vs: int, height: int)
    requires Uniform(sizes, u) && |sizes| > 0 && rtl
    requires |Columns(sizes, LayoutParams(ProbeRect(height), m, rtl, hs, vs))| == 3
    ensures WidthForHeight(m, sizes, rtl, hs, vs, height) == m.left + m.right + 3 * Max(0, u.width) + 2 * hs
  {
    UniformWidthByColumnCount(ProbeRect(height), m, sizes, u, rtl, hs, vs);
  }

  lemma FiveInThreeColumns(tiles: seq<Size>, p: Params)
    requires p.eff.Top() == 0 && p.eff.Bottom() == 64 && p.vs == 2
    requires |tiles| == 5 && Uniform(tiles, Size(100, 30))
    ensures |Columns(tiles, p)| == 3
  {
    var s3 := tiles[2..];
    var s1 := s3[2..];
    TwoPerColumn(tiles, p);
    TwoPerColumn(s3, p);
    assert s1[1..] == [];
    assert ColumnLength(s1, 0, p) == 1;
    assert |Columns(s1, p)| == 1;
    assert |Columns(s3, p)| == 2;
  }

  /** Two 100x30 tiles fill a column of effective height 65 with spacing 2. */
  lemma TwoPerColumn(s: seq<Size>, p: Params)
    requires p.eff.Top() == 0 && p.eff.Bottom() == 64 && p.vs == 2
    requires |s| >= 3 && s[0] == s[1] == s[2] == Size(100, 30)
    ensures ColumnLength(s, 0, p) == 2
  {
    assert ShouldWrapToNextColumn(64, 30, p.eff);
    assert ColumnLength(s[1..][1..], 64, p) == 0;
    assert ColumnLength(s[1..], 32, p) == 1;
  }
}
