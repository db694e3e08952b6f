/**
 * The arithmetic of FlowLayout::doLayout (src/flowlayout.cpp), as pure
 * functions over the item sizes. The loop keeps three running variables
 * (x, y, columnWidth); a Cursor holds them. Walk folds the loop body over
 * the remaining items and Placements lists the rectangles that the loop
 * hands to setItemGeometry, in item order.
 */
module FlowGeometry {
  import opened Common
  import opened Geometry

  /** A layout's contents margins (QLayout::getContentsMargins). */
  datatype Margins = Margins(left: int, top: int, right: int, bottom: int)

  /** What one layout pass fixes before it looks at any item. */
  datatype Params = Params(eff: Rect, rtl: bool, hs: int, vs: int)

  /** The loop's running variables: column origin, vertical offset, column width so far. */
  datatype Cursor = Cursor(x: int, y: int, columnWidth: int)

  /** The bounding rectangle shrunk by the margins. */
  function EffectiveRect(rect: Rect, m: Margins): (r: Rect)
    ensures r.Left() == rect.Left() + m.left && r.Top() == rect.Top() + m.top
    ensures r.Right() == rect.Right() - m.right && r.Bottom() == rect.Bottom() - m.bottom
  {
    rect.Adjusted(m.left, m.top, -m.right, -m.bottom)
  }

  /**
   * FlowLayout::shouldWrapToNextColumn: the height is bounded, the item
   * would cross the bottom edge, and the column already holds an item.
   */
  predicate ShouldWrapToNextColumn(currentY: int, itemHeight: int, eff: Rect) {
    eff.Height() > 0 && currentY + itemHeight > eff.Bottom() && currentY > eff.Top()
  }

  /** The first item of a column (offset at the top edge or above) is never wrapped. */
  lemma TopOfColumnNeverWraps(currentY: int, itemHeight: int, eff: Rect)
    requires currentY <= eff.Top()
    ensures !ShouldWrapToNextColumn(currentY, itemHeight, eff)
  {
  }

  /** Where the loop starts: x is the right edge plus one in RTL mode, the left edge otherwise. */
  function Start(p: Params): Cursor {
    Cursor(if p.rtl then p.eff.Right() + 1 else p.eff.Left(), p.eff.Top(), 0)
  }

  /** The origin of the next column: leftwards in RTL mode, rightwards otherwise. */
  function NextColumnX(x: int, columnWidth: int, p: Params): int {
    if p.rtl then x - columnWidth - p.hs else x + columnWidth + p.hs
  }

  /** The cursor after the wrap test for an item of size s. */
  function Wrapped(c: Cursor, s: Size, p: Params): Cursor {
    if ShouldWrapToNextColumn(c.y, s.height, p.eff)
    then Cursor(NextColumnX(c.x, c.columnWidth, p), p.eff.Top(), 0)
    else c
  }

  /** One iteration of the loop body for an item of size s. */
  function Step(c: Cursor, s: Size, p: Params): Cursor {
    var w := Wrapped(c, s, p);
    Cursor(w.x, w.y + s.height + p.vs, Max(w.columnWidth, s.width))
  }

  /**
   * FlowLayout::setItemGeometry: in RTL mode x is the item's exclusive right
   * edge, otherwise its left edge.
   */
  function ItemGeometry(x: int, y: int, s: Size, rtl: bool): (r: Rect)
    ensures r.Width() == s.width && r.Height() == s.height && r.Top() == y
    ensures rtl ==> r.Right() + 1 == x
    ensures !rtl ==> r.Left() == x
  {
    if rtl then RectAt(x - s.width, y, s) else RectAt(x, y, s)
  }

  /** The cursor after the loop has run over `sizes`, starting from c. */
  function Walk(sizes: seq<Size>, c: Cursor, p: Params): Cursor
    decreases |sizes|
  {
    if |sizes| == 0 then c else Walk(sizes[1..], Step(c, sizes[0], p), p)
  }

  /** The rectangles the loop passes to setItemGeometry, one per item, in order. */
  function Placements(sizes: seq<Size>, c: Cursor, p: Params): (r: seq<Rect>)
    ensures |r| == |sizes|
    decreases |sizes|
  {
    if |sizes| == 0 then []
    else
      var w := Wrapped(c, sizes[0], p);
      [ItemGeometry(w.x, w.y, sizes[0], p.rtl)] + Placements(sizes[1..], Step(c, sizes[0], p), p)
  }

  /** doLayout's return value, computed from the cursor after the last item. */
  function Extent(rect: Rect, m: Margins, last: Cursor, p: Params): int {
    if p.rtl then (p.eff.Right() + 1) - (last.x - last.columnWidth) + m.right + m.left
    else last.x + last.columnWidth + m.right + m.left - rect.Left()
  }

  function LayoutParams(rect: Rect, m: Margins, rtl: bool, hs: int, vs: int): Params {
    Params(EffectiveRect(rect, m), rtl, hs, vs)
  }

  /** What doLayout returns for a bounding rectangle and the item sizes. */
  function LayoutWidth(rect: Rect, m: Margins, sizes: seq<Size>, rtl: bool, hs: int, vs: int): int {
    var p := LayoutParams(rect, m, rtl, hs, vs);
    Extent(rect, m, Walk(sizes, Start(p), p), p)
  }

  /** The probe rectangle of FlowLayout::totalWidthForHeight. */
  function ProbeRect(height: int): Rect { RectXYWH(0, 0, 10000, height) }

  /** What totalWidthForHeight returns. */
  function WidthForHeight(m: Margins, sizes: seq<Size>, rtl: bool, hs: int, vs: int, height: int): int {
    LayoutWidth(ProbeRect(height), m, sizes, rtl, hs, vs)
  }

  /** Walking a concatenation is walking the first part, then the second. */
  lemma {:induction false} WalkAppend(a: seq<Size>, b: seq<Size>, c: Cursor, p: Params)
    ensures Walk(a + b, c, p) == Walk(b, Walk(a, c, p), p)
    decreases |a|
  {
    if |a| > 0 {
      assert (a + b)[1..] == a[1..] + b;
      WalkAppend(a[1..], b, Step(c, a[0], p), p);
    } else {
      assert a + b == b;
    }
  }

  /** The placements of a concatenation: those of the first part, then those of the second. */
  lemma {:induction false} PlacementsAppend(a: seq<Size>, b: seq<Size>, c: Cursor, p: Params)
    ensures Placements(a + b, c, p) == Placements(a, c, p) + Placements(b, Walk(a, c, p), p)
    decreases |a|
  {
    if |a| > 0 {
      assert (a + b)[1..] == a[1..] + b;
      PlacementsAppend(a[1..], b, Step(c, a[0], p), p);
    } else {
      assert a + b == b;
    }
  }

  /** The loop's step from i items to i + 1: one more Step, and one more placement at the end. */
  lemma PrefixStep(sizes: seq<Size>, i: nat, p: Params)
    requires i < |sizes|
    ensures Walk(sizes[..i + 1], Start(p), p) == Step(Walk(sizes[..i], Start(p), p), sizes[i], p)
    ensures var w := Wrapped(Walk(sizes[..i], Start(p), p), sizes[i], p);
            Placements(sizes[..i + 1], Start(p), p)
            == Placements(sizes[..i], Start(p), p) + [ItemGeometry(w.x, w.y, sizes[i], p.rtl)]
  {
    assert sizes[..i + 1] == sizes[..i] + [sizes[i]];
    WalkAppend(sizes[..i], [sizes[i]], Start(p), p);
    PlacementsAppend(sizes[..i], [sizes[i]], Start(p), p);
  }
}
