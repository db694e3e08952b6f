/**
 * FlowLayout (src/flowlayout.h, src/flowlayout.cpp): a QLayout that owns a
 * list of items and stacks them top to bottom into columns that advance
 * leftwards (RTL) or rightwards. The class keeps the item list and the RTL
 * flag, which its methods update; doLayout is a loop proved against the
 * pure functions of FlowGeometry.
 */
module Flow {
  import opened Common
  import opened Geometry
  import opened FlowGeometry

  /**
   * A QLayoutItem as the layout sees it: an object identity, whether it
   * wraps a widget, its own sizeHint (zero for a hidden widget), the
   * widget's sizeHint, and its minimumSize.
   */
  datatype LayoutItem = LayoutItem(id: nat, hasWidget: bool, itemHint: Size, widgetHint: Size, minSize: Size)

  /** One call item->setGeometry(rect) made by doLayout. */
  datatype GeometryCall = GeometryCall(item: nat, rect: Rect)

  /** FlowLayout::getItemSize: a measuring pass reads the widget's own hint. */
  function ItemSize(item: LayoutItem, testOnly: bool): (s: Size)
    ensures testOnly && item.hasWidget ==> s == item.widgetHint
    ensures !(testOnly && item.hasWidget) ==> s == item.itemHint
  {
    if testOnly && item.hasWidget then item.widgetHint else item.itemHint
  }

  function ItemSizes(items: seq<LayoutItem>, testOnly: bool): (r: seq<Size>)
    ensures |r| == |items|
    ensures forall k :: 0 <= k < |items| ==> r[k] == ItemSize(items[k], testOnly)
  {
    seq(|items|, k requires 0 <= k < |items| => ItemSize(items[k], testOnly))
  }

  /** QSize::expandedTo. */
  function ExpandedTo(a: Size, b: Size): (r: Size)
    ensures r.width >= a.width && r.width >= b.width && (r.width == a.width || r.width == b.width)
    ensures r.height >= a.height && r.height >= b.height && (r.height == a.height || r.height == b.height)
  {
    Size(Max(a.width, b.width), Max(a.height, b.height))
  }

  /** The largest minimum width and height of the items, starting from QSize()'s (-1, -1). */
  function MinimumExtent(items: seq<LayoutItem>): Size
    decreases |items|
  {
    if |items| == 0 then Size(-1, -1)
    else ExpandedTo(MinimumExtent(items[..|items| - 1]), items[|items| - 1].minSize)
  }

  /** MinimumExtent bounds every item and is attained by one of them (or is (-1, -1)). */
  lemma {:induction false} MinimumExtentBounds(items: seq<LayoutItem>)
    ensures var e := MinimumExtent(items);
            (forall k :: 0 <= k < |items| ==> items[k].minSize.width <= e.width && items[k].minSize.height <= e.height)
            && (e.width == -1 || exists k :: 0 <= k < |items| && items[k].minSize.width == e.width)
            && (e.height == -1 || exists k :: 0 <= k < |items| && items[k].minSize.height == e.height)
            && e.width >= -1 && e.height >= -1
    decreases |items|
  {
    if |items| > 0 {
      var init := items[..|items| - 1];
      MinimumExtentBounds(init);
      var e0 := MinimumExtent(init);
      var e := MinimumExtent(items);
      assert forall k :: 0 <= k < |init| ==> init[k] == items[k];
      if e.width != -1 && e.width != items[|items| - 1].minSize.width {
        assert e.width == e0.width;
        var k :| 0 <= k < |init| && init[k].minSize.width == e0.width;
        assert items[k].minSize.width == e.width;
      }
      if e.height != -1 && e.height != items[|items| - 1].minSize.height {
        assert e.height == e0.height;
        var k :| 0 <= k < |init| && init[k].minSize.height == e0.height;
        assert items[k].minSize.height == e.height;
      }
    }
  }

  /**
   * The margins QLayout::setContentsMargins(m, m, m, m) leads to: m on
   * every side, or the style's margins when m is negative.
   */
  function ContentsMargins(margin: int, style: Margins): Margins {
    if margin >= 0 then Margins(margin, margin, margin, margin) else style
  }

  /**
   * One iteration of doLayout's loop for an item of the given size: the
   * wrap test, the rectangle handed to setItemGeometry, and the advance of
   * the column width and vertical offset.
   */
  method PlaceItem(x: int, y: int, columnWidth: int, size: Size, p: Params)
    returns (nextX: int, nextY: int, nextColumnWidth: int, g: Rect)
    ensures Cursor(nextX, nextY, nextColumnWidth) == Step(Cursor(x, y, columnWidth), size, p)
    ensures var w := Wrapped(Cursor(x, y, columnWidth), size, p); g == ItemGeometry(w.x, w.y, size, p.rtl)
  {
    nextX, nextY, nextColumnWidth := x, y, columnWidth;
    if ShouldWrapToNextColumn(nextY, size.height, p.eff) {
      nextX := if p.rtl then nextX - nextColumnWidth - p.hs else nextX + nextColumnWidth + p.hs;
      nextY := p.eff.Top();
      nextColumnWidth := 0;
    }
    g := ItemGeometry(nextX, nextY, size, p.rtl);
    nextColumnWidth := Max(nextColumnWidth, size.width);
    nextY := nextY + size.height + p.vs;
  }

  class FlowLayout {
    /** m_itemList. */
    var items: seq<LayoutItem>
    /** m_isRTL, false until setRTL is called. */
    var isRTL: bool
    /** The rectangle last given to setGeometry (QLayout::geometry()). */
    var geometry: Rect
    /** m_hSpace and m_vSpace as passed to the constructor; negative means "ask the style". */
    const hSpace: int
    const vSpace: int
    /** The contents margins as contentsMargins() reports them. */
    const margins: Margins
    /** What the style reports as the layout margins of the parent widget. */
    const styleMargins: Margins
    /** What smartSpacing reports for the two directions (the style's or the parent's spacing). */
    const styleHSpacing: int
    const styleVSpacing: int

    /**
     * FlowLayout(parent, margin, hSpacing, vSpacing): setContentsMargins with
     * `margin` on every side, which QLayout reads as "the style's margins"
     * when it is negative. The list is empty and RTL is off. The style's
     * margins and spacings are given.
     */
    constructor (margin: int, hSpacing: int, vSpacing: int, style: Margins, styleH: int, styleV: int)
      ensures items == [] && !isRTL
      ensures hSpace == hSpacing && vSpace == vSpacing
      ensures margin >= 0 ==> margins == Margins(margin, margin, margin, margin)
      ensures margin < 0 ==> margins == style
      ensures styleMargins == style && styleHSpacing == styleH && styleVSpacing == styleV
    {
      items := [];
      isRTL := false;
      geometry := Rect(0, 0, -1, -1);
      hSpace := hSpacing;
      vSpace := vSpacing;
      margins := ContentsMargins(margin, style);
      styleMargins := style;
      styleHSpacing := styleH;
      styleVSpacing := styleV;
    }

    /** horizontalSpacing(): the configured value unless it is negative. */
    function HorizontalSpacing(): (r: int)
      reads this
      ensures hSpace >= 0 ==> r == hSpace
      ensures hSpace < 0 ==> r == styleHSpacing
    {
      if hSpace >= 0 then hSpace else styleHSpacing
    }

    /** verticalSpacing(): the configured value unless it is negative. */
    function VerticalSpacing(): (r: int)
      reads this
      ensures vSpace >= 0 ==> r == vSpace
      ensures vSpace < 0 ==> r == styleVSpacing
    {
      if vSpace >= 0 then vSpace else styleVSpacing
    }

    /** count(). */
    function Count(): (n: nat)
      reads this
      ensures n == |items|
    {
      |items|
    }

    /** itemAt(index): QList::value, so an invalid index gives null. */
    function ItemAt(index: int): (r: Option<LayoutItem>)
      reads this
      ensures r.Some? <==> 0 <= index < |items|
      ensures r.Some? ==> r.value == items[index]
    {
      if 0 <= index < |items| then Some(items[index]) else None
    }

    /** addItem: appends at the end. */
    method AddItem(item: LayoutItem)
      modifies this`items
      ensures items == old(items) + [item]
    {
      items := items + [item];
    }

    /** takeAt(index): removes exactly the item at a valid index; otherwise null and no change. */
    method TakeAt(index: int) returns (r: Option<LayoutItem>)
      modifies this`items
      ensures r.Some? <==> 0 <= index < |old(items)|
      ensures r.Some? ==> r.value == old(items)[index] && items == old(items)[..index] + old(items)[index + 1..]
      ensures r.None? ==> items == old(items)
    {
      if 0 <= index < |items| {
        r := Some(items[index]);
        items := items[..index] + items[index + 1..];
      } else {
        r := None;
      }
    }

    /** setRTL(enable): writes only the flag. */
    method SetRTL(enable: bool)
      modifies this`isRTL
      ensures isRTL == enable
    {
      isRTL := enable;
    }

    /** What one pass of doLayout over `rect` fixes up front. */
    function PassParams(rect: Rect): (p: Params)
      reads this
      ensures p.eff == EffectiveRect(rect, margins) && p.rtl == isRTL
      ensures p.hs == HorizontalSpacing() && p.vs == VerticalSpacing()
    {
      LayoutParams(rect, margins, isRTL, HorizontalSpacing(), VerticalSpacing())
    }

    /**
     * doLayout(rect, testOnly): returns the width the columns take and the
     * setItemGeometry calls made, one per item in list order, or none at all
     * when only measuring. It changes nothing in the layout.
     */
    method DoLayout(rect: Rect, testOnly: bool) returns (total: int, calls: seq<GeometryCall>)
      ensures total == LayoutWidth(rect, margins, ItemSizes(items, testOnly), isRTL, HorizontalSpacing(), VerticalSpacing())
      ensures testOnly ==> calls == []
      ensures !testOnly ==> |calls| == |items|
      ensures !testOnly ==> forall k :: 0 <= k < |items| ==>
                calls[k] == GeometryCall(items[k].id, Placements(ItemSizes(items, false), Start(PassParams(rect)), PassParams(rect))[k])
    {
      var p := PassParams(rect);
      var eff := EffectiveRect(rect, margins);
      ghost var sizes := ItemSizes(items, testOnly);
      var x := if isRTL then eff.Right() + 1 else eff.Left();
      var y := eff.Top();
      var columnWidth := 0;
      calls := [];
      ghost var placed: seq<Rect> := [];
      var i := 0;
      while i < |items|
        invariant 0 <= i <= |items|
        invariant Cursor(x, y, columnWidth) == Walk(sizes[..i], Start(p), p)
        invariant placed == Placements(sizes[..i], Start(p), p)
        invariant testOnly ==> calls == []
        invariant !testOnly ==> |calls| == i
        invariant !testOnly ==> forall k :: 0 <= k < i ==> calls[k] == GeometryCall(items[k].id, placed[k])
      {
        var size := ItemSize(items[i], testOnly);
        ghost var before := Cursor(x, y, columnWidth);
        var g;
        x, y, columnWidth, g := PlaceItem(x, y, columnWidth, size, p);
        PrefixStep(sizes, i, p);
        placed := placed + [g];
        if !testOnly {
          calls := calls + [GeometryCall(items[i].id, g)];
        }
        i := i + 1;
      }
      assert sizes[..i] == sizes;
      if isRTL {
        total := (eff.Right() + 1) - (x - columnWidth) + margins.right + margins.left;
      } else {
        total := x + columnWidth + margins.right + margins.left - rect.Left();
      }
    }

    /** totalWidthForHeight(height): a measuring pass over QRect(0, 0, 10000, height). */
    method TotalWidthForHeight(height: int) returns (w: int)
      ensures w == WidthForHeight(margins, ItemSizes(items, true), isRTL, HorizontalSpacing(), VerticalSpacing(), height)
    {
      var calls;
      w, calls := DoLayout(ProbeRect(height), true);
    }

    /** setGeometry(rect): records the rectangle, then lays the items out in it. */
    method SetGeometry(rect: Rect) returns (calls: seq<GeometryCall>)
      modifies this`geometry
      ensures geometry == rect && items == old(items) && isRTL == old(isRTL)
      ensures |calls| == |items|
      ensures forall k :: 0 <= k < |items| ==>
                calls[k] == GeometryCall(items[k].id, Placements(ItemSizes(items, false), Start(PassParams(rect)), PassParams(rect))[k])
    {
      geometry := rect;
      var total;
      total, calls := DoLayout(rect, false);
    }

    /** minimumSize(): the items' minimum sizes expanded together, plus the margins. */
    method MinimumSize() returns (s: Size)
      ensures s == Size(MinimumExtent(items).width + margins.left + margins.right,
                        MinimumExtent(items).height + margins.top + margins.bottom)
    {
      var size := Size(-1, -1);
      var i := 0;
      while i < |items|
        invariant 0 <= i <= |items|
        invariant size == MinimumExtent(items[..i])
      {
        assert items[..i + 1][..i] == items[..i];
        size := ExpandedTo(size, items[i].minSize);
        i := i + 1;
      }
      assert items[..i] == items;
      s := Size(size.width + margins.left + margins.right, size.height + margins.top + margins.bottom);
    }

    /** sizeHint(): the same as minimumSize(). */
    method SizeHint() returns (s: Size)
      ensures s == Size(MinimumExtent(items).width + margins.left + margins.right,
                        MinimumExtent(items).height + margins.top + margins.bottom)
    {
      s := MinimumSize();
    }
  }
}
