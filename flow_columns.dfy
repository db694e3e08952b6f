/**
 * An independent, column-by-column reading of the flow layout: a column
 * starts with an item at the top edge and takes items until the wrap test
 * fires. The lemmas connect this reading with the loop's own running
 * variables (FlowGeometry.Walk) and derive what the layout promises: no
 * item is dropped, the total width is the margins plus the column widths
 * plus the gaps, an unbounded height gives one column, an oversized item
 * stands alone, and for equal-sized items more height never needs more width.
 */
module FlowColumns {
  import opened Common
  import opened Geometry
  import opened FlowGeometry

  /** How many of `sizes` still go into the column whose running offset is y. */
  function ColumnLength(sizes: seq<Size>, y: int, p: Params): (k: nat)
    ensures k <= |sizes|
    ensures |sizes| > 0 && y <= p.eff.Top() ==> k >= 1
    decreases |sizes|
  {
    if |sizes| == 0 || ShouldWrapToNextColumn(y, sizes[0].height, p.eff) then 0
    else 1 + ColumnLength(sizes[1..], y + sizes[0].height + p.vs, p)
  }

  /** The items split into columns, each filled from the top edge. */
  function Columns(sizes: seq<Size>, p: Params): seq<seq<Size>>
    decreases |sizes|
  {
    if |sizes| == 0 then []
    else
      var k := ColumnLength(sizes, p.eff.Top(), p);
      [sizes[..k]] + Columns(sizes[k..], p)
  }

  /** The largest width in col, or m if that is larger (qMax folded over the column). */
  function MaxWidthFrom(m: int, col: seq<Size>): int
    decreases |col|
  {
    if |col| == 0 then m else MaxWidthFrom(Max(m, col[0].width), col[1..])
  }

  /** A column's width: columnWidth starts at 0 and takes the maximum of the item widths. */
  function ColumnWidth(col: seq<Size>): int { MaxWidthFrom(0, col) }

  function SumColumnWidths(cols: seq<seq<Size>>): int
    decreases |cols|
  {
    if |cols| == 0 then 0 else ColumnWidth(cols[0]) + SumColumnWidths(cols[1..])
  }

  function Flatten(cols: seq<seq<Size>>): seq<Size>
    decreases |cols|
  {
    if |cols| == 0 then [] else cols[0] + Flatten(cols[1..])
  }

  /** No item is dropped or reordered, and no column is empty. */
  lemma {:induction false} ColumnsPartition(sizes: seq<Size>, p: Params)
    ensures Flatten(Columns(sizes, p)) == sizes
    ensures forall i :: 0 <= i < |Columns(sizes, p)| ==> |Columns(sizes, p)[i]| > 0
    decreases |sizes|
  {
    if |sizes| > 0 {
      var k := ColumnLength(sizes, p.eff.Top(), p);
      ColumnsPartition(sizes[k..], p);
      assert sizes[..k] + sizes[k..] == sizes;
    }
  }

  /**
   * Running the loop from the middle of a column: the column takes the next
   * ColumnLength items, its width becomes the maximum of their widths, and if
   * items remain the loop continues from the top of a new column whose origin
   * has moved by the width plus the horizontal spacing.
   */
  lemma {:induction false} ColumnRun(sizes: seq<Size>, c: Cursor, p: Params)
    ensures var k := ColumnLength(sizes, c.y, p);
            var w := MaxWidthFrom(c.columnWidth, sizes[..k]);
            if k == |sizes| then Walk(sizes, c, p).x == c.x && Walk(sizes, c, p).columnWidth == w
            else Walk(sizes, c, p) == Walk(sizes[k..], Cursor(NextColumnX(c.x, w, p), p.eff.Top(), 0), p)
    decreases |sizes|
  {
    if |sizes| == 0 {
    } else if ShouldWrapToNextColumn(c.y, sizes[0].height, p.eff) {
      var top := Cursor(NextColumnX(c.x, c.columnWidth, p), p.eff.Top(), 0);
      TopOfColumnNeverWraps(p.eff.Top(), sizes[0].height, p.eff);
      assert Step(c, sizes[0], p) == Step(top, sizes[0], p);
      assert sizes[..0] == [];
      assert sizes[0..] == sizes;
    } else {
      var c1 := Step(c, sizes[0], p);
      var k1 := ColumnLength(sizes[1..], c1.y, p);
      ColumnRun(sizes[1..], c1, p);
      assert sizes[..1 + k1][1..] == sizes[1..][..k1];
      assert sizes[1..][k1..] == sizes[1 + k1..];
    }
  }

  /** Walking whole columns from the top of the first: distance covered versus column widths. */
  lemma {:induction false} WalkByColumns(sizes: seq<Size>, x: int, p: Params)
    requires |sizes| > 0
    ensures var f := Walk(sizes, Cursor(x, p.eff.Top(), 0), p);
            var cols := Columns(sizes, p);
            |cols| >= 1 &&
            (if p.rtl then x - f.x + f.columnWidth else f.x + f.columnWidth - x)
              == SumColumnWidths(cols) + (|cols| - 1) * p.hs
    decreases |sizes|
  {
    var c := Cursor(x, p.eff.Top(), 0);
    var k := ColumnLength(sizes, p.eff.Top(), p);
    ColumnRun(sizes, c, p);
    var w := MaxWidthFrom(0, sizes[..k]);
    var cols := Columns(sizes, p);
    assert cols == [sizes[..k]] + Columns(sizes[k..], p);
    if k < |sizes| {
      var rest := Columns(sizes[k..], p);
      WalkByColumns(sizes[k..], NextColumnX(x, w, p), p);
      assert SumColumnWidths(cols) == w + SumColumnWidths(rest);
      assert |cols| - 1 == |rest|;
      assert (|rest| - 1) * p.hs + p.hs == |rest| * p.hs;
    } else {
      assert Columns(sizes[k..], p) == [];
      assert SumColumnWidths(cols) == w;
    }
  }

  /**
   * RTL mode (the mode the application uses): doLayout returns the left and
   * right margins plus the sum of the column widths plus one horizontal
   * spacing between neighbouring columns; with no items it returns the two
   * margins alone.
   */
  lemma RtlWidthIsColumnsPlusGaps(rect: Rect, m: Margins, sizes: seq<Size>, hs: int, vs: int)
    ensures var p := LayoutParams(rect, m, true, hs, vs);
            var cols := Columns(sizes, p);
            LayoutWidth(rect, m, sizes, true, hs, vs)
              == if |sizes| == 0 then m.left + m.right
                 else m.left + m.right + SumColumnWidths(cols) + (|cols| - 1) * hs
  {
    var p := LayoutParams(rect, m, true, hs, vs);
    if |sizes| > 0 {
      WalkByColumns(sizes, p.eff.Right() + 1, p);
    }
  }

  /**
   * LTR mode as the code is written: the returned width counts the left
   * margin twice, because x already starts at rect.x() + left.
   */
  lemma LtrWidthCountsLeftMarginTwice(rect: Rect, m: Margins, sizes: seq<Size>, hs: int, vs: int)
    ensures var p := LayoutParams(rect, m, false, hs, vs);
            var cols := Columns(sizes, p);
            LayoutWidth(rect, m, sizes, false, hs, vs)
              == if |sizes| == 0 then 2 * m.left + m.right
                 else 2 * m.left + m.right + SumColumnWidths(cols) + (|cols| - 1) * hs
  {
    var p := LayoutParams(rect, m, false, hs, vs);
    if |sizes| > 0 {
      WalkByColumns(sizes, p.eff.Left(), p);
    }
  }

  /** With an effective height of zero or less the wrap test never fires. */
  lemma {:induction false} UnboundedColumnTakesAll(sizes: seq<Size>, y: int, p: Params)
    requires p.eff.Height() <= 0
    ensures ColumnLength(sizes, y, p) == |sizes|
    decreases |sizes|
  {
    if |sizes| > 0 {
      UnboundedColumnTakesAll(sizes[1..], y + sizes[0].height + p.vs, p);
    }
  }

  /** With an effective height of zero or less every item lands in one column. */
  lemma SingleColumnWithoutHeight(sizes: seq<Size>, p: Params)
    requires p.eff.Height() <= 0
    ensures |Columns(sizes, p)| == if |sizes| == 0 then 0 else 1
  {
    UnboundedColumnTakesAll(sizes, p.eff.Top(), p);
    assert sizes[|sizes|..] == [];
  }

  predicate PositiveHeights(sizes: seq<Size>) {
    forall i :: 0 <= i < |sizes| ==> sizes[i].height > 0
  }

  /** Below the top edge, an item taller than the effective height always wraps. */
  lemma {:induction false} OversizedEndsColumn(sizes: seq<Size>, y: int, p: Params, j: nat)
    requires p.eff.Height() > 0 && p.vs >= 0 && PositiveHeights(sizes)
    requires y > p.eff.Top() && j < |sizes| && sizes[j].height > p.eff.Height()
    ensures ColumnLength(sizes, y, p) <= j
    decreases j
  {
    if j > 0 && !ShouldWrapToNextColumn(y, sizes[0].height, p.eff) {
      OversizedEndsColumn(sizes[1..], y + sizes[0].height + p.vs, p, j - 1);
    }
  }

  /** The column that starts at the head of `sizes`, when an oversized item is in it. */
  lemma FirstColumnWithOversized(sizes: seq<Size>, p: Params, j: nat)
    requires p.eff.Height() > 0 && p.vs >= 0 && PositiveHeights(sizes)
    requires j < ColumnLength(sizes, p.eff.Top(), p) && sizes[j].height > p.eff.Height()
    ensures j == 0 && ColumnLength(sizes, p.eff.Top(), p) == 1
  {
    var y1 := p.eff.Top() + sizes[0].height + p.vs;
    if j > 0 {
      OversizedEndsColumn(sizes[1..], y1, p, j - 1);
      assert false;
    }
    if |sizes| > 1 {
      assert ShouldWrapToNextColumn(y1, sizes[1].height, p.eff);
    }
  }

  /**
   * An item taller than the available height sits alone, at the top, in a
   * column of its own (heights positive, vertical spacing not negative).
   */
  lemma {:induction false} OversizedItemAlone(sizes: seq<Size>, p: Params)
    requires p.eff.Height() > 0 && p.vs >= 0 && PositiveHeights(sizes)
    ensures forall ci, j ::
              (0 <= ci < |Columns(sizes, p)| && 0 <= j < |Columns(sizes, p)[ci]|
               && Columns(sizes, p)[ci][j].height > p.eff.Height()) ==> j == 0 && |Columns(sizes, p)[ci]| == 1
    decreases |sizes|
  {
    if |sizes| > 0 {
      var k := ColumnLength(sizes, p.eff.Top(), p);
      var cols: seq<seq<Size>> := Columns(sizes, p);
      OversizedItemAlone(sizes[k..], p);
      forall ci: int, j: int | 0 <= ci < |cols| && 0 <= j < |cols[ci]| && cols[ci][j].height > p.eff.Height()
        ensures j == 0 && |cols[ci]| == 1
      {
        if ci == 0 {
          FirstColumnWithOversized(sizes, p, j);
        } else {
          assert cols[ci] == Columns(sizes[k..], p)[ci - 1];
        }
      }
    }
  }
}
