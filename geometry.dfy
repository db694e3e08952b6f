/**
 * Qt's QSize and QRect. A QRect stores two inclusive corners, so that
 * right() == x() + width() - 1 and bottom() == y() + height() - 1.
 */
module Geometry {

  datatype Size = Size(width: int, height: int)

  datatype Rect = Rect(x1: int, y1: int, x2: int, y2: int) {
    function Left(): int { x1 }
    function Top(): int { y1 }
    function Right(): int { x2 }
    function Bottom(): int { y2 }
    function Width(): int { x2 - x1 + 1 }
    function Height(): int { y2 - y1 + 1 }

    /** QRect::adjusted: moves each corner by its own offset. */
    function Adjusted(dx1: int, dy1: int, dx2: int, dy2: int): Rect {
      Rect(x1 + dx1, y1 + dy1, x2 + dx2, y2 + dy2)
    }
  }

  /** QRect(x, y, w, h). */
  function RectXYWH(x: int, y: int, w: int, h: int): (r: Rect)
    ensures r.Left() == x && r.Top() == y && r.Width() == w && r.Height() == h
    ensures r.Right() == x + w - 1 && r.Bottom() == y + h - 1
  {
    Rect(x, y, x + w - 1, y + h - 1)
  }

  /** QRect(QPoint(x, y), size). */
  function RectAt(x: int, y: int, s: Size): Rect {
    RectXYWH(x, y, s.width, s.height)
  }
}
