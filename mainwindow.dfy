/**
 * MainWindow (src/mainwindow.h, src/mainwindow.cpp): a frameless panel that
 * holds one WindowTile per scanned window in a right-to-left FlowLayout and
 * sits against the right edge of the target screen. A refresh scans the
 * desktop, sorts the records, reuses the tiles of windows that are still
 * there, creates tiles for new ones, deletes the rest (clearing their cached
 * icons), and resizes the panel to the width the tiles need.
 */
module MainWindows {
  import opened Common
  import opened Geometry
  import opened FlowGeometry
  import opened FlowMonotone
  import opened Flow
  import opened WindowRecords
  import opened WindowOrder
  import opened Win32
  import opened WindowScanner
  import opened WindowTiles
  import Settings

  /** A QScreen: its whole geometry and the part task bars leave free. */
  datatype Screen = Screen(geometry: Rect, availableGeometry: Rect)

  /** getTargetScreen(): the configured screen when the index is in range, else the primary one. */
  function TargetScreen(screens: seq<Screen>, primary: Screen, targetIndex: int): (s: Screen)
    ensures s in screens || s == primary
    ensures 0 <= targetIndex < |screens| ==> s == screens[targetIndex]
    ensures (targetIndex < 0 || targetIndex >= |screens|) ==> s == primary
  {
    if targetIndex >= 0 && targetIndex < |screens| then screens[targetIndex] else primary
  }

  /**
   * adjustWindowGeometry's rectangle: the required width raised to the
   * minimum, flush with the right edge of the available area, full height.
   */
  function PanelGeometry(available: Rect, requiredWidth: int, minimumWidth: int): (r: Rect)
    ensures r.Width() == Max(requiredWidth, minimumWidth)
    ensures r.Right() == available.Right()
    ensures r.Top() == available.Top() && r.Bottom() == available.Bottom()
  {
    var width := if requiredWidth < minimumWidth then minimumWidth else requiredWidth;
    RectXYWH(available.Left() + available.Width() - width, available.Top(), width, available.Height())
  }

  /** A panel no wider than the available area lies inside it. */
  lemma PanelInsideAvailableArea(available: Rect, requiredWidth: int, minimumWidth: int)
    requires 0 <= minimumWidth && requiredWidth <= available.Width() && minimumWidth <= available.Width()
    ensures var r := PanelGeometry(available, requiredWidth, minimumWidth);
            available.Left() <= r.Left() && r.Right() == available.Right()
            && r.Top() == available.Top() && r.Bottom() == available.Bottom()
  {
  }

  /** setupUi's initial rectangle as the source computes it: the x offset ignores screenGeom.x(). */
  function InitialGeometryAsWritten(screen: Rect, initialWidth: int): (r: Rect)
    ensures r.Left() == screen.Width() - initialWidth && r.Width() == initialWidth
    ensures r.Top() == screen.Top() && r.Height() == screen.Height()
  {
    RectXYWH(screen.Width() - initialWidth, screen.Top(), initialWidth, screen.Height())
  }

  /**
   * A second monitor to the right of a 1920-pixel primary one: the as-written
   * rectangle lands on the primary monitor, entirely left of the target.
   */
  lemma InitialGeometryMissesSecondScreen(screen: Rect, initialWidth: int)
    requires screen == RectXYWH(1920, 0, 1920, 1080) && initialWidth == 300
    ensures InitialGeometryAsWritten(screen, initialWidth).Left() == 1620
    ensures InitialGeometryAsWritten(screen, initialWidth).Right() < screen.Left()
  {
  }

  /** setupUi's initial rectangle as intended: against the right edge of the target screen. */
  function InitialGeometry(screen: Rect, initialWidth: int): (r: Rect)
    ensures r.Right() == screen.Right() && r.Width() == initialWidth
    ensures r.Top() == screen.Top() && r.Bottom() == screen.Bottom()
  {
    RectXYWH(screen.Left() + screen.Width() - initialWidth, screen.Top(), initialWidth, screen.Height())
  }

  /** The intended rectangle lies on its screen, and agrees with the as-written one on a screen at x = 0. */
  lemma InitialGeometryOnScreen(screen: Rect, initialWidth: int)
    requires 0 <= initialWidth <= screen.Width()
    ensures screen.Left() <= InitialGeometry(screen, initialWidth).Left()
    ensures InitialGeometry(screen, initialWidth).Right() == screen.Right()
    ensures screen.Left() == 0 ==> InitialGeometry(screen, initialWidth) == InitialGeometryAsWritten(screen, initialWidth)
  {
  }

  /** The layout item addWidget(tile) adds: a visible widget of fixed size. */
  function TileItem(t: WindowTile): LayoutItem {
    var s := t.SizeHint();
    LayoutItem(t.id, true, s, s, s)
  }

  function TileItems(ts: seq<WindowTile>): (r: seq<LayoutItem>)
    ensures |r| == |ts| && forall k :: 0 <= k < |ts| ==> r[k] == TileItem(ts[k])
  {
    seq(|ts|, k requires 0 <= k < |ts| => TileItem(ts[k]))
  }

  lemma TileItemsTail(ts: seq<WindowTile>)
    requires |ts| > 0
    ensures TileItems(ts)[1..] == TileItems(ts[1..])
  {
  }

  lemma TileItemsSnoc(ts: seq<WindowTile>, t: WindowTile)
    ensures TileItems(ts + [t]) == TileItems(ts) + [TileItem(t)]
  {
  }

  /** The records the tiles show, in layout order. */
  function Infos(ts: seq<WindowTile>): (r: seq<WindowInfo>)
    reads set t | t in ts
    ensures |r| == |ts| && forall k :: 0 <= k < |ts| ==> r[k] == ts[k].info
  {
    seq(|ts|, k reads set t | t in ts requires 0 <= k < |ts| => ts[k].info)
  }

  /** FlowLayout's spacing rule: a negative configured value defers to the style. */
  function Spacing(configured: int, style: int): int {
    if configured >= 0 then configured else style
  }

  function TileSizes(cfg: Settings.Config, n: nat): (r: seq<Size>)
    ensures |r| == n && Uniform(r, Size(cfg.tileWidth, cfg.tileHeight))
  {
    seq(n, k => Size(cfg.tileWidth, cfg.tileHeight))
  }

  /** The rectangles the placing pass gives n tiles, all of the configured size. */
  function PanelPlacements(cfg: Settings.Config, n: nat, p: Params): seq<Rect> {
    Placements(TileSizes(cfg, n), Start(p), p)
  }

  /** totalWidthForHeight of the panel's layout when it holds n tiles. */
  function RequiredWidth(cfg: Settings.Config, style: Margins, styleH: int, styleV: int, n: nat, height: int): int {
    WidthForHeight(ContentsMargins(cfg.layoutMargin, style), TileSizes(cfg, n), true,
                   Spacing(cfg.layoutHSpacing, styleH), Spacing(cfg.layoutVSpacing, styleV), height)
  }

  /**
   * The panel never widens when the available height grows: every tile has
   * the same size, so a taller column takes at least as many tiles.
   */
  lemma PanelWidthNonIncreasing(cfg: Settings.Config, style: Margins, styleH: int, styleV: int, n: nat, h1: int, h2: int)
    requires var m := ContentsMargins(cfg.layoutMargin, style); h1 - m.top - m.bottom > 0 && h1 <= h2
    requires Max(0, cfg.tileWidth) + Spacing(cfg.layoutHSpacing, styleH) >= 0
    ensures RequiredWidth(cfg, style, styleH, styleV, n, h2) <= RequiredWidth(cfg, style, styleH, styleV, n, h1)
  {
    WidthForHeightNonIncreasing(ContentsMargins(cfg.layoutMargin, style), TileSizes(cfg, n), Size(cfg.tileWidth, cfg.tileHeight), true,
                                Spacing(cfg.layoutHSpacing, styleH), Spacing(cfg.layoutVSpacing, styleV), h1, h2);
  }

  /**
   * The existingTiles map of updateTiles: the layout's tiles keyed by the
   * handle each one shows; QMap::insert lets a later tile replace an earlier one.
   */
  function TilesByHandle(tiles: seq<WindowTile>): map<Hwnd, WindowTile>
    reads set t | t in tiles
    decreases |tiles|
  {
    if |tiles| == 0 then map[]
    else
      var last := tiles[|tiles| - 1];
      TilesByHandle(tiles[..|tiles| - 1])[last.info.hwnd := last]
  }

  lemma TilesByHandleSnoc(tiles: seq<WindowTile>, i: nat)
    requires i < |tiles|
    ensures TilesByHandle(tiles[..i + 1]) == TilesByHandle(tiles[..i])[tiles[i].info.hwnd := tiles[i]]
  {
    assert tiles[..i + 1][..i] == tiles[..i];
  }

  /** Every tile's handle is a key. */
  lemma {:induction false} TilesByHandleHasEveryTile(tiles: seq<WindowTile>)
    ensures forall k :: 0 <= k < |tiles| ==> tiles[k].info.hwnd in TilesByHandle(tiles)
    decreases |tiles|
  {
    if |tiles| > 0 {
      TilesByHandleHasEveryTile(tiles[..|tiles| - 1]);
    }
  }

  /** The tile at position k is the last one in `tiles` that shows handle h. */
  predicate LastWithHandle(tiles: seq<WindowTile>, k: int, h: Hwnd)
    reads set t | t in tiles
  {
    0 <= k < |tiles| && tiles[k].info.hwnd == h && forall j :: k < j < |tiles| ==> tiles[j].info.hwnd != h
  }

  /** Each key maps to the last tile showing that handle (QMap::insert replaces). */
  lemma {:induction false} TilesByHandleLastWins(tiles: seq<WindowTile>)
    ensures forall h :: h in TilesByHandle(tiles) ==>
              exists k :: LastWithHandle(tiles, k, h) && tiles[k] == TilesByHandle(tiles)[h]
    decreases |tiles|
  {
    if |tiles| > 0 {
      var n := |tiles| - 1;
      var init := tiles[..n];
      TilesByHandleLastWins(init);
      var m0 := TilesByHandle(init);
      var m := TilesByHandle(tiles);
      assert m == m0[tiles[n].info.hwnd := tiles[n]];
      forall h | h in m
        ensures exists k :: LastWithHandle(tiles, k, h) && tiles[k] == m[h]
      {
        if h == tiles[n].info.hwnd {
          assert LastWithHandle(tiles, n, h) && tiles[n] == m[h];
        } else {
          var k :| LastWithHandle(init, k, h) && init[k] == m0[h];
          assert LastWithHandle(tiles, k, h) && tiles[k] == m[h];
        }
      }
    }
  }

  /** Every value of the map shows its own key. */
  lemma TilesByHandleKeyed(tiles: seq<WindowTile>)
    ensures forall h :: h in TilesByHandle(tiles) ==> TilesByHandle(tiles)[h].info.hwnd == h
    ensures forall h :: h in TilesByHandle(tiles) ==> TilesByHandle(tiles)[h] in tiles
  {
    TilesByHandleLastWins(tiles);
    forall h | h in TilesByHandle(tiles)
      ensures TilesByHandle(tiles)[h].info.hwnd == h && TilesByHandle(tiles)[h] in tiles
    {
      var k :| LastWithHandle(tiles, k, h) && tiles[k] == TilesByHandle(tiles)[h];
    }
  }

  /** The handles of the first n records. */
  function HandlesUpTo(windows: seq<WindowInfo>, n: int): set<Hwnd>
    requires 0 <= n <= |windows|
  {
    set j | 0 <= j < n :: windows[j].hwnd
  }

  lemma HandlesUpToNext(windows: seq<WindowInfo>, n: int)
    requires 0 <= n < |windows|
    ensures HandlesUpTo(windows, n + 1) == HandlesUpTo(windows, n) + {windows[n].hwnd}
  {
  }

  /** The record at position k gets a reused tile: its handle was in the map and no earlier record took it. */
  predicate Reused(windows: seq<WindowInfo>, k: int, existing: map<Hwnd, WindowTile>)
    requires 0 <= k < |windows|
  {
    windows[k].hwnd in existing && windows[k].hwnd !in HandlesUpTo(windows, k)
  }

  predicate Ascending(s: seq<Hwnd>) {
    forall i, j :: 0 <= i < j < |s| ==> s[i] < s[j]
  }

  /**
   * The icon cache after clearIconCache has run once for every handle in
   * `removed`: emptied if the null handle was among them, else without them.
   */
  ghost predicate ClearedCache(before: map<Hwnd, Icon>, after: map<Hwnd, Icon>, removed: set<Hwnd>) {
    && (0 in removed ==> after.Keys == {})
    && (0 !in removed ==> forall k :: k in after <==> k in before && k !in removed)
    && (0 !in removed ==> forall k :: k in after ==> after[k] == before[k])
  }

  /** What one clearIconCache(h) call does to the cache, as IconCache.ClearIconCache promises. */
  ghost predicate ClearedOne(before: map<Hwnd, Icon>, after: map<Hwnd, Icon>, h: Hwnd) {
    && (h == 0 ==> after == map[])
    && (h != 0 ==> h !in after)
    && (h != 0 ==> forall k :: k != h ==> (k in after <==> k in before))
    && (h != 0 ==> forall k :: k != h && k in after ==> after[k] == before[k])
  }

  /** One more clearIconCache call extends the set of cleared handles. */
  lemma ClearedCacheStep(initial: map<Hwnd, Icon>, before: map<Hwnd, Icon>, after: map<Hwnd, Icon>,
                         done: set<Hwnd>, h: Hwnd)
    requires ClearedCache(initial, before, done) && ClearedOne(before, after, h)
    ensures ClearedCache(initial, after, done + {h})
  {
    if h == 0 {
      assert after.Keys == {};
    }
  }

  /** Appending the least remaining handle keeps the calls ascending and below what remains. */
  lemma AscendingSnoc(cleared: seq<Hwnd>, remaining: set<Hwnd>, h: Hwnd)
    requires Ascending(cleared) && h in remaining
    requires forall j, k :: 0 <= j < |cleared| && k in remaining ==> cleared[j] < k
    requires forall k :: k in remaining ==> h <= k
    ensures Ascending(cleared + [h])
    ensures forall j, k :: 0 <= j < |cleared + [h]| && k in remaining - {h} ==> (cleared + [h])[j] < k
  {
  }

  predicate IsLeast(h: Hwnd, s: set<Hwnd>) {
    h in s && forall k :: k in s ==> h <= k
  }

  lemma {:induction false} MinimumExists(s: set<Hwnd>)
    requires s != {}
    ensures exists h :: IsLeast(h, s)
    decreases |s|
  {
    var x :| x in s;
    if s == {x} {
      assert IsLeast(x, s);
    } else {
      var rest := s - {x};
      MinimumExists(rest);
      var y :| IsLeast(y, rest);
      var least := if x < y then x else y;
      forall k | k in s
        ensures least <= k
      {
        if k != x {
          assert k in rest;
        }
      }
      assert IsLeast(least, s);
    }
  }

  /** WM_HOTKEY, and the id the constructor registers the toggle hotkey under. */
  const WM_HOTKEY: nat := 0x0312
  const ToggleHotKeyId: nat := 1

  /** The system tray's activation reasons that matter here. */
  datatype ActivationReason = Trigger | DoubleClick | MiddleClick | Context

  class MainWindow {
    const config: Settings.Config
    /** m_flowLayout: margin and spacings from the settings, right to left. */
    const flow: FlowLayout
    /** winId(): the panel's own window handle. */
    const winId: Hwnd
    /** WindowScanner::MAX_TITLE_LENGTH, the size of the title buffer. */
    const maxTitleLength: int
    /** The tiles in m_flowLayout, in order. */
    var layout: seq<WindowTile>
    var geometry: Rect
    var visible: bool
    /** The identity the next new tile widget gets. */
    var nextWidgetId: nat

    /** The layout mirrors the tiles, and every tile was built with this window's settings. */
    predicate Valid()
      reads this, flow
    {
      && maxTitleLength >= 1
      && flow.isRTL
      && flow.margins == ContentsMargins(config.layoutMargin, flow.styleMargins)
      && flow.hSpace == config.layoutHSpacing && flow.vSpace == config.layoutVSpacing
      && flow.items == TileItems(layout)
      && (forall k :: 0 <= k < |layout| ==> layout[k].config == config)
    }

    /** The state updateTiles leaves a tile in for the record `info`. */
    predicate Placed(t: WindowTile, info: WindowInfo, foreground: Hwnd)
      reads t
    {
      && t.info == info && t.config == config
      && t.isActive == (info.hwnd == foreground)
      && t.enableShiftClickClose == config.tileEnableShiftClickClose
    }

    /**
     * MainWindow(): setupUi, then the first refreshWindows. The timer, the
     * tray icon and the hotkey registration are outside the model.
     */
    constructor (cfg: Settings.Config, style: Margins, styleH: int, styleV: int, windowId: Hwnd, titleLength: int,
                 d: Desktop, cache: IconCache, screens: seq<Screen>, primary: Screen)
      requires titleLength >= 1
      modifies cache`entries
      ensures Valid() && config == cfg && winId == windowId && maxTitleLength == titleLength && !visible
      ensures flow.styleMargins == style && flow.styleHSpacing == styleH && flow.styleVSpacing == styleV
      ensures Infos(layout) == SortWindows(Scan(d, d.order, old(cache.entries), titleLength).windows)
      ensures geometry == PanelGeometry(TargetScreen(screens, primary, cfg.targetDisplayIndex).availableGeometry,
                                        RequiredWidth(cfg, style, styleH, styleV, |layout|,
                                                      TargetScreen(screens, primary, cfg.targetDisplayIndex).availableGeometry.Height()),
                                        cfg.minimumWidth)
    {
      config := cfg;
      winId := windowId;
      maxTitleLength := titleLength;
      var layoutObject := new FlowLayout(cfg.layoutMargin, cfg.layoutHSpacing, cfg.layoutVSpacing, style, styleH, styleV);
      layoutObject.SetRTL(true);
      flow := layoutObject;
      layout := [];
      visible := false;
      nextWidgetId := 0;
      var screen := TargetScreen(screens, primary, cfg.targetDisplayIndex).geometry;
      geometry := InitialGeometryAsWritten(screen, cfg.initialWidth);
      new;
      var cleared, calls := Refresh(d, cache, screens, primary);
    }

    /** fetchAndSortWindows(): the scan, sorted by process name and then title. */
    method FetchAndSortWindows(d: Desktop, cache: IconCache) returns (windows: seq<WindowInfo>)
      requires maxTitleLength >= 1
      modifies cache`entries
      ensures windows == SortWindows(Scan(d, d.order, old(cache.entries), maxTitleLength).windows)
      ensures cache.entries == Scan(d, d.order, old(cache.entries), maxTitleLength).cache
      ensures Sorted(windows)
      ensures multiset(windows) == multiset(Scan(d, d.order, old(cache.entries), maxTitleLength).windows)
    {
      var scanned := GetWindows(d, cache, maxTitleLength);
      windows := SortWindows(scanned);
      SortWindowsCorrect(scanned);
    }

    /** The first loop of updateTiles: empty the layout into a map keyed by handle. */
    method DrainLayout() returns (existing: map<Hwnd, WindowTile>)
      requires Valid()
      modifies this`layout, flow`items
      ensures layout == [] && flow.items == []
      ensures existing == TilesByHandle(old(layout))
    {
      existing := map[];
      ghost var i := 0;
      while true
        invariant 0 <= i <= |old(layout)| && layout == old(layout)[i..]
        invariant flow.items == TileItems(layout)
        invariant existing == TilesByHandle(old(layout)[..i])
        decreases |layout|
      {
        ghost var before := flow.items;
        var item := flow.TakeAt(0);
        if item.None? {
          break;
        }
        assert flow.items == before[1..];
        TileItemsTail(layout);
        var tile := layout[0];
        existing := existing[tile.info.hwnd := tile];
        TilesByHandleSnoc(old(layout), i);
        layout := layout[1..];
        i := i + 1;
      }
      assert old(layout)[..i] == old(layout);
    }

    /** The second loop of updateTiles: one tile per record, reused when its handle is in the map. */
    method PlaceTiles(windows: seq<WindowInfo>, existing0: map<Hwnd, WindowTile>, foreground: Hwnd)
        returns (existing: map<Hwnd, WindowTile>)
      requires Valid() && layout == []
      requires forall h :: h in existing0 ==> existing0[h].info.hwnd == h && existing0[h].config == config
      modifies this`layout, this`nextWidgetId, flow`items, existing0.Values
      ensures Valid() && |layout| == |windows|
      ensures forall k :: 0 <= k < |windows| ==> Placed(layout[k], windows[k], foreground)
      ensures forall k :: 0 <= k < |windows| && Reused(windows, k, existing0) ==> layout[k] == existing0[windows[k].hwnd]
      ensures forall k :: 0 <= k < |windows| && !Reused(windows, k, existing0) ==> fresh(layout[k])
      ensures forall j, k :: 0 <= j < k < |windows| ==> layout[j] != layout[k]
      ensures existing.Keys == existing0.Keys - HandlesUpTo(windows, |windows|)
      ensures forall h :: h in existing ==> existing[h] == existing0[h] && existing[h].info.hwnd == h
    {
      existing := existing0;
      var i := 0;
      while i < |windows|
        invariant 0 <= i <= |windows| && |layout| == i && Valid()
        invariant forall h :: h in existing0 ==> existing0[h].info.hwnd == h && existing0[h].config == config
        invariant existing.Keys == existing0.Keys - HandlesUpTo(windows, i)
        invariant forall h :: h in existing ==> existing[h] == existing0[h]
        invariant forall k :: 0 <= k < i ==> Placed(layout[k], windows[k], foreground)
        invariant forall k :: 0 <= k < i && Reused(windows, k, existing0) ==> layout[k] == existing0[windows[k].hwnd]
        invariant forall k :: 0 <= k < i && !Reused(windows, k, existing0) ==> fresh(layout[k])
        invariant forall j, k :: 0 <= j < k < i ==> layout[j] != layout[k]
        invariant forall k, h :: 0 <= k < i && h in existing ==> layout[k] != existing[h]
      {
        var tile;
        tile, existing := PlaceNext(windows, i, existing0, existing, foreground);
        i := i + 1;
      }
    }

    /** One round of the second loop: the tile for windows[i], taken out of the map or created, goes last. */
    method PlaceNext(windows: seq<WindowInfo>, i: int, existing0: map<Hwnd, WindowTile>,
                     existing: map<Hwnd, WindowTile>, foreground: Hwnd)
        returns (tile: WindowTile, rest: map<Hwnd, WindowTile>)
      requires 0 <= i < |windows| && |layout| == i && Valid()
      requires forall h :: h in existing0 ==> existing0[h].info.hwnd == h && existing0[h].config == config
      requires existing.Keys == existing0.Keys - HandlesUpTo(windows, i)
      requires forall h :: h in existing ==> existing[h] == existing0[h]
      requires forall k :: 0 <= k < i ==> Placed(layout[k], windows[k], foreground)
      requires forall j, k :: 0 <= j < k < i ==> layout[j] != layout[k]
      requires forall k, h :: 0 <= k < i && h in existing ==> layout[k] != existing[h]
      modifies this`layout, this`nextWidgetId, flow`items, existing0.Values
      ensures layout == old(layout) + [tile] && Valid()
      ensures forall h :: h in existing0 ==> existing0[h].info.hwnd == h && existing0[h].config == config
      ensures rest.Keys == existing0.Keys - HandlesUpTo(windows, i + 1)
      ensures forall h :: h in rest ==> rest[h] == existing0[h]
      ensures forall k :: 0 <= k <= i ==> Placed(layout[k], windows[k], foreground)
      ensures Reused(windows, i, existing0) ==> tile == existing0[windows[i].hwnd]
      ensures !Reused(windows, i, existing0) ==> fresh(tile)
      ensures forall j, k :: 0 <= j < k <= i ==> layout[j] != layout[k]
      ensures forall k, h :: 0 <= k <= i && h in rest ==> layout[k] != rest[h]
    {
      tile, rest := ChooseTile(windows, i, existing0, existing, foreground);
      AppendTile(tile);
    }

    /** The tile for windows[i]: the map's tile for its handle, refreshed, or a new one. */
    method ChooseTile(windows: seq<WindowInfo>, i: int, existing0: map<Hwnd, WindowTile>,
                      existing: map<Hwnd, WindowTile>, foreground: Hwnd)
        returns (tile: WindowTile, rest: map<Hwnd, WindowTile>)
      requires 0 <= i < |windows| && |layout| == i
      requires forall h :: h in existing0 ==> existing0[h].info.hwnd == h && existing0[h].config == config
      requires existing.Keys == existing0.Keys - HandlesUpTo(windows, i)
      requires forall h :: h in existing ==> existing[h] == existing0[h]
      requires forall k :: 0 <= k < i ==> Placed(layout[k], windows[k], foreground)
      requires forall k, h :: 0 <= k < i && h in existing ==> layout[k] != existing[h]
      modifies this`nextWidgetId, existing0.Values
      ensures Placed(tile, windows[i], foreground)
      ensures forall h :: h in existing0 ==> existing0[h].info.hwnd == h && existing0[h].config == config
      ensures rest.Keys == existing0.Keys - HandlesUpTo(windows, i + 1)
      ensures forall h :: h in rest ==> rest[h] == existing0[h] && rest[h] != tile
      ensures forall k :: 0 <= k < i ==> Placed(layout[k], windows[k], foreground) && layout[k] != tile
      ensures forall k, h :: 0 <= k < i && h in rest ==> layout[k] != rest[h]
      ensures Reused(windows, i, existing0) ==> tile == existing0[windows[i].hwnd]
      ensures !Reused(windows, i, existing0) ==> fresh(tile)
    {
      var info := windows[i];
      HandlesUpToNext(windows, i);
      if info.hwnd in existing {
        tile := existing[info.hwnd];
        assert forall h :: h in existing0 && h != info.hwnd ==> existing0[h] != tile;
        rest := existing - {info.hwnd};
        assert rest.Keys == existing.Keys - {info.hwnd};
        RefreshTile(tile, info, foreground);
      } else {
        assert existing0.Keys - HandlesUpTo(windows, i) == existing0.Keys - HandlesUpTo(windows, i + 1);
        rest := existing;
        tile := NewTile(info, foreground);
      }
    }

    /** addWidget(tile): the tile goes last, in the tile list and in the layout's items. */
    method AppendTile(tile: WindowTile)
      requires Valid() && tile.config == config
      modifies this`layout, flow`items
      ensures layout == old(layout) + [tile] && Valid()
    {
      flow.AddItem(TileItem(tile));
      TileItemsSnoc(layout, tile);
      layout := layout + [tile];
    }

    /** A reused tile: setInfo, then the shift-click setting and the active state. */
    method RefreshTile(tile: WindowTile, info: WindowInfo, foreground: Hwnd)
      requires tile.config == config
      modifies tile
      ensures Placed(tile, info, foreground)
    {
      tile.SetInfo(info);
      tile.SetEnableShiftClickClose(config.tileEnableShiftClickClose);
      tile.SetActive(info.hwnd == foreground);
    }

    /** A new tile for a window without one, with the next widget identity. */
    method NewTile(info: WindowInfo, foreground: Hwnd) returns (tile: WindowTile)
      modifies this`nextWidgetId
      ensures fresh(tile) && Placed(tile, info, foreground)
    {
      tile := new WindowTile(info, config, nextWidgetId);
      nextWidgetId := nextWidgetId + 1;
      tile.SetEnableShiftClickClose(config.tileEnableShiftClickClose);
      tile.SetActive(info.hwnd == foreground);
    }

    /** The last loop of updateTiles: the unused tiles, in ascending handle order, each clearing its icon. */
    method DeleteUnused(existing: map<Hwnd, WindowTile>, cache: IconCache) returns (cleared: seq<Hwnd>)
      requires forall h :: h in existing ==> existing[h].info.hwnd == h
      modifies cache`entries
      ensures Ascending(cleared)
      ensures forall h :: h in cleared <==> h in existing
      ensures ClearedCache(old(cache.entries), cache.entries, existing.Keys)
    {
      var remaining := existing.Keys;
      cleared := [];
      ghost var done: set<Hwnd> := {};
      while remaining != {}
        invariant remaining !! done && remaining + done == existing.Keys
        invariant forall h :: h in cleared <==> h in done
        invariant Ascending(cleared)
        invariant forall j, h :: 0 <= j < |cleared| && h in remaining ==> cleared[j] < h
        invariant ClearedCache(old(cache.entries), cache.entries, done)
        decreases remaining
      {
        ghost var before := cache.entries;
        var h := DeleteLeast(existing, remaining, cache);
        ClearedCacheStep(old(cache.entries), before, cache.entries, done, h);
        AscendingSnoc(cleared, remaining, h);
        cleared := cleared + [h];
        done := done + {h};
        remaining := remaining - {h};
      }
    }

    /** One round of the last loop: the tile of the least remaining handle goes, with its cached icon. */
    method DeleteLeast(existing: map<Hwnd, WindowTile>, remaining: set<Hwnd>, cache: IconCache) returns (h: Hwnd)
      requires remaining != {} && remaining <= existing.Keys
      requires forall k :: k in existing ==> existing[k].info.hwnd == k
      modifies cache`entries
      ensures h in remaining && forall k :: k in remaining ==> h <= k
      ensures ClearedOne(old(cache.entries), cache.entries, h)
    {
      MinimumExists(remaining);
      h :| IsLeast(h, remaining);
      cache.ClearIconCache(existing[h].info.hwnd);
    }

    /**
     * The first two loops of updateTiles: the layout is emptied into a map by
     * handle, then refilled with one tile per record. The map's leftovers are returned.
     */
    method RebuildLayout(windows: seq<WindowInfo>, foreground: Hwnd) returns (existing: map<Hwnd, WindowTile>)
      requires Valid()
      modifies this`layout, this`nextWidgetId, flow`items, (set t | t in layout)
      ensures Valid() && |layout| == |windows|
      ensures forall k :: 0 <= k < |windows| ==> Placed(layout[k], windows[k], foreground)
      ensures forall k :: 0 <= k < |windows| && Reused(windows, k, old(TilesByHandle(layout))) ==>
                layout[k] == old(TilesByHandle(layout))[windows[k].hwnd]
      ensures forall k :: 0 <= k < |windows| && !Reused(windows, k, old(TilesByHandle(layout))) ==> fresh(layout[k])
      ensures forall j, k :: 0 <= j < k < |windows| ==> layout[j] != layout[k]
      ensures existing.Keys == old(TilesByHandle(layout)).Keys - HandlesUpTo(windows, |windows|)
      ensures forall h :: h in existing ==> existing[h].info.hwnd == h
    {
      TilesByHandleKeyed(layout);
      existing := DrainLayout();
      existing := PlaceTiles(windows, existing, foreground);
    }

    /**
     * updateTiles(windows): rebuild the layout, reading the foreground window
     * once, then delete the tiles left over. `cleared` lists the
     * clearIconCache calls, in order.
     */
    method UpdateTiles(windows: seq<WindowInfo>, d: Desktop, cache: IconCache) returns (cleared: seq<Hwnd>)
      requires Valid()
      modifies this`layout, this`nextWidgetId, flow`items, (set t | t in layout), cache`entries
      ensures Valid() && |layout| == |windows|
      ensures forall k :: 0 <= k < |windows| ==> Placed(layout[k], windows[k], d.foreground)
      ensures forall k :: 0 <= k < |windows| && Reused(windows, k, old(TilesByHandle(layout))) ==>
                layout[k] == old(TilesByHandle(layout))[windows[k].hwnd]
      ensures forall k :: 0 <= k < |windows| && !Reused(windows, k, old(TilesByHandle(layout))) ==> fresh(layout[k])
      ensures forall j, k :: 0 <= j < k < |windows| ==> layout[j] != layout[k]
      ensures Ascending(cleared)
      ensures (set h | h in cleared) == old(TilesByHandle(layout)).Keys - HandlesUpTo(windows, |windows|)
      ensures ClearedCache(old(cache.entries), cache.entries, set h | h in cleared)
    {
      var foregroundHwnd := d.foreground;
      var existing := RebuildLayout(windows, foregroundHwnd);
      cleared := DeleteUnused(existing, cache);
      assert existing.Keys == set h | h in cleared;
    }

    /**
     * adjustWindowGeometry(): against the right edge of the target screen's
     * available area, as wide as the tiles need; then the layout is placed
     * in the new client rectangle.
     */
    method AdjustWindowGeometry(screens: seq<Screen>, primary: Screen) returns (calls: seq<GeometryCall>)
      requires Valid()
      modifies this`geometry, flow`geometry
      ensures Valid()
      ensures var available := TargetScreen(screens, primary, config.targetDisplayIndex).availableGeometry;
              geometry == PanelGeometry(available,
                                        RequiredWidth(config, flow.styleMargins, flow.styleHSpacing, flow.styleVSpacing, |layout|, available.Height()),
                                        config.minimumWidth)
      ensures flow.geometry == RectXYWH(0, 0, geometry.Width(), geometry.Height())
      ensures |calls| == |layout|
      ensures forall k :: 0 <= k < |layout| ==>
                calls[k] == GeometryCall(layout[k].id, PanelPlacements(config, |layout|, flow.PassParams(flow.geometry))[k])
    {
      var available := TargetScreen(screens, primary, config.targetDisplayIndex).availableGeometry;
      var requiredWidth := flow.TotalWidthForHeight(available.Height());
      assert ItemSizes(flow.items, true) == TileSizes(config, |layout|);
      assert ItemSizes(flow.items, false) == TileSizes(config, |layout|);
      if requiredWidth < config.minimumWidth {
        requiredWidth := config.minimumWidth;
      }
      geometry := RectXYWH(available.Left() + available.Width() - requiredWidth, available.Top(),
                           requiredWidth, available.Height());
      calls := flow.SetGeometry(RectXYWH(0, 0, geometry.Width(), geometry.Height()));
    }

    /** refreshWindows(): fetch and sort, update the tiles, adjust the geometry. */
    method Refresh(d: Desktop, cache: IconCache, screens: seq<Screen>, primary: Screen)
        returns (cleared: seq<Hwnd>, calls: seq<GeometryCall>)
      requires Valid()
      modifies this`layout, this`nextWidgetId, this`geometry, flow`items, flow`geometry
      modifies (set t | t in layout), cache`entries
      ensures Valid()
      ensures Infos(layout) == SortWindows(Scan(d, d.order, old(cache.entries), maxTitleLength).windows)
      ensures Sorted(Infos(layout))
      ensures multiset(Infos(layout)) == multiset(Scan(d, d.order, old(cache.entries), maxTitleLength).windows)
      ensures var available := TargetScreen(screens, primary, config.targetDisplayIndex).availableGeometry;
              geometry == PanelGeometry(available,
                                        RequiredWidth(config, flow.styleMargins, flow.styleHSpacing, flow.styleVSpacing, |layout|, available.Height()),
                                        config.minimumWidth)
      ensures flow.geometry == RectXYWH(0, 0, geometry.Width(), geometry.Height())
      ensures |calls| == |layout|
      ensures forall k :: 0 <= k < |layout| ==>
                calls[k] == GeometryCall(layout[k].id, PanelPlacements(config, |layout|, flow.PassParams(flow.geometry))[k])
    {
      var windows := FetchAndSortWindows(d, cache);
      cleared := UpdateTiles(windows, d, cache);
      assert Infos(layout) == windows;
      calls := AdjustWindowGeometry(screens, primary);
    }

    /** activateWindow(hwnd), the slot a tile's `activated` signal reaches. */
    method ActivateWindow(d: Desktop, hwnd: Hwnd) returns (result: CallResult)
      ensures result == Win32.ActivateWindow(d, hwnd)
      ensures result.ok <==> IsValidWindow(d, hwnd) && d.windows[hwnd].foregroundOk
    {
      result := Win32.ActivateWindow(d, hwnd);
    }

    /**
     * closeWindow(hwnd): post WM_CLOSE, drop the cached icon whatever the
     * outcome, and ask for a refresh after the configured delay.
     */
    method CloseWindow(d: Desktop, hwnd: Hwnd, cache: IconCache) returns (result: CallResult, refreshDelayMs: int)
      modifies cache`entries
      ensures result == Win32.CloseWindow(d, hwnd)
      ensures refreshDelayMs == config.closeRefreshDelayMs
      ensures ClearedCache(old(cache.entries), cache.entries, {hwnd})
    {
      result := Win32.CloseWindow(d, hwnd);
      cache.ClearIconCache(hwnd);
      refreshDelayMs := config.closeRefreshDelayMs;
    }

    /** toggleVisibility(): hide a shown panel; show a hidden one and bring it to the foreground. */
    method ToggleVisibility(d: Desktop) returns (activation: Option<CallResult>)
      modifies this`visible
      ensures visible == !old(visible)
      ensures old(visible) ==> activation == None
      ensures !old(visible) ==> activation == Some(Win32.ActivateWindow(d, winId))
    {
      if visible {
        visible := false;
        activation := None;
      } else {
        visible := true;
        activation := Some(Win32.ActivateWindow(d, winId));
      }
    }

    /**
     * nativeEvent(eventType, message, result): the toggle hotkey toggles the
     * panel and is reported handled; every other message goes to the base class.
     */
    method NativeEvent(message: nat, wParam: nat, d: Desktop) returns (handled: bool, activation: Option<CallResult>)
      modifies this`visible
      ensures handled <==> message == WM_HOTKEY && wParam == ToggleHotKeyId
      ensures handled ==> visible == !old(visible)
      ensures handled && !old(visible) ==> activation == Some(Win32.ActivateWindow(d, winId))
      ensures !(handled && !old(visible)) ==> activation == None
      ensures !handled ==> visible == old(visible)
    {
      handled := false;
      activation := None;
      if message == WM_HOTKEY && wParam == ToggleHotKeyId {
        activation := ToggleVisibility(d);
        handled := true;
      }
    }

    /** onTrayIconActivated(reason): a single click shows the panel and brings it forward. */
    method OnTrayIconActivated(reason: ActivationReason, d: Desktop) returns (activation: Option<CallResult>)
      modifies this`visible
      ensures reason == Trigger ==> visible && activation == Some(Win32.ActivateWindow(d, winId))
      ensures reason != Trigger ==> visible == old(visible) && activation == None
    {
      activation := None;
      if reason == Trigger {
        visible := true;
        activation := Some(Win32.ActivateWindow(d, winId));
      }
    }
  }

  /** Tiles of a refresh never offer the launch action: scanned records carry no process path. */
  lemma ScannedTilesCannotLaunch(d: Desktop, cache0: map<Hwnd, Icon>, maxTitleLength: int, k: int)
    requires maxTitleLength >= 1
    requires 0 <= k < |SortWindows(Scan(d, d.order, cache0, maxTitleLength).windows)|
    ensures SortWindows(Scan(d, d.order, cache0, maxTitleLength).windows)[k].processPath == []
  {
    var scanned := Scan(d, d.order, cache0, maxTitleLength).windows;
    ScanRecordsFaithful(d, d.order, cache0, maxTitleLength);
    SortWindowsCorrect(scanned);
    var sorted := SortWindows(scanned);
    assert sorted[k] in multiset(scanned);
  }
}
