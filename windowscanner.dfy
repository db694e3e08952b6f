/**
 * WindowScanner (src/windowscanner.cpp): EnumWindows visits the desktop's
 * top-level windows in order; the callback keeps the relevant ones with a
 * real title and appends one WindowInfo each. Scan is the whole pass as a
 * function of the handle sequence and the icon cache it starts from.
 */
module WindowScanner {
  import opened Common
  import opened Strings
  import opened WindowRecords
  import opened Win32

  const WS_EX_TOOLWINDOW: bv64 := 0x80
  const WS_EX_APPWINDOW: bv64 := 0x40000

  /** The desktop window's title, "Program Manager" in UTF-16, which the scan skips. */
  const PROGRAM_MANAGER: Text := [80, 114, 111, 103, 114, 97, 109, 32, 77, 97, 110, 97, 103, 101, 114]

  /**
   * isWindowRelevant: visible, not a tool window unless it is also flagged
   * as an app window, and a nonzero title length.
   */
  predicate IsWindowRelevant(w: OsWindow) {
    w.visible
    && !((w.exStyle & WS_EX_TOOLWINDOW) != 0 && (w.exStyle & WS_EX_APPWINDOW) == 0)
    && w.textLength != 0
  }

  /** A handle the desktop does not know is not visible, hence not relevant. */
  predicate Relevant(d: Desktop, hwnd: Hwnd) {
    hwnd in d.windows && IsWindowRelevant(d.windows[hwnd])
  }

  /** The app-window flag lets a tool window through; without it a tool window is dropped. */
  lemma ToolWindowRule(w: OsWindow)
    requires w.visible && w.textLength != 0 && (w.exStyle & WS_EX_TOOLWINDOW) != 0
    ensures IsWindowRelevant(w) <==> (w.exStyle & WS_EX_APPWINDOW) != 0
  {
  }

  /** Whatever else an invisible window or one with an empty title reports, it is dropped. */
  lemma InvisibleOrUntitledIsIrrelevant(w: OsWindow)
    requires !w.visible || w.textLength == 0
    ensures !IsWindowRelevant(w)
  {
  }

  function Title(d: Desktop, hwnd: Hwnd, maxTitleLength: int): Text
    requires maxTitleLength >= 1
  {
    GetWindowTitle(d, hwnd, maxTitleLength).title
  }

  /** The callback's filter: relevant, a non-empty fetched title, and not the desktop itself. */
  predicate Accepted(d: Desktop, hwnd: Hwnd, maxTitleLength: int)
    requires maxTitleLength >= 1
  {
    Relevant(d, hwnd) && Title(d, hwnd, maxTitleLength) != [] && Title(d, hwnd, maxTitleLength) != PROGRAM_MANAGER
  }

  /** An accepted window's title is the start of its text, at most maxTitleLength - 1 units long. */
  lemma AcceptedTitle(d: Desktop, hwnd: Hwnd, maxTitleLength: int)
    requires maxTitleLength >= 1 && Accepted(d, hwnd, maxTitleLength)
    ensures IsValidWindow(d, hwnd)
    ensures var text := d.windows[hwnd].text;
            Title(d, hwnd, maxTitleLength) == text[..Min(|text|, maxTitleLength - 1)]
    ensures 0 < |Title(d, hwnd, maxTitleLength)| < maxTitleLength
  {
  }

  /** The record the callback appends for an accepted window; the path is never filled in. */
  function MakeRecord(d: Desktop, hwnd: Hwnd, cache: map<Hwnd, Icon>, maxTitleLength: int): WindowInfo
    requires maxTitleLength >= 1 && hwnd in d.windows
  {
    var pid := d.windows[hwnd].processId;
    WindowInfo(hwnd, Title(d, hwnd, maxTitleLength), IconLookup(cache, d, hwnd).icon,
               GetProcessName(ProcessOf(d, pid)).name, pid, [])
  }

  /** The list built so far and the icon cache. */
  datatype ScanState = ScanState(windows: seq<WindowInfo>, cache: map<Hwnd, Icon>)

  /** One callback: append a record for an accepted window (filling the icon cache), else nothing. */
  function Visit(s: ScanState, d: Desktop, hwnd: Hwnd, maxTitleLength: int): ScanState
    requires maxTitleLength >= 1
  {
    if Accepted(d, hwnd, maxTitleLength)
    then ScanState(s.windows + [MakeRecord(d, hwnd, s.cache, maxTitleLength)], IconLookup(s.cache, d, hwnd).cache)
    else s
  }

  /** The callbacks over the handles hs, in order, from an empty list and the given cache. */
  function Scan(d: Desktop, hs: seq<Hwnd>, cache0: map<Hwnd, Icon>, maxTitleLength: int): ScanState
    requires maxTitleLength >= 1
    decreases |hs|
  {
    if |hs| == 0 then ScanState([], cache0)
    else Visit(Scan(d, hs[..|hs| - 1], cache0, maxTitleLength), d, hs[|hs| - 1], maxTitleLength)
  }

  /** Reference filter: the accepted handles of hs, in order. */
  function AcceptedHandles(d: Desktop, hs: seq<Hwnd>, maxTitleLength: int): seq<Hwnd>
    requires maxTitleLength >= 1
    decreases |hs|
  {
    if |hs| == 0 then []
    else (if Accepted(d, hs[0], maxTitleLength) then [hs[0]] else []) + AcceptedHandles(d, hs[1..], maxTitleLength)
  }

  function Handles(ws: seq<WindowInfo>): (r: seq<Hwnd>)
    ensures |r| == |ws| && forall i :: 0 <= i < |ws| ==> r[i] == ws[i].hwnd
  {
    seq(|ws|, i requires 0 <= i < |ws| => ws[i].hwnd)
  }

  predicate Distinct(s: seq<Hwnd>) {
    forall i, j :: 0 <= i < j < |s| ==> s[i] != s[j]
  }

  lemma {:induction false} AcceptedHandlesSnoc(d: Desktop, hs: seq<Hwnd>, h: Hwnd, maxTitleLength: int)
    requires maxTitleLength >= 1
    ensures AcceptedHandles(d, hs + [h], maxTitleLength)
            == AcceptedHandles(d, hs, maxTitleLength) + (if Accepted(d, h, maxTitleLength) then [h] else [])
    decreases |hs|
  {
    if |hs| == 0 {
      assert AcceptedHandles(d, [h], maxTitleLength) == (if Accepted(d, h, maxTitleLength) then [h] else []) + AcceptedHandles(d, [], maxTitleLength);
    } else {
      assert (hs + [h])[1..] == hs[1..] + [h];
      AcceptedHandlesSnoc(d, hs[1..], h, maxTitleLength);
    }
  }

  /** The scan keeps exactly the accepted handles, in enumeration order. */
  lemma {:induction false} ScanKeepsAcceptedInOrder(d: Desktop, hs: seq<Hwnd>, cache0: map<Hwnd, Icon>, maxTitleLength: int)
    requires maxTitleLength >= 1
    ensures Handles(Scan(d, hs, cache0, maxTitleLength).windows) == AcceptedHandles(d, hs, maxTitleLength)
    decreases |hs|
  {
    if |hs| > 0 {
      var init := hs[..|hs| - 1];
      ScanKeepsAcceptedInOrder(d, init, cache0, maxTitleLength);
      assert init + [hs[|hs| - 1]] == hs;
      AcceptedHandlesSnoc(d, init, hs[|hs| - 1], maxTitleLength);
    }
  }

  lemma {:induction false} AcceptedHandlesFrom(d: Desktop, hs: seq<Hwnd>, maxTitleLength: int)
    requires maxTitleLength >= 1
    ensures forall h :: h in AcceptedHandles(d, hs, maxTitleLength) ==> h in hs && Accepted(d, h, maxTitleLength)
    decreases |hs|
  {
    if |hs| > 0 {
      AcceptedHandlesFrom(d, hs[1..], maxTitleLength);
    }
  }

  /** An enumeration that lists each handle once yields a list with each handle once. */
  lemma {:induction false} DistinctHandlesStayDistinct(d: Desktop, hs: seq<Hwnd>, maxTitleLength: int)
    requires maxTitleLength >= 1 && Distinct(hs)
    ensures Distinct(AcceptedHandles(d, hs, maxTitleLength))
    decreases |hs|
  {
    if |hs| > 0 {
      assert Distinct(hs[1..]) by {
        forall i, j | 0 <= i < j < |hs[1..]| ensures hs[1..][i] != hs[1..][j] {
          assert hs[1..][i] == hs[i + 1] && hs[1..][j] == hs[j + 1];
        }
      }
      DistinctHandlesStayDistinct(d, hs[1..], maxTitleLength);
      AcceptedHandlesFrom(d, hs[1..], maxTitleLength);
      assert hs[0] !in hs[1..] by {
        forall j | 0 <= j < |hs[1..]| ensures hs[1..][j] != hs[0] {
          assert hs[1..][j] == hs[j + 1];
        }
      }
    }
  }

  /**
   * What the cache holds after a scan: every key it started with, unchanged,
   * and for any other key a valid window's fallback icon.
   */
  predicate CacheExtends(c: map<Hwnd, Icon>, cache0: map<Hwnd, Icon>, d: Desktop) {
    (forall k :: k in cache0 ==> k in c && c[k] == cache0[k])
    && (forall k :: k in c && k !in cache0 ==> IsValidWindow(d, k) && c[k] == MissIcon(d.windows[k]))
  }

  /** What every record of a scan says about its window. */
  predicate RecordFaithful(r: WindowInfo, d: Desktop, cache0: map<Hwnd, Icon>, maxTitleLength: int)
    requires maxTitleLength >= 1
  {
    Accepted(d, r.hwnd, maxTitleLength)
    && r.title == Title(d, r.hwnd, maxTitleLength)
    && r.processId == d.windows[r.hwnd].processId
    && r.processName == GetProcessName(ProcessOf(d, r.processId)).name
    && r.processPath == []
    && r.icon == (if r.hwnd in cache0 then cache0[r.hwnd] else MissIcon(d.windows[r.hwnd]))
  }

  /**
   * Every record of a scan is an accepted window with its own title, process
   * and icon; the icon is the cached one if there was one, else what the miss produces.
   */
  lemma {:induction false} ScanRecordsFaithful(d: Desktop, hs: seq<Hwnd>, cache0: map<Hwnd, Icon>, maxTitleLength: int)
    requires maxTitleLength >= 1
    ensures var s := Scan(d, hs, cache0, maxTitleLength);
            CacheExtends(s.cache, cache0, d)
            && forall i :: 0 <= i < |s.windows| ==> RecordFaithful(s.windows[i], d, cache0, maxTitleLength)
    decreases |hs|
  {
    if |hs| > 0 {
      var h := hs[|hs| - 1];
      ScanRecordsFaithful(d, hs[..|hs| - 1], cache0, maxTitleLength);
      var prev := Scan(d, hs[..|hs| - 1], cache0, maxTitleLength);
      if Accepted(d, h, maxTitleLength) {
        var rec := MakeRecord(d, h, prev.cache, maxTitleLength);
        assert RecordFaithful(rec, d, cache0, maxTitleLength);
        assert Scan(d, hs, cache0, maxTitleLength).windows == prev.windows + [rec];
      }
    }
  }

  /** One EnumWindowsProc callback; it returns TRUE on every path. */
  method EnumWindowsProc(d: Desktop, hwnd: Hwnd, list: seq<WindowInfo>, cache: IconCache, maxTitleLength: int)
      returns (continueEnumeration: bool, result: seq<WindowInfo>)
    requires maxTitleLength >= 1
    modifies cache`entries
    ensures continueEnumeration
    ensures Visit(ScanState(list, old(cache.entries)), d, hwnd, maxTitleLength) == ScanState(result, cache.entries)
  {
    result := list;
    if !(hwnd in d.windows && IsWindowRelevant(d.windows[hwnd])) {
      return true, result;
    }
    var title := GetWindowTitle(d, hwnd, maxTitleLength);
    if title.title == [] {
      return true, result;
    }
    if title.title == PROGRAM_MANAGER {
      return true, result;
    }
    var processId := d.windows[hwnd].processId;
    var processName := GetProcessName(ProcessOf(d, processId)).name;
    var icon, _, _ := cache.GetWindowIcon(d, hwnd);
    result := list + [WindowInfo(hwnd, title.title, icon, processName, processId, [])];
    return true, result;
  }

  /** WindowScanner::getWindows: EnumWindows over the desktop, stopping only if a callback says so. */
  method GetWindows(d: Desktop, cache: IconCache, maxTitleLength: int) returns (windows: seq<WindowInfo>)
    requires maxTitleLength >= 1
    modifies cache`entries
    ensures Scan(d, d.order, old(cache.entries), maxTitleLength) == ScanState(windows, cache.entries)
  {
    windows := [];
    var i := 0;
    var continueEnumeration := true;
    while i < |d.order| && continueEnumeration
      invariant 0 <= i <= |d.order| && continueEnumeration
      invariant Scan(d, d.order[..i], old(cache.entries), maxTitleLength) == ScanState(windows, cache.entries)
    {
      continueEnumeration, windows := EnumWindowsProc(d, d.order[i], windows, cache, maxTitleLength);
      assert d.order[..i + 1][..i] == d.order[..i];
      i := i + 1;
    }
    assert d.order[..i] == d.order;
  }
}
