/**
 * Win32Utils (src/win32utils.cpp) over an abstract desktop. Every Win32
 * call the source makes (IsWindow, SendMessage(WM_GETICON), GetClassLongPtr,
 * GetWindowTextW, OpenProcess and friends, ShowWindow, SetForegroundWindow,
 * PostMessage) is read from the OsWindow / ProcessQuery records; what the
 * model computes is the decision logic around them: defaults, success
 * flags, which calls are made and what gets logged. The static icon cache
 * is an IconCache object.
 */
module Win32 {
  import opened Common
  import opened Strings
  import opened WindowRecords

  /** ERROR_ACCESS_DENIED. */
  const ERROR_ACCESS_DENIED: nat := 5

  /** The process name reported when it cannot be read. */
  const UNKNOWN: Text := Utf16("Unknown")

  /** What a top-level window answers to the queries the program makes. */
  datatype OsWindow = OsWindow(
    visible: bool,
    exStyle: bv64,
    textLength: int,
    text: Text,
    textError: nat,
    processId: nat,
    minimized: bool,
    bigIcon: nat,
    smallIcon: nat,
    classIcon: nat,
    classIconError: nat,
    classSmallIcon: nat,
    classSmallIconError: nat,
    iconConverts: bool,
    restoreOk: bool,
    restoreError: nat,
    foregroundOk: bool,
    foregroundError: nat,
    postOk: bool,
    postError: nat)

  /**
   * The outcome of each step of getProcessName for one process id: whether
   * OpenProcess succeeded (or the error it left), EnumProcessModules,
   * GetModuleBaseNameW (None when it copied nothing) and CloseHandle.
   */
  datatype ProcessQuery = ProcessQuery(
    openOk: bool,
    openError: nat,
    modulesOk: bool,
    modulesError: nat,
    baseName: Option<Text>,
    baseNameError: nat,
    closeOk: bool,
    closeError: nat)

  /** The windows in EnumWindows order, what each answers, the processes and the foreground window. */
  datatype Desktop = Desktop(
    order: seq<Hwnd>,
    windows: map<Hwnd, OsWindow>,
    processes: map<nat, ProcessQuery>,
    foreground: Hwnd)

  /** A line the program writes with qWarning. */
  datatype LogEntry =
    | ApiError(functionName: string, errorCode: nat)
    | InvalidHandle(operation: string)

  /** The state-changing Win32 calls activateWindow and closeWindow make. */
  datatype WinCall = ShowRestore(hwnd: Hwnd) | SetForeground(hwnd: Hwnd) | PostClose(hwnd: Hwnd)

  /** logWin32Error(functionName, errorCode): a line only for a nonzero code. */
  function LogWin32Error(functionName: string, errorCode: nat): (log: seq<LogEntry>)
    ensures |log| <= 1
    ensures log != [] <==> errorCode != 0
    ensures log != [] ==> log[0] == ApiError(functionName, errorCode)
  {
    if errorCode != 0 then [ApiError(functionName, errorCode)] else []
  }

  /** isValidWindow: not null, and IsWindow says it exists. */
  predicate IsValidWindow(d: Desktop, hwnd: Hwnd) {
    hwnd != 0 && hwnd in d.windows
  }

  /**
   * A process id the desktop does not list cannot be opened; OpenProcess
   * then fails with ERROR_INVALID_PARAMETER (87).
   */
  function ProcessOf(d: Desktop, pid: nat): ProcessQuery {
    if pid in d.processes then d.processes[pid]
    else ProcessQuery(false, 87, false, 0, None, 0, false, 0)
  }

  datatype ProcessNameResult = ProcessNameResult(name: Text, closeCalls: nat, log: seq<LogEntry>)

  /**
   * getProcessName(processId): "Unknown" unless opening the process, listing
   * its modules and reading the base name all succeed. The handle is closed
   * exactly when it was opened.
   */
  function GetProcessName(q: ProcessQuery): (r: ProcessNameResult)
    ensures r.name == if q.openOk && q.modulesOk && q.baseName.Some? then q.baseName.value else UNKNOWN
    ensures r.closeCalls == if q.openOk then 1 else 0
    ensures !q.openOk ==> r.log == if q.openError == ERROR_ACCESS_DENIED then [] else LogWin32Error("OpenProcess", q.openError)
    ensures q.openOk ==> (r.log ==
              (if !q.modulesOk then LogWin32Error("EnumProcessModules", q.modulesError)
               else if q.baseName.None? then LogWin32Error("GetModuleBaseNameW", q.baseNameError)
               else [])
              + (if q.closeOk then [] else LogWin32Error("CloseHandle", q.closeError)))
  {
    if !q.openOk then
      ProcessNameResult(UNKNOWN, 0, if q.openError != ERROR_ACCESS_DENIED then LogWin32Error("OpenProcess", q.openError) else [])
    else
      var named :=
        if !q.modulesOk then ProcessNameResult(UNKNOWN, 1, LogWin32Error("EnumProcessModules", q.modulesError))
        else if q.baseName.Some? then ProcessNameResult(q.baseName.value, 1, [])
        else ProcessNameResult(UNKNOWN, 1, LogWin32Error("GetModuleBaseNameW", q.baseNameError));
      named.(log := named.log + if q.closeOk then [] else LogWin32Error("CloseHandle", q.closeError))
  }

  /** A process the caller may not open (a protected system process) gives "Unknown", silently. */
  lemma ProtectedProcessIsUnknown(q: ProcessQuery)
    requires !q.openOk && q.openError == ERROR_ACCESS_DENIED
    ensures GetProcessName(q) == ProcessNameResult(UNKNOWN, 0, [])
  {
  }

  datatype TitleResult = TitleResult(title: Text, success: bool, log: seq<LogEntry>)

  /**
   * getWindowTitle(hwnd, &success) with a buffer of maxLength code units:
   * GetWindowTextW copies at most maxLength - 1 of them.
   */
  function GetWindowTitle(d: Desktop, hwnd: Hwnd, maxLength: int): (r: TitleResult)
    requires maxLength >= 1
    ensures r.success <==> IsValidWindow(d, hwnd) && |d.windows[hwnd].text| > 0 && maxLength > 1
    ensures !r.success ==> r.title == []
    ensures r.success ==> r.title == d.windows[hwnd].text[..Min(|d.windows[hwnd].text|, maxLength - 1)]
    ensures r.success ==> 0 < |r.title| < maxLength && r.log == []
    ensures !IsValidWindow(d, hwnd) ==> r.log == [InvalidHandle("getWindowTitle")]
  {
    if !IsValidWindow(d, hwnd) then TitleResult([], false, [InvalidHandle("getWindowTitle")])
    else
      var w := d.windows[hwnd];
      var length := Min(|w.text|, maxLength - 1);
      if length == 0 then TitleResult([], false, LogWin32Error("GetWindowTextW", w.textError))
      else TitleResult(w.text[..length], true, [])
  }

  datatype CallResult = CallResult(ok: bool, calls: seq<WinCall>, log: seq<LogEntry>)

  /**
   * activateWindow(hwnd): restores a minimised window first (a failed
   * restore is logged and ignored), then asks for the foreground.
   */
  function ActivateWindow(d: Desktop, hwnd: Hwnd): (r: CallResult)
    ensures r.ok <==> IsValidWindow(d, hwnd) && d.windows[hwnd].foregroundOk
    ensures !IsValidWindow(d, hwnd) ==> r.calls == [] && r.log == [InvalidHandle("activateWindow")]
    ensures IsValidWindow(d, hwnd) ==>
              r.calls == (if d.windows[hwnd].minimized then [ShowRestore(hwnd)] else []) + [SetForeground(hwnd)]
  {
    if !IsValidWindow(d, hwnd) then CallResult(false, [], [InvalidHandle("activateWindow")])
    else
      var w := d.windows[hwnd];
      var restore := if w.minimized then [ShowRestore(hwnd)] else [];
      var restoreLog := if w.minimized && !w.restoreOk then LogWin32Error("ShowWindow(SW_RESTORE)", w.restoreError) else [];
      if !w.foregroundOk then
        CallResult(false, restore + [SetForeground(hwnd)], restoreLog + LogWin32Error("SetForegroundWindow", w.foregroundError))
      else
        CallResult(true, restore + [SetForeground(hwnd)], restoreLog)
  }

  /** closeWindow(hwnd): posts WM_CLOSE to a valid window. */
  function CloseWindow(d: Desktop, hwnd: Hwnd): (r: CallResult)
    ensures r.ok <==> IsValidWindow(d, hwnd) && d.windows[hwnd].postOk
    ensures r.calls == if IsValidWindow(d, hwnd) then [PostClose(hwnd)] else []
    ensures !IsValidWindow(d, hwnd) ==> r.log == [InvalidHandle("closeWindow")]
  {
    if !IsValidWindow(d, hwnd) then CallResult(false, [], [InvalidHandle("closeWindow")])
    else
      var w := d.windows[hwnd];
      if !w.postOk then CallResult(false, [PostClose(hwnd)], LogWin32Error("PostMessage(WM_CLOSE)", w.postError))
      else CallResult(true, [PostClose(hwnd)], [])
  }

  /** The icon queries of getWindowIcon, in the order it tries them. */
  datatype IconQuery = BigIconMessage | SmallIconMessage | ClassIcon | ClassSmallIcon

  const IconQueries: seq<IconQuery> := [BigIconMessage, SmallIconMessage, ClassIcon, ClassSmallIcon]

  /** What each query answers (0 is a null HICON). */
  function IconAnswers(w: OsWindow): seq<nat> {
    [w.bigIcon, w.smallIcon, w.classIcon, w.classSmallIcon]
  }

  /** The index of the first non-null handle, or |hs| when there is none. */
  function FirstNonNull(hs: seq<nat>): (i: nat)
    ensures i <= |hs|
    ensures forall k :: 0 <= k < i ==> hs[k] == 0
    ensures i < |hs| ==> hs[i] != 0
    decreases |hs|
  {
    if |hs| == 0 then 0 else if hs[0] != 0 then 0 else 1 + FirstNonNull(hs[1..])
  }

  /**
   * The icon a cache miss produces: the first query that answers wins, and
   * its handle becomes an icon when QImage::fromHICON converts it; no
   * answer, or a failed conversion, gives the null icon.
   */
  function MissIcon(w: OsWindow): Icon {
    var i := FirstNonNull(IconAnswers(w));
    if i < 4 && w.iconConverts then IconOf(IconAnswers(w)[i]) else NoIcon
  }

  /** The queries a cache miss makes: up to and including the first that answers. */
  function MissQueries(w: OsWindow): seq<IconQuery> {
    IconQueries[..Min(FirstNonNull(IconAnswers(w)) + 1, 4)]
  }

  /**
   * What a miss logs: the error of each GetClassLongPtr query it makes that
   * answers null with a last error set.
   */
  function IconLog(w: OsWindow): seq<LogEntry> {
    var q := MissQueries(w);
    (if ClassIcon in q && w.classIcon == 0 then LogWin32Error("GetClassLongPtr(GCLP_HICON)", w.classIconError) else [])
    + (if ClassSmallIcon in q && w.classSmallIcon == 0 then LogWin32Error("GetClassLongPtr(GCLP_HICONSM)", w.classSmallIconError) else [])
  }

  datatype Lookup = Lookup(icon: Icon, cache: map<Hwnd, Icon>, queries: seq<IconQuery>)

  /** getWindowIcon against a cache: invalid handle, hit, or miss with insertion. */
  function IconLookup(cache: map<Hwnd, Icon>, d: Desktop, hwnd: Hwnd): Lookup {
    if !IsValidWindow(d, hwnd) then Lookup(NoIcon, cache, [])
    else if hwnd in cache then Lookup(cache[hwnd], cache, [])
    else
      var icon := MissIcon(d.windows[hwnd]);
      Lookup(icon, cache[hwnd := icon], MissQueries(d.windows[hwnd]))
  }

  /** An invalid or null handle gets the null icon and leaves the cache alone. */
  lemma InvalidHandleLeavesCache(cache: map<Hwnd, Icon>, d: Desktop, hwnd: Hwnd)
    requires !IsValidWindow(d, hwnd)
    ensures IconLookup(cache, d, hwnd) == Lookup(NoIcon, cache, [])
  {
  }

  /**
   * A miss queries in the fixed order, stops at the first answer and
   * returns it; every earlier query answered null.
   */
  lemma MissQueriesInOrder(cache: map<Hwnd, Icon>, d: Desktop, hwnd: Hwnd)
    requires IsValidWindow(d, hwnd) && hwnd !in cache
    ensures var r := IconLookup(cache, d, hwnd);
            var answers := IconAnswers(d.windows[hwnd]);
            1 <= |r.queries| <= 4 && r.queries == IconQueries[..|r.queries|]
            && (forall k :: 0 <= k < |r.queries| - 1 ==> answers[k] == 0)
            && (r.icon != NoIcon <==> answers[|r.queries| - 1] != 0 && d.windows[hwnd].iconConverts)
            && (r.icon != NoIcon ==> r.icon == IconOf(answers[|r.queries| - 1]))
            && r.cache == cache[hwnd := r.icon]
  {
  }

  /**
   * Two lookups with no clear in between: the second is a hit that returns
   * the first one's icon, whatever the window reports by then, makes no
   * query and changes nothing.
   */
  lemma RepeatLookupIsCached(cache: map<Hwnd, Icon>, d1: Desktop, d2: Desktop, hwnd: Hwnd)
    requires IsValidWindow(d1, hwnd) && IsValidWindow(d2, hwnd)
    ensures var first := IconLookup(cache, d1, hwnd);
            var second := IconLookup(first.cache, d2, hwnd);
            second == Lookup(first.icon, first.cache, [])
  {
  }

  /** The process-wide s_iconCache. */
  class IconCache {
    var entries: map<Hwnd, Icon>

    constructor ()
      ensures entries == map[]
    {
      entries := map[];
    }

    /** getWindowIcon(hwnd): memoised, trying the four sources in turn on a miss. */
    method GetWindowIcon(d: Desktop, hwnd: Hwnd) returns (icon: Icon, queries: seq<IconQuery>, log: seq<LogEntry>)
      modifies this`entries
      ensures IconLookup(old(entries), d, hwnd) == Lookup(icon, entries, queries)
      ensures !IsValidWindow(d, hwnd) ==> log == [InvalidHandle("getWindowIcon")]
      ensures IsValidWindow(d, hwnd) && hwnd in old(entries) ==> log == []
      ensures IsValidWindow(d, hwnd) && hwnd !in old(entries) ==> log == IconLog(d.windows[hwnd])
    {
      if !IsValidWindow(d, hwnd) {
        return NoIcon, [], [InvalidHandle("getWindowIcon")];
      }
      if hwnd in entries {
        return entries[hwnd], [], [];
      }
      var w := d.windows[hwnd];
      log := [];
      var hIcon := w.bigIcon;
      queries := [BigIconMessage];
      if hIcon == 0 {
        hIcon := w.smallIcon;
        queries := queries + [SmallIconMessage];
      }
      if hIcon == 0 {
        hIcon := w.classIcon;
        queries := queries + [ClassIcon];
        if hIcon == 0 && w.classIconError != 0 {
          log := log + LogWin32Error("GetClassLongPtr(GCLP_HICON)", w.classIconError);
        }
      }
      if hIcon == 0 {
        hIcon := w.classSmallIcon;
        queries := queries + [ClassSmallIcon];
        if hIcon == 0 && w.classSmallIconError != 0 {
          log := log + LogWin32Error("GetClassLongPtr(GCLP_HICONSM)", w.classSmallIconError);
        }
      }
      icon := if hIcon != 0 && w.iconConverts then IconOf(hIcon) else NoIcon;
      entries := entries[hwnd := icon];
      ghost var answers := IconAnswers(w);
      assert answers[0] == w.bigIcon && answers[1] == w.smallIcon && answers[2] == w.classIcon && answers[3] == w.classSmallIcon;
      assert FirstNonNull(answers[3..]) == (if w.classSmallIcon != 0 then 0 else 1);
      assert FirstNonNull(answers[2..]) == (if w.classIcon != 0 then 0 else 1 + FirstNonNull(answers[3..]));
      assert FirstNonNull(answers[1..]) == (if w.smallIcon != 0 then 0 else 1 + FirstNonNull(answers[2..]));
    }

    /** clearIconCache(hwnd): the null handle empties the cache, any other removes just that key. */
    method ClearIconCache(hwnd: Hwnd)
      modifies this`entries
      ensures hwnd == 0 ==> entries == map[]
      ensures hwnd != 0 ==> hwnd !in entries
      ensures hwnd != 0 ==> forall k :: k != hwnd ==> (k in entries <==> k in old(entries))
      ensures hwnd != 0 ==> forall k :: k != hwnd && k in entries ==> entries[k] == old(entries)[k]
    {
      if hwnd == 0 {
        entries := map[];
      } else {
        entries := entries - {hwnd};
      }
    }
  }
}
