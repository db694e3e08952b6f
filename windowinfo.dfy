/**
 * WindowInfo (src/windowscanner.h): one row of a window scan. The record
 * also carries processPath, which the tile's context menu reads; the scan
 * never fills it in, so it stays empty.
 */
module WindowRecords {
  import opened Strings

  /** An HWND; 0 is the null handle. */
  type Hwnd = nat

  /** A QIcon: null, or built from the HICON the window reported. */
  datatype Icon = NoIcon | IconOf(handle: nat)

  datatype WindowInfo = WindowInfo(
    hwnd: Hwnd,
    title: Text,
    icon: Icon,
    processName: Text,
    processId: nat,
    processPath: Text)

  /** WindowInfo::operator==: handle, title and process id, nothing else. */
  predicate Equal(a: WindowInfo, b: WindowInfo) {
    a.hwnd == b.hwnd && a.title == b.title && a.processId == b.processId
  }

  /** Icon, process name and path play no part in equality. */
  lemma EqualIgnoresPresentation(a: WindowInfo, b: WindowInfo, icon: Icon, name: Text, path: Text)
    ensures Equal(a, b) <==> Equal(a.(icon := icon, processName := name, processPath := path), b)
  {
  }

  /** The same window under a new title is a different record. */
  lemma RetitledIsNotEqual(a: WindowInfo, title: Text)
    requires title != a.title
    ensures !Equal(a, a.(title := title))
  {
  }

  /** Equal records agree on the three key fields, and records agreeing on them are Equal. */
  lemma EqualIsEquivalence(a: WindowInfo, b: WindowInfo, c: WindowInfo)
    ensures Equal(a, a)
    ensures Equal(a, b) ==> Equal(b, a)
    ensures Equal(a, b) && Equal(b, c) ==> Equal(a, c)
  {
  }
}
