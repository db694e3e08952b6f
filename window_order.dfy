/**
 * The order of MainWindow::fetchAndSortWindows (src/mainwindow.cpp): by
 * process name, then by title, both compared as QStrings. std::sort is not
 * stable, so nothing is promised about records whose (processName, title)
 * agree; what is promised is that any sorted permutation of a scan has the
 * same sequence of keys.
 */
module WindowOrder {
  import opened Strings
  import opened WindowRecords

  /** The comparator passed to std::sort. */
  predicate Before(a: WindowInfo, b: WindowInfo) {
    if a.processName != b.processName then Less(a.processName, b.processName)
    else Less(a.title, b.title)
  }

  datatype SortKey = SortKey(processName: Text, title: Text)

  function Key(w: WindowInfo): SortKey { SortKey(w.processName, w.title) }

  /** Exactly one of: a first, b first, same key. */
  lemma BeforeTrichotomy(a: WindowInfo, b: WindowInfo)
    ensures Key(a) == Key(b) || Before(a, b) || Before(b, a)
    ensures !(Before(a, b) && Before(b, a))
    ensures Key(a) == Key(b) ==> !Before(a, b)
  {
    LessTrichotomy(a.processName, b.processName);
    LessTrichotomy(a.title, b.title);
    LessIrreflexive(a.title);
  }

  lemma BeforeTransitive(a: WindowInfo, b: WindowInfo, c: WindowInfo)
    requires Before(a, b) && Before(b, c)
    ensures Before(a, c)
  {
    if a.processName != b.processName && b.processName != c.processName {
      LessTransitive(a.processName, b.processName, c.processName);
      if a.processName == c.processName {
        LessTrichotomy(a.processName, b.processName);
      }
    } else if a.processName != b.processName || b.processName != c.processName {
    } else {
      LessTransitive(a.title, b.title, c.title);
    }
  }

  /** "Not after" is transitive too. */
  lemma NotBeforeTransitive(a: WindowInfo, b: WindowInfo, c: WindowInfo)
    requires !Before(b, a) && !Before(c, b)
    ensures !Before(c, a)
  {
    BeforeTrichotomy(a, b);
    BeforeTrichotomy(b, c);
    if Before(a, b) && Before(b, c) {
      BeforeTransitive(a, b, c);
      BeforeTrichotomy(a, c);
    }
  }

  /** No record is placed after one the comparator puts before it. */
  predicate Sorted(ws: seq<WindowInfo>) {
    forall i, j :: 0 <= i < j < |ws| ==> !Before(ws[j], ws[i])
  }

  function Keys(ws: seq<WindowInfo>): (r: seq<SortKey>)
    ensures |r| == |ws| && forall i :: 0 <= i < |ws| ==> r[i] == Key(ws[i])
  {
    seq(|ws|, i requires 0 <= i < |ws| => Key(ws[i]))
  }

  /** Inserts w in front of the first record that does not come before it. */
  function Insert(w: WindowInfo, s: seq<WindowInfo>): seq<WindowInfo>
    decreases |s|
  {
    if |s| == 0 || !Before(s[0], w) then [w] + s else [s[0]] + Insert(w, s[1..])
  }

  /** An insertion sort standing in for std::sort with the comparator above. */
  function SortWindows(ws: seq<WindowInfo>): seq<WindowInfo>
    decreases |ws|
  {
    if |ws| == 0 then [] else Insert(ws[0], SortWindows(ws[1..]))
  }

  lemma {:induction false} InsertPermutes(w: WindowInfo, s: seq<WindowInfo>)
    ensures multiset(Insert(w, s)) == multiset(s) + multiset{w}
    decreases |s|
  {
    if |s| > 0 && Before(s[0], w) {
      InsertPermutes(w, s[1..]);
      assert s == [s[0]] + s[1..];
    }
  }

  /** Every record of a sorted sequence is not before its head. */
  lemma HeadIsLeast(s: seq<WindowInfo>, x: WindowInfo)
    requires Sorted(s) && |s| > 0 && x in multiset(s)
    ensures !Before(x, s[0])
  {
    var k :| 0 <= k < |s| && s[k] == x;
    if k == 0 {
      BeforeTrichotomy(x, x);
    }
  }

  lemma {:induction false} InsertSorted(w: WindowInfo, s: seq<WindowInfo>)
    requires Sorted(s)
    ensures Sorted(Insert(w, s))
    decreases |s|
  {
    if |s| > 0 && Before(s[0], w) {
      InsertSorted(w, s[1..]);
      InsertPermutes(w, s[1..]);
      InsertBehindHead(w, s, Insert(w, s[1..]));
    } else if |s| > 0 {
      InsertAtFront(w, s);
    }
  }

  /** The head stays first when w goes behind it into the sorted rest t. */
  lemma InsertBehindHead(w: WindowInfo, s: seq<WindowInfo>, t: seq<WindowInfo>)
    requires Sorted(s) && |s| > 0 && Before(s[0], w)
    requires Sorted(t) && multiset(t) == multiset(s[1..]) + multiset{w}
    ensures Sorted([s[0]] + t)
  {
    var r := [s[0]] + t;
    assert s == [s[0]] + s[1..];
    forall i, j | 0 <= i < j < |r| ensures !Before(r[j], r[i]) {
      if i == 0 {
        assert r[j] in multiset(t);
        if r[j] == w {
          BeforeTrichotomy(w, s[0]);
        } else {
          HeadIsLeast(s, r[j]);
        }
      } else {
        assert r[j] == t[j - 1] && r[i] == t[i - 1];
      }
    }
  }

  /** w goes in front of a sorted s whose head it does not follow. */
  lemma InsertAtFront(w: WindowInfo, s: seq<WindowInfo>)
    requires Sorted(s) && |s| > 0 && !Before(s[0], w)
    ensures Sorted([w] + s)
  {
    var r := [w] + s;
    forall i, j | 0 <= i < j < |r| ensures !Before(r[j], r[i]) {
      if i == 0 {
        HeadIsLeast(s, s[j - 1]);
        NotBeforeTransitive(w, s[0], s[j - 1]);
      } else {
        assert r[j] == s[j - 1] && r[i] == s[i - 1];
      }
    }
  }

  /** The sort returns a sorted permutation of its input. */
  lemma {:induction false} SortWindowsCorrect(ws: seq<WindowInfo>)
    ensures Sorted(SortWindows(ws)) && multiset(SortWindows(ws)) == multiset(ws)
    decreases |ws|
  {
    if |ws| > 0 {
      SortWindowsCorrect(ws[1..]);
      InsertSorted(ws[0], SortWindows(ws[1..]));
      InsertPermutes(ws[0], SortWindows(ws[1..]));
      assert ws == [ws[0]] + ws[1..];
    }
  }

  /** In a sorted sequence, everything between two records of one key has that key. */
  lemma RunSharesKey(b: seq<WindowInfo>, j: nat)
    requires Sorted(b) && j < |b| && Key(b[j]) == Key(b[0])
    ensures forall i :: 0 <= i <= j ==> Key(b[i]) == Key(b[0])
  {
    forall i | 0 <= i <= j ensures Key(b[i]) == Key(b[0]) {
      BeforeTrichotomy(b[0], b[i]);
      BeforeTrichotomy(b[i], b[j]);
    }
  }

  /** Dropping one record keeps a sequence sorted. */
  lemma RemoveKeepsSorted(b: seq<WindowInfo>, j: nat)
    requires Sorted(b) && j < |b|
    ensures Sorted(b[..j] + b[j + 1..])
  {
    var rest := b[..j] + b[j + 1..];
    forall p, q | 0 <= p < q < |rest| ensures !Before(rest[q], rest[p]) {
      var p' := if p < j then p else p + 1;
      var q' := if q < j then q else q + 1;
      assert rest[p] == b[p'] && rest[q] == b[q'];
    }
  }

  /** Dropping a record from a leading run of key k shifts the keys by one place. */
  lemma KeysAfterRemoval(b: seq<WindowInfo>, j: nat, k: SortKey)
    requires j < |b| && forall i :: 0 <= i <= j ==> Key(b[i]) == k
    ensures Keys(b) == [k] + Keys(b[..j] + b[j + 1..])
  {
    var rest := b[..j] + b[j + 1..];
    forall i | 0 <= i < |b| ensures Keys(b)[i] == ([k] + Keys(rest))[i] {
      if i > 0 {
        if i - 1 < j {
          assert rest[i - 1] == b[i - 1];
        } else {
          assert rest[i - 1] == b[i];
        }
      }
    }
  }

  lemma KeysCons(a: seq<WindowInfo>)
    requires |a| > 0
    ensures Keys(a) == [Key(a[0])] + Keys(a[1..])
  {
    assert forall i :: 0 < i < |a| ==> Keys(a)[i] == Keys(a[1..])[i - 1];
  }

  /**
   * Two sorted arrangements of the same records list the same keys in the
   * same order: the (processName, title) sequence does not depend on how
   * std::sort breaks ties.
   */
  lemma {:induction false} SortedKeysUnique(a: seq<WindowInfo>, b: seq<WindowInfo>)
    requires Sorted(a) && Sorted(b) && multiset(a) == multiset(b)
    ensures Keys(a) == Keys(b)
    decreases |a|
  {
    assert |a| == |multiset(a)| == |multiset(b)| == |b|;
    if |a| > 0 {
      var j := HeadsShareKey(a, b);
      RunSharesKey(b, j);
      RemoveKeepsSorted(b, j);
      SortedTail(a);
      RemovedMultiset(a, b, j);
      SortedKeysUnique(a[1..], b[..j] + b[j + 1..]);
      KeysAfterRemoval(b, j, Key(a[0]));
      KeysCons(a);
    }
  }

  /** The heads of two sorted arrangements share a key; j locates a's head in b. */
  lemma HeadsShareKey(a: seq<WindowInfo>, b: seq<WindowInfo>) returns (j: nat)
    requires Sorted(a) && Sorted(b) && multiset(a) == multiset(b) && |a| > 0
    ensures j < |b| && b[j] == a[0] && Key(b[j]) == Key(b[0])
  {
    assert a[0] in multiset(b);
    j :| 0 <= j < |b| && b[j] == a[0];
    assert b[0] in multiset(a);
    HeadIsLeast(a, b[0]);
    HeadIsLeast(b, a[0]);
    BeforeTrichotomy(a[0], b[0]);
  }

  lemma SortedTail(a: seq<WindowInfo>)
    requires Sorted(a) && |a| > 0
    ensures Sorted(a[1..])
  {
    forall p, q | 0 <= p < q < |a| - 1 ensures !Before(a[1..][q], a[1..][p]) {
      assert a[1..][q] == a[q + 1] && a[1..][p] == a[p + 1];
    }
  }

  lemma RemovedMultiset(a: seq<WindowInfo>, b: seq<WindowInfo>, j: nat)
    requires multiset(a) == multiset(b) && j < |b| && |a| > 0 && b[j] == a[0]
    ensures multiset(a[1..]) == multiset(b[..j] + b[j + 1..])
  {
    assert b == b[..j] + [b[j]] + b[j + 1..];
    assert multiset(b) == multiset(b[..j]) + multiset{b[j]} + multiset(b[j + 1..]);
    assert a == [a[0]] + a[1..];
    assert multiset(a) == multiset{a[0]} + multiset(a[1..]);
    var L := multiset(a[1..]);
    var R := multiset(b[..j]) + multiset(b[j + 1..]);
    forall y ensures L[y] == R[y] {
      assert multiset(a)[y] == multiset(b)[y];
    }
    assert L == R;
    assert multiset(b[..j] + b[j + 1..]) == R;
  }

  lemma ExpectedOrderSorted(w0: WindowInfo, w1: WindowInfo, w2: WindowInfo)
    requires w0.processName == Utf16("b") && w0.title == Utf16("x")
    requires w1.processName == Utf16("a") && w1.title == Utf16("z")
    requires w2.processName == Utf16("a") && w2.title == Utf16("y")
    ensures Sorted([w2, w1, w0])
  {
    assert Less(Utf16("a"), Utf16("b")) && Less(Utf16("y"), Utf16("z"));
  }

  /**
   * Three windows with process names "b", "a", "a" and titles "x", "z",
   * "y": every sorted arrangement, and so std::sort's, is a/y, a/z, b/x.
   */
  lemma ThreeWindowsScenario(w0: WindowInfo, w1: WindowInfo, w2: WindowInfo, r: seq<WindowInfo>)
    requires w0.processName == Utf16("b") && w0.title == Utf16("x")
    requires w1.processName == Utf16("a") && w1.title == Utf16("z")
    requires w2.processName == Utf16("a") && w2.title == Utf16("y")
    requires Sorted(r) && multiset(r) == multiset([w0, w1, w2])
    ensures r == [w2, w1, w0]
  {
    var e := [w2, w1, w0];
    ExpectedOrderSorted(w0, w1, w2);
    assert multiset(e) == multiset([w0, w1, w2]);
    SortedKeysUnique(r, e);
    assert |r| == 3 by {
      assert |multiset(r)| == |r|;
    }
    SameKeysSameRecords(r, e);
  }

  /** Records drawn from e, with e's keys in e's order, are e itself when e's keys differ. */
  lemma SameKeysSameRecords(r: seq<WindowInfo>, e: seq<WindowInfo>)
    requires Keys(r) == Keys(e) && multiset(r) == multiset(e)
    requires forall i, j :: 0 <= i < j < |e| ==> Key(e[i]) != Key(e[j])
    ensures r == e
  {
    forall i | 0 <= i < |r| ensures r[i] == e[i] {
      assert r[i] in multiset(e);
      var j :| 0 <= j < |e| && e[j] == r[i];
      assert Key(e[j]) == Key(e[i]);
    }
  }
}
