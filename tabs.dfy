/**
 * Choice of the tab to record when the controller sends a start command:
 * all tabs of all normal windows are gathered, tabs whose URL is missing or
 * belongs to an internal browser page are dropped, and the remaining tab
 * accessed most recently is chosen (background.js, handleStartRecording).
 */
module Tabs {
  import opened Wrappers

  /**
   * A browser tab. `url` is None when the tab's url is undefined or is not
   * a string; `lastAccessed` is the browser's last-access timestamp.
   */
  datatype Tab = Tab(id: int, windowId: int, url: Option<string>, lastAccessed: int)

  /** A browser window with its tabs, in tab-strip order. */
  datatype Window = Window(id: int, tabs: seq<Tab>)

  // ---------------------------------------------------------------------
  // Gathering the tabs of all windows
  // ---------------------------------------------------------------------

  /** The tabs of all windows, window by window. */
  function Flatten(windows: seq<Window>): seq<Tab>
  {
    if windows == [] then []
    else Flatten(windows[..|windows| - 1]) + windows[|windows| - 1].tabs
  }

  /** A tab is gathered exactly when some window holds it. */
  lemma {:induction false} FlattenMembership(windows: seq<Window>, t: Tab)
    ensures t in Flatten(windows) <==> exists k :: 0 <= k < |windows| && t in windows[k].tabs
  {
    if windows != [] {
      var n := |windows| - 1;
      var front := windows[..n];
      FlattenMembership(front, t);
      assert forall k :: 0 <= k < n ==> front[k] == windows[k];
      if t in Flatten(windows) && t !in windows[n].tabs {
        assert t in Flatten(front);
        var k :| 0 <= k < n && t in front[k].tabs;
        assert t in windows[k].tabs;
      }
      if exists k :: 0 <= k < |windows| && t in windows[k].tabs {
        var k :| 0 <= k < |windows| && t in windows[k].tabs;
        if k < n {
          assert t in front[k].tabs;
        }
      }
    }
  }

  /** Gathering keeps each window's tabs together, in window order. */
  lemma {:induction false} FlattenAppend(first: seq<Window>, second: seq<Window>)
    ensures Flatten(first + second) == Flatten(first) + Flatten(second)
    decreases |second|
  {
    if second == [] {
      assert first + second == first;
    } else {
      var n := |second| - 1;
      assert (first + second)[..|first + second| - 1] == first + second[..n];
      FlattenAppend(first, second[..n]);
    }
  }

  /** The number of tabs gathered is the total over the windows. */
  function TabCount(windows: seq<Window>): nat
  {
    if windows == [] then 0 else |windows[0].tabs| + TabCount(windows[1..])
  }

  lemma {:induction false} FlattenLength(windows: seq<Window>)
    ensures |Flatten(windows)| == TabCount(windows)
    decreases |windows|
  {
    if windows != [] {
      assert windows == [windows[0]] + windows[1..];
      FlattenAppend([windows[0]], windows[1..]);
      assert [windows[0]][..0] == [];
      FlattenLength(windows[1..]);
    }
  }

  /** The loop that pushes every window's tabs into one list. */
  method CollectTabs(windows: seq<Window>) returns (allTabs: seq<Tab>)
    ensures allTabs == Flatten(windows)
  {
    allTabs := [];
    var i := 0;
    while i < |windows|
      invariant 0 <= i <= |windows|
      invariant allTabs == Flatten(windows[..i])
    {
      assert windows[..i + 1][..i] == windows[..i];
      allTabs := allTabs + windows[i].tabs;
      i := i + 1;
    }
    assert windows[..i] == windows;
  }

  // ---------------------------------------------------------------------
  // Which tabs may be recorded
  // ---------------------------------------------------------------------

  predicate StartsWith(s: string, prefix: string)
  {
    |prefix| <= |s| && s[..|prefix|] == prefix
  }

  /** URL prefixes of pages the browser does not let an extension capture. */
  const InternalSchemes: seq<string> := ["chrome://", "chrome-extension://", "edge://", "about:"]

  /**
   * The filter applied to every gathered tab: its url must be a non-empty
   * string that starts with none of the internal prefixes.
   */
  predicate Recordable(tab: Tab)
  {
    && tab.url.Some?
    && tab.url.value != ""
    && !StartsWith(tab.url.value, "chrome://")
    && !StartsWith(tab.url.value, "chrome-extension://")
    && !StartsWith(tab.url.value, "edge://")
    && !StartsWith(tab.url.value, "about:")
  }

  /** Every page under an internal prefix is refused, whatever follows it. */
  lemma {:induction false} InternalPagesRefused(tab: Tab, k: nat, rest: string)
    requires k < |InternalSchemes|
    requires tab.url == Some(InternalSchemes[k] + rest)
    ensures !Recordable(tab)
  {
    var u := InternalSchemes[k] + rest;
    assert u[..|InternalSchemes[k]|] == InternalSchemes[k];
    assert StartsWith(u, InternalSchemes[k]);
  }

  lemma FirstCharDiffers(s: string, prefix: string)
    requires |s| > 0 && |prefix| > 0 && s[0] != prefix[0]
    ensures !StartsWith(s, prefix)
  {
  }

  /** Ordinary web pages are accepted. */
  lemma {:induction false} WebPagesAccepted(tab: Tab, rest: string)
    requires tab.url == Some("http://" + rest) || tab.url == Some("https://" + rest)
    ensures Recordable(tab)
  {
    var u := tab.url.value;
    assert u[0] == 'h';
    FirstCharDiffers(u, "chrome://");
    FirstCharDiffers(u, "chrome-extension://");
    FirstCharDiffers(u, "edge://");
    FirstCharDiffers(u, "about:");
  }

  /** The tabs that pass the filter, in their original order. */
  function ValidTabs(tabs: seq<Tab>): (valid: seq<Tab>)
    ensures forall t :: t in valid <==> t in tabs && Recordable(t)
    ensures |valid| <= |tabs|
  {
    if tabs == [] then []
    else (if Recordable(tabs[0]) then [tabs[0]] else []) + ValidTabs(tabs[1..])
  }

  /** A single tab is kept iff it is recordable. */
  lemma ValidTabsSingle(t: Tab)
    ensures ValidTabs([t]) == if Recordable(t) then [t] else []
  {
    assert [t][1..] == [];
  }

  /**
   * Filtering keeps order and duplicates: the filter of a concatenation is
   * the concatenation of the filters.
   */
  lemma {:induction false} ValidTabsAppend(a: seq<Tab>, b: seq<Tab>)
    ensures ValidTabs(a + b) == ValidTabs(a) + ValidTabs(b)
    decreases |a|
  {
    if a != [] {
      assert (a + b)[0] == a[0];
      assert (a + b)[1..] == a[1..] + b;
      ValidTabsAppend(a[1..], b);
    } else {
      assert a + b == b;
    }
  }

  // ---------------------------------------------------------------------
  // Picking the most recently accessed tab
  // ---------------------------------------------------------------------

  /** Most recently accessed first. */
  ghost predicate ByRecency(s: seq<Tab>)
  {
    forall i, j :: 0 <= i < j < |s| ==> s[j].lastAccessed <= s[i].lastAccessed
  }

  /**
   * Inserts `t`, which came before every tab of `sorted` in the original
   * list, ahead of the first tab accessed no later than it; so tabs with equal
   * timestamps keep their original order, as a stable sort keeps them.
   */
  function Insert(t: Tab, sorted: seq<Tab>): (r: seq<Tab>)
    ensures multiset(r) == multiset(sorted) + multiset{t}
    ensures r[0] == if sorted == [] || sorted[0].lastAccessed <= t.lastAccessed then t else sorted[0]
    ensures ByRecency(sorted) ==> ByRecency(r)
  {
    if sorted == [] || sorted[0].lastAccessed <= t.lastAccessed then [t] + sorted
    else
      assert sorted == [sorted[0]] + sorted[1..];
      [sorted[0]] + Insert(t, sorted[1..])
  }

  /**
   * The stable sort by descending `lastAccessed` the selector applies to
   * the filtered tabs.
   */
  function SortByRecency(tabs: seq<Tab>): (sorted: seq<Tab>)
    ensures multiset(sorted) == multiset(tabs)
    ensures ByRecency(sorted)
  {
    if tabs == [] then []
    else
      assert tabs == [tabs[0]] + tabs[1..];
      Insert(tabs[0], SortByRecency(tabs[1..]))
  }

  /**
   * The recording target: the head of the filtered tabs sorted by recency,
   * or None when no tab passes the filter.
   */
  function SelectTarget(allTabs: seq<Tab>): (target: Option<Tab>)
    ensures target.None? <==> forall t :: t in allTabs ==> !Recordable(t)
    ensures target.Some? ==> target.value in allTabs && Recordable(target.value)
  {
    var valid := ValidTabs(allTabs);
    if valid == [] then None
    else
      assert valid[0] in valid;
      var sorted := SortByRecency(valid);
      assert sorted[0] in multiset(valid);
      Some(sorted[0])
  }

  /**
   * `allTabs[i]` is recordable, no recordable tab was accessed later, and
   * every recordable tab before it was accessed strictly earlier.
   */
  ghost predicate IsFirstMostRecent(allTabs: seq<Tab>, i: int)
  {
    && 0 <= i < |allTabs|
    && Recordable(allTabs[i])
    && (forall j :: 0 <= j < |allTabs| && Recordable(allTabs[j]) ==>
          allTabs[j].lastAccessed <= allTabs[i].lastAccessed)
    && (forall j :: 0 <= j < i && Recordable(allTabs[j]) ==>
          allTabs[j].lastAccessed < allTabs[i].lastAccessed)
  }

  /** At most one position can be the first most recent one. */
  lemma FirstMostRecentUnique(allTabs: seq<Tab>, i: int, j: int)
    requires IsFirstMostRecent(allTabs, i) && IsFirstMostRecent(allTabs, j)
    ensures i == j
  {
  }

  /** No tab of a list was accessed later than the head of its sorted form. */
  lemma SortedHeadIsLatest(tabs: seq<Tab>, t: Tab)
    requires t in tabs
    ensures t.lastAccessed <= SortByRecency(tabs)[0].lastAccessed
  {
    var sorted := SortByRecency(tabs);
    assert t in multiset(sorted);
    var k :| 0 <= k < |sorted| && sorted[k] == t;
    if k > 0 {
      assert sorted[k].lastAccessed <= sorted[0].lastAccessed;
    }
  }

  /** A first-most-recent position of the tail is one of the whole list when the head does not compete. */
  lemma ShiftFirstMostRecent(allTabs: seq<Tab>, k: int)
    requires allTabs != [] && IsFirstMostRecent(allTabs[1..], k)
    requires Recordable(allTabs[0]) ==> allTabs[0].lastAccessed < allTabs[k + 1].lastAccessed
    ensures IsFirstMostRecent(allTabs, k + 1)
  {
    var rest := allTabs[1..];
    forall j | 0 <= j < |allTabs| && Recordable(allTabs[j])
      ensures allTabs[j].lastAccessed <= allTabs[k + 1].lastAccessed
    {
      if j > 0 { assert allTabs[j] == rest[j - 1]; }
    }
    forall j | 0 <= j < k + 1 && Recordable(allTabs[j])
      ensures allTabs[j].lastAccessed < allTabs[k + 1].lastAccessed
    {
      if j > 0 { assert allTabs[j] == rest[j - 1]; }
    }
  }

  /** The head is first most recent when no recordable tab after it is later. */
  lemma HeadFirstMostRecent(allTabs: seq<Tab>)
    requires allTabs != [] && Recordable(allTabs[0])
    requires forall t :: t in ValidTabs(allTabs[1..]) ==> t.lastAccessed <= allTabs[0].lastAccessed
    ensures IsFirstMostRecent(allTabs, 0)
  {
    var rest := allTabs[1..];
    forall j | 0 <= j < |allTabs| && Recordable(allTabs[j])
      ensures allTabs[j].lastAccessed <= allTabs[0].lastAccessed
    {
      if j > 0 {
        assert allTabs[j] == rest[j - 1];
        assert rest[j - 1] in ValidTabs(rest);
      }
    }
  }

  /**
   * The selected target is a recordable tab of the list, no recordable tab
   * was accessed later, and among equally recent ones it is the first in
   * the gathered order.
   */
  lemma {:induction false} SelectTargetIsFirstMostRecent(allTabs: seq<Tab>)
    ensures SelectTarget(allTabs).Some? ==>
      exists i :: IsFirstMostRecent(allTabs, i) && allTabs[i] == SelectTarget(allTabs).value
  {
    if allTabs != [] {
      var rest := allTabs[1..];
      SelectTargetIsFirstMostRecent(rest);
      var valid, validRest := ValidTabs(allTabs), ValidTabs(rest);
      if !Recordable(allTabs[0]) {
        assert valid == validRest;
        if SelectTarget(rest).Some? {
          var k :| IsFirstMostRecent(rest, k) && rest[k] == SelectTarget(rest).value;
          ShiftFirstMostRecent(allTabs, k);
        }
      } else {
        var head := allTabs[0];
        assert valid == [head] + validRest;
        assert valid[1..] == validRest;
        if validRest == [] || SortByRecency(validRest)[0].lastAccessed <= head.lastAccessed {
          assert SelectTarget(allTabs) == Some(head);
          forall t | t in validRest
            ensures t.lastAccessed <= head.lastAccessed
          {
            SortedHeadIsLatest(validRest, t);
          }
          HeadFirstMostRecent(allTabs);
        } else {
          assert SelectTarget(allTabs) == SelectTarget(rest);
          var k :| IsFirstMostRecent(rest, k) && rest[k] == SelectTarget(rest).value;
          ShiftFirstMostRecent(allTabs, k);
        }
      }
    }
  }

  /**
   * Conversely, the tab at the first most-recent recordable position is
   * exactly the one selected.
   */
  lemma SelectTargetCharacterised(allTabs: seq<Tab>, i: int)
    requires IsFirstMostRecent(allTabs, i)
    ensures SelectTarget(allTabs) == Some(allTabs[i])
  {
    assert allTabs[i] in allTabs;
    SelectTargetIsFirstMostRecent(allTabs);
    var j :| IsFirstMostRecent(allTabs, j) && allTabs[j] == SelectTarget(allTabs).value;
    FirstMostRecentUnique(allTabs, i, j);
  }
}
