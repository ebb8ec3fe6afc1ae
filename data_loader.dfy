/**
 * The two path computations of common/data_loader.py that the loaders build
 * on: the CSV file of a symbol (`_get_price_file`, which calls POSIX
 * `os.path.join`) and the window of trading-day directory names
 * (`get_dates`).  `get_dates` takes the directory listing after its in-place
 * sort, as a sequence of names.
 */
module DataLoader {
  import opened Wrappers

  // ---------------------------------------------------------------------
  // Price files
  // ---------------------------------------------------------------------

  /** POSIX `os.path.join` of two components. */
  function Join(dir: string, file: string): string
  {
    if |file| > 0 && file[0] == '/' then file
    else if dir == [] || dir[|dir| - 1] == '/' then dir + file
    else dir + "/" + file
  }

  /** The CSV file holding a symbol's prices inside `dir`. */
  function GetPriceFile(name: string, dir: string): string
  {
    Join(dir, name + ".csv")
  }

  /** The last component of a path: what follows its last '/'. */
  function BaseName(p: string): string
  {
    if p == [] || p[|p| - 1] == '/' then [] else BaseName(p[..|p| - 1]) + [p[|p| - 1]]
  }

  /** A name without '/' appended after a directory prefix is that prefix's base name. */
  lemma {:induction false} BaseNameAfterSlash(t: string, s: string)
    requires t == [] || t[|t| - 1] == '/'
    requires '/' !in s
    ensures BaseName(t + s) == s
    decreases |s|
  {
    if s == [] {
      assert t + s == t;
    } else {
      var s' := s[..|s| - 1];
      assert (t + s)[..|t + s| - 1] == t + s';
      assert s == s' + [s[|s| - 1]];
      BaseNameAfterSlash(t, s');
    }
  }

  /**
   * The price file lies in `dir` and is named after the symbol: its path
   * starts with `dir` and its last component is `name + ".csv"` (for a
   * symbol name without '/').
   */
  lemma PriceFileRoundTrip(name: string, dir: string)
    requires '/' !in name
    ensures GetPriceFile(name, dir)[..|dir|] == dir
    ensures BaseName(GetPriceFile(name, dir)) == name + ".csv"
  {
    var file := name + ".csv";
    assert '/' !in file by {
      assert forall i :: 0 <= i < |file| ==> file[i] == (if i < |name| then name[i] else ".csv"[i - |name|]);
    }
    assert |file| > 0 && file[0] != '/' by {
      assert file[0] in file;
    }
    if dir == [] || dir[|dir| - 1] == '/' {
      BaseNameAfterSlash(dir, file);
    } else {
      assert dir + "/" + file == (dir + "/") + file;
      BaseNameAfterSlash(dir + "/", file);
    }
  }

  /** common/test/test_data_loader.py: 'test' in 'someDir'. */
  lemma GetPriceFileExample()
    ensures GetPriceFile("test", "someDir") == "someDir/test.csv"
  {
  }

  // ---------------------------------------------------------------------
  // Trading-day windows
  // ---------------------------------------------------------------------

  /** Python's `list.index`: the first position holding `x`. */
  function IndexOf(l: seq<string>, x: string): (i: nat)
    requires x in l
    ensures i < |l| && l[i] == x
    ensures forall j :: 0 <= j < i ==> l[j] != x
  {
    if l[0] == x then 0 else IndexOf(l[1..], x) + 1
  }

  /**
   * `get_dates`: the names from the first occurrence of `start` through the
   * first occurrence of `end`, inclusive.  A bound that is absent, or not in
   * the listing, leaves that side of the window open.
   */
  function GetDates(allDates: seq<string>, start: Option<string>, end: Option<string>): seq<string>
  {
    var startIdx := if start.Some? && start.value in allDates then IndexOf(allDates, start.value) else 0;
    var endIdx := if end.Some? && end.value in allDates then IndexOf(allDates, end.value) + 1 else |allDates|;
    if startIdx <= endIdx then allDates[startIdx..endIdx] else []
  }

  /** The window is one contiguous run of the listing. */
  lemma GetDatesContiguous(allDates: seq<string>, start: Option<string>, end: Option<string>)
    ensures exists s, e :: 0 <= s <= e <= |allDates| && GetDates(allDates, start, end) == allDates[s..e]
  {
    var startIdx := if start.Some? && start.value in allDates then IndexOf(allDates, start.value) else 0;
    var endIdx := if end.Some? && end.value in allDates then IndexOf(allDates, end.value) + 1 else |allDates|;
    if startIdx > endIdx {
      assert GetDates(allDates, start, end) == allDates[0..0];
    } else {
      assert GetDates(allDates, start, end) == allDates[startIdx..endIdx];
    }
  }

  /** A start in the listing opens a non-empty window; an end in it closes one. */
  lemma GetDatesBounds(allDates: seq<string>, start: Option<string>, end: Option<string>)
    ensures var r := GetDates(allDates, start, end);
            (r != [] && start.Some? && start.value in allDates ==> r[0] == start.value)
            && (r != [] && end.Some? && end.value in allDates ==> r[|r| - 1] == end.value)
  {
  }

  /** A start not in the listing is the same as none: the window begins with the listing. */
  lemma GetDatesOpenStart(allDates: seq<string>, start: Option<string>, end: Option<string>)
    requires start.None? || start.value !in allDates
    ensures var r := GetDates(allDates, start, end); r == allDates[..|r|]
  {
  }

  /** An end not in the listing is the same as none: the window runs to the listing's end. */
  lemma GetDatesOpenEnd(allDates: seq<string>, start: Option<string>, end: Option<string>)
    requires end.None? || end.value !in allDates
    ensures var r := GetDates(allDates, start, end); r == allDates[|allDates| - |r|..]
  {
  }

  /** Python's ordering of strings: character by character, a proper prefix first. */
  predicate Below(a: string, b: string)
  {
    if a == [] then b != []
    else if b == [] then false
    else if a[0] != b[0] then a[0] < b[0]
    else Below(a[1..], b[1..])
  }

  lemma {:induction false} BelowAsymmetric(a: string, b: string)
    ensures !(Below(a, b) && Below(b, a))
    ensures !Below(a, a)
  {
    if a != [] && b != [] {
      BelowAsymmetric(a[1..], b[1..]);
      BelowAsymmetric(a[1..], a[1..]);
    } else if a != [] {
      BelowAsymmetric(a[1..], a[1..]);
    }
  }

  /** The sorted listing of one directory: no name twice. */
  predicate StrictlySorted(l: seq<string>)
  {
    forall i, j :: 0 <= i < j < |l| ==> Below(l[i], l[j])
  }

  /** In a sorted listing, `x` at position `k` lies at or after position `i` exactly when it is not below `l[i]`. */
  lemma SortedPosition(l: seq<string>, i: nat, k: nat)
    requires StrictlySorted(l) && i < |l| && k < |l|
    ensures i <= k <==> !Below(l[k], l[i])
  {
    if k < i {
    } else if k == i {
      BelowAsymmetric(l[k], l[k]);
    } else {
      BelowAsymmetric(l[i], l[k]);
    }
  }

  /**
   * On a sorted listing the window holds exactly the names between the
   * bounds that are present, both ends included.
   */
  lemma GetDatesWindow(allDates: seq<string>, start: Option<string>, end: Option<string>, x: string)
    requires StrictlySorted(allDates)
    ensures x in GetDates(allDates, start, end)
            <==> x in allDates
                 && (start.None? || start.value !in allDates || !Below(x, start.value))
                 && (end.None? || end.value !in allDates || !Below(end.value, x))
  {
    var startIdx := if start.Some? && start.value in allDates then IndexOf(allDates, start.value) else 0;
    var endIdx := if end.Some? && end.value in allDates then IndexOf(allDates, end.value) + 1 else |allDates|;
    if x in allDates {
      var k := IndexOf(allDates, x);
      var inWindow := startIdx <= k < endIdx;
      assert x in GetDates(allDates, start, end) <==> inWindow by {
        if inWindow {
          assert allDates[startIdx..endIdx][k - startIdx] == x;
        }
        if x in GetDates(allDates, start, end) {
          var m :| startIdx <= m < endIdx && allDates[m] == x;
          if m != k {
            // two positions holding `x` would put `x` below itself
            BelowAsymmetric(x, x);
          }
        }
      }
      if start.Some? && start.value in allDates {
        SortedPosition(allDates, startIdx, k);
      }
      if end.Some? && end.value in allDates {
        SortedPosition(allDates, k, endIdx - 1);
      }
    }
  }

  /** The trading days of common/test/test_data_loader.py. */
  lemma GetDatesExamples()
    ensures var days := ["20140811", "20140812", "20140813", "20140814", "20140815", "20140818"];
            GetDates(days, None, None) == days
            && GetDates(days, Some("20140813"), None) == ["20140813", "20140814", "20140815", "20140818"]
            && GetDates(days, None, Some("20140813")) == ["20140811", "20140812", "20140813"]
            && GetDates(days, Some("20140812"), Some("20140815")) == ["20140812", "20140813", "20140814", "20140815"]
  {
    var days := ["20140811", "20140812", "20140813", "20140814", "20140815", "20140818"];
    assert days[1..][1..] == days[2..];
    assert days[2..][1..] == days[3..];
    assert days[3..][1..] == days[4..];
    assert IndexOf(days, "20140812") == 1;
    assert IndexOf(days, "20140813") == 2;
    assert IndexOf(days, "20140815") == 4;
  }
}
