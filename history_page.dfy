/** The paging arithmetic of the `/api/prediction-history` endpoint
    (`app.py`): stored records sorted newest first by their ISO timestamp
    strings, then cut with a Python slice. */
module HistoryPage {
  import opened Basics
  import opened Models

  // ---------------------------------------------------------------------------
  // Python's ordering of strings
  // ---------------------------------------------------------------------------

  /** `a < b` on Python strings: lexicographic by code point. */
  predicate LexLess(a: string, b: string)
  {
    if a == [] then b != []
    else if b == [] then false
    else if a[0] != b[0] then a[0] < b[0]
    else LexLess(a[1..], b[1..])
  }

  lemma {:induction false} LexIrreflexive(a: string)
    ensures !LexLess(a, a)
  {
    if a != [] {
      LexIrreflexive(a[1..]);
    }
  }

  lemma {:induction false} LexTransitive(a: string, b: string, c: string)
    requires LexLess(a, b) && LexLess(b, c)
    ensures LexLess(a, c)
  {
    if a != [] && b != [] && c != [] && a[0] == b[0] && b[0] == c[0] {
      LexTransitive(a[1..], b[1..], c[1..]);
    }
  }

  lemma {:induction false} LexTotal(a: string, b: string)
    ensures a == b || LexLess(a, b) || LexLess(b, a)
  {
    if a != [] && b != [] && a[0] == b[0] {
      LexTotal(a[1..], b[1..]);
      if a[1..] == b[1..] {
        assert a == [a[0]] + a[1..] && b == [b[0]] + b[1..];
      }
    }
  }

  /** "Not older than" is transitive. */
  lemma NotLessTransitive(a: string, b: string, c: string)
    requires !LexLess(a, b) && !LexLess(b, c)
    ensures !LexLess(a, c)
  {
    LexTotal(a, b);
    LexTotal(b, c);
    if LexLess(a, c) {
      if a == b {
        assert false;
      } else if b == c {
        assert false;
      } else {
        LexTransitive(c, b, a);
        LexTransitive(a, c, a);
        LexIrreflexive(a);
        assert false;
      }
    }
  }

  // ---------------------------------------------------------------------------
  // history_list.sort(key=lambda x: x['timestamp'], reverse=True)
  // ---------------------------------------------------------------------------

  /** Newest first: no record is older than one after it. */
  predicate NewestFirst(s: seq<RecordDict>)
  {
    forall i, j :: 0 <= i < j < |s| ==> !LexLess(s[i].timestamp, s[j].timestamp)
  }

  /** Puts `x` before the first record that is not strictly newer than it, so
      that `x` stays ahead of the records with its own timestamp. */
  function Insert(x: RecordDict, s: seq<RecordDict>): seq<RecordDict>
  {
    if s == [] then [x]
    else if LexLess(x.timestamp, s[0].timestamp) then [s[0]] + Insert(x, s[1..])
    else [x] + s
  }

  /** Python's stable sort by timestamp, descending: records with equal
      timestamps keep the order they were stored in. */
  function SortNewestFirst(xs: seq<RecordDict>): seq<RecordDict>
  {
    if xs == [] then [] else Insert(xs[0], SortNewestFirst(xs[1..]))
  }

  lemma {:induction false} InsertMultiset(x: RecordDict, s: seq<RecordDict>)
    ensures multiset(Insert(x, s)) == multiset(s) + multiset{x}
  {
    if s != [] && LexLess(x.timestamp, s[0].timestamp) {
      InsertMultiset(x, s[1..]);
      assert s == [s[0]] + s[1..];
    }
  }

  lemma {:induction false} InsertNewestFirst(x: RecordDict, s: seq<RecordDict>)
    requires NewestFirst(s)
    ensures NewestFirst(Insert(x, s))
  {
    if s == [] {
    } else if LexLess(x.timestamp, s[0].timestamp) {
      var rest := Insert(x, s[1..]);
      InsertNewestFirst(x, s[1..]);
      InsertMultiset(x, s[1..]);
      forall j | 0 <= j < |rest|
        ensures !LexLess(s[0].timestamp, rest[j].timestamp)
      {
        assert rest[j] in multiset(rest);
        if rest[j] == x {
          LexTotal(x.timestamp, s[0].timestamp);
          if LexLess(s[0].timestamp, x.timestamp) {
            LexTransitive(x.timestamp, s[0].timestamp, x.timestamp);
            LexIrreflexive(x.timestamp);
          }
        } else {
          assert rest[j] in multiset(s[1..]);
          HeadNotOlder(s, rest[j]);
        }
      }
    } else {
      forall j | 0 < j < |s|
        ensures !LexLess(x.timestamp, s[j].timestamp)
      {
        NotLessTransitive(x.timestamp, s[0].timestamp, s[j].timestamp);
      }
    }
  }

  /** In a newest-first list no record is newer than the first. */
  lemma HeadNotOlder(s: seq<RecordDict>, y: RecordDict)
    requires NewestFirst(s) && s != [] && y in s[1..]
    ensures !LexLess(s[0].timestamp, y.timestamp)
  {
    var k :| 0 <= k < |s[1..]| && s[1..][k] == y;
    assert s[k + 1] == y;
  }

  /** The sorted list is the stored list rearranged, newest first. */
  lemma {:induction false} SortIsNewestFirstPermutation(xs: seq<RecordDict>)
    ensures NewestFirst(SortNewestFirst(xs))
    ensures multiset(SortNewestFirst(xs)) == multiset(xs)
  {
    if xs != [] {
      SortIsNewestFirstPermutation(xs[1..]);
      InsertNewestFirst(xs[0], SortNewestFirst(xs[1..]));
      InsertMultiset(xs[0], SortNewestFirst(xs[1..]));
      assert xs == [xs[0]] + xs[1..];
    }
  }

  /** The records carrying timestamp `t`, in order. */
  function WithTimestamp(s: seq<RecordDict>, t: string): seq<RecordDict>
  {
    if s == [] then [] else (if s[0].timestamp == t then [s[0]] else []) + WithTimestamp(s[1..], t)
  }

  lemma {:induction false} InsertKeepsTies(x: RecordDict, s: seq<RecordDict>, t: string)
    ensures WithTimestamp(Insert(x, s), t) ==
      (if x.timestamp == t then [x] else []) + WithTimestamp(s, t)
  {
    var own := if x.timestamp == t then [x] else [];
    if s != [] && LexLess(x.timestamp, s[0].timestamp) {
      InsertKeepsTies(x, s[1..], t);
      var head := if s[0].timestamp == t then [s[0]] else [];
      var r := [s[0]] + Insert(x, s[1..]);
      assert r[0] == s[0] && r[1..] == Insert(x, s[1..]);
      assert WithTimestamp(r, t) == head + (own + WithTimestamp(s[1..], t));
      assert WithTimestamp(s, t) == head + WithTimestamp(s[1..], t);
      if x.timestamp == t {
        LexIrreflexive(t);
        assert head == [];
      }
    } else {
      var r := [x] + s;
      assert r[0] == x && r[1..] == s;
    }
  }

  /** The sort is stable: records with the same timestamp come out in the
      order they were stored in. */
  lemma {:induction false} SortIsStable(xs: seq<RecordDict>, t: string)
    ensures WithTimestamp(SortNewestFirst(xs), t) == WithTimestamp(xs, t)
  {
    if xs != [] {
      SortIsStable(xs[1..], t);
      InsertKeepsTies(xs[0], SortNewestFirst(xs[1..]), t);
    }
  }

  // ---------------------------------------------------------------------------
  // history_list[offset:offset+limit]
  // ---------------------------------------------------------------------------

  /** Where a Python slice bound lands in a list of length `n`. */
  function SliceBound(i: int, n: nat): (b: nat)
    ensures b <= n
    ensures 0 <= i <= n ==> b == i
    ensures i > n ==> b == n
    ensures i < 0 ==> b == Max(0, n + i)
  {
    if i < 0 then Max(0, n + i) else Min(i, n)
  }

  /** Python's `s[start:stop]`. */
  function PySlice<T>(s: seq<T>, start: int, stop: int): (r: seq<T>)
    ensures var lo, hi := SliceBound(start, |s|), SliceBound(stop, |s|);
      r == if lo < hi then s[lo..hi] else []
  {
    var lo, hi := SliceBound(start, |s|), SliceBound(stop, |s|);
    if lo < hi then s[lo..hi] else []
  }

  const DefaultLimit: int := 100
  const MaxLimit: int := 1000

  datatype HistoryReply = HistoryReply(totalRecords: nat, returned: nat, limit: int, offset: int,
                                       hasMore: bool, predictions: seq<RecordDict>)

  /** `sorted[offset:offset+limit]`. */
  function PageOf(sorted: seq<RecordDict>, limit: int, offset: int): seq<RecordDict>
  {
    PySlice(sorted, offset, offset + limit)
  }

  /** For a non-negative offset and limit the page is the window
      `[offset, offset+limit)` clipped to the end of the list. */
  lemma PageOfIsWindow(sorted: seq<RecordDict>, limit: nat, offset: nat)
    ensures PageOf(sorted, limit, offset) == sorted[Min(offset, |sorted|)..Min(offset + limit, |sorted|)]
  {
  }

  /** The endpoint's reply for the stored records `history` (in storage
      order). A missing or non-integer `limit`/`offset` argument is `None`
      and takes its default. */
  function HistoryResponse(history: seq<RecordDict>, limitArg: Option<int>, offsetArg: Option<int>): (r: HistoryReply)
    ensures r.limit == Min(if limitArg.Some? then limitArg.value else DefaultLimit, MaxLimit)
    ensures r.offset == Max(0, if offsetArg.Some? then offsetArg.value else 0)
    ensures r.totalRecords == |history| && r.returned == |r.predictions|
    ensures r.hasMore <==> r.offset + r.limit < |history|
    ensures r.predictions == PageOf(SortNewestFirst(history), r.limit, r.offset)
  {
    var limit := Min(if limitArg.Some? then limitArg.value else DefaultLimit, MaxLimit);
    var offset := Max(0, if offsetArg.Some? then offsetArg.value else 0);
    var page := PageOf(SortNewestFirst(history), limit, offset);
    HistoryReply(|history|, |page|, limit, offset, offset + limit < |history|, page)
  }

  /** With a non-negative limit the page is the window `[offset, offset+limit)`
      of the newest-first list, clipped to its end; it holds at most `limit`
      records, themselves newest first. */
  lemma PageIsWindow(history: seq<RecordDict>, limitArg: Option<int>, offsetArg: Option<int>)
    requires HistoryResponse(history, limitArg, offsetArg).limit >= 0
    ensures var r := HistoryResponse(history, limitArg, offsetArg);
      var sorted := SortNewestFirst(history);
      |sorted| == |history| &&
      r.predictions == sorted[Min(r.offset, |history|)..Min(r.offset + r.limit, |history|)] &&
      r.returned <= r.limit && NewestFirst(r.predictions)
  {
    var r := HistoryResponse(history, limitArg, offsetArg);
    var sorted := SortNewestFirst(history);
    SortIsNewestFirstPermutation(history);
    SortedLength(history);
    assert r.predictions == PageOf(sorted, r.limit, r.offset);
    SortedWindow(sorted, r.limit, r.offset);
  }

  /** A page of a newest-first list is its clipped window, at most `limit`
      long and newest first. */
  lemma SortedWindow(sorted: seq<RecordDict>, limit: nat, offset: nat)
    requires NewestFirst(sorted)
    ensures var page := PageOf(sorted, limit, offset);
      page == sorted[Min(offset, |sorted|)..Min(offset + limit, |sorted|)] &&
      |page| <= limit && NewestFirst(page)
  {
    var lo, hi := Min(offset, |sorted|), Min(offset + limit, |sorted|);
    PageOfIsWindow(sorted, limit, offset);
    SliceNewestFirst(sorted, lo, hi);
  }

  /** Whatever the arguments, the page only holds stored records. */
  lemma PageDrawnFromHistory(history: seq<RecordDict>, limitArg: Option<int>, offsetArg: Option<int>)
    ensures forall d :: d in HistoryResponse(history, limitArg, offsetArg).predictions ==> d in history
  {
    var r := HistoryResponse(history, limitArg, offsetArg);
    var sorted := SortNewestFirst(history);
    PySliceWithin(sorted, r.offset, r.offset + r.limit);
    assert r.predictions == PySlice(sorted, r.offset, r.offset + r.limit);
    SortIsNewestFirstPermutation(history);
    forall d | d in r.predictions
      ensures d in history
    {
      assert d in multiset(sorted);
    }
  }

  lemma PySliceWithin<T>(s: seq<T>, start: int, stop: int)
    ensures forall x :: x in PySlice(s, start, stop) ==> x in s
  {
    var lo, hi := SliceBound(start, |s|), SliceBound(stop, |s|);
    if lo < hi {
      forall x | x in s[lo..hi]
        ensures x in s
      {
        var k :| 0 <= k < hi - lo && s[lo..hi][k] == x;
        assert s[lo + k] == x;
      }
    }
  }

  lemma SortedLength(xs: seq<RecordDict>)
    ensures |SortNewestFirst(xs)| == |xs|
  {
    SortIsNewestFirstPermutation(xs);
    assert |SortNewestFirst(xs)| == |multiset(SortNewestFirst(xs))| == |multiset(xs)| == |xs|;
  }

  /** A window of a newest-first list is newest first. */
  lemma SliceNewestFirst(s: seq<RecordDict>, lo: nat, hi: nat)
    requires lo <= hi <= |s| && NewestFirst(s)
    ensures NewestFirst(s[lo..hi])
  {
    forall i, j | 0 <= i < j < hi - lo
      ensures !LexLess(s[lo..hi][i].timestamp, s[lo..hi][j].timestamp)
    {
      assert s[lo..hi][i] == s[lo + i] && s[lo..hi][j] == s[lo + j];
    }
  }

  /** `has_more` tells exactly whether a record follows the page. */
  lemma HasMoreIffRecordsFollow(history: seq<RecordDict>, limitArg: Option<int>, offsetArg: Option<int>)
    requires HistoryResponse(history, limitArg, offsetArg).limit >= 0
    ensures var r := HistoryResponse(history, limitArg, offsetArg);
      r.hasMore <==> r.offset + r.returned < r.totalRecords
  {
    PageIsWindow(history, limitArg, offsetArg);
  }

  /** Two consecutive windows of size `l` make up the window of size `2l`. */
  lemma PageOfTiles(sorted: seq<RecordDict>, o: nat, l: nat)
    ensures PageOf(sorted, l, o) + PageOf(sorted, l, o + l) == PageOf(sorted, 2 * l, o)
  {
    var n := |sorted|;
    PageOfIsWindow(sorted, l, o);
    PageOfIsWindow(sorted, l, o + l);
    PageOfIsWindow(sorted, 2 * l, o);
    assert sorted[Min(o, n)..Min(o + l, n)] + sorted[Min(o + l, n)..Min(o + 2 * l, n)]
        == sorted[Min(o, n)..Min(o + 2 * l, n)];
  }

  /** Two consecutive pages of size `l` make up the page of size `2l`. */
  lemma PagesTile(history: seq<RecordDict>, o: nat, l: nat)
    requires 2 * l <= MaxLimit
    ensures HistoryResponse(history, Some(l), Some(o)).predictions +
            HistoryResponse(history, Some(l), Some(o + l)).predictions ==
            HistoryResponse(history, Some(2 * l), Some(o)).predictions
  {
    PageOfTiles(SortNewestFirst(history), o, l);
  }
}
