/** The operation log as the GUI shows it: a bounded window that slides over a log which only ever grows. */
module LogWindow {
  import opened Wrappers

  const MAX_ROWS := 500
  const MAX_BYTES := 8 * 1024 * 1024
  const MAX_SAFE_INTEGER := 9_007_199_254_740_991

  /** `bytes` is the size of the entry when it is encoded. */
  datatype Entry = Entry(sequence: nat, id: nat, bytes: nat)

  datatype Direction = Refresh | Older | Newer

  /** What is shown, newest first, and whether there is more on either side. */
  datatype Window = Window(entries: seq<Entry>, older: bool, newer: bool)

  const EMPTY := Window([], false, false)

  // ---------------------------------------------------------------------------------------------
  // Keeping the window bounded
  // ---------------------------------------------------------------------------------------------

  function Total(entries: seq<Entry>): nat {
    if entries == [] then 0 else entries[0].bytes + Total(entries[1..])
  }

  lemma {:induction false} TotalAppends(entries: seq<Entry>, e: Entry)
    ensures Total(entries + [e]) == Total(entries) + e.bytes
  {
    if entries == [] {
      assert entries + [e] == [e];
    } else {
      TotalAppends(entries[1..], e);
      assert (entries + [e])[1..] == entries[1..] + [e];
    }
  }

  /** Rows `first` to `end` fit; a single row fits whatever its size. */
  ghost predicate Fits(entries: seq<Entry>, first: nat, end: nat) {
    && first < end <= |entries| && end - first <= MAX_ROWS
    && (Total(entries[first..end]) <= MAX_BYTES || end - first == 1)
  }

  lemma OlderGrows(entries: seq<Entry>, first: nat, end: nat)
    requires first <= end < |entries|
    ensures Total(entries[first..end + 1]) == Total(entries[first..end]) + entries[end].bytes
  {
    TotalAppends(entries[first..end], entries[end]);
    assert entries[first..end + 1] == entries[first..end] + [entries[end]];
  }

  lemma NewerGrows(entries: seq<Entry>, first: nat, end: nat)
    requires 0 < first <= end <= |entries|
    ensures Total(entries[first - 1..end]) == Total(entries[first..end]) + entries[first - 1].bytes
  {
    assert entries[first - 1..end][1..] == entries[first..end];
  }

  /** The rows before and after `first` to `end` that are next to be shown would not fit. */
  ghost predicate FullTowardOlder(entries: seq<Entry>, first: nat, end: nat)
    requires first <= end <= |entries|
  { end == |entries| || end - first >= MAX_ROWS || Total(entries[first..end]) + entries[end].bytes > MAX_BYTES }

  ghost predicate FullTowardNewer(entries: seq<Entry>, first: nat, end: nat)
    requires first <= end <= |entries|
  { first == 0 || end - first >= MAX_ROWS || Total(entries[first..end]) + entries[first - 1].bytes > MAX_BYTES }

  method Extend(entries: seq<Entry>, towardOlder: bool, first0: nat, end0: nat, total0: nat)
      returns (first: nat, end: nat, total: nat)
    requires Fits(entries, first0, end0) && total0 == Total(entries[first0..end0])
    ensures Fits(entries, first, end) && total == Total(entries[first..end])
    ensures if towardOlder then first == first0 && end0 <= end else end == end0 && first <= first0
    ensures if towardOlder then FullTowardOlder(entries, first, end) else FullTowardNewer(entries, first, end)
    ensures total0 <= total && end0 - first0 <= end - first
  {
    first, end, total := first0, end0, total0;
    while end - first < MAX_ROWS
      invariant Fits(entries, first, end) && total == Total(entries[first..end]) && total0 <= total
      invariant if towardOlder then first == first0 && end0 <= end else end == end0 && first <= first0
    {
      if towardOlder {
        if end == |entries| || total + entries[end].bytes > MAX_BYTES {
          break;
        }
        OlderGrows(entries, first, end);
        total, end := total + entries[end].bytes, end + 1;
      } else {
        if first == 0 || total + entries[first - 1].bytes > MAX_BYTES {
          break;
        }
        NewerGrows(entries, first, end);
        total, first := total + entries[first - 1].bytes, first - 1;
      }
    }
  }

  /** The position of the row that is being read, or the length. */
  method FindRow(entries: seq<Entry>, sequence: nat) returns (index: nat)
    ensures index <= |entries| && (index < |entries| ==> entries[index].sequence == sequence)
    ensures index == |entries| ==> forall i | 0 <= i < |entries| :: entries[i].sequence != sequence
  {
    index := 0;
    while index < |entries| && entries[index].sequence != sequence
      invariant index <= |entries| && forall i | 0 <= i < index :: entries[i].sequence != sequence
    {
      index := index + 1;
    }
  }

  /** The row that stays whatever is cut off: the one being read, or without one the end the read was for. */
  ghost predicate IsCenter(entries: seq<Entry>, direction: Direction, anchor: Option<nat>, center: nat) {
    && center < |entries|
    && if anchor.Some? && HasRow(entries, anchor.value) then entries[center].sequence == anchor.value
       else center == if direction.Older? then |entries| - 1 else 0
  }

  ghost predicate HasRow(entries: seq<Entry>, sequence: nat) { exists e | e in entries :: e.sequence == sequence }

  /** Rows `first` to `end` are what is kept: they have the center, they fit, no row next to them would fit as well, and
      the side the read was for, which is the older one unless newer rows were read, was given its rows first. */
  ghost predicate IsLimited(entries: seq<Entry>, direction: Direction, center: nat, first: nat, end: nat) {
    && first <= center < end <= |entries| && Fits(entries, first, end)
    && FullTowardOlder(entries, first, end) && FullTowardNewer(entries, first, end)
    && (if direction.Newer? then FullTowardNewer(entries, first, center + 1) else FullTowardOlder(entries, center, end))
  }

  /** Keeps a contiguous part of the entries around the row being read. */
  method LimitWindow(entries: seq<Entry>, direction: Direction, anchor: Option<nat>)
      returns (window: Window, ghost first: nat, ghost end: nat, ghost center: nat)
    ensures first <= end <= |entries| && window == Window(entries[first..end], end < |entries|, first > 0)
    ensures |window.entries| <= MAX_ROWS && (Total(window.entries) <= MAX_BYTES || |window.entries| == 1)
    ensures entries != [] ==> IsCenter(entries, direction, anchor, center) && IsLimited(entries, direction, center, first, end)
  {
    first, end, center := 0, 0, 0;
    if entries == [] {
      return EMPTY, 0, 0, 0;
    }
    var middle := if direction.Older? then |entries| - 1 else 0;
    if anchor.Some? {
      var index := FindRow(entries, anchor.value);
      if index < |entries| {
        assert entries[index] in entries;
        middle := index;
      }
    }
    assert IsCenter(entries, direction, anchor, middle);
    OneRowFits(entries, middle);
    hide *;
    var a, b, total := Extend(entries, !direction.Newer?, middle, middle + 1, entries[middle].bytes);
    var c, d, rest := Extend(entries, direction.Newer?, a, b, total);
    window := Window(entries[c..d], d < |entries|, c > 0);
    first, end, center := c, d, middle;
    GrownIsLimited(entries, direction, middle, a, b, c, d);
    LimitedFits(entries, direction, middle, c, d);
  }

  lemma LimitedFits(entries: seq<Entry>, direction: Direction, center: nat, first: nat, end: nat)
    requires IsLimited(entries, direction, center, first, end)
    ensures first < end <= |entries| && end - first <= MAX_ROWS
    ensures Total(entries[first..end]) <= MAX_BYTES || |entries[first..end]| == 1
  {}

  lemma OneRowFits(entries: seq<Entry>, row: nat)
    requires row < |entries|
    ensures Total(entries[row..row + 1]) == entries[row].bytes && Fits(entries, row, row + 1)
  {
    assert entries[row..row + 1][1..] == [];
  }

  /** The side that was given its rows first stays full when the other one grows. */
  lemma GrownIsLimited(entries: seq<Entry>, direction: Direction, center: nat, a: nat, b: nat, c: nat, d: nat)
    requires Fits(entries, a, b) && Fits(entries, c, d) && Total(entries[a..b]) <= Total(entries[c..d]) && b - a <= d - c
    requires c <= a <= center < b <= d <= |entries|
    requires if direction.Newer? then b == center + 1 && a == c && FullTowardNewer(entries, a, b) && FullTowardOlder(entries, c, d)
      else a == center && b == d && FullTowardOlder(entries, a, b) && FullTowardNewer(entries, c, d)
    ensures IsLimited(entries, direction, center, c, d)
  {
    hide Total;
  }

  lemma {:induction false} TotalGrows(entries: seq<Entry>, first: nat, end: nat, later: nat)
    requires first <= end <= later <= |entries|
    ensures Total(entries[first..end]) <= Total(entries[first..later])
  {
    if end < later {
      TotalGrows(entries, first, end, later - 1);
      OlderGrows(entries, first, later - 1);
    }
  }

  lemma {:induction false} TotalGrowsUp(entries: seq<Entry>, first: nat, earlier: nat, end: nat)
    requires earlier <= first <= end <= |entries|
    ensures Total(entries[first..end]) <= Total(entries[earlier..end])
    decreases first - earlier
  {
    if earlier < first {
      TotalGrowsUp(entries, first, earlier + 1, end);
      NewerGrows(entries, earlier + 1, end);
    }
  }

  /** Only one part of the entries can be kept: what `IsLimited` says leaves no choice. */
  lemma OnePartIsKept(entries: seq<Entry>, direction: Direction, center: nat, first: nat, end: nat, first': nat, end': nat)
    requires IsLimited(entries, direction, center, first, end) && IsLimited(entries, direction, center, first', end')
    ensures first == first' && end == end'
  {
    hide Total;
    if direction.Newer? {
      NewerIsDetermined(entries, center, first, end, first', end');
      NewerIsDetermined(entries, center, first', end', first, end);
      OlderIsDetermined(entries, first, end, end');
      OlderIsDetermined(entries, first, end', end);
    } else {
      FirstOlderIsDetermined(entries, center, first, end, first', end');
      FirstOlderIsDetermined(entries, center, first', end', first, end);
      FirstIsDetermined(entries, end, first, first');
      FirstIsDetermined(entries, end, first', first);
    }
  }

  lemma OlderIsDetermined(entries: seq<Entry>, first: nat, end: nat, end': nat)
    requires Fits(entries, first, end) && FullTowardOlder(entries, first, end) && Fits(entries, first, end')
    ensures end' <= end
  {
    if end < end' {
      OlderGrows(entries, first, end);
      TotalGrows(entries, first, end + 1, end');
    }
  }

  lemma FirstIsDetermined(entries: seq<Entry>, end: nat, first: nat, first': nat)
    requires Fits(entries, first, end) && FullTowardNewer(entries, first, end) && Fits(entries, first', end)
    ensures first <= first'
  {
    if first' < first {
      NewerGrows(entries, first, end);
      TotalGrowsUp(entries, first - 1, first', end);
    }
  }

  lemma FirstOlderIsDetermined(entries: seq<Entry>, center: nat, first: nat, end: nat, first': nat, end': nat)
    requires first <= center < end && Fits(entries, first, end) && FullTowardOlder(entries, center, end)
    requires first' <= center < end' && Fits(entries, first', end')
    ensures end' <= end
  {
    if end < end' {
      OlderGrows(entries, center, end);
      TotalGrows(entries, center, end + 1, end');
      TotalGrowsUp(entries, center, first', end');
    }
  }

  lemma NewerIsDetermined(entries: seq<Entry>, center: nat, first: nat, end: nat, first': nat, end': nat)
    requires first <= center < end && Fits(entries, first, end) && FullTowardNewer(entries, first, center + 1)
    requires first' <= center < end' && Fits(entries, first', end')
    ensures first <= first'
  {
    if first' < first {
      NewerGrows(entries, first, center + 1);
      TotalGrowsUp(entries, first - 1, first', center + 1);
      TotalGrows(entries, first', center + 1, end');
    }
  }

  // ---------------------------------------------------------------------------------------------
  // The log and what the daemon answers
  // ---------------------------------------------------------------------------------------------

  type Filter = nat

  /** Entries are appended in order, and never two the same. */
  ghost predicate IsLog(log: seq<Entry>) {
    && (forall i, j | 0 <= i < j < |log| :: log[i].sequence < log[j].sequence && log[i].id != log[j].id)
    && forall i | 0 <= i < |log| :: log[i].sequence > 0
  }

  ghost function Filtered(log: seq<Entry>, matches: (Filter, Entry) -> bool, filter: Filter): seq<Entry> {
    if log == [] then []
    else
      var last := log[|log| - 1];
      Filtered(log[..|log| - 1], matches, filter) + if matches(filter, last) then [last] else []
  }

  lemma {:induction false} FilteredIsLog(log: seq<Entry>, matches: (Filter, Entry) -> bool, filter: Filter)
    requires IsLog(log)
    ensures IsLog(Filtered(log, matches, filter))
    ensures forall e | e in Filtered(log, matches, filter) :: e in log
  {
    if log != [] {
      var last, rest := log[|log| - 1], log[..|log| - 1];
      var before := Filtered(rest, matches, filter);
      FilteredIsLog(rest, matches, filter);
      forall i | 0 <= i < |before|
        ensures before[i].sequence < last.sequence && before[i].id != last.id
      {
        assert before[i] in rest;
      }
    }
  }

  lemma {:induction false} FilteredGrows(log: seq<Entry>, m: nat, matches: (Filter, Entry) -> bool, filter: Filter)
    requires m <= |log|
    ensures Filtered(log[..m], matches, filter) <= Filtered(log, matches, filter)
  {
    if m == |log| {
      assert log[..m] == log;
    } else {
      FilteredGrows(log[..|log| - 1], m, matches, filter);
      assert log[..|log| - 1][..m] == log[..m];
    }
  }

  datatype Request = Head | Before(sequence: nat) | After(sequence: nat)

  datatype Page = Page(entries: seq<Entry>, hasMore: bool, highWatermark: nat)

  /** The page is entries `a` to `b` of the filtered log: the last ones before a record, the first ones after
      one, or the last ones, and an incomplete answer has at least one. */
  ghost predicate Answers(filtered: seq<Entry>, request: Request, page: Page, a: nat, b: nat) {
    && a <= b <= |filtered| && page.entries == filtered[a..b]
    && match request
       case Head => b == |filtered| && page.hasMore == (a > 0) && (page.hasMore ==> a < b)
       case Before(x) =>
         && (forall i | 0 <= i < b :: filtered[i].sequence < x) && (b < |filtered| ==> x <= filtered[b].sequence)
         && page.hasMore == (a > 0) && (page.hasMore ==> a < b)
       case After(x) =>
         && (forall i | 0 <= i < a :: filtered[i].sequence <= x) && (a < |filtered| ==> x < filtered[a].sequence)
         && page.hasMore == (b < |filtered|) && (page.hasMore ==> a < b)
  }

  // ---------------------------------------------------------------------------------------------
  // Slices, newest first
  // ---------------------------------------------------------------------------------------------

  function Reversed(s: seq<Entry>): (r: seq<Entry>)
    ensures |r| == |s|
  { seq(|s|, i requires 0 <= i < |s| => s[|s| - 1 - i]) }

  ghost predicate Descending(s: seq<Entry>) {
    forall i, j | 0 <= i < j < |s| :: s[i].sequence > s[j].sequence
  }

  /** A strictly descending list is determined by what is in it. */
  lemma {:induction false} DescendingIsUnique(s: seq<Entry>, t: seq<Entry>)
    requires Descending(s) && Descending(t) && forall e :: e in s <==> e in t
    ensures s == t
  {
    assert (|s| > 0 ==> s[0] in t) && (|t| > 0 ==> t[0] in s);
    if s != [] && t != [] {
      assert s[0] in t && t[0] in s;
      assert s[0] == t[0];
      forall e
        ensures e in s[1..] <==> e in t[1..]
      {
        assert e in s <==> e == s[0] || e in s[1..];
        assert e in t <==> e == t[0] || e in t[1..];
        assert s[0] !in s[1..] && t[0] !in t[1..];
      }
      DescendingIsUnique(s[1..], t[1..]);
    }
  }

  lemma ReversedSlice(log: seq<Entry>, lo: nat, hi: nat)
    requires IsLog(log) && lo <= hi <= |log|
    ensures Descending(Reversed(log[lo..hi]))
    ensures forall e :: e in Reversed(log[lo..hi]) <==> exists i | lo <= i < hi :: log[i] == e
    ensures forall k | 0 <= k < hi - lo :: Reversed(log[lo..hi])[k] == log[hi - 1 - k]
  {
    var r := Reversed(log[lo..hi]);
    assert forall k | 0 <= k < hi - lo :: r[k] == log[hi - 1 - k];
    forall e
      ensures e in r <==> exists i | lo <= i < hi :: log[i] == e
    {
      if i :| lo <= i < hi && log[i] == e {
        assert r[hi - 1 - i] == e;
      }
    }
  }

  /** A part of a slice is a slice. */
  lemma SubSlice(log: seq<Entry>, lo: nat, hi: nat, first: nat, end: nat)
    requires lo <= hi <= |log| && first <= end <= hi - lo
    ensures Reversed(log[lo..hi])[first..end] == Reversed(log[hi - end..hi - first])
  {
    var part, whole := Reversed(log[lo..hi])[first..end], Reversed(log[hi - end..hi - first]);
    forall k | 0 <= k < end - first
      ensures part[k] == whole[k]
    {
      assert Reversed(log[lo..hi])[first + k] == log[hi - 1 - first - k] && whole[k] == log[hi - 1 - first - k];
    }
    assert |part| == |whole|;
  }

  /** Entries that touch or overlap join into one slice. */
  lemma JoinedSlice(log: seq<Entry>, combined: seq<Entry>, lo: nat, hi: nat, a: nat, b: nat)
    requires IsLog(log) && lo <= hi <= |log| && a <= b <= |log| && Descending(combined)
    requires forall e :: e in combined <==> e in Reversed(log[lo..hi]) || e in Reversed(log[a..b])
    requires lo < hi && a < b ==> a <= hi && lo <= b
    ensures var bottom, top := if lo == hi then a else if a == b then lo else if lo < a then lo else a,
                               if lo == hi then b else if a == b then hi else if hi < b then b else hi;
      bottom <= top <= |log| && combined == Reversed(log[bottom..top])
  {
    var bottom, top := if lo == hi then a else if a == b then lo else if lo < a then lo else a,
                       if lo == hi then b else if a == b then hi else if hi < b then b else hi;
    ReversedSlice(log, lo, hi);
    ReversedSlice(log, a, b);
    ReversedSlice(log, bottom, top);
    forall e
      ensures e in combined <==> e in Reversed(log[bottom..top])
    {
      if i :| bottom <= i < top && log[i] == e {
        assert lo <= i < hi || a <= i < b;
      }
    }
    DescendingIsUnique(combined, Reversed(log[bottom..top]));
  }

  // ---------------------------------------------------------------------------------------------
  // Merging a page into what is shown
  // ---------------------------------------------------------------------------------------------

  ghost predicate FromLog(log: seq<Entry>, entries: seq<Entry>) {
    forall e | e in entries :: e in log
  }

  lemma SameEntry(log: seq<Entry>, e: Entry, other: Entry)
    requires IsLog(log) && e in log && other in log && (e.id == other.id || e.sequence == other.sequence)
    ensures e == other
  {
    var i :| 0 <= i < |log| && log[i] == e;
    var j :| 0 <= j < |log| && log[j] == other;
    assert !(i < j) && !(j < i);
  }

  /** One entry for each identity, newest first. */
  method Merge(current: seq<Entry>, incoming: seq<Entry>, ghost log: seq<Entry>) returns (combined: seq<Entry>)
    requires IsLog(log) && FromLog(log, current) && FromLog(log, incoming)
    ensures Descending(combined) && forall e :: e in combined <==> e in current || e in incoming
  {
    var unique: map<nat, Entry> := map[];
    var all := current + incoming;
    for i := 0 to |all|
      invariant forall id | id in unique :: unique[id].id == id && unique[id] in all[..i]
      invariant forall e | e in all[..i] :: e.id in unique && unique[e.id] == e
    {
      assert all[..i + 1] == all[..i] + [all[i]];
      forall e | e in all[..i] && e.id == all[i].id
        ensures e == all[i]
      {
        SameEntry(log, e, all[i]);
      }
      unique := unique[all[i].id := all[i]];
    }
    assert all[..|all|] == all;
    combined := [];
    var remaining := unique.Keys;
    while remaining != {}
      invariant remaining <= unique.Keys && Descending(combined)
      invariant forall e :: e in combined <==> e.id in unique && unique[e.id] == e && e.id !in remaining
    {
      var id :| id in remaining;
      assert unique[id] !in combined && forall e | e in combined :: e in all;
      combined := Insert(combined, unique[id], log);
      remaining := remaining - {id};
    }
  }

  method Insert(sorted: seq<Entry>, e: Entry, ghost log: seq<Entry>) returns (r: seq<Entry>)
    requires IsLog(log) && FromLog(log, sorted) && e in log && e !in sorted && Descending(sorted)
    ensures Descending(r) && forall other :: other in r <==> other == e || other in sorted
  {
    var at := 0;
    while at < |sorted| && sorted[at].sequence > e.sequence
      invariant at <= |sorted| && forall i | 0 <= i < at :: sorted[i].sequence > e.sequence
    {
      at := at + 1;
    }
    forall other | other in sorted
      ensures other.sequence != e.sequence
    {
      if other.sequence == e.sequence {
        SameEntry(log, other, e);
      }
    }
    InsertKeepsDescending(sorted, e, at);
    r := sorted[..at] + [e] + sorted[at..];
  }

  lemma InsertKeepsDescending(sorted: seq<Entry>, e: Entry, at: nat)
    requires Descending(sorted) && at <= |sorted|
    requires forall i | 0 <= i < at :: sorted[i].sequence > e.sequence
    requires at < |sorted| ==> sorted[at].sequence < e.sequence
    ensures var r := sorted[..at] + [e] + sorted[at..];
      Descending(r) && forall other :: other in r <==> other == e || other in sorted
  {
    InsertKeepsElements(sorted, e, at);
    var r := sorted[..at] + [e] + sorted[at..];
    forall i, j | 0 <= i < j < |r|
      ensures r[i].sequence > r[j].sequence
    {
      assert r[i] == if i < at then sorted[i] else if i == at then e else sorted[i - 1];
      assert r[j] == if j < at then sorted[j] else if j == at then e else sorted[j - 1];
    }
  }

  lemma InsertKeepsElements(sorted: seq<Entry>, e: Entry, at: nat)
    requires at <= |sorted|
    ensures forall other :: other in sorted[..at] + [e] + sorted[at..] <==> other == e || other in sorted
  {
    assert sorted == sorted[..at] + sorted[at..];
  }

  // ---------------------------------------------------------------------------------------------
  // The route
  // ---------------------------------------------------------------------------------------------

  /** A read under way: what it is for, what was shown when it began, what was asked. `since` is how long the
      log was then. */
  datatype Flight = Flight(direction: Direction, epoch: nat, shown: Window, restoring: bool, request: Request, ghost since: nat)

  datatype Start = Begun | Waits | Dropped | KeptStill

  /** What is shown is entries `lo` to `hi` of the filtered log, newest first. Without more on the older side it
      has the oldest; without more on the newer side it has everything up to `seen`, which is how long the
      filtered log was when the newest end was last read. */
  ghost predicate Shows(log: seq<Entry>, window: Window, lo: nat, hi: nat, seen: nat) {
    && lo <= hi <= |log| && seen <= |log| && window.entries == Reversed(log[lo..hi])
    && (lo == hi ==> lo == 0 && !window.older)
    && (!window.older ==> lo == 0) && (!window.newer ==> seen <= hi)
  }

  /** A read of the present generation began with what is shown now. */
  ghost predicate FlightOk(flight: Flight, generation: nat, window: Window, log: seq<Entry>, hi: nat, restore: Option<nat>,
                           initialized: bool, matches: (Filter, Entry) -> bool, filter: Filter) {
    && flight.epoch <= generation && flight.since <= |log|
    && (flight.epoch == generation ==>
          && flight.shown == window && hi <= |Filtered(log[..flight.since], matches, filter)|
          && flight.request == RequestFor(flight.direction, window, if flight.restoring then restore else None)
          && (flight.restoring ==> flight.direction.Refresh? && restore.Some? && !initialized)
          && (flight.direction.Older? ==> window.older) && (flight.direction.Newer? ==> window.newer))
  }

  lemma FlightGrows(flight: Flight, generation: nat, window: Window, log: seq<Entry>, e: Entry, hi: nat, restore: Option<nat>,
                    initialized: bool, matches: (Filter, Entry) -> bool, filter: Filter)
    requires FlightOk(flight, generation, window, log, hi, restore, initialized, matches, filter)
    ensures FlightOk(flight, generation, window, log + [e], hi, restore, initialized, matches, filter)
  {
    assert (log + [e])[..flight.since] == log[..flight.since];
  }

  lemma EmptyShows(log: seq<Entry>)
    ensures Shows(log, EMPTY, 0, 0, 0)
  {
    assert Reversed(log[0..0]) == [];
  }

  lemma ShowsGrows(log: seq<Entry>, m: nat, matches: (Filter, Entry) -> bool, filter: Filter, window: Window, lo: nat, hi: nat, seen: nat)
    requires m <= |log| && Shows(Filtered(log[..m], matches, filter), window, lo, hi, seen)
    ensures Shows(Filtered(log, matches, filter), window, lo, hi, seen)
  {
    FilteredGrows(log, m, matches, filter);
    assert Filtered(log[..m], matches, filter)[lo..hi] == Filtered(log, matches, filter)[lo..hi];
  }

  class OperationLogs {
    ghost const matches: (Filter, Entry) -> bool
    ghost var log: seq<Entry>
    ghost var lo: nat
    ghost var hi: nat
    ghost var seen: nat
    var generation: nat
    var initialized: bool
    var mounted: bool
    var filterTimer: bool
    var filter: Filter
    var restore: Option<nat>
    var failedDirection: Option<Direction>
    var window: Window
    var active: Option<Flight>

    ghost function Visible(): seq<Entry>
      reads this
    { Filtered(log, matches, filter) }

    ghost predicate Valid()
      reads this
    {
      && IsLog(log) && Shows(Visible(), window, lo, hi, seen)
      && (!initialized ==> window == EMPTY)
      && (active.Some? ==> FlightOk(active.value, generation, window, log, hi, restore, initialized, matches, filter))
    }

    constructor (remembered: Option<nat>, ghost matches: (Filter, Entry) -> bool, ghost log: seq<Entry>)
      requires IsLog(log)
      ensures Valid() && window == EMPTY
    {
      this.matches, this.log, lo, hi, seen := matches, log, 0, 0, 0;
      generation, initialized, mounted, filterTimer, filter, restore := 0, false, true, false, 0, remembered;
      failedDirection, window, active := None, EMPTY, None;
    }

    /** The log grows behind the back of what is shown. */
    ghost method Append(e: Entry)
      requires Valid() && IsLog(log + [e])
      modifies `log
      ensures Valid() && log == old(log) + [e]
    {
      hide Shows, Reversed, FlightOk, IsLog, Filtered;
      assert (log + [e])[..|log|] == log;
      ShowsGrows(log + [e], |log|, matches, filter, window, lo, hi, seen);
      if active.Some? {
        FlightGrows(active.value, generation, window, log, e, hi, restore, initialized, matches, filter);
      }
      log := log + [e];
    }

    /** A read is asked for. A refresh waits for the one under way, any other read is dropped for it; a refresh
        away from the newest end only notes that there is more there. */
    method BeginRead(direction: Direction, epoch: nat, scrolled: bool) returns (start: Start)
      requires Valid()
      modifies `window, `active
      ensures Valid()
      ensures start.Waits? <==> old(active).Some? && epoch == generation && direction.Refresh?
      ensures start.KeptStill? ==
        (old(active).None? && epoch == generation && mounted && !filterTimer && direction.Refresh?
         && failedDirection.None? && initialized && (old(window).newer || scrolled))
      ensures start.Begun? ==
        (old(active).None? && epoch == generation && mounted && !filterTimer && !start.KeptStill?
         && (direction.Older? ==> old(window).older) && (direction.Newer? ==> old(window).newer))
      ensures start.Begun? ==> active.Some? && window == old(window) && active.value.direction == direction && active.value.epoch == epoch
      ensures !start.Begun? ==> active == old(active)
      ensures start.KeptStill? ==> window == old(window).(newer := true)
      ensures start.Waits? || start.Dropped? ==> window == old(window)
    {
      if active.Some? && generation == epoch {
        return if direction.Refresh? then Waits else Dropped;
      }
      if generation != epoch || !mounted || filterTimer {
        return Dropped;
      }
      if direction.Refresh? && failedDirection.None? && initialized && (window.newer || scrolled) {
        window := window.(newer := true);
        return KeptStill;
      }
      if (direction.Older? && !window.older) || (direction.Newer? && !window.newer) {
        return Dropped;
      }
      var restoring := direction.Refresh? && !initialized && restore.Some? && restore.value < MAX_SAFE_INTEGER;
      var request := RequestFor(direction, window, if restoring then restore else None);
      active := Some(Flight(direction, epoch, window, restoring, request, |log|));
      assert log[..|log|] == log;
      start := Begun;
    }

    /** The read under way fails. */
    method FailRead()
      requires Valid() && active.Some?
      modifies `active, `failedDirection
      ensures Valid() && active.None?
      ensures failedDirection == if old(active).value.epoch == generation then Some(old(active).value.direction) else old(failedDirection)
    {
      if active.value.epoch == generation {
        failedDirection := Some(active.value.direction);
      }
      active := None;
    }

    /** The page of the read under way arrives; `m` is how much of the log there was when it was read, and the
        page is its entries `a` to `b`. */
    method FinishRead(page: Page, anchor: Option<nat>, ghost m: nat, ghost a: nat, ghost b: nat)
        returns (sound: bool, ghost bottom: nat, ghost top: nat)
      requires Valid() && active.Some? && active.value.since <= m <= |log|
      requires active.value.epoch == generation && Plausible(window, page) ==>
        Honest(log, m, matches, filter, active.value.request, page, a, b)
      modifies this
      ensures Valid() && active.None? && log == old(log)
      ensures sound <==> old(active).value.epoch != generation || Plausible(old(window), page)
      ensures old(active).value.epoch != generation || !sound ==> window == old(window)
      ensures !sound ==> failedDirection == Some(old(active).value.direction)
      ensures old(active).value.epoch == generation && sound ==>
        |window.entries| <= MAX_ROWS && (Total(window.entries) <= MAX_BYTES || |window.entries| == 1)
      ensures old(active).value.epoch == generation && sound ==>
        seen == if old(active).value.direction.Older? then old(seen) else |Filtered(log[..m], matches, filter)|
      ensures old(active).value.epoch == generation && sound ==>
        && Joined(old(active).value.direction, old(lo), old(hi), a, b, bottom, top)
        && Kept(Visible(), bottom, top, old(active).value.direction, anchor, lo, hi)
        && FlagsAreExact(old(active).value.direction, old(active).value.restoring, old(window), window,
                         |Filtered(log[..m], matches, filter)|, old(lo), old(hi), lo, hi)
    {
      bottom, top := 0, 0;
      sound := true;
      var flight := active.value;
      active := None;
      if flight.epoch != generation {
        return;
      }
      if page.highWatermark < (if window.entries == [] then 0 else window.entries[0].sequence) {
        sound, failedDirection := false, Some(flight.direction);
        return;
      }
      bottom, top := TakePage(flight, page, anchor, m, a, b);
    }

    /** The page of a read that still counts is joined to what is shown. */
    method TakePage(flight: Flight, page: Page, anchor: Option<nat>, ghost m: nat, ghost a: nat, ghost b: nat)
        returns (ghost bottom: nat, ghost top: nat)
      requires IsLog(log) && Shows(Visible(), window, lo, hi, seen) && (!initialized ==> window == EMPTY)
      requires FlightOk(flight, generation, window, log, hi, restore, initialized, matches, filter)
      requires flight.epoch == generation && flight.since <= m <= |log|
      requires Honest(log, m, matches, filter, flight.request, page, a, b)
      modifies `window, `initialized, `failedDirection, `lo, `hi, `seen
      ensures Shows(Visible(), window, lo, hi, seen) && initialized && failedDirection.None?
      ensures |window.entries| <= MAX_ROWS && (Total(window.entries) <= MAX_BYTES || |window.entries| == 1)
      ensures seen == if flight.direction.Older? then old(seen) else |Filtered(log[..m], matches, filter)|
      ensures Joined(flight.direction, old(lo), old(hi), a, b, bottom, top) && Kept(Visible(), bottom, top, flight.direction, anchor, lo, hi)
      ensures FlagsAreExact(flight.direction, flight.restoring, old(window), window, |Filtered(log[..m], matches, filter)|, old(lo), old(hi), lo, hi)
    {
      hide Reversed, Total;
      ghost var all, known := Visible(), |Filtered(log[..m], matches, filter)|;
      PrefixesOf(log, flight.since, m, matches, filter);
      assert Filtered(log[..m], matches, filter) == all[..known];
      PageMeets(all, known, window, lo, hi, seen, flight.direction, flight.restoring, flight.request, page, a, b);
      HighIsHigh(log, m, matches, filter, page.highWatermark);
      hide Shows, Answers, Filtered, IsLog, Meets, HighMark, Joined, Kept, FlagsAreExact;
      window, lo, hi, bottom, top := Combine(window, flight.direction, flight.restoring, page, anchor, all, known, lo, hi, seen, a, b);
      initialized, failedDirection := true, None;
      seen := if flight.direction.Older? then seen else known;
    }

    /** The filter changes: everything starts over, and what is under way counts no more. */
    method ChangeFilter(next: Filter)
      requires Valid()
      modifies this
      ensures Valid() && window == EMPTY && filter == next && filterTimer && generation == old(generation) + 1 && active == old(active)
    {
      hide Shows, Filtered, IsLog;
      generation, filter := generation + 1, next;
      initialized, failedDirection, restore := false, None, None;
      window, filterTimer := EMPTY, true;
      lo, hi, seen := 0, 0, 0;
      EmptyShows(Filtered(log, matches, next));
    }

    method FilterTimerFires()
      requires Valid()
      modifies `filterTimer
      ensures Valid() && !filterTimer
    {
      filterTimer := false;
    }

    method Unmount()
      requires Valid()
      modifies `generation, `filterTimer, `mounted
      ensures Valid() && generation == old(generation) + 1 && window == old(window)
    {
      generation, filterTimer, mounted := generation + 1, false, false;
    }
  }

  function RequestFor(direction: Direction, window: Window, restore: Option<nat>): Request {
    match direction
    case Older => if window.entries == [] then Head else Before(window.entries[|window.entries| - 1].sequence)
    case Newer => After(if window.entries == [] then 0 else window.entries[0].sequence)
    case Refresh => if restore.Some? then Before(restore.value + 1) else Head
  }

  method Reverse(entries: seq<Entry>) returns (r: seq<Entry>)
    ensures r == Reversed(entries)
  {
    r := [];
    for i := 0 to |entries|
      invariant r == Reversed(entries)[..i]
    {
      r := r + [entries[|entries| - 1 - i]];
    }
  }

  /** Only who has everything up to `known` has the newest record there was. */
  ghost predicate HighMark(all: seq<Entry>, known: nat, highWatermark: nat) {
    forall top: nat | top <= |all| && Reaches(all, top, highWatermark) :: known <= top
  }

  ghost predicate Reaches(all: seq<Entry>, top: nat, highWatermark: nat)
    requires top <= |all|
  { if top == 0 then highWatermark == 0 else highWatermark <= all[top - 1].sequence }

  /** What is shown after a read: its page joined to what was shown, around the row being read. */
  method Combine(current: Window, direction: Direction, restoring: bool, page: Page, anchor: Option<nat>, ghost all: seq<Entry>,
                 ghost known: nat, ghost lo: nat, ghost hi: nat, ghost seen: nat, ghost a: nat, ghost b: nat)
      returns (shown: Window, ghost lo': nat, ghost hi': nat, ghost bottom: nat, ghost top: nat)
    requires IsLog(all) && known <= |all| && Shows(all, current, lo, hi, seen) && hi <= known
    requires a <= b <= known && page.entries == all[a..b]
    requires Meets(direction, restoring, current, page, known, lo, hi, a, b) && HighMark(all, known, page.highWatermark)
    ensures Shows(all, shown, lo', hi', if direction.Older? then seen else known) && hi' <= known
    ensures |shown.entries| <= MAX_ROWS && (Total(shown.entries) <= MAX_BYTES || |shown.entries| == 1)
    ensures Joined(direction, lo, hi, a, b, bottom, top) && Kept(all, bottom, top, direction, anchor, lo', hi')
    ensures FlagsAreExact(direction, restoring, current, shown, known, lo, hi, lo', hi')
  {
    var adjacent, limited;
    ghost var first, end, center;
    hide *;
    JoinFits(all, known, current, direction, restoring, page, lo, hi, seen, a, b);
    adjacent, limited, bottom, top, first, end, center := JoinAndLimit(current.entries, direction, page.entries, anchor, all, lo, hi, a, b);
    shown := Window(limited.entries, MoreOlder(limited, current, direction, page, adjacent),
                    MoreNewer(limited, current, direction, restoring, page));
    lo', hi' := top - end, top - first;
    FlagsAreRight(all, known, current, direction, restoring, page, lo, hi, seen, a, b, adjacent, bottom, top, first, end, limited);
    JoinIsRight(all, known, current, direction, restoring, page, lo, hi, seen, a, b, adjacent, bottom, top);
    PartIsKept(all, bottom, top, direction, anchor, center, first, end);
  }

  lemma PartIsKept(all: seq<Entry>, bottom: nat, top: nat, direction: Direction, anchor: Option<nat>, center: nat, first: nat, end: nat)
    requires bottom <= top <= |all| && first <= end <= top - bottom
    requires bottom < top ==> IsCenter(Reversed(all[bottom..top]), direction, anchor, center)
    requires bottom < top ==> IsLimited(Reversed(all[bottom..top]), direction, center, first, end)
    ensures Kept(all, bottom, top, direction, anchor, top - end, top - first)
  {
    hide IsCenter, IsLimited, Reversed;
  }

  /** What a page is joined with: what is shown, unless a refresh has nothing in common with it. */
  ghost predicate Joined(direction: Direction, lo: nat, hi: nat, a: nat, b: nat, bottom: nat, top: nat) {
    match direction
    case Older => bottom == a && top == hi
    case Newer => bottom == lo && top == b
    case Refresh =>
      if a < b && lo < hi && a < hi && lo < b then bottom == (if lo < a then lo else a) && top == (if hi < b then b else hi)
      else bottom == a && top == b
  }

  /** What is shown then is the one part of it that can be kept. */
  ghost predicate Kept(all: seq<Entry>, bottom: nat, top: nat, direction: Direction, anchor: Option<nat>, lo: nat, hi: nat) {
    && bottom <= lo <= hi <= top <= |all|
    && (bottom < top ==> exists center ::
          && IsCenter(Reversed(all[bottom..top]), direction, anchor, center)
          && IsLimited(Reversed(all[bottom..top]), direction, center, top - hi, top - lo))
  }

  /** After a read away from the newest end the older side is right, and after any other the newer side is. A read that
      does not see a side leaves what was known of it, and notes what was cut off. */
  ghost predicate FlagsAreExact(direction: Direction, restoring: bool, before: Window, shown: Window, known: nat,
                                lo: nat, hi: nat, lo': nat, hi': nat) {
    match direction
    case Older => (shown.older <==> lo' > 0) && (shown.newer <==> before.newer || hi' < hi)
    case Newer => (shown.older <==> before.older || lo < lo') && (shown.newer <==> hi' < known)
    case Refresh => !restoring ==> (shown.newer <==> hi' < known)
  }

  /** Among more rows on the side being read than were shown, some are kept, unless the rows from the center on fill the
      window already. */
  lemma PartGoesOn(rows: seq<Entry>, direction: Direction, anchor: Option<nat>, center: nat, first: nat, end: nat)
    requires IsCenter(rows, direction, anchor, center) && IsLimited(rows, direction, center, first, end)
    ensures first <= center < end <= |rows|
    ensures direction.Older? && end < |rows| ==>
      && anchor == Some(rows[center].sequence)
      && (end - center >= MAX_ROWS || Total(rows[center..end]) + rows[end].bytes > MAX_BYTES)
    ensures direction.Newer? && 0 < first ==>
      && anchor == Some(rows[center].sequence)
      && (center + 1 - first >= MAX_ROWS || Total(rows[first..center + 1]) + rows[first - 1].bytes > MAX_BYTES)
  {
    hide Total, HasRow, Fits;
  }

  lemma RowIs(all: seq<Entry>, bottom: nat, top: nat, row: nat)
    requires bottom <= top <= |all| && row < top - bottom
    ensures Reversed(all[bottom..top])[row] == all[top - 1 - row]
  {}

  /** A read of older rows that brings some shows some of them, unless the rows from the one being read on fill the window
      already. */
  lemma OlderReadGoesOn(all: seq<Entry>, lo: nat, hi: nat, a: nat, b: nat, bottom: nat, top: nat, anchor: Option<nat>, lo': nat, hi': nat)
    requires a < b == lo < hi <= |all| && Joined(Older, lo, hi, a, b, bottom, top) && Kept(all, bottom, top, Older, anchor, lo', hi')
    ensures lo' < lo || exists k | lo' <= k < hi' ::
      && anchor == Some(all[k].sequence)
      && (k + 1 - lo' >= MAX_ROWS || Total(Reversed(all[lo'..k + 1])) + all[lo' - 1].bytes > MAX_BYTES)
  {
    hide Total, IsCenter, IsLimited, Reversed;
    var rows := Reversed(all[bottom..top]);
    var center: nat :| IsCenter(rows, Older, anchor, center) && IsLimited(rows, Older, center, top - hi', top - lo');
    PartGoesOn(rows, Older, anchor, center, top - hi', top - lo');
    if lo <= lo' {
      var k := top - 1 - center;
      RowIs(all, bottom, top, center);
      RowIs(all, bottom, top, top - lo');
      SubSlice(all, bottom, top, center, top - lo');
    }
  }

  /** And a read of newer rows, towards the other end. */
  lemma NewerReadGoesOn(all: seq<Entry>, lo: nat, hi: nat, a: nat, b: nat, bottom: nat, top: nat, anchor: Option<nat>, lo': nat, hi': nat)
    requires lo <= hi == a < b <= |all| && Joined(Newer, lo, hi, a, b, bottom, top) && Kept(all, bottom, top, Newer, anchor, lo', hi')
    ensures hi < hi' || exists k | lo' <= k < hi' ::
      && anchor == Some(all[k].sequence)
      && (hi' - k >= MAX_ROWS || Total(Reversed(all[k..hi'])) + all[hi'].bytes > MAX_BYTES)
  {
    hide Total, IsCenter, IsLimited, Reversed;
    var rows := Reversed(all[bottom..top]);
    var center: nat :| IsCenter(rows, Newer, anchor, center) && IsLimited(rows, Newer, center, top - hi', top - lo');
    PartGoesOn(rows, Newer, anchor, center, top - hi', top - lo');
    if hi' <= hi {
      var k := top - 1 - center;
      RowIs(all, bottom, top, center);
      RowIs(all, bottom, top, top - hi' - 1);
      SubSlice(all, bottom, top, top - hi', center + 1);
    }
  }

  /** A read that restores what was shown ends at the row that is remembered, or the last one before it. */
  lemma RestoringReadEndsThere(all: seq<Entry>, window: Window, remembered: nat, page: Page, a: nat, b: nat)
    requires IsLog(all) && Answers(all, RequestFor(Refresh, window, Some(remembered)), page, a, b)
    ensures a <= b <= |all| && page.entries == all[a..b]
    ensures forall i | 0 <= i < |all| :: i < b <==> all[i].sequence <= remembered
  {}

  lemma JoinIsRight(all: seq<Entry>, known: nat, current: Window, direction: Direction, restoring: bool, page: Page,
                    lo: nat, hi: nat, seen: nat, a: nat, b: nat, adjacent: bool, bottom: nat, top: nat)
    requires Shows(all, current, lo, hi, seen) && a <= b <= known && hi <= known
    requires Meets(direction, restoring, current, page, known, lo, hi, a, b)
    requires !direction.Refresh? ==> adjacent
    requires direction.Refresh? ==> (adjacent <==> lo < hi && a < b && a < hi && lo < b)
    requires bottom == (if adjacent then Bottom(lo, hi, a, b) else a) && top == (if adjacent then Top(lo, hi, a, b) else b)
    ensures Joined(direction, lo, hi, a, b, bottom, top)
  {}

  lemma JoinFits(all: seq<Entry>, known: nat, current: Window, direction: Direction, restoring: bool, page: Page,
                 lo: nat, hi: nat, seen: nat, a: nat, b: nat)
    requires Shows(all, current, lo, hi, seen) && Meets(direction, restoring, current, page, known, lo, hi, a, b)
    ensures lo <= hi <= |all| && current.entries == Reversed(all[lo..hi])
    ensures (direction.Older? ==> b == lo) && (direction.Newer? ==> a == hi)
  {}

  method JoinAndLimit(current: seq<Entry>, direction: Direction, entries: seq<Entry>, anchor: Option<nat>, ghost all: seq<Entry>,
                      ghost lo: nat, ghost hi: nat, ghost a: nat, ghost b: nat)
      returns (adjacent: bool, limited: Window, ghost bottom: nat, ghost top: nat, ghost first: nat, ghost end: nat, ghost center: nat)
    requires IsLog(all) && lo <= hi <= |all| && a <= b <= |all| && current == Reversed(all[lo..hi]) && entries == all[a..b]
    requires direction.Older? ==> b == lo
    requires direction.Newer? ==> a == hi
    ensures !direction.Refresh? ==> adjacent
    ensures direction.Refresh? && adjacent ==> lo < hi && a < b && a < hi && lo < b
    ensures bottom == (if adjacent then Bottom(lo, hi, a, b) else a) && top == (if adjacent then Top(lo, hi, a, b) else b)
    ensures bottom <= top <= |all| && first <= end <= top - bottom && (bottom < top ==> first < end)
    ensures limited == Window(Reversed(all[top - end..top - first]), end < top - bottom, first > 0)
    ensures |limited.entries| <= MAX_ROWS && (Total(limited.entries) <= MAX_BYTES || |limited.entries| == 1)
    ensures bottom < top ==> IsCenter(Reversed(all[bottom..top]), direction, anchor, center)
    ensures bottom < top ==> IsLimited(Reversed(all[bottom..top]), direction, center, first, end)
    ensures direction.Refresh? ==> (adjacent <==> lo < hi && a < b && a < hi && lo < b)
  {
    hide IsLog, Bottom, Top, Total, Fits, FullTowardOlder, FullTowardNewer;
    bottom, top := 0, 0;
    var combined;
    adjacent, combined := Join(current, direction, entries, all, lo, hi, a, b);
    bottom, top := if adjacent then Bottom(lo, hi, a, b) else a, if adjacent then Top(lo, hi, a, b) else b;
    limited, first, end, center := LimitWindow(combined, direction, anchor);
    assert bottom < top ==> end > first by {
      hide IsCenter;
      assert bottom < top ==> IsLimited(combined, direction, center, first, end);
    }
    SubSlice(all, bottom, top, first, end);
  }

  /** The page, joined to what is shown unless a refresh found nothing in common. */
  method Join(current: seq<Entry>, direction: Direction, entries: seq<Entry>, ghost all: seq<Entry>,
              ghost lo: nat, ghost hi: nat, ghost a: nat, ghost b: nat)
      returns (adjacent: bool, combined: seq<Entry>)
    requires IsLog(all) && lo <= hi <= |all| && a <= b <= |all| && current == Reversed(all[lo..hi]) && entries == all[a..b]
    requires direction.Older? ==> b == lo
    requires direction.Newer? ==> a == hi
    ensures !direction.Refresh? ==> adjacent
    ensures direction.Refresh? ==> (adjacent <==> lo < hi && a < b && a < hi && lo < b)
    ensures var bottom, top := if adjacent then Bottom(lo, hi, a, b) else a, if adjacent then Top(lo, hi, a, b) else b;
      bottom <= top <= |all| && combined == Reversed(all[bottom..top])
  {
    var incoming := Reverse(entries);
    adjacent := !direction.Refresh? || Overlap(incoming, current);
    ghost var low, high := if adjacent then lo else 0, if adjacent then hi else 0;
    ReversedSlice(all, low, high);
    ReversedSlice(all, a, b);
    OverlapMeets(all, lo, hi, a, b);
    combined := Merge(if adjacent then current else [], incoming, all);
    assert adjacent || Reversed(all[low..high]) == [];
    JoinedSlice(all, combined, low, high, a, b);
  }

  /** How the page of a read lies to what is shown. */
  ghost predicate Meets(direction: Direction, restoring: bool, current: Window, page: Page, known: nat, lo: nat, hi: nat, a: nat, b: nat) {
    match direction
    case Older => b == lo < hi && !restoring && (page.hasMore <==> a > 0)
    case Newer => a == hi && !restoring && (page.hasMore <==> b < known)
    case Refresh =>
      && (page.hasMore <==> a > 0) && (page.hasMore ==> a < b)
      && if restoring then current == EMPTY else b == known
  }

  predicate MoreOlder(limited: Window, current: Window, direction: Direction, page: Page, adjacent: bool) {
    limited.older || (if direction.Newer? then current.older else page.hasMore || (direction.Refresh? && adjacent && current.older))
  }

  predicate MoreNewer(limited: Window, current: Window, direction: Direction, restoring: bool, page: Page) {
    || limited.newer
    || (if direction.Older? then current.newer else direction.Newer? && page.hasMore)
    || (restoring && page.highWatermark > (if limited.entries == [] then 0 else limited.entries[0].sequence))
  }

  /** Whether there is more on either side is answered right for the part of the joined entries that is kept. */
  lemma FlagsAreRight(all: seq<Entry>, known: nat, current: Window, direction: Direction, restoring: bool, page: Page,
                      lo: nat, hi: nat, seen: nat, a: nat, b: nat, adjacent: bool, bottom: nat, top: nat,
                      first: nat, end: nat, limited: Window)
    requires known <= |all| && Shows(all, current, lo, hi, seen) && hi <= known && a <= b <= known
    requires Meets(direction, restoring, current, page, known, lo, hi, a, b) && HighMark(all, known, page.highWatermark)
    requires !direction.Refresh? ==> adjacent
    requires direction.Refresh? && adjacent ==> lo < hi && a < b && a < hi && lo < b
    requires bottom == (if adjacent then Bottom(lo, hi, a, b) else a) && top == (if adjacent then Top(lo, hi, a, b) else b)
    requires bottom <= top && first <= end <= top - bottom && (bottom < top ==> first < end)
    requires limited == Window(Reversed(all[top - end..top - first]), end < top - bottom, first > 0)
    ensures var shown := Window(limited.entries, MoreOlder(limited, current, direction, page, adjacent),
                                MoreNewer(limited, current, direction, restoring, page));
      && Shows(all, shown, top - end, top - first, if direction.Older? then seen else known) && top <= known
      && FlagsAreExact(direction, restoring, current, shown, known, lo, hi, top - end, top - first)
  {
    if restoring && !MoreNewer(limited, current, direction, restoring, page) {
      assert Reaches(all, top, page.highWatermark);
    }
  }

  predicate Overlap(s: seq<Entry>, t: seq<Entry>) { exists e | e in s :: exists f | f in t :: e.id == f.id }

  ghost function Bottom(lo: nat, hi: nat, a: nat, b: nat): nat {
    if lo == hi then a else if a == b then lo else if lo < a then lo else a
  }

  ghost function Top(lo: nat, hi: nat, a: nat, b: nat): nat {
    if lo == hi then b else if a == b then hi else if hi < b then b else hi
  }

  lemma PrefixesOf(log: seq<Entry>, since: nat, m: nat, matches: (Filter, Entry) -> bool, filter: Filter)
    requires IsLog(log) && since <= m <= |log|
    ensures Filtered(log[..m], matches, filter) <= Filtered(log, matches, filter)
    ensures |Filtered(log[..since], matches, filter)| <= |Filtered(log[..m], matches, filter)|
    ensures IsLog(Filtered(log, matches, filter))
  {
    FilteredGrows(log, m, matches, filter);
    FilteredGrows(log[..m], since, matches, filter);
    assert log[..m][..since] == log[..since];
    FilteredIsLog(log, matches, filter);
  }

  /** Where the page of a read lies: right before what is shown, right after it, or at the newest end. */
  lemma PageMeets(all: seq<Entry>, known: nat, window: Window, lo: nat, hi: nat, seen: nat,
                  direction: Direction, restoring: bool, request: Request, page: Page, a: nat, b: nat)
    requires IsLog(all) && known <= |all| && Shows(all, window, lo, hi, seen) && hi <= known
    requires Answers(all[..known], request, page, a, b) && (direction.Older? ==> window.older)
    requires if restoring then direction.Refresh? && window == EMPTY && request.Before? else request == RequestFor(direction, window, None)
    ensures page.entries == all[a..b] && a <= b <= known
    ensures Meets(direction, restoring, window, page, known, lo, hi, a, b)
  {
    hide IsLog, Shows, Answers, Reversed;
    if direction.Older? {
      OlderMeets(all, known, window, lo, hi, seen, page, a, b);
    } else if direction.Newer? {
      NewerMeets(all, known, window, lo, hi, seen, page, a, b);
    } else {
      RefreshMeets(all, known, request, page, a, b);
    }
    PageIsSlice(all, known, request, page, a, b);
  }

  lemma PageIsSlice(all: seq<Entry>, known: nat, request: Request, page: Page, a: nat, b: nat)
    requires known <= |all| && Answers(all[..known], request, page, a, b)
    ensures page.entries == all[a..b] && a <= b <= known
  {
    assert all[..known][a..b] == all[a..b];
  }

  lemma RefreshMeets(all: seq<Entry>, known: nat, request: Request, page: Page, a: nat, b: nat)
    requires known <= |all| && Answers(all[..known], request, page, a, b) && !request.After?
    ensures (page.hasMore <==> a > 0) && (page.hasMore ==> a < b) && (request.Head? ==> b == known)
  {}

  lemma OlderMeets(all: seq<Entry>, known: nat, window: Window, lo: nat, hi: nat, seen: nat, page: Page, a: nat, b: nat)
    requires IsLog(all) && known <= |all| && Shows(all, window, lo, hi, seen) && hi <= known && window.older
    requires Answers(all[..known], RequestFor(Older, window, None), page, a, b)
    ensures b == lo < hi && (page.hasMore <==> a > 0)
  {
    assert RequestFor(Older, window, None) == Before(all[lo].sequence);
    hide Shows, Reversed, RequestFor;
    SplitIsUnique(all[..known], all[lo].sequence - 1, b, lo);
  }

  lemma NewerMeets(all: seq<Entry>, known: nat, window: Window, lo: nat, hi: nat, seen: nat, page: Page, a: nat, b: nat)
    requires IsLog(all) && known <= |all| && Shows(all, window, lo, hi, seen) && hi <= known
    requires Answers(all[..known], RequestFor(Newer, window, None), page, a, b)
    ensures a == hi && (page.hasMore <==> b < known)
  {
    assert RequestFor(Newer, window, None) == After(if lo < hi then all[hi - 1].sequence else 0);
    assert lo == hi ==> hi == 0;
    hide Shows, Reversed, RequestFor;
    SplitIsUnique(all[..known], if lo < hi then all[hi - 1].sequence else 0, a, hi);
  }

  /** Only one position in the log is right after everything up to `x`. */
  lemma SplitIsUnique(s: seq<Entry>, x: int, a: nat, b: nat)
    requires IsLog(s) && a <= |s| && b <= |s|
    requires (forall i | 0 <= i < a :: s[i].sequence <= x) && (a < |s| ==> x < s[a].sequence)
    requires (forall i | 0 <= i < b :: s[i].sequence <= x) && (b < |s| ==> x < s[b].sequence)
    ensures a == b
  {
    assert forall i | 0 <= i < |s| :: i < a <==> s[i].sequence <= x;
    assert forall i | 0 <= i < |s| :: i < b <==> s[i].sequence <= x;
  }

  /** Nothing of the log so far is newer than its high watermark. */
  lemma OldIsBelow(log: seq<Entry>, m: nat, matches: (Filter, Entry) -> bool, filter: Filter, i: nat)
    requires IsLog(log) && m <= |log| && i < |Filtered(log[..m], matches, filter)|
    ensures i < |Filtered(log, matches, filter)| && m > 0
    ensures 0 < Filtered(log, matches, filter)[i].sequence <= log[m - 1].sequence
  {
    FilteredGrows(log, m, matches, filter);
    FilteredIsLog(log[..m], matches, filter);
    assert Filtered(log[..m], matches, filter)[i] in log[..m];
    assert Filtered(log, matches, filter)[i] == Filtered(log[..m], matches, filter)[i];
  }

  /** A page that is not older than what is shown. */
  predicate Plausible(window: Window, page: Page) {
    (if window.entries == [] then 0 else window.entries[0].sequence) <= page.highWatermark
  }

  /** The page is what the daemon answers of the first `m` entries of the log. */
  ghost predicate Honest(log: seq<Entry>, m: nat, matches: (Filter, Entry) -> bool, filter: Filter, request: Request,
                         page: Page, a: nat, b: nat) {
    && m <= |log| && Answers(Filtered(log[..m], matches, filter), request, page, a, b)
    && page.highWatermark == if m == 0 then 0 else log[m - 1].sequence
  }

  /** An honest page, read when everything shown was there, is never refused. */
  lemma HonestPagesArePlausible(log: seq<Entry>, m: nat, matches: (Filter, Entry) -> bool, filter: Filter, window: Window,
                                lo: nat, hi: nat, seen: nat, request: Request, page: Page, a: nat, b: nat)
    requires IsLog(log) && Honest(log, m, matches, filter, request, page, a, b)
    requires Shows(Filtered(log, matches, filter), window, lo, hi, seen) && hi <= |Filtered(log[..m], matches, filter)|
    ensures Plausible(window, page)
  {
    if lo < hi {
      OldIsBelow(log, m, matches, filter, hi - 1);
    }
  }

  lemma OverlapMeets(all: seq<Entry>, lo: nat, hi: nat, a: nat, b: nat)
    requires IsLog(all) && lo <= hi <= |all| && a <= b <= |all|
    ensures Overlap(Reversed(all[a..b]), Reversed(all[lo..hi])) <==> lo < hi && a < b && a < hi && lo < b
  {
    if lo < hi && a < b && a < hi && lo < b {
      var i := if a < lo then lo else a;
      assert Reversed(all[a..b])[b - 1 - i] == all[i] && Reversed(all[lo..hi])[hi - 1 - i] == all[i];
      assert all[i] in Reversed(all[a..b]) && all[i] in Reversed(all[lo..hi]);
    }
  }

  lemma HighIsHigh(log: seq<Entry>, m: nat, matches: (Filter, Entry) -> bool, filter: Filter, highWatermark: nat)
    requires IsLog(log) && m <= |log| && highWatermark == if m == 0 then 0 else log[m - 1].sequence
    ensures HighMark(Filtered(log, matches, filter), |Filtered(log[..m], matches, filter)|, highWatermark)
  {
    forall top: nat | top <= |Filtered(log, matches, filter)| && Reaches(Filtered(log, matches, filter), top, highWatermark)
      ensures |Filtered(log[..m], matches, filter)| <= top
    {
      NewestIsSeen(log, m, matches, filter, highWatermark, top);
    }
  }

  lemma NewestIsSeen(log: seq<Entry>, m: nat, matches: (Filter, Entry) -> bool, filter: Filter, highWatermark: nat, top: nat)
    requires IsLog(log) && m <= |log| && highWatermark == if m == 0 then 0 else log[m - 1].sequence
    requires top <= |Filtered(log, matches, filter)|
    requires if top == 0 then highWatermark == 0 else highWatermark <= Filtered(log, matches, filter)[top - 1].sequence
    ensures |Filtered(log[..m], matches, filter)| <= top
  {
    if top < |Filtered(log[..m], matches, filter)| {
      OldIsBelow(log, m, matches, filter, top);
      FilteredIsLog(log, matches, filter);
    }
  }
}
