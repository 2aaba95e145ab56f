/** The list of operations in the GUI: what is known is merged with what is read, and the head that is read after
    an absence is followed back until it meets what was known. */
module OperationHistory {
  import opened Wrappers

  /** Identifiers are ordered as they compare. */
  datatype Operation = Operation(created: int, id: nat, revision: nat, terminal: bool, payload: nat)

  /** A place in the list: operations come newest first, by when they were created and then by identifier. */
  datatype Cursor = Cursor(created: int, id: nat)

  function Key(op: Operation): Cursor { Cursor(op.created, op.id) }

  predicate Below(a: Cursor, b: Cursor) { a.created < b.created || (a.created == b.created && a.id < b.id) }

  // ---------------------------------------------------------------------------------------------
  // Merging
  // ---------------------------------------------------------------------------------------------

  ghost predicate Descending(ops: seq<Operation>) {
    forall i, j | 0 <= i < j < |ops| :: Below(Key(ops[j]), Key(ops[i])) && ops[i].id != ops[j].id
  }

  /** What is known by identifier, the later of two in a list. */
  function ById(ops: seq<Operation>): map<nat, Operation> {
    if ops == [] then map[] else ById(ops[..|ops| - 1])[ops[|ops| - 1].id := ops[|ops| - 1]]
  }

  /** Takes in what is read: newer revisions, and the same revision read again. */
  function TakeIn(known: map<nat, Operation>, incoming: seq<Operation>): map<nat, Operation> {
    if incoming == [] then known
    else
      var before, op := TakeIn(known, incoming[..|incoming| - 1]), incoming[|incoming| - 1];
      if op.id !in before || op.revision >= before[op.id].revision then before[op.id := op] else before
  }

  /** The list of what is known, newest first. */
  ghost predicate Lists(known: map<nat, Operation>, ops: seq<Operation>) {
    Descending(ops) && forall op :: op in ops <==> op.id in known && known[op.id] == op
  }

  ghost predicate Merges(current: seq<Operation>, incoming: seq<Operation>, merged: seq<Operation>) {
    Lists(TakeIn(ById(current), incoming), merged)
  }

  method Merge(current: seq<Operation>, incoming: seq<Operation>) returns (merged: seq<Operation>)
    ensures Merges(current, incoming, merged)
  {
    var items: map<nat, Operation> := map[];
    assert current[..0] == [];
    for i := 0 to |current|
      invariant items == ById(current[..i])
    {
      assert current[..i + 1][..i] == current[..i];
      items := items[current[i].id := current[i]];
    }
    assert current[..|current|] == current && incoming[..0] == [];
    for i := 0 to |incoming|
      invariant items == TakeIn(ById(current), incoming[..i])
    {
      assert incoming[..i + 1][..i] == incoming[..i];
      var item := incoming[i];
      if item.id !in items || item.revision >= items[item.id].revision {
        items := items[item.id := item];
      }
    }
    assert incoming[..|incoming|] == incoming;
    ByIdIsById(current);
    TakeInIsById(ById(current), incoming);
    merged := SortNewestFirst(items);
  }

  method Any(ids: set<nat>) returns (id: nat)
    requires ids != {}
    ensures id in ids
  {
    id :| id in ids;
  }

  method SortNewestFirst(items: map<nat, Operation>) returns (sorted: seq<Operation>)
    requires forall id | id in items :: items[id].id == id
    ensures Lists(items, sorted)
  {
    sorted := [];
    var remaining := items.Keys;
    while remaining != {}
      invariant remaining <= items.Keys && Descending(sorted)
      invariant forall op :: op in sorted <==> op.id in items && items[op.id] == op && op.id !in remaining
    {
      var id := Any(remaining);
      sorted := Insert(sorted, items[id]);
      remaining := remaining - {id};
    }
  }

  method Insert(sorted: seq<Operation>, op: Operation) returns (r: seq<Operation>)
    requires Descending(sorted) && forall o | o in sorted :: o.id != op.id
    ensures Descending(r) && forall o :: o in r <==> o == op || o in sorted
  {
    var at := 0;
    while at < |sorted| && Below(Key(op), Key(sorted[at]))
      invariant at <= |sorted| && forall i | 0 <= i < at :: Below(Key(op), Key(sorted[i]))
    {
      at := at + 1;
    }
    InsertKeepsDescending(sorted, op, at);
    r := sorted[..at] + [op] + sorted[at..];
  }

  lemma InsertKeepsDescending(sorted: seq<Operation>, op: Operation, at: nat)
    requires Descending(sorted) && at <= |sorted| && forall o | o in sorted :: o.id != op.id
    requires forall i | 0 <= i < at :: Below(Key(op), Key(sorted[i]))
    requires at < |sorted| ==> !Below(Key(op), Key(sorted[at]))
    ensures Descending(sorted[..at] + [op] + sorted[at..])
    ensures forall o :: o in sorted[..at] + [op] + sorted[at..] <==> o == op || o in sorted
  {
    InsertKeepsElements(sorted, op, at);
    var r := sorted[..at] + [op] + sorted[at..];
    assert forall i | 0 <= i < |sorted| :: sorted[i].id != op.id;
    assert forall i | at <= i < |sorted| :: Below(Key(sorted[i]), Key(op)) by {
      if at < |sorted| {
        assert sorted[at].id != op.id;
        assert forall i | at < i < |sorted| :: Below(Key(sorted[i]), Key(sorted[at]));
      }
    }
    hide Below;
    forall i, j | 0 <= i < j < |r|
      ensures Below(Key(r[j]), Key(r[i])) && r[i].id != r[j].id
    {
      assert r[i] == if i < at then sorted[i] else if i == at then op else sorted[i - 1];
      assert r[j] == if j < at then sorted[j] else if j == at then op else sorted[j - 1];
    }
  }

  lemma InsertKeepsElements(sorted: seq<Operation>, op: Operation, at: nat)
    requires at <= |sorted|
    ensures forall o :: o in sorted[..at] + [op] + sorted[at..] <==> o == op || o in sorted
  {
    assert sorted == sorted[..at] + sorted[at..];
  }

  lemma {:induction false} ByIdIsById(ops: seq<Operation>)
    ensures forall id | id in ById(ops) :: ById(ops)[id].id == id && ById(ops)[id] in ops
    ensures forall op | op in ops :: op.id in ById(ops)
  {
    if ops != [] {
      var rest, last := ops[..|ops| - 1], ops[|ops| - 1];
      ByIdIsById(rest);
      assert ops == rest + [last];
      assert forall op :: op in ops <==> op in rest || op == last;
    }
  }

  lemma {:induction false} ByIdIsExact(ops: seq<Operation>, op: Operation)
    requires Descending(ops)
    ensures op in ops <==> op.id in ById(ops) && ById(ops)[op.id] == op
  {
    if ops != [] {
      var rest, last := ops[..|ops| - 1], ops[|ops| - 1];
      ByIdIsExact(rest, op);
      assert ops == rest + [last];
      assert forall i | 0 <= i < |rest| :: rest[i].id != last.id;
      assert op in ops <==> op in rest || op == last;
    }
  }

  lemma {:induction false} TakeInIsById(known: map<nat, Operation>, incoming: seq<Operation>)
    requires forall id | id in known :: known[id].id == id
    ensures forall id | id in TakeIn(known, incoming) :: TakeIn(known, incoming)[id].id == id
  {
    if incoming != [] {
      TakeInIsById(known, incoming[..|incoming| - 1]);
    }
  }

  /** What a merge knows: of each operation the highest revision there is of it. Of the same revision it takes
      what was read last. */
  lemma {:induction false} TakeInTakesHighest(known: map<nat, Operation>, incoming: seq<Operation>, id: nat)
    requires forall i | i in known :: known[i].id == i
    ensures var r := TakeIn(known, incoming);
      && (id in r <==> id in known || exists i | 0 <= i < |incoming| :: incoming[i].id == id)
      && (id in r ==> (id in known && r[id] == known[id]) || exists i | 0 <= i < |incoming| :: incoming[i] == r[id])
      && (id in known ==> known[id].revision <= r[id].revision)
      && (forall i | 0 <= i < |incoming| && incoming[i].id == id ::
            incoming[i].revision < r[id].revision
            || (incoming[i].revision == r[id].revision
                && exists j | i <= j < |incoming| :: incoming[j] == r[id]))
  {
    if incoming != [] {
      var before, last := incoming[..|incoming| - 1], incoming[|incoming| - 1];
      TakeInTakesHighest(known, before, id);
      var r, r' := TakeIn(known, before), TakeIn(known, incoming);
      assert forall i | 0 <= i < |before| :: incoming[i] == before[i];
      if last.id != id || (id in r && last.revision < r[id].revision) {
        assert id in r <==> id in r';
        forall i | 0 <= i < |incoming| && incoming[i].id == id
          ensures incoming[i].revision < r'[id].revision
            || (incoming[i].revision == r'[id].revision && exists j | i <= j < |incoming| :: incoming[j] == r'[id])
        {
          if i < |before| && before[i].revision == r[id].revision {
            var j :| i <= j < |before| && before[j] == r[id];
            assert incoming[j] == r'[id];
          }
        }
      } else {
        assert r'[id] == last == incoming[|incoming| - 1];
      }
    }
  }

  /** The same operation at the same revision is the same record, wherever it is read. */
  ghost predicate Consistent(ops: seq<Operation>) {
    forall a, b | a in ops && b in ops && a.id == b.id && a.revision == b.revision :: a == b
  }

  /** The highest there is of it in a list. */
  ghost predicate Highest(ops: seq<Operation>, op: Operation) {
    op in ops && forall o | o in ops && o.id == op.id :: o.revision <= op.revision
  }

  /** A merge is newest first, without repetition, and has the highest revision of every operation in either
      list, and nothing else. */
  lemma MergeHasHighest(current: seq<Operation>, incoming: seq<Operation>, merged: seq<Operation>, op: Operation)
    requires Merges(current, incoming, merged) && Descending(current) && Consistent(current + incoming)
    ensures Descending(merged) && (op in merged <==> Highest(current + incoming, op))
  {
    ByIdIsById(current);
    ByIdIsExact(current, op);
    var known := ById(current);
    TakeInTakesHighest(known, incoming, op.id);
    var r := TakeIn(known, incoming);
    assert forall o :: o in current + incoming <==> o in current || o in incoming;
    if op.id in r {
      assert r[op.id] in current + incoming && r[op.id].id == op.id by {
        TakeInIsById(known, incoming);
      }
      forall o | o in current + incoming && o.id == op.id
        ensures o.revision <= r[op.id].revision
      {
        if o in current {
          ByIdIsExact(current, o);
        } else {
          var i :| 0 <= i < |incoming| && incoming[i] == o;
        }
      }
    }
  }

  lemma {:induction false} DescendingIsUnique(s: seq<Operation>, t: seq<Operation>)
    requires Descending(s) && Descending(t) && forall op :: op in s <==> op in t
    ensures s == t
  {
    assert (|s| > 0 ==> s[0] in t) && (|t| > 0 ==> t[0] in s);
    if s != [] && t != [] {
      assert s[0] == t[0];
      forall op
        ensures op in s[1..] <==> op in t[1..]
      {
        assert op in s <==> op == s[0] || op in s[1..];
        assert op in t <==> op == t[0] || op in t[1..];
        assert s[0] !in s[1..] && t[0] !in t[1..];
      }
      DescendingIsUnique(s[1..], t[1..]);
    }
  }

  /** Merging twice is merging all that was read at once, in either order. */
  lemma TwoMergesHaveHighest(current: seq<Operation>, first: seq<Operation>, later: seq<Operation>, m: seq<Operation>, n: seq<Operation>, op: Operation)
    requires Descending(current) && Consistent(current + first + later) && Merges(current, first, m) && Merges(m, later, n)
    ensures Descending(m) && Descending(n) && (op in n <==> Highest(current + first + later, op))
  {
    var all := current + first + later;
    assert forall o :: o in current + first <==> o in current || o in first;
    assert forall o :: o in all <==> o in current + first || o in later;
    assert forall o :: o in m + later <==> o in m || o in later;
    forall o
      ensures o in m <==> Highest(current + first, o)
      ensures Descending(m)
    {
      MergeHasHighest(current, first, m, o);
    }
    MergeHasHighest(m, later, n, op);
    forall o | o in current + first
      ensures exists h :: h in m && h.id == o.id && o.revision <= h.revision
    {
      HighestExists(current + first, o);
    }
  }

  lemma {:induction false} HighestExists(ops: seq<Operation>, o: Operation)
    requires o in ops
    ensures exists h :: Highest(ops, h) && h.id == o.id && o.revision <= h.revision
  {
    var rest, last := ops[..|ops| - 1], ops[|ops| - 1];
    assert ops == rest + [last];
    assert forall x :: x in ops <==> x in rest || x == last;
    if x :| x in rest && x.id == o.id && (o in rest ==> x == o) {
      HighestExists(rest, x);
      var h :| Highest(rest, h) && h.id == x.id && x.revision <= h.revision;
      assert Highest(ops, if last.id == o.id && last.revision > h.revision then last else h);
    } else {
      assert Highest(ops, last);
    }
  }

  /** Reading again what is known changes nothing. */
  lemma MergeIsIdempotent(current: seq<Operation>, incoming: seq<Operation>, m: seq<Operation>, n: seq<Operation>)
    requires Descending(current) && Consistent(current + incoming)
    requires Merges(current, incoming, m) && Merges(m, incoming, n)
    ensures m == n
  {
    assert forall o :: o in current + incoming + incoming <==> o in current + incoming;
    forall o
      ensures o in m <==> o in n
      ensures Descending(m) && Descending(n)
    {
      MergeHasHighest(current, incoming, m, o);
      TwoMergesHaveHighest(current, incoming, incoming, m, n, o);
    }
    DescendingIsUnique(m, n);
  }

  /** Merging what was read in two goes is merging it in one, and the order of the goes makes no difference. */
  lemma MergeIgnoresOrder(current: seq<Operation>, first: seq<Operation>, second: seq<Operation>, m: seq<Operation>,
                          n: seq<Operation>, m': seq<Operation>, n': seq<Operation>, together: seq<Operation>)
    requires Descending(current) && Consistent(current + first + second)
    requires Merges(current, first, m) && Merges(m, second, n)
    requires Merges(current, second, m') && Merges(m', first, n')
    requires Merges(current, first + second, together)
    ensures n == n' == together
  {
    assert current + first + second == current + (first + second);
    assert forall o :: o in current + second + first <==> o in current + first + second;
    forall o
      ensures (o in n <==> o in n') && (o in n <==> o in together)
      ensures Descending(n) && Descending(n') && Descending(together)
    {
      TwoMergesHaveHighest(current, first, second, m, n, o);
      TwoMergesHaveHighest(current, second, first, m', n', o);
      MergeHasHighest(current, first + second, together, o);
    }
    DescendingIsUnique(n, n');
    DescendingIsUnique(n, together);
  }

  // ---------------------------------------------------------------------------------------------
  // Following the head back
  // ---------------------------------------------------------------------------------------------

  datatype Page = Page(operations: seq<Operation>, next: Option<Cursor>)

  /** What the daemon answers: the operations below the cursor down to the last one of the page, which is where the next
      page goes on, or everything there is left. */
  ghost predicate Answers(page: Page, server: set<Operation>, cursor: Option<Cursor>) {
    && (page.next.Some? ==> page.operations != [] && page.next.value == Key(page.operations[|page.operations| - 1]))
    && (forall op | op in page.operations :: op in server && Between(op, cursor, page.next))
    && forall op | op in server && Between(op, cursor, page.next) :: op in page.operations
  }

  /** Below one cursor, and not below another. */
  ghost predicate Between(op: Operation, above: Option<Cursor>, below: Option<Cursor>) {
    (above.Some? ==> Below(Key(op), above.value)) && From(op, below)
  }

  ghost predicate From(op: Operation, cursor: Option<Cursor>) { cursor.Some? ==> !Below(Key(op), cursor.value) }

  datatype Walk = Walked(incoming: seq<Operation>, history: Option<Cursor>) | Repeated | Unfinished

  /** Follows the pages back until they meet what is known. `pages` are the answers, in order. */
  method FollowBack(head: Page, boundary: Option<Cursor>, pages: seq<Page>) returns (walk: Walk, used: nat)
    ensures used <= |pages|
    ensures walk.Walked? ==> Stops(head, boundary, pages, used)
    ensures walk.Walked? ==> walk.incoming == AllOperations([head] + pages[..used]) && walk.history == LastCursor(head, pages, used)
    ensures walk.Unfinished? ==> used == |pages|
    ensures walk.Repeated? ==> exists k | 0 <= k < used :: LastCursor(head, pages, k) == LastCursor(head, pages, used)
  {
    var incoming, history := head.operations, head.next;
    var seen: set<Cursor> := {};
    used := 0;
    assert AllOperations([head] + pages[..0]) == head.operations by {
      assert [head] + pages[..0] == [head] && [head][1..] == [];
    }
    while history.Some? && boundary.Some? && Below(boundary.value, history.value)
      invariant used <= |pages| && incoming == AllOperations([head] + pages[..used]) && history == LastCursor(head, pages, used)
      invariant forall k | 0 <= k < used :: GoesOn(LastCursor(head, pages, k), boundary)
      invariant forall c | c in seen :: exists k | 0 <= k < used :: LastCursor(head, pages, k) == Some(c)
      decreases |pages| - used
    {
      if history.value in seen {
        return Repeated, used;
      }
      seen := seen + {history.value};
      if used == |pages| {
        return Unfinished, used;
      }
      PrefixGrows(head, pages, used);
      incoming := incoming + pages[used].operations;
      history, used := pages[used].next, used + 1;
    }
    walk := Walked(incoming, history);
  }

  function LastCursor(head: Page, pages: seq<Page>, used: nat): Option<Cursor>
    requires used <= |pages|
  { if used == 0 then head.next else pages[used - 1].next }

  function AllOperations(pages: seq<Page>): seq<Operation> {
    if pages == [] then [] else pages[0].operations + AllOperations(pages[1..])
  }

  /** There is more after this cursor that is newer than the boundary. */
  predicate GoesOn(history: Option<Cursor>, boundary: Option<Cursor>) {
    history.Some? && boundary.Some? && Below(boundary.value, history.value)
  }

  /** After so many further pages, and no fewer, there is nothing left, or what is left is no newer than the boundary. */
  ghost predicate Stops(head: Page, boundary: Option<Cursor>, pages: seq<Page>, used: nat) {
    && used <= |pages| && (forall k | 0 <= k < used :: GoesOn(LastCursor(head, pages, k), boundary))
    && !GoesOn(LastCursor(head, pages, used), boundary)
  }

  lemma WalkedOn(head: Page, boundary: Option<Cursor>, pages: seq<Page>, used: nat)
    requires Stops(head, boundary, pages, used)
    ensures forall k | 0 <= k < used :: LastCursor(head, pages, k).Some?
  {}

  lemma {:induction false} AllOperationsAppend(pages: seq<Page>, page: Page)
    ensures AllOperations(pages + [page]) == AllOperations(pages) + page.operations
  {
    if pages == [] {
      assert (pages + [page])[1..] == [];
    } else {
      AllOperationsAppend(pages[1..], page);
      assert (pages + [page])[1..] == pages[1..] + [page];
      assert pages[0].operations + (AllOperations(pages[1..]) + page.operations) == AllOperations(pages) + page.operations;
    }
  }

  /** The daemon's operations at each answer: none is ever taken away or moved, though each may have changed. */
  ghost predicate HonestWalk(head: Page, pages: seq<Page>, servers: seq<set<Operation>>) {
    && |servers| == |pages| + 1 && Answers(head, servers[0], None)
    && (forall k | 0 <= k < |pages| && LastCursor(head, pages, k).Some? :: Answers(pages[k], servers[k + 1], LastCursor(head, pages, k)))
    && forall k | 0 <= k <= |pages| :: StillThere(servers[0], servers[k])
  }

  ghost predicate StillThere(before: set<Operation>, after: set<Operation>) {
    && (forall op | op in before :: exists o :: o in after && Key(o) == Key(op))
    && forall op, o | op in before && o in after && op.id == o.id :: Key(op) == Key(o)
  }

  ghost predicate Has(ops: seq<Operation>, key: Cursor) { exists o :: o in ops && Key(o) == key }

  lemma {:induction false} WalkCovers(head: Page, pages: seq<Page>, servers: seq<set<Operation>>, used: nat, op: Operation)
    requires HonestWalk(head, pages, servers) && used <= |pages| && op in servers[0]
    requires forall k | 0 <= k < used :: LastCursor(head, pages, k).Some?
    requires From(op, LastCursor(head, pages, used))
    ensures Has(AllOperations([head] + pages[..used]), Key(op))
  {
    hide AllOperations, Has, HonestWalk, Below;
    if used == 0 {
      HeadCovers(head, pages, servers, op);
    } else {
      PrefixGrows(head, pages, used - 1);
      HasMore(AllOperations([head] + pages[..used - 1]), pages[used - 1].operations, Key(op));
      if Below(Key(op), LastCursor(head, pages, used - 1).value) {
        PageCovers(head, pages, servers, used - 1, op);
      } else {
        WalkCovers(head, pages, servers, used - 1, op);
      }
    }
  }

  lemma HeadCovers(head: Page, pages: seq<Page>, servers: seq<set<Operation>>, op: Operation)
    requires HonestWalk(head, pages, servers) && op in servers[0] && From(op, head.next)
    ensures Has(AllOperations([head] + pages[..0]), Key(op))
  {
    assert [head] + pages[..0] == [head] && [head][1..] == [];
    assert AllOperations([head]) == head.operations;
    assert op in head.operations;
  }

  lemma PrefixGrows(head: Page, pages: seq<Page>, k: nat)
    requires k < |pages|
    ensures AllOperations([head] + pages[..k + 1]) == AllOperations([head] + pages[..k]) + pages[k].operations
  {
    AllOperationsAppend([head] + pages[..k], pages[k]);
    assert [head] + pages[..k] + [pages[k]] == [head] + pages[..k + 1];
  }

  lemma HasMore(some: seq<Operation>, more: seq<Operation>, key: Cursor)
    ensures Has(some, key) || Has(more, key) ==> Has(some + more, key)
  {
    if o :| o in some && Key(o) == key {
      assert o in some + more;
    } else if o :| o in more && Key(o) == key {
      assert o in some + more;
    }
  }

  lemma PageCovers(head: Page, pages: seq<Page>, servers: seq<set<Operation>>, k: nat, op: Operation)
    requires HonestWalk(head, pages, servers) && k < |pages| && op in servers[0] && LastCursor(head, pages, k).Some?
    requires Between(op, LastCursor(head, pages, k), pages[k].next)
    ensures Has(pages[k].operations, Key(op))
  {
    assert StillThere(servers[0], servers[k + 1]);
    var o :| o in servers[k + 1] && Key(o) == Key(op);
    assert Answers(pages[k], servers[k + 1], LastCursor(head, pages, k));
    assert o in pages[k].operations;
  }

  /** The cursors of an honest walk only go down, so it never comes by one twice. */
  lemma {:induction false} CursorsGoDown(head: Page, pages: seq<Page>, servers: seq<set<Operation>>, j: nat, k: nat)
    requires HonestWalk(head, pages, servers) && j < k <= |pages|
    requires forall i | 0 <= i < k :: LastCursor(head, pages, i).Some?
    ensures LastCursor(head, pages, k).Some? ==> Below(LastCursor(head, pages, k).value, LastCursor(head, pages, j).value)
  {
    hide HonestWalk, LastCursor;
    CursorGoesDown(head, pages, servers, k - 1);
    if j < k - 1 {
      CursorsGoDown(head, pages, servers, j, k - 1);
    }
  }

  lemma CursorGoesDown(head: Page, pages: seq<Page>, servers: seq<set<Operation>>, k: nat)
    requires HonestWalk(head, pages, servers) && k < |pages| && LastCursor(head, pages, k).Some?
    ensures LastCursor(head, pages, k + 1).Some? ==> Below(LastCursor(head, pages, k + 1).value, LastCursor(head, pages, k).value)
  {
    hide Answers, Below;
    NextIsLower(pages[k], servers[k + 1], LastCursor(head, pages, k));
  }

  lemma NextIsLower(page: Page, server: set<Operation>, cursor: Option<Cursor>)
    requires Answers(page, server, cursor)
    ensures page.next.Some? && cursor.Some? ==> Below(page.next.value, cursor.value)
  {
    if page.next.Some? {
      assert page.operations[|page.operations| - 1] in page.operations;
    }
  }

  /** Nothing a walk brings lies below where it stopped. */
  lemma {:induction false} WalkStaysAbove(head: Page, pages: seq<Page>, servers: seq<set<Operation>>, used: nat, op: Operation, o: Operation)
    requires HonestWalk(head, pages, servers) && used <= |pages| && (forall k | 0 <= k < used :: LastCursor(head, pages, k).Some?)
    requires op in servers[0] && o in AllOperations([head] + pages[..used]) && o.id == op.id
    ensures From(op, LastCursor(head, pages, used))
  {
    hide AllOperations, HonestWalk, Below;
    if used == 0 {
      HeadStaysAbove(head, pages, servers, op, o);
    } else {
      PrefixGrows(head, pages, used - 1);
      if o in pages[used - 1].operations {
        PageStaysAbove(head, pages, servers, used - 1, op, o);
      } else {
        WalkStaysAbove(head, pages, servers, used - 1, op, o);
        CursorsGoDown(head, pages, servers, used - 1, used);
        StaysFrom(op, LastCursor(head, pages, used - 1), LastCursor(head, pages, used));
      }
    }
  }

  lemma StaysFrom(op: Operation, cursor: Option<Cursor>, lower: Option<Cursor>)
    requires From(op, cursor) && cursor.Some? && (lower.Some? ==> Below(lower.value, cursor.value))
    ensures From(op, lower)
  {}

  lemma HeadStaysAbove(head: Page, pages: seq<Page>, servers: seq<set<Operation>>, op: Operation, o: Operation)
    requires HonestWalk(head, pages, servers) && op in servers[0] && o in AllOperations([head] + pages[..0]) && o.id == op.id
    ensures From(op, head.next)
  {
    assert [head] + pages[..0] == [head] && [head][1..] == [];
    assert AllOperations([head]) == head.operations;
    assert StillThere(servers[0], servers[0]);
  }

  lemma PageStaysAbove(head: Page, pages: seq<Page>, servers: seq<set<Operation>>, k: nat, op: Operation, o: Operation)
    requires HonestWalk(head, pages, servers) && k < |pages| && LastCursor(head, pages, k).Some?
    requires op in servers[0] && o in pages[k].operations && o.id == op.id
    ensures From(op, pages[k].next)
  {
    assert Answers(pages[k], servers[k + 1], LastCursor(head, pages, k)) && StillThere(servers[0], servers[k + 1]);
  }

  // ---------------------------------------------------------------------------------------------
  // What the list covers
  // ---------------------------------------------------------------------------------------------

  ghost predicate Knows(ops: seq<Operation>, id: nat) { exists o :: o in ops && o.id == id }

  /** Everything the daemon has from the cursor up is in the list. */
  ghost predicate CoversFrom(items: seq<Operation>, server: set<Operation>, cursor: Option<Cursor>) {
    forall op | op in server && From(op, cursor) :: Knows(items, op.id)
  }

  /** A merge knows what either list knows. */
  lemma MergeKnows(current: seq<Operation>, incoming: seq<Operation>, merged: seq<Operation>, id: nat)
    requires Merges(current, incoming, merged)
    ensures Knows(merged, id) <==> Knows(current, id) || Knows(incoming, id)
  {
    var known, r := ById(current), TakeIn(ById(current), incoming);
    ByIdIsById(current);
    TakeInIsById(known, incoming);
    TakeInTakesHighest(known, incoming, id);
    if Knows(current, id) || Knows(incoming, id) {
      if Knows(incoming, id) {
        var o :| o in incoming && o.id == id;
        var i :| 0 <= i < |incoming| && incoming[i] == o;
      }
      assert id in r && r[id] in merged;
    }
    if o :| o in merged && o.id == id {
      assert id in r && (id in known ==> known[id] in current);
      if i :| 0 <= i < |incoming| && incoming[i].id == id {
        assert incoming[i] in incoming;
      }
    }
  }

  lemma KnowsAppend(a: seq<Operation>, b: seq<Operation>, id: nat)
    ensures Knows(a + b, id) <==> Knows(a, id) || Knows(b, id)
  {
    if o :| o in a && o.id == id {
      assert o in a + b;
    } else if o :| o in b && o.id == id {
      assert o in a + b;
    }
  }

  /** What the list remembers between two mounts of its view. */
  datatype Saved = Saved(items: seq<Operation>, cursor: Option<Cursor>)

  /** `boundary` is how far back the history was loaded, which outlives the view. */
  datatype Session = Session(items: seq<Operation>, cursor: Option<Cursor>, saved: Option<Saved>, boundary: Option<Cursor>)

  function Newest(items: seq<Operation>): Operation
    requires items != []
  {
    var last := items[|items| - 1];
    if |items| == 1 then last
    else if Below(Key(Newest(items[..|items| - 1])), Key(last)) then last
    else Newest(items[..|items| - 1])
  }

  /** Down to where a walk goes. */
  function Boundary(s: Session): Option<Cursor> {
    if s.saved.Some? && s.saved.value.items != [] then Some(Key(Newest(s.saved.value.items))) else s.boundary
  }

  /** What happens to a list. A round reads the head and further pages, every active operation, and those that were active
      in the list and no longer are. */
  datatype Deed =
    | Rounded(head: Page, pages: seq<Page>, used: nat, alive: seq<Operation>, former: seq<Operation>)
    | LoadedMore(page: Page)
    | Updated(operation: Operation)
    | Reopened(view: Option<Saved>, initial: Page)

  ghost function Incoming(d: Deed): seq<Operation>
    requires d.Rounded? && d.used <= |d.pages|
  { AllOperations([d.head] + d.pages[..d.used]) + d.alive + d.former }

  function LastKey(ops: seq<Operation>, otherwise: Option<Cursor>): Option<Cursor> {
    if ops == [] then otherwise else Some(Key(ops[|ops| - 1]))
  }

  ghost predicate Does(s: Session, d: Deed, t: Session) {
    match d
    case Rounded(head, pages, used, alive, former) =>
      && Stops(head, Boundary(s), pages, used) && (forall o | o in former :: Knows(s.items, o.id))
      && Merges(s.items, Incoming(d), t.items)
      && t.saved == Some(Saved(t.items, t.cursor))
      && (if s.saved.Some? then t.cursor == s.cursor && t.boundary == s.boundary
          else t.cursor == LastCursor(head, pages, used) && t.boundary == LastKey(AllOperations([head] + pages[..used]), s.boundary))
    case LoadedMore(page) =>
      && s.cursor.Some? && Merges(s.items, page.operations, t.items) && t.cursor == page.next
      && t.saved == Some(Saved(t.items, t.cursor)) && t.boundary == LastKey(page.operations, s.boundary)
    case Updated(op) =>
      Knows(s.items, op.id) && Merges(s.items, [op], t.items) && t == s.(items := t.items)
    case Reopened(view, initial) =>
      && (view.Some? ==> view.value == Saved(s.items, s.cursor))
      && Opened(view, initial, s.boundary, t)
  }

  /** A list begins with what was saved of it and the page its view was opened with. */
  ghost predicate Opened(view: Option<Saved>, initial: Page, boundary: Option<Cursor>, t: Session) {
    && Merges(if view.Some? then view.value.items else [], initial.operations, t.items)
    && t.cursor == (if view.Some? && view.value.cursor.Some? then view.value.cursor else initial.next)
    && t.saved == view && t.boundary == boundary
  }

  /** Operations are created one after the other: what is new is newer than all there was. */
  ghost predicate Grew(before: set<Operation>, after: set<Operation>) {
    && StillThere(before, after)
    && forall op | op in after :: (exists o :: o in before && Key(o) == Key(op)) || forall o | o in before :: Below(Key(o), Key(op))
  }

  /** What the daemon says, and what it had when the list last looked from the top: `before` and `after` the deed. */
  ghost predicate HonestDeed(before: set<Operation>, d: Deed, after: set<Operation>, cursor: Option<Cursor>) {
    match d
    case Rounded(head, pages, _, _, _) =>
      Grew(before, after) && exists servers :: HonestWalk(head, pages, servers) && servers[0] == after
    case LoadedMore(page) =>
      after == before && exists server :: Grew(before, server) && Answers(page, server, cursor)
    case Updated(_) => after == before
    case Reopened(view, initial) => if view.Some? then after == before else Grew(before, after) && Answers(initial, after, None)
  }

  /** An operation the walk of a round passes over: it lies between the list's cursor and where the walk stopped, and
      neither the list nor the active operations have it. */
  ghost predicate PassedOver(op: Operation, s: Session, d: Deed, cursor: Option<Cursor>)
    requires d.Rounded? && d.used <= |d.pages|
  {
    && From(op, cursor) && !From(op, LastCursor(d.head, d.pages, d.used))
    && !Knows(s.items, op.id) && !Knows(d.alive, op.id)
  }

  /** After a round the list has everything from its cursor up that the daemon had when the head was read if, and only if,
      the walk passed over none of it. */
  lemma RoundCoversWhen(s: Session, d: Deed, t: Session, servers: seq<set<Operation>>)
    requires d.Rounded? && Does(s, d, t) && HonestWalk(d.head, d.pages, servers)
    ensures CoversFrom(t.items, servers[0], t.cursor) <==> forall op | op in servers[0] :: !PassedOver(op, s, d, t.cursor)
  {
    assert |servers| > 0;
    hide HonestWalk, Merges, AllOperations, From;
    forall op | op in servers[0] && From(op, t.cursor)
      ensures Knows(t.items, op.id) <==> !PassedOver(op, s, d, t.cursor)
    {
      RoundKnowsWhen(s, d, t, servers, op);
    }
  }

  lemma RoundKnowsWhen(s: Session, d: Deed, t: Session, servers: seq<set<Operation>>, op: Operation)
    requires d.Rounded? && Does(s, d, t) && HonestWalk(d.head, d.pages, servers) && op in servers[0]
    ensures Knows(t.items, op.id) <==>
      From(op, LastCursor(d.head, d.pages, d.used)) || Knows(s.items, op.id) || Knows(d.alive, op.id)
  {
    var walked := AllOperations([d.head] + d.pages[..d.used]);
    MergeKnows(s.items, Incoming(d), t.items, op.id);
    KnowsAppend(walked + d.alive, d.former, op.id);
    KnowsAppend(walked, d.alive, op.id);
    WalkedOn(d.head, Boundary(s), d.pages, d.used);
    hide HonestWalk, Merges, AllOperations, From, Stops, GoesOn, Boundary, LastCursor;
    if From(op, LastCursor(d.head, d.pages, d.used)) {
      WalkCovers(d.head, d.pages, servers, d.used, op);
      var o :| o in walked && Key(o) == Key(op);
      assert o.id == op.id;
    }
    if Knows(walked, op.id) {
      var o :| o in walked && o.id == op.id;
      WalkStaysAbove(d.head, d.pages, servers, d.used, op, o);
    }
    if Knows(d.former, op.id) {
      var o :| o in d.former && o.id == op.id;
    }
  }

  /** The newest is one of them, and none is newer. */
  lemma {:induction false} NewestIsNewest(items: seq<Operation>, item: Operation)
    requires item in items
    ensures Newest(items) in items && !Below(Key(Newest(items)), Key(item))
  {
    hide Below, Newest;
    var rest, last := items[..|items| - 1], items[|items| - 1];
    assert items == rest + [last];
    NewestOfMore(items);
    if rest != [] {
      var other := if item in rest then item else rest[0];
      NewestIsNewest(rest, other);
      NotOlder(Key(Newest(rest)), Key(last), Key(item));
    } else {
      NotOlder(Key(last), Key(last), Key(item));
    }
  }

  lemma NewestOfMore(items: seq<Operation>)
    requires items != []
    ensures var rest, last := items[..|items| - 1], items[|items| - 1];
      Newest(items) == if rest == [] || Below(Key(Newest(rest)), Key(last)) then last else Newest(rest)
  {
    hide Below;
  }

  lemma NotOlder(a: Cursor, b: Cursor, c: Cursor)
    ensures Below(a, b) && !Below(a, c) ==> !Below(b, c)
    ensures !Below(b, b) && (!Below(a, b) && b == c ==> !Below(a, c))
  {}

  /** The operation is newer than all that was saved of the list, or, if nothing was, than the history that was loaded. */
  ghost predicate NewToList(s: Session, key: Cursor) {
    if s.saved.Some? && s.saved.value.items != [] then forall item | item in s.saved.value.items :: Below(Key(item), key)
    else s.boundary.Some? && Below(s.boundary.value, key)
  }

  lemma NewIsNewerThanBoundary(s: Session, key: Cursor)
    ensures NewToList(s, key) <==> Boundary(s).Some? && Below(Boundary(s).value, key)
  {
    if s.saved.Some? && s.saved.value.items != [] {
      forall item | item in s.saved.value.items
        ensures Newest(s.saved.value.items) in s.saved.value.items
        ensures Below(Key(Newest(s.saved.value.items)), key) ==> Below(Key(item), key)
      {
        NewestIsNewest(s.saved.value.items, item);
      }
      NewestIsNewest(s.saved.value.items, s.saved.value.items[0]);
    }
  }

  /** After a round the list has everything the daemon had when the head was read that is newer than all that was saved. */
  lemma NewerIsShown(s: Session, d: Deed, t: Session, servers: seq<set<Operation>>, op: Operation)
    requires d.Rounded? && Does(s, d, t) && HonestWalk(d.head, d.pages, servers) && op in servers[0]
    requires NewToList(s, Key(op))
    ensures Knows(t.items, op.id)
  {
    RoundKnowsWhen(s, d, t, servers, op);
    NewIsNewerThanBoundary(s, Key(op));
    var history := LastCursor(d.head, d.pages, d.used);
    assert history.None? || !Below(Boundary(s).value, history.value);
    hide Does, HonestWalk, Boundary, LastCursor, Knows, NewToList;
  }

  /** And it reads no further than that: every page but the last it read ended at one that is newer than all that was
      saved, the last one did not. */
  lemma RoundReadsNoFurther(s: Session, d: Deed, t: Session, k: nat)
    requires d.Rounded? && Does(s, d, t) && k <= d.used
    ensures var history := LastCursor(d.head, d.pages, k); k < d.used <==> history.Some? && NewToList(s, history.value)
  {
    assert GoesOn(LastCursor(d.head, d.pages, k), Boundary(s)) <==> k < d.used;
    if LastCursor(d.head, d.pages, k).Some? {
      NewIsNewerThanBoundary(s, LastCursor(d.head, d.pages, k).value);
    }
    hide Does, Boundary, LastCursor, NewToList;
  }

  /** Of the loaded history, the place where it ends is where the list goes on. So when its view is opened anew, a round leads
      back to there. */
  lemma HistoryEndsAtBoundary(s: Session, d: Deed, t: Session, servers: seq<set<Operation>>, server: set<Operation>)
    requires Does(s, d, t) && t.cursor.Some?
    requires (d.Rounded? && s.saved.None? && HonestWalk(d.head, d.pages, servers)) || (d.LoadedMore? && Answers(d.page, server, s.cursor))
    ensures t.boundary == t.cursor
  {
    if d.Rounded? {
      WalkedOn(d.head, Boundary(s), d.pages, d.used);
      hide Boundary, Merges, Stops;
      WalkEndsAtCursor(d.head, d.pages, servers, d.used);
    }
  }

  lemma WalkEndsAtCursor(head: Page, pages: seq<Page>, servers: seq<set<Operation>>, used: nat)
    requires HonestWalk(head, pages, servers) && used <= |pages| && LastCursor(head, pages, used).Some?
    requires forall k | 0 <= k < used :: LastCursor(head, pages, k).Some?
    ensures LastKey(AllOperations([head] + pages[..used]), None) == LastCursor(head, pages, used)
    ensures AllOperations([head] + pages[..used]) != []
  {
    hide AllOperations, HonestWalk, Answers;
    if used == 0 {
      HeadAnswered(head, pages, servers);
      AnswerEnds(head, servers[0], None);
      HeadAlone(head, pages);
    } else {
      AnsweredAt(head, pages, servers, used - 1);
      AnswerEnds(pages[used - 1], servers[used], LastCursor(head, pages, used - 1));
      PrefixGrows(head, pages, used - 1);
    }
  }

  lemma HeadAlone(head: Page, pages: seq<Page>)
    ensures AllOperations([head] + pages[..0]) == head.operations
  {
    assert [head] + pages[..0] == [head] && [head][1..] == [];
  }

  lemma HeadAnswered(head: Page, pages: seq<Page>, servers: seq<set<Operation>>)
    requires HonestWalk(head, pages, servers)
    ensures |servers| > 0 && Answers(head, servers[0], None)
  {
    hide Answers, StillThere;
  }

  lemma AnsweredAt(head: Page, pages: seq<Page>, servers: seq<set<Operation>>, k: nat)
    requires HonestWalk(head, pages, servers) && k < |pages| && LastCursor(head, pages, k).Some?
    ensures |servers| == |pages| + 1 && Answers(pages[k], servers[k + 1], LastCursor(head, pages, k))
  {
    hide Answers, StillThere;
  }

  lemma AnswerEnds(page: Page, server: set<Operation>, cursor: Option<Cursor>)
    requires Answers(page, server, cursor) && page.next.Some?
    ensures page.operations != [] && page.next == Some(Key(page.operations[|page.operations| - 1]))
  {}

  /** What the boundary is the place of is shown after a round, too. */
  lemma BoundaryIsShown(s: Session, d: Deed, t: Session, servers: seq<set<Operation>>, op: Operation)
    requires d.Rounded? && Does(s, d, t) && HonestWalk(d.head, d.pages, servers) && op in servers[0]
    requires s.saved.None? && s.boundary == Some(Key(op))
    ensures Knows(t.items, op.id)
  {
    RoundKnowsWhen(s, d, t, servers, op);
    assert !GoesOn(LastCursor(d.head, d.pages, d.used), s.boundary);
    hide Does, HonestWalk, LastCursor, Knows;
  }

  ghost predicate Covered(s: Session, server: set<Operation>) { CoversFrom(s.items, server, s.cursor) }

  /** Down to where the next walk goes there is nothing newer than all the daemon had when the list last looked. A program
      can see this: it compares the newest of the list with the first operation of the head. */
  ghost predicate Anchored(s: Session, server: set<Operation>) {
    Boundary(s).Some? && exists o :: o in server && !Below(Key(o), Boundary(s).value)
  }

  /** The next round keeps the list without a hole if, and only if, it passes over no operation that is new since. */
  lemma NextRoundCoversWhen(s: Session, d: Deed, t: Session, before: set<Operation>, servers: seq<set<Operation>>)
    requires d.Rounded? && Does(s, d, t) && HonestWalk(d.head, d.pages, servers)
    requires Covered(s, before) && s.saved.Some? && Grew(before, servers[0])
    ensures Covered(t, servers[0]) <==>
      forall op | op in servers[0] && (forall o | o in before :: Below(Key(o), Key(op))) :: !PassedOver(op, s, d, t.cursor)
  {
    RoundCoversWhen(s, d, t, servers);
    forall op | op in servers[0] && PassedOver(op, s, d, t.cursor)
      ensures forall o | o in before :: Below(Key(o), Key(op))
    {
      PassedOverIsNew(s, d, before, servers[0], op);
    }
    hide Does, HonestWalk, Grew, PassedOver, CoversFrom;
  }

  lemma PassedOverIsNew(s: Session, d: Deed, before: set<Operation>, server: set<Operation>, op: Operation)
    requires d.Rounded? && d.used <= |d.pages| && Covered(s, before) && Grew(before, server) && op in server
    requires PassedOver(op, s, d, s.cursor)
    ensures forall o | o in before :: Below(Key(o), Key(op))
  {
    hide Below, StillThere, PassedOver, CoversFrom;
    CoveredIsNotPassedOver(s, d, before, op);
  }

  lemma CoveredIsNotPassedOver(s: Session, d: Deed, before: set<Operation>, op: Operation)
    requires d.Rounded? && d.used <= |d.pages| && Covered(s, before)
    ensures (exists o :: o in before && Key(o) == Key(op)) ==> !PassedOver(op, s, d, s.cursor)
  {
    if o :| o in before && Key(o) == Key(op) {
      assert From(op, s.cursor) ==> From(o, s.cursor);
    }
  }

  /** The walk of an anchored list passes over nothing new. */
  lemma AnchoredRoundCovers(s: Session, d: Deed, t: Session, before: set<Operation>, servers: seq<set<Operation>>)
    requires d.Rounded? && Does(s, d, t) && HonestWalk(d.head, d.pages, servers)
    requires Covered(s, before) && Grew(before, servers[0]) && (s.saved.None? || Anchored(s, before))
    ensures Covered(t, servers[0])
  {
    RoundCoversWhen(s, d, t, servers);
    var history, first := LastCursor(d.head, d.pages, d.used), s.saved.None?;
    assert t.cursor == if first then history else s.cursor;
    assert first || history.None? || !Below(Boundary(s).value, history.value);
    assert |servers| > 0;
    hide Does, HonestWalk, CoversFrom, Boundary, LastCursor, Grew;
    forall op | op in servers[0]
      ensures !PassedOver(op, s, d, t.cursor)
    {
      if !first && PassedOver(op, s, d, s.cursor) {
        PassedOverIsNew(s, d, before, servers[0], op);
        var o :| o in before && !Below(Key(o), Boundary(s).value);
        NewIsAbove(op, o, Boundary(s).value, history);
        assert false;
      }
    }
  }

  lemma NewIsAbove(op: Operation, o: Operation, boundary: Cursor, history: Option<Cursor>)
    requires Below(Key(o), Key(op)) && !Below(Key(o), boundary) && (history.None? || !Below(boundary, history.value))
    ensures From(op, history)
  {}

  /** Loading more goes on where the list ends, without a hole, though the daemon may have new operations by now. */
  lemma MoreCovers(s: Session, d: Deed, t: Session, before: set<Operation>, server: set<Operation>)
    requires d.LoadedMore? && Does(s, d, t) && Covered(s, before) && Grew(before, server) && Answers(d.page, server, s.cursor)
    ensures Covered(t, before)
  {
    forall op | op in before && From(op, t.cursor)
      ensures Knows(t.items, op.id)
    {
      MergeKnows(s.items, d.page.operations, t.items, op.id);
      if Below(Key(op), s.cursor.value) {
        var o :| o in server && Key(o) == Key(op);
        assert Between(o, s.cursor, d.page.next);
      }
    }
  }

  lemma OthersCover(s: Session, d: Deed, t: Session, before: set<Operation>, after: set<Operation>)
    requires (d.Updated? || d.Reopened?) && Does(s, d, t) && Covered(s, before) && HonestDeed(before, d, after, s.cursor)
    ensures Covered(t, after)
  {
    forall op | op in after && From(op, t.cursor)
      ensures Knows(t.items, op.id)
    {
      if d.Updated? {
        MergeKnows(s.items, [d.operation], t.items, op.id);
      } else {
        MergeKnows(if d.view.Some? then d.view.value.items else [], d.initial.operations, t.items, op.id);
      }
    }
  }

  /** What happens to a list from when its view is opened. */
  ghost predicate History(states: seq<Session>, deeds: seq<Deed>, servers: seq<set<Operation>>) {
    && |states| == |deeds| + 1 == |servers|
    && forall k | 0 <= k < |deeds| ::
      Does(states[k], deeds[k], states[k + 1]) && HonestDeed(servers[k], deeds[k], servers[k + 1], states[k].cursor)
  }

  /** Over every history of rounds, further pages, updates and reopenings: the list never has a hole between its newest
      operation and its cursor, if every round began anchored or was the first. */
  lemma {:induction false} ListHasNoHole(states: seq<Session>, deeds: seq<Deed>, servers: seq<set<Operation>>, k: nat)
    requires History(states, deeds, servers) && k <= |deeds| && Covered(states[0], servers[0])
    requires forall n | 0 <= n < k && deeds[n].Rounded? :: states[n].saved.None? || Anchored(states[n], servers[n])
    ensures Covered(states[k], servers[k])
  {
    if k > 0 {
      var s, d, t := states[k - 1], deeds[k - 1], states[k];
      ListHasNoHole(states, deeds, servers, k - 1);
      assert Does(s, d, t) && HonestDeed(servers[k - 1], d, servers[k], s.cursor);
      hide Does, Covered, Anchored, Grew, HonestWalk;
      match d
      case Rounded(head, pages, _, _, _) =>
        var answers :| HonestWalk(head, pages, answers) && answers[0] == servers[k];
        AnchoredRoundCovers(s, d, t, servers[k - 1], answers);
      case LoadedMore(page) =>
        var server :| Grew(servers[k - 1], server) && Answers(page, server, s.cursor);
        MoreCovers(s, d, t, servers[k - 1], server);
      case _ => OthersCover(s, d, t, servers[k - 1], servers[k]);
    }
  }

  /** A list begins without a hole. */
  lemma OpenedCovers(initial: Page, boundary: Option<Cursor>, server: set<Operation>, t: Session)
    requires Opened(None, initial, boundary, t) && Answers(initial, server, None)
    ensures Covered(t, server)
  {
    forall op | op in server && From(op, t.cursor)
      ensures Knows(t.items, op.id)
    {
      MergeKnows([], initial.operations, t.items, op.id);
    }
  }

  // Two rounds that leave a hole. When the first reads the head there is only the oldest operation. Then the missed one is
  // made and ends, and the active one is made, which the first round still sees. The second head ends at the active one.
  const OLDEST := Operation(1, 1, 1, true, 0)
  const MISSED := Operation(2, 2, 1, true, 0)
  const ACTIVE := Operation(3, 3, 1, false, 0)
  const LATEST := Operation(4, 4, 1, true, 0)
  const START := Session([OLDEST], Some(Key(OLDEST)), None, None)
  const FIRST_ROUND := Rounded(Page([OLDEST], Some(Key(OLDEST))), [], 0, [ACTIVE], [])
  const SAVED := Session([ACTIVE, OLDEST], Some(Key(OLDEST)), Some(Saved([ACTIVE, OLDEST], Some(Key(OLDEST)))), Some(Key(OLDEST)))
  const SECOND_ROUND := Rounded(Page([LATEST, ACTIVE], Some(Key(ACTIVE))), [], 0, [ACTIVE], [])
  const HOLED := Session([LATEST, ACTIVE, OLDEST], Some(Key(OLDEST)), Some(Saved([LATEST, ACTIVE, OLDEST], Some(Key(OLDEST)))), Some(Key(OLDEST)))

  lemma FirstRoundMerges()
    ensures Does(START, FIRST_ROUND, SAVED)
  {
    assert [FIRST_ROUND.head] + [][..0] == [FIRST_ROUND.head] && [FIRST_ROUND.head][1..] == [];
    assert AllOperations([FIRST_ROUND.head]) == [OLDEST];
    var incoming := [OLDEST, ACTIVE];
    assert Incoming(FIRST_ROUND) == incoming && incoming[..1] == [OLDEST] && [OLDEST][..0] == [];
    assert ById([OLDEST]) == map[1 := OLDEST];
    assert TakeIn(map[1 := OLDEST], [OLDEST]) == map[1 := OLDEST];
    assert TakeIn(map[1 := OLDEST], incoming) == map[1 := OLDEST, 3 := ACTIVE];
  }

  lemma SecondRoundMerges()
    ensures Does(SAVED, SECOND_ROUND, HOLED)
  {
    assert [SECOND_ROUND.head] + [][..0] == [SECOND_ROUND.head] && [SECOND_ROUND.head][1..] == [];
    assert AllOperations([SECOND_ROUND.head]) == [LATEST, ACTIVE];
    var incoming := [LATEST, ACTIVE, ACTIVE];
    assert Incoming(SECOND_ROUND) == incoming && incoming[..2] == [LATEST, ACTIVE] && incoming[..2][..1] == [LATEST] && [LATEST][..0] == [];
    assert SAVED.items[..1] == [ACTIVE] && [ACTIVE][..0] == [];
    assert ById([ACTIVE]) == map[3 := ACTIVE];
    var known := map[3 := ACTIVE, 1 := OLDEST];
    assert ById(SAVED.items) == known;
    assert TakeIn(known, [LATEST]) == known[4 := LATEST];
    assert TakeIn(known, incoming[..2]) == known[4 := LATEST];
    assert TakeIn(known, incoming) == known[4 := LATEST];
    assert Newest(SAVED.items) == ACTIVE;
  }

  /** So an operation that ends between two rounds can be lost to the list, with nothing that leads to it: the walk of the
      second round stops at the active operation, which is newer. */
  lemma EndedOperationIsPassedOver()
    ensures var servers := [{OLDEST}, {OLDEST}, {LATEST, ACTIVE, MISSED, OLDEST}];
      && History([START, SAVED, HOLED], [FIRST_ROUND, SECOND_ROUND], servers)
      && Covered(START, servers[0]) && Covered(SAVED, servers[1]) && !Covered(HOLED, servers[2])
      && !Anchored(SAVED, servers[1]) && PassedOver(MISSED, SAVED, SECOND_ROUND, HOLED.cursor)
  {
    FirstRoundMerges();
    SecondRoundMerges();
    FirstRoundIsHonest();
    SecondRoundIsHonest();
    OldestIsCovered();
    MissedIsPassedOver();
    hide Does, HonestDeed, Covered, Anchored, PassedOver;
    var states, deeds := [START, SAVED, HOLED], [FIRST_ROUND, SECOND_ROUND];
    assert states[0] == START && states[1] == SAVED && states[2] == HOLED && deeds[0] == FIRST_ROUND && deeds[1] == SECOND_ROUND;
  }

  lemma FirstRoundIsHonest()
    ensures HonestDeed({OLDEST}, FIRST_ROUND, {OLDEST}, START.cursor)
  {
    var servers := [{OLDEST}];
    assert HonestWalk(FIRST_ROUND.head, [], servers) && servers[0] == {OLDEST};
  }

  lemma SecondRoundIsHonest()
    ensures HonestDeed({OLDEST}, SECOND_ROUND, {LATEST, ACTIVE, MISSED, OLDEST}, SAVED.cursor)
  {
    var servers := [{LATEST, ACTIVE, MISSED, OLDEST}];
    SecondHeadIsHonest();
    LaterGrew();
    hide Grew, HonestWalk;
    assert HonestWalk(SECOND_ROUND.head, SECOND_ROUND.pages, servers) && servers[0] == {LATEST, ACTIVE, MISSED, OLDEST};
  }

  lemma SecondHeadIsHonest()
    ensures HonestWalk(SECOND_ROUND.head, [], [{LATEST, ACTIVE, MISSED, OLDEST}])
  {
    var head, after := SECOND_ROUND.head, {LATEST, ACTIVE, MISSED, OLDEST};
    assert head.operations[0] == LATEST && head.operations[1] == ACTIVE;
    assert Answers(head, after, None);
    hide Answers;
    assert [after][0] == after;
  }

  lemma LaterGrew()
    ensures Grew({OLDEST}, {LATEST, ACTIVE, MISSED, OLDEST})
  {
    assert OLDEST in {OLDEST} && OLDEST in {LATEST, ACTIVE, MISSED, OLDEST};
  }

  lemma OldestIsCovered()
    ensures Covered(START, {OLDEST}) && Covered(SAVED, {OLDEST})
  {
    assert OLDEST in START.items && OLDEST in SAVED.items;
  }

  lemma MissedIsPassedOver()
    ensures !Covered(HOLED, {LATEST, ACTIVE, MISSED, OLDEST}) && !Anchored(SAVED, {OLDEST})
    ensures PassedOver(MISSED, SAVED, SECOND_ROUND, HOLED.cursor)
  {
    assert SAVED.items[..1] == [ACTIVE];
    assert Newest(SAVED.items) == ACTIVE;
    assert MISSED in {LATEST, ACTIVE, MISSED, OLDEST} && From(MISSED, HOLED.cursor) && !Knows(HOLED.items, MISSED.id);
  }

  // ---------------------------------------------------------------------------------------------
  // Lists without a cursor
  // ---------------------------------------------------------------------------------------------

  /** A list that was saved without a cursor gets none from a round. It has what the walk went over, what it had, and what
      is active; so it has all there is if, and only if, it had, or is active, all that lies below where the walk stopped. */
  lemma RoundWithoutCursor(s: Session, d: Deed, t: Session, servers: seq<set<Operation>>)
    requires d.Rounded? && Does(s, d, t) && HonestWalk(d.head, d.pages, servers) && s.saved.Some? && s.cursor.None?
    ensures t.saved.Some? && t.cursor.None?
    ensures forall op | op in servers[0] ::
      Knows(t.items, op.id) <==> From(op, LastCursor(d.head, d.pages, d.used)) || Knows(s.items, op.id) || Knows(d.alive, op.id)
    ensures Covered(t, servers[0]) <==> forall op | op in servers[0] && !From(op, LastCursor(d.head, d.pages, d.used)) ::
      Knows(s.items, op.id) || Knows(d.alive, op.id)
  {
    assert |servers| > 0;
    hide HonestWalk, Merges, AllOperations, Knows;
    forall op | op in servers[0]
      ensures Knows(t.items, op.id) <==> From(op, LastCursor(d.head, d.pages, d.used)) || Knows(s.items, op.id) || Knows(d.alive, op.id)
    {
      RoundKnowsWhen(s, d, t, servers, op);
    }
  }

  /** Until its view is opened again such a list has no further pages to load. */
  lemma {:induction false} NoMoreUntilReopened(states: seq<Session>, deeds: seq<Deed>, servers: seq<set<Operation>>, k: nat)
    requires History(states, deeds, servers) && k <= |deeds| && states[0].saved.Some? && states[0].cursor.None?
    requires forall n | 0 <= n < k :: !deeds[n].Reopened?
    ensures states[k].saved.Some? && states[k].cursor.None?
    ensures forall n | 0 <= n < k :: !deeds[n].LoadedMore?
  {
    if k > 0 {
      NoMoreUntilReopened(states, deeds, servers, k - 1);
      assert Does(states[k - 1], deeds[k - 1], states[k]);
      hide History, Merges, Stops, AllOperations, HonestDeed;
    }
  }

  /** Then it has all there is down to the end of the page its view is opened with, and goes on from there. */
  lemma ReopeningCovers(s: Session, d: Deed, t: Session, server: set<Operation>)
    requires d.Reopened? && d.view.Some? && Does(s, d, t) && s.cursor.None? && Answers(d.initial, server, None)
    ensures t.cursor == d.initial.next && Covered(t, server)
  {
    forall op | op in server && From(op, t.cursor)
      ensures Knows(t.items, op.id)
    {
      MergeKnows(s.items, d.initial.operations, t.items, op.id);
    }
  }

  // A list that is opened when there are no operations, and has its first round then. A page holds one operation; two are
  // made, and the next round only shows the later one. Opened again, the list leads to the other.
  const BLANK := Session([], None, None, None)
  const EMPTY := BLANK.(saved := Some(Saved([], None)))
  const CUT := Session([LATEST], None, Some(Saved([LATEST], None)), None)
  const REOPENED := CUT.(cursor := Some(Key(LATEST)))
  const WHOLE := Session([LATEST, MISSED], Some(Key(MISSED)), Some(Saved([LATEST, MISSED], Some(Key(MISSED)))), Some(Key(MISSED)))
  const NOTHING := Page([], None)
  const TOP := Page([LATEST], Some(Key(LATEST)))
  const REST := Page([MISSED], Some(Key(MISSED)))
  const BLANK_ROUND := Rounded(NOTHING, [], 0, [], [])
  const TOP_ROUND := Rounded(TOP, [], 0, [], [])
  const REOPENING := Reopened(Some(Saved([LATEST], None)), TOP)

  lemma BlankRounds()
    ensures Opened(None, NOTHING, None, BLANK) && Does(BLANK, BLANK_ROUND, EMPTY) && Does(EMPTY, TOP_ROUND, CUT)
  {
    assert [NOTHING] + [][..0] == [NOTHING] && [NOTHING][1..] == [] && AllOperations([NOTHING]) == [];
    assert [TOP] + [][..0] == [TOP] && [TOP][1..] == [] && AllOperations([TOP]) == [LATEST];
    assert Incoming(BLANK_ROUND) == [] && Incoming(TOP_ROUND) == [LATEST] && [LATEST][..0] == [];
    assert TakeIn(map[], [LATEST]) == map[4 := LATEST];
  }

  lemma ReopenedLoads()
    ensures Does(CUT, REOPENING, REOPENED) && Does(REOPENED, LoadedMore(REST), WHOLE)
  {
    assert [LATEST][..0] == [] && [MISSED][..0] == [];
    assert ById([LATEST]) == map[4 := LATEST];
    assert TakeIn(map[4 := LATEST], [LATEST]) == map[4 := LATEST];
    assert TakeIn(map[4 := LATEST], [MISSED]) == map[4 := LATEST, 2 := MISSED];
  }

  const NONE: set<Operation> := {}
  const BOTH: set<Operation> := {LATEST, MISSED}

  lemma PagesAnswer()
    ensures Answers(NOTHING, NONE, None) && Answers(TOP, BOTH, None) && Answers(REST, BOTH, REOPENED.cursor)
  {
    assert TOP.operations[0] == LATEST && REST.operations[0] == MISSED;
  }

  lemma OneAnswerIsHonest(head: Page, server: set<Operation>)
    requires Answers(head, server, None) && Grew(server, server)
    ensures exists servers :: HonestWalk(head, [], servers) && servers[0] == server
  {
    hide Answers, StillThere;
    var servers := [server];
    assert HonestWalk(head, [], servers) && servers[0] == server;
  }

  lemma StaysAsItIs(server: set<Operation>)
    requires forall a, b | a in server && b in server && a.id == b.id :: a == b
    ensures Grew(server, server)
  {
    hide Below;
    forall op | op in server
      ensures exists o :: o in server && Key(o) == Key(op)
    {
      assert Key(op) == Key(op);
    }
  }

  lemma OperationsAreMade()
    ensures Grew(NONE, NONE) && Grew(NONE, BOTH) && Grew(BOTH, BOTH)
  {
    assert Grew(NONE, NONE) && Grew(NONE, BOTH) by {
      hide Below;
    }
    hide Grew;
    StaysAsItIs(BOTH);
  }

  lemma BlankRoundsAreHonest()
    ensures HonestDeed(NONE, BLANK_ROUND, NONE, BLANK.cursor) && HonestDeed(NONE, TOP_ROUND, BOTH, EMPTY.cursor)
    ensures HonestDeed(BOTH, REOPENING, BOTH, CUT.cursor) && HonestDeed(BOTH, LoadedMore(REST), BOTH, REOPENED.cursor)
  {
    hide Answers, HonestWalk, Grew;
    PagesAnswer();
    OperationsAreMade();
    OneAnswerIsHonest(NOTHING, NONE);
    OneAnswerIsHonest(TOP, BOTH);
  }

  const CUT_STATES := [BLANK, EMPTY, CUT, REOPENED, WHOLE]
  const CUT_DEEDS := [BLANK_ROUND, TOP_ROUND, REOPENING, LoadedMore(REST)]
  const CUT_SERVERS := [NONE, NONE, BOTH, BOTH, BOTH]

  lemma CutIsHistory()
    ensures History(CUT_STATES, CUT_DEEDS, CUT_SERVERS)
  {
    hide Does, HonestDeed;
    BlankRounds();
    ReopenedLoads();
    BlankRoundsAreHonest();
    forall k | 0 <= k < |CUT_DEEDS|
      ensures Does(CUT_STATES[k], CUT_DEEDS[k], CUT_STATES[k + 1])
      ensures HonestDeed(CUT_SERVERS[k], CUT_DEEDS[k], CUT_SERVERS[k + 1], CUT_STATES[k].cursor)
    {
      assert k == 0 || k == 1 || k == 2 || k == 3;
    }
  }

  /** So a list that began empty can have a hole, and no cursor that leads to it, until its view is opened again. */
  lemma EmptyListIsCut()
    ensures Opened(None, NOTHING, None, CUT_STATES[0]) && History(CUT_STATES, CUT_DEEDS, CUT_SERVERS)
    ensures !Covered(CUT_STATES[2], CUT_SERVERS[2]) && CUT_STATES[2].cursor.None?
    ensures Covered(CUT_STATES[3], CUT_SERVERS[3]) && Knows(CUT_STATES[4].items, MISSED.id)
  {
    hide Does, Covered, Answers, Opened, Knows, History;
    CutIsHistory();
    BlankRounds();
    ReopenedLoads();
    PagesAnswer();
    ReopeningCovers(CUT, REOPENING, REOPENED, BOTH);
    CutIsNotCovered();
  }

  lemma CutIsNotCovered()
    ensures !Covered(CUT, BOTH) && Knows(WHOLE.items, MISSED.id)
  {
    assert MISSED in BOTH && From(MISSED, CUT.cursor) && !Knows(CUT.items, MISSED.id);
    assert MISSED in WHOLE.items;
  }

  // ---------------------------------------------------------------------------------------------
  // The active operations
  // ---------------------------------------------------------------------------------------------

  datatype Collected = Alive(operations: seq<Operation>) | RepeatedCursor | Waiting

  /** Each operation once, as it was seen last. */
  ghost predicate LatestOf(ops: seq<Operation>, all: seq<Operation>) {
    && (forall i, j | 0 <= i < j < |ops| :: ops[i].id != ops[j].id)
    && forall op :: op in ops <==> op.id in ById(all) && ById(all)[op.id] == op
  }

  /** Follows the pages of active operations to the end. `pages` are the answers, in order. */
  method CollectActive(pages: seq<Page>) returns (active: Collected, used: nat)
    ensures used <= |pages|
    ensures active.Alive? ==> used > 0 && pages[used - 1].next.None? && LatestOf(active.operations, AllOperations(pages[..used]))
    ensures active.RepeatedCursor? ==> exists j, k | 0 <= j < k < used :: pages[j].next.Some? && pages[j].next == pages[k].next
    ensures active.Waiting? ==> used == |pages|
  {
    var alive: map<nat, Operation> := map[];
    var seen: set<Cursor> := {};
    used := 0;
    assert pages[..0] == [];
    while used < |pages|
      invariant used <= |pages| && alive == ById(AllOperations(pages[..used]))
      invariant forall c | c in seen :: exists j | 0 <= j < used :: pages[j].next == Some(c)
    {
      var page := pages[used];
      assert pages[..used] + [page] == pages[..used + 1];
      AllOperationsAppend(pages[..used], page);
      alive := NoteAll(alive, page.operations, AllOperations(pages[..used]));
      used := used + 1;
      if page.next.None? {
        var operations := Values(alive, AllOperations(pages[..used]));
        return Alive(operations), used;
      }
      if page.next.value in seen {
        return RepeatedCursor, used;
      }
      seen := seen + {page.next.value};
    }
    active := Waiting;
  }

  method NoteAll(alive: map<nat, Operation>, ops: seq<Operation>, ghost before: seq<Operation>) returns (noted: map<nat, Operation>)
    requires alive == ById(before)
    ensures noted == ById(before + ops)
  {
    noted := alive;
    assert before + ops[..0] == before;
    for i := 0 to |ops|
      invariant noted == ById(before + ops[..i])
    {
      assert (before + ops[..i + 1])[..|before| + i] == before + ops[..i];
      noted := noted[ops[i].id := ops[i]];
    }
    assert ops[..|ops|] == ops;
  }

  method Values(alive: map<nat, Operation>, ghost all: seq<Operation>) returns (ops: seq<Operation>)
    requires alive == ById(all)
    ensures LatestOf(ops, all)
  {
    ByIdIsById(all);
    ops := SortNewestFirst(alive);
  }

  /** The operations of the list that were active and no longer are among those that are. */
  function Formerly(previous: seq<Operation>, alive: seq<Operation>): seq<nat> {
    if previous == [] then []
    else
      var last := previous[|previous| - 1];
      Formerly(previous[..|previous| - 1], alive) + if !last.terminal && last.id !in Ids(alive) then [last.id] else []
  }

  function Ids(ops: seq<Operation>): set<nat> { set op | op in ops :: op.id }

  lemma {:induction false} FormerlyIsExact(previous: seq<Operation>, alive: seq<Operation>, id: nat)
    ensures id in Formerly(previous, alive) <==> (exists op :: op in previous && op.id == id && !op.terminal) && !Knows(alive, id)
  {
    if previous != [] {
      var rest, last := previous[..|previous| - 1], previous[|previous| - 1];
      FormerlyIsExact(rest, alive, id);
      assert previous == rest + [last];
      assert forall op :: op in previous <==> op in rest || op == last;
      assert id in Ids(alive) <==> Knows(alive, id);
    }
  }

  /** The answers to the requests for them. */
  ghost predicate Gets(former: seq<Operation>, wanted: seq<nat>) {
    |former| == |wanted| && forall i | 0 <= i < |former| :: former[i].id == wanted[i]
  }

  /** After a round no operation is shown as active from before it: whatever was active in the list when it began is shown
      as this round has read it, or newer. */
  lemma NoStaleActive(previous: seq<Operation>, s: Session, d: Deed, t: Session, op: Operation) returns (now: Operation)
    requires d.Rounded? && Does(s, d, t) && Gets(d.former, Formerly(previous, d.alive))
    requires op in previous && !op.terminal
    ensures now in t.items && now.id == op.id
    ensures exists read :: read in d.alive + d.former && read.id == op.id && read.revision <= now.revision
  {
    var known, incoming := ById(s.items), Incoming(d);
    FormerlyIsExact(previous, d.alive, op.id);
    var read :| read in d.alive + d.former && read.id == op.id by {
      if op.id in Formerly(previous, d.alive) {
        var i :| 0 <= i < |d.former| && Formerly(previous, d.alive)[i] == op.id;
        assert d.former[i] in d.alive + d.former;
      } else {
        var o :| o in d.alive && o.id == op.id;
        assert o in d.alive + d.former;
      }
    }
    assert read in incoming;
    var i :| 0 <= i < |incoming| && incoming[i] == read;
    ByIdIsById(s.items);
    TakeInIsById(known, incoming);
    TakeInTakesHighest(known, incoming, op.id);
    now := TakeIn(known, incoming)[op.id];
  }

  // ---------------------------------------------------------------------------------------------
  // The session
  // ---------------------------------------------------------------------------------------------

  /** The list of one session. `asked` counts how often the newest operations were asked for, `begun` and `done`
      how many of these the last round begun, and the last one completed, answers. */
  class OperationSession {
    var items: seq<Operation>
    var cursor: Option<Cursor>
    var saved: Option<Saved>
    var boundary: Option<Cursor>
    var reading: bool
    var queued: bool
    /** The list when the round began. */
    var previous: seq<Operation>
    /** It is further pages that are read, not a round. */
    ghost var extending: bool
    ghost var asked: nat
    ghost var begun: nat
    ghost var done: nat
    ghost var failed: bool

    ghost function Snapshot(): Session
      reads this
    { Session(items, cursor, saved, boundary) }

    /** Nobody who asked is forgotten: a round that began since answers, or another will follow. */
    ghost predicate Valid()
      reads this
    {
      && Descending(items) && done <= begun <= asked
      && (begun < asked ==> queued || failed) && ((!reading || extending) && !queued && !failed ==> done == asked)
      && (!reading ==> !queued || failed) && (extending ==> reading)
      && (reading && !extending ==> forall op | op in previous :: Knows(items, op.id))
    }

    constructor (view: Option<Saved>, initial: Page, boundary: Option<Cursor>)
      ensures Valid() && Opened(view, initial, boundary, Snapshot())
    {
      var merged := Merge(if view.Some? then view.value.items else [], initial.operations);
      items, saved, this.boundary := merged, view, boundary;
      cursor := if view.Some? && view.value.cursor.Some? then view.value.cursor else initial.next;
      reading, queued, previous, extending := false, false, [], false;
      asked, begun, done, failed := 0, 0, 0, false;
    }

    /** The newest operations are asked for: now, or after what is being read. */
    method AskLatest() returns (starts: bool)
      requires Valid()
      modifies `reading, `queued, `previous, `asked, `begun, `failed
      ensures Valid() && asked == old(asked) + 1 && starts == !old(reading) && reading
      ensures starts ==> begun == asked && !queued && previous == items
      ensures !starts ==> queued && begun == old(begun)
    {
      asked := asked + 1;
      if reading {
        queued, starts := true, false;
        return;
      }
      reading, queued, failed, starts := true, false, false, true;
      previous, begun := items, asked;
    }

    /** Down to where the walk of this round goes. */
    method FindBoundary() returns (b: Option<Cursor>)
      ensures b == Boundary(Snapshot())
    {
      if saved.None? || saved.value.items == [] {
        return boundary;
      }
      var remembered := saved.value.items;
      var newest := remembered[0];
      assert remembered[..1] == [remembered[0]];
      for i := 1 to |remembered|
        invariant newest == Newest(remembered[..i])
      {
        assert remembered[..i + 1][..i] == remembered[..i];
        if Below(Key(newest), Key(remembered[i])) {
          newest := remembered[i];
        }
      }
      assert remembered[..|remembered|] == remembered;
      b := Some(Key(newest));
    }

    /** What has to be asked for one by one. */
    method FormerlyActive(alive: seq<Operation>) returns (ids: seq<nat>)
      ensures ids == Formerly(previous, alive)
    {
      ids := [];
      assert previous[..0] == [];
      for i := 0 to |previous|
        invariant ids == Formerly(previous[..i], alive)
      {
        assert previous[..i + 1][..i] == previous[..i];
        if !previous[i].terminal && previous[i].id !in Ids(alive) {
          ids := ids + [previous[i].id];
        }
      }
      assert previous[..|previous|] == previous;
    }

    /** A round is complete: its walk stopped after `used` further pages. If anyone asked meanwhile, another begins at
        once. */
    method FinishRound(walk: Walk, alive: seq<Operation>, former: seq<Operation>, ghost head: Page, ghost pages: seq<Page>,
                       ghost used: nat) returns (again: bool)
      requires Valid() && reading && !extending && Gets(former, Formerly(previous, alive))
      requires walk.Walked? && Stops(head, Boundary(Snapshot()), pages, used)
      requires walk.incoming == AllOperations([head] + pages[..used]) && walk.history == LastCursor(head, pages, used)
      modifies this
      ensures Valid() && Does(old(Snapshot()), Rounded(head, pages, used, alive, former), Snapshot())
      ensures done == old(begun) && asked == old(asked) && again == old(queued) == reading && !extending
      ensures again ==> begun == asked && previous == items
      ensures !again && !failed ==> done == asked
    {
      hide Does, Merges, Formerly, Gets, Stops, Descending, Boundary, LastKey, LastCursor, AllOperations, Knows;
      FormerIsKnown(previous, items, alive, former);
      ghost var was := Snapshot();
      var merged := Merge(items, walk.incoming + alive + former);
      var history, depth := if saved.None? then walk.history else cursor, if saved.None? then LastKey(walk.incoming, boundary) else boundary;
      RoundIsDone(was, Session(merged, history, Some(Saved(merged, history)), depth), walk, head, pages, used, alive, former);
      KnowsItself(merged);
      items, cursor, boundary, saved, done := merged, history, depth, Some(Saved(merged, history)), begun;
      again := EndReading();
    }

    /** What was read is taken in. If anyone asked meanwhile, a round begins at once. */
    method EndReading() returns (again: bool)
      requires reading
      modifies `reading, `queued, `previous, `extending, `begun, `failed
      ensures again == old(queued) == reading && !queued && !extending
      ensures if again then begun == asked && !failed && previous == items
        else begun == old(begun) && failed == old(failed) && previous == old(previous)
    {
      extending, again := false, queued;
      if queued {
        queued, begun, failed, previous := false, asked, false, items;
      } else {
        reading := false;
      }
    }

    /** A round fails: the reader is told, and asks again. */
    method FailRound()
      requires Valid() && reading && !extending
      modifies `reading, `failed
      ensures Valid() && !reading && failed
    {
      reading, failed := false, true;
    }

    /** An observed operation changed. Only operations of the list are taken in. */
    method Update(operation: Operation)
      requires Valid()
      modifies `items
      ensures Valid()
      ensures if Knows(old(items), operation.id) then Does(old(Snapshot()), Updated(operation), Snapshot()) else items == old(items)
    {
      ghost var was := items;
      if operation.id in Ids(items) {
        items := Merge(items, [operation]);
        forall op | op in previous
          ensures Knows(was, op.id) ==> Knows(items, op.id)
        {
          MergeKnows(was, [operation], items, op.id);
        }
      }
    }

    /** The next page is asked for, if nothing is being read and there is one. */
    method BeginMore() returns (from: Option<Cursor>)
      requires Valid()
      modifies `reading, `extending
      ensures Valid() && from == if old(reading) then None else cursor
      ensures if from.Some? then reading && extending else reading == old(reading) && extending == old(extending)
    {
      if reading || cursor.None? {
        return None;
      }
      reading, extending, from := true, true, cursor;
    }

    /** The page is there, or could not be read. If the newest operations were asked for meanwhile, a round begins. */
    method FinishMore(answer: Option<Page>) returns (starts: bool)
      requires Valid() && reading && extending && cursor.Some?
      modifies this
      ensures Valid() && asked == old(asked) && done == old(done) && starts == old(queued) == reading && !extending
      ensures starts ==> begun == asked && previous == items
      ensures if answer.Some? then Does(old(Snapshot()), LoadedMore(answer.value), Snapshot()) else Snapshot() == old(Snapshot())
    {
      hide Knows, LastKey, TakeIn, ById;
      if answer.Some? {
        var page := answer.value;
        cursor := page.next;
        items := Merge(items, page.operations);
        boundary, saved := LastKey(page.operations, boundary), Some(Saved(items, cursor));
      }
      KnowsItself(items);
      starts := EndReading();
    }
  }

  lemma KnowsItself(items: seq<Operation>)
    ensures forall op | op in items :: Knows(items, op.id)
  {}

  lemma RoundIsDone(s: Session, t: Session, walk: Walk, head: Page, pages: seq<Page>, used: nat, alive: seq<Operation>, former: seq<Operation>)
    requires Stops(head, Boundary(s), pages, used) && (forall o | o in former :: Knows(s.items, o.id))
    requires walk.Walked? && walk.incoming == AllOperations([head] + pages[..used]) && walk.history == LastCursor(head, pages, used)
    requires Merges(s.items, walk.incoming + alive + former, t.items) && t.saved == Some(Saved(t.items, t.cursor))
    requires t.cursor == if s.saved.Some? then s.cursor else walk.history
    requires t.boundary == if s.saved.Some? then s.boundary else LastKey(walk.incoming, s.boundary)
    ensures Does(s, Rounded(head, pages, used, alive, former), t) && Descending(t.items)
  {}

  lemma FormerIsKnown(previous: seq<Operation>, items: seq<Operation>, alive: seq<Operation>, former: seq<Operation>)
    requires Gets(former, Formerly(previous, alive)) && forall op | op in previous :: Knows(items, op.id)
    ensures forall o | o in former :: Knows(items, o.id)
  {
    forall o | o in former
      ensures Knows(items, o.id)
    {
      var i :| 0 <= i < |former| && former[i] == o;
      assert Formerly(previous, alive)[i] == o.id;
      FormerlyIsExact(previous, alive, o.id);
      var op :| op in previous && op.id == o.id;
    }
  }
}
