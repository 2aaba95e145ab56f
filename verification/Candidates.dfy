/** How the GUI asks for package candidates: at most two requests at a time for everyone together, and a list of
    summaries put together from its pages, or given up. */
module Candidates {
  import opened Wrappers

  const SLOTS := 2
  const PAGE_LIMIT := 1563
  const ITEM_LIMIT := 100_000
  const PAGE_SIZE := 64

  // ---------------------------------------------------------------------------------------------
  // Two slots, first come first served
  // ---------------------------------------------------------------------------------------------

  type Caller = nat

  /** `running` have a slot, in the order they got one with those who have finished in `started`; `arrived` is
      everyone so far. */
  datatype Slots = Slots(inFlight: int, waiting: seq<Caller>, running: set<Caller>, started: seq<Caller>, arrived: seq<Caller>)

  datatype Turn = Arrived(caller: Caller) | Finished(caller: Caller)

  function Arrive(s: Slots, c: Caller): Slots {
    if c in s.arrived then s
    else if s.inFlight >= SLOTS then s.(waiting := s.waiting + [c], arrived := s.arrived + [c])
    else s.(inFlight := s.inFlight + 1, running := s.running + {c}, started := s.started + [c], arrived := s.arrived + [c])
  }

  /** Whether the request succeeded or failed: its slot goes to who has waited longest, or is free. */
  function Finish(s: Slots, c: Caller): Slots {
    if c !in s.running then s
    else if s.waiting == [] then s.(inFlight := s.inFlight - 1, running := s.running - {c})
    else s.(waiting := s.waiting[1..], running := s.running - {c} + {s.waiting[0]}, started := s.started + [s.waiting[0]])
  }

  function RunTurns(turns: seq<Turn>): Slots {
    if turns == [] then Slots(0, [], {}, [], [])
    else
      var before := RunTurns(turns[..|turns| - 1]);
      match turns[|turns| - 1]
      case Arrived(c) => Arrive(before, c)
      case Finished(c) => Finish(before, c)
  }

  ghost predicate SlotsOk(s: Slots) {
    && s.inFlight == |s.running| <= SLOTS && (s.waiting != [] ==> s.inFlight == SLOTS)
    && s.started + s.waiting == s.arrived
    && (forall i, j | 0 <= i < j < |s.arrived| :: s.arrived[i] != s.arrived[j])
    && forall c | c in s.running :: c in s.started
  }

  lemma ArriveKeeps(s: Slots, c: Caller)
    requires SlotsOk(s)
    ensures SlotsOk(Arrive(s, c))
  {
    if c !in s.arrived {
      var t := Arrive(s, c);
      assert s.started + (s.waiting + [c]) == s.arrived + [c];
      if s.inFlight < SLOTS {
        assert s.started + [] == s.started == s.arrived && t.started == s.started + [c];
        assert c !in s.running && |s.running + {c}| == |s.running| + 1;
        forall x | x in t.running
          ensures x in t.started
        {
          assert t.started[|s.started|] == c && (x != c ==> x in s.started);
        }
      }
    }
  }

  lemma FinishKeeps(s: Slots, c: Caller)
    requires SlotsOk(s)
    ensures SlotsOk(Finish(s, c))
  {
    if c in s.running && s.waiting != [] {
      NextIsNew(s);
      assert s.started + [s.waiting[0]] + s.waiting[1..] == s.started + s.waiting;
      assert |s.running - {c} + {s.waiting[0]}| == |s.running|;
    }
  }

  lemma NextIsNew(s: Slots)
    requires SlotsOk(s) && s.waiting != []
    ensures s.waiting[0] !in s.running
  {
    assert s.arrived[|s.started|] == s.waiting[0];
    assert forall i | 0 <= i < |s.started| :: s.started[i] == s.arrived[i];
  }

  /** Whoever calls and however their requests end: at most two run, whoever waits waits for both slots, and
      slots are given in the order of arrival, with nobody passed over. */
  lemma {:induction false} SlotsAreFair(turns: seq<Turn>)
    ensures var s := RunTurns(turns);
      && s.inFlight == |s.running| <= SLOTS && (s.waiting != [] ==> s.inFlight == SLOTS)
      && s.started + s.waiting == s.arrived
      && forall c | c in s.running :: c in s.started
    ensures SlotsOk(RunTurns(turns))
  {
    if turns != [] {
      SlotsAreFair(turns[..|turns| - 1]);
      match turns[|turns| - 1]
      case Arrived(c) => ArriveKeeps(RunTurns(turns[..|turns| - 1]), c);
      case Finished(c) => FinishKeeps(RunTurns(turns[..|turns| - 1]), c);
    }
  }

  /** A finished request frees exactly one slot or hands it to exactly one waiter. */
  lemma FinishGivesOneSlot(s: Slots, c: Caller)
    requires SlotsOk(s) && c in s.running
    ensures var t := Finish(s, c);
      if s.waiting == [] then t.inFlight == s.inFlight - 1 && |t.running| == |s.running| - 1 && t.started == s.started
      else t.inFlight == s.inFlight == |t.running| && t.started == s.started + [s.waiting[0]]
           && s.waiting[0] in t.running && s.waiting[0] !in s.running
  {
    FinishKeeps(s, c);
    if s.waiting != [] {
      NextIsNew(s);
    }
  }

  class CandidateQueries {
    var inFlight: int
    var waiting: seq<Caller>
    ghost var running: set<Caller>
    ghost var started: seq<Caller>
    ghost var arrived: seq<Caller>

    ghost function Snapshot(): Slots
      reads this
    { Slots(inFlight, waiting, running, started, arrived) }

    constructor ()
      ensures Snapshot() == RunTurns([]) && SlotsOk(Snapshot())
    {
      inFlight, waiting, running, started, arrived := 0, [], {}, [], [];
    }

    method Query(caller: Caller) returns (starts: bool)
      requires SlotsOk(Snapshot()) && caller !in arrived
      modifies this
      ensures SlotsOk(Snapshot()) && Snapshot() == Arrive(old(Snapshot()), caller) && starts == (caller in running)
    {
      ArriveKeeps(Snapshot(), caller);
      arrived := arrived + [caller];
      if inFlight >= SLOTS {
        waiting, starts := waiting + [caller], false;
        assert old(Snapshot()).started + old(Snapshot()).waiting == old(arrived);
      } else {
        inFlight, starts := inFlight + 1, true;
        running, started := running + {caller}, started + [caller];
      }
    }

    method QueryOver(caller: Caller) returns (next: Option<Caller>)
      requires SlotsOk(Snapshot()) && caller in running
      modifies this
      ensures SlotsOk(Snapshot()) && Snapshot() == Finish(old(Snapshot()), caller)
      ensures next == if old(waiting) == [] then None else Some(old(waiting)[0])
    {
      FinishKeeps(Snapshot(), caller);
      running := running - {caller};
      if waiting != [] {
        next := Some(waiting[0]);
        running, started := running + {waiting[0]}, started + [waiting[0]];
        waiting := waiting[1..];
      } else {
        inFlight, next := inFlight - 1, None;
      }
    }
  }

  // ---------------------------------------------------------------------------------------------
  // Putting a list together from its pages
  // ---------------------------------------------------------------------------------------------

  type Fingerprint = nat
  type PackageId = nat

  datatype Cursor = Cursor(offset: nat, fingerprint: Fingerprint)

  datatype Page = Page(summary: bool, project: nat, revision: nat, fingerprint: Fingerprint, items: seq<PackageId>,
                       catalogComplete: bool, next: Option<Cursor>)

  datatype Request = Request(project: nat, revision: nat)

  /** The answer to a request for the page at `offset` is usable. */
  predicate PageIsSound(request: Request, snapshot: Option<Fingerprint>, offset: nat, page: Page) {
    && page.summary && page.project == request.project && page.revision == request.revision
    && (snapshot.Some? ==> page.fingerprint == snapshot.value)
    && (page.next.Some? ==> offset < page.next.value.offset && page.next.value.fingerprint == page.fingerprint)
  }

  datatype Outcome =
    | Complete(items: seq<PackageId>, fingerprint: Fingerprint, catalogComplete: bool)
    | Stale
    | LimitExceeded
    | Superseded
    | RequestFailed

  predicate Distinct(items: seq<PackageId>) { forall i, j | 0 <= i < j < |items| :: items[i] != items[j] }

  /** What a server answers the `k`th request of a walk with. */
  type Server = (nat, Cursor) -> Option<Page>

  /** The pages from the `index`th on, which is at `cursor`. */
  function Walk(request: Request, server: Server, isCurrent: nat -> bool, fingerprint: Fingerprint, index: nat,
                cursor: Option<Cursor>, items: seq<PackageId>, complete: bool): Outcome
    decreases PAGE_LIMIT - index
  {
    if cursor.None? then Complete(items, fingerprint, complete)
    else if !isCurrent(index) then Superseded
    else if index >= PAGE_LIMIT || cursor.value.offset > ITEM_LIMIT then LimitExceeded
    else
      match server(index, cursor.value)
      case None => RequestFailed
      case Some(page) =>
        if !PageIsSound(request, Some(fingerprint), cursor.value.offset, page) then Stale
        else if !Distinct(items + page.items) then Stale
        else if |items| + |page.items| > ITEM_LIMIT then LimitExceeded
        else Walk(request, server, isCurrent, fingerprint, index + 1, page.next, items + page.items, complete && page.catalogComplete)
  }

  function Summary(request: Request, server: Server, isCurrent: nat -> bool, first: Page): Outcome {
    if !Distinct(first.items) then Stale
    else Walk(request, server, isCurrent, first.fingerprint, 1, first.next, first.items, first.catalogComplete)
  }

  method FinishSummary(request: Request, server: Server, isCurrent: nat -> bool, first: Page) returns (outcome: Outcome)
    ensures outcome == Summary(request, server, isCurrent, first)
  {
    var cursor, complete, items := first.next, first.catalogComplete, first.items;
    var seen := Ids(items);
    if |seen| != |items| {
      SizeTellsDistinct(items);
      return Stale;
    }
    SizeTellsDistinct(items);
    var index := 1;
    while cursor.Some?
      invariant Distinct(items) && seen == Ids(items)
      invariant Walk(request, server, isCurrent, first.fingerprint, index, cursor, items, complete) == Summary(request, server, isCurrent, first)
      invariant index <= PAGE_LIMIT
      decreases PAGE_LIMIT - index
    {
      if !isCurrent(index) {
        return Superseded;
      }
      if index >= PAGE_LIMIT || cursor.value.offset > ITEM_LIMIT {
        return LimitExceeded;
      }
      var answer := server(index, cursor.value);
      if answer.None? {
        return RequestFailed;
      }
      var page := answer.value;
      if !PageIsSound(request, Some(first.fingerprint), cursor.value.offset, page) {
        return Stale;
      }
      complete := complete && page.catalogComplete;
      ghost var before := items;
      for i := 0 to |page.items|
        invariant items == before + page.items[..i] && Distinct(items) && seen == Ids(items)
      {
        assert before + page.items[..i + 1] == items + [page.items[i]];
        if page.items[i] in seen {
          RepeatedIsNotDistinct(before, page.items, i);
          return Stale;
        }
        seen, items := seen + {page.items[i]}, items + [page.items[i]];
      }
      assert page.items[..|page.items|] == page.items;
      if |items| > ITEM_LIMIT {
        return LimitExceeded;
      }
      cursor, index := page.next, index + 1;
    }
    outcome := Complete(items, first.fingerprint, complete);
  }

  function Ids(items: seq<PackageId>): set<PackageId> { set i | i in items }

  lemma {:induction false} SizeTellsDistinct(items: seq<PackageId>)
    ensures |Ids(items)| == |items| <==> Distinct(items)
    ensures |Ids(items)| <= |items|
  {
    if items == [] {
      assert Ids(items) == {};
    } else {
      var rest, last := items[..|items| - 1], items[|items| - 1];
      var before := Ids(rest);
      SizeTellsDistinct(rest);
      assert items == rest + [last];
      assert Ids(items) == before + {last};
      if last in rest {
        assert before + {last} == before;
        RepeatedIsNotDistinct(rest, [last], 0);
      } else {
        assert |before + {last}| == |before| + 1;
        assert forall i | 0 <= i < |rest| :: rest[i] == items[i];
        assert Distinct(items) <==> Distinct(rest);
      }
    }
  }

  lemma RepeatedIsNotDistinct(before: seq<PackageId>, items: seq<PackageId>, i: nat)
    requires i < |items| && items[i] in before + items[..i]
    ensures !Distinct(before + items)
  {
    var all := before + items;
    var k :| 0 <= k < |before + items[..i]| && (before + items[..i])[k] == items[i];
    assert all[k] == items[i] && all[|before| + i] == items[i];
  }

  // ---------------------------------------------------------------------------------------------
  // What a walk gives
  // ---------------------------------------------------------------------------------------------

  /** The pages a walk looks at, from the `index`th on. */
  ghost function Visited(server: Server, index: nat, cursor: Option<Cursor>): seq<Page>
    decreases PAGE_LIMIT - index
  {
    if cursor.None? || index >= PAGE_LIMIT then []
    else
      match server(index, cursor.value)
      case None => []
      case Some(page) => [page] + Visited(server, index + 1, page.next)
  }

  ghost function AllItems(pages: seq<Page>): seq<PackageId> {
    if pages == [] then [] else pages[0].items + AllItems(pages[1..])
  }

  lemma {:induction false} WalkIsConsistent(request: Request, server: Server, isCurrent: nat -> bool, fingerprint: Fingerprint,
                                            index: nat, cursor: Option<Cursor>, items: seq<PackageId>, complete: bool)
    requires Distinct(items)
    ensures var outcome := Walk(request, server, isCurrent, fingerprint, index, cursor, items, complete);
      var pages := Visited(server, index, cursor);
      outcome.Complete? ==>
        && outcome.fingerprint == fingerprint && Distinct(outcome.items) && outcome.items == items + AllItems(pages)
        && (outcome.catalogComplete <==> complete && forall p | p in pages :: p.catalogComplete)
        && (forall p | p in pages :: p.summary && p.fingerprint == fingerprint && p.project == request.project && p.revision == request.revision)
        && (cursor.Some? ==> |outcome.items| <= ITEM_LIMIT)
    decreases PAGE_LIMIT - index
  {
    if cursor.Some? && index < PAGE_LIMIT {
      var answer := server(index, cursor.value);
      if answer.Some? {
        var page := answer.value;
        if Distinct(items + page.items) {
          WalkIsConsistent(request, server, isCurrent, fingerprint, index + 1, page.next, items + page.items, complete && page.catalogComplete);
        }
        var rest := Visited(server, index + 1, page.next);
        assert AllItems([page] + rest) == page.items + AllItems(rest);
        assert (items + page.items) + AllItems(rest) == items + (page.items + AllItems(rest));
        assert forall p :: p in [page] + rest <==> p == page || p in rest;
      }
    }
  }

  /** Whatever the server sends and however often the request is superseded: a list that is given is the items
      of its pages, each once, all of one snapshot; every page after the first, and the first if it was read for the same
      request, is of the project and revision asked for; and the list is complete if every page says so. */
  lemma SummaryIsConsistent(request: Request, server: Server, isCurrent: nat -> bool, first: Page)
    requires Summary(request, server, isCurrent, first).Complete?
    ensures var outcome := Summary(request, server, isCurrent, first);
      var pages := [first] + Visited(server, 1, first.next);
      && Distinct(outcome.items) && outcome.items == AllItems(pages)
      && (outcome.catalogComplete <==> forall p | p in pages :: p.catalogComplete)
      && (forall p | p in pages :: p.fingerprint == first.fingerprint == outcome.fingerprint)
      && (forall p | p in pages[1..] :: p.summary && p.project == request.project && p.revision == request.revision)
      && (PageIsSound(request, None, 0, first) ==>
            forall p | p in pages :: p.summary && p.project == request.project && p.revision == request.revision)
  {
    WalkIsConsistent(request, server, isCurrent, first.fingerprint, 1, first.next, first.items, first.catalogComplete);
    var rest := Visited(server, 1, first.next);
    assert ([first] + rest)[1..] == rest;
    assert forall p :: p in [first] + rest <==> p == first || p in rest;
  }

  /** Whatever the server sends: a list that is given is within the limit if, and only if, there was a second page or the
      first one is within it. The limit is only looked at after a further page. */
  lemma LimitIsKeptWhen(request: Request, server: Server, isCurrent: nat -> bool, first: Page)
    requires Summary(request, server, isCurrent, first).Complete?
    ensures |Summary(request, server, isCurrent, first).items| <= ITEM_LIMIT <==> first.next.Some? || |first.items| <= ITEM_LIMIT
  {
    WalkIsConsistent(request, server, isCurrent, first.fingerprint, 1, first.next, first.items, first.catalogComplete);
  }

  /** One page with one item too many is given as it is. */
  lemma OversizedPageIsGiven(server: Server, isCurrent: nat -> bool)
    ensures var request := Request(1, 1);
      var first := Page(true, 1, 1, 7, seq(ITEM_LIMIT + 1, i => i), true, None);
      && PageIsSound(request, None, 0, first)
      && Summary(request, server, isCurrent, first) == Complete(first.items, 7, true) && |first.items| == ITEM_LIMIT + 1
  {
    assert Distinct(seq(ITEM_LIMIT + 1, i => i));
  }

  /** Where the next page is after so many. */
  ghost function CursorAt(cursor: Option<Cursor>, pages: seq<Page>, j: nat): Option<Cursor>
    requires j <= |pages|
  { if j == 0 then cursor else pages[j - 1].next }

  /** These pages were asked for one after another, by a caller that was current each time, and each could be used. */
  ghost predicate Accepted(request: Request, server: Server, isCurrent: nat -> bool, fingerprint: Fingerprint, index: nat,
                           cursor: Option<Cursor>, items: seq<PackageId>, pages: seq<Page>) {
    && Distinct(items + AllItems(pages)) && (pages != [] ==> |items + AllItems(pages)| <= ITEM_LIMIT)
    && forall j | 0 <= j < |pages| ::
      AcceptedAt(request, server, isCurrent, fingerprint, index + j, CursorAt(cursor, pages, j), pages[j])
  }

  ghost predicate AcceptedAt(request: Request, server: Server, isCurrent: nat -> bool, fingerprint: Fingerprint, index: nat,
                             at: Option<Cursor>, page: Page) {
    && at.Some? && at.value.offset <= ITEM_LIMIT && isCurrent(index) && index < PAGE_LIMIT
    && server(index, at.value) == Some(page) && PageIsSound(request, Some(fingerprint), at.value.offset, page)
  }

  /** What comes after the accepted pages decides how the list ends. */
  ghost predicate EndsWith(outcome: Outcome, request: Request, server: Server, isCurrent: nat -> bool, fingerprint: Fingerprint,
                           index: nat, cursor: Option<Cursor>, items: seq<PackageId>, complete: bool, pages: seq<Page>) {
    var at, last, all := index + |pages|, CursorAt(cursor, pages, |pages|), items + AllItems(pages);
    match outcome
    case Complete(given, f, c) =>
      last.None? && given == all && f == fingerprint && (c <==> complete && forall p | p in pages :: p.catalogComplete)
    case Superseded => last.Some? && !isCurrent(at)
    case _ =>
      && last.Some? && isCurrent(at)
      && if at >= PAGE_LIMIT || last.value.offset > ITEM_LIMIT then outcome.LimitExceeded?
         else
           match server(at, last.value)
           case None => outcome.RequestFailed?
           case Some(page) =>
             if !PageIsSound(request, Some(fingerprint), last.value.offset, page) || !Distinct(all + page.items) then outcome.Stale?
             else outcome.LimitExceeded? && |all + page.items| > ITEM_LIMIT
  }

  lemma {:induction false} WalkEndsRightly(request: Request, server: Server, isCurrent: nat -> bool, fingerprint: Fingerprint, index: nat,
                                           cursor: Option<Cursor>, items: seq<PackageId>, complete: bool) returns (pages: seq<Page>)
    requires Distinct(items)
    ensures Accepted(request, server, isCurrent, fingerprint, index, cursor, items, pages)
    ensures EndsWith(Walk(request, server, isCurrent, fingerprint, index, cursor, items, complete), request, server, isCurrent,
                     fingerprint, index, cursor, items, complete, pages)
    decreases PAGE_LIMIT - index
  {
    if GoesOn(request, server, isCurrent, fingerprint, index, cursor, items) {
      hide Accepted, EndsWith, PageIsSound, Distinct;
      var page := server(index, cursor.value).value;
      var rest := WalkEndsRightly(request, server, isCurrent, fingerprint, index + 1, page.next, items + page.items,
                                  complete && page.catalogComplete);
      pages := [page] + rest;
      OneMorePage(request, server, isCurrent, fingerprint, index, cursor, items, complete, page, rest);
    } else {
      pages := [];
      EndsHere(request, server, isCurrent, fingerprint, index, cursor, items, complete);
    }
  }

  /** There is a further page, and it can be used. */
  ghost predicate GoesOn(request: Request, server: Server, isCurrent: nat -> bool, fingerprint: Fingerprint, index: nat,
                         cursor: Option<Cursor>, items: seq<PackageId>) {
    && cursor.Some? && isCurrent(index) && index < PAGE_LIMIT && cursor.value.offset <= ITEM_LIMIT
    && server(index, cursor.value).Some?
    && var page := server(index, cursor.value).value;
       PageIsSound(request, Some(fingerprint), cursor.value.offset, page) && Distinct(items + page.items)
       && |items| + |page.items| <= ITEM_LIMIT
  }

  lemma EndsHere(request: Request, server: Server, isCurrent: nat -> bool, fingerprint: Fingerprint, index: nat,
                 cursor: Option<Cursor>, items: seq<PackageId>, complete: bool)
    requires Distinct(items) && !GoesOn(request, server, isCurrent, fingerprint, index, cursor, items)
    ensures Accepted(request, server, isCurrent, fingerprint, index, cursor, items, [])
    ensures EndsWith(Walk(request, server, isCurrent, fingerprint, index, cursor, items, complete), request, server, isCurrent,
                     fingerprint, index, cursor, items, complete, [])
  {
    assert items + AllItems([]) == items;
    hide Distinct, PageIsSound;
  }

  lemma OneMorePage(request: Request, server: Server, isCurrent: nat -> bool, fingerprint: Fingerprint, index: nat,
                    cursor: Option<Cursor>, items: seq<PackageId>, complete: bool, page: Page, rest: seq<Page>)
    requires cursor.Some? && isCurrent(index) && index < PAGE_LIMIT && cursor.value.offset <= ITEM_LIMIT
    requires server(index, cursor.value) == Some(page) && PageIsSound(request, Some(fingerprint), cursor.value.offset, page)
    requires Accepted(request, server, isCurrent, fingerprint, index + 1, page.next, items + page.items, rest)
    requires rest == [] ==> |items + page.items| <= ITEM_LIMIT
    ensures Accepted(request, server, isCurrent, fingerprint, index, cursor, items, [page] + rest)
    ensures forall outcome ::
      EndsWith(outcome, request, server, isCurrent, fingerprint, index + 1, page.next, items + page.items, complete && page.catalogComplete, rest)
      ==> EndsWith(outcome, request, server, isCurrent, fingerprint, index, cursor, items, complete, [page] + rest)
  {
    hide *;
    AcceptedOneMore(request, server, isCurrent, fingerprint, index, cursor, items, page, rest);
    forall outcome | EndsWith(outcome, request, server, isCurrent, fingerprint, index + 1, page.next, items + page.items, complete && page.catalogComplete, rest)
      ensures EndsWith(outcome, request, server, isCurrent, fingerprint, index, cursor, items, complete, [page] + rest)
    {
      EndsOneLater(outcome, request, server, isCurrent, fingerprint, index, cursor, items, complete, page, rest);
    }
  }

  /** The same pages, seen from one page before. */
  lemma OneBefore(cursor: Option<Cursor>, items: seq<PackageId>, page: Page, rest: seq<Page>)
    ensures var pages := [page] + rest;
      && items + AllItems(pages) == (items + page.items) + AllItems(rest)
      && CursorAt(cursor, pages, |pages|) == CursorAt(page.next, rest, |rest|)
      && (forall j | 0 < j < |pages| :: pages[j] == rest[j - 1] && CursorAt(cursor, pages, j) == CursorAt(page.next, rest, j - 1))
      && (forall p :: p in pages <==> p == page || p in rest)
  {
    var pages := [page] + rest;
    assert pages[1..] == rest;
    assert AllItems(pages) == page.items + AllItems(rest);
    assert items + (page.items + AllItems(rest)) == (items + page.items) + AllItems(rest);
  }

  lemma AcceptedOneMore(request: Request, server: Server, isCurrent: nat -> bool, fingerprint: Fingerprint, index: nat,
                        cursor: Option<Cursor>, items: seq<PackageId>, page: Page, rest: seq<Page>)
    requires cursor.Some? && isCurrent(index) && index < PAGE_LIMIT && cursor.value.offset <= ITEM_LIMIT
    requires server(index, cursor.value) == Some(page) && PageIsSound(request, Some(fingerprint), cursor.value.offset, page)
    requires Accepted(request, server, isCurrent, fingerprint, index + 1, page.next, items + page.items, rest)
    requires rest == [] ==> |items + page.items| <= ITEM_LIMIT
    ensures Accepted(request, server, isCurrent, fingerprint, index, cursor, items, [page] + rest)
  {
    assert AcceptedAt(request, server, isCurrent, fingerprint, index, cursor, page);
    hide Distinct, AcceptedAt, AllItems, CursorAt;
    var pages := [page] + rest;
    OneBefore(cursor, items, page, rest);
    NoItems(items + page.items);
    forall j | 0 <= j < |pages|
      ensures AcceptedAt(request, server, isCurrent, fingerprint, index + j, CursorAt(cursor, pages, j), pages[j])
    {
      if j == 0 {
        FirstCursor(cursor, pages);
      } else {
        assert AcceptedAt(request, server, isCurrent, fingerprint, index + 1 + (j - 1), CursorAt(page.next, rest, j - 1), rest[j - 1]);
      }
    }
  }

  lemma NoItems(items: seq<PackageId>)
    ensures items + AllItems([]) == items
  {}

  lemma FirstCursor(cursor: Option<Cursor>, pages: seq<Page>)
    ensures CursorAt(cursor, pages, 0) == cursor
  {}

  lemma EndsOneLater(outcome: Outcome, request: Request, server: Server, isCurrent: nat -> bool, fingerprint: Fingerprint, index: nat,
                     cursor: Option<Cursor>, items: seq<PackageId>, complete: bool, page: Page, rest: seq<Page>)
    requires EndsWith(outcome, request, server, isCurrent, fingerprint, index + 1, page.next, items + page.items,
                      complete && page.catalogComplete, rest)
    ensures EndsWith(outcome, request, server, isCurrent, fingerprint, index, cursor, items, complete, [page] + rest)
  {
    hide Distinct, PageIsSound, AllItems, CursorAt;
    OneBefore(cursor, items, page, rest);
  }

  /** However the list ends, the first thing that keeps it from going on is why: the caller is superseded before it asks
      again, a limit is reached, a request fails, or a page does not belong to the others. Up to there every page was asked
      for by a current caller, and could be used. */
  lemma SummaryEndsRightly(request: Request, server: Server, isCurrent: nat -> bool, first: Page) returns (pages: seq<Page>)
    ensures var outcome := Summary(request, server, isCurrent, first);
      if Distinct(first.items) then
        && Accepted(request, server, isCurrent, first.fingerprint, 1, first.next, first.items, pages)
        && EndsWith(outcome, request, server, isCurrent, first.fingerprint, 1, first.next, first.items, first.catalogComplete, pages)
      else outcome.Stale?
  {
    pages := [];
    if Distinct(first.items) {
      pages := WalkEndsRightly(request, server, isCurrent, first.fingerprint, 1, first.next, first.items, first.catalogComplete);
    }
  }

  /** The page of a fixed list at an offset, 64 items at a time. */
  function PageOf(list: seq<PackageId>, request: Request, fingerprint: Fingerprint, offset: nat): Page
    requires offset <= |list|
  {
    var end := if offset + PAGE_SIZE < |list| then offset + PAGE_SIZE else |list|;
    Page(true, request.project, request.revision, fingerprint, list[offset..end], true,
         if end < |list| then Some(Cursor(end, fingerprint)) else None)
  }

  /** The server pages the list. */
  ghost predicate Pages(server: Server, list: seq<PackageId>, request: Request, fingerprint: Fingerprint) {
    forall k: nat, cursor: Cursor | cursor.offset <= |list| :: server(k, cursor) == Some(PageOf(list, request, fingerprint, cursor.offset))
  }

  lemma {:induction false} WalkIsExact(request: Request, server: Server, isCurrent: nat -> bool, list: seq<PackageId>,
                                       fingerprint: Fingerprint, index: nat)
    requires Pages(server, list, request, fingerprint) && Distinct(list) && forall k :: isCurrent(k)
    requires 1 <= index <= PAGE_LIMIT && PAGE_SIZE * index < |list| && PAGE_SIZE * index <= ITEM_LIMIT
    ensures Walk(request, server, isCurrent, fingerprint, index, Some(Cursor(PAGE_SIZE * index, fingerprint)), list[..PAGE_SIZE * index], true)
      == if |list| <= ITEM_LIMIT then Complete(list, fingerprint, true) else LimitExceeded
    decreases PAGE_LIMIT - index
  {
    var offset := PAGE_SIZE * index;
    var page := PageOf(list, request, fingerprint, offset);
    var end := offset + |page.items|;
    assert server(index, Cursor(offset, fingerprint)) == Some(page);
    assert list[..offset] + page.items == list[..end];
    assert list[..|list|] == list;
    if index < PAGE_LIMIT && end < |list| && end <= ITEM_LIMIT {
      assert end == PAGE_SIZE * (index + 1);
      WalkIsExact(request, server, isCurrent, list, fingerprint, index + 1);
    }
  }

  /** A fixed list of distinct packages, paged 64 at a time to a caller that stays current, is returned exactly,
      if and only if it is within the limit; the limit on pages never comes first. */
  lemma TraversalIsExact(request: Request, server: Server, isCurrent: nat -> bool, list: seq<PackageId>, fingerprint: Fingerprint)
    requires Pages(server, list, request, fingerprint) && Distinct(list) && forall k :: isCurrent(k)
    ensures Summary(request, server, isCurrent, PageOf(list, request, fingerprint, 0))
      == if |list| <= ITEM_LIMIT then Complete(list, fingerprint, true) else LimitExceeded
  {
    var first := PageOf(list, request, fingerprint, 0);
    if |list| <= PAGE_SIZE {
      assert first.items == list;
    } else {
      assert first.items == list[..PAGE_SIZE] && first.next == Some(Cursor(PAGE_SIZE * 1, fingerprint));
      WalkIsExact(request, server, isCurrent, list, fingerprint, 1);
    }
  }
}
