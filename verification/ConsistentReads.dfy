/** Reads that belong together: what a caller who joins a read under way may rely on, and loads of several
    pages that are only used when nothing they depend on changed while they were loaded. */
module ConsistentReads {
  import opened EventScopes
  import opened Wrappers
  import opened ReadCoordination

  // ---------------------------------------------------------------------------------------------
  // What a step leaves alone
  // ---------------------------------------------------------------------------------------------

  /** Only time may have passed. */
  ghost predicate Quiet(s: State, r: State) {
    && r.conn == s.conn
    && r.versions.categories == s.versions.categories && r.log.invalidations == s.log.invalidations
    && r.log.resolutions == s.log.resolutions && s.log.tick <= r.log.tick
    && r.ids.read == s.ids.read && SameReads(s, r)
  }

  /** No read that is unfinished still was made in between, or stands for anything else than before. */
  ghost predicate SameReads(s: State, r: State) {
    forall id | id in r.table.unfinished && id < s.ids.read ::
      id in s.table.unfinished && r.table.unfinished[id].key == s.table.unfinished[id].key
  }

  lemma CancelQuiet(s: State, id: ReadId)
    ensures Quiet(s, Clean(s, id)) && Quiet(s, Cancel(s, id))
  {}

  lemma EnqueueQuiet(s: State, id: ReadId, retry: bool, now: int)
    ensures Quiet(s, Enqueue(s, id, retry, now))
  {
    CancelQuiet(s, id);
    hide Cancel, Clean;
  }

  lemma StartQuiet(s: State, id: ReadId, now: int)
    ensures Quiet(s, Start(s, id, now))
  {
    CancelQuiet(s, id);
    hide Cancel, Clean;
  }

  lemma {:induction false} PromoteAllQuiet(s: State, ids: seq<ReadId>, now: int)
    ensures Quiet(s, PromoteAll(s, ids, now))
    decreases |ids|
  {
    if ids != [] {
      EnqueueQuiet(TakeDelayed(s, ids[0]), ids[0], true, now);
      hide Enqueue;
      PromoteAllQuiet(Enqueue(TakeDelayed(s, ids[0]), ids[0], true, now), ids[1..], now);
      PromoteAllQuiet(s, ids[1..], now);
    }
  }

  lemma {:induction false} StartAllQuiet(s: State, now: int)
    ensures Quiet(s, StartAll(s, now))
    decreases |s.queues.waiting|
  {
    var next := NextToStart(s);
    if next.Some? {
      var id := s.queues.waiting[next.value];
      StartQuiet(TakeQueued(s, next.value), id, now);
      StartAllQuiet(Start(TakeQueued(s, next.value), id, now), now);
      hide Start, StartAll;
    }
  }

  lemma PumpQuiet(s: State, now: int)
    ensures Quiet(s, Pump(s, now))
  {
    hide PromoteAll, StartAll;
    PromoteAllQuiet(s, s.queues.delayed, now);
    StartAllQuiet(PromoteAll(s, s.queues.delayed, now), now);
  }

  lemma {:induction false} CancelAllQuiet(s: State, ids: seq<ReadId>)
    ensures Quiet(s, CancelAll(s, ids))
    decreases |ids|
  {
    if ids != [] {
      CancelQuiet(s, ids[0]);
      hide Cancel, Clean;
      CancelAllQuiet(Cancel(s, ids[0]), ids[1..]);
    }
  }

  lemma {:induction false} CancelBeforeQuiet(s: State, k: nat)
    ensures Quiet(s, CancelBefore(s, k))
  {
    if k != 0 {
      CancelBeforeQuiet(s, k - 1);
      CancelQuiet(CancelBefore(s, k - 1), k - 1);
      hide Cancel, Clean;
    }
  }

  // ---------------------------------------------------------------------------------------------
  // What a step adds
  // ---------------------------------------------------------------------------------------------

  /** The category whose version an invalidation moves on. */
  function Category(scope: Scope): Scope { if scope.OperationOf? then OperationProgress else scope }

  /** How often a category was invalidated up to a moment. */
  ghost function VersionAt(invalidations: seq<Invalidation>, category: Scope, tick: nat): nat {
    if invalidations == [] then 0
    else
      var last := invalidations[|invalidations| - 1];
      VersionAt(invalidations[..|invalidations| - 1], category, tick)
        + if Category(last.scope) == category && last.tick <= tick then 1 else 0
  }

  /** Every category moved on just when it was invalidated, and nothing was taken back. */
  ghost predicate VersionsGrew(categories: map<Scope, nat>, invalidations: seq<Invalidation>,
                               categories': map<Scope, nat>, invalidations': seq<Invalidation>) {
    && invalidations <= invalidations'
    && (forall c :: CategoryVersion(categories, c) <= CategoryVersion(categories', c))
    && (forall i | |invalidations| <= i < |invalidations'| ::
          var c := Category(invalidations'[i].scope); CategoryVersion(categories, c) < CategoryVersion(categories', c))
    && (forall c | CategoryVersion(categories, c) < CategoryVersion(categories', c) ::
          exists i | |invalidations| <= i < |invalidations'| :: Category(invalidations'[i].scope) == c)
  }

  /** Whatever was added happened in between. */
  ghost predicate LogGrew(log: Log, log': Log) {
    && log.tick <= log'.tick && log.invalidations <= log'.invalidations && log.resolutions <= log'.resolutions
    && (forall i | |log.invalidations| <= i < |log'.invalidations| :: log.tick < log'.invalidations[i].tick <= log'.tick)
    && (forall i | |log.resolutions| <= i < |log'.resolutions| :: log.tick <= log'.resolutions[i].tick <= log'.tick)
  }

  /** No read still unfinished, or resolved in between, stands for anything else than before. */
  ghost predicate ReadsGrew(s: State, r: State) {
    && s.ids.read <= r.ids.read && SameReads(s, r) && s.log.resolutions <= r.log.resolutions
    && forall i | |s.log.resolutions| <= i < |r.log.resolutions| ::
      var entry := r.log.resolutions[i];
      entry.read < s.ids.read ==> entry.read in s.table.unfinished && s.table.unfinished[entry.read].key == entry.key
  }

  /** What happened between two states of a run. */
  ghost predicate Grew(s: State, r: State) {
    && s.conn.generation <= r.conn.generation
    && VersionsGrew(s.versions.categories, s.log.invalidations, r.versions.categories, r.log.invalidations)
    && LogGrew(s.log, r.log)
    && ReadsGrew(s, r)
  }

  lemma QuietGrew(s: State, r: State)
    requires r.conn.generation >= s.conn.generation && Quiet(s.(conn := r.conn), r)
    ensures Grew(s, r)
  {}

  lemma VersionsGrewTrans(c0: map<Scope, nat>, i0: seq<Invalidation>, c1: map<Scope, nat>, i1: seq<Invalidation>,
                          c2: map<Scope, nat>, i2: seq<Invalidation>)
    requires VersionsGrew(c0, i0, c1, i1) && VersionsGrew(c1, i1, c2, i2)
    ensures VersionsGrew(c0, i0, c2, i2)
  {
    forall i | |i0| <= i < |i2|
      ensures CategoryVersion(c0, Category(i2[i].scope)) < CategoryVersion(c2, Category(i2[i].scope))
    {
      var c := Category(i2[i].scope);
      if i < |i1| {
        assert i1[i] == i2[i];
        assert CategoryVersion(c0, c) < CategoryVersion(c1, c);
      }
      assert CategoryVersion(c1, c) <= CategoryVersion(c2, c);
    }
    forall c | CategoryVersion(c0, c) < CategoryVersion(c2, c)
      ensures exists i | |i0| <= i < |i2| :: Category(i2[i].scope) == c
    {
      if CategoryVersion(c0, c) < CategoryVersion(c1, c) {
        var i :| |i0| <= i < |i1| && Category(i1[i].scope) == c;
        assert Category(i2[i].scope) == c;
      }
    }
  }

  lemma GrewTrans(s: State, t: State, r: State)
    requires Grew(s, t) && Grew(t, r)
    ensures Grew(s, r)
  {
    VersionsGrewTrans(s.versions.categories, s.log.invalidations, t.versions.categories, t.log.invalidations,
                      r.versions.categories, r.log.invalidations);
    hide VersionsGrew;
  }

  lemma InvalidateGrew(s: State, scope: Scope)
    ensures Grew(s, Invalidate(s, scope))
  {
    var r := Invalidate(s, scope);
    assert Category(r.log.invalidations[|s.log.invalidations|].scope) == Category(scope);
  }

  lemma AnswerGrew(s: State, c: CallId, reply: Reply)
    ensures Grew(s, Answer(s, c, reply))
  {
    hide Judge;
  }

  lemma ReadGrew(s: State, rpc: Rpc, args: seq<string>, now: int)
    ensures Grew(s, ReadStep(s, rpc, args, now))
  {
    hide Pump, Enqueue;
    var key := KeyFor(s, rpc, args);
    var n := if s.conn.active && s.conn.ready && rpc.SettingsGet? then s.(ids := s.ids.(settings := s.ids.settings + 1)) else s;
    EnqueueQuiet(Create(n, key), s.ids.read, false, now);
    PumpQuiet(Enqueue(Create(n, key), s.ids.read, false, now), now);
  }

  lemma QuietTrans(s: State, t: State, r: State)
    requires Quiet(s, t) && Quiet(t, r)
    ensures Quiet(s, r)
  {}

  lemma ResumeQuiet(s: State, id: ReadId, superseded: bool, now: int)
    ensures Quiet(s, Resume(s, id, superseded, now))
  {
    EnqueueQuiet(s, id, true, now);
    CancelQuiet(s, id);
    hide Enqueue, Cancel, Clean;
  }

  lemma EndCallQuiet(s: State, c: CallId)
    requires c in s.flight.calls
    ensures Quiet(s, EndCall(s, c))
  {}

  lemma FinishGrew(s: State, c: CallId, now: int)
    ensures Grew(s, Finish(s, c, now))
  {
    hide Pump, Resume, EndCall, Quiet, Grew;
    if c in s.flight.calls && s.flight.calls[c].superseded.Some? {
      var id, superseded := s.flight.calls[c].read, s.flight.calls[c].superseded.value;
      var t := Resume(EndCall(s, c), id, superseded, now);
      EndCallQuiet(s, c);
      ResumeQuiet(EndCall(s, c), id, superseded, now);
      QuietTrans(s, EndCall(s, c), t);
      PumpQuiet(t, now);
      QuietTrans(s, t, Pump(t, now));
      QuietMeansGrew(s, Pump(t, now));
    } else {
      QuietGrew(s, s);
    }
  }

  lemma QuietMeansGrew(s: State, r: State)
    requires Quiet(s, r)
    ensures Grew(s, r)
  {
    QuietGrew(s, r);
  }

  lemma WakeGrew(s: State, id: ReadId, now: int)
    ensures Grew(s, Wake(s, id, now))
  {
    hide Pump, Enqueue;
    EnqueueQuiet(TakeDelayed(s, id), id, true, now);
    PumpQuiet(Enqueue(TakeDelayed(s, id), id, true, now), now);
  }

  lemma DisconnectGrew(s: State, conn: Connection)
    requires s.conn.generation <= conn.generation
    ensures Grew(s, CancelEverything(s.(conn := conn)))
  {
    var t := s.(conn := conn);
    hide CancelAll, CancelBefore;
    CancelAllQuiet(t, t.queues.waiting);
    CancelBeforeQuiet(CancelAll(t, t.queues.waiting), t.ids.read);
    QuietGrew(s, CancelEverything(t));
  }

  lemma StepGrew(s: State, a: Action)
    ensures Grew(s, Step(s, a))
  {
    hide Grew, Invalidate, Answer, ReadStep, Finish, Wake, CancelEverything, Pump;
    match a
    case ReadCalled(rpc, args, now) => ReadGrew(s, rpc, args, now);
    case Invalidated(scope) => InvalidateGrew(s, scope);
    case Pumped(now) => PumpQuiet(s, now); QuietGrew(s, Pump(s, now));
    case Answered(c, reply) => AnswerGrew(s, c, reply);
    case Finished(c, now) => FinishGrew(s, c, now);
    case TimerFired(id, now) => WakeGrew(s, id, now);
    case Failed => DisconnectGrew(s, s.conn.(ready := false, generation := s.conn.generation + 1));
    case Stopped => DisconnectGrew(s, Connection(false, false, s.conn.generation + 1)); QuietGrew(s, s);
    case _ => QuietGrew(s, Step(s, a));
  }

  lemma {:induction false} RunGrew(s: State, actions: seq<Action>)
    ensures Grew(s, Run(s, actions))
  {
    hide Grew, Step;
    if actions == [] {
      QuietGrew(s, s);
    } else {
      RunGrew(s, actions[..|actions| - 1]);
      StepGrew(Run(s, actions[..|actions| - 1]), actions[|actions| - 1]);
      GrewTrans(s, Run(s, actions[..|actions| - 1]), Run(s, actions));
    }
  }

  lemma {:induction false} RunSplit(s: State, before: seq<Action>, after: seq<Action>)
    ensures Run(s, before + after) == Run(Run(s, before), after)
  {
    hide Step;
    if after == [] {
      assert before + after == before;
    } else {
      RunSplit(s, before, after[..|after| - 1]);
      assert (before + after)[..|before + after| - 1] == before + after[..|after| - 1];
    }
  }

  // ---------------------------------------------------------------------------------------------
  // Joining a read under way
  // ---------------------------------------------------------------------------------------------

  /** A caller who joins a read that is not answered yet is served as if it had asked itself: whatever
      happens later, the value it gets was asked for after everything it had been told before it joined. */
  lemma {:induction false} JoinedReadIsFresh(before: seq<Action>, after: seq<Action>, rpc: Rpc, args: seq<string>, id: ReadId)
      returns (entry: Resolution)
    requires Admit(Run(INITIAL, before), rpc, args) == Joined(id) && id !in Run(INITIAL, before).log.outcomes
    requires id in Run(INITIAL, before + after).log.outcomes && Run(INITIAL, before + after).log.outcomes[id].Resolved?
    ensures entry in Run(INITIAL, before + after).log.resolutions && entry.read == id
    ensures entry.key.rpc == rpc && entry.key.args == args
    ensures forall i | i in Run(INITIAL, before).log.invalidations && i.scope in Tracked(entry.key) ::
      i.tick < entry.startTick
  {
    entry := ReadsAreFresh(before + after, id);
    var s, r := Run(INITIAL, before), Run(INITIAL, before + after);
    RunKeeps(before);
    RunSplit(INITIAL, before, after);
    RunGrew(s, after);
    NotYetLogged(s, id);
    var k :| 0 <= k < |r.log.resolutions| && r.log.resolutions[k] == entry;
    assert forall j | 0 <= j < |s.log.resolutions| :: r.log.resolutions[j] == s.log.resolutions[j];
    assert s.log.tick <= entry.tick;
    JoinedKey(s, rpc, args, id);
    forall i | i in s.log.invalidations && i.scope in Tracked(entry.key)
      ensures i.tick < entry.startTick
    {
      TicksPassed(s, i);
    }
  }

  /** A caller who joins a read that was answered already is served as if it had asked itself if and only if
      nothing the read tracks was invalidated since the answer. */
  lemma {:induction false} JoinedAnswerIsFreshWhen(before: seq<Action>, rpc: Rpc, args: seq<string>, k: nat)
    requires k < |Run(INITIAL, before).log.resolutions|
    requires Admit(Run(INITIAL, before), rpc, args) == Joined(Run(INITIAL, before).log.resolutions[k].read)
    ensures var log := Run(INITIAL, before).log; var entry := log.resolutions[k];
      (forall i | i in log.invalidations && i.scope in Tracked(entry.key) :: i.tick < entry.startTick)
      <==> (forall i | i in log.invalidations && i.scope in Tracked(entry.key) :: i.tick <= entry.tick)
  {
    RunKeeps(before);
    LoggedIsFresh(Run(INITIAL, before), k);
  }

  lemma NotYetLogged(s: State, id: ReadId)
    requires Inv(s) && id !in s.log.outcomes
    ensures forall k | 0 <= k < |s.log.resolutions| :: s.log.resolutions[k].read != id
  {
    hide PlacesOk, KeysOk, CountsOk, IdsOk, HoldersOk, FreshOk, OutcomesOk;
  }

  lemma TicksPassed(s: State, i: Invalidation)
    requires Inv(s) && i in s.log.invalidations
    ensures i.tick <= s.log.tick
  {
    hide PlacesOk, KeysOk, CountsOk, IdsOk, HoldersOk, FreshOk, OutcomesOk;
  }

  lemma JoinedKey(s: State, rpc: Rpc, args: seq<string>, id: ReadId)
    requires Inv(s) && Admit(s, rpc, args) == Joined(id)
    ensures id in s.table.unfinished && id < s.ids.read
    ensures s.table.unfinished[id].key.rpc == rpc && s.table.unfinished[id].key.args == args
  {
    hide PlacesOk, CountsOk, HoldersOk, FreshOk, OutcomesOk, LogOk;
  }

  const PAGE: seq<string> := ["page"]
  const PAGE_KEY := Key(0, ProjectsList, PAGE, 0)
  const PAGE_RESOLUTION := Resolution(0, PAGE_KEY, 1, 1, 0)
  const OPEN := INITIAL.(conn := Connection(true, true, 0))
  const ASKED := Asked(PAGE_KEY)
  const ANSWERED := ASKED.(flight := Flight(map[0 := Call(0, false, [0], 1, Some(false))], 1, 1),
                           log := Log(map[0 := Resolved("old")], [PAGE_RESOLUTION], [], 1))
  const TOLD := ANSWERED.(versions := Versions(map[Projects := 1], map[], map[]),
                          log := Log(map[0 := Resolved("old")], [PAGE_RESOLUTION], [Invalidation(2, Projects)], 2))

  /** The only read there is, when its request is under way. */
  function Asked(key: Key): State {
    OPEN.(table := Table(map[key := 0], map[0 := Read(key, Some(0), InFlight(0), None)]), ids := Ids(1, 1, 0, 0),
          flight := Flight(map[0 := Call(0, false, [0], 1, None)], 1, 1), log := Log(map[], [], [], 1))
  }

  /** A method whose answers depend on one category. */
  predicate HasOneScope(rpc: Rpc) { |Scopes(rpc)| == 1 && !rpc.OperationGet? }

  function Waiting(key: Key): State {
    OPEN.(table := Table(map[key := 0], map[0 := Read(key, None, Queued, None)]), ids := Ids(1, 0, 0, 0), queues := Queues([0], []))
  }

  lemma OneWaits(key: Key)
    requires HasOneScope(key.rpc) && key.generation == 0
    ensures Enqueue(Create(OPEN, key), 0, false, 0) == Waiting(key)
  {}

  lemma OneStarts(key: Key)
    requires HasOneScope(key.rpc) && key.generation == 0
    ensures Pump(Waiting(key), 0) == Asked(key)
  {
    var q := Waiting(key);
    assert PromoteAll(q, [], 0) == q;
    assert NextToStart(q) == Some(0);
    var t := TakeQueued(q, 0);
    assert t.queues.waiting == [];
    assert Version(t.versions.categories, t.versions.objects, t.table.unfinished[0]) == [0];
    assert Start(t, 0, 0) == Asked(key);
    assert StartAll(q, 0) == StartAll(Asked(key), 0) == Asked(key);
  }

  lemma OneIsAsked(rpc: Rpc, args: seq<string>)
    requires HasOneScope(rpc)
    ensures ReadStep(OPEN, rpc, args, 0) == Asked(Key(0, rpc, args, 0))
  {
    hide Enqueue, Create, Pump, Scopes, Admit, KeyFor, HasOneScope;
    OneIsAdmitted(rpc, args);
    OneWaits(Key(0, rpc, args, 0));
    OneStarts(Key(0, rpc, args, 0));
  }

  lemma OneIsAdmitted(rpc: Rpc, args: seq<string>)
    requires HasOneScope(rpc)
    ensures !rpc.SettingsGet? && Admit(OPEN, rpc, args) == Created(0) && KeyFor(OPEN, rpc, args) == Key(0, rpc, args, 0)
  {}

  lemma PageAnswered()
    ensures Answer(ASKED, 0, Value("", "old")) == ANSWERED
  {
    assert Version(ASKED.versions.categories, ASKED.versions.objects, ASKED.table.unfinished[0]) == [0];
  }

  /** A read that has been answered can still be joined until its request is over, and then a caller who was
      told of a change before it joined gets a value asked for before that change. */
  lemma JoinedAnswerCanBeStale()
    ensures var s := Run(INITIAL, [Started, BecameReady, ReadCalled(ProjectsList, PAGE, 0),
                                   Answered(0, Value("", "old")), Invalidated(Projects)]);
      && Admit(s, ProjectsList, PAGE) == Joined(0) && s.log.outcomes == map[0 := Resolved("old")]
      && s.log.resolutions == [PAGE_RESOLUTION]
      && exists i | i in s.log.invalidations :: i.scope in Tracked(PAGE_KEY) && PAGE_RESOLUTION.startTick < i.tick
  {
    PageTold();
    ToldIsStale(TOLD);
  }

  lemma ToldIsStale(s: State)
    requires s == TOLD
    ensures Admit(s, ProjectsList, PAGE) == Joined(0)
    ensures exists i | i in s.log.invalidations :: i.scope in Tracked(PAGE_KEY) && PAGE_RESOLUTION.startTick < i.tick
  {
    assert Tracked(PAGE_KEY)[0] == Projects && s.log.invalidations[0] == Invalidation(2, Projects);
  }

  lemma PageTold()
    ensures Run(INITIAL, [Started, BecameReady, ReadCalled(ProjectsList, PAGE, 0),
                          Answered(0, Value("", "old")), Invalidated(Projects)]) == TOLD
  {
    var asked, answered := ReadCalled(ProjectsList, PAGE, 0), Answered(0, Value("", "old"));
    hide Run, Step, ReadStep, Answer, Invalidate;
    RunFive(INITIAL, Started, BecameReady, asked, answered, Invalidated(Projects));
    assert Step(Step(INITIAL, Started), BecameReady) == OPEN by { PageOpened(); }
    assert Step(OPEN, asked) == ASKED by { OneIsAsked(ProjectsList, PAGE); AskedStep(OPEN); }
    assert Step(ASKED, answered) == ANSWERED by { PageAnswered(); AnsweredStep(ASKED); }
    assert Step(ANSWERED, Invalidated(Projects)) == TOLD by { PageInvalidated(); }
  }

  lemma PageOpened()
    ensures Step(Step(INITIAL, Started), BecameReady) == OPEN
  {}

  lemma PageInvalidated()
    ensures Step(ANSWERED, Invalidated(Projects)) == TOLD
  {}

  lemma AskedStep(s: State)
    ensures Step(s, ReadCalled(ProjectsList, PAGE, 0)) == ReadStep(s, ProjectsList, PAGE, 0)
  {
    hide ReadStep;
  }

  lemma AnsweredStep(s: State)
    ensures Step(s, Answered(0, Value("", "old"))) == Answer(s, 0, Value("", "old"))
  {
    hide Answer;
  }

  lemma RunFive(s: State, a: Action, b: Action, c: Action, d: Action, e: Action)
    ensures Run(s, [a, b, c, d, e]) == Step(Step(Step(Step(Step(s, a), b), c), d), e)
  {
    hide Step;
    assert [a, b, c, d, e][..4] == [a, b, c, d] && [a, b, c, d][..3] == [a, b, c] && [a, b, c][..2] == [a, b] && [a, b][..1] == [a];
    assert [a][..0] == [];
    assert Run(s, [a]) == Step(s, a);
    assert Run(s, [a, b, c]) == Step(Run(s, [a, b]), c);
  }

  // ---------------------------------------------------------------------------------------------
  // What a value is of
  // ---------------------------------------------------------------------------------------------

  /** A read still unfinished that was resolved was resolved with a value of what it asks for. */
  ghost predicate KeysAgree(s: State) {
    forall i | 0 <= i < |s.log.resolutions| ::
      s.log.resolutions[i].read < s.ids.read && (s.log.resolutions[i].read in s.table.unfinished ==>
        s.table.unfinished[s.log.resolutions[i].read].key == s.log.resolutions[i].key)
  }

  /** Only answers resolve. */
  lemma OthersResolveNothing(s: State, a: Action)
    requires !a.Answered?
    ensures Step(s, a).log.resolutions == s.log.resolutions
  {
    hide Pump, Enqueue, EndCall, Resume, CancelAll, CancelBefore;
    match a
    case ReadCalled(rpc, args, now) =>
      var n := if s.conn.active && s.conn.ready && rpc.SettingsGet? then s.(ids := s.ids.(settings := s.ids.settings + 1)) else s;
      var created := Create(n, KeyFor(s, rpc, args));
      EnqueueQuiet(created, s.ids.read, false, now);
      PumpQuiet(Enqueue(created, s.ids.read, false, now), now);
    case Pumped(now) => PumpQuiet(s, now);
    case Finished(c, now) =>
      if c in s.flight.calls && s.flight.calls[c].superseded.Some? {
        var call := s.flight.calls[c];
        EndCallQuiet(s, c);
        ResumeQuiet(EndCall(s, c), call.read, call.superseded.value, now);
        PumpQuiet(Resume(EndCall(s, c), call.read, call.superseded.value, now), now);
      }
    case TimerFired(id, now) =>
      EnqueueQuiet(TakeDelayed(s, id), id, true, now);
      PumpQuiet(Enqueue(TakeDelayed(s, id), id, true, now), now);
    case Failed => CancelledResolvesNothing(s.(conn := s.conn.(ready := false, generation := s.conn.generation + 1)));
    case Stopped => CancelledResolvesNothing(s.(conn := Connection(false, false, s.conn.generation + 1)));
    case _ =>
  }

  lemma CancelledResolvesNothing(t: State)
    ensures CancelEverything(t).log.resolutions == t.log.resolutions
  {
    hide CancelAll, CancelBefore;
    CancelAllQuiet(t, t.queues.waiting);
    CancelBeforeQuiet(CancelAll(t, t.queues.waiting), t.ids.read);
  }

  lemma AnswerAgrees(s: State, c: CallId, reply: Reply)
    requires Inv(s) && KeysAgree(s)
    ensures KeysAgree(Answer(s, c, reply))
  {
    hide Judge, PlacesOk, KeysOk, CountsOk, HoldersOk, FreshOk, OutcomesOk, LogOk;
  }

  lemma StepAgrees(s: State, a: Action)
    requires Inv(s) && KeysAgree(s)
    ensures KeysAgree(Step(s, a))
  {
    if a.Answered? {
      AnswerAgrees(s, a.call, a.reply);
      hide *;
      assert Step(s, a) == Answer(s, a.call, a.reply) by { AnsweredIs(s, a.call, a.reply); }
    } else {
      StepGrew(s, a);
      OthersResolveNothing(s, a);
      hide Step, Inv, VersionsGrew, LogGrew;
    }
  }

  lemma AnsweredIs(s: State, c: CallId, reply: Reply)
    ensures Step(s, Answered(c, reply)) == Answer(s, c, reply)
  {
    hide Answer;
  }

  lemma {:induction false} RunAgrees(s: State, actions: seq<Action>)
    requires Inv(s) && KeysAgree(s)
    ensures Inv(Run(s, actions)) && KeysAgree(Run(s, actions))
  {
    hide Inv, Step, KeysAgree;
    if actions != [] {
      RunAgrees(s, actions[..|actions| - 1]);
      StepAgrees(Run(s, actions[..|actions| - 1]), actions[|actions| - 1]);
      StepKeeps(Run(s, actions[..|actions| - 1]), actions[|actions| - 1]);
    }
  }

  /** A read that was just asked for stands for what was asked. */
  lemma AskedKey(s: State, rpc: Rpc, args: seq<string>, now: int)
    requires Inv(s) && IsRead(Admit(s, rpc, args))
    ensures var id, t := Admit(s, rpc, args).read, ReadStep(s, rpc, args, now);
      && id < t.ids.read && (id in t.table.unfinished ==> t.table.unfinished[id].key.rpc == rpc && t.table.unfinished[id].key.args == args)
      && (if Admit(s, rpc, args).Joined? then id in t.table.unfinished else id == s.ids.read)
  {
    hide Inv, Pump, Enqueue;
    if Admit(s, rpc, args).Joined? {
      JoinedKey(s, rpc, args, Admit(s, rpc, args).read);
    } else {
      var n := if rpc.SettingsGet? then s.(ids := s.ids.(settings := s.ids.settings + 1)) else s;
      var created := Create(n, KeyFor(s, rpc, args));
      EnqueueQuiet(created, s.ids.read, false, now);
      PumpQuiet(Enqueue(created, s.ids.read, false, now), now);
    }
  }

  lemma {:induction false} ValueIsOf(s: State, rpc: Rpc, args: seq<string>, now: int, after: seq<Action>, k: nat)
    requires Inv(s) && KeysAgree(s) && IsRead(Admit(s, rpc, args))
    requires var r := Run(Step(s, ReadCalled(rpc, args, now)), after);
      k < |r.log.resolutions| && r.log.resolutions[k].read == Admit(s, rpc, args).read
    ensures var r := Run(Step(s, ReadCalled(rpc, args, now)), after);
      r.log.resolutions[k].key.rpc == rpc && r.log.resolutions[k].key.args == args
  {
    var asks := ReadCalled(rpc, args, now);
    var t := Step(s, asks);
    assert t == ReadStep(s, rpc, args, now) by {
      hide ReadStep;
    }
    AskedKey(s, rpc, args, now);
    OthersResolveNothing(s, asks);
    StepAgrees(s, asks);
    RunGrew(t, after);
    hide Run, Step, ReadStep, Inv, Admit, VersionsGrew, LogGrew;
    var r := Run(t, after);
    if k < |t.log.resolutions| {
      assert r.log.resolutions[k] == t.log.resolutions[k] == s.log.resolutions[k];
    }
  }

  /** Over every run, whoever joins or creates a read, and is given a value, is given a value of what it asked for. */
  lemma {:induction false} ValueIsOfWhatWasAsked(before: seq<Action>, rpc: Rpc, args: seq<string>, now: int, after: seq<Action>, k: nat)
    requires var s := Run(INITIAL, before); var r := Run(Step(s, ReadCalled(rpc, args, now)), after);
      && IsRead(Admit(s, rpc, args))
      && k < |r.log.resolutions| && r.log.resolutions[k].read == Admit(s, rpc, args).read
    ensures var r := Run(Step(Run(INITIAL, before), ReadCalled(rpc, args, now)), after);
      r.log.resolutions[k].key.rpc == rpc && r.log.resolutions[k].key.args == args
  {
    RunKeeps([]);
    RunAgrees(INITIAL, before);
    hide Run, Step, Inv, Admit;
    ValueIsOf(Run(INITIAL, before), rpc, args, now, after, k);
  }

  // ---------------------------------------------------------------------------------------------
  // Loads that are only used when nothing changed meanwhile
  // ---------------------------------------------------------------------------------------------

  /** The connection stays the same one throughout, and none of the categories is invalidated. */
  ghost predicate Undisturbed(s: State, actions: seq<Action>, scopes: seq<Scope>) {
    && (forall n | 0 <= n <= |actions| :: Run(s, actions[..n]).conn.generation == s.conn.generation)
    && forall i | |s.log.invalidations| <= i < |Run(s, actions).log.invalidations| ::
      Category(Run(s, actions).log.invalidations[i].scope) !in scopes
  }

  /** What is compared before and after a load. */
  predicate SameVersions(s: State, r: State, scopes: seq<Scope>) {
    && s.conn.generation == r.conn.generation
    && forall c | c in scopes :: CategoryVersion(s.versions.categories, c) == CategoryVersion(r.versions.categories, c)
  }

  /** Comparing the versions before and after tells exactly whether anything happened in between. */
  lemma {:induction false} ComparisonIsExact(s: State, actions: seq<Action>, scopes: seq<Scope>)
    ensures SameVersions(s, Run(s, actions), scopes) <==> Undisturbed(s, actions, scopes)
  {
    var r := Run(s, actions);
    hide Run, Grew;
    assert actions[..|actions|] == actions;
    RunGrew(s, actions);
    VersionsTell(s, r, scopes);
    forall n | 0 <= n <= |actions|
      ensures s.conn.generation <= Run(s, actions[..n]).conn.generation <= r.conn.generation
    {
      GenerationsInOrder(s, actions, n);
    }
  }

  lemma GenerationsInOrder(s: State, actions: seq<Action>, n: nat)
    requires n <= |actions|
    ensures s.conn.generation <= Run(s, actions[..n]).conn.generation <= Run(s, actions).conn.generation
  {
    hide Run;
    RunGrew(s, actions[..n]);
    assert actions[..n] + actions[n..] == actions;
    RunSplit(s, actions[..n], actions[n..]);
    RunGrew(Run(s, actions[..n]), actions[n..]);
  }

  lemma VersionsTell(s: State, r: State, scopes: seq<Scope>)
    requires Grew(s, r)
    ensures (forall c | c in scopes :: CategoryVersion(s.versions.categories, c) == CategoryVersion(r.versions.categories, c))
      <==> forall i | |s.log.invalidations| <= i < |r.log.invalidations| :: Category(r.log.invalidations[i].scope) !in scopes
  {
    hide LogGrew, ReadsGrew;
  }

  /** The version at a later moment is the same if, and only if, the category was not invalidated in between. */
  lemma {:induction false} VersionMoves(invalidations: seq<Invalidation>, category: Scope, t: nat, u: nat)
    requires t <= u
    ensures VersionAt(invalidations, category, t) <= VersionAt(invalidations, category, u)
    ensures VersionAt(invalidations, category, t) == VersionAt(invalidations, category, u)
      <==> forall i | i in invalidations && Category(i.scope) == category :: i.tick <= t || u < i.tick
  {
    if invalidations != [] {
      var rest, last := invalidations[..|invalidations| - 1], invalidations[|invalidations| - 1];
      assert forall i :: i in invalidations <==> i in rest || i == last by {
        assert invalidations == rest + [last];
      }
      VersionMoves(rest, category, t, u);
    }
  }

  lemma LoggedIsFresh(s: State, k: nat)
    requires Inv(s) && k < |s.log.resolutions|
    ensures FreshResolution(s.log.resolutions[k], s.log.invalidations)
  {
    hide PlacesOk, KeysOk, CountsOk, IdsOk, HoldersOk, FreshOk, OutcomesOk;
  }

  lemma PlainCategory(key: Key, scope: Scope, category: Scope)
    requires !key.rpc.OperationGet? && category in Tracked(key) && Category(scope) == category
    ensures scope in Tracked(key)
  {}

  /** What happens while a load is under way: it asks for a page, or something else. */
  datatype Event = Asks(rpc: Rpc, args: seq<string>, now: int) | Meanwhile(action: Action)

  function ActionOf(e: Event): Action {
    match e
    case Asks(rpc, args, now) => ReadCalled(rpc, args, now)
    case Meanwhile(action) => action
  }

  function Actions(events: seq<Event>): seq<Action> {
    seq(|events|, i requires 0 <= i < |events| => ActionOf(events[i]))
  }

  /** How each page the load asks for is admitted, in order. */
  ghost function Admissions(s: State, events: seq<Event>): seq<Admission> {
    if events == [] then []
    else
      var before, last := events[..|events| - 1], events[|events| - 1];
      Admissions(s, before) + if last.Asks? then [Admit(Run(s, Actions(before)), last.rpc, last.args)] else []
  }

  /** What a page turned out to be: not there yet, its value, or refused. */
  datatype Page = Awaited | Page(payload: string) | Missing

  predicate IsRead(admission: Admission) { admission.Joined? || admission.Created? }

  function PageOf(outcomes: map<ReadId, Outcome>, admission: Admission): Page {
    if !IsRead(admission) then Missing
    else if admission.read !in outcomes then Awaited
    else
      match outcomes[admission.read]
      case Resolved(payload) => Page(payload)
      case Rejected => Missing
  }

  function PagesOf(outcomes: map<ReadId, Outcome>, admissions: seq<Admission>): seq<Page> {
    seq(|admissions|, i requires 0 <= i < |admissions| => PageOf(outcomes, admissions[i]))
  }

  /** The value behind a page has the version a category had when the load began if, and only if, the category was not
      invalidated between the answer with that value and that moment. */
  ghost predicate CurrentWhen(entry: Resolution, category: Scope, invalidations: seq<Invalidation>, began: nat) {
    VersionAt(invalidations, category, entry.startTick) == VersionAt(invalidations, category, began)
    <==> forall i | i in invalidations && Category(i.scope) == category :: i.tick <= entry.tick || began < i.tick
  }

  /** The one resolution a page came with, and its version for every category compared. */
  ghost predicate PageIsExplained(s: State, r: State, scopes: seq<Scope>, id: ReadId, k: nat) {
    && k < |r.log.resolutions| && r.log.resolutions[k].read == id
    && (forall j | 0 <= j < |r.log.resolutions| && r.log.resolutions[j].read == id :: j == k)
    && (|s.log.resolutions| <= k || id in s.log.outcomes)
    && var entry := r.log.resolutions[k];
       && (!entry.key.rpc.OperationGet? ==> forall category | category in scopes && category in Tracked(entry.key) ::
             CurrentWhen(entry, category, r.log.invalidations, s.log.tick))
       && (!entry.key.rpc.OperationGet? && |s.log.resolutions| <= k ==> forall category | category in scopes && category in Tracked(entry.key) ::
             VersionAt(r.log.invalidations, category, entry.startTick) == VersionAt(r.log.invalidations, category, s.log.tick))
  }

  lemma LogsOk(s: State)
    requires Inv(s)
    ensures LogOk(s.log.outcomes, s.log.resolutions, s.log.invalidations, s.flight.calls, s.log.tick)
  {
    hide PlacesOk, KeysOk, CountsOk, IdsOk, HoldersOk, FreshOk, OutcomesOk;
  }

  lemma {:induction false} RunFromKeeps(s: State, actions: seq<Action>)
    requires Inv(s)
    ensures Inv(Run(s, actions))
  {
    hide Inv, Step;
    if actions != [] {
      RunFromKeeps(s, actions[..|actions| - 1]);
      StepKeeps(Run(s, actions[..|actions| - 1]), actions[|actions| - 1]);
    }
  }

  /** Each page of an undisturbed load, joined or asked for anew: it is of the version the load began at, and so of the
      same version as the others, if and only if no category it tracks was invalidated between its answer and the
      begin of the load. A page that was answered during the load always is. */
  lemma {:induction false} PageHasVersionWhen(s: State, during: seq<Action>, scopes: seq<Scope>, id: ReadId) returns (k: nat)
    requires Inv(s) && Undisturbed(s, during, scopes)
    requires id in Run(s, during).log.outcomes && Run(s, during).log.outcomes[id].Resolved?
    ensures PageIsExplained(s, Run(s, during), scopes, id, k)
  {
    var r := Run(s, during);
    RunFromKeeps(s, during);
    RunGrew(s, during);
    LogsOk(s);
    LogsOk(r);
    k := EntryOf(s, r, id);
    var entry := r.log.resolutions[k];
    var late := |s.log.resolutions| <= k;
    forall category | !entry.key.rpc.OperationGet? && category in scopes && category in Tracked(entry.key)
      ensures CurrentWhen(entry, category, r.log.invalidations, s.log.tick)
      ensures late ==> VersionAt(r.log.invalidations, category, entry.startTick) == VersionAt(r.log.invalidations, category, s.log.tick)
    {
      QuietCategory(s, during, scopes, category);
      PageVersion(s, r, entry, late, category);
    }
  }

  lemma EntryOf(s: State, r: State, id: ReadId) returns (k: nat)
    requires LogOk(s.log.outcomes, s.log.resolutions, s.log.invalidations, s.flight.calls, s.log.tick)
    requires LogOk(r.log.outcomes, r.log.resolutions, r.log.invalidations, r.flight.calls, r.log.tick)
    requires Grew(s, r) && id in r.log.outcomes && r.log.outcomes[id].Resolved?
    ensures k < |r.log.resolutions| && r.log.resolutions[k].read == id
    ensures forall j | 0 <= j < |r.log.resolutions| && r.log.resolutions[j].read == id :: j == k
    ensures |s.log.resolutions| <= k || id in s.log.outcomes
    ensures FreshResolution(r.log.resolutions[k], r.log.invalidations)
    ensures if k < |s.log.resolutions| then r.log.resolutions[k].tick <= s.log.tick else s.log.tick <= r.log.resolutions[k].tick
  {
    hide FreshResolution, VersionsGrew;
    assert Logged(r.log.resolutions, id);
    k :| 0 <= k < |r.log.resolutions| && r.log.resolutions[k].read == id;
    if k < |s.log.resolutions| {
      assert r.log.resolutions[k] == s.log.resolutions[k];
    }
  }

  /** Nothing of the category happened since the load began. */
  lemma QuietCategory(s: State, during: seq<Action>, scopes: seq<Scope>, category: Scope)
    requires Undisturbed(s, during, scopes) && category in scopes && Grew(s, Run(s, during))
    requires LogOk(s.log.outcomes, s.log.resolutions, s.log.invalidations, s.flight.calls, s.log.tick)
    ensures forall i | i in Run(s, during).log.invalidations && Category(i.scope) == category :: i.tick <= s.log.tick
  {
    var r := Run(s, during);
    hide Run, VersionsGrew, ReadsGrew, FreshResolution;
    forall i | i in r.log.invalidations && Category(i.scope) == category
      ensures i.tick <= s.log.tick
    {
      var n :| 0 <= n < |r.log.invalidations| && r.log.invalidations[n] == i;
      assert n < |s.log.invalidations| && r.log.invalidations[n] == s.log.invalidations[n];
    }
  }

  lemma PageVersion(s: State, r: State, entry: Resolution, late: bool, category: Scope)
    requires FreshResolution(entry, r.log.invalidations) && !entry.key.rpc.OperationGet? && category in Tracked(entry.key)
    requires forall i | i in r.log.invalidations && Category(i.scope) == category :: i.tick <= s.log.tick
    requires if late then s.log.tick <= entry.tick else entry.tick <= s.log.tick
    ensures CurrentWhen(entry, category, r.log.invalidations, s.log.tick)
    ensures late ==> VersionAt(r.log.invalidations, category, entry.startTick) == VersionAt(r.log.invalidations, category, s.log.tick)
  {
    forall i | i in r.log.invalidations && Category(i.scope) == category
      ensures i.tick < entry.startTick || entry.tick < i.tick
    {
      PlainCategory(entry.key, i.scope, category);
      var n :| 0 <= n < |r.log.invalidations| && r.log.invalidations[n] == i;
    }
    if entry.startTick <= s.log.tick {
      VersionMoves(r.log.invalidations, category, entry.startTick, s.log.tick);
    } else {
      VersionMoves(r.log.invalidations, category, s.log.tick, entry.startTick);
    }
  }

  // The page of `TOLD` was answered, then the projects changed, and its request is not over yet.
  const LOAD: seq<Event> := [Asks(ProjectsList, PAGE, 0)]

  /** So a load that is undisturbed can be of an older version than the one it compared: it begins after the change,
      joins the answered read, and is given the page from before. */
  lemma UndisturbedLoadCanBeStale()
    ensures var s := Run(INITIAL, [Started, BecameReady, ReadCalled(ProjectsList, PAGE, 0),
                                   Answered(0, Value("", "old")), Invalidated(Projects)]);
      var r := Run(s, Actions(LOAD));
      && Undisturbed(s, Actions(LOAD), [Projects]) && PagesOf(r.log.outcomes, Admissions(s, LOAD)) == [Page("old")]
      && r.log.resolutions == [PAGE_RESOLUTION]
      && VersionAt(r.log.invalidations, Projects, PAGE_RESOLUTION.startTick) < VersionAt(r.log.invalidations, Projects, s.log.tick)
  {
    PageTold();
    ToldLoads();
    ToldVersions();
    hide *;
  }

  lemma ToldLoads()
    ensures Run(TOLD, Actions(LOAD)) == TOLD && Undisturbed(TOLD, Actions(LOAD), [Projects])
    ensures PagesOf(TOLD.log.outcomes, Admissions(TOLD, LOAD)) == [Page("old")] && TOLD.log.resolutions == [PAGE_RESOLUTION]
  {
    ToldIsStale(TOLD);
    var asks := ReadCalled(ProjectsList, PAGE, 0);
    assert Actions(LOAD) == [asks] && [asks][..0] == [] && [asks][..1] == [asks] && LOAD[..0] == [];
    AskedStep(TOLD);
    hide Step, Admit;
    assert Run(TOLD, []) == TOLD && Run(TOLD, [asks]) == Step(TOLD, asks) == TOLD;
    forall n | 0 <= n <= |[asks]|
      ensures Run(TOLD, [asks][..n]).conn.generation == TOLD.conn.generation
    {
      assert n == 0 || n == 1;
    }
    assert Admissions(TOLD, LOAD) == [] + [Joined(0)];
  }

  lemma ToldVersions()
    ensures VersionAt(TOLD.log.invalidations, Projects, PAGE_RESOLUTION.startTick) < VersionAt(TOLD.log.invalidations, Projects, TOLD.log.tick)
  {
    assert TOLD.log.invalidations[..0] == [];
  }

  /** One turn of a consistent read: what happens until it may load, what happens while it loads, and whether the load
      itself fails. `refused` is a connection that fails before it is ready. */
  datatype Attempt = Attempt(before: seq<Action>, refused: bool, during: seq<Event>, fails: bool)

  datatype Loaded = Consistent(pages: seq<Page>) | GivenUp | Unfinished

  ghost function StateBefore(s: State, attempts: seq<Attempt>, k: nat): State
    requires k <= |attempts|
  {
    if k == 0 then s
    else Run(Run(StateBefore(s, attempts, k - 1), attempts[k - 1].before), Actions(attempts[k - 1].during))
  }

  /** The state in which the load of turn `k` begins. */
  ghost function Loading(s: State, attempts: seq<Attempt>, k: nat): State
    requires k < |attempts|
  { Run(StateBefore(s, attempts, k), attempts[k].before) }

  /** The pages turn `k` has in the end. */
  ghost function LoadedPages(s: State, attempts: seq<Attempt>, k: nat): seq<Page>
    requires k < |attempts|
  {
    var loading := Loading(s, attempts, k);
    PagesOf(Run(loading, Actions(attempts[k].during)).log.outcomes, Admissions(loading, attempts[k].during))
  }

  /** Turn `k` gives up: the connection is refused or gone, or the load fails. */
  ghost predicate GivesUp(s: State, attempts: seq<Attempt>, k: nat)
    requires k < |attempts|
  { attempts[k].refused || !Loading(s, attempts, k).conn.active || attempts[k].fails }

  /** Turn `k` was overtaken: it had its pages, and something changed meanwhile. */
  ghost predicate Overtaken(s: State, attempts: seq<Attempt>, k: nat, scopes: seq<Scope>)
    requires k < |attempts|
  {
    && !GivesUp(s, attempts, k) && Awaited !in LoadedPages(s, attempts, k)
    && !Undisturbed(Loading(s, attempts, k), Actions(attempts[k].during), scopes)
  }

  lemma ActionsExtend(events: seq<Event>, i: nat)
    requires i < |events|
    ensures Actions(events[..i + 1])[..i] == Actions(events[..i]) && Actions(events[..i + 1])[i] == ActionOf(events[i])
    ensures |Actions(events[..i + 1])| == i + 1
  {}

  method Perform(c: ReadCoordinator, actions: seq<Action>)
    requires c.Valid()
    modifies c
    ensures c.Valid() && c.Snapshot() == Run(old(c.Snapshot()), actions)
  {
    hide Inv, Step;
    ghost var s := c.Snapshot();
    assert actions[..0] == [];
    for i := 0 to |actions|
      invariant c.Valid() && c.Snapshot() == Run(s, actions[..i])
    {
      assert actions[..i + 1][..i] == actions[..i];
      PerformOne(c, actions[i]);
    }
    assert actions[..|actions|] == actions;
  }

  /** A load: every page it asks for is joined or created, and remembered. */
  method PerformLoad(c: ReadCoordinator, events: seq<Event>) returns (admissions: seq<Admission>)
    requires c.Valid()
    modifies c
    ensures c.Valid() && c.Snapshot() == Run(old(c.Snapshot()), Actions(events))
    ensures admissions == Admissions(old(c.Snapshot()), events)
  {
    hide Inv, Step, Admit;
    ghost var s := c.Snapshot();
    admissions := [];
    assert events[..0] == [] && Actions([]) == [];
    for i := 0 to |events|
      invariant c.Valid() && c.Snapshot() == Run(s, Actions(events[..i]))
      invariant admissions == Admissions(s, events[..i])
    {
      assert events[..i + 1][..i] == events[..i];
      ActionsExtend(events, i);
      match events[i]
      case Asks(rpc, args, now) =>
        var admission := c.RequestRead(rpc, args, now);
        admissions := admissions + [admission];
      case Meanwhile(action) => PerformOne(c, action);
    }
    assert events[..|events|] == events;
  }

  method PerformOne(c: ReadCoordinator, a: Action)
    requires c.Valid()
    modifies c
    ensures c.Valid() && c.Snapshot() == Step(old(c.Snapshot()), a)
  {
    hide Inv, CancelEverything, ReadStep, ReadCoordination.Invalidate, Answer, Finish, Wake, Pump;
    match a
    case ReadCalled(rpc, args, now) => var _ := c.RequestRead(rpc, args, now);
    case Invalidated(scope) => c.Invalidate(scope);
    case UrgencyChanged(urgent) => c.SetUrgency(urgent);
    case Pumped(now) => c.Pumping(now);
    case Answered(call, reply) => c.AnswerArrived(call, reply);
    case Finished(call, now) => c.CallEnded(call, now);
    case TimerFired(id, now) => c.DelayOver(id, now);
    case Failed => c.Disconnect(false);
    case Stopped =>
      if c.conn.active {
        c.Disconnect(true);
      }
    case _ => c.ConnectionChanged(a);
  }

  /** A page is the value its read resolved with, which the request it came from explains; it is missing if the read was
      refused or rejected. */
  ghost predicate PageCameFrom(s: State, r: State, scopes: seq<Scope>, admission: Admission, page: Page) {
    match page
    case Page(payload) =>
      && IsRead(admission) && admission.read in r.log.outcomes && r.log.outcomes[admission.read] == Resolved(payload)
      && exists k :: PageIsExplained(s, r, scopes, admission.read, k)
    case Missing =>
      if IsRead(admission) then admission.read in r.log.outcomes && r.log.outcomes[admission.read].Rejected? else true
    case Awaited => false
  }

  /** Loads until a load was undisturbed. The value given is the pages asked for in that load, each explained by the one
      request it came from: it is of the version compared unless what it tracks had been invalidated between its answer
      and the begin of the load. No earlier turn could have given a value. */
  method ConsistentRead(c: ReadCoordinator, scopes: seq<Scope>, attempts: seq<Attempt>) returns (r: Loaded, turns: nat)
    requires c.Valid()
    modifies c
    ensures c.Valid() && turns <= |attempts|
    ensures forall k | 0 <= k < turns :: Overtaken(old(c.Snapshot()), attempts, k, scopes)
    ensures r.Unfinished? == (turns == |attempts| ||
      (!GivesUp(old(c.Snapshot()), attempts, turns) && Awaited in LoadedPages(old(c.Snapshot()), attempts, turns)))
    ensures r.GivenUp? ==> turns < |attempts| && GivesUp(old(c.Snapshot()), attempts, turns)
    ensures r.Consistent? ==>
      && turns < |attempts| && !GivesUp(old(c.Snapshot()), attempts, turns)
      && r.pages == LoadedPages(old(c.Snapshot()), attempts, turns) && Awaited !in r.pages
      && Undisturbed(Loading(old(c.Snapshot()), attempts, turns), Actions(attempts[turns].during), scopes)
    ensures r.Consistent? ==>
      var loading := Loading(old(c.Snapshot()), attempts, turns);
      var admissions := Admissions(loading, attempts[turns].during);
      |r.pages| == |admissions| && forall n | 0 <= n < |r.pages| :: PageCameFrom(loading, c.Snapshot(), scopes, admissions[n], r.pages[n])
  {
    hide Inv, Run, Undisturbed, Admissions, PageCameFrom, PageOf;
    ghost var s := c.Snapshot();
    turns := 0;
    while turns < |attempts|
      invariant turns <= |attempts| && c.Valid() && c.Snapshot() == StateBefore(s, attempts, turns)
      invariant forall k | 0 <= k < turns :: Overtaken(s, attempts, k, scopes)
    {
      Perform(c, attempts[turns].before);
      ghost var loading := c.Snapshot();
      if attempts[turns].refused || !c.conn.active {
        return GivenUp, turns;
      }
      var generation := c.conn.generation;
      var versions := seq(|scopes|, i requires 0 <= i < |scopes| reads c => CategoryVersion(c.versions.categories, scopes[i]));
      var admissions := PerformLoad(c, attempts[turns].during);
      if attempts[turns].fails {
        return GivenUp, turns;
      }
      var pages := PagesOf(c.log.outcomes, admissions);
      if Awaited in pages {
        return Unfinished, turns;
      }
      var same := generation == c.conn.generation
        && forall i | 0 <= i < |scopes| :: CategoryVersion(c.versions.categories, scopes[i]) == versions[i];
      ComparisonIsExact(loading, Actions(attempts[turns].during), scopes);
      assert same <==> SameVersions(loading, c.Snapshot(), scopes) by {
        forall i | 0 <= i < |scopes|
          ensures scopes[i] in scopes && versions[i] == CategoryVersion(loading.versions.categories, scopes[i])
        {}
      }
      if same {
        ExplainPages(loading, Actions(attempts[turns].during), scopes, admissions);
        assert forall n | 0 <= n < |pages| :: pages[n] in pages && pages[n] == PageOf(c.log.outcomes, admissions[n]);
        return Consistent(pages), turns;
      }
      turns := turns + 1;
    }
    r := Unfinished;
  }

  lemma ExplainPages(s: State, during: seq<Action>, scopes: seq<Scope>, admissions: seq<Admission>)
    requires Inv(s) && Undisturbed(s, during, scopes)
    ensures forall n | 0 <= n < |admissions| && !PageOf(Run(s, during).log.outcomes, admissions[n]).Awaited? ::
      PageCameFrom(s, Run(s, during), scopes, admissions[n], PageOf(Run(s, during).log.outcomes, admissions[n]))
  {
    hide Inv, Run, Undisturbed, PageIsExplained;
    forall n | 0 <= n < |admissions| && !PageOf(Run(s, during).log.outcomes, admissions[n]).Awaited?
      ensures PageCameFrom(s, Run(s, during), scopes, admissions[n], PageOf(Run(s, during).log.outcomes, admissions[n]))
    {
      if PageOf(Run(s, during).log.outcomes, admissions[n]).Page? {
        var k := PageHasVersionWhen(s, during, scopes, admissions[n].read);
      }
    }
  }
}
