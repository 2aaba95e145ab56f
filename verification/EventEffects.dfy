/** What an event of the daemon means for the GUI's reads: the scopes it announces as changed, which reads of what it
    changed are told, and that none of those is answered from before it. */
module EventEffects {
  import opened ConsistentReads
  import E = EventIngest
  import opened EventScopes
  import opened ReadCoordination
  import opened Wrappers

  datatype Aggregate =
    | OperationAggregate | ProjectAggregate | RepositoryAggregate | UnityInstallation | ProjectEditorPreference
    | ProjectUnityLaunchConfig | ProjectTemplate | UserPackage

  datatype CoreEvent = CoreEvent(aggregate: Aggregate, id: string, revision: nat, kind: string)

  datatype Announcement = Announcement(scope: Scope, urgent: bool)

  const PROGRESS := "operation.progress"
  const ENDING_WORDS := ["created", "completed", "succeeded", "failed", "cancelled"]
  const REMOVING_WORDS := ["registered", "removed", "unregistered", "deleted"]

  predicate StartsWith(s: string, word: string) { |word| <= |s| && s[..|word|] == word }

  predicate Mentions(s: string, word: string) {
    StartsWith(s, word) || (s != "" && Mentions(s[1..], word))
  }

  predicate MentionsAny(s: string, words: seq<string>) { exists i | 0 <= i < |words| :: Mentions(s, words[i]) }

  /** The scope that stands for a kind of resource other than operations. */
  function ScopeOf(aggregate: Aggregate): Scope {
    match aggregate
    case OperationAggregate => Operations
    case ProjectAggregate => Projects
    case RepositoryAggregate => Repositories
    case UnityInstallation => Unity
    case ProjectEditorPreference => Projects
    case ProjectUnityLaunchConfig => Projects
    case ProjectTemplate => Templates
    case UserPackage => UserPackages
  }

  /** What an event announces, in order. `waiting` is whether the operation is observed but has no job. */
  function Announcements(e: CoreEvent, waiting: bool): seq<Announcement> {
    if e.aggregate.OperationAggregate? then
      var urgent := MentionsAny(e.kind, ENDING_WORDS);
      [Announcement(OperationOf(e.id), urgent)]
      + (if waiting then [Announcement(OperationsResync, false)] else [])
      + (if e.kind == PROGRESS then [] else [Announcement(Operations, urgent)])
    else [Announcement(ScopeOf(e.aggregate), MentionsAny(e.kind, REMOVING_WORDS))]
  }

  predicate ReadsBackups(rpc: Rpc) { rpc.BackupsList? || rpc.BackupGet? }

  /** Whether the answer of a read can be another after the event: reads of the resource, reads of lists it is
      in, and what is worked out from it. A backup comes into being when its operation ends. */
  predicate Affects(e: CoreEvent, key: Key) {
    match e.aggregate
    case OperationAggregate =>
      || (key.HasRecord() && key.OperationId() == e.id)
      || key.rpc.OperationsList?
      || (ReadsBackups(key.rpc) && e.kind != PROGRESS)
    case RepositoryAggregate =>
      key.rpc.RepositoriesList? || key.rpc.RepositoryGet? || key.rpc.RepositoryPackages? || key.rpc.PackageQueryProjectCandidates?
    case UnityInstallation => ReadsUnity(key.rpc)
    case ProjectTemplate => key.rpc.ProjectTemplatesList?
    case UserPackage => key.rpc.UserPackagesList? || key.rpc.UserPackageGet? || key.rpc.PackageQueryProjectCandidates?
    case _ => key.rpc.ProjectsList? || key.rpc.ProjectGet? || key.rpc.PackageQueryProjectCandidates? || ReadsUnity(key.rpc)
  }

  predicate ReadsUnity(rpc: Rpc) {
    || rpc.UnityInstallationsList? || rpc.UnityInstallationGet? || rpc.UnityProjectLaunchConfigGet?
    || rpc.UnityWriterState? || rpc.UnityLaunchOptions?
  }

  /** The list has the revision and the phase of every operation, but its progress is not announced to the list. That an
      operation ended is not announced to the reads of backups; it can be later, when the operation itself was read. */
  predicate IsQuiet(e: CoreEvent, key: Key) {
    e.aggregate.OperationAggregate? && if e.kind == PROGRESS then key.rpc.OperationsList? else ReadsBackups(key.rpc)
  }

  /** Some scope the event announces is one the read tracks. */
  ghost predicate IsTold(e: CoreEvent, waiting: bool, key: Key) {
    exists k | 0 <= k < |Announcements(e, waiting)| :: Announcements(e, waiting)[k].scope in Tracked(key)
  }

  /** Of the reads whose answer an event can change it announces a scope, except, and always then, the list of operations
      if the event is progress, and the reads of backups if it is not. */
  lemma AffectedReadsAreToldWhen(e: CoreEvent, waiting: bool, key: Key)
    requires Affects(e, key)
    ensures IsTold(e, waiting, key) <==> !IsQuiet(e, key)
  {
    hide MentionsAny;
    var announced, tracked := Announcements(e, waiting), Tracked(key);
    if !IsQuiet(e, key) {
      var k := if e.aggregate.OperationAggregate? && key.rpc.OperationsList? then |announced| - 1 else 0;
      assert tracked[0] in tracked && (|tracked| > 1 ==> tracked[1] in tracked) && (|tracked| > 2 ==> tracked[2] in tracked);
      assert announced[k].scope in tracked;
    } else {
      assert tracked == [if e.kind == PROGRESS then Operations else Backups];
      assert forall k | 0 <= k < |announced| :: announced[k].scope != tracked[0];
    }
  }

  /** And of no other: whatever read is told of an event, the event can change its answer. */
  lemma ToldReadsAreAffected(e: CoreEvent, waiting: bool, key: Key)
    requires IsTold(e, waiting, key)
    ensures Affects(e, key)
  {
    hide MentionsAny;
    var announced, tracked := Announcements(e, waiting), Tracked(key);
    var k :| 0 <= k < |announced| && announced[k].scope in tracked;
    var i :| 0 <= i < |tracked| && tracked[i] == announced[k].scope;
  }

  /** The word stands in the text at this place. */
  ghost predicate StandsAt(s: string, word: string, at: nat) { at + |word| <= |s| && s[at..at + |word|] == word }

  /** The search for a word finds it exactly if it stands somewhere. */
  lemma {:induction false} MentionsIsExact(s: string, word: string)
    ensures Mentions(s, word) <==> exists at: nat :: StandsAt(s, word, at)
  {
    if StartsWith(s, word) {
      assert StandsAt(s, word, 0);
    } else if s != "" {
      MentionsIsExact(s[1..], word);
      StandsLater(s, word);
    }
  }

  lemma StandsLater(s: string, word: string)
    requires s != "" && !StartsWith(s, word)
    ensures (exists at: nat :: StandsAt(s, word, at)) <==> exists at: nat :: StandsAt(s[1..], word, at)
  {
    if at: nat :| StandsAt(s, word, at) {
      assert s[1..][at - 1..at - 1 + |word|] == s[at..at + |word|];
      assert StandsAt(s[1..], word, at - 1);
    }
    if at: nat :| StandsAt(s[1..], word, at) {
      assert s[1..][at..at + |word|] == s[at + 1..at + 1 + |word|];
      assert StandsAt(s, word, at + 1);
    }
  }

  /** An event is urgent exactly if its kind says that something came to be or ended, that is, if one of the words for it
      stands in it. All it announces is urgent then, except that operations overflowed. */
  lemma UrgentWhen(e: CoreEvent, waiting: bool, k: nat)
    requires k < |Announcements(e, waiting)|
    ensures Announcements(e, waiting)[k].urgent <==>
      && !Announcements(e, waiting)[k].scope.OperationsResync?
      && exists i, at: nat | 0 <= i < |WordsFor(e.aggregate)| :: StandsAt(e.kind, WordsFor(e.aggregate)[i], at)
  {
    var words := WordsFor(e.aggregate);
    hide Mentions, StandsAt;
    forall i | 0 <= i < |words|
      ensures Mentions(e.kind, words[i]) <==> exists at: nat :: StandsAt(e.kind, words[i], at)
    {
      MentionsIsExact(e.kind, words[i]);
    }
  }

  ghost function WordsFor(aggregate: Aggregate): seq<string> {
    if aggregate.OperationAggregate? then ["created", "completed", "succeeded", "failed", "cancelled"]
    else ["registered", "removed", "unregistered", "deleted"]
  }

  lemma AffectedReadIsTold(e: CoreEvent, waiting: bool, key: Key) returns (k: nat)
    requires Affects(e, key) && !IsQuiet(e, key)
    ensures k < |Announcements(e, waiting)| && Announcements(e, waiting)[k].scope in Tracked(key)
  {
    hide MentionsAny, Announcements, Affects, IsQuiet;
    AffectedReadsAreToldWhen(e, waiting, key);
    k :| 0 <= k < |Announcements(e, waiting)| && Announcements(e, waiting)[k].scope in Tracked(key);
  }

  function Invalidations(announcements: seq<Announcement>): seq<Action> {
    seq(|announcements|, i requires 0 <= i < |announcements| => Invalidated(announcements[i].scope))
  }

  /** A scope was invalidated between two states. */
  ghost predicate Told(s: State, r: State, scope: Scope) {
    exists i | |s.log.invalidations| <= i < |r.log.invalidations| :: r.log.invalidations[i].scope == scope
  }

  lemma ToldInStep(s: State, t: State, scope: Scope, other: Scope)
    requires |s.log.invalidations| <= |t.log.invalidations|
    ensures Told(s, Invalidate(t, scope), scope) && (Told(s, t, other) ==> Told(s, Invalidate(t, scope), other))
  {
    var r := Invalidate(t, scope);
    assert r.log.invalidations[|t.log.invalidations|].scope == scope;
    if Told(s, t, other) {
      var i :| |s.log.invalidations| <= i < |t.log.invalidations| && t.log.invalidations[i].scope == other;
      assert r.log.invalidations[i].scope == other;
    }
  }

  ghost predicate OnlyInvalidates(actions: seq<Action>) { forall i | 0 <= i < |actions| :: actions[i].Invalidated? }

  /** Everything announced is on record. */
  lemma {:induction false} AnnouncedIsLogged(s: State, actions: seq<Action>, k: nat)
    requires k < |actions| && OnlyInvalidates(actions)
    ensures Told(s, Run(s, actions), actions[k].scope)
    decreases |actions|
  {
    var before, last := actions[..|actions| - 1], actions[|actions| - 1];
    var t := Run(s, before);
    assert last.Invalidated? && Run(s, actions) == Invalidate(t, last.scope);
    RunGrew(s, before);
    hide Run, Invalidate, Grew, Told;
    GrowsLog(s, t);
    ToldInStep(s, t, last.scope, actions[k].scope);
    if k < |before| {
      AnnouncedIsLogged(s, before, k);
    }
  }

  lemma GrowsLog(s: State, t: State)
    requires Grew(s, t)
    ensures |s.log.invalidations| <= |t.log.invalidations|
  {
    hide VersionsGrew, ReadsGrew;
  }

  /** What was announced before a read resolved, the value it resolves with was asked for after. */
  lemma {:induction false} ToldReadsAreFresh(before: seq<Action>, telling: seq<Action>, after: seq<Action>, id: ReadId, k: nat, entry: Resolution)
    requires OnlyInvalidates(telling) && k < |telling| && telling[k].scope in Tracked(entry.key)
    requires id !in Run(INITIAL, before + telling).log.outcomes
    requires entry in Run(INITIAL, before + telling + after).log.resolutions && entry.read == id
    ensures Run(INITIAL, before).log.tick < entry.startTick
  {
    var told := before + telling;
    var s, t, r := Run(INITIAL, before), Run(INITIAL, told), Run(INITIAL, told + after);
    hide Run, Tracked;
    RunSplit(INITIAL, before, telling);
    AnnouncedIsLogged(s, telling, k);
    var i :| |s.log.invalidations| <= i < |t.log.invalidations| && t.log.invalidations[i].scope == telling[k].scope;
    RunGrew(s, telling);
    RunSplit(INITIAL, told, after);
    RunGrew(t, after);
    RunKeeps(told);
    RunKeeps(told + after);
    ResolvedLater(t, r, id, entry);
    EntryIsFresh(r, entry);
    assert r.log.invalidations[i] == t.log.invalidations[i];
  }

  lemma EntryIsFresh(r: State, entry: Resolution)
    requires Inv(r) && entry in r.log.resolutions
    ensures FreshResolution(entry, r.log.invalidations)
  {
    LogsOk(r);
  }

  /** From the event to the value on screen: a read that an event can change, and that resolves after the event
      was taken in, resolves with a value asked for after it was, whenever the read was called; if it is told of the
      event at all. */
  lemma {:induction false} EventsReachReads(before: seq<Action>, e: CoreEvent, waiting: bool, after: seq<Action>, id: ReadId) returns (entry: Resolution)
    requires var told := before + Invalidations(Announcements(e, waiting));
      && id !in Run(INITIAL, told).log.outcomes
      && id in Run(INITIAL, told + after).log.outcomes && Run(INITIAL, told + after).log.outcomes[id].Resolved?
      && forall x | x in Run(INITIAL, told + after).log.resolutions && x.read == id :: Affects(e, x.key) && !IsQuiet(e, x.key)
    ensures var told := before + Invalidations(Announcements(e, waiting));
      entry in Run(INITIAL, told + after).log.resolutions && entry.read == id
    ensures Run(INITIAL, before).log.tick < entry.startTick
  {
    var telling := Invalidations(Announcements(e, waiting));
    entry := ReadsAreFresh(before + telling + after, id);
    hide Run, Announcements, Affects, IsQuiet, Tracked;
    var k := AffectedReadIsTold(e, waiting, entry.key);
    ToldReadsAreFresh(before, telling, after, id, k, entry);
  }

  lemma ResolvedLater(t: State, r: State, id: ReadId, entry: Resolution)
    requires Inv(t) && id !in t.log.outcomes && Grew(t, r) && entry in r.log.resolutions && entry.read == id
    ensures t.log.tick <= entry.tick
  {
    NotYetLogged(t, id);
    hide Inv, VersionsGrew, ReadsGrew;
    var k :| 0 <= k < |r.log.resolutions| && r.log.resolutions[k] == entry;
    assert forall j | 0 <= j < |t.log.resolutions| :: r.log.resolutions[j] == t.log.resolutions[j];
  }

  // ---------------------------------------------------------------------------------------------
  // Reads that are not told
  // ---------------------------------------------------------------------------------------------

  function Asking(rpc: Rpc, args: seq<string>): seq<Action> { [Started, BecameReady, ReadCalled(rpc, args, 0)] }

  lemma RunAsks(rpc: Rpc, args: seq<string>)
    requires HasOneScope(rpc)
    ensures Run(INITIAL, Asking(rpc, args)) == Asked(Key(0, rpc, args, 0))
  {
    var asking, asks := Asking(rpc, args), ReadCalled(rpc, args, 0);
    assert asking[..2] == [Started, BecameReady] && [Started, BecameReady][..1] == [Started] && [Started][..0] == [];
    PageOpened();
    OneIsAsked(rpc, args);
    assert Step(OPEN, asks) == ReadStep(OPEN, rpc, args, 0) by {
      hide ReadStep;
    }
    hide Step, ReadStep;
    assert Run(INITIAL, [Started]) == Step(INITIAL, Started);
    assert Run(INITIAL, asking[..2]) == Step(Step(INITIAL, Started), BecameReady) == OPEN;
  }

  /** Announcements of other categories leave everything else as it was. */
  lemma {:induction false} OtherInvalidations(s: State, actions: seq<Action>, category: Scope)
    requires OnlyInvalidates(actions) && s.versions.records == map[]
    requires forall i | 0 <= i < |actions| :: Category(actions[i].scope) != category
    ensures var r := Run(s, actions);
      && r == s.(versions := r.versions, log := r.log) && r.versions.records == map[]
      && r.log == s.log.(invalidations := r.log.invalidations, tick := r.log.tick)
      && CategoryVersion(r.versions.categories, category) == CategoryVersion(s.versions.categories, category)
  {
    if actions != [] {
      OtherInvalidations(s, actions[..|actions| - 1], category);
    }
  }

  /** The answer of a request that nothing overtook is accepted. */
  lemma OneIsAnswered(key: Key, r: State)
    requires HasOneScope(key.rpc) && key.generation == 0 && r == Asked(key).(versions := r.versions, log := r.log)
    requires r.log == Asked(key).log.(invalidations := r.log.invalidations, tick := r.log.tick)
    requires CategoryVersion(r.versions.categories, Scopes(key.rpc)[0]) == 0
    ensures var t := Answer(r, 0, Value("", "old"));
      t.log.outcomes == map[0 := Resolved("old")] && t.log.resolutions == [Resolution(0, key, 1, r.log.tick, 0)]
  {
    assert Version(r.versions.categories, r.versions.objects, r.table.unfinished[0]) == [0];
  }

  lemma QuietMeansOther(e: CoreEvent, waiting: bool, rpc: Rpc, args: seq<string>)
    requires IsQuiet(e, Key(0, rpc, args, 0))
    ensures HasOneScope(rpc) && Affects(e, Key(0, rpc, args, 0))
    ensures var telling := Invalidations(Announcements(e, waiting));
      |telling| > 0 && OnlyInvalidates(telling) && forall i | 0 <= i < |telling| :: Category(telling[i].scope) != Scopes(rpc)[0]
  {
    hide MentionsAny;
  }

  /** Wherever a read is not told it can be stale: asked for before such an event, and answered after it was taken in, it
      is shown as it was, although the event can have changed it. */
  lemma QuietEventLeavesReadStale(e: CoreEvent, waiting: bool, rpc: Rpc, args: seq<string>)
    requires IsQuiet(e, Key(0, rpc, args, 0))
    ensures var telling := Invalidations(Announcements(e, waiting));
      var told := Run(INITIAL, Asking(rpc, args) + telling);
      var r := Run(INITIAL, Asking(rpc, args) + telling + [Answered(0, Value("", "old"))]);
      && Affects(e, Key(0, rpc, args, 0)) && |telling| > 0 && 0 !in told.log.outcomes
      && r.log.outcomes == map[0 := Resolved("old")] && |r.log.resolutions| == 1
      && r.log.resolutions[0].key == Key(0, rpc, args, 0)
      && r.log.resolutions[0].startTick == Run(INITIAL, Asking(rpc, args)).log.tick
  {
    var asking, telling, answered := Asking(rpc, args), Invalidations(Announcements(e, waiting)), Answered(0, Value("", "old"));
    QuietMeansOther(e, waiting, rpc, args);
    RunAsks(rpc, args);
    RunSplit(INITIAL, asking, telling);
    OtherInvalidations(Asked(Key(0, rpc, args, 0)), telling, Scopes(rpc)[0]);
    var told := Run(INITIAL, asking + telling);
    OneIsAnswered(Key(0, rpc, args, 0), told);
    assert (asking + telling + [answered])[..|asking + telling|] == asking + telling;
    hide Step, Answer, Announcements, Invalidations, Scopes;
    assert Run(INITIAL, asking + telling + [answered]) == Step(told, answered);
    AnsweredIs(told, 0, Value("", "old"));
  }

  // ---------------------------------------------------------------------------------------------
  // Taking in events and making reads, in one run
  // ---------------------------------------------------------------------------------------------

  /** What an event of the daemon is, by instance and sequence number. */
  type Meaning = (E.InstanceId, int) -> CoreEvent

  /** Either the subscription goes on, or something else happens to the reads. */
  datatype Moment = Ingested(taken: E.Action) | Reading(action: Action)

  ghost function Ingestion(moments: seq<Moment>): seq<E.Action> {
    if moments == [] then []
    else
      var last := moments[|moments| - 1];
      Ingestion(moments[..|moments| - 1]) + if last.Ingested? then [last.taken] else []
  }

  ghost function Subscription(moments: seq<Moment>): E.State { E.Run(E.INITIAL, Ingestion(moments)) }

  /** What applied events do, one after the other. `waiting` says for which of them the operation waits for a job. */
  function Effects(meaning: Meaning, waiting: E.Applied -> bool, applied: seq<E.Applied>): seq<Action> {
    if applied == [] then []
    else
      var last := applied[|applied| - 1];
      Effects(meaning, waiting, applied[..|applied| - 1])
      + Invalidations(Announcements(meaning(last.instance, last.sequence), waiting(last)))
  }

  function ScopesInvalidated(scopes: seq<Scope>): seq<Action> {
    seq(|scopes|, i requires 0 <= i < |scopes| => Invalidated(scopes[i]))
  }

  function Added<T>(before: seq<T>, after: seq<T>): seq<T> { if |before| <= |after| then after[|before|..] else [] }

  /** What one section of the subscription does to the reads: the events it applied, then the scopes of its batch. */
  function Telling(meaning: Meaning, waiting: E.Applied -> bool, before: E.State, after: E.State): seq<Action> {
    Effects(meaning, waiting, Added(before.log.applied, after.log.applied))
    + ScopesInvalidated(Added(before.log.invalidated, after.log.invalidated))
  }

  /** What happens to the reads in a run of both. */
  ghost function Projection(meaning: Meaning, waiting: E.Applied -> bool, moments: seq<Moment>): seq<Action> {
    if moments == [] then []
    else
      var before, last := moments[..|moments| - 1], moments[|moments| - 1];
      Projection(meaning, waiting, before) + OnReads(meaning, waiting, before, last)
  }

  /** What the next moment does to the reads. */
  ghost function OnReads(meaning: Meaning, waiting: E.Applied -> bool, before: seq<Moment>, next: Moment): seq<Action> {
    match next
    case Ingested(_) => Telling(meaning, waiting, Subscription(before), Subscription(before + [next]))
    case Reading(a) => [a]
  }

  ghost function Reads(meaning: Meaning, waiting: E.Applied -> bool, moments: seq<Moment>): State {
    Run(INITIAL, Projection(meaning, waiting, moments))
  }

  lemma {:induction false} EffectsOnlyInvalidate(meaning: Meaning, waiting: E.Applied -> bool, applied: seq<E.Applied>)
    ensures OnlyInvalidates(Effects(meaning, waiting, applied))
  {
    hide Announcements;
    if applied != [] {
      EffectsOnlyInvalidate(meaning, waiting, applied[..|applied| - 1]);
    }
  }

  /** Each applied event announces what it should. */
  lemma {:induction false} AppliedIsAnnounced(meaning: Meaning, waiting: E.Applied -> bool, applied: seq<E.Applied>, k: nat, j: nat) returns (n: nat)
    requires k < |applied|
    requires j < |Announcements(meaning(applied[k].instance, applied[k].sequence), waiting(applied[k]))|
    ensures n < |Effects(meaning, waiting, applied)|
    ensures Effects(meaning, waiting, applied)[n]
      == Invalidated(Announcements(meaning(applied[k].instance, applied[k].sequence), waiting(applied[k]))[j].scope)
  {
    hide Announcements;
    var before := applied[..|applied| - 1];
    if k < |before| {
      n := AppliedIsAnnounced(meaning, waiting, before, k, j);
    } else {
      n := |Effects(meaning, waiting, before)| + j;
    }
  }

  lemma ProjectionOfOneMore(meaning: Meaning, waiting: E.Applied -> bool, before: seq<Moment>, next: Moment)
    ensures Projection(meaning, waiting, before + [next]) == Projection(meaning, waiting, before) + OnReads(meaning, waiting, before, next)
  {
    hide OnReads;
    assert (before + [next])[..|before|] == before;
  }

  /** What happens later comes after. */
  lemma {:induction false} ProjectionGoesOn(meaning: Meaning, waiting: E.Applied -> bool, before: seq<Moment>, later: seq<Moment>)
      returns (tail: seq<Action>)
    ensures Projection(meaning, waiting, before + later) == Projection(meaning, waiting, before) + tail
  {
    hide Projection, OnReads;
    if later == [] {
      assert before + later == before;
      tail := [];
    } else {
      var sooner, next := later[..|later| - 1], later[|later| - 1];
      assert before + later == before + sooner + [next];
      var first := ProjectionGoesOn(meaning, waiting, before, sooner);
      ProjectionOfOneMore(meaning, waiting, before + sooner, next);
      tail := first + OnReads(meaning, waiting, before + sooner, next);
    }
  }

  /** A read that an applied event can change was told of it. */
  lemma NewsReachReads(meaning: Meaning, waiting: E.Applied -> bool, base: seq<Action>, news: seq<E.Applied>, scopes: seq<Scope>,
                       tail: seq<Action>, applied: E.Applied, id: ReadId) returns (entry: Resolution)
    requires applied in news
    requires var told := base + (Effects(meaning, waiting, news) + ScopesInvalidated(scopes));
      && id !in Run(INITIAL, told).log.outcomes
      && id in Run(INITIAL, told + tail).log.outcomes && Run(INITIAL, told + tail).log.outcomes[id].Resolved?
      && forall x | x in Run(INITIAL, told + tail).log.resolutions && x.read == id ::
        Affects(meaning(applied.instance, applied.sequence), x.key) && !IsQuiet(meaning(applied.instance, applied.sequence), x.key)
    ensures var told := base + (Effects(meaning, waiting, news) + ScopesInvalidated(scopes));
      entry in Run(INITIAL, told + tail).log.resolutions && entry.read == id
    ensures Run(INITIAL, base).log.tick < entry.startTick
  {
    hide Run, Announcements, Affects, IsQuiet, Tracked, Effects;
    var telling := Effects(meaning, waiting, news) + ScopesInvalidated(scopes);
    entry := ReadsAreFresh(base + telling + tail, id);
    var k :| 0 <= k < |news| && news[k] == applied;
    var j := AffectedReadIsTold(meaning(applied.instance, applied.sequence), waiting(applied), entry.key);
    var n := AppliedIsAnnounced(meaning, waiting, news, k, j);
    EffectsOnlyInvalidate(meaning, waiting, news);
    ToldReadsAreFresh(base, telling, tail, id, n, entry);
  }

  /** From the daemon to the screen, over every run of both: once a section of the subscription has applied an event, a read
      the event can change, and that had not resolved by then, resolves with a value asked for after that section began;
      if it is told of the event at all. */
  lemma {:induction false} AppliedEventsReachReads(meaning: Meaning, waiting: E.Applied -> bool, before: seq<Moment>, a: E.Action,
                                                   later: seq<Moment>, applied: E.Applied, id: ReadId) returns (entry: Resolution)
    requires applied in Added(Subscription(before).log.applied, Subscription(before + [Ingested(a)]).log.applied)
    requires id !in Reads(meaning, waiting, before + [Ingested(a)]).log.outcomes
    requires var log := Reads(meaning, waiting, before + [Ingested(a)] + later).log;
      && id in log.outcomes && log.outcomes[id].Resolved?
      && forall x | x in log.resolutions && x.read == id ::
        Affects(meaning(applied.instance, applied.sequence), x.key) && !IsQuiet(meaning(applied.instance, applied.sequence), x.key)
    ensures entry in Reads(meaning, waiting, before + [Ingested(a)] + later).log.resolutions && entry.read == id
    ensures Reads(meaning, waiting, before).log.tick < entry.startTick
  {
    var moments := before + [Ingested(a)];
    var s, t := Subscription(before), Subscription(moments);
    ProjectionOfOneMore(meaning, waiting, before, Ingested(a));
    hide Run, Projection, Subscription, Announcements, Affects, IsQuiet, Added;
    var tail := ProjectionGoesOn(meaning, waiting, moments, later);
    entry := NewsReachReads(meaning, waiting, Projection(meaning, waiting, before), Added(s.log.applied, t.log.applied),
                            Added(s.log.invalidated, t.log.invalidated), tail, applied, id);
  }

  /** And what its batch names: a read that tracks a scope of a batch, and that had not resolved when the section that took
      the batch in was over, resolves with a value asked for after that section began. */
  lemma {:induction false} BatchScopesReachReads(meaning: Meaning, waiting: E.Applied -> bool, before: seq<Moment>, a: E.Action,
                                                 later: seq<Moment>, scope: Scope, id: ReadId) returns (entry: Resolution)
    requires scope in Added(Subscription(before).log.invalidated, Subscription(before + [Ingested(a)]).log.invalidated)
    requires id !in Reads(meaning, waiting, before + [Ingested(a)]).log.outcomes
    requires var log := Reads(meaning, waiting, before + [Ingested(a)] + later).log;
      && id in log.outcomes && log.outcomes[id].Resolved?
      && forall x | x in log.resolutions && x.read == id :: scope in Tracked(x.key)
    ensures entry in Reads(meaning, waiting, before + [Ingested(a)] + later).log.resolutions && entry.read == id
    ensures Reads(meaning, waiting, before).log.tick < entry.startTick
  {
    var moments := before + [Ingested(a)];
    var s, t := Subscription(before), Subscription(moments);
    ProjectionOfOneMore(meaning, waiting, before, Ingested(a));
    hide Run, Projection, Subscription, Effects, Tracked, Added;
    var tail := ProjectionGoesOn(meaning, waiting, moments, later);
    var applied, scopes := Added(s.log.applied, t.log.applied), Added(s.log.invalidated, t.log.invalidated);
    var base, telling := Projection(meaning, waiting, before), Effects(meaning, waiting, applied) + ScopesInvalidated(scopes);
    entry := ReadsAreFresh(base + telling + tail, id);
    var n :| 0 <= n < |scopes| && scopes[n] == scope;
    EffectsOnlyInvalidate(meaning, waiting, applied);
    assert telling[|Effects(meaning, waiting, applied)| + n] == Invalidated(scope);
    ToldReadsAreFresh(base, telling, tail, id, |Effects(meaning, waiting, applied)| + n, entry);
  }
}
