/** One observation of Unity windows for everyone in the GUI who shows one: the native side is told which
    projects to watch, and told anew when that changes. */
module UnityObservation {
  import opened Wrappers

  const TARGET_LIMIT := 128

  type ListenerId = nat
  type Token = nat

  /** Projects are ordered as their identifiers compare. */
  datatype Target = Target(project: int, revision: nat)

  datatype Listener = Listener(id: ListenerId, target: Target)

  // ---------------------------------------------------------------------------------------------
  // Targets
  // ---------------------------------------------------------------------------------------------

  /** Puts a target in its place, instead of one of the same project with a lower revision. */
  function Insert(sorted: seq<Target>, t: Target): seq<Target> {
    if sorted == [] || t.project < sorted[0].project then [t] + sorted
    else if t.project > sorted[0].project then [sorted[0]] + Insert(sorted[1..], t)
    else if sorted[0].revision < t.revision then [t] + sorted[1..]
    else sorted
  }

  function Newest(listeners: seq<Listener>): seq<Target> {
    if listeners == [] then []
    else
      var t := listeners[|listeners| - 1].target;
      var before := Newest(listeners[..|listeners| - 1]);
      if t.revision > 0 then Insert(before, t) else before
  }

  function Targets(listeners: seq<Listener>): seq<Target> {
    var all := Newest(listeners);
    if |all| <= TARGET_LIMIT then all else all[..TARGET_LIMIT]
  }

  ghost predicate Ascending(ts: seq<Target>) { forall i, j | 0 <= i < j < |ts| :: ts[i].project < ts[j].project }

  /** Someone wants it, and nobody wants a later revision of the project. */
  ghost predicate Wanted(listeners: seq<Listener>, t: Target) {
    && t.revision > 0 && (exists i | 0 <= i < |listeners| :: listeners[i].target == t)
    && forall i | 0 <= i < |listeners| && listeners[i].target.project == t.project :: listeners[i].target.revision <= t.revision
  }

  /** The revision a project has in the list, 0 if it has none. */
  function Revision(ts: seq<Target>, project: int): nat {
    if ts == [] then 0 else if ts[0].project == project then ts[0].revision else Revision(ts[1..], project)
  }

  ghost predicate Proper(ts: seq<Target>) { Ascending(ts) && forall i | 0 <= i < |ts| :: ts[i].revision > 0 }

  lemma {:induction false} AbsentHasNone(ts: seq<Target>, project: int)
    requires forall i | 0 <= i < |ts| :: project < ts[i].project
    ensures Revision(ts, project) == 0
  {
    if ts != [] {
      AbsentHasNone(ts[1..], project);
    }
  }

  lemma {:induction false} RevisionIsEntry(ts: seq<Target>, t: Target)
    requires Proper(ts)
    ensures t in ts <==> t.revision > 0 && Revision(ts, t.project) == t.revision
  {
    if ts != [] {
      RevisionIsEntry(ts[1..], t);
      assert ts == [ts[0]] + ts[1..];
      if t.project == ts[0].project {
        AbsentHasNone(ts[1..], t.project);
      }
    }
  }

  lemma {:induction false} InsertKeepsProper(ts: seq<Target>, t: Target)
    requires Proper(ts) && t.revision > 0
    ensures Proper(Insert(ts, t)) && Insert(ts, t) != []
    ensures Insert(ts, t)[0].project == if ts == [] || t.project < ts[0].project then t.project else ts[0].project
  {
    if ts != [] && t.project > ts[0].project {
      InsertKeepsProper(ts[1..], t);
    }
  }

  lemma {:induction false} InsertRaises(ts: seq<Target>, t: Target, project: int)
    requires Proper(ts) && t.revision > 0
    ensures Revision(Insert(ts, t), project)
      == if project == t.project && Revision(ts, project) < t.revision then t.revision else Revision(ts, project)
  {
    if ts != [] && t.project > ts[0].project {
      InsertRaises(ts[1..], t, project);
    } else if project == t.project && ts != [] && t.project < ts[0].project {
      AbsentHasNone(ts, project);
    }
  }

  /** The highest revision anyone wants of a project. */
  function Highest(listeners: seq<Listener>, project: int): nat {
    if listeners == [] then 0
    else
      var t := listeners[|listeners| - 1].target;
      var before := Highest(listeners[..|listeners| - 1], project);
      if t.project == project && before < t.revision then t.revision else before
  }

  lemma {:induction false} NewestIsProper(listeners: seq<Listener>)
    ensures Proper(Newest(listeners))
  {
    if listeners != [] {
      NewestIsProper(listeners[..|listeners| - 1]);
      var t := listeners[|listeners| - 1].target;
      if t.revision > 0 {
        InsertKeepsProper(Newest(listeners[..|listeners| - 1]), t);
      }
    }
  }

  lemma {:induction false} NewestIsHighest(listeners: seq<Listener>, project: int)
    ensures Revision(Newest(listeners), project) == Highest(listeners, project)
  {
    if listeners != [] {
      var before, t := listeners[..|listeners| - 1], listeners[|listeners| - 1].target;
      NewestIsProper(before);
      NewestIsHighest(before, project);
      if t.revision > 0 {
        InsertRaises(Newest(before), t, project);
      }
    }
  }

  lemma {:induction false} HighestIsWanted(listeners: seq<Listener>, t: Target)
    ensures Wanted(listeners, t) <==> t.revision > 0 && Highest(listeners, t.project) == t.revision
    ensures forall i | 0 <= i < |listeners| && listeners[i].target.project == t.project ::
      listeners[i].target.revision <= Highest(listeners, t.project)
    ensures Highest(listeners, t.project) > 0 ==>
      exists i | 0 <= i < |listeners| :: listeners[i].target == Target(t.project, Highest(listeners, t.project))
  {
    if listeners != [] {
      var before, last := listeners[..|listeners| - 1], listeners[|listeners| - 1];
      HighestIsWanted(before, t);
      assert forall i | 0 <= i < |before| :: listeners[i] == before[i];
      if Highest(listeners, t.project) > 0 {
        if Highest(listeners, t.project) == Highest(before, t.project) {
          var i :| 0 <= i < |before| && before[i].target == Target(t.project, Highest(before, t.project));
          assert listeners[i].target == Target(t.project, Highest(listeners, t.project));
        } else {
          assert listeners[|listeners| - 1].target == Target(t.project, Highest(listeners, t.project));
        }
      }
    }
  }

  /** What is watched: each wanted project once, at the highest revision anyone wants, in order; beyond the limit
      only the first ones are. */
  lemma TargetsAreRight(listeners: seq<Listener>, t: Target)
    ensures Ascending(Targets(listeners)) && |Targets(listeners)| <= TARGET_LIMIT
    ensures t in Targets(listeners) ==> Wanted(listeners, t)
    ensures Wanted(listeners, t) && t !in Targets(listeners) ==>
      |Targets(listeners)| == TARGET_LIMIT && forall u | u in Targets(listeners) :: u.project < t.project
  {
    var all, ts := Newest(listeners), Targets(listeners);
    NewestIsProper(listeners);
    NewestIsHighest(listeners, t.project);
    HighestIsWanted(listeners, t);
    RevisionIsEntry(all, t);
    assert forall u | u in ts :: u in all;
    assert forall i | 0 <= i < |ts| :: ts[i] == all[i] && ts[i] in ts;
  }

  /** Who subscribed when makes no difference. */
  lemma TargetsIgnoreOrder(some: seq<Listener>, others: seq<Listener>)
    requires forall t :: Wanted(some, t) <==> Wanted(others, t)
    ensures Targets(some) == Targets(others)
  {
    NewestIsProper(some);
    NewestIsProper(others);
    forall t
      ensures t in Newest(some) <==> t in Newest(others)
    {
      NewestIsHighest(some, t.project);
      NewestIsHighest(others, t.project);
      HighestIsWanted(some, t);
      HighestIsWanted(others, t);
      RevisionIsEntry(Newest(some), t);
      RevisionIsEntry(Newest(others), t);
    }
    AscendingIsUnique(Newest(some), Newest(others));
  }

  lemma {:induction false} AscendingIsUnique(s: seq<Target>, t: seq<Target>)
    requires Ascending(s) && Ascending(t) && forall u :: u in s <==> u in t
    ensures s == t
  {
    assert (|s| > 0 ==> s[0] in t) && (|t| > 0 ==> t[0] in s);
    if s != [] && t != [] {
      assert s[0] == t[0];
      forall u
        ensures u in s[1..] <==> u in t[1..]
      {
        assert u in s <==> u == s[0] || u in s[1..];
        assert u in t <==> u == t[0] || u in t[1..];
        assert s[0] !in s[1..] && t[0] !in t[1..];
      }
      AscendingIsUnique(s[1..], t[1..]);
    }
  }

  // ---------------------------------------------------------------------------------------------
  // Steps
  // ---------------------------------------------------------------------------------------------

  /** What a reconciliation waits for: the previous observation to stop, the new one to start, or one that
      failed to start to stop. */
  datatype Phase = Idle | Stopping(targets: seq<Target>, previous: Token) | Starting(targets: seq<Target>, token: Token)
                 | Recovering(token: Token)

  /** What was shown, for which observation, and which was the current one then. */
  datatype Publication = Publication(source: Token, current: Option<Token>)

  /** `live` were started and their stop is not settled, each with the targets it was started for. `failed` could not be
      started or read; `skipped` were started when their targets were no longer wanted; of `more` changes follow. */
  datatype Log = Log(live: map<Token, seq<Target>>, published: seq<Publication>, begun: bool, failed: set<Token>,
                     skipped: set<Token>, more: set<Token>)

  /** `shown` is the observation that what is shown comes from, if anything is shown. */
  datatype State = State(listeners: seq<Listener>, key: Option<seq<Target>>, token: Option<Token>, phase: Phase, scheduled: bool,
                         consumers: set<Token>, nextToken: nat, shown: Option<Token>, log: Log)

  function Schedule(s: State): State {
    if s.scheduled || !s.phase.Idle? then s else s.(scheduled := true, log := s.log.(begun := true))
  }

  function Without(listeners: seq<Listener>, id: ListenerId): seq<Listener> {
    if listeners == [] then []
    else if listeners[0].id == id then Without(listeners[1..], id) else [listeners[0]] + Without(listeners[1..], id)
  }

  function Subscribe(s: State, l: Listener): State {
    Schedule(s.(listeners := Without(s.listeners, l.id) + [l]))
  }

  function Unsubscribe(s: State, id: ListenerId): State {
    Schedule(s.(listeners := Without(s.listeners, id)))
  }

  function StartObserving(s: State, targets: seq<Target>): State {
    if targets == [] then End(s.(shown := None))
    else s.(token := Some(s.nextToken), nextToken := s.nextToken + 1, phase := Starting(targets, s.nextToken),
            log := s.log.(live := s.log.live[s.nextToken := targets]))
  }

  /** The reconciliation is over. If the targets have changed meanwhile, another follows. */
  function End(s: State): State {
    var t := s.(phase := Idle);
    if t.key == Some(Targets(t.listeners)) then t else Schedule(t)
  }

  function Reconcile(s: State): State {
    if !s.scheduled then s
    else
      var t, targets := s.(scheduled := false), Targets(s.listeners);
      if s.key == Some(targets) then t
      else if s.token.Some? then t.(key := Some(targets), token := None, phase := Stopping(targets, s.token.value))
      else StartObserving(t.(key := Some(targets)), targets)
  }

  function Publish(s: State, source: Token): State {
    s.(shown := Some(source), log := s.log.(published := s.log.published + [Publication(source, s.token)]))
  }

  function StopSettled(s: State): State {
    match s.phase
    case Stopping(targets, previous) => StartObserving(s.(log := s.log.(live := s.log.live - {previous})), targets)
    case Recovering(token) => End(s.(log := s.log.(live := s.log.live - {token})))
    case _ => s
  }

  /** The start of an observation settles: with a first state, and whether more will follow, or it failed. */
  function StartSettled(s: State, ok: bool, observing: bool): State {
    match s.phase
    case Starting(targets, token) =>
      if !ok then s.(phase := Recovering(token), shown := None, log := s.log.(failed := s.log.failed + {token}))
      else if targets != Targets(s.listeners) then End(s.(log := s.log.(skipped := s.log.skipped + {token})))
      else End(Publish(
        if observing then s.(consumers := s.consumers + {token}, log := s.log.(more := s.log.more + {token})) else s, token))
    case _ => s
  }

  /** A change read settles. Only that of the current observation is shown, and followed by another. When it fails nothing
      is shown any more. */
  function NextSettled(s: State, token: Token, ok: bool): State {
    if token !in s.consumers then s
    else if s.token != Some(token) then s.(consumers := s.consumers - {token})
    else if ok then Publish(s, token)
    else s.(consumers := s.consumers - {token}, shown := None, log := s.log.(failed := s.log.failed + {token}))
  }

  datatype Action =
    | Subscribed(listener: Listener)
    | Unsubscribed(id: ListenerId)
    | Microtask
    | StopEnded
    | StartEnded(ok: bool, observing: bool)
    | NextEnded(token: Token, ok: bool)

  function Step(s: State, a: Action): State {
    match a
    case Subscribed(l) => Subscribe(s, l)
    case Unsubscribed(id) => Unsubscribe(s, id)
    case Microtask => Reconcile(s)
    case StopEnded => StopSettled(s)
    case StartEnded(ok, observing) => StartSettled(s, ok, observing)
    case NextEnded(token, ok) => NextSettled(s, token, ok)
  }

  function Run(s: State, actions: seq<Action>): State {
    if actions == [] then s else Step(Run(s, actions[..|actions| - 1]), actions[|actions| - 1])
  }

  const INITIAL := State([], None, None, Idle, false, {}, 0, None, Log(map[], [], false, {}, {}, {}))

  // ---------------------------------------------------------------------------------------------
  // Every step keeps the invariant
  // ---------------------------------------------------------------------------------------------

  /** The observation that is current, or on its way out. */
  ghost function Held(token: Option<Token>, phase: Phase): set<Token> {
    if phase.Stopping? then {phase.previous} else if token.Some? then {token.value} else {}
  }

  ghost predicate PhaseOk(s: State) {
    match s.phase
    case Idle => s.key.Some? ==> WatchOk(s, s.key.value)
    case Stopping(targets, _) => s.token.None? && s.key == Some(targets)
    case Starting(targets, t) =>
      && s.token == Some(t) && s.key == Some(targets) && targets != [] && t in s.log.live && s.log.live[t] == targets
      && t !in s.log.failed && t !in s.log.skipped && t !in s.log.more
    case Recovering(t) => s.token == Some(t) && s.key.Some? && s.key.value != [] && t in s.log.failed && s.shown.None?
  }

  /** The current observation is the one of these targets. What it found last is shown and, if more follows, is being read
      further, unless it failed, and then nothing is shown; or unless it was not wanted when it started. */
  ghost predicate WatchOk(s: State, targets: seq<Target>) {
    if targets == [] then s.token.None? && s.shown.None?
    else
      && s.token.Some?
      && var t := s.token.value;
         if t in s.log.failed then s.shown.None?
         else
           && t in s.log.live && s.log.live[t] == targets
           && (t !in s.log.skipped ==> s.shown == Some(t) && (t in s.log.more ==> t in s.consumers))
  }

  ghost predicate Inv(s: State) {
    && s.log.live.Keys <= Held(s.token, s.phase) && PhaseOk(s)
    && (s.token.Some? ==> s.token.value < s.nextToken) && (s.phase.Stopping? ==> s.phase.previous < s.nextToken)
    && (s.scheduled ==> s.phase.Idle?)
    && (s.log.begun && !s.scheduled && s.phase.Idle? ==> s.key == Some(Targets(s.listeners)))
    && (!s.log.begun ==> s.listeners == [] && s.phase.Idle? && !s.scheduled)
    && (s.key.None? ==> s.token.None?) && s.consumers <= s.log.more && s.consumers !! s.log.failed
    && (forall c | c in s.log.failed :: c < s.nextToken) && (forall c | c in s.log.skipped :: c < s.nextToken)
    && (forall c | c in s.log.more :: c < s.nextToken)
    && forall i | 0 <= i < |s.log.published| :: s.log.published[i].current == Some(s.log.published[i].source)
  }

  lemma StepKeeps(s: State, a: Action)
    requires Inv(s)
    ensures Inv(Step(s, a))
  {
    hide Inv, Reconcile, StopSettled, StartSettled, NextSettled, Subscribe, Unsubscribe;
    match a
    case Microtask => ReconcileKeeps(s);
    case StopEnded => StopKeeps(s);
    case StartEnded(ok, observing) => StartKeeps(s, ok, observing);
    case NextEnded(token, ok) => NextKeeps(s, token, ok);
    case _ => ListenersKeep(s, a);
  }

  lemma ListenersKeep(s: State, a: Action)
    requires Inv(s) && (a.Subscribed? || a.Unsubscribed?)
    ensures Inv(Step(s, a))
  {
    hide Targets, Without;
  }

  lemma ReconcileKeeps(s: State)
    requires Inv(s)
    ensures Inv(Reconcile(s))
  {
    hide Targets;
  }

  lemma StopKeeps(s: State)
    requires Inv(s)
    ensures Inv(StopSettled(s))
  {
    hide Targets;
  }

  lemma StartKeeps(s: State, ok: bool, observing: bool)
    requires Inv(s)
    ensures Inv(StartSettled(s, ok, observing))
  {
    hide Targets;
  }

  lemma NextKeeps(s: State, token: Token, ok: bool)
    requires Inv(s)
    ensures Inv(NextSettled(s, token, ok))
  {
    hide Targets;
  }

  lemma {:induction false} RunKeeps(actions: seq<Action>)
    ensures Inv(Run(INITIAL, actions))
  {
    if actions != [] {
      RunKeeps(actions[..|actions| - 1]);
      StepKeeps(Run(INITIAL, actions[..|actions| - 1]), actions[|actions| - 1]);
    }
  }

  /** Over every run: one reconciliation at a time, and at most one observation was started whose stop is not
      settled; what is shown is always of the one that is current then; and once anyone has subscribed, whenever nothing
      is scheduled or changing, what is watched is what is wanted now: the current observation was started for just that,
      what it found last is shown, and its changes are read. Nothing is shown if nothing is wanted, or it failed. */
  lemma {:induction false} ObservationConverges(actions: seq<Action>)
    ensures var s := Run(INITIAL, actions);
      && |s.log.live| <= 1
      && (s.scheduled ==> s.phase.Idle?)
      && (forall i | 0 <= i < |s.log.published| :: s.log.published[i].current == Some(s.log.published[i].source))
      && (s.log.begun && !s.scheduled && s.phase.Idle? ==>
            s.key == Some(Targets(s.listeners)) && WatchOk(s, Targets(s.listeners)))
  {
    RunKeeps(actions);
    var s := Run(INITIAL, actions);
    hide Run, Targets;
    var held := Held(s.token, s.phase);
    assert |held| <= 1;
    SubsetIsSmaller(s.log.live.Keys, held);
    assert |s.log.live| == |s.log.live.Keys|;
  }

  /** Over every run, an observation is skipped only if other targets were wanted when it had started. */
  lemma {:induction false} SkippedWasUnwanted(actions: seq<Action>, a: Action, t: Token)
    requires var s := Run(INITIAL, actions); t !in s.log.skipped && t in Step(s, a).log.skipped
    ensures var s := Run(INITIAL, actions);
      a.StartEnded? && a.ok && t in s.log.live && s.log.live[t] != Targets(s.listeners) && Step(s, a).scheduled
  {
    RunKeeps(actions);
    hide Run, Targets, Without;
  }

  /** Over every run: what a change read finds is shown, and another follows, exactly if its observation still is the
      current one and the read succeeded. Of an older one nothing is shown. */
  lemma {:induction false} ChangesAreShownWhen(actions: seq<Action>, t: Token, ok: bool)
    requires t in Run(INITIAL, actions).consumers
    ensures var s := Run(INITIAL, actions); var u := Step(s, NextEnded(t, ok));
      && (t in u.consumers <==> ok && s.token == Some(t))
      && u.log.published == (if ok && s.token == Some(t) then s.log.published + [Publication(t, Some(t))] else s.log.published)
      && (s.token != Some(t) ==> u == s.(consumers := s.consumers - {t}))
      && (s.token == Some(t) && !ok ==> u.shown.None?)
      && (s.phase.Idle? && s.token == Some(t) ==> t in s.log.live && Some(s.log.live[t]) == s.key)
  {
    RunKeeps(actions);
    hide Run, Targets;
  }

  // A run in which someone wants another project while the first is being started, and no longer does when the
  // reconciliation after that begins.
  const FIRST := Listener(1, Target(1, 1))
  const OTHER := Listener(2, Target(2, 1))
  const BACK: seq<Action> := [] + [Subscribed(FIRST)] + [Microtask] + [Subscribed(OTHER)] + [StartEnded(true, true)] + [Unsubscribed(2)] + [Microtask]

  lemma RunOneMore(actions: seq<Action>, a: Action)
    ensures Run(INITIAL, actions + [a]) == Step(Run(INITIAL, actions), a)
  {
    assert (actions + [a])[..|actions|] == actions;
  }

  const WATCHING := State([FIRST], Some([FIRST.target]), Some(0), Starting([FIRST.target], 0), false, {}, 1, None,
                          Log(map[0 := [FIRST.target]], [], true, {}, {}, {}))

  lemma FirstIsStarted()
    ensures Targets([FIRST]) == [FIRST.target]
    ensures Step(Step(INITIAL, Subscribed(FIRST)), Microtask) == WATCHING
  {
    assert [FIRST][..0] == [];
    assert Newest([FIRST]) == Insert([], FIRST.target);
    assert Without([], FIRST.id) == [] && Targets([FIRST]) == [FIRST.target];
    hide Targets, Without;
    var subscribed := Step(INITIAL, Subscribed(FIRST));
    assert subscribed == INITIAL.(listeners := [FIRST], scheduled := true, log := INITIAL.log.(begun := true));
    assert Reconcile(subscribed) == WATCHING;
  }

  lemma BothAreWanted()
    ensures Targets([FIRST, OTHER]) == [FIRST.target, OTHER.target]
  {
    assert [FIRST, OTHER][..1] == [FIRST] && [FIRST][..0] == [];
    assert Newest([FIRST]) == [FIRST.target] && Newest([FIRST, OTHER]) == Insert(Newest([FIRST]), OTHER.target);
    assert Insert([FIRST.target], OTHER.target) == [FIRST.target] + Insert([], OTHER.target) by {
      assert [FIRST.target][1..] == [];
    }
  }

  lemma OtherIsForgotten()
    ensures Without([FIRST], OTHER.id) == [FIRST] && Without([FIRST, OTHER], OTHER.id) == [FIRST]
  {
    assert [FIRST, OTHER][1..] == [OTHER] && [FIRST][1..] == [] && [OTHER][1..] == [];
  }

  const SKIPPED := WATCHING.(phase := Idle, log := WATCHING.log.(skipped := {0}))

  /** So an observation can go on for just what is wanted, and nothing of it is ever shown or read. */
  lemma SkippedIsNeverShown()
    ensures Run(INITIAL, BACK) == SKIPPED && Targets(SKIPPED.listeners) == SKIPPED.log.live[0] && SKIPPED.shown.None?
    ensures SKIPPED.consumers == {} && !SKIPPED.scheduled
  {
    FirstIsStarted();
    StartIsSkipped();
    var a: seq<Action> := [] + [Subscribed(FIRST)];
    var b := a + [Microtask];
    var c := b + [Subscribed(OTHER)];
    var d := c + [StartEnded(true, true)];
    var e := d + [Unsubscribed(2)];
    assert Run(INITIAL, []) == INITIAL;
    hide Run, Step, Targets;
    RunOneMore([], Subscribed(FIRST));
    RunOneMore(a, Microtask);
    RunOneMore(b, Subscribed(OTHER));
    RunOneMore(c, StartEnded(true, true));
    RunOneMore(d, Unsubscribed(2));
    RunOneMore(e, Microtask);
  }

  lemma StartIsSkipped()
    ensures Step(Step(Step(Step(WATCHING, Subscribed(OTHER)), StartEnded(true, true)), Unsubscribed(2)), Microtask) == SKIPPED
    ensures SKIPPED.consumers == {} && !SKIPPED.scheduled && SKIPPED.shown.None?
  {
    FirstIsStarted();
    BothAreWanted();
    OtherIsForgotten();
    var both := WATCHING.(listeners := [FIRST, OTHER]);
    hide Targets, Without;
    assert Subscribe(WATCHING, OTHER) == both;
    assert StartSettled(both, true, true) == both.(phase := Idle, scheduled := true, log := both.log.(skipped := {0}));
  }

  lemma {:induction false} SubsetIsSmaller(a: set<Token>, b: set<Token>)
    requires a <= b
    ensures |a| <= |b|
    decreases |a|
  {
    if x :| x in a {
      SubsetIsSmaller(a - {x}, b - {x});
    }
  }

  /** A new observation only starts when every earlier one has been stopped, and the stop is settled. */
  lemma {:induction false} StartsAlone(actions: seq<Action>, a: Action)
    requires Run(INITIAL, actions).nextToken < Run(INITIAL, actions + [a]).nextToken
    ensures Run(INITIAL, actions + [a]).log.live.Keys == {Run(INITIAL, actions).nextToken}
    ensures Run(INITIAL, actions + [a]).token == Some(Run(INITIAL, actions).nextToken)
  {
    RunKeeps(actions);
    assert (actions + [a])[..|actions|] == actions;
    hide Targets, Without;
  }

  lemma InsertSkips(sorted: seq<Target>, t: Target, at: nat)
    requires at < |sorted| && sorted[at].project < t.project
    ensures sorted[..at] + Insert(sorted[at..], t) == sorted[..at + 1] + Insert(sorted[at + 1..], t)
  {
    assert sorted[at..][1..] == sorted[at + 1..];
    assert Insert(sorted[at..], t) == [sorted[at]] + Insert(sorted[at + 1..], t);
    assert sorted[..at + 1] == sorted[..at] + [sorted[at]];
  }

  // ---------------------------------------------------------------------------------------------
  // The observation
  // ---------------------------------------------------------------------------------------------

  /** One outstanding native change read for everyone. Each method is a synchronous section, and does to the
      observation what the step of the same section does to its value. */
  class UnityWindowObservation {
    var listeners: seq<Listener>
    var key: Option<seq<Target>>
    var token: Option<Token>
    var phase: Phase
    var scheduled: bool
    var consumers: set<Token>
    var nextToken: nat
    var shown: Option<Token>
    ghost var log: Log

    ghost function Snapshot(): State
      reads this
    { State(listeners, key, token, phase, scheduled, consumers, nextToken, shown, log) }

    ghost predicate Valid()
      reads this
    { Inv(Snapshot()) }

    constructor ()
      ensures Valid() && Snapshot() == INITIAL
    {
      listeners, key, token, phase, scheduled := [], None, None, Idle, false;
      consumers, nextToken, shown, log := {}, 0, None, Log(map[], [], false, {}, {}, {});
      new;
      RunKeeps([]);
    }

    /** What everyone wants watched. */
    method WantedTargets() returns (targets: seq<Target>)
      ensures targets == Targets(listeners)
    {
      targets := [];
      assert listeners[..0] == [];
      for i := 0 to |listeners|
        invariant targets == Newest(listeners[..i])
      {
        assert listeners[..i + 1][..i] == listeners[..i];
        if listeners[i].target.revision > 0 {
          targets := Place(targets, listeners[i].target);
        }
      }
      assert listeners[..|listeners|] == listeners;
      if |targets| > TARGET_LIMIT {
        targets := targets[..TARGET_LIMIT];
      }
    }

    method Place(sorted: seq<Target>, t: Target) returns (placed: seq<Target>)
      ensures placed == Insert(sorted, t)
    {
      var at := 0;
      while at < |sorted| && sorted[at].project < t.project
        invariant at <= |sorted| && Insert(sorted, t) == sorted[..at] + Insert(sorted[at..], t)
      {
        InsertSkips(sorted, t, at);
        at := at + 1;
      }
      ghost var rest := sorted[at..];
      if at == |sorted| || t.project < sorted[at].project {
        assert Insert(rest, t) == [t] + rest;
        placed := sorted[..at] + ([t] + sorted[at..]);
      } else if sorted[at].revision < t.revision {
        assert Insert(rest, t) == [t] + rest[1..] && rest[1..] == sorted[at + 1..];
        placed := sorted[..at] + ([t] + sorted[at + 1..]);
      } else {
        assert Insert(rest, t) == rest && sorted[..at] + rest == sorted;
        placed := sorted;
      }
    }

    method ScheduleOnce()
      modifies `scheduled, `log
      ensures Snapshot() == Schedule(old(Snapshot()))
    {
      if scheduled || !phase.Idle? {
        return;
      }
      scheduled := true;
      log := log.(begun := true);
    }

    method Forget(id: ListenerId)
      modifies `listeners
      ensures listeners == Without(old(listeners), id)
    {
      var left := [];
      for i := 0 to |listeners|
        invariant listeners == old(listeners) && Without(listeners, id) == left + Without(listeners[i..], id)
      {
        assert listeners[i..][1..] == listeners[i + 1..];
        if listeners[i].id != id {
          left := left + [listeners[i]];
        }
      }
      listeners := left;
    }

    method Listen(l: Listener)
      requires Valid()
      modifies `listeners, `scheduled, `log
      ensures Valid() && Snapshot() == Step(old(Snapshot()), Subscribed(l))
    {
      hide Inv, Without;
      StepKeeps(Snapshot(), Subscribed(l));
      Forget(l.id);
      listeners := listeners + [l];
      ScheduleOnce();
    }

    method StopListening(id: ListenerId)
      requires Valid()
      modifies `listeners, `scheduled, `log
      ensures Valid() && Snapshot() == Step(old(Snapshot()), Unsubscribed(id))
    {
      hide Inv, Without;
      StepKeeps(Snapshot(), Unsubscribed(id));
      Forget(id);
      ScheduleOnce();
    }

    method Show(source: Token)
      modifies `shown, `log
      ensures Snapshot() == Publish(old(Snapshot()), source)
    {
      shown := Some(source);
      log := log.(published := log.published + [Publication(source, token)]);
    }

    method ShowNothing()
      modifies `shown
      ensures shown == None
    {
      shown := None;
    }

    method BeginObserving(targets: seq<Target>)
      modifies this
      ensures Snapshot() == StartObserving(old(Snapshot()), targets)
    {
      if targets == [] {
        ShowNothing();
        Finish();
        return;
      }
      token, phase := Some(nextToken), Starting(targets, nextToken);
      log := log.(live := log.live[nextToken := targets]);
      nextToken := nextToken + 1;
    }

    method Finish()
      modifies `phase, `scheduled, `log
      ensures Snapshot() == End(old(Snapshot()))
    {
      hide Targets;
      phase := Idle;
      var targets := WantedTargets();
      if key != Some(targets) {
        ScheduleOnce();
      }
    }

    method RunMicrotask()
      requires Valid()
      modifies this
      ensures Valid() && Snapshot() == Step(old(Snapshot()), Microtask)
    {
      hide Inv, Targets;
      StepKeeps(Snapshot(), Microtask);
      if !scheduled {
        return;
      }
      scheduled := false;
      var targets := WantedTargets();
      if key == Some(targets) {
        return;
      }
      key := Some(targets);
      if token.Some? {
        phase, token := Stopping(targets, token.value), None;
      } else {
        BeginObserving(targets);
      }
    }

    method StopIsSettled()
      requires Valid()
      modifies this
      ensures Valid() && Snapshot() == Step(old(Snapshot()), StopEnded)
    {
      hide Inv, Targets;
      StepKeeps(Snapshot(), StopEnded);
      match phase
      case Stopping(targets, previous) =>
        log := log.(live := log.live - {previous});
        BeginObserving(targets);
      case Recovering(t) =>
        log := log.(live := log.live - {t});
        Finish();
      case _ =>
    }

    method StartIsSettled(ok: bool, observing: bool)
      requires Valid()
      modifies this
      ensures Valid() && Snapshot() == Step(old(Snapshot()), StartEnded(ok, observing))
    {
      hide Inv, Targets;
      StepKeeps(Snapshot(), StartEnded(ok, observing));
      match phase
      case Starting(targets, t) =>
        if !ok {
          ShowNothing();
          log := log.(failed := log.failed + {t});
          phase := Recovering(t);
          return;
        }
        var now := WantedTargets();
        if targets == now {
          Show(t);
          if observing {
            consumers := consumers + {t};
            log := log.(more := log.more + {t});
          }
        } else {
          log := log.(skipped := log.skipped + {t});
        }
        Finish();
      case _ =>
    }

    method NextIsSettled(t: Token, ok: bool)
      requires Valid()
      modifies `consumers, `shown, `log
      ensures Valid() && Snapshot() == Step(old(Snapshot()), NextEnded(t, ok))
    {
      hide Inv;
      StepKeeps(Snapshot(), NextEnded(t, ok));
      if t !in consumers {
        return;
      }
      if token == Some(t) && ok {
        Show(t);
        return;
      }
      consumers := consumers - {t};
      if token == Some(t) {
        ShowNothing();
        log := log.(failed := log.failed + {t});
      }
    }
  }
}
