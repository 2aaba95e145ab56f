/** How the GUI's event coordinator takes in the daemon's events: one subscription at a time, batches in order,
    each acknowledged, and a cursor to resume from after the connection was lost. */
module EventIngest {
  import opened EventScopes
  import opened Wrappers

  const SAFE_INTEGER := 9_007_199_254_740_991
  const FIRST_DELAY := 250
  const LONGEST_DELAY := 30_000

  type InstanceId = nat
  type SubscriptionId = nat
  type AckId = nat

  datatype Cursor = Cursor(instance: InstanceId, sequence: int, revision: int)

  /** `wellFormed` stands for the checks of an event's identifiers, kinds and revision. */
  datatype Event = Event(sequence: int, wellFormed: bool)

  datatype Batch = Batch(subscription: SubscriptionId, instance: InstanceId, id: int, events: seq<Event>,
                         scopes: seq<Scope>, next: Cursor)

  datatype Message =
    | ReadyMessage(subscription: SubscriptionId, instance: InstanceId, wellFormed: bool, resyncRequired: bool, baseline: Cursor)
    | BatchMessage(batch: Batch)
    | ClosedMessage(subscription: SubscriptionId, instance: InstanceId, fault: Fault)
    | ErrorMessage(fault: Fault)
    | UnknownMessage

  /** Why a connection is given up: whether to try again, and whether the consumer was too slow. */
  datatype Fault = Fault(retryable: bool, timedOut: bool)

  const PROTOCOL_FAULT := Fault(false, false)

  /** The latest attempt to connect: its predecessor is being closed, it is being opened, or it is open. */
  datatype Attempt = NoAttempt | Closing(generation: nat) | Opening(generation: nat) | Open(generation: nat)

  datatype Phase = Trying | Live | Lost | Broken

  datatype Session = Session(active: bool, generation: nat, attempt: Attempt, phase: Phase, timer: bool, delay: int)

  datatype Feed = Feed(subscription: Option<SubscriptionId>, instance: Option<InstanceId>, receivedBatch: nat,
                       sequence: int, revision: int)

  /** An acknowledgement under way; only that of a new batch moves the cursor. */
  datatype Ack = Ack(generation: nat, cursor: Cursor)

  datatype Applied = Applied(generation: nat, instance: InstanceId, sequence: int)

  /** What was applied, invalidated and acknowledged, what was asked for, where each subscription began, and where everything
      was read anew; every acknowledgement of a new batch so far, and those that moved the cursor, as they ended. */
  datatype Log = Log(applied: seq<Applied>, invalidated: seq<Scope>, acknowledged: seq<int>, requests: map<nat, Option<Cursor>>,
                     bases: map<nat, Cursor>, resyncs: seq<Cursor>, issued: seq<Ack>, moves: seq<AckId>)

  /** `repeated` are the connections under which a batch came again before their opening had ended. */
  datatype State = State(session: Session, feed: Feed, accepted: Option<Cursor>, acks: map<AckId, Ack>, nextAck: nat,
                         repeated: set<nat>, log: Log)

  // ---------------------------------------------------------------------------------------------
  // Checks
  // ---------------------------------------------------------------------------------------------

  predicate SafeInteger(n: int) { -SAFE_INTEGER <= n <= SAFE_INTEGER }

  predicate ReadyIsSound(m: Message)
    requires m.ReadyMessage?
  {
    && m.wellFormed && m.baseline.instance == m.instance
    && SafeInteger(m.baseline.sequence) && m.baseline.sequence >= 0
    && SafeInteger(m.baseline.revision) && m.baseline.revision >= 0
  }

  /** The batch received last is delivered again. */
  predicate IsRepeated(feed: Feed, b: Batch) {
    && feed.subscription == Some(b.subscription) && feed.instance == Some(b.instance)
    && b.id == feed.receivedBatch && b.next.sequence == feed.sequence && b.next.revision == feed.revision
  }

  predicate IsNext(feed: Feed, b: Batch) {
    && feed.subscription == Some(b.subscription) && feed.instance == Some(b.instance) && b.id == feed.receivedBatch + 1
    && (b.events != [] || b.scopes != []) && b.instance == b.next.instance && b.next.sequence >= feed.sequence
  }

  predicate ScopesAreSound(feed: Feed, b: Batch) {
    && SafeInteger(b.next.revision)
    && (if b.scopes != [] then b.next.revision > feed.revision else b.next.revision == feed.revision)
    && |b.scopes| <= 2 && (|b.scopes| == 2 ==> b.scopes[0] != b.scopes[1])
    && forall scope | scope in b.scopes :: scope.Extensions? || scope.OperationLog?
  }

  predicate EventIsSound(e: Event, last: int) { SafeInteger(e.sequence) && e.sequence > last && e.wellFormed }

  /** Each event is sound and newer than the one before it. */
  predicate EventsAreSound(events: seq<Event>, last: int) {
    events == [] || (EventIsSound(events[0], last) && EventsAreSound(events[1..], events[0].sequence))
  }

  function LastSequence(events: seq<Event>, last: int): int {
    if events == [] then last else events[|events| - 1].sequence
  }

  predicate IsSound(feed: Feed, b: Batch) {
    && IsNext(feed, b) && ScopesAreSound(feed, b) && EventsAreSound(b.events, feed.sequence)
    && LastSequence(b.events, feed.sequence) == b.next.sequence
  }

  // ---------------------------------------------------------------------------------------------
  // Steps
  // ---------------------------------------------------------------------------------------------

  function Connect(s: State): State {
    if !s.session.active then s
    else
      var generation := s.session.generation + 1;
      s.(session := s.session.(generation := generation, attempt := Closing(generation)))
  }

  /** The connection before is closed: the new one asks to resume after the accepted cursor. */
  function Subscribe(s: State, generation: nat): State {
    if !s.session.active || generation != s.session.generation || s.session.attempt != Closing(generation) then s
    else
      s.(session := s.session.(attempt := Opening(generation), phase := if s.accepted.None? then Trying else Lost),
         feed := Feed(None, None, 0, s.feed.sequence, s.feed.revision),
         log := s.log.(requests := s.log.requests[generation := s.accepted]))
  }

  /** The connection is given up, and tried again later if that can help. A consumer that was too slow starts
      over without a cursor. */
  function Fail(s: State, fault: Fault): State {
    s.(accepted := if fault.timedOut then None else s.accepted,
       session := Session(s.session.active, s.session.generation + 1, NoAttempt,
                          if fault.retryable then Lost else Broken,
                          fault.retryable && s.session.active,
                          if fault.retryable && s.session.active then
                            if s.session.delay * 2 < LONGEST_DELAY then s.session.delay * 2 else LONGEST_DELAY
                          else s.session.delay))
  }

  function Opened(s: State, generation: nat, fault: Option<Fault>): State {
    if !s.session.active || generation != s.session.generation || s.session.attempt != Opening(generation) then s
    else if fault.None? then s.(session := s.session.(attempt := Open(generation)))
    else Fail(s, fault.value)
  }

  function BecomeReady(s: State, m: Message): State
    requires m.ReadyMessage?
  {
    if s.feed.subscription.Some? then Fail(s, PROTOCOL_FAULT)
    else
      var t := s.(feed := s.feed.(subscription := Some(m.subscription), instance := Some(m.instance)));
      if !ReadyIsSound(m) then Fail(t, PROTOCOL_FAULT)
      else
        t.(feed := t.feed.(sequence := m.baseline.sequence, revision := m.baseline.revision),
           accepted := if m.resyncRequired then Some(m.baseline) else t.accepted,
           session := t.session.(phase := Live, delay := FIRST_DELAY),
           log := t.log.(bases := t.log.bases[t.session.generation := m.baseline],
                         resyncs := if m.resyncRequired then t.log.resyncs + [m.baseline] else t.log.resyncs))
  }

  function ApplyAll(generation: nat, b: Batch): seq<Applied> {
    seq(|b.events|, i requires 0 <= i < |b.events| => Applied(generation, b.instance, b.events[i].sequence))
  }

  function TakeBatch(s: State, b: Batch): State {
    if IsRepeated(s.feed, b) then
      s.(repeated := if s.session.attempt.Opening? then s.repeated + {s.session.generation} else s.repeated,
         log := s.log.(acknowledged := s.log.acknowledged + [b.id]))
    else if !IsSound(s.feed, b) then Fail(s, PROTOCOL_FAULT)
    else
      s.(feed := s.feed.(receivedBatch := s.feed.receivedBatch + 1, sequence := b.next.sequence, revision := b.next.revision),
         acks := s.acks[s.nextAck := Ack(s.session.generation, b.next)], nextAck := s.nextAck + 1,
         log := s.log.(applied := s.log.applied + ApplyAll(s.session.generation, b), invalidated := s.log.invalidated + b.scopes,
                      acknowledged := s.log.acknowledged + [b.id],
                      issued := s.log.issued + [Ack(s.session.generation, b.next)]))
  }

  function Receive(s: State, generation: nat, mine: bool, m: Message): State {
    if !s.session.active || !mine || generation != s.session.generation then s
    else
      match m
      case ErrorMessage(fault) => Fail(s, fault)
      case ClosedMessage(subscription, instance, fault) =>
        if s.feed.subscription != Some(subscription) || s.feed.instance != Some(instance) then Fail(s, PROTOCOL_FAULT)
        else Fail(s, fault)
      case ReadyMessage(_, _, _, _, _) => BecomeReady(s, m)
      case BatchMessage(b) => TakeBatch(s, b)
      case UnknownMessage => Fail(s, PROTOCOL_FAULT)
  }

  /** An acknowledgement is sent when its connection is open, so until then it cannot succeed. */
  predicate CanEnd(s: State, ack: AckId, fault: Option<Fault>) {
    ack in s.acks && (fault.None? ==> s.session.attempt != Opening(s.acks[ack].generation))
  }

  /** An acknowledgement succeeds or fails. It only counts under the connection its batch came by. */
  function EndAck(s: State, ack: AckId, fault: Option<Fault>): State {
    if !CanEnd(s, ack, fault) then s
    else
      var t := s.(acks := s.acks - {ack});
      if !s.session.active || s.acks[ack].generation != s.session.generation then t
      else if fault.None? then t.(accepted := Some(s.acks[ack].cursor), log := t.log.(moves := t.log.moves + [ack]))
      else Fail(t, fault.value)
  }

  /** The opening of a connection ended, which is what a repeated batch waits for. */
  function Awaited(s: State, generation: nat, fault: Option<Fault>): State {
    if fault.None? then s.(repeated := s.repeated - {generation}) else s
  }

  /** A repeated batch learns that its connection could not be opened, and gives up whatever connection there is now. */
  function RejectRepeated(s: State, generation: nat): State {
    if generation in s.repeated then Fail(s.(repeated := s.repeated - {generation}), PROTOCOL_FAULT) else s
  }

  datatype Action =
    | Started
    | RetryCalled
    | TimerFired
    | PriorClosed(generation: nat)
    | SubscribeEnded(generation: nat, fault: Option<Fault>)
    | Received(generation: nat, mine: bool, message: Message)
    | AckEnded(ack: AckId, fault: Option<Fault>)
    | OpeningRejected(generation: nat)
    | Stopped

  function Step(s: State, a: Action): State {
    match a
    case Started => if s.session.active then s else Connect(s.(session := s.session.(active := true)))
    case RetryCalled => if s.session.active then Connect(s.(session := s.session.(timer := false, delay := FIRST_DELAY))) else s
    case TimerFired => if s.session.timer then Connect(s.(session := s.session.(timer := false))) else s
    case PriorClosed(generation) => Subscribe(s, generation)
    case SubscribeEnded(generation, fault) => Awaited(Opened(s, generation, fault), generation, fault)
    // Messages come to the callback of a request, so there are none before it.
    case Received(generation, mine, m) => if generation in s.log.requests then Receive(s, generation, mine, m) else s
    case AckEnded(ack, fault) => EndAck(s, ack, fault)
    case OpeningRejected(generation) => RejectRepeated(s, generation)
    case Stopped =>
      if s.session.active
      then s.(session := Session(false, s.session.generation + 1, NoAttempt, s.session.phase, false, s.session.delay)) else s
  }

  function Run(s: State, actions: seq<Action>): State {
    if actions == [] then s else Step(Run(s, actions[..|actions| - 1]), actions[|actions| - 1])
  }

  const INITIAL := State(Session(false, 0, NoAttempt, Trying, false, FIRST_DELAY), Feed(None, None, 0, 0, 0), None, map[], 0, {},
                         Log([], [], [], map[], map[], [], [], []))

  // ---------------------------------------------------------------------------------------------
  // What a batch does
  // ---------------------------------------------------------------------------------------------

  /** The check of the events says what it should: they are sound, strictly increasing, and all newer. */
  lemma {:induction false} SoundEventsIncrease(events: seq<Event>, last: int)
    ensures EventsAreSound(events, last) <==>
      && (forall i | 0 <= i < |events| :: SafeInteger(events[i].sequence) && events[i].wellFormed && last < events[i].sequence)
      && (forall i, j | 0 <= i < j < |events| :: events[i].sequence < events[j].sequence)
  {
    if events != [] {
      SoundEventsIncrease(events[1..], events[0].sequence);
      assert forall i | 0 < i < |events| :: events[i] == events[1..][i - 1];
      if && (forall i | 0 <= i < |events| :: SafeInteger(events[i].sequence) && events[i].wellFormed && last < events[i].sequence)
         && (forall i, j | 0 <= i < j < |events| :: events[i].sequence < events[j].sequence) {
        forall i | 0 <= i < |events[1..]|
          ensures events[0].sequence < events[1..][i].sequence
        {
          assert events[1..][i] == events[i + 1];
        }
        forall i, j | 0 <= i < j < |events[1..]|
          ensures events[1..][i].sequence < events[1..][j].sequence
        {
          assert events[1..][i] == events[i + 1] && events[1..][j] == events[j + 1];
        }
      }
    }
  }

  /** All or nothing: a message applies no event, or it is a sound batch, applies all of its events in order,
      once, invalidates all of its scopes, and moves the position past exactly them; the revision of the
      resources moves exactly when a scope is invalidated. */
  lemma BatchesAreAllOrNothing(s: State, generation: nat, mine: bool, m: Message)
    ensures var t := Receive(s, generation, mine, m);
      t.log.applied != s.log.applied || t.log.invalidated != s.log.invalidated || t.feed.receivedBatch != s.feed.receivedBatch ==>
        && m.BatchMessage? && mine && s.session.active && generation == s.session.generation && IsSound(s.feed, m.batch)
        && t.log.applied == s.log.applied + ApplyAll(generation, m.batch) && t.log.invalidated == s.log.invalidated + m.batch.scopes
        && s.feed.revision <= t.feed.revision == m.batch.next.revision && (s.feed.revision < t.feed.revision <==> m.batch.scopes != [])
        && t.feed.sequence == m.batch.next.sequence && t.feed.receivedBatch == m.batch.id == s.feed.receivedBatch + 1
        && (forall i | |s.log.applied| <= i < |t.log.applied| :: s.feed.sequence < t.log.applied[i].sequence <= t.feed.sequence)
        && (forall i, j | |s.log.applied| <= i < j < |t.log.applied| :: t.log.applied[i].sequence < t.log.applied[j].sequence)
  {
    if m.BatchMessage? {
      SoundEventsIncrease(m.batch.events, s.feed.sequence);
    }
  }

  /** The last batch, delivered again, is only acknowledged again. If its connection is still being opened, its failure
      to open is heard of twice. */
  lemma RepeatedBatchIsOnlyAcknowledged(s: State, generation: nat, m: Message)
    requires s.session.active && generation == s.session.generation && m.BatchMessage? && IsRepeated(s.feed, m.batch)
    ensures var t := Receive(s, generation, true, m);
      && t == s.(repeated := t.repeated, log := s.log.(acknowledged := s.log.acknowledged + [s.feed.receivedBatch]))
      && t.repeated == if s.session.attempt.Opening? then s.repeated + {generation} else s.repeated
  {}

  /** What belongs to an older connection, or arrives after the coordinator stopped, changes nothing at all. */
  lemma LateMessagesChangeNothing(s: State, generation: nat, mine: bool, m: Message)
    requires !s.session.active || !mine || generation != s.session.generation
    ensures Receive(s, generation, mine, m) == s
  {}

  /** The connection an action comes by, if it comes by one. */
  function Origin(s: State, a: Action): Option<nat> {
    match a
    case PriorClosed(generation) => Some(generation)
    case SubscribeEnded(generation, _) => Some(generation)
    case Received(generation, _, _) => Some(generation)
    case AckEnded(ack, _) => if ack in s.acks then Some(s.acks[ack].generation) else None
    case OpeningRejected(generation) => Some(generation)
    case _ => None
  }

  /** What comes by an older connection leaves the connection there is now, its position and the cursor as they are,
      except, and always then, when the older one had a repeated batch waiting for it to open and did not open. */
  lemma OlderConnectionsAreHarmless(s: State, a: Action)
    requires Origin(s, a).Some? && Origin(s, a).value != s.session.generation
    ensures Step(s, a).session == s.session <==> !(a.OpeningRejected? && a.generation in s.repeated)
    ensures Step(s, a).feed == s.feed && Step(s, a).accepted == s.accepted && Step(s, a).log == s.log
  {}

  // ---------------------------------------------------------------------------------------------
  // Every step keeps the invariant
  // ---------------------------------------------------------------------------------------------

  /** What one connection applied, it applied once each, in order. */
  ghost predicate InOrder(applied: seq<Applied>) {
    forall i, j | 0 <= i < j < |applied| :: applied[i].generation == applied[j].generation ==> applied[i].sequence < applied[j].sequence
  }

  ghost predicate Subscribed(session: Session, feed: Feed, requests: map<nat, Option<Cursor>>) {
    session.generation in requests && feed.subscription.Some?
  }

  /** What was applied lies after the beginning of its subscription, and not after its position. */
  ghost predicate Placed(entry: Applied, session: Session, feed: Feed, log: Log) {
    && entry.generation <= session.generation && entry.generation in log.requests
    && entry.generation in log.bases && log.bases[entry.generation].sequence < entry.sequence
    && (entry.generation == session.generation ==> feed.subscription.Some? && entry.sequence <= feed.sequence)
  }

  ghost predicate SessionOk(session: Session, feed: Feed, log: Log) {
    && (forall g | g in log.requests :: g <= session.generation)
    && (session.attempt.Closing? ==> session.attempt.generation == session.generation && session.generation !in log.requests)
    && (session.attempt.Opening? || session.attempt.Open? ==> session.attempt.generation == session.generation)
    && (session.active && session.generation in log.requests ==> session.attempt.Opening? || session.attempt.Open?)
    && (session.generation in log.requests && feed.subscription.None? ==> feed.receivedBatch == 0)
    && (Subscribed(session, feed, log.requests) ==>
          session.generation in log.bases && feed.instance.Some? && log.bases[session.generation].sequence <= feed.sequence)
  }

  /** While active, the connection is tried, or will be, or cannot be helped. */
  ghost predicate RetryOk(session: Session) {
    && FIRST_DELAY <= session.delay <= LONGEST_DELAY
    && (session.timer ==> session.active)
    && (session.active ==> session.phase.Broken? || session.timer || !session.attempt.NoAttempt?)
  }

  ghost predicate Inv(s: State) {
    && InOrder(s.log.applied)
    && (forall i | 0 <= i < |s.log.applied| :: Placed(s.log.applied[i], s.session, s.feed, s.log))
    && SessionOk(s.session, s.feed, s.log) && RetryOk(s.session)
  }

  lemma FailKeeps(s: State, feed: Feed, fault: Fault)
    requires Inv(s)
    ensures Inv(Fail(s.(feed := feed), fault))
  {
    forall i | 0 <= i < |s.log.applied|
      ensures Placed(s.log.applied[i], Fail(s, fault).session, feed, s.log)
    {
      assert Placed(s.log.applied[i], s.session, s.feed, s.log);
    }
  }

  lemma ConnectKeeps(s: State)
    requires Inv(s)
    ensures Inv(Connect(s))
  {
    forall i | 0 <= i < |s.log.applied|
      ensures Placed(s.log.applied[i], Connect(s).session, s.feed, s.log)
    {
      assert Placed(s.log.applied[i], s.session, s.feed, s.log);
    }
  }

  lemma SubscribeKeeps(s: State, generation: nat)
    requires Inv(s)
    ensures Inv(Subscribe(s, generation))
  {
    var t := Subscribe(s, generation);
    forall i | 0 <= i < |s.log.applied|
      ensures Placed(s.log.applied[i], t.session, t.feed, t.log)
    {
      assert Placed(s.log.applied[i], s.session, s.feed, s.log);
    }
  }

  lemma ReadyKeeps(s: State, m: Message)
    requires Inv(s) && s.session.active && s.session.generation in s.log.requests && m.ReadyMessage?
    ensures Inv(BecomeReady(s, m))
  {
    var t := BecomeReady(s, m);
    FailKeeps(s, s.feed, PROTOCOL_FAULT);
    FailKeeps(s, s.feed.(subscription := Some(m.subscription), instance := Some(m.instance)), PROTOCOL_FAULT);
    if s.feed.subscription.None? && ReadyIsSound(m) {
      forall i | 0 <= i < |s.log.applied|
        ensures Placed(s.log.applied[i], t.session, t.feed, t.log)
      {
        assert Placed(s.log.applied[i], s.session, s.feed, s.log);
      }
    }
  }

  lemma BatchKeeps(s: State, b: Batch)
    requires Inv(s) && s.session.generation in s.log.requests
    ensures Inv(TakeBatch(s, b))
  {
    var t := TakeBatch(s, b);
    if IsSound(s.feed, b) && !IsRepeated(s.feed, b) {
      SoundEventsIncrease(b.events, s.feed.sequence);
      hide EventsAreSound, IsSound, ScopesAreSound;
      forall i | 0 <= i < |t.log.applied|
        ensures Placed(t.log.applied[i], t.session, t.feed, t.log)
      {
        if i < |s.log.applied| {
          assert Placed(s.log.applied[i], s.session, s.feed, s.log);
        }
      }
      forall i, j | 0 <= i < j < |t.log.applied| && t.log.applied[i].generation == t.log.applied[j].generation
        ensures t.log.applied[i].sequence < t.log.applied[j].sequence
      {
        if i < |s.log.applied| <= j {
          assert Placed(s.log.applied[i], s.session, s.feed, s.log);
        }
      }
    } else {
      FailKeeps(s, s.feed, PROTOCOL_FAULT);
    }
  }

  lemma ReceiveKeeps(s: State, generation: nat, mine: bool, m: Message)
    requires Inv(s) && generation in s.log.requests
    ensures Inv(Receive(s, generation, mine, m))
  {
    hide Inv, Fail, BecomeReady, TakeBatch;
    FailKeeps(s, s.feed, PROTOCOL_FAULT);
    assert s.(feed := s.feed) == s;
    if s.session.active && mine && generation == s.session.generation {
      match m
      case ErrorMessage(fault) => FailKeeps(s, s.feed, fault);
      case ClosedMessage(_, _, fault) => FailKeeps(s, s.feed, fault);
      case ReadyMessage(_, _, _, _, _) => ReadyKeeps(s, m);
      case BatchMessage(b) => BatchKeeps(s, b);
      case UnknownMessage =>
    }
  }

  lemma EndAckKeeps(s: State, ack: AckId, fault: Option<Fault>)
    requires Inv(s)
    ensures Inv(EndAck(s, ack, fault))
  {
    var t := s.(acks := s.acks - {ack});
    if fault.Some? {
      FailKeeps(t, t.feed, fault.value);
    }
  }

  lemma RejectionKeeps(s: State, generation: nat)
    requires Inv(s)
    ensures Inv(RejectRepeated(s, generation))
  {
    var t := s.(repeated := s.repeated - {generation});
    FailKeeps(t, t.feed, PROTOCOL_FAULT);
  }

  lemma OpenedKeeps(s: State, generation: nat, fault: Option<Fault>)
    requires Inv(s)
    ensures Inv(Awaited(Opened(s, generation, fault), generation, fault))
  {
    if fault.Some? {
      FailKeeps(s, s.feed, fault.value);
    } else {
      forall i | 0 <= i < |s.log.applied|
        ensures Placed(s.log.applied[i], Opened(s, generation, fault).session, s.feed, s.log)
      {
        assert Placed(s.log.applied[i], s.session, s.feed, s.log);
      }
    }
  }

  /** Starting, stopping and retrying only concern the session. */
  lemma SessionStepKeeps(s: State, a: Action)
    requires Inv(s) && (a.Started? || a.RetryCalled? || a.TimerFired? || a.Stopped?)
    ensures Inv(Step(s, a))
  {
    var t := Step(s, a);
    forall i | 0 <= i < |s.log.applied|
      ensures Placed(s.log.applied[i], t.session, t.feed, t.log)
    {
      assert Placed(s.log.applied[i], s.session, s.feed, s.log);
    }
  }

  lemma StepKeeps(s: State, a: Action)
    requires Inv(s)
    ensures Inv(Step(s, a))
  {
    hide Inv, Connect, Subscribe, Opened, Awaited, Receive, EndAck, RejectRepeated;
    match a
    case PriorClosed(generation) => SubscribeKeeps(s, generation);
    case SubscribeEnded(generation, fault) => OpenedKeeps(s, generation, fault);
    case Received(generation, mine, m) =>
      if generation in s.log.requests {
        ReceiveKeeps(s, generation, mine, m);
      }
    case AckEnded(ack, fault) => EndAckKeeps(s, ack, fault);
    case OpeningRejected(generation) => RejectionKeeps(s, generation);
    case _ => SessionStepKeeps(s, a);
  }

  lemma {:induction false} RunKeeps(actions: seq<Action>)
    ensures Inv(Run(INITIAL, actions))
  {
    if actions != [] {
      RunKeeps(actions[..|actions| - 1]);
      StepKeeps(Run(INITIAL, actions[..|actions| - 1]), actions[|actions| - 1]);
    }
  }

  /** Over every run and whatever the daemon sends: what one connection applies it applies once each, in strictly
      increasing order, after the baseline its subscription began at. */
  lemma {:induction false} EventsAreAppliedOnce(actions: seq<Action>, i: nat, j: nat)
    requires i < |Run(INITIAL, actions).log.applied| && j < |Run(INITIAL, actions).log.applied|
    ensures var log := Run(INITIAL, actions).log;
      && log.applied[i].generation in log.bases
      && log.bases[log.applied[i].generation].sequence < log.applied[i].sequence
      && (log.applied[i].generation == log.applied[j].generation ==>
            (i < j <==> log.applied[i].sequence < log.applied[j].sequence))
  {
    RunKeeps(actions);
    var s := Run(INITIAL, actions);
    hide Run, SessionOk, RetryOk;
    assert Placed(s.log.applied[i], s.session, s.feed, s.log);
  }

  /** Over every run: while the coordinator is active, the connection is open or being opened, or a timer will
      try again within half a minute, or the failure was one that trying again cannot help. */
  lemma {:induction false} ConnectionIsNeverForgotten(actions: seq<Action>)
    requires Run(INITIAL, actions).session.active
    ensures var session := Run(INITIAL, actions).session;
      && FIRST_DELAY <= session.delay <= LONGEST_DELAY
      && (session.phase.Broken? || session.timer || (!session.attempt.NoAttempt? && session.attempt.generation == session.generation))
  {
    RunKeeps(actions);
  }

  // ---------------------------------------------------------------------------------------------
  // When the cursor goes back
  // ---------------------------------------------------------------------------------------------

  /** An earlier position of the same daemon's events and resources. */
  ghost predicate Lower(c: Cursor, d: Cursor) {
    c.instance == d.instance && (c.sequence < d.sequence || (c.sequence == d.sequence && c.revision < d.revision))
  }

  ghost predicate Reached(c: Cursor, feed: Feed) {
    feed.instance == Some(c.instance) && c.sequence <= feed.sequence && c.revision <= feed.revision
  }

  /** An acknowledgement of the present connection is of a batch after its baseline, up to its position. */
  ghost predicate IssuedAt(ack: Ack, session: Session, feed: Feed, log: Log) {
    && ack.generation <= session.generation
    && (ack.generation == session.generation ==>
          && Subscribed(session, feed, log.requests) && ack.generation in log.bases
          && Lower(log.bases[ack.generation], ack.cursor) && Reached(ack.cursor, feed))
  }

  /** The batches of one connection move both parts of the position forward, and at least one of them. */
  ghost predicate Ascending(issued: seq<Ack>) {
    forall i, j | 0 <= i < j < |issued| && issued[i].generation == issued[j].generation :: Lower(issued[i].cursor, issued[j].cursor)
  }

  ghost predicate IssuedOk(session: Session, feed: Feed, log: Log) {
    && Ascending(log.issued)
    && (forall i | 0 <= i < |log.issued| :: IssuedAt(log.issued[i], session, feed, log))
    && (Subscribed(session, feed, log.requests) ==> session.generation in log.bases && Reached(log.bases[session.generation], feed))
  }

  /** The cursor is where the last successful acknowledgement of this connection put it. Before there was one it is
      the cursor the connection was asked for with, or its baseline. */
  ghost predicate AcceptedOk(session: Session, feed: Feed, accepted: Option<Cursor>, log: Log) {
    && (forall n | 0 <= n < |log.moves| :: log.moves[n] < |log.issued|)
    && (forall n, m | 0 <= n < m < |log.moves| :: log.issued[log.moves[n]].generation <= log.issued[log.moves[m]].generation)
    && (HasMoved(session.generation, log) ==> accepted == Some(log.issued[LastMove(log)].cursor))
    && (!HasMoved(session.generation, log) && session.generation in log.requests ==>
          || accepted == log.requests[session.generation]
          || (feed.subscription.Some? && session.generation in log.bases && accepted == Some(log.bases[session.generation])))
  }

  /** Some acknowledgement of this connection has succeeded. */
  ghost predicate HasMoved(generation: nat, log: Log) {
    log.moves != [] && LastMove(log) < |log.issued| && log.issued[LastMove(log)].generation == generation
  }

  ghost function LastMove(log: Log): AckId
    requires log.moves != []
  { log.moves[|log.moves| - 1] }

  ghost predicate AcksOk(s: State) {
    && |s.log.issued| == s.nextAck && (forall a | a in s.acks :: a < s.nextAck && s.acks[a] == s.log.issued[a])
    && IssuedOk(s.session, s.feed, s.log) && AcceptedOk(s.session, s.feed, s.accepted, s.log)
  }

  lemma FailKeepsAcks(s: State, feed: Feed, fault: Fault)
    requires Inv(s) && AcksOk(s)
    ensures AcksOk(Fail(s.(feed := feed), fault))
  {
    var t := Fail(s.(feed := feed), fault);
    NextSessionKeepsIssued(s.session, s.feed, t.session, t.feed, s.log);
    hide IssuedOk;
  }

  /** A session of a later generation has issued nothing yet. */
  lemma NextSessionKeepsIssued(session: Session, feed: Feed, session': Session, feed': Feed, log: Log)
    requires IssuedOk(session, feed, log) && SessionOk(session, feed, log) && session.generation < session'.generation
    ensures IssuedOk(session', feed', log) && !HasMoved(session'.generation, log) && session'.generation !in log.requests
  {
    forall i | 0 <= i < |log.issued|
      ensures IssuedAt(log.issued[i], session', feed', log)
    {
      assert IssuedAt(log.issued[i], session, feed, log);
    }
  }

  lemma SubscribeKeepsAcks(s: State, generation: nat)
    requires Inv(s) && AcksOk(s)
    ensures AcksOk(Subscribe(s, generation))
  {
    var t := Subscribe(s, generation);
    forall i | 0 <= i < |s.log.issued|
      ensures IssuedAt(s.log.issued[i], t.session, t.feed, t.log)
    {
      assert IssuedAt(s.log.issued[i], s.session, s.feed, s.log);
    }
  }

  lemma ReadyKeepsAcks(s: State, m: Message)
    requires Inv(s) && AcksOk(s) && s.session.generation in s.log.requests && m.ReadyMessage?
    ensures AcksOk(BecomeReady(s, m))
  {
    var t := BecomeReady(s, m);
    if s.feed.subscription.None? && ReadyIsSound(m) {
      forall i | 0 <= i < |s.log.issued|
        ensures IssuedAt(s.log.issued[i], t.session, t.feed, t.log) && s.log.issued[i].generation < s.session.generation
      {
        assert IssuedAt(s.log.issued[i], s.session, s.feed, s.log);
      }
    } else {
      assert s.(feed := s.feed) == s;
      FailKeepsAcks(s, s.feed, PROTOCOL_FAULT);
      FailKeepsAcks(s, s.feed.(subscription := Some(m.subscription), instance := Some(m.instance)), PROTOCOL_FAULT);
    }
  }

  /** A sound batch moves on: it has events, or it invalidates, and a new revision goes with that. */
  lemma SoundBatchMovesOn(feed: Feed, b: Batch, c: Cursor)
    requires IsSound(feed, b) && Reached(c, feed)
    ensures Lower(c, b.next) && Reached(b.next, feed.(sequence := b.next.sequence, revision := b.next.revision))
    ensures feed.sequence <= b.next.sequence && feed.revision <= b.next.revision
  {
    SoundEventsIncrease(b.events, feed.sequence);
  }

  lemma NextBatchKeepsIssued(s: State, b: Batch)
    requires Inv(s) && AcksOk(s) && s.session.generation in s.log.requests && IsSound(s.feed, b) && !IsRepeated(s.feed, b)
    ensures IssuedOk(TakeBatch(s, b).session, TakeBatch(s, b).feed, TakeBatch(s, b).log)
  {
    var t := TakeBatch(s, b);
    var generation := s.session.generation;
    assert s.feed.subscription.Some? && Reached(s.log.bases[generation], s.feed);
    SoundBatchMovesOn(s.feed, b, s.log.bases[generation]);
    forall i | 0 <= i < |s.log.issued|
      ensures IssuedAt(s.log.issued[i], t.session, t.feed, t.log)
      ensures s.log.issued[i].generation == generation ==> Lower(s.log.issued[i].cursor, b.next)
    {
      assert IssuedAt(s.log.issued[i], s.session, s.feed, s.log);
      if s.log.issued[i].generation == generation {
        SoundBatchMovesOn(s.feed, b, s.log.issued[i].cursor);
      }
    }
    hide IsSound, EventsAreSound, ApplyAll, Lower;
  }

  lemma BatchKeepsAcks(s: State, b: Batch)
    requires Inv(s) && AcksOk(s) && s.session.generation in s.log.requests
    ensures AcksOk(TakeBatch(s, b))
  {
    hide IsSound, IsRepeated, ApplyAll, Inv, IssuedOk;
    if IsRepeated(s.feed, b) {
      assert TakeBatch(s, b).log.issued == s.log.issued;
      RepeatedKeepsIssued(s, b);
    } else if IsSound(s.feed, b) {
      NextBatchKeepsIssued(s, b);
    } else {
      FailKeepsAcks(s, s.feed, PROTOCOL_FAULT);
      assert s.(feed := s.feed) == s;
    }
  }

  lemma RepeatedKeepsIssued(s: State, b: Batch)
    requires IssuedOk(s.session, s.feed, s.log) && IsRepeated(s.feed, b)
    ensures IssuedOk(s.session, s.feed, TakeBatch(s, b).log)
  {
    var t := TakeBatch(s, b);
    forall i | 0 <= i < |s.log.issued|
      ensures IssuedAt(s.log.issued[i], s.session, s.feed, t.log)
    {
      assert IssuedAt(s.log.issued[i], s.session, s.feed, s.log);
    }
  }

  lemma EndAckKeepsAcks(s: State, ack: AckId, fault: Option<Fault>)
    requires Inv(s) && AcksOk(s)
    ensures AcksOk(EndAck(s, ack, fault))
  {
    var t := s.(acks := s.acks - {ack});
    if fault.Some? {
      FailKeepsAcks(t, t.feed, fault.value);
      assert t.(feed := t.feed) == t;
    } else if Counts(s, ack) {
      var u := EndAck(s, ack, fault);
      assert LastMove(u.log) == ack;
      forall i | 0 <= i < |s.log.issued|
        ensures IssuedAt(s.log.issued[i], u.session, u.feed, u.log)
      {
        assert IssuedAt(s.log.issued[i], s.session, s.feed, s.log);
      }
      hide IssuedAt, Ascending;
    }
  }

  lemma SessionStepKeepsAcks(s: State, a: Action)
    requires Inv(s) && AcksOk(s) && !a.PriorClosed? && !a.Received? && !a.AckEnded?
    ensures AcksOk(Step(s, a))
  {
    var t := Step(s, a);
    assert t.feed == s.feed && t.log == s.log && t.acks == s.acks && t.nextAck == s.nextAck;
    if t.session.generation > s.session.generation {
      NextSessionKeepsIssued(s.session, s.feed, t.session, t.feed, s.log);
    } else {
      SameSessionKeepsIssued(s.session, t.session, s.feed, s.log);
      assert t.accepted == s.accepted;
    }
    hide IssuedOk, Fail, SessionOk;
  }

  lemma SameSessionKeepsIssued(session: Session, session': Session, feed: Feed, log: Log)
    requires IssuedOk(session, feed, log) && session.generation == session'.generation
    ensures IssuedOk(session', feed, log)
  {
    forall i | 0 <= i < |log.issued|
      ensures IssuedAt(log.issued[i], session', feed, log)
    {
      assert IssuedAt(log.issued[i], session, feed, log);
    }
  }

  lemma StepKeepsAcks(s: State, a: Action)
    requires Inv(s) && AcksOk(s)
    ensures AcksOk(Step(s, a))
  {
    hide Inv, AcksOk, Fail, BecomeReady, TakeBatch, Subscribe, EndAck;
    match a
    case PriorClosed(generation) => SubscribeKeepsAcks(s, generation);
    case Received(generation, mine, m) =>
      if generation in s.log.requests && s.session.active && mine && generation == s.session.generation {
        assert s.(feed := s.feed) == s;
        FailKeepsAcks(s, s.feed, PROTOCOL_FAULT);
        match m
        case ErrorMessage(fault) => FailKeepsAcks(s, s.feed, fault);
        case ClosedMessage(_, _, fault) => FailKeepsAcks(s, s.feed, fault);
        case ReadyMessage(_, _, _, _, _) => ReadyKeepsAcks(s, m);
        case BatchMessage(b) => BatchKeepsAcks(s, b);
        case UnknownMessage =>
      }
    case AckEnded(ack, fault) => EndAckKeepsAcks(s, ack, fault);
    case _ => SessionStepKeepsAcks(s, a);
  }

  lemma {:induction false} RunKeepsAcks(actions: seq<Action>)
    ensures Inv(Run(INITIAL, actions)) && AcksOk(Run(INITIAL, actions))
  {
    RunKeeps(actions);
    if actions != [] {
      var before := actions[..|actions| - 1];
      RunKeepsAcks(before);
      StepKeepsAcks(Run(INITIAL, before), actions[|actions| - 1]);
    }
  }

  /** The acknowledgement is of the present connection, which is open, and ends while it lasts. */
  ghost predicate Counts(s: State, ack: AckId) {
    s.session.active && CanEnd(s, ack, None) && s.acks[ack].generation == s.session.generation
  }

  /** Over every run and whatever the daemon sends, once an acknowledgement of the present connection has succeeded:
      the next to succeed takes the cursor back if, and only if, the last one to succeed was of a later batch; and it
      takes the cursor below one it had under this connection if, and only if, some acknowledgement of a later batch
      had already succeeded. So the cursor grows while acknowledgements succeed in the order of their batches. */
  lemma AckGoesBackWhen(actions: seq<Action>, ack: AckId)
    requires Counts(Run(INITIAL, actions), ack) && HasMoved(Run(INITIAL, actions).session.generation, Run(INITIAL, actions).log)
    ensures var s := Run(INITIAL, actions); var t := Step(s, AckEnded(ack, None));
      && s.accepted.Some? && t.accepted.Some? && ack < |s.log.issued| && t.accepted == Some(s.log.issued[ack].cursor)
      && (Lower(t.accepted.value, s.accepted.value) <==> ack < LastMove(s.log))
      && (forall n | 0 <= n < |s.log.moves| :: s.log.moves[n] < |s.log.issued|)
      && ((exists n | 0 <= n < |s.log.moves| ::
             s.log.issued[s.log.moves[n]].generation == s.session.generation && Lower(t.accepted.value, s.log.issued[s.log.moves[n]].cursor))
          <==> (exists n | 0 <= n < |s.log.moves| :: s.log.issued[s.log.moves[n]].generation == s.session.generation && ack < s.log.moves[n]))
  {
    RunKeepsAcks(actions);
    var s := Run(INITIAL, actions);
    hide Run, Inv;
    forall i, j | 0 <= i < |s.log.issued| && 0 <= j < |s.log.issued| && s.log.issued[i].generation == s.log.issued[j].generation
      ensures Lower(s.log.issued[i].cursor, s.log.issued[j].cursor) <==> i < j
    {
      OrderOfBatches(s.log.issued, i, j);
    }
    hide IssuedOk, Lower;
  }

  lemma OrderOfBatches(issued: seq<Ack>, i: nat, j: nat)
    requires Ascending(issued) && i < |issued| && j < |issued| && issued[i].generation == issued[j].generation
    ensures Lower(issued[i].cursor, issued[j].cursor) <==> i < j
  {
    if j < i {
      assert Lower(issued[j].cursor, issued[i].cursor);
    }
  }

  // A run from the start in which two batches come, and the second is acknowledged before the first.
  const FIRST_BATCH := Batch(7, 3, 1, [Event(1, true)], [], Cursor(3, 1, 0))
  const SECOND_BATCH := Batch(7, 3, 2, [Event(2, true)], [], Cursor(3, 2, 0))
  const CONNECTED: seq<Action> := [Started, PriorClosed(1), Received(1, true, ReadyMessage(7, 3, true, true, Cursor(3, 0, 0)))]
  const FED: seq<Action> := CONNECTED + [Received(1, true, BatchMessage(FIRST_BATCH)), Received(1, true, BatchMessage(SECOND_BATCH))]

  lemma RunOneMore(actions: seq<Action>, a: Action)
    ensures Run(INITIAL, actions + [a]) == Step(Run(INITIAL, actions), a)
  {
    assert (actions + [a])[..|actions|] == actions;
  }

  lemma Connecting()
    ensures Run(INITIAL, CONNECTED) ==
      State(Session(true, 1, Opening(1), Live, false, FIRST_DELAY), Feed(Some(7), Some(3), 0, 0, 0), Some(Cursor(3, 0, 0)), map[], 0, {},
            Log([], [], [], map[1 := None], map[1 := Cursor(3, 0, 0)], [Cursor(3, 0, 0)], [], []))
  {
    RunOneMore([], CONNECTED[0]);
    RunOneMore([CONNECTED[0]], CONNECTED[1]);
    RunOneMore([CONNECTED[0], CONNECTED[1]], CONNECTED[2]);
    assert [] + [CONNECTED[0]] == [CONNECTED[0]];
    assert [CONNECTED[0]] + [CONNECTED[1]] == [CONNECTED[0], CONNECTED[1]];
    assert [CONNECTED[0], CONNECTED[1]] + [CONNECTED[2]] == CONNECTED;
    hide Run;
  }

  const FED_STATE := State(Session(true, 1, Opening(1), Live, false, FIRST_DELAY), Feed(Some(7), Some(3), 2, 2, 0), Some(Cursor(3, 0, 0)),
                           map[0 := Ack(1, Cursor(3, 1, 0)), 1 := Ack(1, Cursor(3, 2, 0))], 2, {},
                           Log([Applied(1, 3, 1), Applied(1, 3, 2)], [], [1, 2], map[1 := None], map[1 := Cursor(3, 0, 0)],
                               [Cursor(3, 0, 0)], [Ack(1, Cursor(3, 1, 0)), Ack(1, Cursor(3, 2, 0))], []))

  lemma Feeding()
    ensures Run(INITIAL, FED) == FED_STATE
  {
    Connecting();
    var first, second := Received(1, true, BatchMessage(FIRST_BATCH)), Received(1, true, BatchMessage(SECOND_BATCH));
    RunOneMore(CONNECTED, first);
    RunOneMore(CONNECTED + [first], second);
    assert CONNECTED + [first] + [second] == FED;
    hide Run;
    assert ApplyAll(1, FIRST_BATCH) == [Applied(1, 3, 1)] && ApplyAll(1, SECOND_BATCH) == [Applied(1, 3, 2)];
    assert EventsAreSound(FIRST_BATCH.events, 0) && EventsAreSound(SECOND_BATCH.events, 1);
  }

  /** So the cursor can go back: the connection is open, the second batch is acknowledged, then the first. */
  lemma OverlappingAcksGoBack()
    ensures var before := FED + [SubscribeEnded(1, None)] + [AckEnded(1, None)];
      && Run(INITIAL, before).accepted == Some(Cursor(3, 2, 0))
      && Run(INITIAL, before + [AckEnded(0, None)]).accepted == Some(Cursor(3, 1, 0))
  {
    Feeding();
    RunOneMore(FED, SubscribeEnded(1, None));
    RunOneMore(FED + [SubscribeEnded(1, None)], AckEnded(1, None));
    RunOneMore(FED + [SubscribeEnded(1, None)] + [AckEnded(1, None)], AckEnded(0, None));
    hide Run;
  }

  /** And an old connection can break a newer one: a batch comes again while the first connection is being opened, the
      user tries again, the second connection is under way, and then the first is rejected. */
  lemma RejectionBreaksNewer()
    ensures var before := FED + [Received(1, true, BatchMessage(SECOND_BATCH)), RetryCalled, PriorClosed(2)];
      && Run(INITIAL, before).session == Session(true, 2, Opening(2), Lost, false, FIRST_DELAY)
      && Run(INITIAL, before + [OpeningRejected(1)]).session == Session(true, 3, NoAttempt, Broken, false, FIRST_DELAY)
  {
    Feeding();
    var again := Received(1, true, BatchMessage(SECOND_BATCH));
    RunOneMore(FED, again);
    RunOneMore(FED + [again], RetryCalled);
    RunOneMore(FED + [again] + [RetryCalled], PriorClosed(2));
    RunOneMore(FED + [again] + [RetryCalled] + [PriorClosed(2)], OpeningRejected(1));
    assert FED + [again] + [RetryCalled] + [PriorClosed(2)] == FED + [again, RetryCalled, PriorClosed(2)];
    hide Run;
  }

  // ---------------------------------------------------------------------------------------------
  // Nothing is missed
  // ---------------------------------------------------------------------------------------------

  /** What the daemon serves one subscription: it resumes where it was asked to, or demands that everything is
      read anew, and then sends batch after batch. */
  datatype Served = Served(generation: nat, instance: InstanceId, resync: bool, baseline: Cursor, batches: seq<Batch>)

  type Server = map<SubscriptionId, Served>

  /** The position after the first `k` batches. */
  ghost function Position(v: Served, k: nat): int
    requires k <= |v.batches|
  { if k == 0 then v.baseline.sequence else v.batches[k - 1].next.sequence }

  /** The revision of the resources after the first `k` batches. */
  ghost function Revision(v: Served, k: nat): int
    requires k <= |v.batches|
  { if k == 0 then v.baseline.revision else v.batches[k - 1].next.revision }

  /** The events the daemon sends are its own, each after the one before, and their numbers fit. */
  ghost predicate Rising(events: seq<Event>, last: int) {
    && (forall i | 0 <= i < |events| ::
          events[i].wellFormed && last < events[i].sequence && -SAFE_INTEGER <= events[i].sequence <= SAFE_INTEGER)
    && forall i, j | 0 <= i < j < |events| :: events[i].sequence < events[j].sequence
  }

  /** What the daemon puts in a batch: the events after the ones before, if any, and the resources that changed, which it
      counts by the revision; never nothing at all. The cursor names the last event. */
  ghost predicate WellMade(b: Batch, instance: InstanceId, sequence: int, revision: int) {
    && b.scopes in {[], [Extensions], [OperationLog], [Extensions, OperationLog]} && (b.events == [] ==> b.scopes != [])
    && Rising(b.events, sequence)
    && b.next.instance == instance && b.next.sequence == (if b.events == [] then sequence else b.events[|b.events| - 1].sequence)
    && (if b.scopes == [] then b.next.revision == revision else revision < b.next.revision)
    && -SAFE_INTEGER <= b.next.revision <= SAFE_INTEGER
  }

  /** Where the daemon begins. */
  ghost predicate WellBegun(v: Served) {
    v.baseline.instance == v.instance && 0 <= v.baseline.sequence <= SAFE_INTEGER && 0 <= v.baseline.revision <= SAFE_INTEGER
  }

  ghost predicate Includes(events: seq<Event>, sequence: int) {
    exists i | 0 <= i < |events| :: events[i].sequence == sequence
  }

  /** The batches are well made, and consecutive slices: each has every event of this consumer after the position
      before it, up to its own. Sequence numbers of events for others may be missing. */
  ghost predicate Consecutive(v: Served, subscription: SubscriptionId, emitted: (InstanceId, int) -> bool) {
    && WellBegun(v)
    && forall k | 0 <= k < |v.batches| ::
      && WellMade(v.batches[k], v.instance, Position(v, k), Revision(v, k))
      && v.batches[k].subscription == subscription && v.batches[k].instance == v.instance && v.batches[k].id == k + 1
      && forall e | emitted(v.instance, e) && Position(v, k) < e <= Position(v, k + 1) :: Includes(v.batches[k].events, e)
  }

  /** What an honest daemon can say now. */
  ghost predicate Honest(server: Server, s: State, a: Action) {
    a.Received? && a.generation in s.log.requests ==>
      match a.message
      case ReadyMessage(subscription, instance, wellFormed, resync, baseline) =>
        && subscription in server && wellFormed
        && server[subscription] == Served(a.generation, instance, resync, baseline, server[subscription].batches)
        && (resync || s.log.requests[a.generation] == Some(baseline))
      case BatchMessage(b) =>
        && b.subscription in server && 1 <= b.id <= |server[b.subscription].batches| && b == server[b.subscription].batches[b.id - 1]
      case _ => true
  }

  ghost predicate HonestRun(server: Server, emitted: (InstanceId, int) -> bool, actions: seq<Action>) {
    && (forall v | v in server :: Consecutive(server[v], v, emitted))
    && forall n | 0 <= n < |actions| :: Honest(server, Run(INITIAL, actions[..n]), actions[n])
  }

  ghost predicate AppliedOrResynced(applied: seq<Applied>, resyncs: seq<Cursor>, instance: InstanceId, sequence: int) {
    || (exists i | 0 <= i < |applied| :: applied[i].instance == instance && applied[i].sequence == sequence)
    || (exists i | 0 <= i < |resyncs| :: resyncs[i].instance == instance && sequence <= resyncs[i].sequence)
  }

  /** Every event up to here was applied, or everything was read anew after it. */
  ghost predicate Covered(emitted: (InstanceId, int) -> bool, applied: seq<Applied>, resyncs: seq<Cursor>, instance: InstanceId, upTo: int) {
    forall e | emitted(instance, e) && e <= upTo :: AppliedOrResynced(applied, resyncs, instance, e)
  }

  ghost predicate CursorsCovered(emitted: (InstanceId, int) -> bool, log: Log, accepted: Option<Cursor>, acks: map<AckId, Ack>) {
    && (accepted.Some? ==> Covered(emitted, log.applied, log.resyncs, accepted.value.instance, accepted.value.sequence))
    && (forall a | a in acks :: Covered(emitted, log.applied, log.resyncs, acks[a].cursor.instance, acks[a].cursor.sequence))
    && (forall g | g in log.requests && log.requests[g].Some? ::
          Covered(emitted, log.applied, log.resyncs, log.requests[g].value.instance, log.requests[g].value.sequence))
  }

  /** The position is the daemon's own, and everything up to it is covered. */
  ghost predicate InStep(server: Server, emitted: (InstanceId, int) -> bool, session: Session, feed: Feed, log: Log) {
    Subscribed(session, feed, log.requests) ==>
      && feed.subscription.value in server && feed.instance == Some(server[feed.subscription.value].instance)
      && var v := server[feed.subscription.value];
         && feed.receivedBatch <= |v.batches|
         && feed.sequence == Position(v, feed.receivedBatch) && feed.revision == Revision(v, feed.receivedBatch)
         && Covered(emitted, log.applied, log.resyncs, v.instance, feed.sequence)
  }

  ghost predicate Sound(server: Server, emitted: (InstanceId, int) -> bool, s: State) {
    CursorsCovered(emitted, s.log, s.accepted, s.acks) && InStep(server, emitted, s.session, s.feed, s.log)
  }

  lemma CoveredGrows(emitted: (InstanceId, int) -> bool, log: Log, log': Log, instance: InstanceId, upTo: int)
    requires Covered(emitted, log.applied, log.resyncs, instance, upTo) && log.applied <= log'.applied && log.resyncs <= log'.resyncs
    ensures Covered(emitted, log'.applied, log'.resyncs, instance, upTo)
  {
    forall e | emitted(instance, e) && e <= upTo
      ensures AppliedOrResynced(log'.applied, log'.resyncs, instance, e)
    {
      assert AppliedOrResynced(log.applied, log.resyncs, instance, e);
      if i :| 0 <= i < |log.applied| && log.applied[i].instance == instance && log.applied[i].sequence == e {
        assert log'.applied[i] == log.applied[i];
      } else {
        var i :| 0 <= i < |log.resyncs| && log.resyncs[i].instance == instance && e <= log.resyncs[i].sequence;
        assert log'.resyncs[i] == log.resyncs[i];
      }
    }
  }

  lemma CursorsGrow(emitted: (InstanceId, int) -> bool, log: Log, log': Log, accepted: Option<Cursor>, acks: map<AckId, Ack>)
    requires CursorsCovered(emitted, log, accepted, acks)
    requires log.applied <= log'.applied && log.resyncs <= log'.resyncs && log'.requests == log.requests
    ensures CursorsCovered(emitted, log', accepted, acks)
  {
    forall instance, upTo | Covered(emitted, log.applied, log.resyncs, instance, upTo)
      ensures Covered(emitted, log'.applied, log'.resyncs, instance, upTo)
    {
      CoveredGrows(emitted, log, log', instance, upTo);
    }
    hide Covered;
  }

  lemma ReadyIsSoundly(server: Server, emitted: (InstanceId, int) -> bool, s: State, m: Message)
    requires Inv(s) && Sound(server, emitted, s) && m.ReadyMessage?
    requires Honest(server, s, Received(s.session.generation, true, m)) && s.session.generation in s.log.requests
    ensures Sound(server, emitted, BecomeReady(s, m))
  {
    var t := BecomeReady(s, m);
    if s.feed.subscription.None? && ReadyIsSound(m) {
      CursorsGrow(emitted, s.log, t.log, s.accepted, s.acks);
      if m.resyncRequired {
        assert t.log.resyncs[|s.log.resyncs|] == m.baseline;
        assert Covered(emitted, t.log.applied, t.log.resyncs, m.baseline.instance, m.baseline.sequence);
      } else {
        CoveredGrows(emitted, s.log, t.log, m.baseline.instance, m.baseline.sequence);
      }
      hide Covered;
    } else {
      assert s.(feed := s.feed) == s;
      FailIsSoundly(server, emitted, s, s.feed, PROTOCOL_FAULT);
      FailIsSoundly(server, emitted, s, s.feed.(subscription := Some(m.subscription), instance := Some(m.instance)), PROTOCOL_FAULT);
    }
  }

  lemma FailIsSoundly(server: Server, emitted: (InstanceId, int) -> bool, s: State, feed: Feed, fault: Fault)
    requires Inv(s) && Sound(server, emitted, s)
    ensures Sound(server, emitted, Fail(s.(feed := feed), fault))
  {
    hide Covered;
  }

  lemma SliceIsCovered(emitted: (InstanceId, int) -> bool, log: Log, log': Log, generation: nat, b: Batch, from: int)
    requires Covered(emitted, log.applied, log.resyncs, b.instance, from)
    requires forall e | emitted(b.instance, e) && from < e <= b.next.sequence :: Includes(b.events, e)
    requires log'.applied == log.applied + ApplyAll(generation, b) && log.resyncs <= log'.resyncs
    ensures Covered(emitted, log'.applied, log'.resyncs, b.instance, b.next.sequence)
  {
    CoveredGrows(emitted, log, log', b.instance, from);
    forall e | emitted(b.instance, e) && e <= b.next.sequence
      ensures AppliedOrResynced(log'.applied, log'.resyncs, b.instance, e)
    {
      if from < e {
        assert Includes(b.events, e);
        var i :| 0 <= i < |b.events| && b.events[i].sequence == e;
        assert log'.applied[|log.applied| + i] == Applied(generation, b.instance, e);
      }
    }
  }

  lemma NextBatchIsSoundly(server: Server, emitted: (InstanceId, int) -> bool, s: State, b: Batch, v: Served)
    requires Sound(server, emitted, s) && Subscribed(s.session, s.feed, s.log.requests)
    requires s.feed.subscription == Some(b.subscription) && server[b.subscription] == v && Consecutive(v, b.subscription, emitted)
    requires 1 <= b.id <= |v.batches| && b == v.batches[b.id - 1] && IsSound(s.feed, b) && !IsRepeated(s.feed, b)
    ensures Sound(server, emitted, TakeBatch(s, b))
  {
    hide IsSound, IsRepeated, TakeBatch, Covered, Consecutive, ApplyAll, Position, Revision;
    var t := TakeBatch(s, b);
    SoundBatchIsTaken(s, b);
    SliceOf(v, b, emitted);
    SliceIsCovered(emitted, s.log, t.log, s.session.generation, b, s.feed.sequence);
    CursorsGrow(emitted, s.log, t.log, s.accepted, s.acks);
  }

  lemma SliceOf(v: Served, b: Batch, emitted: (InstanceId, int) -> bool)
    requires Consecutive(v, b.subscription, emitted) && 1 <= b.id <= |v.batches| && b == v.batches[b.id - 1]
    ensures b.instance == v.instance && Position(v, b.id) == b.next.sequence && Revision(v, b.id) == b.next.revision
    ensures forall e | emitted(b.instance, e) && Position(v, b.id - 1) < e <= b.next.sequence :: Includes(b.events, e)
  {
    hide WellMade, Includes;
  }

  lemma SoundBatchIsTaken(s: State, b: Batch)
    requires IsSound(s.feed, b) && !IsRepeated(s.feed, b)
    ensures var t := TakeBatch(s, b);
      && t.session == s.session && t.accepted == s.accepted
      && t.acks == s.acks[s.nextAck := Ack(s.session.generation, b.next)]
      && t.feed == s.feed.(receivedBatch := b.id, sequence := b.next.sequence, revision := b.next.revision)
      && t.log.applied == s.log.applied + ApplyAll(s.session.generation, b)
      && t.log.requests == s.log.requests && t.log.resyncs == s.log.resyncs
    ensures s.feed.instance == Some(b.instance) && b.instance == b.next.instance && b.id == s.feed.receivedBatch + 1
  {}

  lemma BatchIsSoundly(server: Server, emitted: (InstanceId, int) -> bool, s: State, b: Batch)
    requires Inv(s) && Sound(server, emitted, s) && s.session.generation in s.log.requests
    requires forall v | v in server :: Consecutive(server[v], v, emitted)
    requires Honest(server, s, Received(s.session.generation, true, BatchMessage(b)))
    ensures Sound(server, emitted, TakeBatch(s, b))
  {
    hide Covered, Consecutive, IsSound, ApplyAll;
    if IsRepeated(s.feed, b) {
      var t := TakeBatch(s, b);
      assert CursorsCovered(emitted, t.log, t.accepted, t.acks);
    } else if IsSound(s.feed, b) {
      NextIsSubscribed(s.feed, b);
      NextBatchIsSoundly(server, emitted, s, b, server[b.subscription]);
    } else {
      FailIsSoundly(server, emitted, s, s.feed, PROTOCOL_FAULT);
      assert s.(feed := s.feed) == s;
    }
  }

  lemma NextIsSubscribed(feed: Feed, b: Batch)
    requires IsSound(feed, b)
    ensures feed.subscription == Some(b.subscription)
  {}

  lemma OthersAreSoundly(server: Server, emitted: (InstanceId, int) -> bool, s: State, a: Action)
    requires Inv(s) && Sound(server, emitted, s) && !a.Received?
    ensures Sound(server, emitted, Step(s, a))
  {
    hide Covered;
    var t := Step(s, a);
    assert CursorsCovered(emitted, t.log, t.accepted, t.acks);
    assert InStep(server, emitted, t.session, t.feed, t.log);
  }

  lemma StepIsSoundly(server: Server, emitted: (InstanceId, int) -> bool, s: State, a: Action)
    requires Inv(s) && Sound(server, emitted, s) && Honest(server, s, a)
    requires forall v | v in server :: Consecutive(server[v], v, emitted)
    ensures Sound(server, emitted, Step(s, a))
  {
    hide Covered, Consecutive, BecomeReady, TakeBatch;
    assert s.(feed := s.feed) == s;
    match a
    case Received(generation, mine, m) =>
      if generation in s.log.requests && s.session.active && mine && generation == s.session.generation {
        match m
        case ReadyMessage(_, _, _, _, _) => ReadyIsSoundly(server, emitted, s, m);
        case BatchMessage(b) => BatchIsSoundly(server, emitted, s, b);
        case ErrorMessage(fault) => FailIsSoundly(server, emitted, s, s.feed, fault);
        case ClosedMessage(_, _, fault) =>
          FailIsSoundly(server, emitted, s, s.feed, fault);
          FailIsSoundly(server, emitted, s, s.feed, PROTOCOL_FAULT);
        case UnknownMessage => FailIsSoundly(server, emitted, s, s.feed, PROTOCOL_FAULT);
      }
    case _ => OthersAreSoundly(server, emitted, s, a);
  }

  lemma {:induction false} RunIsSoundly(server: Server, emitted: (InstanceId, int) -> bool, actions: seq<Action>)
    requires HonestRun(server, emitted, actions)
    ensures Sound(server, emitted, Run(INITIAL, actions))
  {
    if actions != [] {
      var before := actions[..|actions| - 1];
      assert forall n | 0 <= n < |before| :: before[..n] == actions[..n];
      RunIsSoundly(server, emitted, before);
      RunKeeps(before);
      StepIsSoundly(server, emitted, Run(INITIAL, before), actions[|actions| - 1]);
    }
  }

  /** With an honest daemon, over every run, however often the connection is lost and acknowledgements with it:
      every event up to the position of the subscription, and up to the cursor the next one will resume after,
      was applied or is covered by reading everything anew. Events beyond are still to come. */
  lemma {:induction false} NothingIsMissed(server: Server, emitted: (InstanceId, int) -> bool, actions: seq<Action>, e: int)
    requires HonestRun(server, emitted, actions)
    ensures var s := Run(INITIAL, actions);
      && (Subscribed(s.session, s.feed, s.log.requests) ==>
            s.feed.instance.Some? && (emitted(s.feed.instance.value, e) && e <= s.feed.sequence ==>
              AppliedOrResynced(s.log.applied, s.log.resyncs, s.feed.instance.value, e)))
      && (s.accepted.Some? && emitted(s.accepted.value.instance, e) && e <= s.accepted.value.sequence ==>
            AppliedOrResynced(s.log.applied, s.log.resyncs, s.accepted.value.instance, e))
  {
    RunIsSoundly(server, emitted, actions);
    hide Run, AppliedOrResynced;
  }

  /** Before its first successful acknowledgement, a connection of an honest daemon has the cursor at its baseline. */
  ghost predicate AtBaseline(s: State) {
    Subscribed(s.session, s.feed, s.log.requests) && !HasMoved(s.session.generation, s.log) ==>
      s.session.generation in s.log.bases && s.accepted == Some(s.log.bases[s.session.generation])
  }

  lemma ReadyIsAtBaseline(server: Server, s: State, m: Message)
    requires Inv(s) && AcksOk(s) && AtBaseline(s) && m.ReadyMessage? && s.session.generation in s.log.requests
    requires Honest(server, s, Received(s.session.generation, true, m))
    ensures AtBaseline(BecomeReady(s, m))
  {
    MovedIsSubscribed(s);
  }

  lemma MovedIsSubscribed(s: State)
    requires AcksOk(s)
    ensures HasMoved(s.session.generation, s.log) ==> Subscribed(s.session, s.feed, s.log.requests)
  {
    if HasMoved(s.session.generation, s.log) {
      assert IssuedAt(s.log.issued[LastMove(s.log)], s.session, s.feed, s.log);
    }
  }

  lemma StepIsAtBaseline(server: Server, s: State, a: Action)
    requires Inv(s) && AcksOk(s) && AtBaseline(s) && Honest(server, s, a)
    ensures AtBaseline(Step(s, a))
  {
    var t := Step(s, a);
    hide IssuedOk, AcceptedOk, BecomeReady, IsSound, IsRepeated, ApplyAll;
    if a.Received? && a.message.ReadyMessage? {
      if a.generation in s.log.requests && s.session.active && a.mine && a.generation == s.session.generation {
        ReadyIsAtBaseline(server, s, a.message);
      }
    } else if a.AckEnded? && a.fault.None? && Counts(s, a.ack) {
      assert HasMoved(t.session.generation, t.log);
    }
  }

  lemma {:induction false} RunIsAtBaseline(server: Server, emitted: (InstanceId, int) -> bool, actions: seq<Action>)
    requires HonestRun(server, emitted, actions)
    ensures AtBaseline(Run(INITIAL, actions))
  {
    if actions != [] {
      var before := actions[..|actions| - 1];
      assert forall n | 0 <= n < |before| :: before[..n] == actions[..n];
      RunIsAtBaseline(server, emitted, before);
      RunKeepsAcks(before);
      StepIsAtBaseline(server, Run(INITIAL, before), actions[|actions| - 1]);
    }
  }

  /** With an honest daemon, over every run: a successful acknowledgement takes the cursor back if, and only if, the
      last one of this connection to succeed before it was of a later batch. The first never does. */
  lemma CursorGoesBackWhen(server: Server, emitted: (InstanceId, int) -> bool, actions: seq<Action>, ack: AckId)
    requires HonestRun(server, emitted, actions) && Counts(Run(INITIAL, actions), ack)
    ensures var s := Run(INITIAL, actions); var t := Step(s, AckEnded(ack, None));
      && s.accepted.Some? && t.accepted.Some?
      && (Lower(t.accepted.value, s.accepted.value) <==> HasMoved(s.session.generation, s.log) && ack < LastMove(s.log))
      && (!Lower(t.accepted.value, s.accepted.value) ==> t.accepted == s.accepted || Lower(s.accepted.value, t.accepted.value))
  {
    RunKeepsAcks(actions);
    RunIsAtBaseline(server, emitted, actions);
    NextAckMoves(Run(INITIAL, actions), ack);
    hide *;
  }

  lemma NextAckMoves(s: State, ack: AckId)
    requires AcksOk(s) && AtBaseline(s) && Counts(s, ack)
    ensures var t := Step(s, AckEnded(ack, None));
      && s.accepted.Some? && t.accepted.Some?
      && (Lower(t.accepted.value, s.accepted.value) <==> HasMoved(s.session.generation, s.log) && ack < LastMove(s.log))
      && (!Lower(t.accepted.value, s.accepted.value) ==> t.accepted == s.accepted || Lower(s.accepted.value, t.accepted.value))
  {
    assert IssuedAt(s.log.issued[ack], s.session, s.feed, s.log);
    assert Step(s, AckEnded(ack, None)).accepted == Some(s.log.issued[ack].cursor);
    hide Step, IssuedAt;
    if HasMoved(s.session.generation, s.log) {
      OrderOfBatches(s.log.issued, ack, LastMove(s.log));
      OrderOfBatches(s.log.issued, LastMove(s.log), ack);
    }
  }

  /** The coordinator is subscribed, and the daemon has served it up to here. */
  ghost predicate Following(server: Server, s: State) {
    && s.session.active && Subscribed(s.session, s.feed, s.log.requests) && s.feed.subscription.value in server
    && s.feed.receivedBatch <= |server[s.feed.subscription.value].batches|
  }

  /** A batch is taken whole: each of its events is applied, its scopes are invalidated, it is acknowledged, and the
      connection goes on from there. */
  ghost predicate TakenWhole(s: State, b: Batch, t: State) {
    && t.session == s.session && t.accepted == s.accepted
    && t.feed == s.feed.(receivedBatch := s.feed.receivedBatch + 1, sequence := b.next.sequence, revision := b.next.revision)
    && |t.log.applied| == |s.log.applied| + |b.events| && s.log.applied <= t.log.applied
    && (forall i | 0 <= i < |b.events| ::
          t.log.applied[|s.log.applied| + i] == Applied(s.session.generation, b.instance, b.events[i].sequence))
    && t.log.invalidated == s.log.invalidated + b.scopes && t.log.acknowledged == s.log.acknowledged + [b.id]
    && t.log.issued == s.log.issued + [Ack(s.session.generation, b.next)] && t.log.requests == s.log.requests
  }

  lemma WellMadeIsSound(feed: Feed, b: Batch)
    requires feed.subscription == Some(b.subscription) && feed.instance == Some(b.instance) && b.id == feed.receivedBatch + 1
    requires WellMade(b, b.instance, feed.sequence, feed.revision)
    ensures IsSound(feed, b) && !IsRepeated(feed, b)
  {
    SoundEventsIncrease(b.events, feed.sequence);
    hide EventsAreSound;
  }

  lemma SoundBatchIsTakenWhole(s: State, b: Batch)
    requires IsSound(s.feed, b) && !IsRepeated(s.feed, b)
    ensures TakenWhole(s, b, TakeBatch(s, b))
  {
    assert b.id == s.feed.receivedBatch + 1;
    hide IsSound, IsRepeated;
  }

  /** With an honest daemon, over every run, the next batch of the subscription is always taken whole. */
  lemma {:induction false} NextBatchIsTaken(server: Server, emitted: (InstanceId, int) -> bool, actions: seq<Action>)
    requires HonestRun(server, emitted, actions) && Following(server, Run(INITIAL, actions))
    requires var feed := Run(INITIAL, actions).feed; feed.receivedBatch < |server[feed.subscription.value].batches|
    ensures var s := Run(INITIAL, actions); var b := server[s.feed.subscription.value].batches[s.feed.receivedBatch];
      var t := Run(INITIAL, actions + [Received(s.session.generation, true, BatchMessage(b))]);
      && TakenWhole(s, b, t) && Following(server, t) && t.feed.subscription == s.feed.subscription
      && HonestRun(server, emitted, actions + [Received(s.session.generation, true, BatchMessage(b))])
  {
    hide Run, HonestRun, Covered, TakeBatch, IsSound, IsRepeated, WellMade, Consecutive, TakenWhole, Sound, Step;
    var s := Run(INITIAL, actions);
    var v := server[s.feed.subscription.value];
    var b := v.batches[s.feed.receivedBatch];
    RunIsSoundly(server, emitted, actions);
    ServedConsecutively(server, emitted, actions, s);
    SoundlyInStep(server, emitted, s);
    NextIsWellMade(server, emitted, s, v);
    NextIsHonest(server, s, b);
    OneMoreHonest(server, emitted, actions, Received(s.session.generation, true, BatchMessage(b)));
    RunOneMore(actions, Received(s.session.generation, true, BatchMessage(b)));
    NextBatchOfServedIsTaken(server, emitted, s, v);
  }

  lemma NextBatchOfServedIsTaken(server: Server, emitted: (InstanceId, int) -> bool, s: State, v: Served)
    requires Following(server, s) && v == server[s.feed.subscription.value] && s.feed.receivedBatch < |v.batches|
    requires Sound(server, emitted, s) && Consecutive(v, s.feed.subscription.value, emitted)
    ensures var b := v.batches[s.feed.receivedBatch]; var t := Step(s, Received(s.session.generation, true, BatchMessage(b)));
      TakenWhole(s, b, t) && Following(server, t) && t.feed.subscription == s.feed.subscription
  {
    hide Covered, TakeBatch, IsSound, IsRepeated, WellMade, Consecutive, CursorsCovered, InStep;
    var b := v.batches[s.feed.receivedBatch];
    SoundlyInStep(server, emitted, s);
    NextIsWellMade(server, emitted, s, v);
    WellMadeIsSound(s.feed, b);
    SoundBatchIsTakenWhole(s, b);
  }

  lemma SoundlyInStep(server: Server, emitted: (InstanceId, int) -> bool, s: State)
    requires Sound(server, emitted, s)
    ensures InStep(server, emitted, s.session, s.feed, s.log)
  {}

  lemma NextIsWellMade(server: Server, emitted: (InstanceId, int) -> bool, s: State, v: Served)
    requires Following(server, s) && v == server[s.feed.subscription.value] && s.feed.receivedBatch < |v.batches|
    requires InStep(server, emitted, s.session, s.feed, s.log) && Consecutive(v, s.feed.subscription.value, emitted)
    ensures var b := v.batches[s.feed.receivedBatch];
      && s.feed.subscription == Some(b.subscription) && s.feed.instance == Some(b.instance) && b.id == s.feed.receivedBatch + 1
      && WellMade(b, b.instance, s.feed.sequence, s.feed.revision)
  {
    hide WellMade, Covered;
  }

  lemma NextIsHonest(server: Server, s: State, b: Batch)
    requires b.subscription in server && 1 <= b.id <= |server[b.subscription].batches| && b == server[b.subscription].batches[b.id - 1]
    ensures Honest(server, s, Received(s.session.generation, true, BatchMessage(b)))
  {}

  lemma ServedConsecutively(server: Server, emitted: (InstanceId, int) -> bool, actions: seq<Action>, s: State)
    requires HonestRun(server, emitted, actions) && Following(server, s)
    ensures Consecutive(server[s.feed.subscription.value], s.feed.subscription.value, emitted)
  {
    hide Consecutive, Honest;
  }

  lemma OneMoreHonest(server: Server, emitted: (InstanceId, int) -> bool, actions: seq<Action>, a: Action)
    requires HonestRun(server, emitted, actions) && Honest(server, Run(INITIAL, actions), a)
    ensures HonestRun(server, emitted, actions + [a])
  {
    hide Run, Honest, Consecutive;
    assert (actions + [a])[..|actions|] == actions;
    assert forall n | 0 <= n < |actions| :: (actions + [a])[..n] == actions[..n];
  }

  /** The batches after the first `start`, up to the first `end`, come one after another. */
  ghost function Deliveries(v: Served, generation: nat, start: nat, end: nat): seq<Action>
    requires start <= end <= |v.batches|
    decreases end
  {
    if start == end then []
    else Deliveries(v, generation, start, end - 1) + [Received(generation, true, BatchMessage(v.batches[end - 1]))]
  }

  /** The `k`-th batch took effect: every event of it is among the applied ones, every scope among the invalidated ones. */
  ghost predicate TookEffect(v: Served, k: nat, generation: nat, log: Log)
    requires k < |v.batches|
  {
    && (forall e | e in v.batches[k].events :: Applied(generation, v.batches[k].instance, e.sequence) in log.applied)
    && forall scope | scope in v.batches[k].scopes :: scope in log.invalidated
  }

  /** The batches after the first `start` took effect, and the connection lives on. */
  ghost predicate AllTaken(v: Served, s: State, start: nat, t: State) {
    && t.session == s.session && t.feed.subscription == s.feed.subscription
    && start <= t.feed.receivedBatch <= |v.batches|
    && forall k | start <= k < t.feed.receivedBatch :: TookEffect(v, k, s.session.generation, t.log)
  }

  lemma OneMoreTaken(v: Served, s: State, start: nat, t: State, u: State)
    requires AllTaken(v, s, start, t) && t.feed.receivedBatch < |v.batches|
    requires TakenWhole(t, v.batches[t.feed.receivedBatch], u)
    ensures AllTaken(v, s, start, u) && u.feed.receivedBatch == t.feed.receivedBatch + 1
  {
    forall k | start <= k < u.feed.receivedBatch
      ensures TookEffect(v, k, s.session.generation, u.log)
    {
      if k < t.feed.receivedBatch {
        EffectStays(v, k, s.session.generation, t.log, u.log);
      } else {
        TakenTookEffect(v, k, t, u);
      }
    }
  }

  lemma EffectStays(v: Served, k: nat, generation: nat, log: Log, log': Log)
    requires k < |v.batches| && TookEffect(v, k, generation, log)
    requires log.applied <= log'.applied && log.invalidated <= log'.invalidated
    ensures TookEffect(v, k, generation, log')
  {
    assert forall entry | entry in log.applied :: entry in log.applied + log'.applied[|log.applied|..];
    assert log'.applied == log.applied + log'.applied[|log.applied|..];
  }

  lemma TakenTookEffect(v: Served, k: nat, t: State, u: State)
    requires k < |v.batches| && TakenWhole(t, v.batches[k], u)
    ensures TookEffect(v, k, t.session.generation, u.log)
  {
    var b := v.batches[k];
    forall e | e in b.events
      ensures Applied(t.session.generation, b.instance, e.sequence) in u.log.applied
    {
      var i :| 0 <= i < |b.events| && b.events[i] == e;
      assert u.log.applied[|t.log.applied| + i] == Applied(t.session.generation, b.instance, e.sequence);
    }
  }

  /** So however many come one after another, all their events are applied and all their scopes invalidated, the connection
      lives on, and its position is the daemon's. */
  lemma {:induction false} AllBatchesAreTaken(server: Server, emitted: (InstanceId, int) -> bool, actions: seq<Action>, end: nat)
    requires HonestRun(server, emitted, actions) && Following(server, Run(INITIAL, actions))
    requires var feed := Run(INITIAL, actions).feed; feed.receivedBatch <= end <= |server[feed.subscription.value].batches|
    ensures var s := Run(INITIAL, actions); var v := server[s.feed.subscription.value];
      var more := actions + Deliveries(v, s.session.generation, s.feed.receivedBatch, end);
      && HonestRun(server, emitted, more) && Following(server, Run(INITIAL, more))
      && AllTaken(v, s, s.feed.receivedBatch, Run(INITIAL, more)) && Run(INITIAL, more).feed.receivedBatch == end
  {
    var s := Run(INITIAL, actions);
    NothingTaken(server[s.feed.subscription.value], s);
    BatchesOfServedAreTaken(server, emitted, actions, s, server[s.feed.subscription.value], end);
  }

  lemma NothingTaken(v: Served, s: State)
    requires s.feed.receivedBatch <= |v.batches|
    ensures AllTaken(v, s, s.feed.receivedBatch, s)
  {}

  lemma {:induction false} BatchesOfServedAreTaken(server: Server, emitted: (InstanceId, int) -> bool, actions: seq<Action>,
                                                   s: State, v: Served, end: nat)
    requires HonestRun(server, emitted, actions) && s == Run(INITIAL, actions) && Following(server, s)
    requires s.feed.subscription.Some? && s.feed.subscription.value in server && v == server[s.feed.subscription.value]
    requires s.feed.receivedBatch <= end <= |v.batches| && AllTaken(v, s, s.feed.receivedBatch, s)
    ensures var more := actions + Deliveries(v, s.session.generation, s.feed.receivedBatch, end);
      && HonestRun(server, emitted, more) && Following(server, Run(INITIAL, more))
      && AllTaken(v, s, s.feed.receivedBatch, Run(INITIAL, more)) && Run(INITIAL, more).feed.receivedBatch == end
    decreases end
  {
    hide *;
    DeliveredLast(v, actions, s.session.generation, s.feed.receivedBatch, end);
    if end != s.feed.receivedBatch {
      BatchesOfServedAreTaken(server, emitted, actions, s, v, end - 1);
      NextAfterThose(server, emitted, actions + Deliveries(v, s.session.generation, s.feed.receivedBatch, end - 1), s, v, s.feed.receivedBatch);
    }
  }

  lemma DeliveredLast(v: Served, actions: seq<Action>, generation: nat, start: nat, end: nat)
    requires start <= end <= |v.batches|
    ensures start == end ==> actions + Deliveries(v, generation, start, end) == actions
    ensures start < end ==> (actions + Deliveries(v, generation, start, end)
      == actions + Deliveries(v, generation, start, end - 1) + [Received(generation, true, BatchMessage(v.batches[end - 1]))])
  {}

  lemma NextAfterThose(server: Server, emitted: (InstanceId, int) -> bool, before: seq<Action>, s: State, v: Served, start: nat)
    requires HonestRun(server, emitted, before) && Following(server, Run(INITIAL, before))
    requires AllTaken(v, s, start, Run(INITIAL, before)) && Run(INITIAL, before).feed.receivedBatch < |v.batches|
    requires s.feed.subscription.Some? && s.feed.subscription.value in server && v == server[s.feed.subscription.value]
    ensures var t := Run(INITIAL, before);
      var more := before + [Received(s.session.generation, true, BatchMessage(v.batches[t.feed.receivedBatch]))];
      && HonestRun(server, emitted, more) && Following(server, Run(INITIAL, more))
      && AllTaken(v, s, start, Run(INITIAL, more)) && Run(INITIAL, more).feed.receivedBatch == t.feed.receivedBatch + 1
  {
    hide Run, HonestRun, Following, TookEffect, TakenWhole, AllTaken;
    var t := Run(INITIAL, before);
    SameSubscription(v, s, start, t);
    NextBatchIsTaken(server, emitted, before);
    OneMoreTaken(v, s, start, t,
                 Run(INITIAL, before + [Received(s.session.generation, true, BatchMessage(v.batches[t.feed.receivedBatch]))]));
  }

  lemma SameSubscription(v: Served, s: State, start: nat, t: State)
    requires AllTaken(v, s, start, t)
    ensures t.feed.subscription == s.feed.subscription && t.session == s.session
  {}

  /** With an honest daemon, over every run, its answer to the present request is always accepted: the connection lives,
      follows from the baseline, and resumes after it. */
  lemma {:induction false} AnswerIsAccepted(server: Server, emitted: (InstanceId, int) -> bool, actions: seq<Action>, m: Message)
    requires HonestRun(server, emitted, actions) && m.ReadyMessage?
    requires var s := Run(INITIAL, actions);
      && s.session.active && s.session.generation in s.log.requests && s.feed.subscription.None?
      && Honest(server, s, Received(s.session.generation, true, m))
    ensures var s := Run(INITIAL, actions); var more := actions + [Received(s.session.generation, true, m)]; var t := Run(INITIAL, more);
      && HonestRun(server, emitted, more) && Following(server, t)
      && t.session == s.session.(phase := Live, delay := FIRST_DELAY)
      && t.feed == Feed(Some(m.subscription), Some(m.instance), 0, m.baseline.sequence, m.baseline.revision)
      && t.accepted == Some(m.baseline)
  {
    hide Run, Covered, Consecutive, HonestRun;
    var s := Run(INITIAL, actions);
    OneMoreHonest(server, emitted, actions, Received(s.session.generation, true, m));
    RunOneMore(actions, Received(s.session.generation, true, m));
    ServedIsBegun(server, emitted, actions);
    RunKeepsAcks(actions);
    RunIsAtBaseline(server, emitted, actions + [Received(s.session.generation, true, m)]);
    HonestAnswerIsAccepted(server, s, m);
  }

  lemma ServedIsBegun(server: Server, emitted: (InstanceId, int) -> bool, actions: seq<Action>)
    requires HonestRun(server, emitted, actions)
    ensures forall v | v in server :: WellBegun(server[v])
  {
    hide Honest, WellMade, WellBegun;
  }

  lemma HonestAnswerIsAccepted(server: Server, s: State, m: Message)
    requires Inv(s) && AcksOk(s) && m.ReadyMessage?
    requires s.session.active && s.session.generation in s.log.requests && s.feed.subscription.None?
    requires Honest(server, s, Received(s.session.generation, true, m)) && (forall v | v in server :: WellBegun(server[v]))
    requires AtBaseline(Step(s, Received(s.session.generation, true, m)))
    ensures var t := Step(s, Received(s.session.generation, true, m));
      && Following(server, t) && t.session == s.session.(phase := Live, delay := FIRST_DELAY)
      && t.feed == Feed(Some(m.subscription), Some(m.instance), 0, m.baseline.sequence, m.baseline.revision)
      && t.accepted == Some(m.baseline)
  {
    hide IssuedOk, AcceptedOk;
    MovedIsSubscribed(s);
  }

  /** Why a section gives its connection up, if it was told. */
  ghost function FaultOf(a: Action): Option<Fault> {
    match a
    case SubscribeEnded(_, fault) => fault
    case AckEnded(_, fault) => fault
    case Received(_, _, ErrorMessage(fault)) => Some(fault)
    case Received(_, _, ClosedMessage(_, _, fault)) => Some(fault)
    case _ => None
  }

  /** The cursor is forgotten only when the daemon finds the coordinator too slow, so that everything is read anew. */
  lemma CursorIsForgottenWhen(s: State, a: Action)
    requires s.accepted.Some? && Step(s, a).accepted.None?
    ensures FaultOf(a).Some? && FaultOf(a).value.timedOut && Step(s, a).session.generation > s.session.generation
  {
    hide IsSound, IsRepeated, ApplyAll;
  }

  ghost function Power(n: nat): nat { if n == 0 then 1 else 2 * Power(n - 1) }

  /** One failed attempt after another: what is retried by its timer is given up again. */
  ghost function FailedAttempts(s: State, n: nat, fault: Fault): State {
    if n == 0 then s else Fail(Step(FailedAttempts(s, n - 1, fault), TimerFired), fault)
  }

  /** Every further failed attempt doubles the delay before the next, up to half a minute. */
  lemma {:induction false} RetriesBackOff(s: State, n: nat, fault: Fault)
    requires s.session.active && s.session.timer && fault.retryable && FIRST_DELAY <= s.session.delay <= LONGEST_DELAY
    ensures var t := FailedAttempts(s, n, fault);
      && t.session.active && t.session.timer
      && t.session.delay == if s.session.delay * Power(n) < LONGEST_DELAY then s.session.delay * Power(n) else LONGEST_DELAY
  {
    hide Fail, Step;
    if n != 0 {
      RetriesBackOff(s, n - 1, fault);
      FailedOnceMore(FailedAttempts(s, n - 1, fault), fault);
      assert s.session.delay * (2 * Power(n - 1)) == 2 * (s.session.delay * Power(n - 1));
    }
  }

  lemma FailedOnceMore(s: State, fault: Fault)
    requires s.session.active && s.session.timer && fault.retryable
    ensures var t := Fail(Step(s, TimerFired), fault);
      && t.session.active && t.session.timer
      && t.session.delay == if s.session.delay * 2 < LONGEST_DELAY then s.session.delay * 2 else LONGEST_DELAY
  {}

  /** The user's wish to try again starts the waiting anew. */
  lemma RetryStartsAfresh(s: State, n: nat, fault: Fault)
    requires s.session.active && fault.retryable
    ensures var t := FailedAttempts(Fail(Step(s, RetryCalled), fault), n, fault);
      && t.session.active && t.session.timer
      && t.session.delay == if FIRST_DELAY * Power(n + 1) < LONGEST_DELAY then FIRST_DELAY * Power(n + 1) else LONGEST_DELAY
  {
    RetriesBackOff(Fail(Step(s, RetryCalled), fault), n, fault);
  }

  /** The section tells that the present connection is over: it could not be opened, a batch could not be acknowledged, or
      the daemon says so, of the subscription there is. */
  ghost predicate TellsOf(s: State, a: Action) {
    && s.session.active
    && match a
       case SubscribeEnded(generation, _) => generation == s.session.generation && s.session.attempt == Opening(generation)
       case AckEnded(ack, _) => ack in s.acks && s.acks[ack].generation == s.session.generation
       case Received(generation, mine, m) =>
         && mine && generation == s.session.generation && generation in s.log.requests
         && (m.ClosedMessage? ==> s.feed.subscription == Some(m.subscription) && s.feed.instance == Some(m.instance))
       case _ => false
  }

  /** However the end of a connection is told, it is tried again exactly if that can help. */
  lemma FaultsAreHeeded(s: State, a: Action)
    requires TellsOf(s, a) && FaultOf(a).Some?
    ensures var session, fault := Step(s, a).session, FaultOf(a).value;
      && session.active && session.generation == s.session.generation + 1 && session.attempt.NoAttempt?
      && (session.timer <==> fault.retryable) && session.phase == if fault.retryable then Lost else Broken
    ensures Step(s, a).accepted == if FaultOf(a).value.timedOut then None else s.accepted
  {}

  // ---------------------------------------------------------------------------------------------
  // The coordinator
  // ---------------------------------------------------------------------------------------------

  /** The part of the coordinator that events come through. Each method is a synchronous section, and does to
      the coordinator what the step of the same section does to its value. */
  class EventConsumer {
    var session: Session
    var feed: Feed
    var accepted: Option<Cursor>
    var acks: map<AckId, Ack>
    var nextAck: nat
    var repeated: set<nat>
    var log: Log

    ghost function Snapshot(): State
      reads this
    { State(session, feed, accepted, acks, nextAck, repeated, log) }

    ghost predicate Valid()
      reads this
    { Inv(Snapshot()) }

    constructor ()
      ensures Valid() && Snapshot() == INITIAL
    {
      session, feed := Session(false, 0, NoAttempt, Trying, false, FIRST_DELAY), Feed(None, None, 0, 0, 0);
      accepted, acks, nextAck, repeated, log := None, map[], 0, {}, Log([], [], [], map[], map[], [], [], []);
      new;
      RunKeeps([]);
    }

    method BeginConnecting()
      modifies `session
      ensures Snapshot() == Connect(old(Snapshot()))
    {
      if !session.active {
        return;
      }
      session := session.(generation := session.generation + 1);
      session := session.(attempt := Closing(session.generation));
    }

    method Start()
      requires Valid()
      modifies `session
      ensures Valid() && Snapshot() == Step(old(Snapshot()), Started)
    {
      StepKeeps(Snapshot(), Started);
      if session.active {
        return;
      }
      session := session.(active := true);
      BeginConnecting();
    }

    method Retry()
      requires Valid()
      modifies `session
      ensures Valid() && Snapshot() == Step(old(Snapshot()), RetryCalled)
    {
      StepKeeps(Snapshot(), RetryCalled);
      if !session.active {
        return;
      }
      session := session.(timer := false, delay := FIRST_DELAY);
      BeginConnecting();
    }

    method TimerFires()
      requires Valid()
      modifies `session
      ensures Valid() && Snapshot() == Step(old(Snapshot()), TimerFired)
    {
      StepKeeps(Snapshot(), TimerFired);
      if session.timer {
        session := session.(timer := false);
        BeginConnecting();
      }
    }

    method Stop()
      requires Valid()
      modifies `session
      ensures Valid() && Snapshot() == Step(old(Snapshot()), Stopped)
    {
      StepKeeps(Snapshot(), Stopped);
      if !session.active {
        return;
      }
      session := session.(active := false, generation := session.generation + 1, attempt := NoAttempt, timer := false);
    }

    /** The connection before is closed; this one asks for its events. */
    method PriorIsClosed(generation: nat)
      requires Valid()
      modifies `session, `feed, `log
      ensures Valid() && Snapshot() == Step(old(Snapshot()), PriorClosed(generation))
    {
      StepKeeps(Snapshot(), PriorClosed(generation));
      if !session.active || generation != session.generation || session.attempt != Closing(generation) {
        return;
      }
      feed := feed.(subscription := None, instance := None, receivedBatch := 0);
      session := session.(phase := if accepted.None? then Trying else Lost, attempt := Opening(generation));
      log := log.(requests := log.requests[generation := accepted]);
    }

    method SubscribeIsOver(generation: nat, fault: Option<Fault>)
      requires Valid()
      modifies this
      ensures Valid() && Snapshot() == Step(old(Snapshot()), SubscribeEnded(generation, fault))
    {
      StepKeeps(Snapshot(), SubscribeEnded(generation, fault));
      if fault.None? {
        repeated := repeated - {generation};
      }
      if !session.active || generation != session.generation || session.attempt != Opening(generation) {
        return;
      }
      match fault
      case None => session := session.(attempt := Open(generation));
      case Some(f) => FailConnection(f);
    }

    method FailConnection(fault: Fault)
      modifies `session, `accepted
      ensures Snapshot() == Fail(old(Snapshot()), fault)
    {
      if fault.timedOut {
        accepted := None;
      }
      session := session.(generation := session.generation + 1, attempt := NoAttempt, timer := false,
                          phase := if fault.retryable then Lost else Broken);
      if fault.retryable && session.active {
        session := session.(timer := true, delay := if session.delay * 2 < LONGEST_DELAY then session.delay * 2 else LONGEST_DELAY);
      }
    }

    method ReceiveReady(m: Message)
      requires m.ReadyMessage?
      modifies this
      ensures Snapshot() == BecomeReady(old(Snapshot()), m)
    {
      if feed.subscription.Some? {
        FailConnection(PROTOCOL_FAULT);
        return;
      }
      feed := feed.(subscription := Some(m.subscription), instance := Some(m.instance));
      if !m.wellFormed || m.baseline.instance != m.instance || !SafeInteger(m.baseline.sequence) || m.baseline.sequence < 0
         || !SafeInteger(m.baseline.revision) || m.baseline.revision < 0 {
        FailConnection(PROTOCOL_FAULT);
        return;
      }
      feed := feed.(sequence := m.baseline.sequence, revision := m.baseline.revision);
      log := log.(bases := log.bases[session.generation := m.baseline]);
      if m.resyncRequired {
        accepted := Some(m.baseline);
        log := log.(resyncs := log.resyncs + [m.baseline]);
      }
      session := session.(phase := Live, delay := FIRST_DELAY);
    }

    /** Checks the events of a batch one by one. */
    method CheckEvents(events: seq<Event>) returns (sound: bool, last: int)
      ensures sound <==> EventsAreSound(events, feed.sequence)
      ensures sound ==> last == LastSequence(events, feed.sequence)
    {
      last := feed.sequence;
      for i := 0 to |events|
        invariant EventsAreSound(events, feed.sequence) <==> EventsAreSound(events[i..], last)
        invariant last == LastSequence(events[..i], feed.sequence)
      {
        assert events[i..][0] == events[i] && events[i..][1..] == events[i + 1..];
        if !SafeInteger(events[i].sequence) || events[i].sequence <= last || !events[i].wellFormed {
          return false, last;
        }
        last := events[i].sequence;
      }
      assert events[..|events|] == events && events[|events|..] == [];
      sound := true;
    }

    method ReceiveBatch(b: Batch)
      modifies this
      ensures Snapshot() == TakeBatch(old(Snapshot()), b)
    {
      hide EventsAreSound, LastSequence, ApplyAll;
      if feed.subscription == Some(b.subscription) && feed.instance == Some(b.instance) && b.id == feed.receivedBatch
         && b.next.sequence == feed.sequence && b.next.revision == feed.revision {
        if session.attempt.Opening? {
          repeated := repeated + {session.generation};
        }
        log := log.(acknowledged := log.acknowledged + [b.id]);
        return;
      }
      if feed.subscription != Some(b.subscription) || b.id != feed.receivedBatch + 1 || (b.events == [] && b.scopes == [])
         || feed.instance != Some(b.instance) || b.instance != b.next.instance || b.next.sequence < feed.sequence {
        FailConnection(PROTOCOL_FAULT);
        return;
      }
      if !SafeInteger(b.next.revision) || b.next.revision < feed.revision || (b.scopes != [] && b.next.revision <= feed.revision)
         || (b.scopes == [] && b.next.revision != feed.revision) || |b.scopes| > 2 || (|b.scopes| == 2 && b.scopes[0] == b.scopes[1])
         || exists scope | scope in b.scopes :: !scope.Extensions? && !scope.OperationLog? {
        FailConnection(PROTOCOL_FAULT);
        return;
      }
      var sound, last := CheckEvents(b.events);
      if !sound || last != b.next.sequence {
        FailConnection(PROTOCOL_FAULT);
        return;
      }
      ApplyEvents(b);
      InvalidateScopes(b);
      feed := feed.(receivedBatch := b.id, sequence := last, revision := b.next.revision);
      acks, nextAck := acks[nextAck := Ack(session.generation, b.next)], nextAck + 1;
      log := log.(acknowledged := log.acknowledged + [b.id], issued := log.issued + [Ack(session.generation, b.next)]);
    }

    method InvalidateScopes(b: Batch)
      modifies `log
      ensures log == old(log).(invalidated := old(log).invalidated + b.scopes)
    {
      for i := 0 to |b.scopes|
        invariant log == old(log).(invalidated := old(log).invalidated + b.scopes[..i])
      {
        log := log.(invalidated := log.invalidated + [b.scopes[i]]);
      }
      assert b.scopes[..|b.scopes|] == b.scopes;
    }

    method ApplyEvents(b: Batch)
      modifies `log
      ensures log == old(log).(applied := old(log).applied + ApplyAll(session.generation, b))
    {
      for i := 0 to |b.events|
        invariant log == old(log).(applied := old(log).applied + ApplyAll(session.generation, b)[..i])
      {
        log := log.(applied := log.applied + [Applied(session.generation, b.instance, b.events[i].sequence)]);
      }
    }

    /** A message comes to the callback of a request. */
    method ReceiveMessage(generation: nat, mine: bool, m: Message)
      requires Valid() && generation in log.requests
      modifies this
      ensures Valid() && Snapshot() == Step(old(Snapshot()), Received(generation, mine, m))
    {
      hide Inv, BecomeReady, TakeBatch, Fail;
      StepKeeps(Snapshot(), Received(generation, mine, m));
      if !session.active || !mine || generation != session.generation {
        return;
      }
      match m
      case ErrorMessage(fault) => FailConnection(fault);
      case ClosedMessage(subscription, instance, fault) =>
        if feed.subscription != Some(subscription) || feed.instance != Some(instance) {
          FailConnection(PROTOCOL_FAULT);
        } else {
          FailConnection(fault);
        }
      case ReadyMessage(_, _, _, _, _) => ReceiveReady(m);
      case BatchMessage(b) => ReceiveBatch(b);
      case UnknownMessage => FailConnection(PROTOCOL_FAULT);
    }

    method AckIsOver(ack: AckId, fault: Option<Fault>)
      requires Valid() && CanEnd(Snapshot(), ack, fault)
      modifies this
      ensures Valid() && Snapshot() == Step(old(Snapshot()), AckEnded(ack, fault))
    {
      hide Inv, Fail;
      StepKeeps(Snapshot(), AckEnded(ack, fault));
      var ended := acks[ack];
      acks := acks - {ack};
      if !session.active || ended.generation != session.generation {
        return;
      }
      match fault
      case None =>
        accepted := Some(ended.cursor);
        log := log.(moves := log.moves + [ack]);
      case Some(f) => FailConnection(f);
    }

    /** A repeated batch awaited an opening that was rejected: no generation is compared. */
    method RepeatedIsRejected(generation: nat)
      requires Valid() && generation in repeated
      modifies this
      ensures Valid() && Snapshot() == Step(old(Snapshot()), OpeningRejected(generation))
    {
      hide Inv, Fail;
      StepKeeps(Snapshot(), OpeningRejected(generation));
      repeated := repeated - {generation};
      FailConnection(PROTOCOL_FAULT);
    }
  }
}
