/** Single-flight reads of the GUI's event coordinator: callers of the same read share one promise, at most
    four requests run at a time, and a request that an invalidation overtakes is made again, so that no
    caller is given a value older than a change it was already told about. */
module ReadCoordination {
  import opened EventScopes
  import opened Wrappers

  type ReadId = nat
  type CallId = nat
  type ObjectId = nat

  /** The methods whose calls are coordinated. */
  datatype Rpc =
    | OperationsList | LogsRead | OperationGet | ProjectsList | ProjectGet | RepositoriesList | RepositoryGet
    | RepositoryPackages | UserPackagesList | UserPackageGet | UnityInstallationsList | UnityInstallationGet
    | UnityProjectLaunchConfigGet | UnityWriterState | UnityLaunchOptions | ProjectTemplatesList | BackupsList
    | BackupGet | ExtensionsList | ExtensionGet | ExtensionPermissionsList | PackageQueryProjectCandidates
    | SystemStatus | SettingsGet

  /** A read is identified by the connection it was created under, the method and its arguments; each
      settings read carries a number of its own. */
  datatype Key = Key(generation: nat, rpc: Rpc, args: seq<string>, sequence: nat) {
    function OperationId(): string { if args == [] then "undefined" else args[0] }

    /** An empty identifier is no operation: a read of it shares no version record, and is never overtaken. */
    predicate HasRecord() { rpc.OperationGet? && OperationId() != "" }
  }

  /** Where an unfinished read is. `Moving` is only ever seen inside a step. */
  datatype Place = Queued | Delayed | InFlight(call: CallId) | Moving

  /** An unfinished read. `holder` is the version record it shares with the other readers of its operation. */
  datatype Read = Read(key: Key, lastStart: Option<int>, place: Place, holder: Option<ObjectId>)

  /** The invalidations of one operation while anyone reads it; `held` are the reads counted by `readers`. */
  datatype OperationRead = OperationRead(version: nat, readers: int, held: set<ReadId>)

  /** A request under way. `superseded` is set once its answer has been looked at. */
  datatype Call = Call(read: ReadId, urgent: bool, version: seq<nat>, startTick: nat, superseded: Option<bool>)

  datatype Reply = Value(operationId: string, payload: string) | Failure

  datatype Outcome = Resolved(payload: string) | Rejected

  /** What a read was resolved with: when the request behind the value started, when it resolved. */
  datatype Resolution = Resolution(read: ReadId, key: Key, startTick: nat, tick: nat, generation: nat)

  datatype Connection = Connection(active: bool, ready: bool, generation: nat)

  datatype Versions = Versions(categories: map<Scope, nat>, records: map<string, ObjectId>,
                               objects: map<ObjectId, OperationRead>)

  datatype Urgency = Urgency(operations: set<string>, collections: set<Rpc>)

  datatype Queues = Queues(waiting: seq<ReadId>, delayed: seq<ReadId>)

  datatype Table = Table(reading: map<Key, ReadId>, unfinished: map<ReadId, Read>)

  datatype Flight = Flight(calls: map<CallId, Call>, running: int, normal: int)

  datatype Ids = Ids(read: nat, call: nat, record: nat, settings: nat)

  /** What happened so far: how reads ended, what they were resolved with, and what was invalidated when. */
  datatype Log = Log(outcomes: map<ReadId, Outcome>, resolutions: seq<Resolution>,
                     invalidations: seq<Invalidation>, tick: nat)

  datatype State = State(conn: Connection, versions: Versions, urgent: Urgency, queues: Queues, table: Table,
                         flight: Flight, ids: Ids, log: Log)

  // ---------------------------------------------------------------------------------------------
  // Versions
  // ---------------------------------------------------------------------------------------------

  /** The categories whose invalidation makes an answer stale, by method. */
  function Scopes(rpc: Rpc): seq<Scope> {
    match rpc
    case SettingsGet => []
    case SystemStatus => []
    case PackageQueryProjectCandidates => [Projects, Repositories, UserPackages]
    case OperationGet => [OperationProgress]
    case OperationsList => [Operations]
    case LogsRead => [OperationLog]
    case ProjectTemplatesList => [Templates]
    case ProjectsList => [Projects]
    case ProjectGet => [Projects]
    case RepositoriesList => [Repositories]
    case RepositoryGet => [Repositories]
    case RepositoryPackages => [Repositories]
    case UserPackagesList => [UserPackages]
    case UserPackageGet => [UserPackages]
    case UnityInstallationsList => [Unity, Projects]
    case UnityInstallationGet => [Unity, Projects]
    case UnityProjectLaunchConfigGet => [Unity, Projects]
    case UnityWriterState => [Unity, Projects]
    case UnityLaunchOptions => [Unity, Projects]
    case BackupsList => [Backups]
    case BackupGet => [Backups]
    case ExtensionsList => [Extensions]
    case ExtensionGet => [Extensions]
    case ExtensionPermissionsList => [Extensions]
  }

  /** The scopes whose invalidation makes this read's answer stale. */
  function Tracked(key: Key): seq<Scope> {
    if key.HasRecord() then [OperationOf(key.OperationId())] else if key.rpc.OperationGet? then [] else Scopes(key.rpc)
  }

  function CategoryVersion(categories: map<Scope, nat>, scope: Scope): nat {
    if scope in categories then categories[scope] else 0
  }

  /** The version a read compares: its operation's while it holds one, its categories' otherwise. */
  function Version(categories: map<Scope, nat>, objects: map<ObjectId, OperationRead>, read: Read): seq<nat> {
    if read.holder.Some? then
      if read.holder.value in objects then [objects[read.holder.value].version] else []
    else if read.key.rpc.OperationGet? then []
    else
      var scopes := Scopes(read.key.rpc);
      seq(|scopes|, i requires 0 <= i < |scopes| => CategoryVersion(categories, scopes[i]))
  }

  /** No invalidation of the scope since `tick`. */
  ghost predicate NoneSince(invalidations: seq<Invalidation>, scope: Scope, tick: nat) {
    forall i | 0 <= i < |invalidations| :: invalidations[i].scope == scope ==> invalidations[i].tick < tick
  }

  predicate IsUrgent(s: State, key: Key) {
    || (key.rpc.OperationGet? && key.OperationId() in s.urgent.operations)
    || key.rpc in s.urgent.collections
  }

  /** Reads are only made under the connection they were created for. */
  predicate Usable(s: State, read: Read) { s.conn.active && s.conn.ready && read.key.generation == s.conn.generation }

  // ---------------------------------------------------------------------------------------------
  // Steps
  // ---------------------------------------------------------------------------------------------

  function Remove(ids: seq<ReadId>, id: ReadId): (rest: seq<ReadId>)
    ensures |rest| <= |ids|
  {
    if ids == [] then [] else if ids[0] == id then ids[1..] else [ids[0]] + Remove(ids[1..], id)
  }

  function PutAt(s: State, id: ReadId, place: Place): State
    requires id in s.table.unfinished
  { s.(table := s.table.(unfinished := s.table.unfinished[id := s.table.unfinished[id].(place := place)])) }

  function Settle(outcomes: map<ReadId, Outcome>, id: ReadId, outcome: Outcome): map<ReadId, Outcome> {
    if id in outcomes then outcomes else outcomes[id := outcome]
  }

  /** A finished read gives up the version record it holds. */
  function ReleasedObjects(read: Read, id: ReadId, objects: map<ObjectId, OperationRead>): map<ObjectId, OperationRead> {
    if read.holder.None? || read.holder.value !in objects then objects
    else
      var record := objects[read.holder.value];
      objects[read.holder.value := record.(readers := record.readers - 1, held := record.held - {id})]
  }

  /** The last reader of an operation removes its version record, if it still is the current one. */
  function ReleasedRecords(read: Read, records: map<string, ObjectId>, objects: map<ObjectId, OperationRead>): map<string, ObjectId> {
    var operation := read.key.OperationId();
    if && read.holder.Some? && read.holder.value in objects && objects[read.holder.value].readers == 1
       && operation in records && records[operation] == read.holder.value
    then records - {operation} else records
  }

  /** Ends a read: it leaves every queue and the table of readers. */
  function Clean(s: State, id: ReadId): (r: State)
    ensures |r.queues.waiting| <= |s.queues.waiting| && |r.queues.delayed| <= |s.queues.delayed|
  {
    if id !in s.table.unfinished then s
    else
      var read := s.table.unfinished[id];
      s.(versions := s.versions.(objects := ReleasedObjects(read, id, s.versions.objects),
                                 records := ReleasedRecords(read, s.versions.records, s.versions.objects)),
         table := Table(Unlisted(s.table.reading, read.key, id), s.table.unfinished - {id}),
         queues := Queues(Remove(s.queues.waiting, id), Remove(s.queues.delayed, id)))
  }

  function Unlisted(reading: map<Key, ReadId>, key: Key, id: ReadId): map<Key, ReadId> {
    if key in reading && reading[key] == id then reading - {key} else reading
  }

  function Cancel(s: State, id: ReadId): (r: State)
    ensures |r.queues.waiting| <= |s.queues.waiting| && |r.queues.delayed| <= |s.queues.delayed|
  {
    if id !in s.table.unfinished then s
    else Clean(s.(log := s.log.(outcomes := Settle(s.log.outcomes, id, Rejected))), id)
  }

  /** Puts a read in the queue, or aside until it may be made again. */
  function Enqueue(s: State, id: ReadId, retry: bool, now: int): State {
    if id !in s.table.unfinished then s
    else if !Usable(s, s.table.unfinished[id]) then Cancel(s, id)
    else if retry && !IsUrgent(s, s.table.unfinished[id].key) && s.table.unfinished[id].lastStart.Some?
            && now < s.table.unfinished[id].lastStart.value + INTERVAL_MS
    then PutAt(s, id, Delayed).(queues := s.queues.(delayed := s.queues.delayed + [id]))
    else PutAt(s, id, Queued).(queues := s.queues.(waiting := s.queues.waiting + [id]))
  }

  /** Makes the request of a read taken from the queue. */
  function Start(s: State, id: ReadId, now: int): (r: State)
    ensures |r.queues.waiting| <= |s.queues.waiting|
  {
    if id !in s.table.unfinished then s
    else if !Usable(s, s.table.unfinished[id]) then Cancel(s, id)
    else Launch(s, id, Call(id, IsUrgent(s, s.table.unfinished[id].key),
                            Version(s.versions.categories, s.versions.objects, s.table.unfinished[id]), s.log.tick + 1, None), now)
  }

  function Launch(s: State, id: ReadId, call: Call, now: int): State
    requires id in s.table.unfinished
  {
    s.(table := s.table.(unfinished := s.table.unfinished[id :=
         s.table.unfinished[id].(place := InFlight(s.ids.call), lastStart := Some(now))]),
       flight := Flight(s.flight.calls[s.ids.call := call], s.flight.running + 1,
                        s.flight.normal + if call.urgent then 0 else 1),
       ids := s.ids.(call := s.ids.call + 1), log := s.log.(tick := call.startTick))
  }

  /** The first urgent read in the queue, or its length. */
  function FirstUrgent(s: State, from: nat): (index: nat)
    requires from <= |s.queues.waiting|
    ensures from <= index <= |s.queues.waiting|
    ensures forall i | from <= i < index :: s.queues.waiting[i] !in s.table.unfinished || !IsUrgent(s, s.table.unfinished[s.queues.waiting[i]].key)
    ensures index < |s.queues.waiting| ==>
      s.queues.waiting[index] in s.table.unfinished && IsUrgent(s, s.table.unfinished[s.queues.waiting[index]].key)
    decreases |s.queues.waiting| - from
  {
    if from == |s.queues.waiting| then from
    else if s.queues.waiting[from] in s.table.unfinished && IsUrgent(s, s.table.unfinished[s.queues.waiting[from]].key) then from
    else FirstUrgent(s, from + 1)
  }

  /** The position of the read the pump starts next, if a slot is free for one. */
  function NextToStart(s: State): (next: Option<nat>)
    ensures next.Some? ==> next.value < |s.queues.waiting|
  {
    if s.flight.running >= CONCURRENCY then None
    else
      var urgent := FirstUrgent(s, 0);
      if urgent < |s.queues.waiting| then Some(urgent)
      else if s.flight.normal >= NORMAL_CONCURRENCY || s.queues.waiting == [] then None
      else Some(0)
  }

  function TakeQueued(s: State, index: nat): (r: State)
    requires index < |s.queues.waiting|
    ensures |r.queues.waiting| == |s.queues.waiting| - 1
  {
    var id := s.queues.waiting[index];
    var rest := s.(queues := s.queues.(waiting := s.queues.waiting[..index] + s.queues.waiting[index + 1..]));
    if id in s.table.unfinished then PutAt(rest, id, Moving) else rest
  }

  function TakeDelayed(s: State, id: ReadId): State {
    var rest := s.(queues := s.queues.(delayed := Remove(s.queues.delayed, id)));
    if id in s.table.unfinished then PutAt(rest, id, Moving) else rest
  }

  /** Every delayed read that has become urgent goes to the queue, in the order they were put aside. In the
      program each of them pumps again, but such a pump first promotes the others, so nothing starts before all
      of them are in the queue. */
  function PromoteAll(s: State, ids: seq<ReadId>, now: int): State
    decreases |ids|
  {
    if ids == [] then s
    else if ids[0] in s.queues.delayed && ids[0] in s.table.unfinished && IsUrgent(s, s.table.unfinished[ids[0]].key)
    then PromoteAll(Enqueue(TakeDelayed(s, ids[0]), ids[0], true, now), ids[1..], now)
    else PromoteAll(s, ids[1..], now)
  }

  /** Starts queued reads until nothing more may start, urgent ones first. */
  function StartAll(s: State, now: int): State
    decreases |s.queues.waiting|
  {
    match NextToStart(s)
    case None => s
    case Some(index) => StartAll(Start(TakeQueued(s, index), s.queues.waiting[index], now), now)
  }

  function Pump(s: State, now: int): State {
    if !s.conn.active || !s.conn.ready then s
    else StartAll(PromoteAll(s, s.queues.delayed, now), now)
  }

  datatype Admission = Unavailable | Busy | Joined(read: ReadId) | Created(read: ReadId)

  function KeyFor(s: State, rpc: Rpc, args: seq<string>): Key {
    Key(s.conn.generation, rpc, args, if rpc.SettingsGet? then s.ids.settings + 1 else 0)
  }

  /** A caller joins the read already under way for its key, or creates one if there is room. */
  function Admit(s: State, rpc: Rpc, args: seq<string>): Admission {
    var key := KeyFor(s, rpc, args);
    if !s.conn.active || !s.conn.ready then Unavailable
    else if key in s.table.reading then Joined(s.table.reading[key])
    else if |s.table.reading| >= DIRTY_KEYS || |s.queues.waiting| >= DIRTY_KEYS then Busy
    else Created(s.ids.read)
  }

  /** The version record for an operation: the one its other readers hold, or a new one. */
  function Hold(s: State, id: ReadId, operation: string): (State, ObjectId) {
    var record := if operation in s.versions.records then s.versions.records[operation] else s.ids.record;
    var before := if record in s.versions.objects then s.versions.objects[record] else OperationRead(0, 0, {});
    var ids := if operation in s.versions.records then s.ids else s.ids.(record := s.ids.record + 1);
    (s.(versions := s.versions.(records := s.versions.records[operation := record],
          objects := s.versions.objects[record := before.(readers := before.readers + 1, held := before.held + {id})]),
        ids := ids), record)
  }

  /** A new read, not yet in the queue. */
  function Create(s: State, key: Key): State {
    var id := s.ids.read;
    var (held, holder) := if key.HasRecord() then
      var (t, record) := Hold(s, id, key.OperationId()); (t, Some(record)) else (s, None);
    held.(ids := held.ids.(read := id + 1),
          table := Table(s.table.reading[key := id], s.table.unfinished[id := Read(key, None, Moving, holder)]))
  }

  function ReadStep(s: State, rpc: Rpc, args: seq<string>, now: int): State {
    // The number of a settings read is taken before anything else is looked at.
    var key := KeyFor(s, rpc, args);
    var n := if s.conn.active && s.conn.ready && rpc.SettingsGet? then s.(ids := s.ids.(settings := s.ids.settings + 1)) else s;
    match Admit(s, rpc, args)
    case Created(id) => Pump(Enqueue(Create(n, key), id, false, now), now)
    case _ => n
  }

  /** Records a change of `scope`: whatever read it has to be answered by a request made from now on. */
  function Invalidate(s: State, scope: Scope): State {
    var category := if scope.OperationOf? then OperationProgress else scope;
    var bumped := if scope.OperationOf? && scope.id in s.versions.records && s.versions.records[scope.id] in s.versions.objects
      then
        var record := s.versions.records[scope.id];
        s.versions.objects[record := s.versions.objects[record].(version := s.versions.objects[record].version + 1)]
      else s.versions.objects;
    s.(versions := s.versions.(objects := bumped,
         categories := s.versions.categories[category := CategoryVersion(s.versions.categories, category) + 1]),
       log := s.log.(tick := s.log.tick + 1,
                     invalidations := s.log.invalidations + [Invalidation(s.log.tick + 1, scope)]))
  }

  /** What looking at an answer decides. */
  datatype Verdict = Late | Superseded | Refused | Accepted(payload: string)

  function Judge(s: State, call: Call, reply: Reply): Verdict {
    if reply.Failure? then Refused
    else if call.read !in s.table.unfinished || !s.conn.active || s.table.unfinished[call.read].key.generation != s.conn.generation then Late
    else
      var read := s.table.unfinished[call.read];
      if call.version != Version(s.versions.categories, s.versions.objects, read) then Superseded
      else if read.key.rpc.OperationGet? && reply.operationId != read.key.OperationId() then Refused
      else Accepted(reply.payload)
  }

  /** The answer of a call arrives: it resolves its read, fails it, or turns out to be overtaken. */
  function Answer(s: State, c: CallId, reply: Reply): State {
    if c !in s.flight.calls || s.flight.calls[c].superseded.Some? then s
    else
      var verdict := Judge(s, s.flight.calls[c], reply);
      SettleAnswer(s, c, verdict).(flight := s.flight.(calls :=
        s.flight.calls[c := s.flight.calls[c].(superseded := Some(verdict.Superseded?))]))
  }

  /** What a verdict means for the read of its call. */
  function SettleAnswer(s: State, c: CallId, verdict: Verdict): State
    requires c in s.flight.calls
  {
    var id := s.flight.calls[c].read;
    if id !in s.table.unfinished || verdict.Superseded? then s
    else if verdict.Accepted? && id !in s.log.outcomes then
      s.(log := s.log.(outcomes := s.log.outcomes[id := Resolved(verdict.payload)],
           resolutions := s.log.resolutions +
             [Resolution(id, s.table.unfinished[id].key, s.flight.calls[c].startTick, s.log.tick, s.conn.generation)]))
    else s.(log := s.log.(outcomes := Settle(s.log.outcomes, id, Rejected)))
  }

  /** A call leaves the books, and frees its slot. */
  function EndCall(s: State, c: CallId): State
    requires c in s.flight.calls
  {
    var call := s.flight.calls[c];
    var ended := s.(flight := Flight(s.flight.calls - {c}, s.flight.running - 1,
                                     s.flight.normal - if call.urgent then 0 else 1));
    if call.read in s.table.unfinished then PutAt(ended, call.read, Moving) else ended
  }

  /** What becomes of a read whose call has ended: an overtaken one is made again, any other is over. */
  function Resume(s: State, id: ReadId, superseded: bool, now: int): State {
    if id !in s.table.unfinished then s
    else if superseded && Usable(s, s.table.unfinished[id]) then Enqueue(s, id, true, now)
    else if superseded then Cancel(s, id)
    else Clean(s, id)
  }

  /** An answered call ends. */
  function Finish(s: State, c: CallId, now: int): State {
    if c !in s.flight.calls || s.flight.calls[c].superseded.None? then s
    else Pump(Resume(EndCall(s, c), s.flight.calls[c].read, s.flight.calls[c].superseded.value, now), now)
  }

  /** The timer of a delayed read fires. */
  function Wake(s: State, id: ReadId, now: int): State {
    if id !in s.queues.delayed then s
    else Pump(Enqueue(TakeDelayed(s, id), id, true, now), now)
  }

  function CancelAll(s: State, ids: seq<ReadId>): State
    decreases |ids|
  {
    if ids == [] then s else CancelAll(Cancel(s, ids[0]), ids[1..])
  }

  /** Cancels every unfinished read created before read `k`, oldest first. */
  function CancelBefore(s: State, k: nat): State {
    if k == 0 then s else Cancel(CancelBefore(s, k - 1), k - 1)
  }

  /** The connection is gone: what is queued and everything else unfinished is cancelled. Requests under way
      run on, and keep their slots until they end. */
  function CancelEverything(s: State): State {
    CancelBefore(CancelAll(s, s.queues.waiting), s.ids.read)
  }

  /** What happens to the coordinator, one synchronous section at a time. */
  datatype Action =
    | ReadCalled(rpc: Rpc, args: seq<string>, now: int)
    | Invalidated(scope: Scope)
    | UrgencyChanged(urgent: Urgency)
    | Pumped(now: int)
    | Answered(call: CallId, reply: Reply)
    | Finished(call: CallId, now: int)
    | TimerFired(read: ReadId, now: int)
    | Started
    | Connecting
    | Subscribing(generation: nat)
    | BecameReady
    | Failed
    | Stopped

  function Step(s: State, a: Action): State {
    match a
    case ReadCalled(rpc, args, now) => ReadStep(s, rpc, args, now)
    case Invalidated(scope) => Invalidate(s, scope)
    case UrgencyChanged(urgent) => s.(urgent := urgent)
    case Pumped(now) => Pump(s, now)
    case Answered(c, reply) => Answer(s, c, reply)
    case Finished(c, now) => Finish(s, c, now)
    case TimerFired(id, now) => Wake(s, id, now)
    case Started => s.(conn := s.conn.(active := true))
    case Connecting => if s.conn.active then s.(conn := s.conn.(generation := s.conn.generation + 1)) else s
    case Subscribing(generation) =>
      if s.conn.active && generation == s.conn.generation then s.(conn := s.conn.(ready := false)) else s
    case BecameReady => if s.conn.active then s.(conn := s.conn.(ready := true)) else s
    case Failed => CancelEverything(s.(conn := s.conn.(ready := false, generation := s.conn.generation + 1)))
    case Stopped =>
      if s.conn.active then CancelEverything(s.(conn := Connection(false, false, s.conn.generation + 1))) else s
  }

  function Run(s: State, actions: seq<Action>): State {
    if actions == [] then s else Step(Run(s, actions[..|actions| - 1]), actions[|actions| - 1])
  }

  const INITIAL := State(Connection(false, false, 0), Versions(map[], map[], map[]), Urgency({}, {}),
    Queues([], []), Table(map[], map[]), Flight(map[], 0, 0), Ids(0, 0, 0, 0), Log(map[], [], [], 0))

  // ---------------------------------------------------------------------------------------------
  // The invariant
  // ---------------------------------------------------------------------------------------------

  ghost predicate Unique(ids: seq<ReadId>) { forall i, j | 0 <= i < j < |ids| :: ids[i] != ids[j] }

  ghost predicate AtPlace(id: ReadId, place: Place, queue: seq<ReadId>, delayed: seq<ReadId>,
                          calls: map<CallId, Call>, moving: Option<ReadId>) {
    match place
    case Queued => id in queue
    case Delayed => id in delayed
    case InFlight(c) => c in calls && calls[c].read == id
    case Moving => moving == Some(id)
  }

  /** Every unfinished read is in exactly one place, and every place holds only unfinished reads. */
  ghost predicate PlacesOk(unfinished: map<ReadId, Read>, queue: seq<ReadId>, delayed: seq<ReadId>,
                           calls: map<CallId, Call>, moving: Option<ReadId>) {
    && Unique(queue) && Unique(delayed)
    && (moving.Some? ==> moving.value in unfinished && unfinished[moving.value].place.Moving?)
    && (forall id | id in queue :: id in unfinished && unfinished[id].place.Queued?)
    && (forall id | id in delayed :: id in unfinished && unfinished[id].place.Delayed?)
    && (forall id | id in unfinished :: AtPlace(id, unfinished[id].place, queue, delayed, calls, moving))
    && (forall c | c in calls && calls[c].read in unfinished :: unfinished[calls[c].read].place == InFlight(c))
  }

  /** The table of readers is exactly the unfinished reads, by key, and bounded. */
  ghost predicate KeysOk(unfinished: map<ReadId, Read>, reading: map<Key, ReadId>) {
    && (forall id | id in unfinished :: unfinished[id].key in reading && reading[unfinished[id].key] == id)
    && (forall k | k in reading :: reading[k] in unfinished && unfinished[reading[k]].key == k)
    && |reading| <= DIRTY_KEYS
  }

  ghost function NormalCalls(calls: map<CallId, Call>): set<CallId> { set c | c in calls && !calls[c].urgent }

  /** The counters are the true numbers of requests under way, and within the limits. */
  ghost predicate CountsOk(calls: map<CallId, Call>, running: int, normal: int) {
    && running == |calls| <= CONCURRENCY
    && normal == |NormalCalls(calls)| <= NORMAL_CONCURRENCY
  }

  /** Identifiers are handed out in order. */
  ghost predicate IdsOk(unfinished: map<ReadId, Read>, outcomes: map<ReadId, Outcome>, calls: map<CallId, Call>,
                        objects: map<ObjectId, OperationRead>, nextRead: nat, nextCall: nat, nextObject: nat) {
    && (forall id | id in unfinished :: id < nextRead)
    && (forall id | id in outcomes :: id < nextRead)
    && (forall c | c in calls :: c < nextCall && calls[c].read < nextRead)
    && (forall o | o in objects :: o < nextObject)
  }

  /** A read of an operation holds the operation's current version record. */
  ghost predicate HoldsCurrent(id: ReadId, read: Read, records: map<string, ObjectId>,
                               objects: map<ObjectId, OperationRead>) {
    if read.key.HasRecord() then
      && read.holder.Some? && read.key.OperationId() in records
      && records[read.key.OperationId()] == read.holder.value
      && read.holder.value in objects && id in objects[read.holder.value].held
    else read.holder.None?
  }

  /** A version record is kept while, and only while, unfinished reads hold it, and counts just those. */
  ghost predicate RecordExact(operation: string, record: ObjectId, unfinished: map<ReadId, Read>,
                              objects: map<ObjectId, OperationRead>) {
    && record in objects && objects[record].readers == |objects[record].held| && objects[record].held != {}
    && forall id | id in objects[record].held ::
      id in unfinished && unfinished[id].holder == Some(record)
      && unfinished[id].key.HasRecord() && unfinished[id].key.OperationId() == operation
  }

  ghost predicate HoldersOk(unfinished: map<ReadId, Read>, records: map<string, ObjectId>,
                            objects: map<ObjectId, OperationRead>) {
    && (forall id | id in unfinished :: HoldsCurrent(id, unfinished[id], records, objects))
    && (forall o | o in records :: RecordExact(o, records[o], unfinished, objects))
  }

  /** A call's version never exceeds its read's, and equals it exactly if nothing it tracks was invalidated
      since the call started. */
  ghost predicate Faithful(call: Call, key: Key, now: seq<nat>, invalidations: seq<Invalidation>) {
    var scopes := Tracked(key);
    && |call.version| == |now| == |scopes|
    && forall i | 0 <= i < |scopes| ::
      call.version[i] <= now[i] && (call.version[i] == now[i] <==> NoneSince(invalidations, scopes[i], call.startTick))
  }

  ghost predicate FreshOk(calls: map<CallId, Call>, unfinished: map<ReadId, Read>, categories: map<Scope, nat>,
                          objects: map<ObjectId, OperationRead>, invalidations: seq<Invalidation>) {
    forall c | c in calls && calls[c].read in unfinished ::
      var read := unfinished[calls[c].read];
      Faithful(calls[c], read.key, Version(categories, objects, read), invalidations)
  }

  ghost predicate AnsweredInFlight(place: Place, calls: map<CallId, Call>) {
    place.InFlight? && place.call in calls && calls[place.call].superseded == Some(false)
  }

  /** A read is unfinished or settled; while unfinished it is settled only between its answer and the end
      of its call. */
  ghost predicate OutcomesOk(unfinished: map<ReadId, Read>, outcomes: map<ReadId, Outcome>,
                             calls: map<CallId, Call>, nextRead: nat) {
    && (forall id: nat | id < nextRead :: id in unfinished || id in outcomes)
    && (forall id | id in unfinished && id in outcomes ::
          unfinished[id].place.Moving? || AnsweredInFlight(unfinished[id].place, calls))
    && (forall c | c in calls && calls[c].superseded == Some(false) && calls[c].read in unfinished ::
          calls[c].read in outcomes)
  }

  /** The value behind a resolved read was asked for after every invalidation of what the read tracks
      that came before it resolved, and under the connection it was created for and resolved under. */
  ghost predicate FreshResolution(entry: Resolution, invalidations: seq<Invalidation>) {
    && entry.startTick <= entry.tick && entry.key.generation == entry.generation
    && forall i | 0 <= i < |invalidations| && invalidations[i].scope in Tracked(entry.key) ::
      invalidations[i].tick < entry.startTick || entry.tick < invalidations[i].tick
  }

  ghost predicate Logged(resolutions: seq<Resolution>, id: ReadId) {
    exists i | 0 <= i < |resolutions| :: resolutions[i].read == id
  }

  /** Exactly the reads with a resolution on record resolved with a value, each has one, and every one is fresh. */
  ghost predicate LogOk(outcomes: map<ReadId, Outcome>, resolutions: seq<Resolution>,
                        invalidations: seq<Invalidation>, calls: map<CallId, Call>, tick: nat) {
    && (forall i | 0 <= i < |resolutions| ::
          FreshResolution(resolutions[i], invalidations) && resolutions[i].tick <= tick
          && resolutions[i].read in outcomes && outcomes[resolutions[i].read].Resolved?)
    && (forall id | id in outcomes && outcomes[id].Resolved? :: Logged(resolutions, id))
    && (forall i, j | 0 <= i < j < |resolutions| :: resolutions[i].read != resolutions[j].read)
    && (forall i | 0 <= i < |invalidations| :: invalidations[i].tick <= tick)
    && (forall c | c in calls :: calls[c].startTick <= tick)
  }

  ghost predicate InvWhile(s: State, moving: Option<ReadId>) {
    && PlacesOk(s.table.unfinished, s.queues.waiting, s.queues.delayed, s.flight.calls, moving)
    && KeysOk(s.table.unfinished, s.table.reading)
    && CountsOk(s.flight.calls, s.flight.running, s.flight.normal)
    && IdsOk(s.table.unfinished, s.log.outcomes, s.flight.calls, s.versions.objects, s.ids.read, s.ids.call, s.ids.record)
    && HoldersOk(s.table.unfinished, s.versions.records, s.versions.objects)
    && FreshOk(s.flight.calls, s.table.unfinished, s.versions.categories, s.versions.objects, s.log.invalidations)
    && OutcomesOk(s.table.unfinished, s.log.outcomes, s.flight.calls, s.ids.read)
    && LogOk(s.log.outcomes, s.log.resolutions, s.log.invalidations, s.flight.calls, s.log.tick)
  }

  ghost predicate Inv(s: State) { InvWhile(s, None) }

  // ---------------------------------------------------------------------------------------------
  // Every step keeps the invariant
  // ---------------------------------------------------------------------------------------------

  lemma {:induction false} RemoveExact(ids: seq<ReadId>, id: ReadId)
    requires Unique(ids)
    ensures Unique(Remove(ids, id))
    ensures forall other :: other in Remove(ids, id) <==> other in ids && other != id
  {
    if ids != [] {
      if ids[0] != id {
        RemoveExact(ids[1..], id);
      }
      assert forall other :: other in ids <==> other == ids[0] || other in ids[1..];
      assert ids[0] !in ids[1..];
    }
  }

  lemma ReleaseKeepsHolders(unfinished: map<ReadId, Read>, records: map<string, ObjectId>,
                            objects: map<ObjectId, OperationRead>, id: ReadId)
    requires HoldersOk(unfinished, records, objects) && id in unfinished
    ensures HoldersOk(unfinished - {id}, ReleasedRecords(unfinished[id], records, objects),
                      ReleasedObjects(unfinished[id], id, objects))
  {
    var read := unfinished[id];
    var left := unfinished - {id};
    var records', objects' := ReleasedRecords(read, records, objects), ReleasedObjects(read, id, objects);
    assert HoldsCurrent(id, read, records, objects);
    forall other | other in left
      ensures HoldsCurrent(other, left[other], records', objects')
    {
      assert HoldsCurrent(other, unfinished[other], records, objects);
      if read.holder.Some? && unfinished[other].holder == read.holder {
        assert RecordExact(read.key.OperationId(), read.holder.value, unfinished, objects);
        var held := objects[read.holder.value].held;
        assert other in held - {id} && |held - {id}| == |held| - 1;
      }
    }
    forall o | o in records'
      ensures RecordExact(o, records'[o], left, objects')
    {
      var record := records[o];
      assert RecordExact(o, record, unfinished, objects);
      if read.holder == Some(record) {
        assert RecordExact(read.key.OperationId(), record, unfinished, objects);
        assert o == read.key.OperationId();
        assert |objects[record].held - {id}| == |objects[record].held| - 1;
      } else {
        assert id !in objects[record].held;
      }
    }
  }

  lemma CleanKeepsPlaces(unfinished: map<ReadId, Read>, queue: seq<ReadId>, delayed: seq<ReadId>,
                         calls: map<CallId, Call>, moving: Option<ReadId>, id: ReadId)
    requires PlacesOk(unfinished, queue, delayed, calls, moving)
    requires id in unfinished && (moving.None? || moving == Some(id))
    ensures PlacesOk(unfinished - {id}, Remove(queue, id), Remove(delayed, id), calls, None)
  {
    RemoveExact(queue, id);
    RemoveExact(delayed, id);
    forall other | other in unfinished - {id}
      ensures AtPlace(other, unfinished[other].place, Remove(queue, id), Remove(delayed, id), calls, None)
    {
      assert AtPlace(other, unfinished[other].place, queue, delayed, calls, moving);
    }
  }

  lemma CleanKeepsKeys(unfinished: map<ReadId, Read>, reading: map<Key, ReadId>, id: ReadId)
    requires KeysOk(unfinished, reading) && id in unfinished
    ensures KeysOk(unfinished - {id}, Unlisted(reading, unfinished[id].key, id))
  {
    assert |reading - {unfinished[id].key}| == |reading| - 1;
  }

  /** Freshness only looks at versions, so it survives anything that leaves those alone. */
  lemma FreshFramed(calls: map<CallId, Call>, unfinished: map<ReadId, Read>, categories: map<Scope, nat>,
                    objects: map<ObjectId, OperationRead>, invalidations: seq<Invalidation>,
                    left: map<ReadId, Read>, objects': map<ObjectId, OperationRead>)
    requires FreshOk(calls, unfinished, categories, objects, invalidations)
    requires forall id | id in left && id in unfinished ::
      left[id].key == unfinished[id].key && left[id].holder == unfinished[id].holder
    requires forall c | c in calls && calls[c].read in left :: calls[c].read in unfinished
    requires forall id | id in left && left[id].holder.Some? && id in unfinished ::
      (left[id].holder.value in objects <==> left[id].holder.value in objects')
      && (left[id].holder.value in objects ==> objects[left[id].holder.value].version == objects'[left[id].holder.value].version)
    ensures FreshOk(calls, left, categories, objects', invalidations)
  {
    forall c | c in calls && calls[c].read in left
      ensures Faithful(calls[c], left[calls[c].read].key, Version(categories, objects', left[calls[c].read]), invalidations)
    {
      var read := unfinished[calls[c].read];
      assert Faithful(calls[c], read.key, Version(categories, objects, read), invalidations);
      assert Version(categories, objects', left[calls[c].read]) == Version(categories, objects, read);
    }
  }

  lemma CancelKeepsOutcomes(unfinished: map<ReadId, Read>, outcomes: map<ReadId, Outcome>,
                            calls: map<CallId, Call>, nextRead: nat, id: ReadId,
                            resolutions: seq<Resolution>, invalidations: seq<Invalidation>, tick: nat)
    requires OutcomesOk(unfinished, outcomes, calls, nextRead)
    requires LogOk(outcomes, resolutions, invalidations, calls, tick)
    ensures OutcomesOk(unfinished - {id}, Settle(outcomes, id, Rejected), calls, nextRead)
    ensures LogOk(Settle(outcomes, id, Rejected), resolutions, invalidations, calls, tick)
  {
    forall other | other in Settle(outcomes, id, Rejected) && Settle(outcomes, id, Rejected)[other].Resolved?
      ensures Logged(resolutions, other)
    {
      assert outcomes[other].Resolved?;
    }
  }

  lemma ReleaseKeepsFresh(calls: map<CallId, Call>, unfinished: map<ReadId, Read>, categories: map<Scope, nat>,
                          objects: map<ObjectId, OperationRead>, invalidations: seq<Invalidation>, id: ReadId)
    requires FreshOk(calls, unfinished, categories, objects, invalidations) && id in unfinished
    ensures FreshOk(calls, unfinished - {id}, categories, ReleasedObjects(unfinished[id], id, objects), invalidations)
  {
    FreshFramed(calls, unfinished, categories, objects, invalidations,
                unfinished - {id}, ReleasedObjects(unfinished[id], id, objects));
  }

  lemma CancelKeepsIds(unfinished: map<ReadId, Read>, outcomes: map<ReadId, Outcome>, calls: map<CallId, Call>,
                       objects: map<ObjectId, OperationRead>, nextRead: nat, nextCall: nat, nextObject: nat, id: ReadId)
    requires IdsOk(unfinished, outcomes, calls, objects, nextRead, nextCall, nextObject) && id in unfinished
    ensures IdsOk(unfinished - {id}, Settle(outcomes, id, Rejected), calls,
                  ReleasedObjects(unfinished[id], id, objects), nextRead, nextCall, nextObject)
  {}

  lemma CancelKeeps(s: State, id: ReadId, moving: Option<ReadId>)
    requires InvWhile(s, moving) && id in s.table.unfinished && (moving.None? || moving == Some(id))
    ensures Inv(Cancel(s, id))
    ensures Cancel(s, id).table.unfinished == s.table.unfinished - {id}
  {
    hide PlacesOk, KeysOk, CountsOk, IdsOk, HoldersOk, FreshOk, OutcomesOk, LogOk;
    hide Remove, Settle, ReleasedObjects, ReleasedRecords, Unlisted;
    CleanKeepsPlaces(s.table.unfinished, s.queues.waiting, s.queues.delayed, s.flight.calls, moving, id);
    CleanKeepsKeys(s.table.unfinished, s.table.reading, id);
    ReleaseKeepsHolders(s.table.unfinished, s.versions.records, s.versions.objects, id);
    ReleaseKeepsFresh(s.flight.calls, s.table.unfinished, s.versions.categories, s.versions.objects, s.log.invalidations, id);
    CancelKeepsOutcomes(s.table.unfinished, s.log.outcomes, s.flight.calls, s.ids.read, id, s.log.resolutions, s.log.invalidations, s.log.tick);
    CancelKeepsIds(s.table.unfinished, s.log.outcomes, s.flight.calls, s.versions.objects, s.ids.read, s.ids.call, s.ids.record, id);
  }

  /** Moving a read changes neither who it is nor what it holds. */
  lemma RelocateKeeps(s: State, id: ReadId, read: Read)
    requires id in s.table.unfinished && read.key == s.table.unfinished[id].key && read.holder == s.table.unfinished[id].holder
    requires KeysOk(s.table.unfinished, s.table.reading) && HoldersOk(s.table.unfinished, s.versions.records, s.versions.objects)
    requires FreshOk(s.flight.calls, s.table.unfinished, s.versions.categories, s.versions.objects, s.log.invalidations)
    requires IdsOk(s.table.unfinished, s.log.outcomes, s.flight.calls, s.versions.objects, s.ids.read, s.ids.call, s.ids.record)
    ensures var moved := s.table.unfinished[id := read];
      && KeysOk(moved, s.table.reading) && HoldersOk(moved, s.versions.records, s.versions.objects)
      && FreshOk(s.flight.calls, moved, s.versions.categories, s.versions.objects, s.log.invalidations)
      && IdsOk(moved, s.log.outcomes, s.flight.calls, s.versions.objects, s.ids.read, s.ids.call, s.ids.record)
  {
    var moved := s.table.unfinished[id := read];
    RelocateKeepsHolders(s.table.unfinished, id, read, s.versions.records, s.versions.objects);
    hide HoldersOk, Faithful;
    assert FreshOk(s.flight.calls, moved, s.versions.categories, s.versions.objects, s.log.invalidations) by {
      FreshFramed(s.flight.calls, s.table.unfinished, s.versions.categories, s.versions.objects, s.log.invalidations, moved, s.versions.objects);
    }
  }

  lemma RelocateKeepsHolders(unfinished: map<ReadId, Read>, id: ReadId, read: Read,
                             records: map<string, ObjectId>, objects: map<ObjectId, OperationRead>)
    requires id in unfinished && read.key == unfinished[id].key && read.holder == unfinished[id].holder
    requires HoldersOk(unfinished, records, objects)
    ensures HoldersOk(unfinished[id := read], records, objects)
  {
    var moved := unfinished[id := read];
    forall other | other in moved
      ensures HoldsCurrent(other, moved[other], records, objects)
    {
      assert HoldsCurrent(other, unfinished[other], records, objects);
    }
    forall o | o in records
      ensures RecordExact(o, records[o], moved, objects)
    {
      assert RecordExact(o, records[o], unfinished, objects);
    }
  }

  lemma EnqueueKeepsPlaces(unfinished: map<ReadId, Read>, queue: seq<ReadId>, delayed: seq<ReadId>,
                           calls: map<CallId, Call>, id: ReadId, outcomes: map<ReadId, Outcome>, nextRead: nat)
    requires PlacesOk(unfinished, queue, delayed, calls, Some(id))
    requires OutcomesOk(unfinished, outcomes, calls, nextRead) && id !in outcomes
    ensures var queued := unfinished[id := unfinished[id].(place := Queued)];
      PlacesOk(queued, queue + [id], delayed, calls, None) && OutcomesOk(queued, outcomes, calls, nextRead)
    ensures var aside := unfinished[id := unfinished[id].(place := Delayed)];
      PlacesOk(aside, queue, delayed + [id], calls, None) && OutcomesOk(aside, outcomes, calls, nextRead)
  {
    forall other | other in unfinished && other != id
      ensures AtPlace(other, unfinished[other].place, queue + [id], delayed, calls, None)
      ensures AtPlace(other, unfinished[other].place, queue, delayed + [id], calls, None)
    {
      assert AtPlace(other, unfinished[other].place, queue, delayed, calls, Some(id));
    }
  }

  lemma EnqueueKeeps(s: State, id: ReadId, retry: bool, now: int)
    requires InvWhile(s, Some(id)) && id in s.table.unfinished && id !in s.log.outcomes
    ensures Inv(Enqueue(s, id, retry, now))
  {
    if !Usable(s, s.table.unfinished[id]) {
      CancelKeeps(s, id, Some(id));
    } else {
      hide PlacesOk, KeysOk, CountsOk, IdsOk, HoldersOk, FreshOk, OutcomesOk, LogOk;
      EnqueueKeepsPlaces(s.table.unfinished, s.queues.waiting, s.queues.delayed, s.flight.calls, id, s.log.outcomes, s.ids.read);
      RelocateKeeps(s, id, s.table.unfinished[id].(place := Queued));
      RelocateKeeps(s, id, s.table.unfinished[id].(place := Delayed));
    }
  }

  lemma TakeQueuedKeepsPlaces(unfinished: map<ReadId, Read>, queue: seq<ReadId>, delayed: seq<ReadId>,
                              calls: map<CallId, Call>, outcomes: map<ReadId, Outcome>, nextRead: nat, index: nat)
    requires PlacesOk(unfinished, queue, delayed, calls, None) && OutcomesOk(unfinished, outcomes, calls, nextRead)
    requires index < |queue|
    ensures queue[index] in unfinished && queue[index] !in outcomes
    ensures var next := queue[index]; var moved := unfinished[next := unfinished[next].(place := Moving)];
      && PlacesOk(moved, queue[..index] + queue[index + 1..], delayed, calls, Some(next))
      && OutcomesOk(moved, outcomes, calls, nextRead)
  {
    var next, left := queue[index], queue[..index] + queue[index + 1..];
    assert next in queue;
    assert forall i | 0 <= i < |left| :: left[i] == queue[if i < index then i else i + 1];
    forall other | other in unfinished && other != next
      ensures AtPlace(other, unfinished[other].place, left, delayed, calls, Some(next))
    {
      assert AtPlace(other, unfinished[other].place, queue, delayed, calls, None);
      if other in queue {
        var k :| 0 <= k < |queue| && queue[k] == other;
        assert left[if k < index then k else k - 1] == other;
      }
    }
  }

  lemma TakeDelayedKeepsPlaces(unfinished: map<ReadId, Read>, queue: seq<ReadId>, delayed: seq<ReadId>,
                               calls: map<CallId, Call>, outcomes: map<ReadId, Outcome>, nextRead: nat, id: ReadId)
    requires PlacesOk(unfinished, queue, delayed, calls, None) && OutcomesOk(unfinished, outcomes, calls, nextRead)
    requires id in delayed
    ensures id in unfinished && id !in outcomes
    ensures var moved := unfinished[id := unfinished[id].(place := Moving)];
      && PlacesOk(moved, queue, Remove(delayed, id), calls, Some(id))
      && OutcomesOk(moved, outcomes, calls, nextRead)
  {
    RemoveExact(delayed, id);
    forall other | other in unfinished && other != id
      ensures AtPlace(other, unfinished[other].place, queue, Remove(delayed, id), calls, Some(id))
    {
      assert AtPlace(other, unfinished[other].place, queue, delayed, calls, None);
    }
  }

  lemma TakeQueuedKeeps(s: State, index: nat)
    requires Inv(s) && index < |s.queues.waiting|
    ensures s.queues.waiting[index] in s.table.unfinished && s.queues.waiting[index] !in s.log.outcomes
    ensures InvWhile(TakeQueued(s, index), Some(s.queues.waiting[index]))
  {
    hide PlacesOk, KeysOk, CountsOk, IdsOk, HoldersOk, FreshOk, OutcomesOk, LogOk, Remove;
    TakeQueuedKeepsPlaces(s.table.unfinished, s.queues.waiting, s.queues.delayed, s.flight.calls, s.log.outcomes, s.ids.read, index);
    var next := s.queues.waiting[index];
    RelocateKeeps(s, next, s.table.unfinished[next].(place := Moving));
  }

  lemma TakeDelayedKeeps(s: State, id: ReadId)
    requires Inv(s) && id in s.queues.delayed
    ensures id in s.table.unfinished && id !in s.log.outcomes && InvWhile(TakeDelayed(s, id), Some(id))
  {
    hide PlacesOk, KeysOk, CountsOk, IdsOk, HoldersOk, FreshOk, OutcomesOk, LogOk, Remove;
    TakeDelayedKeepsPlaces(s.table.unfinished, s.queues.waiting, s.queues.delayed, s.flight.calls, s.log.outcomes, s.ids.read, id);
    RelocateKeeps(s, id, s.table.unfinished[id].(place := Moving));
  }

  lemma StartKeepsCalls(calls: map<CallId, Call>, running: int, normal: int, c: CallId, call: Call)
    requires CountsOk(calls, running, normal) && c !in calls
    requires running < CONCURRENCY && (call.urgent || normal < NORMAL_CONCURRENCY)
    ensures CountsOk(calls[c := call], running + 1, normal + if call.urgent then 0 else 1)
  {
    var grown := calls[c := call];
    assert grown.Keys == calls.Keys + {c};
    assert |grown.Keys| == |calls| + 1;
    if call.urgent {
      assert NormalCalls(grown) == NormalCalls(calls);
    } else {
      assert NormalCalls(grown) == NormalCalls(calls) + {c};
    }
  }

  lemma StartKeepsPlaces(unfinished: map<ReadId, Read>, queue: seq<ReadId>, delayed: seq<ReadId>,
                         calls: map<CallId, Call>, outcomes: map<ReadId, Outcome>, nextRead: nat,
                         id: ReadId, c: CallId, call: Call, now: int)
    requires PlacesOk(unfinished, queue, delayed, calls, Some(id)) && OutcomesOk(unfinished, outcomes, calls, nextRead)
    requires c !in calls && call.read == id && call.superseded.None? && id !in outcomes
    requires forall id | id in unfinished :: unfinished[id].place != InFlight(c)
    ensures var started := unfinished[id := unfinished[id].(place := InFlight(c), lastStart := Some(now))];
      && PlacesOk(started, queue, delayed, calls[c := call], None)
      && OutcomesOk(started, outcomes, calls[c := call], nextRead)
  {
    forall other | other in unfinished && other != id
      ensures AtPlace(other, unfinished[other].place, queue, delayed, calls[c := call], None)
    {
      assert AtPlace(other, unfinished[other].place, queue, delayed, calls, Some(id));
    }
  }

  lemma StartKeepsFresh(s: State, call: Call)
    requires FreshOk(s.flight.calls, s.table.unfinished, s.versions.categories, s.versions.objects, s.log.invalidations)
    requires HoldersOk(s.table.unfinished, s.versions.records, s.versions.objects)
    requires LogOk(s.log.outcomes, s.log.resolutions, s.log.invalidations, s.flight.calls, s.log.tick)
    requires IdsOk(s.table.unfinished, s.log.outcomes, s.flight.calls, s.versions.objects, s.ids.read, s.ids.call, s.ids.record)
    requires call.read in s.table.unfinished && call.startTick == s.log.tick + 1
    requires call.version == Version(s.versions.categories, s.versions.objects, s.table.unfinished[call.read])
    ensures var calls := s.flight.calls[s.ids.call := call];
      && FreshOk(calls, s.table.unfinished, s.versions.categories, s.versions.objects, s.log.invalidations)
      && LogOk(s.log.outcomes, s.log.resolutions, s.log.invalidations, calls, s.log.tick + 1)
      && IdsOk(s.table.unfinished, s.log.outcomes, calls, s.versions.objects, s.ids.read, s.ids.call + 1, s.ids.record)
  {
    assert HoldsCurrent(call.read, s.table.unfinished[call.read], s.versions.records, s.versions.objects);
    assert Faithful(call, s.table.unfinished[call.read].key, call.version, s.log.invalidations);
  }

  lemma NextCallUnused(s: State, moving: Option<ReadId>)
    requires PlacesOk(s.table.unfinished, s.queues.waiting, s.queues.delayed, s.flight.calls, moving)
    requires IdsOk(s.table.unfinished, s.log.outcomes, s.flight.calls, s.versions.objects, s.ids.read, s.ids.call, s.ids.record)
    ensures s.ids.call !in s.flight.calls
    ensures forall other | other in s.table.unfinished :: s.table.unfinished[other].place != InFlight(s.ids.call)
  {
    forall other | other in s.table.unfinished
      ensures s.table.unfinished[other].place != InFlight(s.ids.call)
    {
      assert AtPlace(other, s.table.unfinished[other].place, s.queues.waiting, s.queues.delayed, s.flight.calls, moving);
    }
  }

  lemma LaunchKeeps(s: State, id: ReadId, call: Call, now: int)
    requires InvWhile(s, Some(id)) && id in s.table.unfinished && id !in s.log.outcomes
    requires s.flight.running < CONCURRENCY && (call.urgent || s.flight.normal < NORMAL_CONCURRENCY)
    requires call.read == id && call.superseded.None? && call.startTick == s.log.tick + 1
    requires call.version == Version(s.versions.categories, s.versions.objects, s.table.unfinished[id])
    ensures Inv(Launch(s, id, call, now))
  {
    hide PlacesOk, KeysOk, CountsOk, IdsOk, HoldersOk, FreshOk, OutcomesOk, LogOk, Version;
    NextCallUnused(s, Some(id));
    StartKeepsCalls(s.flight.calls, s.flight.running, s.flight.normal, s.ids.call, call);
    StartKeepsPlaces(s.table.unfinished, s.queues.waiting, s.queues.delayed, s.flight.calls, s.log.outcomes, s.ids.read,
                     id, s.ids.call, call, now);
    StartKeepsFresh(s, call);
    RelocateKeeps(s.(flight := s.flight.(calls := s.flight.calls[s.ids.call := call]), ids := s.ids.(call := s.ids.call + 1)), id,
                  s.table.unfinished[id].(place := InFlight(s.ids.call), lastStart := Some(now)));
  }

  lemma StartKeeps(s: State, id: ReadId, now: int)
    requires InvWhile(s, Some(id)) && id in s.table.unfinished && id !in s.log.outcomes
    requires s.flight.running < CONCURRENCY
    requires IsUrgent(s, s.table.unfinished[id].key) || s.flight.normal < NORMAL_CONCURRENCY
    ensures Inv(Start(s, id, now))
  {
    hide Inv, InvWhile, Launch, Version, IsUrgent;
    if !Usable(s, s.table.unfinished[id]) {
      CancelKeeps(s, id, Some(id));
    } else {
      LaunchKeeps(s, id, Call(id, IsUrgent(s, s.table.unfinished[id].key),
                              Version(s.versions.categories, s.versions.objects, s.table.unfinished[id]), s.log.tick + 1, None), now);
    }
  }

  lemma {:induction false} PromoteAllKeeps(s: State, ids: seq<ReadId>, now: int)
    requires Inv(s)
    ensures Inv(PromoteAll(s, ids, now))
    decreases |ids|
  {
    hide Inv, InvWhile, Enqueue, TakeDelayed, IsUrgent;
    if ids != [] {
      if ids[0] in s.queues.delayed && ids[0] in s.table.unfinished && IsUrgent(s, s.table.unfinished[ids[0]].key) {
        TakeDelayedKeeps(s, ids[0]);
        TakeDelayedFrame(s, ids[0]);
        EnqueueKeeps(TakeDelayed(s, ids[0]), ids[0], true, now);
        PromoteAllKeeps(Enqueue(TakeDelayed(s, ids[0]), ids[0], true, now), ids[1..], now);
      } else {
        PromoteAllKeeps(s, ids[1..], now);
      }
    }
  }

  lemma TakeDelayedFrame(s: State, id: ReadId)
    requires id in s.table.unfinished
    ensures id in TakeDelayed(s, id).table.unfinished && TakeDelayed(s, id).log.outcomes == s.log.outcomes
  {}

  lemma {:induction false} StartAllKeeps(s: State, now: int)
    requires Inv(s)
    ensures Inv(StartAll(s, now)) && NextToStart(StartAll(s, now)).None?
    decreases |s.queues.waiting|
  {
    var next := NextToStart(s);
    if next.Some? {
      var id := s.queues.waiting[next.value];
      TakeQueuedKeeps(s, next.value);
      StartKeeps(TakeQueued(s, next.value), id, now);
      StartAllKeeps(Start(TakeQueued(s, next.value), id, now), now);
    }
  }

  lemma {:induction false} RemoveSubset(ids: seq<ReadId>, id: ReadId)
    ensures forall other | other in Remove(ids, id) :: other in ids
  {
    if ids != [] && ids[0] != id {
      RemoveSubset(ids[1..], id);
    }
  }

  /** Nothing was set aside, and what is unfinished still is what it was. */
  ghost predicate SetNothingAside(s: State, r: State) {
    && r.urgent == s.urgent && (forall id | id in r.queues.delayed :: id in s.queues.delayed)
    && forall id | id in r.table.unfinished ::
      id in s.table.unfinished && r.table.unfinished[id].key == s.table.unfinished[id].key
  }

  ghost predicate UrgentlyAside(s: State, id: ReadId) {
    id in s.queues.delayed && id in s.table.unfinished && IsUrgent(s, s.table.unfinished[id].key)
  }

  lemma CancelSetsNothingAside(s: State, id: ReadId)
    ensures SetNothingAside(s, Cancel(s, id))
  {
    RemoveSubset(s.queues.delayed, id);
  }

  lemma PromoteSetsNothingAside(s: State, id: ReadId, now: int)
    requires Inv(s) && UrgentlyAside(s, id)
    ensures var r := Enqueue(TakeDelayed(s, id), id, true, now); SetNothingAside(s, r) && id !in r.queues.delayed
  {
    hide CountsOk, KeysOk, IdsOk, HoldersOk, FreshOk, OutcomesOk, LogOk, Cancel;
    RemoveExact(s.queues.delayed, id);
    CancelSetsNothingAside(TakeDelayed(s, id), id);
  }

  lemma {:induction false} PromoteAllMissesNone(s: State, ids: seq<ReadId>, now: int)
    requires Inv(s)
    ensures SetNothingAside(s, PromoteAll(s, ids, now))
    ensures forall id | id in ids :: !UrgentlyAside(PromoteAll(s, ids, now), id)
    decreases |ids|
  {
    hide Inv, InvWhile, Enqueue, TakeDelayed;
    if ids != [] {
      if UrgentlyAside(s, ids[0]) {
        TakeDelayedKeeps(s, ids[0]);
        TakeDelayedFrame(s, ids[0]);
        EnqueueKeeps(TakeDelayed(s, ids[0]), ids[0], true, now);
        PromoteSetsNothingAside(s, ids[0], now);
        PromoteAllMissesNone(Enqueue(TakeDelayed(s, ids[0]), ids[0], true, now), ids[1..], now);
      } else {
        PromoteAllMissesNone(s, ids[1..], now);
      }
      assert forall id | id in ids :: id == ids[0] || id in ids[1..];
    }
  }

  lemma {:induction false} StartAllSetsNothingAside(s: State, now: int)
    ensures SetNothingAside(s, StartAll(s, now))
    decreases |s.queues.waiting|
  {
    var next := NextToStart(s);
    if next.Some? {
      var id, t := s.queues.waiting[next.value], TakeQueued(s, next.value);
      CancelSetsNothingAside(t, id);
      hide Cancel, IsUrgent, Version, NextToStart;
      StartAllSetsNothingAside(Start(t, id, now), now);
    }
  }

  /** A pump leaves the invariant intact and nothing behind that could go on: an urgent read is not set aside
      and waits only while every slot is taken, any other read waits only while every slot or every normal
      slot is. */
  lemma PumpKeeps(s: State, now: int)
    requires Inv(s)
    ensures Inv(Pump(s, now))
    ensures s.conn.active && s.conn.ready ==> Drained(Pump(s, now))
  {
    hide Inv, InvWhile, PromoteAll, StartAll, NextToStart, Drained;
    if s.conn.active && s.conn.ready {
      var promoted := PromoteAll(s, s.queues.delayed, now);
      PromoteAllKeeps(s, s.queues.delayed, now);
      StartAllKeeps(promoted, now);
      PromoteAllMissesNone(s, s.queues.delayed, now);
      StartAllSetsNothingAside(promoted, now);
      NothingGoesOn(s.queues.delayed, promoted, StartAll(promoted, now));
    }
  }

  lemma NothingGoesOn(delayed: seq<ReadId>, promoted: State, s: State)
    requires NextToStart(s).None? && SetNothingAside(promoted, s)
    requires forall id | id in promoted.queues.delayed :: id in delayed
    requires forall id | id in delayed :: !UrgentlyAside(promoted, id)
    ensures Drained(s)
  {
    forall id | UrgentlyAside(s, id)
      ensures false
    {
      assert UrgentlyAside(promoted, id);
    }
  }

  ghost predicate Drained(s: State) {
    && (forall id :: !UrgentlyAside(s, id))
    && forall id | id in s.queues.waiting && id in s.table.unfinished ::
      s.flight.running >= CONCURRENCY
      || (!IsUrgent(s, s.table.unfinished[id].key) && s.flight.normal >= NORMAL_CONCURRENCY)
  }

  lemma EndCallKeepsCalls(calls: map<CallId, Call>, running: int, normal: int, c: CallId)
    requires CountsOk(calls, running, normal) && c in calls
    ensures CountsOk(calls - {c}, running - 1, normal - if calls[c].urgent then 0 else 1)
  {
    assert (calls - {c}).Keys == calls.Keys - {c};
    if calls[c].urgent {
      assert NormalCalls(calls - {c}) == NormalCalls(calls);
    } else {
      assert NormalCalls(calls - {c}) == NormalCalls(calls) - {c};
    }
  }

  lemma EndCallKeepsPlaces(unfinished: map<ReadId, Read>, queue: seq<ReadId>, delayed: seq<ReadId>,
                           calls: map<CallId, Call>, outcomes: map<ReadId, Outcome>, nextRead: nat, c: CallId)
    requires PlacesOk(unfinished, queue, delayed, calls, None) && OutcomesOk(unfinished, outcomes, calls, nextRead)
    requires c in calls
    ensures var id := calls[c].read;
      if id in unfinished then
        var moved := unfinished[id := unfinished[id].(place := Moving)];
        && PlacesOk(moved, queue, delayed, calls - {c}, Some(id)) && OutcomesOk(moved, outcomes, calls - {c}, nextRead)
      else PlacesOk(unfinished, queue, delayed, calls - {c}, None) && OutcomesOk(unfinished, outcomes, calls - {c}, nextRead)
    ensures calls[c].read in unfinished ==>
      (calls[c].superseded == Some(false) ==> calls[c].read in outcomes)
      && (calls[c].superseded != Some(false) ==> calls[c].read !in outcomes)
  {
    var id := calls[c].read;
    forall other | other in unfinished && other != id
      ensures AtPlace(other, unfinished[other].place, queue, delayed, calls - {c}, if id in unfinished then Some(id) else None)
    {
      assert AtPlace(other, unfinished[other].place, queue, delayed, calls, None);
    }
    if id in unfinished {
      assert AtPlace(id, unfinished[id].place, queue, delayed, calls, None);
    }
  }

  lemma EndCallKeepsRest(s: State, c: CallId)
    requires FreshOk(s.flight.calls, s.table.unfinished, s.versions.categories, s.versions.objects, s.log.invalidations)
    requires IdsOk(s.table.unfinished, s.log.outcomes, s.flight.calls, s.versions.objects, s.ids.read, s.ids.call, s.ids.record)
    requires LogOk(s.log.outcomes, s.log.resolutions, s.log.invalidations, s.flight.calls, s.log.tick)
    ensures var calls := s.flight.calls - {c};
      && FreshOk(calls, s.table.unfinished, s.versions.categories, s.versions.objects, s.log.invalidations)
      && IdsOk(s.table.unfinished, s.log.outcomes, calls, s.versions.objects, s.ids.read, s.ids.call, s.ids.record)
      && LogOk(s.log.outcomes, s.log.resolutions, s.log.invalidations, calls, s.log.tick)
  {}

  lemma EndCallKeeps(s: State, c: CallId)
    requires Inv(s) && c in s.flight.calls
    ensures var id := s.flight.calls[c].read;
      InvWhile(EndCall(s, c), if id in s.table.unfinished then Some(id) else None)
    ensures var id := s.flight.calls[c].read; id in s.table.unfinished ==>
      (s.flight.calls[c].superseded == Some(false) ==> id in s.log.outcomes)
      && (s.flight.calls[c].superseded != Some(false) ==> id !in s.log.outcomes)
  {
    hide PlacesOk, KeysOk, CountsOk, IdsOk, HoldersOk, FreshOk, OutcomesOk, LogOk;
    EndCallKeepsCalls(s.flight.calls, s.flight.running, s.flight.normal, c);
    EndCallKeepsRest(s, c);
    EndCallKeepsPlaces(s.table.unfinished, s.queues.waiting, s.queues.delayed, s.flight.calls, s.log.outcomes, s.ids.read, c);
    if s.flight.calls[c].read in s.table.unfinished {
      EndCallRelocates(s, c);
    }
  }

  lemma EndCallRelocates(s: State, c: CallId)
    requires Inv(s) && c in s.flight.calls && s.flight.calls[c].read in s.table.unfinished
    ensures var calls, moved := s.flight.calls - {c}, EndCall(s, c).table.unfinished;
      && KeysOk(moved, s.table.reading) && HoldersOk(moved, s.versions.records, s.versions.objects)
      && FreshOk(calls, moved, s.versions.categories, s.versions.objects, s.log.invalidations)
      && IdsOk(moved, s.log.outcomes, calls, s.versions.objects, s.ids.read, s.ids.call, s.ids.record)
  {
    hide PlacesOk, KeysOk, CountsOk, IdsOk, HoldersOk, FreshOk, OutcomesOk, LogOk;
    EndCallKeepsRest(s, c);
    RelocateKeeps(s.(flight := s.flight.(calls := s.flight.calls - {c})), s.flight.calls[c].read, s.table.unfinished[s.flight.calls[c].read].(place := Moving));
  }

  lemma ResumeKeeps(s: State, id: ReadId, superseded: bool, now: int)
    requires InvWhile(s, if id in s.table.unfinished then Some(id) else None)
    requires id in s.table.unfinished ==> (superseded <==> id !in s.log.outcomes)
    ensures Inv(Resume(s, id, superseded, now))
    ensures var r := Resume(s, id, superseded, now); r.conn.active == s.conn.active && r.conn.ready == s.conn.ready
  {
    hide InvWhile, Enqueue, Cancel, Clean;
    if id in s.table.unfinished {
      CancelKeeps(s, id, Some(id));
      CancelFrame(s, id);
      if superseded {
        EnqueueKeeps(s, id, true, now);
        EnqueueFrame(s, id, true, now);
      }
    }
  }

  lemma FinishKeeps(s: State, c: CallId, now: int)
    requires Inv(s)
    ensures Inv(Finish(s, c, now))
    ensures c in s.flight.calls && s.flight.calls[c].superseded.Some? && s.conn.active && s.conn.ready ==> Drained(Finish(s, c, now))
  {
    hide Inv, InvWhile, Resume, Pump, Drained, PutAt;
    if c in s.flight.calls && s.flight.calls[c].superseded.Some? {
      EndCallKeeps(s, c);
      EndCallFrame(s, c);
      ResumeKeeps(EndCall(s, c), s.flight.calls[c].read, s.flight.calls[c].superseded.value, now);
      PumpKeeps(Resume(EndCall(s, c), s.flight.calls[c].read, s.flight.calls[c].superseded.value, now), now);
    }
  }

  lemma EndCallFrame(s: State, c: CallId)
    requires c in s.flight.calls
    ensures var r := EndCall(s, c);
      r.conn.active == s.conn.active && r.conn.ready == s.conn.ready && r.log.outcomes == s.log.outcomes
    ensures s.flight.calls[c].read in EndCall(s, c).table.unfinished <==> s.flight.calls[c].read in s.table.unfinished
  {}

  lemma CancelFrame(s: State, id: ReadId)
    ensures var r := Cancel(s, id); r.conn.active == s.conn.active && r.conn.ready == s.conn.ready && r.conn.generation == s.conn.generation
    ensures id in s.table.unfinished && id in s.log.outcomes ==> Cancel(s, id) == Clean(s, id)
  {
    if id in s.log.outcomes {
      assert s.(log := s.log.(outcomes := Settle(s.log.outcomes, id, Rejected))) == s;
    }
  }

  lemma EnqueueFrame(s: State, id: ReadId, retry: bool, now: int)
    ensures var r := Enqueue(s, id, retry, now); r.conn.active == s.conn.active && r.conn.ready == s.conn.ready
  {
    CancelFrame(s, id);
  }

  lemma AnswerKeepsPlaces(unfinished: map<ReadId, Read>, queue: seq<ReadId>, delayed: seq<ReadId>,
                          calls: map<CallId, Call>, c: CallId, superseded: bool)
    requires PlacesOk(unfinished, queue, delayed, calls, None) && c in calls
    ensures PlacesOk(unfinished, queue, delayed, calls[c := calls[c].(superseded := Some(superseded))], None)
  {
    forall id | id in unfinished
      ensures AtPlace(id, unfinished[id].place, queue, delayed, calls[c := calls[c].(superseded := Some(superseded))], None)
    {
      assert AtPlace(id, unfinished[id].place, queue, delayed, calls, None);
    }
  }

  lemma AnswerKeepsCalls(s: State, c: CallId, superseded: bool)
    requires CountsOk(s.flight.calls, s.flight.running, s.flight.normal) && c in s.flight.calls
    requires FreshOk(s.flight.calls, s.table.unfinished, s.versions.categories, s.versions.objects, s.log.invalidations)
    requires IdsOk(s.table.unfinished, s.log.outcomes, s.flight.calls, s.versions.objects, s.ids.read, s.ids.call, s.ids.record)
    ensures var calls := s.flight.calls[c := s.flight.calls[c].(superseded := Some(superseded))];
      && CountsOk(calls, s.flight.running, s.flight.normal)
      && FreshOk(calls, s.table.unfinished, s.versions.categories, s.versions.objects, s.log.invalidations)
  {
    var calls := s.flight.calls[c := s.flight.calls[c].(superseded := Some(superseded))];
    assert calls.Keys == s.flight.calls.Keys;
    assert NormalCalls(calls) == NormalCalls(s.flight.calls);
    forall d | d in calls && calls[d].read in s.table.unfinished
      ensures var read := s.table.unfinished[calls[d].read];
        Faithful(calls[d], read.key, Version(s.versions.categories, s.versions.objects, read), s.log.invalidations)
    {
      var read := s.table.unfinished[calls[d].read];
      assert Faithful(s.flight.calls[d], read.key, Version(s.versions.categories, s.versions.objects, read), s.log.invalidations);
    }
  }

  /** What settling the answered read of a call does to the outcomes. */
  lemma AnswerKeepsOutcomes(unfinished: map<ReadId, Read>, queue: seq<ReadId>, delayed: seq<ReadId>,
                            outcomes: map<ReadId, Outcome>, calls: map<CallId, Call>, nextRead: nat,
                            c: CallId, superseded: bool, outcome: Outcome)
    requires PlacesOk(unfinished, queue, delayed, calls, None) && OutcomesOk(unfinished, outcomes, calls, nextRead)
    requires c in calls && calls[c].superseded.None?
    ensures var id, answered := calls[c].read, calls[c := calls[c].(superseded := Some(superseded))];
      if id !in unfinished then OutcomesOk(unfinished, outcomes, answered, nextRead)
      else id !in outcomes && OutcomesOk(unfinished, if superseded then outcomes else outcomes[id := outcome], answered, nextRead)
  {
    forall id | id in unfinished
      ensures AtPlace(id, unfinished[id].place, queue, delayed, calls, None)
    {}
  }

  /** The heart of it: a value is only accepted when the version it was asked for under is still current,
      so nothing the read tracks was invalidated since its request started. */
  lemma AcceptedIsFresh(s: State, c: CallId, reply: Reply)
    requires FreshOk(s.flight.calls, s.table.unfinished, s.versions.categories, s.versions.objects, s.log.invalidations)
    requires LogOk(s.log.outcomes, s.log.resolutions, s.log.invalidations, s.flight.calls, s.log.tick)
    requires c in s.flight.calls && s.flight.calls[c].read in s.table.unfinished && Judge(s, s.flight.calls[c], reply).Accepted?
    ensures FreshResolution(
      Resolution(s.flight.calls[c].read, s.table.unfinished[s.flight.calls[c].read].key, s.flight.calls[c].startTick, s.log.tick, s.conn.generation),
      s.log.invalidations)
  {
    var read := s.table.unfinished[s.flight.calls[c].read];
    assert Faithful(s.flight.calls[c], read.key, Version(s.versions.categories, s.versions.objects, read), s.log.invalidations);
    forall i | 0 <= i < |s.log.invalidations| && s.log.invalidations[i].scope in Tracked(read.key)
      ensures s.log.invalidations[i].tick < s.flight.calls[c].startTick
    {
      var k :| 0 <= k < |Tracked(read.key)| && Tracked(read.key)[k] == s.log.invalidations[i].scope;
      assert NoneSince(s.log.invalidations, Tracked(read.key)[k], s.flight.calls[c].startTick);
    }
  }

  lemma LogGrows(outcomes: map<ReadId, Outcome>, resolutions: seq<Resolution>, invalidations: seq<Invalidation>,
                 calls: map<CallId, Call>, tick: nat, payload: string, entry: Resolution)
    requires LogOk(outcomes, resolutions, invalidations, calls, tick) && entry.read !in outcomes
    requires entry.tick <= tick && FreshResolution(entry, invalidations)
    ensures LogOk(outcomes[entry.read := Resolved(payload)], resolutions + [entry], invalidations, calls, tick)
  {
    var grown, settled := resolutions + [entry], outcomes[entry.read := Resolved(payload)];
    assert grown[|resolutions|] == entry;
    forall other | other in settled && settled[other].Resolved?
      ensures Logged(grown, other)
    {
      if other != entry.read {
        assert Logged(resolutions, other);
        var i :| 0 <= i < |resolutions| && resolutions[i].read == other;
        assert grown[i].read == other;
      }
    }
  }

  lemma LogFramed(outcomes: map<ReadId, Outcome>, resolutions: seq<Resolution>, invalidations: seq<Invalidation>,
                  calls: map<CallId, Call>, tick: nat, id: ReadId, c: CallId, superseded: bool)
    requires LogOk(outcomes, resolutions, invalidations, calls, tick) && c in calls
    ensures LogOk(outcomes, resolutions, invalidations, calls[c := calls[c].(superseded := Some(superseded))], tick)
    ensures id !in outcomes ==> LogOk(outcomes[id := Rejected], resolutions, invalidations, calls, tick)
  {
    if id !in outcomes {
      var settled := outcomes[id := Rejected];
      forall other | other in settled && settled[other].Resolved?
        ensures Logged(resolutions, other)
      {
        assert outcomes[other].Resolved?;
      }
    }
  }

  lemma AnswerKeeps(s: State, c: CallId, reply: Reply)
    requires Inv(s)
    ensures Inv(Answer(s, c, reply))
  {
    if c in s.flight.calls && s.flight.calls[c].superseded.None? {
      hide PlacesOk, KeysOk, CountsOk, IdsOk, HoldersOk, FreshOk, OutcomesOk, LogOk, Judge, SettleAnswer;
      var verdict := Judge(s, s.flight.calls[c], reply);
      AnswerKeepsPlaces(s.table.unfinished, s.queues.waiting, s.queues.delayed, s.flight.calls, c, verdict.Superseded?);
      AnswerKeepsCalls(s, c, verdict.Superseded?);
      AnswerKeepsIds(s, c, verdict);
      AnswerKeepsLog(s, c, reply);
      SettleAnswerFrame(s, c, verdict);
    }
  }

  lemma SettleAnswerFrame(s: State, c: CallId, verdict: Verdict)
    requires c in s.flight.calls
    ensures var r := SettleAnswer(s, c, verdict);
      r == s.(log := s.log.(outcomes := r.log.outcomes, resolutions := r.log.resolutions))
  {}

  lemma AnswerKeepsIds(s: State, c: CallId, verdict: Verdict)
    requires IdsOk(s.table.unfinished, s.log.outcomes, s.flight.calls, s.versions.objects, s.ids.read, s.ids.call, s.ids.record) && c in s.flight.calls
    ensures IdsOk(s.table.unfinished, SettleAnswer(s, c, verdict).log.outcomes,
                  s.flight.calls[c := s.flight.calls[c].(superseded := Some(verdict.Superseded?))],
                  s.versions.objects, s.ids.read, s.ids.call, s.ids.record)
  {}

  lemma AnswerKeepsLog(s: State, c: CallId, reply: Reply)
    requires Inv(s) && c in s.flight.calls && s.flight.calls[c].superseded.None?
    ensures var verdict := Judge(s, s.flight.calls[c], reply);
      var r, calls := SettleAnswer(s, c, verdict), s.flight.calls[c := s.flight.calls[c].(superseded := Some(verdict.Superseded?))];
      && OutcomesOk(s.table.unfinished, r.log.outcomes, calls, s.ids.read)
      && LogOk(r.log.outcomes, r.log.resolutions, s.log.invalidations, calls, s.log.tick)
  {
    hide PlacesOk, KeysOk, CountsOk, IdsOk, HoldersOk, FreshOk, OutcomesOk, LogOk, Judge, FreshResolution;
    var id, verdict := s.flight.calls[c].read, Judge(s, s.flight.calls[c], reply);
    var calls := s.flight.calls[c := s.flight.calls[c].(superseded := Some(verdict.Superseded?))];
    AnswerKeepsOutcomes(s.table.unfinished, s.queues.waiting, s.queues.delayed, s.log.outcomes, s.flight.calls, s.ids.read, c,
                        verdict.Superseded?, if verdict.Accepted? then Resolved(verdict.payload) else Rejected);
    LogFramed(s.log.outcomes, s.log.resolutions, s.log.invalidations, s.flight.calls, s.log.tick, id, c, verdict.Superseded?);
    if id in s.table.unfinished && verdict.Accepted? {
      AcceptedIsFresh(s, c, reply);
      LogGrows(s.log.outcomes, s.log.resolutions, s.log.invalidations, calls, s.log.tick, verdict.payload,
        Resolution(id, s.table.unfinished[id].key, s.flight.calls[c].startTick, s.log.tick, s.conn.generation));
    } else if id in s.table.unfinished {
      LogFramed(s.log.outcomes, s.log.resolutions, s.log.invalidations, calls, s.log.tick, id, c, verdict.Superseded?);
    }
  }

  // -- new reads -------------------------------------------------------------------------------

  lemma HoldKeeps(unfinished: map<ReadId, Read>, records: map<string, ObjectId>, objects: map<ObjectId, OperationRead>,
                  key: Key, id: ReadId, record: ObjectId, unused: ObjectId)
    requires HoldersOk(unfinished, records, objects) && id !in unfinished && key.HasRecord() && unused !in objects
    requires record == if key.OperationId() in records then records[key.OperationId()] else unused
    ensures var before := if record in objects then objects[record] else OperationRead(0, 0, {});
      HoldersOk(unfinished[id := Read(key, None, Moving, Some(record))], records[key.OperationId() := record],
                objects[record := before.(readers := before.readers + 1, held := before.held + {id})])
  {
    var operation := key.OperationId();
    var before := if record in objects then objects[record] else OperationRead(0, 0, {});
    var grown := unfinished[id := Read(key, None, Moving, Some(record))];
    var records', objects' := records[operation := record],
      objects[record := before.(readers := before.readers + 1, held := before.held + {id})];
    forall other | other in grown
      ensures HoldsCurrent(other, grown[other], records', objects')
    {
      if other != id {
        assert HoldsCurrent(other, unfinished[other], records, objects);
      }
    }
    forall o | o in records'
      ensures RecordExact(o, records'[o], grown, objects')
    {
      if o in records {
        assert RecordExact(o, records[o], unfinished, objects);
      }
      if o == operation {
        assert |before.held + {id}| == |before.held| + 1;
      } else if operation in records {
        assert RecordExact(operation, record, unfinished, objects);
      }
    }
  }

  lemma OneMoreKey(reading: map<Key, ReadId>, key: Key, id: ReadId)
    requires key !in reading
    ensures |reading[key := id]| == |reading| + 1
  {
    assert reading[key := id].Keys == reading.Keys + {key};
    assert |reading[key := id].Keys| == |reading.Keys| + 1;
  }

  lemma CreateKeepsKeys(unfinished: map<ReadId, Read>, reading: map<Key, ReadId>, id: ReadId, read: Read)
    requires KeysOk(unfinished, reading) && id !in unfinished && read.key !in reading && |reading| < DIRTY_KEYS
    ensures KeysOk(unfinished[id := read], reading[read.key := id])
  {
    var grown := reading[read.key := id];
    assert |grown| == |reading| + 1 by { OneMoreKey(reading, read.key, id); }
    forall k | k in grown
      ensures grown[k] in unfinished[id := read] && unfinished[id := read][grown[k]].key == k
    {
      assert k != read.key ==> k in reading && reading[k] in unfinished && reading[k] != id;
    }
  }

  lemma CreateKeepsPlaces(unfinished: map<ReadId, Read>, queues: Queues, calls: map<CallId, Call>,
                          outcomes: map<ReadId, Outcome>, id: ReadId, read: Read)
    requires PlacesOk(unfinished, queues.waiting, queues.delayed, calls, None) && OutcomesOk(unfinished, outcomes, calls, id)
    requires id !in unfinished && id !in outcomes && read.place.Moving?
    requires forall c | c in calls :: calls[c].read < id
    ensures PlacesOk(unfinished[id := read], queues.waiting, queues.delayed, calls, Some(id))
    ensures OutcomesOk(unfinished[id := read], outcomes, calls, id + 1)
  {
    forall other | other in unfinished
      ensures AtPlace(other, unfinished[other].place, queues.waiting, queues.delayed, calls, Some(id))
    {
      assert AtPlace(other, unfinished[other].place, queues.waiting, queues.delayed, calls, None);
    }
  }

  lemma PlainReadKeepsHolders(unfinished: map<ReadId, Read>, records: map<string, ObjectId>,
                              objects: map<ObjectId, OperationRead>, id: ReadId, read: Read)
    requires HoldersOk(unfinished, records, objects) && id !in unfinished
    requires !read.key.HasRecord() && read.holder.None?
    ensures HoldersOk(unfinished[id := read], records, objects)
  {
    forall other | other in unfinished
      ensures HoldsCurrent(other, unfinished[other], records, objects)
    {}
    forall o | o in records
      ensures RecordExact(o, records[o], unfinished[id := read], objects)
    {
      assert RecordExact(o, records[o], unfinished, objects);
    }
  }

  lemma CreateKeepsIds(s: State, key: Key)
    requires IdsOk(s.table.unfinished, s.log.outcomes, s.flight.calls, s.versions.objects, s.ids.read, s.ids.call, s.ids.record)
    requires HoldersOk(s.table.unfinished, s.versions.records, s.versions.objects)
    ensures var r := Create(s, key);
      IdsOk(r.table.unfinished, r.log.outcomes, r.flight.calls, r.versions.objects, r.ids.read, r.ids.call, r.ids.record)
  {
    HeldRecordExists(s, key.OperationId());
  }

  lemma CreateKeepsHolders(s: State, key: Key)
    requires IdsOk(s.table.unfinished, s.log.outcomes, s.flight.calls, s.versions.objects, s.ids.read, s.ids.call, s.ids.record)
    requires HoldersOk(s.table.unfinished, s.versions.records, s.versions.objects)
    ensures var r := Create(s, key); HoldersOk(r.table.unfinished, r.versions.records, r.versions.objects)
  {
    var id, r := s.ids.read, Create(s, key);
    var read := r.table.unfinished[id];
    hide HoldersOk;
    if key.HasRecord() {
      HoldKeeps(s.table.unfinished, s.versions.records, s.versions.objects, key, id, read.holder.value, s.ids.record);
    } else {
      PlainReadKeepsHolders(s.table.unfinished, s.versions.records, s.versions.objects, id, read);
    }
  }

  lemma CreateKeepsFresh(s: State, key: Key)
    requires IdsOk(s.table.unfinished, s.log.outcomes, s.flight.calls, s.versions.objects, s.ids.read, s.ids.call, s.ids.record)
    requires HoldersOk(s.table.unfinished, s.versions.records, s.versions.objects)
    requires FreshOk(s.flight.calls, s.table.unfinished, s.versions.categories, s.versions.objects, s.log.invalidations)
    ensures var r := Create(s, key);
      FreshOk(r.flight.calls, r.table.unfinished, r.versions.categories, r.versions.objects, r.log.invalidations)
  {
    HeldRecordExists(s, key.OperationId());
    hide HoldersOk, FreshOk;
    FreshGrows(s, Create(s, key).versions.objects, s.ids.read, Create(s, key).table.unfinished[s.ids.read]);
  }

  lemma HeldRecordExists(s: State, operation: string)
    requires HoldersOk(s.table.unfinished, s.versions.records, s.versions.objects)
    ensures operation in s.versions.records ==> s.versions.records[operation] in s.versions.objects
  {
    if operation in s.versions.records {
      assert RecordExact(operation, s.versions.records[operation], s.table.unfinished, s.versions.objects);
    }
  }

  lemma FreshGrows(s: State, objects: map<ObjectId, OperationRead>, id: ReadId, read: Read)
    requires HoldersOk(s.table.unfinished, s.versions.records, s.versions.objects)
    requires FreshOk(s.flight.calls, s.table.unfinished, s.versions.categories, s.versions.objects, s.log.invalidations)
    requires forall c | c in s.flight.calls :: s.flight.calls[c].read != id
    requires forall o | o in s.versions.objects :: o in objects && objects[o].version == s.versions.objects[o].version
    requires id !in s.table.unfinished
    ensures FreshOk(s.flight.calls, s.table.unfinished[id := read], s.versions.categories, objects, s.log.invalidations)
  {
    forall other | other in s.table.unfinished
      ensures HoldsCurrent(other, s.table.unfinished[other], s.versions.records, s.versions.objects)
    {}
    FreshFramed(s.flight.calls, s.table.unfinished, s.versions.categories, s.versions.objects, s.log.invalidations,
                s.table.unfinished[id := read], objects);
  }

  lemma CreateKeeps(s: State, key: Key)
    requires Inv(s) && key !in s.table.reading && |s.table.reading| < DIRTY_KEYS
    ensures InvWhile(Create(s, key), Some(s.ids.read))
    ensures s.ids.read in Create(s, key).table.unfinished && s.ids.read !in Create(s, key).log.outcomes
  {
    var id, r := s.ids.read, Create(s, key);
    var read := r.table.unfinished[id];
    assert id !in s.table.unfinished && id !in s.log.outcomes && forall c | c in s.flight.calls :: s.flight.calls[c].read < id;
    hide PlacesOk, KeysOk, CountsOk, IdsOk, HoldersOk, FreshOk, OutcomesOk, LogOk;
    CreateKeepsIds(s, key);
    CreateKeepsHolders(s, key);
    CreateKeepsFresh(s, key);
    CreateKeepsKeys(s.table.unfinished, s.table.reading, id, read);
    CreateKeepsPlaces(s.table.unfinished, s.queues, s.flight.calls, s.log.outcomes, id, read);
  }

  lemma ReadStepKeeps(s: State, rpc: Rpc, args: seq<string>, now: int)
    requires Inv(s)
    ensures Inv(ReadStep(s, rpc, args, now))
  {
    hide PlacesOk, CountsOk, IdsOk, HoldersOk, FreshOk, OutcomesOk, LogOk, Create, Enqueue, Pump;
    var key := KeyFor(s, rpc, args);
    var n := if s.conn.active && s.conn.ready && rpc.SettingsGet? then s.(ids := s.ids.(settings := s.ids.settings + 1)) else s;
    assert Inv(n);
    if Admit(s, rpc, args).Created? {
      CreateKeeps(n, key);
      EnqueueKeeps(Create(n, key), s.ids.read, false, now);
      PumpKeeps(Enqueue(Create(n, key), s.ids.read, false, now), now);
    }
  }

  lemma WakeKeeps(s: State, id: ReadId, now: int)
    requires Inv(s)
    ensures Inv(Wake(s, id, now))
  {
    hide Inv, InvWhile, Enqueue, Pump, TakeDelayed;
    if id in s.queues.delayed {
      TakeDelayedKeeps(s, id);
      TakeDelayedFrame(s, id);
      EnqueueKeeps(TakeDelayed(s, id), id, true, now);
      PumpKeeps(Enqueue(TakeDelayed(s, id), id, true, now), now);
    }
  }

  lemma {:induction false} CancelAllKeeps(s: State, ids: seq<ReadId>)
    requires Inv(s)
    ensures Inv(CancelAll(s, ids)) && CancelAll(s, ids).ids == s.ids
    decreases |ids|
  {
    hide InvWhile, Clean;
    if ids != [] {
      if ids[0] in s.table.unfinished {
        CancelKeeps(s, ids[0], None);
        CancelOnlyEnds(s, ids[0]);
      }
      CancelAllKeeps(Cancel(s, ids[0]), ids[1..]);
    }
  }

  lemma CancelOnlyEnds(s: State, id: ReadId)
    ensures Cancel(s, id).ids == s.ids && Cancel(s, id).conn == s.conn
    ensures forall other | other in Cancel(s, id).table.unfinished :: other in s.table.unfinished && other != id
  {}

  lemma CancelNothing(s: State, id: ReadId)
    requires id !in s.table.unfinished
    ensures Cancel(s, id) == s
  {}

  lemma {:induction false} CancelBeforeKeeps(s: State, k: nat)
    requires Inv(s)
    ensures Inv(CancelBefore(s, k)) && CancelBefore(s, k).ids == s.ids
    ensures forall id | id in CancelBefore(s, k).table.unfinished :: id >= k
  {
    hide InvWhile, Cancel;
    if k != 0 {
      CancelBeforeKeeps(s, k - 1);
      var before := CancelBefore(s, k - 1);
      CancelOnlyEnds(before, k - 1);
      if k - 1 in before.table.unfinished {
        CancelKeeps(before, k - 1, None);
      } else {
        CancelNothing(before, k - 1);
      }
    }
  }

  /** An invalidation moves on the version of exactly the reads that track its scope, and no version ever drops. */
  lemma InvalidateMoves(s: State, scope: Scope, id: ReadId)
    requires HoldersOk(s.table.unfinished, s.versions.records, s.versions.objects) && id in s.table.unfinished
    ensures var read, r := s.table.unfinished[id], Invalidate(s, scope);
      var before, after := Version(s.versions.categories, s.versions.objects, read),
                           Version(r.versions.categories, r.versions.objects, read);
      && |before| == |after| == |Tracked(read.key)|
      && forall i | 0 <= i < |after| ::
        before[i] <= after[i] && (Tracked(read.key)[i] == scope <==> before[i] < after[i])
  {
    var read := s.table.unfinished[id];
    assert HoldsCurrent(id, read, s.versions.records, s.versions.objects);
    if read.key.HasRecord() {
      assert RecordExact(read.key.OperationId(), read.holder.value, s.table.unfinished, s.versions.objects);
    }
    if scope.OperationOf? && scope.id in s.versions.records {
      assert RecordExact(scope.id, s.versions.records[scope.id], s.table.unfinished, s.versions.objects);
    }
  }

  lemma InvalidateKeepsFresh(s: State, scope: Scope)
    requires HoldersOk(s.table.unfinished, s.versions.records, s.versions.objects)
    requires FreshOk(s.flight.calls, s.table.unfinished, s.versions.categories, s.versions.objects, s.log.invalidations)
    requires LogOk(s.log.outcomes, s.log.resolutions, s.log.invalidations, s.flight.calls, s.log.tick)
    ensures var r := Invalidate(s, scope);
      FreshOk(s.flight.calls, s.table.unfinished, r.versions.categories, r.versions.objects, r.log.invalidations)
  {
    var r := Invalidate(s, scope);
    forall c | c in s.flight.calls && s.flight.calls[c].read in s.table.unfinished
      ensures var read := s.table.unfinished[s.flight.calls[c].read];
        Faithful(s.flight.calls[c], read.key, Version(r.versions.categories, r.versions.objects, read), r.log.invalidations)
    {
      var call := s.flight.calls[c];
      var read := s.table.unfinished[call.read];
      var before := Version(s.versions.categories, s.versions.objects, read);
      assert Faithful(call, read.key, before, s.log.invalidations);
      hide HoldersOk, Version;
      InvalidateMoves(s, scope, call.read);
      FaithfulMoves(s, call, scope, before, Version(r.versions.categories, r.versions.objects, read));
    }
  }

  lemma FaithfulMoves(s: State, call: Call, scope: Scope, before: seq<nat>, after: seq<nat>)
    requires call.read in s.table.unfinished && call.startTick <= s.log.tick
    requires Faithful(call, s.table.unfinished[call.read].key, before, s.log.invalidations)
    requires var tracked := Tracked(s.table.unfinished[call.read].key);
      && |before| == |after| == |tracked|
      && forall i | 0 <= i < |after| :: before[i] <= after[i] && (tracked[i] == scope <==> before[i] < after[i])
    ensures Faithful(call, s.table.unfinished[call.read].key, after, Invalidate(s, scope).log.invalidations)
  {
    var scopes, old', new' := Tracked(s.table.unfinished[call.read].key), s.log.invalidations, Invalidate(s, scope).log.invalidations;
    forall i | 0 <= i < |scopes|
      ensures call.version[i] <= after[i] && (call.version[i] == after[i] <==> NoneSince(new', scopes[i], call.startTick))
    {
      NoneSinceGrows(old', Invalidation(s.log.tick + 1, scope), scopes[i], call.startTick);
    }
  }

  lemma NoneSinceGrows(invalidations: seq<Invalidation>, entry: Invalidation, scope: Scope, tick: nat)
    requires tick <= entry.tick
    ensures NoneSince(invalidations + [entry], scope, tick) <==> NoneSince(invalidations, scope, tick) && entry.scope != scope
  {
    var grown := invalidations + [entry];
    if NoneSince(grown, scope, tick) {
      assert grown[|invalidations|] == entry;
      forall i | 0 <= i < |invalidations| && invalidations[i].scope == scope
        ensures invalidations[i].tick < tick
      {
        assert grown[i] == invalidations[i];
      }
    }
  }

  lemma InvalidateKeepsHolders(unfinished: map<ReadId, Read>, records: map<string, ObjectId>,
                               objects: map<ObjectId, OperationRead>, record: ObjectId)
    requires HoldersOk(unfinished, records, objects) && record in objects
    ensures HoldersOk(unfinished, records, objects[record := objects[record].(version := objects[record].version + 1)])
  {
    var bumped := objects[record := objects[record].(version := objects[record].version + 1)];
    forall id | id in unfinished
      ensures HoldsCurrent(id, unfinished[id], records, bumped)
    {
      assert HoldsCurrent(id, unfinished[id], records, objects);
    }
    forall o | o in records
      ensures RecordExact(o, records[o], unfinished, bumped)
    {
      assert RecordExact(o, records[o], unfinished, objects);
    }
  }

  lemma InvalidateKeepsLog(log: Log, calls: map<CallId, Call>, scope: Scope)
    requires LogOk(log.outcomes, log.resolutions, log.invalidations, calls, log.tick)
    ensures LogOk(log.outcomes, log.resolutions, log.invalidations + [Invalidation(log.tick + 1, scope)], calls, log.tick + 1)
  {
    var grown := log.invalidations + [Invalidation(log.tick + 1, scope)];
    forall i | 0 <= i < |log.resolutions|
      ensures FreshResolution(log.resolutions[i], grown)
    {
      assert FreshResolution(log.resolutions[i], log.invalidations);
    }
  }

  lemma InvalidateKeeps(s: State, scope: Scope)
    requires Inv(s)
    ensures Inv(Invalidate(s, scope))
  {
    hide PlacesOk, KeysOk, CountsOk, HoldersOk, FreshOk, OutcomesOk, LogOk;
    InvalidateKeepsFresh(s, scope);
    InvalidateKeepsLog(s.log, s.flight.calls, scope);
    if scope.OperationOf? && scope.id in s.versions.records && s.versions.records[scope.id] in s.versions.objects {
      InvalidateKeepsHolders(s.table.unfinished, s.versions.records, s.versions.objects, s.versions.records[scope.id]);
    }
  }

  lemma CancelEverythingKeeps(s: State)
    requires Inv(s)
    ensures Inv(CancelEverything(s))
    ensures forall id | id in CancelEverything(s).table.unfinished :: false
  {
    CancelAllKeeps(s, s.queues.waiting);
    CancelBeforeKeeps(CancelAll(s, s.queues.waiting), s.ids.read);
  }

  lemma StepKeeps(s: State, a: Action)
    requires Inv(s)
    ensures Inv(Step(s, a))
  {
    hide PlacesOk, KeysOk, CountsOk, IdsOk, HoldersOk, FreshOk, OutcomesOk, LogOk;
    match a
    case ReadCalled(rpc, args, now) => ReadStepKeeps(s, rpc, args, now);
    case Invalidated(scope) => InvalidateKeeps(s, scope);
    case Pumped(now) => PumpKeeps(s, now);
    case Answered(c, reply) => AnswerKeeps(s, c, reply);
    case Finished(c, now) => FinishKeeps(s, c, now);
    case TimerFired(id, now) => WakeKeeps(s, id, now);
    case Failed => CancelEverythingKeeps(s.(conn := s.conn.(ready := false, generation := s.conn.generation + 1)));
    case Stopped => CancelEverythingKeeps(s.(conn := Connection(false, false, s.conn.generation + 1)));
    case _ =>
  }

  /** The invariant holds in every state any sequence of sections can reach. */
  lemma {:induction false} RunKeeps(actions: seq<Action>)
    ensures Inv(Run(INITIAL, actions))
  {
    if actions == [] {
      assert |INITIAL.flight.calls| == 0 && NormalCalls(INITIAL.flight.calls) == {};
    } else {
      RunKeeps(actions[..|actions| - 1]);
      StepKeeps(Run(INITIAL, actions[..|actions| - 1]), actions[|actions| - 1]);
    }
  }

  /** Fresh reads, over every run: whatever invalidations, retries, promotions and cancellations happen, a
      resolved read got its value from a request that started after every invalidation of the read's scopes
      that came before it resolved, under the one connection it was created, asked and resolved under. */
  lemma {:induction false} ReadsAreFresh(actions: seq<Action>, id: ReadId) returns (entry: Resolution)
    requires id in Run(INITIAL, actions).log.outcomes && Run(INITIAL, actions).log.outcomes[id].Resolved?
    ensures entry in Run(INITIAL, actions).log.resolutions && entry.read == id
    ensures entry.generation == entry.key.generation
    ensures forall i | i in Run(INITIAL, actions).log.invalidations && i.scope in Tracked(entry.key) ::
      i.tick <= entry.tick ==> i.tick < entry.startTick
  {
    RunKeeps(actions);
    var log := Run(INITIAL, actions).log;
    assert Logged(log.resolutions, id);
    var i :| 0 <= i < |log.resolutions| && log.resolutions[i].read == id;
    entry := log.resolutions[i];
  }

  /** What that means against a backend whose resources only move on: if every invalidation announces a
      version the backend already has, and a request reads the version of some moment after it started,
      then the value is at least as new as everything announced for the read's scopes before it resolved. */
  lemma {:induction false} ReadsAreNeverStale(actions: seq<Action>, id: ReadId, backend: (Scope, nat) -> nat,
                           announced: Invalidation -> nat, readAt: nat)
    requires forall scope, t, u | t <= u :: backend(scope, t) <= backend(scope, u)
    requires forall i | i in Run(INITIAL, actions).log.invalidations :: announced(i) <= backend(i.scope, i.tick)
    requires id in Run(INITIAL, actions).log.outcomes && Run(INITIAL, actions).log.outcomes[id].Resolved?
    requires forall entry | entry in Run(INITIAL, actions).log.resolutions && entry.read == id :: entry.startTick <= readAt
    ensures exists entry | entry in Run(INITIAL, actions).log.resolutions ::
      entry.read == id && (forall i | i in Run(INITIAL, actions).log.invalidations
        && i.scope in Tracked(entry.key) && i.tick <= entry.tick :: announced(i) <= backend(i.scope, readAt))
  {
    var entry := ReadsAreFresh(actions, id);
    forall i | i in Run(INITIAL, actions).log.invalidations && i.scope in Tracked(entry.key) && i.tick <= entry.tick
      ensures announced(i) <= backend(i.scope, readAt)
    {
      assert backend(i.scope, i.tick) <= backend(i.scope, readAt);
    }
  }

  ghost predicate Holds(unfinished: map<ReadId, Read>, id: ReadId, operation: string) {
    id in unfinished && unfinished[id].key.HasRecord() && unfinished[id].key.OperationId() == operation
  }

  ghost predicate Flying(s: State, id: ReadId) { exists c | c in s.flight.calls :: s.flight.calls[c].read == id }

  /** Queued, set aside, or under way, and never two of these. */
  ghost predicate InOnePlace(s: State, id: ReadId) {
    var waiting, aside := id in s.queues.waiting, id in s.queues.delayed;
    if Flying(s, id) then !waiting && !aside else waiting != aside
  }

  ghost function ReadersOf(unfinished: map<ReadId, Read>, operation: string): set<ReadId> {
    set id | id in unfinished && Holds(unfinished, id, operation)
  }

  /** The books, over every run: at most 512 reads and 4 requests, 3 of them normal, with exact counters
      although cancelled reads leave requests behind; every read made so far is settled or in exactly one
      place; and an operation's version record is there while, and only while, some unfinished read is of
      that operation, counting just those reads. */
  lemma {:induction false} BooksAreExact(actions: seq<Action>, id: ReadId, operation: string)
    ensures var s := Run(INITIAL, actions);
      && |s.table.reading| <= DIRTY_KEYS
      && s.flight.running == |s.flight.calls| <= CONCURRENCY
      && s.flight.normal == |set c | c in s.flight.calls && !s.flight.calls[c].urgent| <= NORMAL_CONCURRENCY
      && (id < s.ids.read ==> id in s.table.unfinished || id in s.log.outcomes)
      && (id in s.table.unfinished ==> InOnePlace(s, id))
      && (operation in s.versions.records <==> ReadersOf(s.table.unfinished, operation) != {})
      && (operation in s.versions.records ==> s.versions.records[operation] in s.versions.objects)
      && (operation in s.versions.records ==>
            s.versions.objects[s.versions.records[operation]].readers == |ReadersOf(s.table.unfinished, operation)|)
  {
    RunKeeps(actions);
    var s := Run(INITIAL, actions);
    hide PlacesOk, HoldersOk, FreshOk, LogOk, Run;
    ReadIsSomewhere(s, id);
    RecordCounts(s, operation);
    assert NormalCalls(s.flight.calls) == set c | c in s.flight.calls && !s.flight.calls[c].urgent;
  }

  lemma ReadIsSomewhere(s: State, id: ReadId)
    requires PlacesOk(s.table.unfinished, s.queues.waiting, s.queues.delayed, s.flight.calls, None)
    ensures id in s.table.unfinished ==> InOnePlace(s, id)
  {
    if id in s.table.unfinished {
      assert AtPlace(id, s.table.unfinished[id].place, s.queues.waiting, s.queues.delayed, s.flight.calls, None);
    }
  }

  lemma RecordCounts(s: State, operation: string)
    requires HoldersOk(s.table.unfinished, s.versions.records, s.versions.objects)
    ensures operation in s.versions.records <==> ReadersOf(s.table.unfinished, operation) != {}
    ensures operation in s.versions.records ==> s.versions.records[operation] in s.versions.objects
    ensures operation in s.versions.records ==>
      s.versions.objects[s.versions.records[operation]].readers == |ReadersOf(s.table.unfinished, operation)|
  {
    var records, objects, unfinished := s.versions.records, s.versions.objects, s.table.unfinished;
    forall other | Holds(unfinished, other, operation)
      ensures operation in records && records[operation] in objects && other in objects[records[operation]].held
    {
      assert HoldsCurrent(other, unfinished[other], records, objects);
    }
    if operation in records {
      assert RecordExact(operation, records[operation], unfinished, objects);
      var held := objects[records[operation]].held;
      assert held == ReadersOf(unfinished, operation);
    } else {
      assert ReadersOf(unfinished, operation) == {};
    }
  }

  // ---------------------------------------------------------------------------------------------
  // What becomes of one read
  // ---------------------------------------------------------------------------------------------

  /** What making requests does to read `id`: while its connection is the usable one it stays what it was, set aside
      or not unless it is urgent, and after that it may be given up. Nobody else joins the table of readers, and
      the requests under way stay as they are. */
  ghost predicate Untroubled(s: State, r: State, id: ReadId) {
    && r.conn == s.conn && r.urgent == s.urgent && r.ids.settings == s.ids.settings && r.ids.read == s.ids.read
    && s.ids.call <= r.ids.call && r.table.reading.Keys <= s.table.reading.Keys
    && (forall c | c in r.flight.calls && c < s.ids.call :: c in s.flight.calls && r.flight.calls[c] == s.flight.calls[c])
    && (id in s.log.outcomes ==> id in r.log.outcomes && r.log.outcomes[id] == s.log.outcomes[id])
    && (id !in s.log.outcomes && id in r.log.outcomes ==> r.log.outcomes[id].Rejected?)
    && (id in r.table.unfinished ==> id in s.table.unfinished && r.table.unfinished[id].key == s.table.unfinished[id].key)
    && (id in s.table.unfinished && Usable(s, s.table.unfinished[id]) ==>
          && id in r.table.unfinished
          && (id in r.log.outcomes ==> id in s.log.outcomes)
          && (id in s.queues.delayed && !IsUrgent(s, s.table.unfinished[id].key) ==> id in r.queues.delayed))
  }

  lemma {:induction false} RemoveKeepsOthers(ids: seq<ReadId>, id: ReadId, other: ReadId)
    requires other in ids && other != id
    ensures other in Remove(ids, id)
  {
    if ids[0] != other {
      if ids[0] != id {
        RemoveKeepsOthers(ids[1..], id, other);
      }
    }
  }

  lemma CancelTroublesNone(s: State, lost: ReadId, id: ReadId)
    requires lost in s.table.unfinished ==> !Usable(s, s.table.unfinished[lost])
    ensures Untroubled(s, Cancel(s, lost), id)
  {
    hide ReleasedObjects, ReleasedRecords, Remove, IsUrgent;
    if id != lost && id in s.queues.delayed {
      RemoveKeepsOthers(s.queues.delayed, lost, id);
    }
  }

  lemma EnqueueTroublesNone(s: State, other: ReadId, retry: bool, now: int, id: ReadId)
    ensures Untroubled(s, Enqueue(s, other, retry, now), id)
  {
    hide Cancel, IsUrgent;
    if other in s.table.unfinished && !Usable(s, s.table.unfinished[other]) {
      CancelTroublesNone(s, other, id);
    }
  }

  lemma TakeDelayedTroublesNone(s: State, other: ReadId, id: ReadId)
    requires UrgentlyAside(s, other)
    ensures Untroubled(s, TakeDelayed(s, other), id)
  {
    hide Remove, IsUrgent;
    if id != other && id in s.queues.delayed {
      RemoveKeepsOthers(s.queues.delayed, other, id);
    }
  }

  lemma TakeQueuedTroublesNone(s: State, index: nat, id: ReadId)
    requires index < |s.queues.waiting|
    ensures Untroubled(s, TakeQueued(s, index), id)
  {}

  lemma StartTroublesNone(s: State, other: ReadId, now: int, id: ReadId)
    ensures Untroubled(s, Start(s, other, now), id)
  {
    hide Cancel, IsUrgent, Version;
    if other in s.table.unfinished && !Usable(s, s.table.unfinished[other]) {
      CancelTroublesNone(s, other, id);
    }
  }

  lemma UntroubledTwice(s: State, t: State, r: State, id: ReadId)
    requires Untroubled(s, t, id) && Untroubled(t, r, id)
    ensures Untroubled(s, r, id)
  {}

  lemma {:induction false} PromoteAllTroublesNone(s: State, ids: seq<ReadId>, now: int, id: ReadId)
    ensures Untroubled(s, PromoteAll(s, ids, now), id)
    decreases |ids|
  {
    hide Untroubled, Enqueue, TakeDelayed;
    if ids == [] {
      Undisturbed(s, id);
    } else if UrgentlyAside(s, ids[0]) {
      var taken := TakeDelayed(s, ids[0]);
      TakeDelayedTroublesNone(s, ids[0], id);
      EnqueueTroublesNone(taken, ids[0], true, now, id);
      PromoteAllTroublesNone(Enqueue(taken, ids[0], true, now), ids[1..], now, id);
      UntroubledTwice(s, taken, Enqueue(taken, ids[0], true, now), id);
      UntroubledTwice(s, Enqueue(taken, ids[0], true, now), PromoteAll(s, ids, now), id);
    } else {
      PromoteAllTroublesNone(s, ids[1..], now, id);
    }
  }

  lemma Undisturbed(s: State, id: ReadId)
    ensures Untroubled(s, s, id)
  {}

  lemma {:induction false} StartAllTroublesNone(s: State, now: int, id: ReadId)
    ensures Untroubled(s, StartAll(s, now), id)
    decreases |s.queues.waiting|
  {
    hide Untroubled, Start, TakeQueued, NextToStart;
    match NextToStart(s) {
      case None => Undisturbed(s, id);
      case Some(index) =>
        var taken, next := TakeQueued(s, index), s.queues.waiting[index];
        TakeQueuedTroublesNone(s, index, id);
        StartTroublesNone(taken, next, now, id);
        StartAllTroublesNone(Start(taken, next, now), now, id);
        UntroubledTwice(s, taken, Start(taken, next, now), id);
        UntroubledTwice(s, Start(taken, next, now), StartAll(s, now), id);
    }
  }

  lemma PumpTroublesNone(s: State, now: int, id: ReadId)
    ensures Untroubled(s, Pump(s, now), id)
  {
    hide Untroubled, PromoteAll, StartAll;
    if s.conn.active && s.conn.ready {
      var promoted := PromoteAll(s, s.queues.delayed, now);
      PromoteAllTroublesNone(s, s.queues.delayed, now, id);
      StartAllTroublesNone(promoted, now, id);
      UntroubledTwice(s, promoted, StartAll(promoted, now), id);
    } else {
      Undisturbed(s, id);
    }
  }

  lemma {:induction false} CancelAllTroublesNone(s: State, ids: seq<ReadId>, id: ReadId)
    requires !s.conn.ready
    ensures Untroubled(s, CancelAll(s, ids), id)
    decreases |ids|
  {
    hide Untroubled, Cancel;
    if ids == [] {
      Undisturbed(s, id);
    } else {
      CancelTroublesNone(s, ids[0], id);
      CancelOnlyEnds(s, ids[0]);
      CancelAllTroublesNone(Cancel(s, ids[0]), ids[1..], id);
      UntroubledTwice(s, Cancel(s, ids[0]), CancelAll(s, ids), id);
    }
  }

  lemma {:induction false} CancelBeforeTroublesNone(s: State, k: nat, id: ReadId)
    requires !s.conn.ready
    ensures Untroubled(s, CancelBefore(s, k), id)
  {
    hide Untroubled, Cancel;
    if k == 0 {
      Undisturbed(s, id);
    } else {
      var before := CancelBefore(s, k - 1);
      CancelBeforeTroublesNone(s, k - 1, id);
      UntroubledConn(s, before, id);
      CancelTroublesNone(before, k - 1, id);
      UntroubledTwice(s, before, CancelBefore(s, k), id);
    }
  }

  lemma UntroubledConn(s: State, r: State, id: ReadId)
    requires Untroubled(s, r, id)
    ensures r.conn == s.conn
  {}

  lemma CancelEverythingTroublesNone(s: State, id: ReadId)
    requires !s.conn.ready
    ensures Untroubled(s, CancelEverything(s), id)
  {
    hide Untroubled, CancelAll, CancelBefore;
    var waiting := CancelAll(s, s.queues.waiting);
    CancelAllTroublesNone(s, s.queues.waiting, id);
    UntroubledConn(s, waiting, id);
    CancelBeforeTroublesNone(waiting, s.ids.read, id);
    UntroubledTwice(s, waiting, CancelEverything(s), id);
  }

  /** A read without its value yet. */
  ghost predicate Pending(s: State, id: ReadId) { id in s.table.unfinished && id !in s.log.outcomes }

  /** An answer no read of `key` could be resolved with. */
  ghost predicate SaysNothing(key: Key, reply: Reply) {
    reply.Failure? || (key.rpc.OperationGet? && reply.operationId != key.OperationId())
  }

  /** The section looks at the first answer to a request of this read. */
  ghost predicate Answers(s: State, a: Action, id: ReadId) {
    && a.Answered? && a.call in s.flight.calls
    && s.flight.calls[a.call].read == id && s.flight.calls[a.call].superseded.None?
  }

  /** A pending read stays pending, unless an answer settles it or its connection is no longer the usable one. */
  ghost predicate EndsForAReason(s: State, a: Action, r: State, id: ReadId)
    requires id in s.table.unfinished
  {
    var read := s.table.unfinished[id];
    if id !in r.log.outcomes then id in r.table.unfinished && r.table.unfinished[id].key == read.key
    else match r.log.outcomes[id]
      case Rejected => !Usable(r, read) || (Answers(s, a, id) && SaysNothing(read.key, a.reply))
      case Resolved(payload) =>
        && Answers(s, a, id) && !SaysNothing(read.key, a.reply) && payload == a.reply.payload
        && r.conn.active && read.key.generation == r.conn.generation
  }

  /** Untroubled means pending, unless the connection is no longer the usable one. */
  lemma UntroubledEnds(s: State, a: Action, t: State, r: State, id: ReadId)
    requires Pending(s, id) && Pending(t, id) && t.table.unfinished[id].key == s.table.unfinished[id].key
    requires Untroubled(t, r, id) && Inv(r) && id < r.ids.read
    ensures EndsForAReason(s, a, r, id)
  {
    hide PlacesOk, KeysOk, CountsOk, IdsOk, HoldersOk, FreshOk, LogOk;
    assert id in r.table.unfinished || id in r.log.outcomes;
  }

  lemma CleanTroublesNone(s: State, other: ReadId, id: ReadId)
    requires other != id
    ensures Untroubled(s, Clean(s, other), id)
  {
    hide ReleasedObjects, ReleasedRecords, Remove, IsUrgent;
    if id in s.queues.delayed {
      RemoveKeepsOthers(s.queues.delayed, other, id);
    }
  }

  lemma EndCallTroublesNone(s: State, c: CallId, id: ReadId)
    requires c in s.flight.calls
    ensures Untroubled(s, EndCall(s, c), id)
  {}

  lemma ResumeTroublesNone(s: State, other: ReadId, superseded: bool, now: int, id: ReadId)
    requires superseded || other != id
    ensures Untroubled(s, Resume(s, other, superseded, now), id)
  {
    hide Untroubled, Enqueue, Cancel, Clean;
    Undisturbed(s, id);
    if superseded {
      EnqueueTroublesNone(s, other, true, now, id);
      if other in s.table.unfinished && !Usable(s, s.table.unfinished[other]) {
        CancelTroublesNone(s, other, id);
      }
    } else {
      CleanTroublesNone(s, other, id);
    }
  }

  lemma FinishTroublesNone(s: State, c: CallId, now: int, id: ReadId)
    requires c in s.flight.calls && s.flight.calls[c].superseded.Some?
    requires s.flight.calls[c].superseded.value || s.flight.calls[c].read != id
    ensures Untroubled(s, Finish(s, c, now), id)
  {
    hide Untroubled, EndCall, Resume, Pump;
    var ended, call := EndCall(s, c), s.flight.calls[c];
    var resumed := Resume(ended, call.read, call.superseded.value, now);
    EndCallTroublesNone(s, c, id);
    ResumeTroublesNone(ended, call.read, call.superseded.value, now, id);
    PumpTroublesNone(resumed, now, id);
    UntroubledTwice(s, ended, resumed, id);
    UntroubledTwice(s, resumed, Finish(s, c, now), id);
  }

  lemma CreateLeaves(s: State, key: Key, id: ReadId)
    requires Pending(s, id) && id < s.ids.read
    ensures var r := Create(s, key); Pending(r, id) && r.table.unfinished[id].key == s.table.unfinished[id].key
  {}

  lemma ReadStepEnds(s: State, rpc: Rpc, args: seq<string>, now: int, id: ReadId)
    requires Inv(s) && Pending(s, id) && id < s.ids.read
    ensures EndsForAReason(s, ReadCalled(rpc, args, now), ReadStep(s, rpc, args, now), id)
  {
    hide Inv, Pump, Enqueue, Create, Untroubled, EndsForAReason;
    var n := if s.conn.active && s.conn.ready && rpc.SettingsGet? then s.(ids := s.ids.(settings := s.ids.settings + 1)) else s;
    ReadStepKeeps(s, rpc, args, now);
    match Admit(s, rpc, args) {
      case Created(new') =>
        var key := KeyFor(s, rpc, args);
        var created := Create(n, key);
        var queued := Enqueue(created, new', false, now);
        CreateLeaves(n, key, id);
        EnqueueTroublesNone(created, new', false, now, id);
        PumpTroublesNone(queued, now, id);
        UntroubledTwice(created, queued, Pump(queued, now), id);
        CreatesOne(n, key);
        UntroubledIds(created, Pump(queued, now), id);
        UntroubledEnds(s, ReadCalled(rpc, args, now), created, Pump(queued, now), id);
      case _ =>
        Undisturbed(n, id);
        UntroubledEnds(s, ReadCalled(rpc, args, now), n, n, id);
    }
  }

  lemma CreatesOne(s: State, key: Key)
    ensures Create(s, key).ids.read == s.ids.read + 1
  {}

  lemma UntroubledIds(s: State, r: State, id: ReadId)
    requires Untroubled(s, r, id)
    ensures r.ids.read == s.ids.read
  {}

  lemma AnswerEnds(s: State, c: CallId, reply: Reply, id: ReadId)
    requires Inv(s) && Pending(s, id)
    ensures EndsForAReason(s, Answered(c, reply), Answer(s, c, reply), id)
  {
    hide Inv, Version;
  }

  lemma WakeEnds(s: State, other: ReadId, now: int, id: ReadId)
    requires Inv(s) && Pending(s, id) && id < s.ids.read
    ensures EndsForAReason(s, TimerFired(other, now), Wake(s, other, now), id)
  {
    hide Inv, Pump, Enqueue, TakeDelayed, Untroubled, EndsForAReason;
    WakeKeeps(s, other, now);
    if other in s.queues.delayed {
      var taken := TakeDelayed(s, other);
      var queued := Enqueue(taken, other, true, now);
      TakeDelayedLeaves(s, other, id);
      EnqueueTroublesNone(taken, other, true, now, id);
      PumpTroublesNone(queued, now, id);
      UntroubledTwice(taken, queued, Pump(queued, now), id);
      UntroubledIds(taken, Pump(queued, now), id);
      UntroubledEnds(s, TimerFired(other, now), taken, Pump(queued, now), id);
    } else {
      Undisturbed(s, id);
      UntroubledEnds(s, TimerFired(other, now), s, s, id);
    }
  }

  lemma TakeDelayedLeaves(s: State, other: ReadId, id: ReadId)
    requires Pending(s, id)
    ensures var r := TakeDelayed(s, other);
      Pending(r, id) && r.table.unfinished[id].key == s.table.unfinished[id].key && r.ids == s.ids
  {}

  lemma FinishEnds(s: State, c: CallId, now: int, id: ReadId)
    requires Inv(s) && Pending(s, id) && id < s.ids.read
    ensures EndsForAReason(s, Finished(c, now), Finish(s, c, now), id)
  {
    hide Inv, Finish, Untroubled, EndsForAReason;
    FinishKeeps(s, c, now);
    if c in s.flight.calls && s.flight.calls[c].superseded.Some? {
      if s.flight.calls[c].read == id {
        AnsweredIsSettled(s, c);
      }
      FinishTroublesNone(s, c, now, id);
      UntroubledIds(s, Finish(s, c, now), id);
      UntroubledEnds(s, Finished(c, now), s, Finish(s, c, now), id);
    } else {
      Undisturbed(s, id);
      FinishNothing(s, c, now);
      UntroubledEnds(s, Finished(c, now), s, s, id);
    }
  }

  lemma FinishNothing(s: State, c: CallId, now: int)
    requires c !in s.flight.calls || s.flight.calls[c].superseded.None?
    ensures Finish(s, c, now) == s
  {}

  lemma AnsweredIsSettled(s: State, c: CallId)
    requires Inv(s) && c in s.flight.calls && s.flight.calls[c].superseded.Some? && s.flight.calls[c].read in s.table.unfinished
    ensures s.flight.calls[c].superseded.value <==> s.flight.calls[c].read !in s.log.outcomes
  {}

  lemma LostEnds(s: State, a: Action, conn: Connection, id: ReadId)
    requires Inv(s) && Pending(s, id) && id < s.ids.read && !conn.ready
    ensures EndsForAReason(s, a, CancelEverything(s.(conn := conn)), id)
  {
    hide Inv, CancelEverything, Untroubled, EndsForAReason;
    var lost := s.(conn := conn);
    ConnectionFree(s, conn);
    CancelEverythingKeeps(lost);
    CancelEverythingTroublesNone(lost, id);
    UntroubledIds(lost, CancelEverything(lost), id);
    UntroubledEnds(s, a, lost, CancelEverything(lost), id);
  }

  lemma PendingIsKnown(s: State, id: ReadId)
    requires Inv(s) && Pending(s, id)
    ensures id < s.ids.read
  {}

  lemma UnchangedReads(s: State, a: Action, r: State, id: ReadId)
    requires Pending(s, id) && r.table == s.table && r.log.outcomes == s.log.outcomes
    ensures EndsForAReason(s, a, r, id)
  {}

  lemma InvalidateLeavesReads(s: State, scope: Scope)
    ensures var r := Invalidate(s, scope); r.table == s.table && r.log.outcomes == s.log.outcomes && r.ids == s.ids
  {}

  /** No read is given up for nothing: whatever happens, a read without its value yet stays one, unless an answer to
      a request of its own settles it, with what the answer says or by saying nothing it could be resolved with, or
      the section finds that the read's connection is no longer the usable one. */
  lemma PendingReadsEndForAReason(s: State, a: Action, id: ReadId)
    requires Inv(s) && Pending(s, id)
    ensures EndsForAReason(s, a, Step(s, a), id)
  {
    hide Inv, Untroubled, EndsForAReason, ReadStep, Pump, Answer, Finish, Wake, CancelEverything, Invalidate;
    PendingIsKnown(s, id);
    match a
    case ReadCalled(rpc, args, now) => ReadStepEnds(s, rpc, args, now, id);
    case Pumped(now) =>
      PumpKeeps(s, now);
      PumpTroublesNone(s, now, id);
      UntroubledIds(s, Pump(s, now), id);
      UntroubledEnds(s, a, s, Pump(s, now), id);
    case Answered(c, reply) => AnswerEnds(s, c, reply, id);
    case Finished(c, now) => FinishEnds(s, c, now, id);
    case TimerFired(other, now) => WakeEnds(s, other, now, id);
    case Failed => LostEnds(s, a, s.conn.(ready := false, generation := s.conn.generation + 1), id);
    case Stopped =>
      if s.conn.active {
        LostEnds(s, a, Connection(false, false, s.conn.generation + 1), id);
      } else {
        UnchangedReads(s, a, s, id);
      }
    case Invalidated(scope) =>
      InvalidateLeavesReads(s, scope);
      UnchangedReads(s, a, Step(s, a), id);
    case _ => UnchangedReads(s, a, Step(s, a), id);
  }

  /** The same over every run. */
  lemma ReadsEndForAReason(actions: seq<Action>, a: Action, id: ReadId)
    requires Pending(Run(INITIAL, actions), id)
    ensures EndsForAReason(Run(INITIAL, actions), a, Step(Run(INITIAL, actions), a), id)
  {
    RunKeeps(actions);
    hide *;
    PendingReadsEndForAReason(Run(INITIAL, actions), a, id);
  }

  /** What the read depends on was announced to have changed since the request was made. */
  ghost predicate Overtaken(call: Call, key: Key, invalidations: seq<Invalidation>) {
    exists i | 0 <= i < |invalidations| :: invalidations[i].scope in Tracked(key) && call.startTick <= invalidations[i].tick
  }

  lemma OvertakenIsExact(call: Call, key: Key, now: seq<nat>, invalidations: seq<Invalidation>)
    requires Faithful(call, key, now, invalidations)
    ensures Overtaken(call, key, invalidations) <==> call.version != now
  {
    var scopes := Tracked(key);
    if call.version != now {
      var k :| 0 <= k < |scopes| && call.version[k] != now[k];
      assert !NoneSince(invalidations, scopes[k], call.startTick);
    } else {
      forall i | 0 <= i < |invalidations| && invalidations[i].scope in scopes
        ensures invalidations[i].tick < call.startTick
      {
        var k :| 0 <= k < |scopes| && scopes[k] == invalidations[i].scope;
        assert NoneSince(invalidations, scopes[k], call.startTick);
      }
    }
  }

  /** What the first answer to a request under the present connection does to its read: it is rejected by a failure,
      waits for another request if the request was overtaken, and else has its value. */
  ghost predicate JudgedRightly(s: State, c: CallId, reply: Reply, r: State)
    requires c in s.flight.calls && s.flight.calls[c].read in s.table.unfinished
  {
    var call, key := s.flight.calls[c], s.table.unfinished[s.flight.calls[c].read].key;
    if reply.Failure? then r.log.outcomes == s.log.outcomes[call.read := Rejected]
    else if Overtaken(call, key, s.log.invalidations) then
      r.log.outcomes == s.log.outcomes && c in r.flight.calls && r.flight.calls[c].superseded == Some(true)
    else r.log.outcomes == s.log.outcomes[call.read := if SaysNothing(key, reply) then Rejected else Resolved(reply.payload)]
  }

  lemma AnswerIsJudgedRightly(s: State, c: CallId, reply: Reply)
    requires Inv(s) && c in s.flight.calls && s.flight.calls[c].superseded.None? && s.flight.calls[c].read in s.table.unfinished
    requires s.conn.active && s.table.unfinished[s.flight.calls[c].read].key.generation == s.conn.generation
    ensures JudgedRightly(s, c, reply, Answer(s, c, reply))
  {
    hide Inv, Version, Overtaken, Faithful;
    var call := s.flight.calls[c];
    var read := s.table.unfinished[call.read];
    FlyingIsPending(s, c);
    OvertakenIsExact(call, read.key, Version(s.versions.categories, s.versions.objects, read), s.log.invalidations);
  }

  lemma FlyingIsPending(s: State, c: CallId)
    requires Inv(s) && c in s.flight.calls && s.flight.calls[c].superseded != Some(false) && s.flight.calls[c].read in s.table.unfinished
    ensures s.flight.calls[c].read !in s.log.outcomes
    ensures var read := s.table.unfinished[s.flight.calls[c].read];
      Faithful(s.flight.calls[c], read.key, Version(s.versions.categories, s.versions.objects, read), s.log.invalidations)
  {
    hide PlacesOk, KeysOk, CountsOk, IdsOk, HoldersOk, LogOk, Faithful, Version;
    FlyingAtPlace(s, c);
  }

  lemma FlyingAtPlace(s: State, c: CallId)
    requires PlacesOk(s.table.unfinished, s.queues.waiting, s.queues.delayed, s.flight.calls, None)
    requires c in s.flight.calls && s.flight.calls[c].read in s.table.unfinished
    ensures s.table.unfinished[s.flight.calls[c].read].place == InFlight(c)
  {}

  /** Over every run: whether an answer is taken depends on the announcements since its request started, and on
      nothing else. */
  lemma AnswersAreJudgedRightly(actions: seq<Action>, c: CallId, reply: Reply)
    requires var s := Run(INITIAL, actions);
      && c in s.flight.calls && s.flight.calls[c].superseded.None? && s.flight.calls[c].read in s.table.unfinished
      && s.conn.active && s.table.unfinished[s.flight.calls[c].read].key.generation == s.conn.generation
    ensures JudgedRightly(Run(INITIAL, actions), c, reply, Step(Run(INITIAL, actions), Answered(c, reply)))
  {
    RunKeeps(actions);
    hide Inv, Run, Answer, JudgedRightly;
    AnswerIsJudgedRightly(Run(INITIAL, actions), c, reply);
  }

  /** Too early for a read that isn't urgent to be made again. */
  ghost predicate TooEarly(s: State, read: Read, now: int) {
    !IsUrgent(s, read.key) && read.lastStart.Some? && now < read.lastStart.value + INTERVAL_MS
  }

  /** Read `id` of the present connection is made again: it is still unfinished and without its value, set aside exactly
      if it is too early, and else queued or asked for by a newer request. */
  ghost predicate MadeAgain(s: State, r: State, id: ReadId, now: int)
    requires id in s.table.unfinished
  {
    && Pending(r, id) && r.table.unfinished[id].key == s.table.unfinished[id].key
    && (id in r.queues.delayed <==> TooEarly(s, s.table.unfinished[id], now))
    && (id !in r.queues.delayed ==>
          id in r.queues.waiting || exists d | d in r.flight.calls && s.ids.call <= d :: r.flight.calls[d].read == id)
  }

  lemma EnqueuedIsMadeAgain(s: State, id: ReadId, now: int)
    requires InvWhile(s, Some(id)) && Pending(s, id) && Usable(s, s.table.unfinished[id])
    ensures var r := Pump(Enqueue(s, id, true, now), now); Inv(r) && MadeAgain(s, r, id, now)
  {
    hide InvWhile, Pump, Enqueue, Untroubled, IsUrgent, InOnePlace;
    var queued := Enqueue(s, id, true, now);
    var r := Pump(queued, now);
    EnqueueKeeps(s, id, true, now);
    PumpKeeps(queued, now);
    PumpTroublesNone(queued, now, id);
    EnqueueTroublesNone(s, id, true, now, id);
    PutSomewhere(s, id, now);
    UntroubledPending(s, queued, id);
    UntroubledPending(queued, r, id);
    PumpPromotes(queued, now);
    MadeAgainSomewhere(s, queued, r, id);
  }

  /** Where `Enqueue` puts a read. */
  lemma PutSomewhere(s: State, id: ReadId, now: int)
    requires InvWhile(s, Some(id)) && Pending(s, id) && Usable(s, s.table.unfinished[id])
    ensures var r := Enqueue(s, id, true, now); id in r.queues.delayed <==> TooEarly(s, s.table.unfinished[id], now)
  {
    hide IdsOk, HoldersOk, FreshOk, KeysOk, CountsOk, OutcomesOk, LogOk, IsUrgent;
    assert id !in s.queues.delayed;
    assert (s.queues.delayed + [id])[|s.queues.delayed|] == id;
  }

  lemma UntroubledPending(s: State, r: State, id: ReadId)
    requires Untroubled(s, r, id) && Pending(s, id) && Usable(s, s.table.unfinished[id])
    ensures Pending(r, id) && r.table.unfinished[id].key == s.table.unfinished[id].key && Usable(r, r.table.unfinished[id])
    ensures r.urgent == s.urgent && s.ids.call <= r.ids.call && r.conn == s.conn
    ensures id in s.queues.delayed && !IsUrgent(s, s.table.unfinished[id].key) ==> id in r.queues.delayed
    ensures IsUrgent(r, s.table.unfinished[id].key) <==> IsUrgent(s, s.table.unfinished[id].key)
  {}

  lemma PumpPromotes(s: State, now: int)
    requires Inv(s)
    ensures forall id | id in Pump(s, now).queues.delayed :: id in s.queues.delayed
  {
    hide Inv, PromoteAll, StartAll;
    if s.conn.active && s.conn.ready {
      PromoteAllMissesNone(s, s.queues.delayed, now);
      StartAllSetsNothingAside(PromoteAll(s, s.queues.delayed, now), now);
    }
  }

  /** An overtaken request of the present connection ends: its read is made again. */
  ghost predicate EndsOvertaken(s: State, c: CallId) {
    && c in s.flight.calls && s.flight.calls[c].superseded == Some(true)
    && s.flight.calls[c].read in s.table.unfinished && Usable(s, s.table.unfinished[s.flight.calls[c].read])
  }

  lemma FinishedIsMadeAgain(s: State, c: CallId, now: int)
    requires Inv(s) && EndsOvertaken(s, c)
    ensures var r := Finish(s, c, now); c !in r.flight.calls && MadeAgain(s, r, s.flight.calls[c].read, now)
  {
    hide Inv, InvWhile, MadeAgain, EndCall, Enqueue, Pump;
    var id, ended := s.flight.calls[c].read, EndCall(s, c);
    EndCallKeeps(s, c);
    EndedIsMoving(s, c);
    EnqueuedIsMadeAgain(ended, id, now);
    MadeAgainSince(s, ended, Pump(Enqueue(ended, id, true, now), now), id, now);
    CallIsGone(s, c, now);
  }

  lemma EndedIsMoving(s: State, c: CallId)
    requires Inv(s) && EndsOvertaken(s, c)
    ensures var id, r := s.flight.calls[c].read, EndCall(s, c);
      && Pending(s, id) && Pending(r, id) && Usable(r, r.table.unfinished[id])
      && r.table.unfinished[id] == s.table.unfinished[id].(place := Moving) && r.urgent == s.urgent && r.ids == s.ids
      && c < s.ids.call && c !in r.flight.calls
  {
    FlyingIsPending(s, c);
  }

  lemma CallIsGone(s: State, c: CallId, now: int)
    requires Inv(s) && EndsOvertaken(s, c)
    ensures c !in Finish(s, c, now).flight.calls
  {
    hide Inv, EndCall, Enqueue, Pump, Untroubled;
    var id, ended := s.flight.calls[c].read, EndCall(s, c);
    var queued := Enqueue(ended, id, true, now);
    EndedIsMoving(s, c);
    EnqueueTroublesNone(ended, id, true, now, id);
    PumpTroublesNone(queued, now, id);
    UntroubledTwice(ended, queued, Pump(queued, now), id);
    UntroubledCall(ended, Pump(queued, now), id, c);
  }

  lemma UntroubledCall(s: State, r: State, id: ReadId, c: CallId)
    requires Untroubled(s, r, id) && c < s.ids.call && c !in s.flight.calls
    ensures c !in r.flight.calls
  {}

  lemma MadeAgainSince(s: State, t: State, r: State, id: ReadId, now: int)
    requires Pending(s, id) && Pending(t, id) && t.urgent == s.urgent && t.ids == s.ids
    requires t.table.unfinished[id] == s.table.unfinished[id].(place := Moving)
    requires MadeAgain(t, r, id, now)
    ensures MadeAgain(s, r, id, now)
  {}

  /** No overtaken read is forgotten, over every run: when the request that was overtaken ends and its connection still
      is the usable one, the read is made again; and so it is when the timer of one set aside fires. */
  lemma OvertakenReadsAreMadeAgain(actions: seq<Action>, c: CallId, id: ReadId, now: int)
    ensures var s := Run(INITIAL, actions);
      EndsOvertaken(s, c) ==> MadeAgain(s, Step(s, Finished(c, now)), s.flight.calls[c].read, now)
    ensures var s := Run(INITIAL, actions);
      id in s.queues.delayed && id in s.table.unfinished && Usable(s, s.table.unfinished[id]) ==>
        MadeAgain(s, Step(s, TimerFired(id, now)), id, now)
  {
    RunKeeps(actions);
    hide Inv, Run, Finish, Wake, MadeAgain, EndsOvertaken;
    var s := Run(INITIAL, actions);
    if EndsOvertaken(s, c) {
      FinishedIsMadeAgain(s, c, now);
    }
    if id in s.queues.delayed && id in s.table.unfinished && Usable(s, s.table.unfinished[id]) {
      WokenIsMadeAgain(s, id, now);
    }
  }

  lemma WokenIsMadeAgain(s: State, id: ReadId, now: int)
    requires Inv(s) && id in s.queues.delayed && id in s.table.unfinished && Usable(s, s.table.unfinished[id])
    ensures MadeAgain(s, Wake(s, id, now), id, now)
  {
    hide Inv, InvWhile, MadeAgain, TakeDelayed, Enqueue, Pump;
    var taken := TakeDelayed(s, id);
    TakeDelayedKeeps(s, id);
    TakenIsMoving(s, id);
    EnqueuedIsMadeAgain(taken, id, now);
    MadeAgainSince(s, taken, Pump(Enqueue(taken, id, true, now), now), id, now);
  }

  lemma TakenIsMoving(s: State, id: ReadId)
    requires id in s.table.unfinished
    ensures var r := TakeDelayed(s, id);
      && id in r.table.unfinished && r.table.unfinished[id] == s.table.unfinished[id].(place := Moving)
      && r.urgent == s.urgent && r.ids == s.ids && r.log == s.log && r.conn == s.conn
  {}

  lemma MadeAgainSomewhere(s: State, queued: State, r: State, id: ReadId)
    requires InvWhile(s, Some(id)) && Pending(s, id) && Inv(r) && Pending(r, id)
    requires Untroubled(s, queued, id) && Untroubled(queued, r, id)
    ensures id !in r.queues.delayed ==>
      id in r.queues.waiting || exists d | d in r.flight.calls && s.ids.call <= d :: r.flight.calls[d].read == id
  {
    hide HoldersOk, FreshOk, KeysOk, CountsOk, OutcomesOk, LogOk, IdsOk;
    UntroubledTwice(s, queued, r, id);
    assert AtPlace(id, r.table.unfinished[id].place, r.queues.waiting, r.queues.delayed, r.flight.calls, None);
  }

  // -- joining ---------------------------------------------------------------------------------

  /** Settings reads are numbered in the order they are asked for, and no other read is. */
  ghost predicate Numbered(reading: map<Key, ReadId>, settings: nat) {
    forall k | k in reading :: k.sequence <= settings && (!k.rpc.SettingsGet? ==> k.sequence == 0)
  }

  lemma FewerNumbered(reading: map<Key, ReadId>, settings: nat, reading': map<Key, ReadId>, settings': nat)
    requires Numbered(reading, settings) && reading'.Keys <= reading.Keys && settings <= settings'
    ensures Numbered(reading', settings')
  {
    forall k | k in reading'
      ensures k.sequence <= settings' && (!k.rpc.SettingsGet? ==> k.sequence == 0)
    {
      assert k in reading'.Keys;
      assert k in reading;
    }
  }

  lemma UntroubledNumbered(s: State, r: State, id: ReadId)
    requires Untroubled(s, r, id) && Numbered(s.table.reading, s.ids.settings)
    ensures Numbered(r.table.reading, r.ids.settings)
  {
    FewerNumbered(s.table.reading, s.ids.settings, r.table.reading, r.ids.settings);
  }

  lemma ReadStepNumbers(s: State, rpc: Rpc, args: seq<string>, now: int)
    requires Numbered(s.table.reading, s.ids.settings)
    ensures Numbered(ReadStep(s, rpc, args, now).table.reading, ReadStep(s, rpc, args, now).ids.settings)
  {
    hide Pump, Enqueue, Create, Untroubled, Numbered;
    var n := if s.conn.active && s.conn.ready && rpc.SettingsGet? then s.(ids := s.ids.(settings := s.ids.settings + 1)) else s;
    FewerNumbered(s.table.reading, s.ids.settings, n.table.reading, n.ids.settings);
    if Admit(s, rpc, args).Created? {
      var key, id := KeyFor(s, rpc, args), s.ids.read;
      var created := Create(n, key);
      var queued := Enqueue(created, id, false, now);
      CreateNumbers(n, key);
      EnqueueTroublesNone(created, id, false, now, id);
      PumpTroublesNone(queued, now, id);
      UntroubledNumbered(created, queued, id);
      UntroubledNumbered(queued, Pump(queued, now), id);
    }
  }

  lemma CreateNumbers(s: State, key: Key)
    requires Numbered(s.table.reading, s.ids.settings) && key.sequence == (if key.rpc.SettingsGet? then s.ids.settings else 0)
    ensures Numbered(Create(s, key).table.reading, Create(s, key).ids.settings)
  {}

  lemma FinishNumbers(s: State, c: CallId, now: int)
    requires Numbered(s.table.reading, s.ids.settings)
    ensures Numbered(Finish(s, c, now).table.reading, Finish(s, c, now).ids.settings)
  {
    hide Untroubled, Finish, Numbered;
    if c in s.flight.calls && s.flight.calls[c].superseded.Some? {
      var id := s.flight.calls[c].read + 1;
      FinishTroublesNone(s, c, now, id);
      UntroubledNumbered(s, Finish(s, c, now), id);
    } else {
      FinishNothing(s, c, now);
    }
  }

  lemma WakeNumbers(s: State, id: ReadId, now: int)
    requires Numbered(s.table.reading, s.ids.settings)
    ensures Numbered(Wake(s, id, now).table.reading, Wake(s, id, now).ids.settings)
  {
    hide Untroubled, TakeDelayed, Enqueue, Pump, Numbered;
    if id in s.queues.delayed {
      var taken := TakeDelayed(s, id);
      var queued := Enqueue(taken, id, true, now);
      TakeDelayedTable(s, id);
      EnqueueTroublesNone(taken, id, true, now, id);
      PumpTroublesNone(queued, now, id);
      UntroubledNumbered(taken, queued, id);
      UntroubledNumbered(queued, Pump(queued, now), id);
    }
  }

  lemma TakeDelayedTable(s: State, id: ReadId)
    ensures TakeDelayed(s, id).table.reading == s.table.reading && TakeDelayed(s, id).ids == s.ids
  {}

  lemma StepNumbers(s: State, a: Action)
    requires Numbered(s.table.reading, s.ids.settings)
    ensures Numbered(Step(s, a).table.reading, Step(s, a).ids.settings)
  {
    hide Untroubled, Numbered, ReadStep, Pump, Answer, Finish, Wake, CancelEverything, Invalidate;
    match a
    case ReadCalled(rpc, args, now) => ReadStepNumbers(s, rpc, args, now);
    case Invalidated(scope) => InvalidateLeavesReads(s, scope);
    case Pumped(now) =>
      PumpTroublesNone(s, now, 0);
      UntroubledNumbered(s, Pump(s, now), 0);
    case Answered(c, reply) => AnswerLeavesTable(s, c, reply);
    case Finished(c, now) => FinishNumbers(s, c, now);
    case TimerFired(id, now) => WakeNumbers(s, id, now);
    case Failed => LostNumbers(s, s.conn.(ready := false, generation := s.conn.generation + 1));
    case Stopped =>
      if s.conn.active {
        LostNumbers(s, Connection(false, false, s.conn.generation + 1));
      }
    case _ =>
  }

  lemma LostNumbers(s: State, conn: Connection)
    requires Numbered(s.table.reading, s.ids.settings) && !conn.ready
    ensures var r := CancelEverything(s.(conn := conn)); Numbered(r.table.reading, r.ids.settings)
  {
    hide Untroubled, CancelEverything, Numbered;
    CancelEverythingTroublesNone(s.(conn := conn), 0);
    UntroubledNumbered(s.(conn := conn), CancelEverything(s.(conn := conn)), 0);
  }

  lemma AnswerLeavesTable(s: State, c: CallId, reply: Reply)
    ensures Answer(s, c, reply).table == s.table && Answer(s, c, reply).ids == s.ids
  {
    hide Version;
  }

  lemma {:induction false} RunNumbers(actions: seq<Action>)
    ensures Numbered(Run(INITIAL, actions).table.reading, Run(INITIAL, actions).ids.settings)
  {
    hide Step, Numbered;
    if actions == [] {
      NoneNumbered();
    } else {
      RunNumbers(actions[..|actions| - 1]);
      StepNumbers(Run(INITIAL, actions[..|actions| - 1]), actions[|actions| - 1]);
    }
  }

  lemma NoneNumbered()
    ensures Numbered(INITIAL.table.reading, INITIAL.ids.settings)
  {}

  /** The read asks what a call of `rpc` with `args` asks, under the present connection. */
  ghost predicate AsksFor(s: State, id: ReadId, rpc: Rpc, args: seq<string>) {
    && id in s.table.unfinished && s.table.unfinished[id].key.rpc == rpc && s.table.unfinished[id].key.args == args
    && s.table.unfinished[id].key.generation == s.conn.generation
  }

  ghost predicate Full(s: State) { |s.table.unfinished| >= DIRTY_KEYS || |s.queues.waiting| >= DIRTY_KEYS }

  /** What a caller is told, and what is then done: nothing without a connection; the settings are always read anew;
      anything else is read once for all who ask while it is under way; and no read is made beyond the limits. */
  ghost predicate AdmittedRightly(s: State, rpc: Rpc, args: seq<string>, admission: Admission, r: State) {
    match admission
    case Unavailable => !(s.conn.active && s.conn.ready) && r == s
    case Joined(id) => s.conn.active && s.conn.ready && AsksFor(s, id, rpc, args) && !rpc.SettingsGet? && r == s
    case Busy =>
      && s.conn.active && s.conn.ready && Full(s) && r.table == s.table && r.queues == s.queues
      && (rpc.SettingsGet? || forall id :: !AsksFor(s, id, rpc, args))
    case Created(id) =>
      && s.conn.active && s.conn.ready && !Full(s) && id !in s.table.unfinished && id !in s.log.outcomes
      && (rpc.SettingsGet? || forall other :: !AsksFor(s, other, rpc, args))
      && AsksFor(r, id, rpc, args) && Pending(r, id) && InOnePlace(r, id) && id !in r.queues.delayed
  }

  lemma ReadingIsUnfinished(unfinished: map<ReadId, Read>, reading: map<Key, ReadId>)
    requires KeysOk(unfinished, reading)
    ensures |reading| == |unfinished|
  {
    SameSize(reading, unfinished.Keys);
  }

  lemma {:induction false} SameSize(reading: map<Key, ReadId>, ids: set<ReadId>)
    requires forall k | k in reading :: reading[k] in ids
    requires forall id | id in ids :: exists k | k in reading :: reading[k] == id
    requires forall j, k | j in reading && k in reading && reading[j] == reading[k] :: j == k
    ensures |reading| == |ids|
  {
    if reading == map[] {
      assert ids == {};
    } else {
      var k :| k in reading;
      assert |reading - {k}| == |reading| - 1;
      forall id | id in ids - {reading[k]}
        ensures exists j | j in reading - {k} :: (reading - {k})[j] == id
      {
        var j :| j in reading && reading[j] == id;
        assert j in reading - {k};
      }
      SameSize(reading - {k}, ids - {reading[k]});
      assert |ids| == |ids - {reading[k]}| + 1;
    }
  }

  lemma KeyIsRead(s: State, rpc: Rpc, args: seq<string>)
    requires KeysOk(s.table.unfinished, s.table.reading) && Numbered(s.table.reading, s.ids.settings)
    ensures var key := KeyFor(s, rpc, args);
      if key in s.table.reading then !rpc.SettingsGet? && AsksFor(s, s.table.reading[key], rpc, args)
      else rpc.SettingsGet? || forall id :: !AsksFor(s, id, rpc, args)
  {
    var key := KeyFor(s, rpc, args);
    if !rpc.SettingsGet? {
      forall id | AsksFor(s, id, rpc, args)
        ensures key in s.table.reading
      {
        assert s.table.unfinished[id].key in s.table.reading;
        assert s.table.unfinished[id].key == key;
      }
    }
  }

  lemma CreatedIsQueued(s: State, key: Key, now: int)
    requires Inv(s) && key !in s.table.reading && |s.table.reading| < DIRTY_KEYS
    requires s.conn.active && s.conn.ready && key.generation == s.conn.generation
    ensures var r := Pump(Enqueue(Create(s, key), s.ids.read, false, now), now);
      && AsksFor(r, s.ids.read, key.rpc, key.args) && Pending(r, s.ids.read) && InOnePlace(r, s.ids.read)
      && s.ids.read !in r.queues.delayed
  {
    hide Inv, InvWhile, Create, Enqueue, Pump, Untroubled, InOnePlace;
    var id, created := s.ids.read, Create(s, key);
    var queued := Enqueue(created, id, false, now);
    CreateKeeps(s, key);
    NewlyCreated(s, key);
    EnqueueKeeps(created, id, false, now);
    PumpKeeps(queued, now);
    EnqueueTroublesNone(created, id, false, now, id);
    PumpTroublesNone(queued, now, id);
    UntroubledPending(created, queued, id);
    UntroubledPending(queued, Pump(queued, now), id);
    NotSetAside(created, id, now);
    PumpPromotes(queued, now);
    PlacedOnce(Pump(queued, now), id);
  }

  lemma PlacedOnce(s: State, id: ReadId)
    requires Inv(s) && id in s.table.unfinished
    ensures InOnePlace(s, id)
  {
    hide InOnePlace, KeysOk, CountsOk, IdsOk, HoldersOk, FreshOk, OutcomesOk, LogOk;
    ReadIsSomewhere(s, id);
  }

  lemma NewlyCreated(s: State, key: Key)
    requires Inv(s)
    ensures var r := Create(s, key);
      && s.ids.read in r.table.unfinished && r.table.unfinished[s.ids.read].key == key && r.conn == s.conn
      && s.ids.read !in r.log.outcomes && s.ids.read !in r.queues.delayed
      && s.ids.read !in s.table.unfinished && s.ids.read !in s.log.outcomes
  {
    hide KeysOk, CountsOk, HoldersOk, FreshOk, OutcomesOk, LogOk;
  }

  lemma NotSetAside(s: State, id: ReadId, now: int)
    requires id in s.table.unfinished && Usable(s, s.table.unfinished[id])
    ensures Enqueue(s, id, false, now).queues.delayed == s.queues.delayed
  {}

  lemma AdmissionIsRight(s: State, rpc: Rpc, args: seq<string>, now: int)
    requires Inv(s) && Numbered(s.table.reading, s.ids.settings)
    ensures AdmittedRightly(s, rpc, args, Admit(s, rpc, args), ReadStep(s, rpc, args, now))
  {
    hide Inv, Enqueue, Pump, Create, AsksFor, Pending, InOnePlace, Numbered;
    var key := KeyFor(s, rpc, args);
    var n := if s.conn.active && s.conn.ready && rpc.SettingsGet? then s.(ids := s.ids.(settings := s.ids.settings + 1)) else s;
    ReadersAreCounted(s);
    KeyIsRead(s, rpc, args);
    if Admit(s, rpc, args).Created? {
      SettingsFree(s, n.ids.settings);
      CreatedIsQueued(n, key, now);
      NewlyCreated(s, key);
    }
  }

  lemma ReadersAreCounted(s: State)
    requires Inv(s)
    ensures |s.table.reading| == |s.table.unfinished| && KeysOk(s.table.unfinished, s.table.reading)
  {
    hide KeysOk;
    ReadingIsUnfinished(s.table.unfinished, s.table.reading);
  }

  lemma SettingsFree(s: State, settings: nat)
    requires Inv(s)
    ensures Inv(s.(ids := s.ids.(settings := settings)))
  {
    hide PlacesOk, KeysOk, CountsOk, IdsOk, HoldersOk, FreshOk, OutcomesOk, LogOk;
  }

  /** Over every run, callers are admitted rightly. */
  lemma CallersAreAdmittedRightly(actions: seq<Action>, rpc: Rpc, args: seq<string>, now: int)
    ensures var s := Run(INITIAL, actions);
      AdmittedRightly(s, rpc, args, Admit(s, rpc, args), Step(s, ReadCalled(rpc, args, now)))
  {
    RunKeeps(actions);
    RunNumbers(actions);
    hide Inv, Numbered, AdmittedRightly, Admit, ReadStep, Run;
    AdmissionIsRight(Run(INITIAL, actions), rpc, args, now);
  }

  // -- waiting ---------------------------------------------------------------------------------

  /** The section lets queued reads go on where they can. */
  ghost predicate Serves(s: State, a: Action) {
    match a
    case ReadCalled(rpc, args, now) => Admit(s, rpc, args).Created?
    case Finished(c, now) => c in s.flight.calls && s.flight.calls[c].superseded.Some?
    case TimerFired(id, now) => id in s.queues.delayed
    case Pumped(now) => true
    case _ => false
  }

  /** Whenever a read was queued, a slot came free, a timer fired or the coordinator is asked to, everything goes on
      that can: what still waits, waits for a slot. */
  lemma NothingWaitsForNothing(actions: seq<Action>, a: Action)
    requires var s := Run(INITIAL, actions); Serves(s, a) && s.conn.active && s.conn.ready
    ensures Drained(Step(Run(INITIAL, actions), a))
  {
    RunKeeps(actions);
    hide Inv, Run, Drained, Create, Enqueue, Pump, Finish, TakeDelayed;
    var s := Run(INITIAL, actions);
    match a
    case ReadCalled(rpc, args, now) => ReadStepDrains(s, rpc, args, now);
    case Finished(c, now) => FinishKeeps(s, c, now);
    case TimerFired(id, now) => WakeDrains(s, id, now);
    case Pumped(now) => PumpKeeps(s, now);
  }

  lemma ReadStepDrains(s: State, rpc: Rpc, args: seq<string>, now: int)
    requires Inv(s) && Admit(s, rpc, args).Created?
    ensures Drained(ReadStep(s, rpc, args, now))
  {
    hide Inv, InvWhile, Create, Enqueue, Pump, Drained;
    var key := KeyFor(s, rpc, args);
    var n := if s.conn.active && s.conn.ready && rpc.SettingsGet? then s.(ids := s.ids.(settings := s.ids.settings + 1)) else s;
    SettingsFree(s, n.ids.settings);
    CreateKeeps(n, key);
    NewlyCreated(n, key);
    EnqueueKeeps(Create(n, key), s.ids.read, false, now);
    EnqueueFrame(Create(n, key), s.ids.read, false, now);
    PumpKeeps(Enqueue(Create(n, key), s.ids.read, false, now), now);
  }

  lemma WakeDrains(s: State, id: ReadId, now: int)
    requires Inv(s) && id in s.queues.delayed && s.conn.active && s.conn.ready
    ensures Drained(Wake(s, id, now))
  {
    hide Inv, InvWhile, Enqueue, Pump, TakeDelayed, Drained;
    TakeDelayedKeeps(s, id);
    TakeDelayedFrame(s, id);
    TakenIsMoving(s, id);
    EnqueueKeeps(TakeDelayed(s, id), id, true, now);
    EnqueueFrame(TakeDelayed(s, id), id, true, now);
    PumpKeeps(Enqueue(TakeDelayed(s, id), id, true, now), now);
  }

  // -- the order of the queue --------------------------------------------------------------------

  /** `x` stands somewhere before `y` in the queue. */
  ghost predicate Before(queue: seq<ReadId>, x: ReadId, y: ReadId) {
    exists i, j | 0 <= i < j < |queue| :: queue[i] == x && queue[j] == y
  }

  lemma BeforeExtends(queue: seq<ReadId>, longer: seq<ReadId>, x: ReadId, y: ReadId)
    requires queue <= longer && Before(queue, x, y)
    ensures Before(longer, x, y)
  {
    var i, j :| 0 <= i < j < |queue| && queue[i] == x && queue[j] == y;
    assert longer[i] == x && longer[j] == y;
  }

  lemma BeforeWithout(queue: seq<ReadId>, k: nat, x: ReadId, y: ReadId)
    requires k < |queue| && Before(queue, x, y) && queue[k] != x && queue[k] != y
    ensures Before(queue[..k] + queue[k + 1..], x, y)
  {
    var i, j :| 0 <= i < j < |queue| && queue[i] == x && queue[j] == y;
    var left := queue[..k] + queue[k + 1..];
    assert left[if i < k then i else i - 1] == x && left[if j < k then j else j - 1] == y;
  }

  lemma {:induction false} RemoveNone(ids: seq<ReadId>, id: ReadId)
    requires id !in ids
    ensures Remove(ids, id) == ids
  {
    if ids != [] {
      RemoveNone(ids[1..], id);
    }
  }

  /** `x` is before `y` in the queue, and not less urgent. */
  ghost predicate Ahead(s: State, x: ReadId, y: ReadId) {
    && Before(s.queues.waiting, x, y) && x in s.table.unfinished && y in s.table.unfinished
    && (IsUrgent(s, s.table.unfinished[y].key) ==> IsUrgent(s, s.table.unfinished[x].key))
  }

  /** Only the end of the queue may change, and reads in it stay what they are. */
  ghost predicate QueueGrows(s: State, r: State) {
    && s.queues.waiting <= r.queues.waiting && r.urgent == s.urgent
    && forall id | id in s.queues.waiting && id in s.table.unfinished ::
      id in r.table.unfinished && r.table.unfinished[id].key == s.table.unfinished[id].key
  }

  lemma QueueGrowsTwice(s: State, t: State, r: State)
    requires QueueGrows(s, t) && QueueGrows(t, r)
    ensures QueueGrows(s, r)
  {
    assert forall id | id in s.queues.waiting :: id in t.queues.waiting;
  }

  lemma AheadStays(s: State, r: State, x: ReadId, y: ReadId)
    requires QueueGrows(s, r) && Ahead(s, x, y)
    ensures Ahead(r, x, y)
  {
    BeforeExtends(s.queues.waiting, r.queues.waiting, x, y);
    var i, j :| 0 <= i < j < |s.queues.waiting| && s.queues.waiting[i] == x && s.queues.waiting[j] == y;
  }

  lemma CleanOutside(s: State, id: ReadId)
    requires id !in s.queues.waiting
    ensures QueueGrows(s, Clean(s, id)) && QueueGrows(s, Cancel(s, id))
  {
    hide ReleasedObjects, ReleasedRecords, Settle;
    RemoveNone(s.queues.waiting, id);
  }

  lemma EnqueueGrows(s: State, id: ReadId, retry: bool, now: int)
    requires id !in s.queues.waiting
    ensures QueueGrows(s, Enqueue(s, id, retry, now))
  {
    hide Cancel, IsUrgent;
    CleanOutside(s, id);
  }

  lemma {:induction false} PromoteAllGrows(s: State, ids: seq<ReadId>, now: int)
    requires Inv(s)
    ensures QueueGrows(s, PromoteAll(s, ids, now))
    decreases |ids|
  {
    hide Inv, InvWhile, QueueGrows, Enqueue, TakeDelayed, IsUrgent;
    if ids == [] {
      QueueStays(s);
    } else if ids[0] in s.queues.delayed && ids[0] in s.table.unfinished && IsUrgent(s, s.table.unfinished[ids[0]].key) {
      var taken := TakeDelayed(s, ids[0]);
      TakeDelayedKeeps(s, ids[0]);
      TakeDelayedFrame(s, ids[0]);
      EnqueueKeeps(taken, ids[0], true, now);
      TakenIsOutside(s, ids[0]);
      EnqueueGrows(taken, ids[0], true, now);
      PromoteAllGrows(Enqueue(taken, ids[0], true, now), ids[1..], now);
      QueueGrowsTwice(s, taken, Enqueue(taken, ids[0], true, now));
      QueueGrowsTwice(s, Enqueue(taken, ids[0], true, now), PromoteAll(s, ids, now));
    } else {
      PromoteAllGrows(s, ids[1..], now);
    }
  }

  lemma QueueStays(s: State)
    ensures QueueGrows(s, s)
  {}

  lemma TakenIsOutside(s: State, id: ReadId)
    requires Inv(s) && id in s.queues.delayed
    ensures QueueGrows(s, TakeDelayed(s, id)) && id !in TakeDelayed(s, id).queues.waiting
  {
    hide Remove, KeysOk, CountsOk, IdsOk, HoldersOk, FreshOk, OutcomesOk, LogOk;
  }

  /** The read started next stands behind none that is not less urgent. */
  lemma NextIsFair(s: State, x: ReadId, y: ReadId)
    requires PlacesOk(s.table.unfinished, s.queues.waiting, s.queues.delayed, s.flight.calls, None)
    requires Ahead(s, x, y) && NextToStart(s).Some?
    ensures s.queues.waiting[NextToStart(s).value] != y
  {
    var i, j :| 0 <= i < j < |s.queues.waiting| && s.queues.waiting[i] == x && s.queues.waiting[j] == y;
    hide IsUrgent;
    var urgent := FirstUrgent(s, 0);
    assert Unique(s.queues.waiting);
  }

  lemma StartKeepsQueue(s: State, id: ReadId, now: int)
    requires id !in s.queues.waiting
    ensures QueueGrows(s, Start(s, id, now)) && Start(s, id, now).queues.waiting == s.queues.waiting
  {
    hide Cancel, IsUrgent, Version;
    CleanOutside(s, id);
    CancelKeepsQueue(s, id);
  }

  lemma CancelKeepsQueue(s: State, id: ReadId)
    requires id !in s.queues.waiting
    ensures Cancel(s, id).queues.waiting == s.queues.waiting
  {
    RemoveNone(s.queues.waiting, id);
  }

  lemma TakenFromQueue(s: State, k: nat, x: ReadId, y: ReadId)
    requires PlacesOk(s.table.unfinished, s.queues.waiting, s.queues.delayed, s.flight.calls, None)
    requires k < |s.queues.waiting| && Ahead(s, x, y) && s.queues.waiting[k] != y
    ensures var r := TakeQueued(s, k);
      && s.queues.waiting[k] !in r.queues.waiting
      && (s.queues.waiting[k] != x ==> Ahead(r, x, y))
      && (s.queues.waiting[k] == x ==> x !in r.queues.waiting)
  {
    var queue := s.queues.waiting;
    var left := queue[..k] + queue[k + 1..];
    assert forall i | 0 <= i < |left| :: left[i] == queue[if i < k then i else i + 1];
    if queue[k] != x {
      BeforeWithout(queue, k, x, y);
    }
  }

  lemma {:induction false} StartAllStartsWaiting(s: State, now: int, id: ReadId)
    requires id !in s.queues.waiting
    ensures id !in StartAll(s, now).queues.waiting
    decreases |s.queues.waiting|
  {
    var next := NextToStart(s);
    if next.Some? {
      var k := next.value;
      StartShrinks(TakeQueued(s, k), s.queues.waiting[k], now);
      hide Start, NextToStart;
      assert forall other | other in TakeQueued(s, k).queues.waiting :: other in s.queues.waiting;
      StartAllStartsWaiting(Start(TakeQueued(s, k), s.queues.waiting[k], now), now, id);
    }
  }

  lemma StartShrinks(s: State, id: ReadId, now: int)
    ensures forall other | other in Start(s, id, now).queues.waiting :: other in s.queues.waiting
  {
    hide IsUrgent, Version;
    RemoveSubset(s.queues.waiting, id);
  }

  lemma {:induction false} StartAllIsFair(s: State, now: int, x: ReadId, y: ReadId)
    requires Inv(s) && Ahead(s, x, y)
    ensures x in StartAll(s, now).queues.waiting ==> Before(StartAll(s, now).queues.waiting, x, y)
    decreases |s.queues.waiting|
  {
    hide Inv, InvWhile, Start, TakeQueued, NextToStart, Before, Ahead;
    match NextToStart(s) {
      case None => AheadIsBefore(s, x, y);
      case Some(k) =>
        var id, taken := s.queues.waiting[k], TakeQueued(s, k);
        InvPlaces(s);
        NextIsFair(s, x, y);
        TakenFromQueue(s, k, x, y);
        StartKeepsQueue(taken, id, now);
        if id == x {
          StartAllStartsWaiting(Start(taken, id, now), now, x);
        } else {
          StartedKeeps(s, k, now);
          AheadStays(taken, Start(taken, id, now), x, y);
          StartAllIsFair(Start(taken, id, now), now, x, y);
        }
    }
  }

  lemma AheadIsBefore(s: State, x: ReadId, y: ReadId)
    requires Ahead(s, x, y)
    ensures Before(s.queues.waiting, x, y)
  {}

  lemma InvPlaces(s: State)
    requires Inv(s)
    ensures PlacesOk(s.table.unfinished, s.queues.waiting, s.queues.delayed, s.flight.calls, None)
  {}

  lemma StartedKeeps(s: State, k: nat, now: int)
    requires Inv(s) && NextToStart(s) == Some(k)
    ensures Inv(Start(TakeQueued(s, k), s.queues.waiting[k], now))
  {
    hide Inv, InvWhile, Start;
    TakeQueuedKeeps(s, k);
    StartKeeps(TakeQueued(s, k), s.queues.waiting[k], now);
  }

  lemma PumpIsFair(s: State, now: int, x: ReadId, y: ReadId)
    requires Inv(s) && Ahead(s, x, y)
    ensures x in Pump(s, now).queues.waiting ==> Before(Pump(s, now).queues.waiting, x, y)
  {
    hide Inv, PromoteAll, StartAll, Before, Ahead;
    AheadIsBefore(s, x, y);
    if s.conn.active && s.conn.ready {
      PromoteAllKeeps(s, s.queues.delayed, now);
      PromoteAllGrows(s, s.queues.delayed, now);
      AheadStays(s, PromoteAll(s, s.queues.delayed, now), x, y);
      StartAllIsFair(PromoteAll(s, s.queues.delayed, now), now, x, y);
    }
  }

  lemma GrownThenPumped(s: State, t: State, now: int, x: ReadId, y: ReadId)
    requires Ahead(s, x, y) && QueueGrows(s, t) && Inv(t)
    ensures x in Pump(t, now).queues.waiting ==> Before(Pump(t, now).queues.waiting, x, y)
  {
    hide Inv, Pump, Before, Ahead;
    AheadStays(s, t, x, y);
    PumpIsFair(t, now, x, y);
  }

  lemma ReadStepIsFair(s: State, rpc: Rpc, args: seq<string>, now: int, x: ReadId, y: ReadId)
    requires Inv(s) && Ahead(s, x, y)
    ensures var r := ReadStep(s, rpc, args, now); x in r.queues.waiting ==> Before(r.queues.waiting, x, y)
  {
    hide Inv, InvWhile, Create, Enqueue, Pump, Ahead, Before, QueueGrows;
    var n := if s.conn.active && s.conn.ready && rpc.SettingsGet? then s.(ids := s.ids.(settings := s.ids.settings + 1)) else s;
    AheadIsBefore(s, x, y);
    if Admit(s, rpc, args).Created? {
      var key := KeyFor(s, rpc, args);
      var created := Create(n, key);
      SettingsFree(s, n.ids.settings);
      CreateKeeps(n, key);
      EnqueueKeeps(created, s.ids.read, false, now);
      SettingsGrow(s, n.ids.settings);
      CreateGrows(n, key);
      EnqueueGrows(created, s.ids.read, false, now);
      QueueGrowsTwice(s, n, created);
      QueueGrowsTwice(s, created, Enqueue(created, s.ids.read, false, now));
      GrownThenPumped(s, Enqueue(created, s.ids.read, false, now), now, x, y);
    }
  }

  lemma SettingsGrow(s: State, settings: nat)
    ensures QueueGrows(s, s.(ids := s.ids.(settings := settings)))
  {}

  lemma CreateGrows(s: State, key: Key)
    requires Inv(s)
    ensures QueueGrows(s, Create(s, key)) && s.ids.read !in Create(s, key).queues.waiting
  {
    hide KeysOk, CountsOk, HoldersOk, FreshOk, OutcomesOk, LogOk;
  }

  lemma FinishIsFair(s: State, c: CallId, now: int, x: ReadId, y: ReadId)
    requires Inv(s) && Ahead(s, x, y)
    ensures var r := Finish(s, c, now); x in r.queues.waiting ==> Before(r.queues.waiting, x, y)
  {
    hide Inv, InvWhile, EndCall, Resume, Pump, Ahead, Before, QueueGrows;
    AheadIsBefore(s, x, y);
    if c in s.flight.calls && s.flight.calls[c].superseded.Some? {
      var ended, id, superseded := EndCall(s, c), s.flight.calls[c].read, s.flight.calls[c].superseded.value;
      EndCallKeeps(s, c);
      EndCallFrame(s, c);
      ResumeKeeps(ended, id, superseded, now);
      EndCallGrows(s, c);
      ResumeGrows(ended, id, superseded, now);
      QueueGrowsTwice(s, ended, Resume(ended, id, superseded, now));
      GrownThenPumped(s, Resume(ended, id, superseded, now), now, x, y);
    }
  }

  lemma EndCallGrows(s: State, c: CallId)
    requires Inv(s) && c in s.flight.calls
    ensures QueueGrows(s, EndCall(s, c))
    ensures s.flight.calls[c].read in s.table.unfinished ==> s.flight.calls[c].read !in EndCall(s, c).queues.waiting
    ensures s.flight.calls[c].read in EndCall(s, c).table.unfinished ==> s.flight.calls[c].read in s.table.unfinished
  {
    hide KeysOk, CountsOk, IdsOk, HoldersOk, FreshOk, OutcomesOk, LogOk;
  }

  lemma ResumeGrows(s: State, id: ReadId, superseded: bool, now: int)
    requires id in s.table.unfinished ==> id !in s.queues.waiting
    ensures QueueGrows(s, Resume(s, id, superseded, now))
  {
    hide Enqueue, Cancel, Clean, QueueGrows;
    QueueStays(s);
    if id in s.table.unfinished {
      CleanOutside(s, id);
      EnqueueGrows(s, id, true, now);
    }
  }

  lemma WakeIsFair(s: State, id: ReadId, now: int, x: ReadId, y: ReadId)
    requires Inv(s) && Ahead(s, x, y)
    ensures var r := Wake(s, id, now); x in r.queues.waiting ==> Before(r.queues.waiting, x, y)
  {
    hide Inv, InvWhile, TakeDelayed, Enqueue, Pump, Ahead, Before, QueueGrows;
    AheadIsBefore(s, x, y);
    if id in s.queues.delayed {
      var taken := TakeDelayed(s, id);
      TakeDelayedKeeps(s, id);
      TakeDelayedFrame(s, id);
      EnqueueKeeps(taken, id, true, now);
      TakenIsOutside(s, id);
      EnqueueGrows(taken, id, true, now);
      QueueGrowsTwice(s, taken, Enqueue(taken, id, true, now));
      GrownThenPumped(s, Enqueue(taken, id, true, now), now, x, y);
    }
  }

  lemma LostIsFair(s: State, conn: Connection, x: ReadId)
    requires Inv(s)
    ensures x !in CancelEverything(s.(conn := conn)).queues.waiting
  {
    hide Inv, CancelEverything;
    ConnectionFree(s, conn);
    CancelEverythingKeeps(s.(conn := conn));
    InvPlaces(CancelEverything(s.(conn := conn)));
  }

  lemma LeavesQueue(s: State, a: Action)
    requires a.Answered? || a.Invalidated? || a.UrgencyChanged? || a.Started? || a.Connecting? || a.Subscribing? || a.BecameReady?
    ensures Step(s, a).queues == s.queues
  {
    hide Version;
  }

  lemma StepIsFair(s: State, a: Action, x: ReadId, y: ReadId)
    requires Inv(s) && Ahead(s, x, y)
    ensures x in Step(s, a).queues.waiting ==> Before(Step(s, a).queues.waiting, x, y)
  {
    hide Inv, Ahead, Before, ReadStep, Pump, Answer, Finish, Wake, CancelEverything, Invalidate;
    AheadIsBefore(s, x, y);
    match a
    case ReadCalled(rpc, args, now) => ReadStepIsFair(s, rpc, args, now, x, y);
    case Pumped(now) => PumpIsFair(s, now, x, y);
    case Finished(c, now) => FinishIsFair(s, c, now, x, y);
    case TimerFired(id, now) => WakeIsFair(s, id, now, x, y);
    case Failed => LostIsFair(s, s.conn.(ready := false, generation := s.conn.generation + 1), x);
    case Stopped =>
      if s.conn.active {
        LostIsFair(s, Connection(false, false, s.conn.generation + 1), x);
      }
    case _ => LeavesQueue(s, a);
  }

  /** The queue is fair, over every run: a read never leaves it before another that was queued earlier and is not less
      urgent, and nothing gets in between. */
  lemma QueueIsFair(actions: seq<Action>, a: Action, x: ReadId, y: ReadId)
    requires Ahead(Run(INITIAL, actions), x, y)
    ensures var r := Step(Run(INITIAL, actions), a); x in r.queues.waiting ==> Before(r.queues.waiting, x, y)
  {
    RunKeeps(actions);
    hide *;
    StepIsFair(Run(INITIAL, actions), a, x, y);
  }

  // ---------------------------------------------------------------------------------------------
  // The coordinator
  // ---------------------------------------------------------------------------------------------

  /** The part of the coordinator that reads go through. Its methods are its synchronous sections, and each
      does to the coordinator what the step of the same section does to its value. */
  class ReadCoordinator {
    var conn: Connection
    var versions: Versions
    var urgent: Urgency
    var queues: Queues
    var table: Table
    var flight: Flight
    var ids: Ids
    var log: Log

    ghost function Snapshot(): State
      reads this
    { State(conn, versions, urgent, queues, table, flight, ids, log) }

    ghost predicate Valid()
      reads this
    { Inv(Snapshot()) }

    constructor ()
      ensures Valid() && Snapshot() == INITIAL
    {
      conn, urgent := Connection(false, false, 0), Urgency({}, {});
      versions, table := Versions(map[], map[], map[]), Table(map[], map[]);
      queues, flight := Queues([], []), Flight(map[], 0, 0);
      ids, log := Ids(0, 0, 0, 0), Log(map[], [], [], 0);
      new;
      RunKeeps([]);
    }

    predicate IsUrgentRead(key: Key)
      reads `urgent
    {
      || (key.rpc.OperationGet? && key.OperationId() in urgent.operations)
      || key.rpc in urgent.collections
    }

    /** The version a request for this read is answered under. */
    method ReadVersion(read: Read) returns (version: seq<nat>)
      ensures version == Version(versions.categories, versions.objects, read)
    {
      if read.holder.Some? {
        return if read.holder.value in versions.objects then [versions.objects[read.holder.value].version] else [];
      }
      if read.key.rpc.OperationGet? {
        return [];
      }
      var scopes := Scopes(read.key.rpc);
      version := [];
      for i := 0 to |scopes|
        invariant version == Version(versions.categories, versions.objects, read)[..i]
      {
        version := version + [if scopes[i] in versions.categories then versions.categories[scopes[i]] else 0];
      }
    }

    /** Gives up the version record a finished read holds. */
    method ReleaseVersion(id: ReadId, read: Read)
      modifies `versions
      ensures versions == old(versions).(objects := ReleasedObjects(read, id, old(versions).objects),
                                         records := ReleasedRecords(read, old(versions).records, old(versions).objects))
    {
      if read.holder.Some? && read.holder.value in versions.objects {
        var record, operation := read.holder.value, read.key.OperationId();
        var entry := versions.objects[record];
        versions := versions.(objects := versions.objects[record := entry.(readers := entry.readers - 1, held := entry.held - {id})]);
        if entry.readers - 1 == 0 && operation in versions.records && versions.records[operation] == record {
          versions := versions.(records := versions.records - {operation});
        }
      }
    }

    method CleanRead(id: ReadId)
      modifies `versions, `queues, `table
      ensures Snapshot() == Clean(old(Snapshot()), id)
    {
      hide ReleasedObjects, ReleasedRecords, Remove;
      if id !in table.unfinished {
        return;
      }
      var read := table.unfinished[id];
      queues := Queues(Remove(queues.waiting, id), Remove(queues.delayed, id));
      if read.key in table.reading && table.reading[read.key] == id {
        table := table.(reading := table.reading - {read.key});
      }
      ReleaseVersion(id, read);
      table := table.(unfinished := table.unfinished - {id});
    }

    method CancelRead(id: ReadId)
      modifies `versions, `queues, `table, `log
      ensures Snapshot() == Cancel(old(Snapshot()), id)
    {
      hide Clean;
      if id in table.unfinished {
        log := log.(outcomes := Settle(log.outcomes, id, Rejected));
        CleanRead(id);
      }
    }

    method EnqueueRead(id: ReadId, retry: bool, now: int)
      modifies `versions, `queues, `table, `log
      ensures Snapshot() == Enqueue(old(Snapshot()), id, retry, now)
    {
      hide Clean, Cancel, Launch, Version;
      if id !in table.unfinished {
        return;
      }
      var read := table.unfinished[id];
      if !conn.active || !conn.ready || read.key.generation != conn.generation {
        CancelRead(id);
        return;
      }
      var delay := 0;
      if retry && !IsUrgentRead(read.key) && read.lastStart.Some? {
        delay := read.lastStart.value + INTERVAL_MS - now;
      }
      table := table.(unfinished := table.unfinished[id := read.(place := if delay > 0 then Delayed else Queued)]);
      if delay > 0 {
        queues := queues.(delayed := queues.delayed + [id]);
      } else {
        queues := queues.(waiting := queues.waiting + [id]);
      }
    }

    method StartRead(id: ReadId, now: int)
      modifies `versions, `queues, `table, `log, `flight, `ids
      ensures Snapshot() == Start(old(Snapshot()), id, now)
    {
      hide Clean, Cancel, Launch, Version;
      if id !in table.unfinished {
        return;
      }
      if !conn.active || !conn.ready || table.unfinished[id].key.generation != conn.generation {
        CancelRead(id);
        return;
      }
      LaunchRead(id, now);
    }

    method LaunchRead(id: ReadId, now: int)
      requires id in table.unfinished
      modifies `table, `log, `flight, `ids
      ensures Snapshot() == Launch(old(Snapshot()), id, Call(id, IsUrgent(old(Snapshot()), old(table).unfinished[id].key),
        Version(versions.categories, versions.objects, old(table).unfinished[id]), old(log).tick + 1, None), now)
    {
      hide Version;
      var read := table.unfinished[id];
      var urgentNow := IsUrgentRead(read.key);
      var version := ReadVersion(read);
      flight := Flight(flight.calls[ids.call := Call(id, urgentNow, version, log.tick + 1, None)], flight.running + 1,
                       if urgentNow then flight.normal else flight.normal + 1);
      table := table.(unfinished := table.unfinished[id := read.(place := InFlight(ids.call), lastStart := Some(now))]);
      log := log.(tick := log.tick + 1);
      ids := ids.(call := ids.call + 1);
    }

    /** Every delayed read that has become urgent goes back to the queue. */
    method PromoteReads(now: int)
      modifies `versions, `queues, `table, `log
      ensures Snapshot() == PromoteAll(old(Snapshot()), old(queues).delayed, now)
    {
      hide Enqueue, Cancel, Clean, Remove;
      var promotable := queues.delayed;
      ghost var s := Snapshot();
      for i := 0 to |promotable|
        invariant conn == old(conn) && urgent == old(urgent) && flight == old(flight) && ids == old(ids)
        invariant PromoteAll(Snapshot(), promotable[i..], now) == PromoteAll(s, promotable, now)
      {
        assert promotable[i..][1..] == promotable[i + 1..] && promotable[i..][0] == promotable[i];
        var id := promotable[i];
        if id in queues.delayed && id in table.unfinished && IsUrgentRead(table.unfinished[id].key) {
          TakeDelayedRead(id);
          EnqueueRead(id, true, now);
        }
      }
      assert promotable[|promotable|..] == [];
    }

    method TakeDelayedRead(id: ReadId)
      modifies `queues, `table
      ensures Snapshot() == TakeDelayed(old(Snapshot()), id)
    {
      queues := queues.(delayed := Remove(queues.delayed, id));
      if id in table.unfinished {
        table := table.(unfinished := table.unfinished[id := table.unfinished[id].(place := Moving)]);
      }
    }

    method TakeQueuedRead(index: nat)
      requires index < |queues.waiting|
      modifies `queues, `table
      ensures Snapshot() == TakeQueued(old(Snapshot()), index)
    {
      var id := queues.waiting[index];
      queues := queues.(waiting := queues.waiting[..index] + queues.waiting[index + 1..]);
      if id in table.unfinished {
        table := table.(unfinished := table.unfinished[id := table.unfinished[id].(place := Moving)]);
      }
    }

    /** Promotes delayed reads that have become urgent, then fills the free slots, urgent reads first. */
    method PumpReads(now: int)
      modifies `versions, `queues, `table, `log, `flight, `ids
      ensures Snapshot() == Pump(old(Snapshot()), now)
    {
      hide PromoteAll, TakeQueued, Start, NextToStart;
      if !conn.active || !conn.ready {
        return;
      }
      PromoteReads(now);
      ghost var promoted := Snapshot();
      var next := NextRead();
      while next.Some?
        invariant conn == old(conn) && urgent == old(urgent)
        invariant StartAll(Snapshot(), now) == StartAll(promoted, now) && next == NextToStart(Snapshot())
        decreases |queues.waiting|
      {
        var id := queues.waiting[next.value];
        TakeQueuedRead(next.value);
        StartRead(id, now);
        next := NextRead();
      }
    }

    /** The position of the read to start next: the first urgent one, else the first if a normal slot is free. */
    method NextRead() returns (next: Option<nat>)
      ensures next == NextToStart(Snapshot())
    {
      if flight.running >= CONCURRENCY {
        return None;
      }
      var index := 0;
      while index < |queues.waiting| && !(queues.waiting[index] in table.unfinished && IsUrgentRead(table.unfinished[queues.waiting[index]].key))
        invariant index <= |queues.waiting| && FirstUrgent(Snapshot(), 0) == FirstUrgent(Snapshot(), index)
      {
        index := index + 1;
      }
      if index < |queues.waiting| {
        return Some(index);
      }
      next := if flight.normal >= NORMAL_CONCURRENCY || queues.waiting == [] then None else Some(0);
    }

    // -- the sections: what callers, answers, timers and the connection set off ----------------------

    /** A caller asks for a read, once the connection is ready: it joins the one under way, or makes one. */
    method RequestRead(rpc: Rpc, args: seq<string>, now: int) returns (admission: Admission)
      requires Valid()
      modifies this
      ensures Valid() && Snapshot() == Step(old(Snapshot()), ReadCalled(rpc, args, now))
      ensures admission == Admit(old(Snapshot()), rpc, args)
    {
      hide Inv, Enqueue, Pump, Create;
      StepKeeps(Snapshot(), ReadCalled(rpc, args, now));
      if !conn.active || !conn.ready {
        return Unavailable;
      }
      if rpc.SettingsGet? {
        ids := ids.(settings := ids.settings + 1);
      }
      var key := Key(conn.generation, rpc, args, if rpc.SettingsGet? then ids.settings else 0);
      if key in table.reading {
        return Joined(table.reading[key]);
      }
      if |table.reading| >= DIRTY_KEYS || |queues.waiting| >= DIRTY_KEYS {
        return Busy;
      }
      var id := ids.read;
      CreateRead(key);
      EnqueueRead(id, false, now);
      PumpReads(now);
      admission := Created(id);
    }

    method CreateRead(key: Key)
      modifies `versions, `table, `ids
      ensures Snapshot() == Create(old(Snapshot()), key)
    {
      var id, holder := ids.read, None;
      if key.HasRecord() {
        var operation := key.OperationId();
        var record := if operation in versions.records then versions.records[operation] else ids.record;
        if operation !in versions.records {
          ids := ids.(record := ids.record + 1);
        }
        var before := if record in versions.objects then versions.objects[record] else OperationRead(0, 0, {});
        versions := versions.(records := versions.records[operation := record],
          objects := versions.objects[record := before.(readers := before.readers + 1, held := before.held + {id})]);
        holder := Some(record);
      }
      ids := ids.(read := id + 1);
      table := Table(table.reading[key := id], table.unfinished[id := Read(key, None, Moving, holder)]);
    }

    /** A change was announced. */
    method Invalidate(scope: Scope)
      requires Valid()
      modifies this
      ensures Valid() && Snapshot() == Step(old(Snapshot()), Invalidated(scope))
    {
      hide Inv;
      StepKeeps(Snapshot(), Invalidated(scope));
      if scope.OperationOf? && scope.id in versions.records && versions.records[scope.id] in versions.objects {
        var record := versions.records[scope.id];
        versions := versions.(objects := versions.objects[record := versions.objects[record].(version := versions.objects[record].version + 1)]);
      }
      var category := if scope.OperationOf? then OperationProgress else scope;
      versions := versions.(categories := versions.categories[category := CategoryVersion(versions.categories, category) + 1]);
      log := log.(tick := log.tick + 1, invalidations := log.invalidations + [Invalidation(log.tick + 1, scope)]);
    }

    /** The answer of a request arrives. */
    method AnswerArrived(c: CallId, reply: Reply)
      requires Valid()
      modifies this
      ensures Valid() && Snapshot() == Step(old(Snapshot()), Answered(c, reply))
    {
      hide Inv, Version;
      StepKeeps(Snapshot(), Answered(c, reply));
      if c !in flight.calls || flight.calls[c].superseded.Some? {
        return;
      }
      var call := flight.calls[c];
      var id, superseded := call.read, false;
      if reply.Value? && id in table.unfinished && conn.active && table.unfinished[id].key.generation == conn.generation {
        var read := table.unfinished[id];
        var version := ReadVersion(read);
        if call.version != version {
          superseded := true;
        } else if read.key.rpc.OperationGet? && reply.operationId != read.key.OperationId() {
          log := log.(outcomes := Settle(log.outcomes, id, Rejected));
        } else if id !in log.outcomes {
          log := log.(outcomes := log.outcomes[id := Resolved(reply.payload)],
            resolutions := log.resolutions + [Resolution(id, read.key, call.startTick, log.tick, conn.generation)]);
        }
      } else if id in table.unfinished {
        log := log.(outcomes := Settle(log.outcomes, id, Rejected));
      }
      flight := flight.(calls := flight.calls[c := call.(superseded := Some(superseded))]);
    }

    /** An answered request is over: its slot is free again, and a read it failed to satisfy is made again. */
    method CallEnded(c: CallId, now: int)
      requires Valid()
      modifies this
      ensures Valid() && Snapshot() == Step(old(Snapshot()), Finished(c, now))
      ensures EndsOvertaken(old(Snapshot()), c) ==>
        MadeAgain(old(Snapshot()), Snapshot(), old(Snapshot()).flight.calls[c].read, now)
    {
      hide Inv, Enqueue, Cancel, Clean, Pump, EndsOvertaken, MadeAgain;
      StepKeeps(Snapshot(), Finished(c, now));
      if EndsOvertaken(Snapshot(), c) {
        FinishedIsMadeAgain(Snapshot(), c, now);
      }
      if c !in flight.calls || flight.calls[c].superseded.None? {
        return;
      }
      var call := flight.calls[c];
      ReleaseSlot(c);
      if call.read in table.unfinished {
        if call.superseded.value && conn.active && conn.ready && table.unfinished[call.read].key.generation == conn.generation {
          EnqueueRead(call.read, true, now);
        } else if call.superseded.value {
          CancelRead(call.read);
        } else {
          CleanRead(call.read);
        }
      }
      PumpReads(now);
    }

    method ReleaseSlot(c: CallId)
      requires c in flight.calls
      modifies `flight, `table
      ensures Snapshot() == EndCall(old(Snapshot()), c)
    {
      var call := flight.calls[c];
      flight := Flight(flight.calls - {c}, flight.running - 1, if call.urgent then flight.normal else flight.normal - 1);
      if call.read in table.unfinished {
        table := table.(unfinished := table.unfinished[call.read := table.unfinished[call.read].(place := Moving)]);
      }
    }

    /** The timer of a read set aside fires. */
    method DelayOver(id: ReadId, now: int)
      requires Valid()
      modifies this
      ensures Valid() && Snapshot() == Step(old(Snapshot()), TimerFired(id, now))
    {
      hide Inv, Enqueue, Pump, TakeDelayed;
      StepKeeps(Snapshot(), TimerFired(id, now));
      if id !in queues.delayed {
        return;
      }
      TakeDelayedRead(id);
      EnqueueRead(id, true, now);
      PumpReads(now);
    }

    method SetUrgency(now: Urgency)
      requires Valid()
      modifies `urgent
      ensures Valid() && Snapshot() == Step(old(Snapshot()), UrgencyChanged(now))
    {
      hide Inv;
      StepKeeps(Snapshot(), UrgencyChanged(now));
      urgent := now;
    }

    method Pumping(now: int)
      requires Valid()
      modifies this
      ensures Valid() && Snapshot() == Step(old(Snapshot()), Pumped(now))
    {
      hide Inv, Pump;
      StepKeeps(Snapshot(), Pumped(now));
      PumpReads(now);
    }

    /** The connection starts, begins to connect, asks for its events, or is told they follow. */
    method ConnectionChanged(a: Action)
      requires Valid() && (a.Started? || a.Connecting? || a.Subscribing? || a.BecameReady?)
      modifies `conn
      ensures Valid() && Snapshot() == Step(old(Snapshot()), a)
    {
      hide Inv;
      StepKeeps(Snapshot(), a);
      match a
      case Started => conn := conn.(active := true);
      case Connecting =>
        if conn.active {
          conn := conn.(generation := conn.generation + 1);
        }
      case Subscribing(generation) =>
        if conn.active && generation == conn.generation {
          conn := conn.(ready := false);
        }
      case BecameReady =>
        if conn.active {
          conn := conn.(ready := true);
        }
    }

    /** The connection failed, or is stopped for good: every unfinished read is given up. */
    method Disconnect(stopping: bool)
      requires Valid()
      modifies this
      ensures Valid() && table.unfinished == map[]
      ensures Snapshot() == CancelEverything(old(Snapshot()).(conn :=
        Connection(old(conn).active && !stopping, false, old(conn).generation + 1)))
    {
      hide Inv, InvWhile, Cancel, Clean;
      conn := Connection(conn.active && !stopping, false, conn.generation + 1);
      ghost var s := Snapshot();
      ConnectionFree(old(Snapshot()), conn);
      CancelEverythingKeeps(s);
      var waiting := queues.waiting;
      for i := 0 to |waiting|
        invariant conn == s.conn && urgent == s.urgent && flight == s.flight && ids == s.ids
        invariant CancelAll(Snapshot(), waiting[i..]) == CancelAll(s, waiting)
      {
        assert waiting[i..][1..] == waiting[i + 1..] && waiting[i..][0] == waiting[i];
        CancelRead(waiting[i]);
      }
      assert waiting[|waiting|..] == [];
      for id := 0 to ids.read
        invariant conn == s.conn && urgent == s.urgent && flight == s.flight && ids == s.ids
        invariant Snapshot() == CancelBefore(CancelAll(s, waiting), id)
      {
        CancelRead(id);
      }
    }
  }

  lemma ConnectionFree(s: State, conn: Connection)
    requires Inv(s)
    ensures Inv(s.(conn := conn))
  {}
}
