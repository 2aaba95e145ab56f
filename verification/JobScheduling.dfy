/** The refresh scheduler of the GUI's event coordinator. Views register jobs that read what they show; an
    invalidation marks the jobs it concerns; marks are merged for a while, and the jobs are then run, at most
    four at a time. The display is called ready only when no mark is left unserved. */
module JobScheduling {
  import opened EventScopes
  import opened Wrappers

  const MERGE_MS := 100
  const MAX_WAIT_MS := 500
  const CACHED_ROWS := 5000
  const OPERATION_JOBS := CACHED_ROWS - 64

  type JobId = nat
  type RunId = nat

  datatype JobKey = OperationJob(id: string) | ImpactJob(id: string) | PageJob(name: string)

  /** A successful run: the version of the job it started at, and when. */
  datatype Service = Service(version: nat, startTick: nat)

  /** When the job was registered and last marked, its last successful run, whether it is only dirty because its
      last run failed, and what was remembered of earlier changes when it registered. */
  datatype Past = Past(registered: nat, markedAt: nat, served: Option<Service>, stale: bool, remembered: set<Scope>)

  datatype Flags = Flags(dirty: bool, blocked: bool, urgent: bool, retired: bool)

  /** `run` is the run under way; `last` is when the job was last started. */
  datatype Job = Job(key: JobKey, scopes: set<Scope>, flags: Flags, version: nat, first: int, last: Option<int>,
                     run: Option<RunId>, past: Past)

  /** A run under way; `settled` says whether its promise is fulfilled or rejected already. */
  datatype Run = Run(job: JobId, version: nat, urgent: bool, startTick: nat, settled: Option<bool>)

  datatype Table = Table(jobs: map<JobKey, JobId>, objects: map<JobId, Job>, operationJobs: int)

  datatype Slots = Slots(runs: map<RunId, Run>, running: int, normal: int)

  datatype Kind = Connecting | Ready | Resyncing | Disconnected | Broken

  datatype Link = Link(active: bool, ready: bool, visible: bool, kind: Kind, overflowing: bool, overflowVersion: nat)

  /** One start: what the job looked like when it was started. */
  datatype Launched = Launched(now: int, urgent: bool, first: int, last: Option<int>, stale: bool)

  /** `steady` while the clock never went backwards; `connectedAt` is when the connection last became ready. */
  datatype Log = Log(tick: nat, invalidations: seq<Invalidation>, launches: seq<Launched>, clock: int, steady: bool,
                     connectedAt: nat)

  datatype Ids = Ids(job: nat, run: nat)

  datatype State = State(link: Link, table: Table, slots: Slots, dirty: set<Scope>, pendingObservers: bool,
                         wake: Option<int>, ids: Ids, log: Log)

  // ---------------------------------------------------------------------------------------------
  // One job
  // ---------------------------------------------------------------------------------------------

  function Mark(job: Job, urgent: bool, now: int, tick: nat): Job {
    job.(flags := job.flags.(dirty := true, blocked := false, urgent := job.flags.urgent || urgent),
         first := if job.flags.dirty then job.first else now, version := job.version + 1,
         past := job.past.(markedAt := tick))
  }

  function StartJob(job: Job, now: int, run: RunId): Job {
    job.(flags := job.flags.(dirty := false, urgent := false), last := Some(now), run := Some(run),
         past := job.past.(stale := false))
  }

  /** The promise of a run is fulfilled or rejected. Only a run that no mark has overtaken changes the job. */
  function SettleJob(job: Job, run: Run, ok: bool): Job {
    var past := if ok then job.past.(served := Some(Service(run.version, run.startTick))) else job.past;
    if job.version != run.version then job.(past := past)
    else if ok then job.(flags := job.flags.(dirty := false), past := past)
    else job.(flags := job.flags.(dirty := true, blocked := true), past := past.(stale := true))
  }

  predicate Eligible(job: Job) {
    job.flags.dirty && !job.flags.blocked && job.run.None? && !job.flags.retired
  }

  /** When the marks of a job are merged long enough: at least the merge time after the first unserved one
      and the interval after its last start, but no later than the longest wait. Urgent jobs are due at once. */
  function Due(job: Job, now: int): int {
    if job.flags.urgent then now
    else
      var merged := job.first + MERGE_MS;
      var spaced := if job.last.Some? && job.last.value + INTERVAL_MS > merged then job.last.value + INTERVAL_MS else merged;
      if job.first + MAX_WAIT_MS < spaced then job.first + MAX_WAIT_MS else spaced
  }

  /** Jobs that are urgent or have waited too long go first, then whoever was marked first. */
  predicate GoesFirst(job: Job, now: int) { job.flags.urgent || now - job.first >= MAX_WAIT_MS }

  predicate NotAfter(a: Job, b: Job, now: int) {
    if GoesFirst(a, now) != GoesFirst(b, now) then GoesFirst(a, now) else a.first <= b.first
  }

  predicate SlotsFull(running: int, normal: int, urgent: bool) {
    running >= CONCURRENCY || (!urgent && normal >= NORMAL_CONCURRENCY)
  }

  // ---------------------------------------------------------------------------------------------
  // Steps
  // ---------------------------------------------------------------------------------------------

  predicate Concerns(job: Job, scope: Scope, promoted: Option<Scope>) {
    || scope in job.scopes
    || (promoted.Some? && (promoted.value in job.scopes || (promoted == Some(Operations) && job.key.OperationJob?)))
  }

  function Promoted(dirty: set<Scope>, scope: Scope): Option<Scope> {
    if |dirty| < DIRTY_KEYS || scope in dirty then None
    else if scope.OperationOf? then Some(Operations) else Some(scope)
  }

  /** What is remembered of an invalidation for jobs that register later. Past the limit, one operation stands
      for all of them. */
  function Remembered(dirty: set<Scope>, scope: Scope): set<Scope> {
    match Promoted(dirty, scope)
    case None => dirty + {scope}
    case Some(Operations) => (set s | s in dirty && !s.OperationOf?) + {Operations}
    case Some(category) => dirty + {category}
  }

  function MarkIf(concerned: bool, job: Job, urgent: bool, now: int, tick: nat): Job {
    if !job.flags.retired && concerned then Mark(job, urgent, now, tick) else job
  }

  function MarkConcerned(table: Table, scope: Scope, promoted: Option<Scope>, urgent: bool, now: int, tick: nat): map<JobId, Job> {
    map id | id in table.objects ::
      MarkIf(Concerns(table.objects[id], scope, promoted), table.objects[id], urgent, now, tick)
  }

  function MarkAll(table: Table, now: int, tick: nat): map<JobId, Job> {
    map id | id in table.objects ::
      if table.objects[id].flags.retired then table.objects[id] else Mark(table.objects[id], true, now, tick)
  }

  function PutJob(s: State, id: JobId, job: Job): State {
    s.(table := s.table.(objects := s.table.objects[id := job]))
  }

  function Tick(s: State, now: int): State {
    s.(log := s.log.(tick := s.log.tick + 1, clock := now, steady := s.log.steady && s.log.clock <= now))
  }

  /** Starts a job. */
  function Launch(s: State, id: JobId, now: int): State
    requires id in s.table.objects
  {
    var job, run := s.table.objects[id], s.ids.run;
    PutJob(s, id, StartJob(job, now, run)).(
      slots := Slots(s.slots.runs[run := Run(id, job.version, job.flags.urgent, s.log.tick + 1, None)],
                     s.slots.running + 1, s.slots.normal + if job.flags.urgent then 0 else 1),
      ids := s.ids.(run := run + 1),
      log := s.log.(tick := s.log.tick + 1, launches := s.log.launches +
        [Launched(now, job.flags.urgent, job.first, job.last, job.past.stale)]))
  }

  /** Goes through the candidates: starts what is due and has a slot, and finds when the next one is due. */
  function Pass(s: State, order: seq<JobId>, now: int, next: Option<int>): (State, Option<int>)
    decreases |order|
  {
    if order == [] || order[0] !in s.table.objects then (s, next)
    else
      var job := s.table.objects[order[0]];
      var due := Due(job, now);
      if due > now then Pass(s, order[1..], now, if next.None? || due < next.value then Some(due) else next)
      else if SlotsFull(s.slots.running, s.slots.normal, job.flags.urgent) then Pass(s, order[1..], now, next)
      else Pass(Launch(s, order[0], now), order[1..], now, next)
  }

  predicate Working(link: Link) { link.active && link.ready && link.visible }

  function Schedule(s: State, order: seq<JobId>, now: int): State {
    if !Working(s.link) then s.(wake := None)
    else
      var (t, next) := Pass(s.(wake := None), order, now, None);
      t.(wake := if next.None? then None else Some(now + if next.value - now > 1 then next.value - now else 1))
  }

  /** The jobs a pass looks at, in the order it does: all that are eligible, once each, none after one that
      must not come before it. Ties are in any order. */
  ghost predicate Candidates(s: State, order: seq<JobId>, now: int) {
    && (forall i, j | 0 <= i < j < |order| :: order[i] != order[j])
    && (forall id | id in order :: id in s.table.objects && Eligible(s.table.objects[id]))
    && (forall id | id in s.table.objects && Eligible(s.table.objects[id]) :: id in order)
    && forall i, j | 0 <= i < j < |order| && order[i] in s.table.objects && order[j] in s.table.objects ::
      NotAfter(s.table.objects[order[i]], s.table.objects[order[j]], now)
  }

  predicate Idle(job: Job) { !job.flags.dirty && job.run.None? }

  predicate AllIdle(table: Table) {
    forall k | k in table.jobs :: table.jobs[k] in table.objects ==> Idle(table.objects[table.jobs[k]])
  }

  predicate Covering(table: Table, scope: Scope, k: JobKey) {
    k in table.jobs && table.jobs[k] in table.objects && scope in table.objects[table.jobs[k]].scopes
  }

  /** Everyone who shows this scope is up to date, and there is someone. */
  predicate CaughtUp(table: Table, scope: Scope) {
    && (exists k | k in table.jobs :: Covering(table, scope, k))
    && forall k | k in table.jobs && Covering(table, scope, k) :: Idle(table.objects[table.jobs[k]])
  }

  function FinishResync(s: State): State {
    s.(dirty := (set scope | scope in s.dirty && !CaughtUp(s.table, scope)),
       link := if s.link.ready && !s.link.overflowing && (s.link.kind.Resyncing? || s.link.kind.Connecting?) && AllIdle(s.table)
               then s.link.(kind := Ready) else s.link)
  }

  function Announce(s: State, scope: Scope, urgent: bool, now: int): State {
    var t := Tick(s, now);
    t.(dirty := Remembered(s.dirty, scope),
       table := t.table.(objects := MarkConcerned(t.table, scope, Promoted(s.dirty, scope), urgent, now, t.log.tick)),
       link := if scope.OperationsResync? then s.link.(overflowVersion := s.link.overflowVersion + 1) else s.link,
       log := t.log.(invalidations := t.log.invalidations + [Invalidation(t.log.tick, scope)]))
  }

  function MarkEvery(s: State, now: int): State {
    var t := Tick(s, now);
    t.(table := t.table.(objects := MarkAll(t.table, now, t.log.tick)))
  }

  /** No room for another job, or another job of an operation. */
  predicate NoRoom(table: Table, key: JobKey) {
    && key !in table.jobs
    && (|table.jobs| >= CACHED_ROWS || (key.OperationJob? && table.operationJobs >= OPERATION_JOBS))
  }

  function Retire(objects: map<JobId, Job>, id: JobId): (r: map<JobId, Job>)
    ensures forall other :: other in r <==> other in objects
  {
    if id in objects then objects[id := objects[id].(flags := objects[id].flags.(retired := true))] else objects
  }

  function Unmarked(key: JobKey, scopes: set<Scope>, tick: nat, remembered: set<Scope>): Job {
    Job(key, scopes, Flags(false, false, false, false), 0, 0, None, None, Past(tick, tick, None, false, remembered))
  }

  /** A job is marked as it registers if it asks for that, or if a change of its scopes is still remembered. */
  function Newcomer(s: State, key: JobKey, scopes: set<Scope>, initial: bool, now: int, tick: nat): Job {
    var job := Unmarked(key, scopes, tick, s.dirty);
    if initial || scopes * s.dirty != {} then Mark(job, true, now, tick) else job
  }

  /** A new job, in place of the one registered under its key if there is one. */
  function Enter(s: State, key: JobKey, scopes: set<Scope>, initial: bool, now: int): State {
    var t, id := Tick(s, now), s.ids.job;
    var job := Newcomer(s, key, scopes, initial, now, t.log.tick);
    var objects := if key in t.table.jobs then Retire(t.table.objects, t.table.jobs[key]) else t.table.objects;
    t.(table := Table(t.table.jobs[key := id], objects[id := job],
                      t.table.operationJobs + if key.OperationJob? && key !in t.table.jobs then 1 else 0),
       ids := t.ids.(job := id + 1))
  }

  /** A job is released: it never runs again, and its key is free, unless another job has taken it. */
  function Release(s: State, id: JobId): State {
    if id !in s.table.objects then s
    else
      var job := s.table.objects[id];
      var t := PutJob(s, id, job.(flags := job.flags.(retired := true)));
      if job.key in s.table.jobs && s.table.jobs[job.key] == id
      then t.(table := t.table.(jobs := t.table.jobs - {job.key},
                                operationJobs := t.table.operationJobs - if job.key.OperationJob? then 1 else 0))
      else t
  }

  function Settle(s: State, r: RunId, ok: bool): State {
    if r !in s.slots.runs || s.slots.runs[r].settled.Some? || s.slots.runs[r].job !in s.table.objects then s
    else
      var run := s.slots.runs[r];
      PutJob(s, run.job, SettleJob(s.table.objects[run.job], run, ok)).(
        slots := s.slots.(runs := s.slots.runs[r := run.(settled := Some(ok))]))
  }

  function EndRun(s: State, r: RunId): State {
    if r !in s.slots.runs || s.slots.runs[r].settled.None? || s.slots.runs[r].job !in s.table.objects then s
    else
      var run := s.slots.runs[r];
      PutJob(s, run.job, s.table.objects[run.job].(run := None)).(
        slots := Slots(s.slots.runs - {r}, s.slots.running - 1, s.slots.normal - if run.urgent then 0 else 1))
  }

  /** What happens to the scheduler, one synchronous section at a time. `order` is how the sort of a pass comes
      out. */
  datatype Action =
    | Announced(scope: Scope, urgent: bool, now: int, order: seq<JobId>)
    | Retried(key: JobKey, now: int, order: seq<JobId>)
    | Entered(key: JobKey, scopes: set<Scope>, initial: bool, now: int, order: seq<JobId>)
    | Released(id: JobId)
    | Shown(visible: bool, now: int, order: seq<JobId>)
    | WakeFired(now: int, order: seq<JobId>)
    | RunSettled(run: RunId, ok: bool)
    | RunEnded(run: RunId, now: int, order: seq<JobId>)
    | BecameReady(displayed: bool, now: int, order: seq<JobId>)
    | Subscribing(resuming: bool)
    | Failed(retryable: bool)
    | Started
    | Stopped
    | Overflowed(now: int, order: seq<JobId>)
    | OverflowSynced(version: nat)

  /** The section goes on from `t` with a pass; an order the sort cannot come out in is no step. */
  ghost function Scheduled(s: State, t: State, order: seq<JobId>, now: int): State {
    if Candidates(t, order, now) then Schedule(t, order, now) else s
  }

  function MarkOne(s: State, id: JobId, now: int): State
    requires id in s.table.objects
  {
    var t := Tick(s, now);
    t.(table := t.table.(objects := t.table.objects[id := Mark(t.table.objects[id], true, now, t.log.tick)]))
  }

  function RetryJob(s: State, key: JobKey, now: int): State {
    if key !in s.table.jobs || s.table.jobs[key] !in s.table.objects then s else MarkOne(s, s.table.jobs[key], now)
  }

  function Connect(s: State, displayed: bool, now: int): State {
    MarkEvery(s.(link := s.link.(ready := true, kind := if displayed then Resyncing else Connecting),
                 log := s.log.(connectedAt := s.log.tick)), now)
  }

  ghost function Step(s: State, a: Action): State {
    match a
    case Announced(scope, urgent, now, order) => Scheduled(s, Announce(s, scope, urgent, now), order, now)
    case Retried(key, now, order) => if key in s.table.jobs then Scheduled(s, RetryJob(s, key, now), order, now) else s
    case Entered(key, scopes, initial, now, order) =>
      if !NoRoom(s.table, key) then Scheduled(s, Enter(s, key, scopes, initial, now), order, now)
      else if key.OperationJob? then s.(pendingObservers := true)
      // Its scopes are announced as changed first, each in a step of its own.
      else s.(link := s.link.(kind := Resyncing))
    case Released(id) => Release(s, id)
    case Shown(visible, now, order) =>
      var t := s.(link := s.link.(visible := visible));
      if visible then Scheduled(s, MarkEvery(t, now), order, now) else t
    case WakeFired(now, order) => Scheduled(s, Tick(s, now), order, now)
    case RunSettled(r, ok) => Settle(s, r, ok)
    case RunEnded(r, now, order) =>
      if Candidates(EndRun(Tick(s, now), r), order, now)
      then FinishResync(Schedule(EndRun(Tick(s, now), r), order, now)) else s
    case BecameReady(displayed, now, order) =>
      if s.link.active && Candidates(Connect(s, displayed, now), order, now)
      then FinishResync(Schedule(Connect(s, displayed, now), order, now)) else s
    case Subscribing(resuming) =>
      if s.link.active then s.(link := s.link.(ready := false, kind := if resuming then Disconnected else Connecting)) else s
    case Failed(retryable) => s.(link := s.link.(ready := false, kind := if retryable then Disconnected else Broken))
    case Started => s.(link := s.link.(active := true))
    case Stopped => if s.link.active then s.(link := s.link.(active := false, ready := false), wake := None) else s
    case Overflowed(now, order) =>
      Scheduled(s, Announce(s.(link := s.link.(overflowing := true, kind := Resyncing)), OperationsResync, false, now), order, now)
    case OverflowSynced(version) =>
      if version == s.link.overflowVersion then FinishResync(s.(link := s.link.(overflowing := false))) else s
  }

  /** The order the section goes through the candidates in is one the sort can come out in. */
  ghost predicate Possible(s: State, a: Action) {
    match a
    case Announced(scope, urgent, now, order) => Candidates(Announce(s, scope, urgent, now), order, now)
    case Retried(key, now, order) => key in s.table.jobs ==> Candidates(RetryJob(s, key, now), order, now)
    case Entered(key, scopes, initial, now, order) =>
      NoRoom(s.table, key) || Candidates(Enter(s, key, scopes, initial, now), order, now)
    case Shown(visible, now, order) =>
      visible ==> Candidates(MarkEvery(s.(link := s.link.(visible := visible)), now), order, now)
    case WakeFired(now, order) => Candidates(Tick(s, now), order, now)
    case RunEnded(r, now, order) => Candidates(EndRun(Tick(s, now), r), order, now)
    case BecameReady(displayed, now, order) => s.link.active ==> Candidates(Connect(s, displayed, now), order, now)
    case Overflowed(now, order) =>
      Candidates(Announce(s.(link := s.link.(overflowing := true, kind := Resyncing)), OperationsResync, false, now), order, now)
    case _ => true
  }

  ghost function RunAll(s: State, actions: seq<Action>): State {
    if actions == [] then s else Step(RunAll(s, actions[..|actions| - 1]), actions[|actions| - 1])
  }

  lemma RunOneMore(s: State, actions: seq<Action>, a: Action)
    ensures RunAll(s, actions + [a]) == Step(RunAll(s, actions), a)
  {
    hide Step;
    assert (actions + [a])[..|actions|] == actions;
  }

  /** The scopes are announced as changed, urgently and each once. */
  ghost predicate AnnouncesAll(s: State, told: seq<Action>, scopes: set<Scope>, now: int) {
    && (forall i | 0 <= i < |told| :: told[i].Announced? && told[i].urgent && told[i].now == now && told[i].scope in scopes)
    && (forall i, j | 0 <= i < j < |told| :: told[i].scope != told[j].scope)
    && AllTold(told, scopes)
    && forall i | 0 <= i < |told| :: Possible(RunAll(s, told[..i]), told[i])
  }

  /** Each of the scopes is announced. */
  ghost predicate AllTold(told: seq<Action>, scopes: set<Scope>) {
    forall scope | scope in scopes :: exists i | 0 <= i < |told| :: told[i].Announced? && told[i].scope == scope
  }

  lemma NothingAnnounced(s: State, now: int)
    ensures AnnouncesAll(s, [], {}, now) && RunAll(s, []) == s
  {}

  lemma StillPossible(s: State, told: seq<Action>, a: Action)
    requires (forall i | 0 <= i < |told| :: Possible(RunAll(s, told[..i]), told[i])) && Possible(RunAll(s, told), a)
    ensures forall i | 0 <= i < |told + [a]| :: Possible(RunAll(s, (told + [a])[..i]), (told + [a])[i])
  {
    hide *;
    var more := told + [a];
    forall i | 0 <= i < |more|
      ensures Possible(RunAll(s, more[..i]), more[i])
    {
      assert more[..i] == if i < |told| then told[..i] else told;
    }
  }

  lemma OneMoreTold(told: seq<Action>, done: set<Scope>, scope: Scope, a: Action)
    requires AllTold(told, done) && a.Announced? && a.scope == scope
    ensures AllTold(told + [a], done + {scope})
  {
    var more := told + [a];
    forall other | other in done + {scope}
      ensures exists i | 0 <= i < |more| :: more[i].Announced? && more[i].scope == other
    {
      if other == scope {
        assert more[|told|].scope == scope;
      } else {
        var i :| 0 <= i < |told| && told[i].Announced? && told[i].scope == other;
        assert more[i].scope == other;
      }
    }
  }

  lemma AnnounceOneMore(s: State, told: seq<Action>, done: set<Scope>, scope: Scope, now: int, order: seq<JobId>)
    requires AnnouncesAll(s, told, done, now) && scope !in done
    requires Possible(RunAll(s, told), Announced(scope, true, now, order))
    ensures AnnouncesAll(s, told + [Announced(scope, true, now, order)], done + {scope}, now)
  {
    hide Possible, RunAll, AllTold;
    StillPossible(s, told, Announced(scope, true, now, order));
    OneMoreTold(told, done, scope, Announced(scope, true, now, order));
  }

  const INITIAL := State(Link(false, false, true, Connecting, false, 0), Table(map[], map[], 0), Slots(map[], 0, 0), {}, false,
    None, Ids(0, 0), Log(0, [], [], 0, true, 0))

  // ---------------------------------------------------------------------------------------------
  // The invariant
  // ---------------------------------------------------------------------------------------------

  ghost function OperationKeys(jobs: map<JobKey, JobId>): set<JobKey> { set k | k in jobs && k.OperationJob? }

  /** The registered jobs are the ones that are not retired, one a key, and within the limits. */
  ghost predicate TableOk(jobs: map<JobKey, JobId>, objects: map<JobId, Job>, operationJobs: int, nextJob: nat) {
    && (forall k | k in jobs :: jobs[k] in objects && objects[jobs[k]].key == k && !objects[jobs[k]].flags.retired)
    && (forall id | id in objects && !objects[id].flags.retired :: objects[id].key in jobs && jobs[objects[id].key] == id)
    && (forall id | id in objects :: id < nextJob)
    && |jobs| <= CACHED_ROWS
    && operationJobs == |OperationKeys(jobs)| <= OPERATION_JOBS
  }

  ghost function NormalRuns(runs: map<RunId, Run>): set<RunId> { set r | r in runs && !runs[r].urgent }

  /** No job runs twice at once, and the counters are the true numbers of runs. */
  ghost predicate RunsOk(objects: map<JobId, Job>, runs: map<RunId, Run>, running: int, normal: int, nextRun: nat) {
    && (forall r | r in runs :: r < nextRun && runs[r].job in objects && objects[runs[r].job].run == Some(r))
    && (forall id | id in objects && objects[id].run.Some? ::
          objects[id].run.value in runs && runs[objects[id].run.value].job == id)
    && running == |runs| <= CONCURRENCY
    && normal == |NormalRuns(runs)| <= NORMAL_CONCURRENCY
  }

  /** What a run under way knows about its job. */
  ghost predicate RunOk(job: Job, run: Run, tick: nat) {
    && 0 < run.version <= job.version && run.startTick <= tick
    && (run.version == job.version ==> job.past.markedAt < run.startTick)
    && (run.version == job.version && run.settled.None? ==> !job.flags.dirty)
    && (!job.flags.dirty ==> run.version == job.version
                             && (run.settled.Some? ==> job.past.served == Some(Service(run.version, run.startTick))))
  }

  /** A job that is not dirty and not running was served by a run that started at its current version, after
      its last mark. It has been marked if one of its scopes was remembered when it registered. */
  ghost predicate JobOk(job: Job, runs: map<RunId, Run>, tick: nat) {
    var past := job.past;
    && (job.flags.blocked ==> job.flags.dirty) && (job.flags.dirty ==> job.version > 0)
    && (job.scopes * past.remembered != {} ==> job.version > 0)
    && past.registered <= past.markedAt <= tick && (job.version == 0 ==> past.markedAt == past.registered)
    && (past.served.Some? ==> past.served.value.version <= job.version
                              && (past.served.value.version == job.version ==> past.markedAt < past.served.value.startTick))
    && (job.run.None? && !job.flags.dirty && job.version > 0 ==> past.served.Some? && past.served.value.version == job.version)
    && (job.run.Some? && job.run.value in runs ==> RunOk(job, runs[job.run.value], tick))
  }

  ghost predicate JobsOk(objects: map<JobId, Job>, runs: map<RunId, Run>, tick: nat) {
    forall id | id in objects :: JobOk(objects[id], runs, tick)
  }

  /** A registered job was marked at or after every invalidation of its scopes since it registered. */
  ghost predicate Heard(job: Job, invalidations: seq<Invalidation>) {
    forall i | 0 <= i < |invalidations| ::
      invalidations[i].scope in job.scopes && invalidations[i].tick > job.past.registered ==> invalidations[i].tick <= job.past.markedAt
  }

  ghost predicate HeardOk(objects: map<JobId, Job>, invalidations: seq<Invalidation>, tick: nat) {
    && (forall i | 0 <= i < |invalidations| :: invalidations[i].tick <= tick)
    && forall id | id in objects && !objects[id].flags.retired :: Heard(objects[id], invalidations)
  }

  /** While connected, every registered job was registered or marked since the connection became ready. */
  ghost predicate ConnectedOk(objects: map<JobId, Job>, link: Link, connectedAt: nat, tick: nat) {
    && connectedAt <= tick && (link.ready ==> link.active)
    && (link.ready ==> forall id | id in objects && !objects[id].flags.retired :: objects[id].past.markedAt > connectedAt)
  }

  ghost predicate JobTimed(job: Job, clock: int) {
    && (job.last.Some? ==> job.last.value <= clock)
    && (job.flags.dirty || job.version > 0 ==> job.first <= clock)
    && (job.flags.dirty && !job.past.stale && job.last.Some? ==> job.last.value <= job.first)
  }

  ghost predicate TimedLaunch(l: Launched, steady: bool) {
    !l.urgent ==>
      && l.first + MERGE_MS <= l.now
      && (steady && l.last.Some? && !l.stale ==> l.last.value + INTERVAL_MS <= l.now)
  }

  ghost predicate TimesOk(objects: map<JobId, Job>, launches: seq<Launched>, clock: int, steady: bool) {
    && (steady ==> forall id | id in objects :: JobTimed(objects[id], clock))
    && forall i | 0 <= i < |launches| :: TimedLaunch(launches[i], steady)
  }

  /** A waiting job either finds no slot, or the timer fires no later than it is due. */
  ghost predicate Awaited(job: Job, running: int, normal: int, wake: Option<int>) {
    || SlotsFull(running, normal, job.flags.urgent)
    || (!job.flags.urgent && wake.Some? && wake.value <= Due(job, 0))
  }

  ghost predicate CoveredOk(link: Link, objects: map<JobId, Job>, running: int, normal: int, wake: Option<int>) {
    Working(link) ==> forall id | id in objects && Eligible(objects[id]) :: Awaited(objects[id], running, normal, wake)
  }

  /** What holds of the jobs whatever keys they are registered under. */
  ghost predicate RestOk(link: Link, slots: Slots, log: Log, nextRun: nat, objects: map<JobId, Job>) {
    && RunsOk(objects, slots.runs, slots.running, slots.normal, nextRun)
    && JobsOk(objects, slots.runs, log.tick)
    && HeardOk(objects, log.invalidations, log.tick)
    && ConnectedOk(objects, link, log.connectedAt, log.tick)
    && TimesOk(objects, log.launches, log.clock, log.steady)
  }

  /** Everything but the timer, which a pass sets at the end of a section. */
  ghost predicate CoreInv(s: State) {
    TableOk(s.table.jobs, s.table.objects, s.table.operationJobs, s.ids.job) && RestOk(s.link, s.slots, s.log, s.ids.run, s.table.objects)
  }

  ghost predicate Inv(s: State) {
    CoreInv(s) && CoveredOk(s.link, s.table.objects, s.slots.running, s.slots.normal, s.wake)
  }

  // ---------------------------------------------------------------------------------------------
  // Marks
  // ---------------------------------------------------------------------------------------------

  /** The same jobs under the same keys, running what they ran. */
  ghost predicate SameJobs(objects: map<JobId, Job>, objects': map<JobId, Job>) {
    && (forall id :: id in objects <==> id in objects')
    && forall id | id in objects ::
      objects'[id].key == objects[id].key && objects'[id].flags.retired == objects[id].flags.retired && objects'[id].run == objects[id].run
  }

  lemma SameJobsKeepTable(jobs: map<JobKey, JobId>, objects: map<JobId, Job>, operationJobs: int, nextJob: nat,
                          objects': map<JobId, Job>)
    requires TableOk(jobs, objects, operationJobs, nextJob) && SameJobs(objects, objects')
    ensures TableOk(jobs, objects', operationJobs, nextJob)
  {}

  lemma SameJobsKeepRuns(objects: map<JobId, Job>, runs: map<RunId, Run>, running: int, normal: int, nextRun: nat,
                         objects': map<JobId, Job>)
    requires RunsOk(objects, runs, running, normal, nextRun) && SameJobs(objects, objects')
    ensures RunsOk(objects', runs, running, normal, nextRun)
  {}

  /** Each job is as it was, or was marked just now. */
  ghost predicate Marked(objects: map<JobId, Job>, objects': map<JobId, Job>, now: int, tick: nat) {
    && SameJobs(objects, objects')
    && forall id | id in objects ::
      objects'[id] == objects[id] || exists urgent :: objects'[id] == Mark(objects[id], urgent, now, tick)
  }

  lemma MarkKeepsJob(job: Job, runs: map<RunId, Run>, tick: nat, urgent: bool, now: int)
    requires JobOk(job, runs, tick)
    ensures JobOk(Mark(job, urgent, now, tick + 1), runs, tick + 1) && JobOk(job, runs, tick + 1)
  {}

  lemma MarkKeepsTimes(job: Job, clock: int, urgent: bool, now: int, tick: nat)
    requires JobTimed(job, clock) && clock <= now
    ensures JobTimed(Mark(job, urgent, now, tick), now) && JobTimed(job, now)
  {}

  lemma MarkedKeepsJobs(objects: map<JobId, Job>, objects': map<JobId, Job>, runs: map<RunId, Run>, tick: nat, now: int)
    requires JobsOk(objects, runs, tick) && Marked(objects, objects', now, tick + 1)
    ensures JobsOk(objects', runs, tick + 1)
  {
    forall id | id in objects'
      ensures JobOk(objects'[id], runs, tick + 1)
    {
      hide JobOk, Mark;
      MarkKeepsJob(objects[id], runs, tick, true, now);
      MarkKeepsJob(objects[id], runs, tick, false, now);
    }
  }

  lemma MarkedKeepsTimes(objects: map<JobId, Job>, objects': map<JobId, Job>, launches: seq<Launched>, clock: int,
                         steady: bool, now: int, tick: nat)
    requires TimesOk(objects, launches, clock, steady) && Marked(objects, objects', now, tick)
    ensures TimesOk(objects', launches, now, steady && clock <= now)
  {
    if steady && clock <= now {
      forall id | id in objects'
        ensures JobTimed(objects'[id], now)
      {
        hide JobTimed, Mark;
        MarkKeepsTimes(objects[id], clock, true, now, tick);
        MarkKeepsTimes(objects[id], clock, false, now, tick);
      }
    }
  }

  lemma MarkedKeepsHeard(objects: map<JobId, Job>, objects': map<JobId, Job>, invalidations: seq<Invalidation>, now: int, tick: nat)
    requires HeardOk(objects, invalidations, tick) && Marked(objects, objects', now, tick + 1)
    ensures HeardOk(objects', invalidations, tick + 1)
  {
    forall id | id in objects' && !objects'[id].flags.retired
      ensures Heard(objects'[id], invalidations)
    {
      assert Heard(objects[id], invalidations);
    }
  }

  lemma MarkedKeepsConnected(objects: map<JobId, Job>, objects': map<JobId, Job>, runs: map<RunId, Run>, link: Link,
                             connectedAt: nat, now: int, tick: nat)
    requires ConnectedOk(objects, link, connectedAt, tick) && Marked(objects, objects', now, tick + 1) && JobsOk(objects, runs, tick)
    ensures ConnectedOk(objects', link, connectedAt, tick + 1)
  {
    forall id | id in objects' && !objects'[id].flags.retired && link.ready
      ensures objects'[id].past.markedAt > connectedAt
    {
      assert JobOk(objects[id], runs, tick);
    }
  }

  /** Marking any jobs, in a section of its own moment. */
  lemma MarkedKeeps(s: State, objects': map<JobId, Job>, now: int)
    requires CoreInv(s) && Marked(s.table.objects, objects', now, s.log.tick + 1)
    ensures var t := Tick(s, now); CoreInv(t.(table := t.table.(objects := objects')))
  {
    hide TableOk, RunsOk, JobsOk, HeardOk, ConnectedOk, TimesOk;
    SameJobsKeepTable(s.table.jobs, s.table.objects, s.table.operationJobs, s.ids.job, objects');
    SameJobsKeepRuns(s.table.objects, s.slots.runs, s.slots.running, s.slots.normal, s.ids.run, objects');
    MarkedKeepsJobs(s.table.objects, objects', s.slots.runs, s.log.tick, now);
    MarkedKeepsTimes(s.table.objects, objects', s.log.launches, s.log.clock, s.log.steady, now, s.log.tick + 1);
    MarkedKeepsHeard(s.table.objects, objects', s.log.invalidations, now, s.log.tick);
    MarkedKeepsConnected(s.table.objects, objects', s.slots.runs, s.link, s.log.connectedAt, now, s.log.tick);
  }

  lemma TickKeeps(s: State, now: int)
    requires CoreInv(s)
    ensures CoreInv(Tick(s, now))
  {
    hide CoreInv, Mark;
    MarkedKeeps(s, s.table.objects, now);
    assert Tick(s, now).(table := Tick(s, now).table.(objects := s.table.objects)) == Tick(s, now);
  }

  /** Whoever covers an announced scope is marked at that moment. */
  lemma AnnouncementIsHeard(table: Table, invalidations: seq<Invalidation>, tick: nat, scope: Scope,
                            promoted: Option<Scope>, urgent: bool, now: int)
    requires HeardOk(table.objects, invalidations, tick)
    requires HeardOk(MarkConcerned(table, scope, promoted, urgent, now, tick + 1), invalidations, tick + 1)
    ensures HeardOk(MarkConcerned(table, scope, promoted, urgent, now, tick + 1),
                    invalidations + [Invalidation(tick + 1, scope)], tick + 1)
  {
    var objects := MarkConcerned(table, scope, promoted, urgent, now, tick + 1);
    var grown := invalidations + [Invalidation(tick + 1, scope)];
    forall id | id in objects && !objects[id].flags.retired
      ensures Heard(objects[id], grown)
    {
      assert Heard(objects[id], invalidations);
    }
  }

  lemma ConcernedMarked(table: Table, objects: map<JobId, Job>, scope: Scope, promoted: Option<Scope>, urgent: bool, now: int, tick: nat)
    requires objects.Keys == table.objects.Keys
    requires forall id | id in objects ::
      objects[id] == MarkIf(Concerns(table.objects[id], scope, promoted), table.objects[id], urgent, now, tick)
    ensures objects == MarkConcerned(table, scope, promoted, urgent, now, tick)
  {
    hide MarkIf, Concerns;
  }

  lemma ConcernedAreMarked(table: Table, scope: Scope, promoted: Option<Scope>, urgent: bool, now: int, tick: nat)
    ensures Marked(table.objects, MarkConcerned(table, scope, promoted, urgent, now, tick), now, tick)
  {}

  lemma AnnounceKeeps(s: State, scope: Scope, urgent: bool, now: int)
    requires CoreInv(s)
    ensures CoreInv(Announce(s, scope, urgent, now))
  {
    hide TableOk, RunsOk, JobsOk, HeardOk, TimesOk, Marked, MarkConcerned, Remembered, Promoted;
    ConcernedAreMarked(s.table, scope, Promoted(s.dirty, scope), urgent, now, s.log.tick + 1);
    MarkedKeeps(s, MarkConcerned(s.table, scope, Promoted(s.dirty, scope), urgent, now, s.log.tick + 1), now);
    AnnouncementIsHeard(s.table, s.log.invalidations, s.log.tick, scope, Promoted(s.dirty, scope), urgent, now);
  }

  lemma AllAreMarked(table: Table, now: int, tick: nat)
    ensures Marked(table.objects, MarkAll(table, now, tick), now, tick)
    ensures forall id | id in table.objects && !table.objects[id].flags.retired :: MarkAll(table, now, tick)[id].past.markedAt == tick
  {}

  lemma MarkEveryKeeps(s: State, now: int)
    requires CoreInv(s)
    ensures CoreInv(MarkEvery(s, now))
  {
    hide CoreInv, Marked, MarkAll;
    AllAreMarked(s.table, now, s.log.tick + 1);
    MarkedKeeps(s, MarkAll(s.table, now, s.log.tick + 1), now);
  }

  lemma MarkOneKeeps(s: State, id: JobId, now: int)
    requires CoreInv(s) && id in s.table.objects
    ensures CoreInv(MarkOne(s, id, now))
  {
    hide CoreInv, Mark, Marked;
    OneIsMarked(s.table.objects, id, now, s.log.tick + 1);
    MarkedKeeps(s, s.table.objects[id := Mark(s.table.objects[id], true, now, s.log.tick + 1)], now);
  }

  lemma RetryKeeps(s: State, key: JobKey, now: int)
    requires CoreInv(s)
    ensures CoreInv(RetryJob(s, key, now))
  {
    hide CoreInv, MarkOne;
    if key in s.table.jobs && s.table.jobs[key] in s.table.objects {
      MarkOneKeeps(s, s.table.jobs[key], now);
    }
  }

  lemma OneIsMarked(objects: map<JobId, Job>, id: JobId, now: int, tick: nat)
    requires id in objects
    ensures Marked(objects, objects[id := Mark(objects[id], true, now, tick)], now, tick)
  {}

  /** The connection is ready: every job is marked, whatever it was served with before. */
  lemma ConnectKeeps(s: State, displayed: bool, now: int)
    requires CoreInv(s) && s.link.active
    ensures CoreInv(Connect(s, displayed, now))
  {
    hide TableOk, RunsOk, JobsOk, HeardOk, TimesOk, Marked, MarkAll;
    MarkEveryKeeps(s, now);
    AllAreMarked(s.table, now, s.log.tick + 1);
    MarkedRetires(s.table.objects, MarkAll(s.table, now, s.log.tick + 1), now, s.log.tick + 1);
  }

  lemma MarkedRetires(objects: map<JobId, Job>, objects': map<JobId, Job>, now: int, tick: nat)
    requires Marked(objects, objects', now, tick)
    ensures forall id | id in objects' :: id in objects && objects'[id].flags.retired == objects[id].flags.retired
  {}

  // ---------------------------------------------------------------------------------------------
  // Registering and releasing
  // ---------------------------------------------------------------------------------------------

  lemma OneMoreJob(jobs: map<JobKey, JobId>, key: JobKey, id: JobId)
    ensures |jobs[key := id]| == |jobs| + if key in jobs then 0 else 1
    ensures |OperationKeys(jobs[key := id])| == |OperationKeys(jobs)| + if key.OperationJob? && key !in jobs then 1 else 0
  {
    var grown := jobs[key := id];
    assert grown.Keys == jobs.Keys + {key};
    if key in jobs {
      assert grown.Keys == jobs.Keys;
      assert |grown.Keys| == |jobs.Keys|;
    } else {
      assert |grown.Keys| == |jobs.Keys| + 1;
    }
    if key.OperationJob? && key !in jobs {
      assert OperationKeys(grown) == OperationKeys(jobs) + {key};
    } else {
      assert OperationKeys(grown) == OperationKeys(jobs);
    }
  }

  lemma OneJobLess(jobs: map<JobKey, JobId>, key: JobKey)
    requires key in jobs
    ensures |jobs - {key}| == |jobs| - 1
    ensures |OperationKeys(jobs - {key})| == |OperationKeys(jobs)| - if key.OperationJob? then 1 else 0
  {
    assert (jobs - {key}).Keys == jobs.Keys - {key};
    assert |(jobs - {key}).Keys| == |jobs.Keys| - 1;
    if key.OperationJob? {
      assert OperationKeys(jobs - {key}) == OperationKeys(jobs) - {key};
    } else {
      assert OperationKeys(jobs - {key}) == OperationKeys(jobs);
    }
  }

  lemma EnterKeepsTable(jobs: map<JobKey, JobId>, objects: map<JobId, Job>, operationJobs: int, id: JobId, job: Job)
    requires TableOk(jobs, objects, operationJobs, id) && !NoRoom(Table(jobs, objects, operationJobs), job.key) && !job.flags.retired
    ensures var left := if job.key in jobs then Retire(objects, jobs[job.key]) else objects;
      TableOk(jobs[job.key := id], left[id := job],
              operationJobs + if job.key.OperationJob? && job.key !in jobs then 1 else 0, id + 1)
  {
    OneMoreJob(jobs, job.key, id);
  }

  lemma ReleaseKeepsTable(jobs: map<JobKey, JobId>, objects: map<JobId, Job>, operationJobs: int, nextJob: nat, id: JobId)
    requires TableOk(jobs, objects, operationJobs, nextJob) && id in objects
    ensures var key := objects[id].key;
      if key in jobs && jobs[key] == id
      then TableOk(jobs - {key}, Retire(objects, id), operationJobs - if key.OperationJob? then 1 else 0, nextJob)
      else TableOk(jobs, Retire(objects, id), operationJobs, nextJob)
  {
    if objects[id].key in jobs {
      OneJobLess(jobs, objects[id].key);
    }
  }

  lemma RetireKeepsRuns(objects: map<JobId, Job>, runs: map<RunId, Run>, running: int, normal: int, nextRun: nat, id: JobId)
    requires RunsOk(objects, runs, running, normal, nextRun)
    ensures RunsOk(Retire(objects, id), runs, running, normal, nextRun)
  {}

  lemma RetireKeepsJobs(objects: map<JobId, Job>, runs: map<RunId, Run>, tick: nat, id: JobId)
    requires JobsOk(objects, runs, tick)
    ensures JobsOk(Retire(objects, id), runs, tick)
  {
    if id in objects {
      assert JobOk(objects[id], runs, tick);
      assert JobOk(objects[id].(flags := objects[id].flags.(retired := true)), runs, tick);
    }
    hide JobOk;
  }

  lemma RetireKeepsTimes(objects: map<JobId, Job>, launches: seq<Launched>, clock: int, steady: bool, id: JobId)
    requires TimesOk(objects, launches, clock, steady)
    ensures TimesOk(Retire(objects, id), launches, clock, steady)
  {}

  lemma RetireKeepsHeard(objects: map<JobId, Job>, invalidations: seq<Invalidation>, tick: nat, link: Link, connectedAt: nat, id: JobId)
    requires HeardOk(objects, invalidations, tick) && ConnectedOk(objects, link, connectedAt, tick)
    ensures HeardOk(Retire(objects, id), invalidations, tick) && ConnectedOk(Retire(objects, id), link, connectedAt, tick)
  {
    hide Heard;
  }

  /** Retiring a job concerns nothing but the table. */
  lemma RetireKeeps(s: State, id: JobId)
    requires RestOk(s.link, s.slots, s.log, s.ids.run, s.table.objects)
    ensures RestOk(s.link, s.slots, s.log, s.ids.run, Retire(s.table.objects, id))
  {
    hide RunsOk, JobsOk, HeardOk, ConnectedOk, TimesOk, Retire;
    RetireKeepsRuns(s.table.objects, s.slots.runs, s.slots.running, s.slots.normal, s.ids.run, id);
    RetireKeepsJobs(s.table.objects, s.slots.runs, s.log.tick, id);
    RetireKeepsTimes(s.table.objects, s.log.launches, s.log.clock, s.log.steady, id);
    RetireKeepsHeard(s.table.objects, s.log.invalidations, s.log.tick, s.link, s.log.connectedAt, id);
  }

  lemma EnterKeepsRest(s: State, left: map<JobId, Job>, id: JobId, job: Job)
    requires RestOk(s.link, s.slots, s.log, s.ids.run, left)
    requires id !in left && job.run.None? && JobOk(job, s.slots.runs, s.log.tick) && Heard(job, s.log.invalidations)
    requires job.past.markedAt == s.log.tick && s.log.connectedAt < s.log.tick && JobTimed(job, s.log.clock)
    ensures RestOk(s.link, s.slots, s.log, s.ids.run, left[id := job])
  {
    hide JobOk, JobTimed, Heard;
  }

  lemma NewcomerOk(s: State, key: JobKey, scopes: set<Scope>, initial: bool, now: int)
    requires CoreInv(s)
    ensures var job := Newcomer(s, key, scopes, initial, now, s.log.tick + 1);
      && job.key == key && job.run.None? && !job.flags.retired && job.past.markedAt == s.log.tick + 1
      && JobOk(job, s.slots.runs, s.log.tick + 1) && JobTimed(job, now) && Heard(job, s.log.invalidations)
    ensures s.ids.job !in s.table.objects && s.log.connectedAt <= s.log.tick
    ensures key in s.table.jobs ==> s.table.jobs[key] in s.table.objects
  {
    hide RunsOk, JobsOk, TimesOk;
  }

  lemma EnterKeeps(s: State, key: JobKey, scopes: set<Scope>, initial: bool, now: int)
    requires CoreInv(s) && !NoRoom(s.table, key)
    ensures CoreInv(Enter(s, key, scopes, initial, now))
  {
    hide TableOk, RestOk, Heard, JobOk, JobTimed, NoRoom, Newcomer, Retire;
    var t, id := Tick(s, now), s.ids.job;
    var job := Newcomer(s, key, scopes, initial, now, s.log.tick + 1);
    TickKeeps(s, now);
    NewcomerOk(s, key, scopes, initial, now);
    EnterKeepsTable(s.table.jobs, s.table.objects, s.table.operationJobs, id, job);
    if key in s.table.jobs {
      RetireKeeps(t, s.table.jobs[key]);
    }
    EnterKeepsRest(t, if key in s.table.jobs then Retire(s.table.objects, s.table.jobs[key]) else s.table.objects, id, job);
  }

  lemma ReleaseKeeps(s: State, id: JobId)
    requires CoreInv(s)
    ensures CoreInv(Release(s, id))
  {
    hide TableOk, RunsOk, JobsOk, HeardOk, ConnectedOk, TimesOk;
    if id in s.table.objects {
      ReleaseKeepsTable(s.table.jobs, s.table.objects, s.table.operationJobs, s.ids.job, id);
      RetireKeeps(s, id);
    }
  }

  // ---------------------------------------------------------------------------------------------
  // Runs
  // ---------------------------------------------------------------------------------------------

  lemma PutKeepsTable(jobs: map<JobKey, JobId>, objects: map<JobId, Job>, operationJobs: int, nextJob: nat, id: JobId, job: Job)
    requires TableOk(jobs, objects, operationJobs, nextJob) && id in objects
    requires job.key == objects[id].key && job.flags.retired == objects[id].flags.retired
    ensures TableOk(jobs, objects[id := job], operationJobs, nextJob)
  {}

  /** A job's marks stay what they were. */
  ghost predicate SameMarks(job: Job, job': Job) {
    && job'.scopes == job.scopes && job'.flags.retired == job.flags.retired && job'.past.remembered == job.past.remembered
    && job'.past.registered == job.past.registered && job'.past.markedAt == job.past.markedAt
  }

  lemma PutKeepsHeard(objects: map<JobId, Job>, invalidations: seq<Invalidation>, tick: nat, link: Link, connectedAt: nat,
                      id: JobId, job: Job, later: nat)
    requires HeardOk(objects, invalidations, tick) && ConnectedOk(objects, link, connectedAt, tick)
    requires id in objects && SameMarks(objects[id], job) && tick <= later
    ensures HeardOk(objects[id := job], invalidations, later) && ConnectedOk(objects[id := job], link, connectedAt, later)
  {
    forall other | other in objects && !objects[other].flags.retired
      ensures Heard(objects[id := job][other], invalidations)
    {
      assert Heard(objects[other], invalidations);
    }
  }

  lemma OneMoreRun(runs: map<RunId, Run>, r: RunId, run: Run)
    requires r !in runs
    ensures |runs[r := run]| == |runs| + 1
    ensures |NormalRuns(runs[r := run])| == |NormalRuns(runs)| + if run.urgent then 0 else 1
  {
    assert runs[r := run].Keys == runs.Keys + {r};
    assert |runs[r := run].Keys| == |runs.Keys| + 1;
    if run.urgent {
      assert NormalRuns(runs[r := run]) == NormalRuns(runs);
    } else {
      assert NormalRuns(runs[r := run]) == NormalRuns(runs) + {r};
    }
  }

  lemma LaunchKeepsRuns(objects: map<JobId, Job>, runs: map<RunId, Run>, running: int, normal: int, r: RunId,
                        run: Run, job: Job)
    requires RunsOk(objects, runs, running, normal, r) && run.job in objects && objects[run.job].run.None?
    requires job.run == Some(r) && !SlotsFull(running, normal, run.urgent)
    ensures RunsOk(objects[run.job := job], runs[r := run], running + 1, normal + if run.urgent then 0 else 1, r + 1)
  {
    OneMoreRun(runs, r, run);
    hide NormalRuns;
  }

  lemma OneRunLess(runs: map<RunId, Run>, r: RunId)
    requires r in runs
    ensures |runs - {r}| == |runs| - 1
    ensures |NormalRuns(runs - {r})| == |NormalRuns(runs)| - if runs[r].urgent then 0 else 1
  {
    assert (runs - {r}).Keys == runs.Keys - {r};
    assert |(runs - {r}).Keys| == |runs.Keys| - 1;
    if runs[r].urgent {
      assert NormalRuns(runs - {r}) == NormalRuns(runs);
    } else {
      assert NormalRuns(runs - {r}) == NormalRuns(runs) - {r};
    }
  }

  lemma EndKeepsRuns(objects: map<JobId, Job>, runs: map<RunId, Run>, running: int, normal: int, nextRun: nat,
                     r: RunId, job: Job)
    requires RunsOk(objects, runs, running, normal, nextRun) && r in runs && job.run.None?
    ensures RunsOk(objects[runs[r].job := job], runs - {r}, running - 1, normal - if runs[r].urgent then 0 else 1, nextRun)
  {
    hide NormalRuns;
    OneRunLess(runs, r);
  }

  lemma SettleKeepsRuns(objects: map<JobId, Job>, runs: map<RunId, Run>, running: int, normal: int, nextRun: nat,
                        r: RunId, job: Job, ok: bool)
    requires RunsOk(objects, runs, running, normal, nextRun) && r in runs && job.run == Some(r)
    ensures RunsOk(objects[runs[r].job := job], runs[r := runs[r].(settled := Some(ok))], running, normal, nextRun)
  {
    assert runs[r := runs[r].(settled := Some(ok))].Keys == runs.Keys;
    assert NormalRuns(runs[r := runs[r].(settled := Some(ok))]) == NormalRuns(runs);
  }

  /** Jobs that do not run `r` do not see it. */
  lemma JobsFramed(objects: map<JobId, Job>, runs: map<RunId, Run>, runs': map<RunId, Run>, tick: nat, later: nat,
                   id: JobId, job: Job)
    requires JobsOk(objects, runs, tick) && tick <= later && JobOk(job, runs', later)
    requires forall other | other in objects && other != id && objects[other].run.Some? && objects[other].run.value in runs' ::
      objects[other].run.value in runs && runs'[objects[other].run.value] == runs[objects[other].run.value]
    ensures JobsOk(objects[id := job], runs', later)
  {
    forall other | other in objects && other != id
      ensures JobOk(objects[other], runs', later)
    {
      assert JobOk(objects[other], runs, tick);
    }
  }

  lemma LaunchKeepsJobs(objects: map<JobId, Job>, runs: map<RunId, Run>, running: int, normal: int, r: RunId,
                        tick: nat, id: JobId, now: int)
    requires JobsOk(objects, runs, tick) && RunsOk(objects, runs, running, normal, r) && id in objects && Eligible(objects[id])
    ensures JobsOk(objects[id := StartJob(objects[id], now, r)],
                   runs[r := Run(id, objects[id].version, objects[id].flags.urgent, tick + 1, None)], tick + 1)
  {
    var run, job := Run(id, objects[id].version, objects[id].flags.urgent, tick + 1, None), StartJob(objects[id], now, r);
    assert JobOk(objects[id], runs, tick);
    assert JobOk(job, runs[r := run], tick + 1);
    hide JobsOk, JobOk;
    JobsFramed(objects, runs, runs[r := run], tick, tick + 1, id, job);
  }

  /** A pass only starts jobs that are due, which is what spaces their starts. */
  lemma LaunchIsTimed(job: Job, now: int, steady: bool)
    requires steady ==> JobTimed(job, now)
    requires Eligible(job) && Due(job, now) <= now
    ensures TimedLaunch(Launched(now, job.flags.urgent, job.first, job.last, job.past.stale), steady)
  {}

  lemma LaunchKeepsTimes(objects: map<JobId, Job>, launches: seq<Launched>, now: int, steady: bool, id: JobId, run: RunId)
    requires TimesOk(objects, launches, now, steady) && id in objects && Eligible(objects[id]) && Due(objects[id], now) <= now
    ensures var job := objects[id];
      TimesOk(objects[id := StartJob(job, now, run)],
              launches + [Launched(now, job.flags.urgent, job.first, job.last, job.past.stale)], now, steady)
  {
    LaunchIsTimed(objects[id], now, steady);
    assert steady ==> JobTimed(objects[id], now);
    assert steady ==> JobTimed(StartJob(objects[id], now, run), now);
    hide TimedLaunch, JobTimed, Due;
  }

  ghost predicate Launchable(s: State, id: JobId, now: int) {
    && id in s.table.objects && Eligible(s.table.objects[id]) && Due(s.table.objects[id], now) <= now
    && !SlotsFull(s.slots.running, s.slots.normal, s.table.objects[id].flags.urgent)
  }

  lemma LaunchKeeps(s: State, id: JobId, now: int)
    requires CoreInv(s) && s.log.clock == now && Launchable(s, id, now)
    ensures CoreInv(Launch(s, id, now))
  {
    hide TableOk, RunsOk, JobsOk, HeardOk, ConnectedOk, TimesOk, Due;
    var job, run := s.table.objects[id], s.ids.run;
    PutKeepsTable(s.table.jobs, s.table.objects, s.table.operationJobs, s.ids.job, id, StartJob(job, now, run));
    LaunchKeepsRuns(s.table.objects, s.slots.runs, s.slots.running, s.slots.normal, run,
                    Run(id, job.version, job.flags.urgent, s.log.tick + 1, None), StartJob(job, now, run));
    LaunchKeepsJobs(s.table.objects, s.slots.runs, s.slots.running, s.slots.normal, run, s.log.tick, id, now);
    PutKeepsHeard(s.table.objects, s.log.invalidations, s.log.tick, s.link, s.log.connectedAt, id, StartJob(job, now, run), s.log.tick + 1);
    LaunchKeepsTimes(s.table.objects, s.log.launches, now, s.log.steady, id, run);
  }

  lemma SettleKeepsJobs(objects: map<JobId, Job>, runs: map<RunId, Run>, running: int, normal: int, nextRun: nat,
                        tick: nat, r: RunId, ok: bool)
    requires JobsOk(objects, runs, tick) && RunsOk(objects, runs, running, normal, nextRun) && r in runs && runs[r].settled.None?
    ensures JobsOk(objects[runs[r].job := SettleJob(objects[runs[r].job], runs[r], ok)], runs[r := runs[r].(settled := Some(ok))], tick)
    ensures objects[runs[r].job].version > 0
  {
    var run, job := runs[r], objects[runs[r].job];
    assert JobOk(job, runs, tick);
    assert JobOk(SettleJob(job, run, ok), runs[r := run.(settled := Some(ok))], tick);
    hide JobsOk, JobOk;
    JobsFramed(objects, runs, runs[r := run.(settled := Some(ok))], tick, tick, run.job, SettleJob(job, run, ok));
  }

  lemma SettleKeepsTimes(objects: map<JobId, Job>, launches: seq<Launched>, clock: int, steady: bool, run: Run, ok: bool)
    requires TimesOk(objects, launches, clock, steady) && run.job in objects && objects[run.job].version > 0
    ensures TimesOk(objects[run.job := SettleJob(objects[run.job], run, ok)], launches, clock, steady)
  {
    assert steady ==> JobTimed(objects[run.job], clock);
    assert steady ==> JobTimed(SettleJob(objects[run.job], run, ok), clock);
  }

  lemma SettleKeeps(s: State, r: RunId, ok: bool)
    requires Inv(s)
    ensures Inv(Settle(s, r, ok))
  {
    hide TableOk, RunsOk, JobsOk, HeardOk, ConnectedOk, TimesOk, SettleJob, CoveredOk;
    if r in s.slots.runs && s.slots.runs[r].settled.None? && s.slots.runs[r].job in s.table.objects {
      var run := s.slots.runs[r];
      var job := s.table.objects[run.job];
      SettleFrame(s.table.objects, s.slots.runs, s.slots.running, s.slots.normal, s.ids.run, r, ok);
      PutKeepsTable(s.table.jobs, s.table.objects, s.table.operationJobs, s.ids.job, run.job, SettleJob(job, run, ok));
      SettleKeepsRuns(s.table.objects, s.slots.runs, s.slots.running, s.slots.normal, s.ids.run, r, SettleJob(job, run, ok), ok);
      SettleKeepsJobs(s.table.objects, s.slots.runs, s.slots.running, s.slots.normal, s.ids.run, s.log.tick, r, ok);
      PutKeepsHeard(s.table.objects, s.log.invalidations, s.log.tick, s.link, s.log.connectedAt, run.job, SettleJob(job, run, ok), s.log.tick);
      SettleKeepsTimes(s.table.objects, s.log.launches, s.log.clock, s.log.steady, run, ok);
      IneligibleKeepsCovered(s.link, s.table.objects, s.slots.running, s.slots.normal, s.wake, run.job, SettleJob(job, run, ok));
    }
  }

  lemma SettleFrame(objects: map<JobId, Job>, runs: map<RunId, Run>, running: int, normal: int, nextRun: nat, r: RunId, ok: bool)
    requires RunsOk(objects, runs, running, normal, nextRun) && r in runs
    ensures runs[r].job in objects
    ensures var job, job' := objects[runs[r].job], SettleJob(objects[runs[r].job], runs[r], ok);
      SameMarks(job, job') && job'.key == job.key && job'.run == Some(r)
  {}

  lemma IneligibleKeepsCovered(link: Link, objects: map<JobId, Job>, running: int, normal: int, wake: Option<int>, id: JobId, job: Job)
    requires CoveredOk(link, objects, running, normal, wake) && !Eligible(job)
    ensures CoveredOk(link, objects[id := job], running, normal, wake)
  {
    hide Awaited;
  }

  lemma EndKeepsJobs(objects: map<JobId, Job>, runs: map<RunId, Run>, running: int, normal: int, nextRun: nat, tick: nat, r: RunId)
    requires JobsOk(objects, runs, tick) && RunsOk(objects, runs, running, normal, nextRun) && r in runs && runs[r].settled.Some?
    ensures JobsOk(objects[runs[r].job := objects[runs[r].job].(run := None)], runs - {r}, tick)
  {
    var job := objects[runs[r].job];
    assert JobOk(job, runs, tick);
    assert JobOk(job.(run := None), runs - {r}, tick);
    hide JobsOk, JobOk;
    JobsFramed(objects, runs, runs - {r}, tick, tick, runs[r].job, job.(run := None));
  }

  lemma EndRunKeeps(s: State, r: RunId)
    requires CoreInv(s)
    ensures CoreInv(EndRun(s, r))
  {
    hide TableOk, RunsOk, JobsOk, HeardOk, ConnectedOk, TimesOk, SettleJob, JobTimed;
    if r in s.slots.runs && s.slots.runs[r].settled.Some? && s.slots.runs[r].job in s.table.objects {
      var id := s.slots.runs[r].job;
      var job := s.table.objects[id].(run := None);
      PutKeepsTable(s.table.jobs, s.table.objects, s.table.operationJobs, s.ids.job, id, job);
      EndKeepsRuns(s.table.objects, s.slots.runs, s.slots.running, s.slots.normal, s.ids.run, r, job);
      EndKeepsJobs(s.table.objects, s.slots.runs, s.slots.running, s.slots.normal, s.ids.run, s.log.tick, r);
      PutKeepsHeard(s.table.objects, s.log.invalidations, s.log.tick, s.link, s.log.connectedAt, id, job, s.log.tick);
      EndKeepsTimes(s.table.objects, s.log.launches, s.log.clock, s.log.steady, id);
    }
  }

  lemma EndKeepsTimes(objects: map<JobId, Job>, launches: seq<Launched>, clock: int, steady: bool, id: JobId)
    requires TimesOk(objects, launches, clock, steady) && id in objects
    ensures TimesOk(objects[id := objects[id].(run := None)], launches, clock, steady)
  {
    assert steady ==> JobTimed(objects[id], clock);
    assert steady ==> JobTimed(objects[id].(run := None), clock);
  }

  // ---------------------------------------------------------------------------------------------
  // Passes
  // ---------------------------------------------------------------------------------------------

  ghost predicate AllEligible(objects: map<JobId, Job>, order: seq<JobId>) {
    && (forall i, j | 0 <= i < j < |order| :: order[i] != order[j])
    && forall id | id in order :: id in objects && Eligible(objects[id])
  }

  lemma {:induction false} PassKeeps(s: State, order: seq<JobId>, now: int, next: Option<int>)
    requires CoreInv(s) && s.log.clock == now && AllEligible(s.table.objects, order)
    ensures CoreInv(Pass(s, order, now, next).0)
    decreases |order|
  {
    hide CoreInv, Due, SlotsFull;
    if order != [] {
      assert AllEligible(s.table.objects, order[1..]) && order[0] !in order[1..];
      if Due(s.table.objects[order[0]], now) <= now
         && !SlotsFull(s.slots.running, s.slots.normal, s.table.objects[order[0]].flags.urgent) {
        LaunchKeeps(s, order[0], now);
        PassKeeps(Launch(s, order[0], now), order[1..], now, next);
      } else {
        var due := Due(s.table.objects[order[0]], now);
        PassKeeps(s, order[1..], now, if due > now && (next.None? || due < next.value) then Some(due) else next);
      }
    }
  }

  /** What a pass leaves of a candidate: it was started, or it still waits, for its time or for a slot. */
  ghost predicate Handled(s: State, t: State, next: Option<int>, id: JobId, now: int) {
    && id in s.table.objects && id in t.table.objects
    && (t.table.objects[id] == s.table.objects[id] || !Eligible(t.table.objects[id]))
    && (Eligible(t.table.objects[id]) ==>
          || SlotsFull(t.slots.running, t.slots.normal, s.table.objects[id].flags.urgent)
          || (Due(s.table.objects[id], now) > now && next.Some? && next.value <= Due(s.table.objects[id], now)))
  }

  lemma {:induction false} PassHandles(s: State, order: seq<JobId>, now: int, next: Option<int>)
    requires AllEligible(s.table.objects, order) && (next.Some? ==> next.value > now)
    ensures var (t, n) := Pass(s, order, now, next);
      && t.link == s.link && t.wake == s.wake && t.dirty == s.dirty
      && t.slots.running >= s.slots.running && t.slots.normal >= s.slots.normal
      && (forall id :: id in t.table.objects <==> id in s.table.objects)
      && (forall id | id in s.table.objects && id !in order :: t.table.objects[id] == s.table.objects[id])
      && (next.Some? ==> n.Some? && n.value <= next.value) && (n.Some? ==> n.value > now)
      && (forall id | id in order :: Handled(s, t, n, id, now))
    decreases |order|
  {
    hide Due;
    if order != [] {
      var job := s.table.objects[order[0]];
      assert AllEligible(s.table.objects, order[1..]) && order[0] !in order[1..];
      if Due(job, now) <= now && !SlotsFull(s.slots.running, s.slots.normal, job.flags.urgent) {
        PassHandles(Launch(s, order[0], now), order[1..], now, next);
      } else {
        var due := Due(job, now);
        PassHandles(s, order[1..], now, if due > now && (next.None? || due < next.value) then Some(due) else next);
      }
      assert forall id :: id in order <==> id == order[0] || id in order[1..];
    }
  }

  lemma DueIsLater(job: Job, now: int)
    ensures !job.flags.urgent ==> Due(job, now) == Due(job, 0)
    ensures job.flags.urgent ==> Due(job, now) == now
  {}

  lemma ScheduleKeeps(s: State, order: seq<JobId>, now: int)
    requires CoreInv(s) && s.log.clock == now && Candidates(s, order, now)
    ensures Inv(Schedule(s, order, now))
  {
    hide TableOk, RestOk, Pass, Due, NotAfter, SlotsFull, Eligible;
    if Working(s.link) {
      PassKeeps(s.(wake := None), order, now, None);
      PassHandles(s.(wake := None), order, now, None);
      CandidatesAwaited(s.(wake := None), Schedule(s, order, now), order, now, Pass(s.(wake := None), order, now, None).1);
    }
  }

  lemma CandidatesAwaited(s: State, t: State, order: seq<JobId>, now: int, next: Option<int>)
    requires Candidates(s, order, now)
    requires forall id :: id in t.table.objects <==> id in s.table.objects
    requires forall id | id in s.table.objects && id !in order :: t.table.objects[id] == s.table.objects[id]
    requires forall id | id in order :: Handled(s, t, next, id, now)
    requires next.Some? ==> next.value > now && t.wake == Some(next.value)
    ensures CoveredOk(t.link, t.table.objects, t.slots.running, t.slots.normal, t.wake)
  {
    hide Due, NotAfter, SlotsFull;
    forall id | id in t.table.objects && Eligible(t.table.objects[id])
      ensures Awaited(t.table.objects[id], t.slots.running, t.slots.normal, t.wake)
    {
      assert Handled(s, t, next, id, now);
      DueIsLater(t.table.objects[id], now);
    }
  }

  // ---------------------------------------------------------------------------------------------
  // Every section keeps the invariant
  // ---------------------------------------------------------------------------------------------

  lemma FinishKeeps(s: State)
    requires Inv(s)
    ensures Inv(FinishResync(s))
  {
    hide TableOk, RunsOk, JobsOk, HeardOk, TimesOk, AllIdle, CaughtUp, Awaited;
  }

  lemma ScheduledKeeps(s: State, t: State, order: seq<JobId>, now: int)
    requires Inv(s) && CoreInv(t) && t.log.clock == now
    ensures Inv(Scheduled(s, t, order, now))
  {
    hide Inv, CoreInv, Candidates, Schedule;
    if Candidates(t, order, now) {
      ScheduleKeeps(t, order, now);
    }
  }

  lemma ReleaseKeepsCovered(s: State, id: JobId)
    requires Inv(s)
    ensures Inv(Release(s, id))
  {
    hide CoreInv, Awaited;
    ReleaseKeeps(s, id);
  }

  /** The state of the connection changes, but not whether jobs are marked or awaited. */
  lemma RelinkKeeps(s: State, link: Link, wake: Option<int>)
    requires Inv(s) && (link.ready ==> link.active && s.link.ready)
    requires Working(link) ==> Working(s.link) && wake == s.wake
    ensures Inv(s.(link := link, wake := wake))
  {
    hide TableOk, RunsOk, JobsOk, HeardOk, TimesOk, Awaited;
  }

  lemma ReadyMeansActive(s: State)
    requires Inv(s)
    ensures s.link.ready ==> s.link.active
  {
    hide TableOk, RunsOk, JobsOk, HeardOk, TimesOk, Awaited;
  }

  lemma RelinkKeepsCore(s: State, link: Link)
    requires CoreInv(s) && link.active == s.link.active && link.ready == s.link.ready
    ensures CoreInv(s.(link := link))
  {
    hide TableOk, RunsOk, JobsOk, HeardOk, TimesOk;
  }

  lemma RunEndedKeeps(s: State, r: RunId, now: int, order: seq<JobId>)
    requires Inv(s)
    ensures Inv(Step(s, RunEnded(r, now, order)))
  {
    hide CoreInv, CoveredOk, Candidates, Schedule, FinishResync;
    TickKeeps(s, now);
    EndRunKeeps(Tick(s, now), r);
    if Candidates(EndRun(Tick(s, now), r), order, now) {
      ScheduleKeeps(EndRun(Tick(s, now), r), order, now);
      FinishKeeps(Schedule(EndRun(Tick(s, now), r), order, now));
    }
  }

  lemma BecameReadyKeeps(s: State, displayed: bool, now: int, order: seq<JobId>)
    requires Inv(s)
    ensures Inv(Step(s, BecameReady(displayed, now, order)))
  {
    hide CoreInv, CoveredOk, Candidates, Schedule, FinishResync, MarkAll;
    if s.link.active {
      ConnectKeeps(s, displayed, now);
      if Candidates(Connect(s, displayed, now), order, now) {
        ScheduleKeeps(Connect(s, displayed, now), order, now);
        FinishKeeps(Schedule(Connect(s, displayed, now), order, now));
      }
    }
  }

  lemma OverflowedKeeps(s: State, now: int, order: seq<JobId>)
    requires Inv(s)
    ensures Inv(Step(s, Overflowed(now, order)))
  {
    hide CoreInv, CoveredOk, Candidates, Schedule, Announce;
    var t := s.(link := s.link.(overflowing := true, kind := Resyncing));
    RelinkKeepsCore(s, t.link);
    AnnounceKeeps(t, OperationsResync, false, now);
    AnnounceClock(t, OperationsResync, false, now);
    ScheduledKeeps(s, Announce(t, OperationsResync, false, now), order, now);
  }

  lemma AnnounceClock(s: State, scope: Scope, urgent: bool, now: int)
    ensures Announce(s, scope, urgent, now).log.clock == now
  {}

  lemma StepKeeps(s: State, a: Action)
    requires Inv(s)
    ensures Inv(Step(s, a))
  {
    hide Inv, CoreInv, Scheduled, Announce, RetryJob, Enter, Release, Settle, FinishResync, MarkAll;
    InvIsCore(s);
    match a
    case Announced(scope, urgent, now, order) =>
      AnnounceKeeps(s, scope, urgent, now);
      AnnounceClock(s, scope, urgent, now);
      ScheduledKeeps(s, Announce(s, scope, urgent, now), order, now);
    case Retried(key, now, order) =>
      if key in s.table.jobs {
        RetryKeeps(s, key, now);
        RetryClock(s, key, now);
        ScheduledKeeps(s, RetryJob(s, key, now), order, now);
      }
    case Entered(key, scopes, initial, now, order) =>
      if !NoRoom(s.table, key) {
        EnterKeeps(s, key, scopes, initial, now);
        EnterClock(s, key, scopes, initial, now);
        ScheduledKeeps(s, Enter(s, key, scopes, initial, now), order, now);
      } else if key.OperationJob? {
        PendingKeeps(s);
      } else {
        ReadyMeansActive(s);
        RelinkKeeps(s, s.link.(kind := Resyncing), s.wake);
      }
    case Released(id) => ReleaseKeepsCovered(s, id);
    case Shown(visible, now, order) =>
      ReadyMeansActive(s);
      if visible {
        RelinkKeepsCore(s, s.link.(visible := visible));
        MarkEveryKeeps(s.(link := s.link.(visible := visible)), now);
        ScheduledKeeps(s, MarkEvery(s.(link := s.link.(visible := visible)), now), order, now);
      } else {
        RelinkKeeps(s, s.link.(visible := visible), s.wake);
      }
    case WakeFired(now, order) =>
      TickKeeps(s, now);
      ScheduledKeeps(s, Tick(s, now), order, now);
    case RunSettled(r, ok) => SettleKeeps(s, r, ok);
    case RunEnded(r, now, order) => RunEndedKeeps(s, r, now, order);
    case BecameReady(displayed, now, order) => BecameReadyKeeps(s, displayed, now, order);
    case Subscribing(resuming) =>
      RelinkKeeps(s, s.link.(ready := false, kind := if resuming then Disconnected else Connecting), s.wake);
    case Failed(retryable) => RelinkKeeps(s, s.link.(ready := false, kind := if retryable then Disconnected else Broken), s.wake);
    case Started =>
      ReadyMeansActive(s);
      RelinkKeeps(s, s.link.(active := true), s.wake);
    case Stopped => RelinkKeeps(s, s.link.(active := false, ready := false), None);
    case Overflowed(now, order) => OverflowedKeeps(s, now, order);
    case OverflowSynced(version) =>
      ReadyMeansActive(s);
      RelinkKeeps(s, s.link.(overflowing := false), s.wake);
      FinishKeeps(s.(link := s.link.(overflowing := false)));
  }

  lemma InvIsCore(s: State)
    requires Inv(s)
    ensures CoreInv(s)
  {}

  lemma PendingKeeps(s: State)
    requires Inv(s)
    ensures Inv(s.(pendingObservers := true)) && Inv(s.(pendingObservers := false))
  {}

  lemma RetryClock(s: State, key: JobKey, now: int)
    requires CoreInv(s) && key in s.table.jobs
    ensures RetryJob(s, key, now).log.clock == now
  {
    hide RunsOk, JobsOk, HeardOk, ConnectedOk, TimesOk;
  }

  lemma EnterClock(s: State, key: JobKey, scopes: set<Scope>, initial: bool, now: int)
    ensures Enter(s, key, scopes, initial, now).log.clock == now
  {
    hide Retire, Newcomer;
  }

  /** The invariant holds in every state any sequence of sections can reach. */
  lemma {:induction false} RunAllKeeps(actions: seq<Action>)
    ensures Inv(RunAll(INITIAL, actions))
  {
    hide Step;
    if actions == [] {
      assert OperationKeys(INITIAL.table.jobs) == {} && NormalRuns(INITIAL.slots.runs) == {};
    } else {
      hide Inv;
      RunAllKeeps(actions[..|actions| - 1]);
      StepKeeps(RunAll(INITIAL, actions[..|actions| - 1]), actions[|actions| - 1]);
    }
  }

  // ---------------------------------------------------------------------------------------------
  // What that means
  // ---------------------------------------------------------------------------------------------

  /** Every invalidation of the job's scopes came before its last successful run began, if it came since the job
      registered or was still remembered then. */
  ghost predicate UpToDate(job: Job, invalidations: seq<Invalidation>) {
    && (forall scope | scope in job.scopes && scope in job.past.remembered ::
          job.past.served.Some? && job.past.registered < job.past.served.value.startTick)
    && forall i | 0 <= i < |invalidations| && invalidations[i].scope in job.scopes ::
      invalidations[i].tick > job.past.registered || invalidations[i].scope in job.past.remembered ==>
        job.past.served.Some? && invalidations[i].tick < job.past.served.value.startTick
  }

  /** No invalidation is lost, over every run: a registered job with no mark left to serve and no run under way
      has succeeded in a run that began at its current version, after everything it was told. */
  lemma {:induction false} NoInvalidationIsLost(actions: seq<Action>, k: JobKey)
    requires k in RunAll(INITIAL, actions).table.jobs
    ensures var s := RunAll(INITIAL, actions);
      && s.table.jobs[k] in s.table.objects
      && var job := s.table.objects[s.table.jobs[k]];
         Idle(job) ==>
           && UpToDate(job, s.log.invalidations)
           && (job.version > 0 ==> job.past.served.Some? && job.past.served.value.version == job.version)
  {
    RunAllKeeps(actions);
    IdleIsUpToDate(RunAll(INITIAL, actions), k);
  }

  lemma IdleIsUpToDate(s: State, k: JobKey)
    requires Inv(s) && k in s.table.jobs
    ensures s.table.jobs[k] in s.table.objects && s.table.objects[s.table.jobs[k]].key == k
    ensures var job := s.table.objects[s.table.jobs[k]];
      Idle(job) ==>
        && UpToDate(job, s.log.invalidations)
        && (job.version > 0 ==> job.past.served.Some? && job.past.served.value.version == job.version)
        && (s.link.ready && job.past.registered <= s.log.connectedAt ==>
              job.past.served.Some? && s.log.connectedAt < job.past.served.value.startTick)
  {
    hide RunsOk, TimesOk, CoveredOk;
    var job := s.table.objects[s.table.jobs[k]];
    assert JobOk(job, s.slots.runs, s.log.tick) && Heard(job, s.log.invalidations);
    forall scope | scope in job.scopes && scope in job.past.remembered
      ensures job.version > 0
    {
      assert scope in job.scopes * job.past.remembered;
    }
  }

  /** Ready is only shown when every registered job is up to date; what was there before the connection became
      ready was read anew since. */
  lemma {:induction false} ReadyMeansServed(actions: seq<Action>, a: Action, k: JobKey)
    requires !RunAll(INITIAL, actions).link.kind.Ready? && RunAll(INITIAL, actions + [a]).link.kind.Ready?
    requires k in RunAll(INITIAL, actions + [a]).table.jobs
    ensures var t := RunAll(INITIAL, actions + [a]);
      && t.link.ready && !t.link.overflowing
      && t.table.jobs[k] in t.table.objects
      && var job := t.table.objects[t.table.jobs[k]];
         && Idle(job) && UpToDate(job, t.log.invalidations)
         && (job.past.registered <= t.log.connectedAt ==>
               job.past.served.Some? && t.log.connectedAt < job.past.served.value.startTick)
  {
    var s, t := RunAll(INITIAL, actions), RunAll(INITIAL, actions + [a]);
    assert (actions + [a])[..|actions|] == actions && t == Step(s, a);
    RunAllKeeps(actions);
    RunAllKeeps(actions + [a]);
    hide Inv, Step;
    OnlyFinishingMakesReady(s, a);
    IdleIsUpToDate(t, k);
  }

  lemma ScheduleFrame(s: State, order: seq<JobId>, now: int)
    requires Candidates(s, order, now)
    ensures var t := Schedule(s, order, now); t.link == s.link && t.dirty == s.dirty
  {
    hide Pass;
    if Working(s.link) {
      PassHandles(s.(wake := None), order, now, None);
    }
  }

  lemma OnlyFinishingMakesReady(s: State, a: Action)
    requires !s.link.kind.Ready? && Step(s, a).link.kind.Ready?
    ensures var t := Step(s, a); t.link.ready && !t.link.overflowing && AllIdle(t.table)
  {
    hide Candidates, Schedule, Newcomer, Retire, MarkConcerned, MarkAll, Remembered, CaughtUp, SettleJob;
    if a.Announced? || a.Retried? || a.Entered? || a.Shown? || a.WakeFired? || a.RunEnded? || a.BecameReady? || a.Overflowed? {
      forall t: State | Candidates(t, a.order, a.now)
        ensures Schedule(t, a.order, a.now).link == t.link
      {
        ScheduleFrame(t, a.order, a.now);
      }
    }
  }

  // -- who is told -------------------------------------------------------------------------------

  /** A run under way began at the version the job has. */
  ghost predicate UnderWay(s: State, id: JobId) {
    && id in s.table.objects && s.table.objects[id].run.Some? && s.table.objects[id].run.value in s.slots.runs
    && var run := s.slots.runs[s.table.objects[id].run.value]; run.job == id && run.version == s.table.objects[id].version
  }

  /** What a pass does to a job: nothing, unless it starts it as it is. */
  ghost predicate PassedOver(s: State, t: State, id: JobId) {
    if id in s.table.objects then
      && id in t.table.objects
      && (t.table.objects[id] == s.table.objects[id]
          || (SameMarks(s.table.objects[id], t.table.objects[id]) && t.table.objects[id].key == s.table.objects[id].key
              && t.table.objects[id].version == s.table.objects[id].version
              && Eligible(s.table.objects[id]) && UnderWay(t, id)))
    else id !in t.table.objects
  }

  lemma LaunchStarts(s: State, launched: JobId, now: int, id: JobId)
    requires RunsOk(s.table.objects, s.slots.runs, s.slots.running, s.slots.normal, s.ids.run)
    requires launched in s.table.objects && Eligible(s.table.objects[launched])
    ensures PassedOver(s, Launch(s, launched, now), id)
    ensures UnderWay(s, id) ==> UnderWay(Launch(s, launched, now), id) && Launch(s, launched, now).table.objects[id] == s.table.objects[id]
  {}

  lemma {:induction false} PassStarts(s: State, order: seq<JobId>, now: int, next: Option<int>, id: JobId)
    requires CoreInv(s) && s.log.clock == now && AllEligible(s.table.objects, order)
    ensures PassedOver(s, Pass(s, order, now, next).0, id)
    ensures UnderWay(s, id) ==>
      UnderWay(Pass(s, order, now, next).0, id) && Pass(s, order, now, next).0.table.objects[id] == s.table.objects[id]
    decreases |order|
  {
    hide CoreInv, Due, SlotsFull, UnderWay, PassedOver, Launch;
    if order == [] {
      NothingPassed(s, id);
    } else {
      assert AllEligible(s.table.objects, order[1..]) && order[0] !in order[1..];
      if Due(s.table.objects[order[0]], now) <= now
         && !SlotsFull(s.slots.running, s.slots.normal, s.table.objects[order[0]].flags.urgent) {
        var launched := Launch(s, order[0], now);
        LaunchKeeps(s, order[0], now);
        LaunchLeavesOthers(s, order[0], now, order[1..]);
        CoreRuns(s);
        LaunchStarts(s, order[0], now, id);
        PassStarts(launched, order[1..], now, next, id);
        PassedTwice(s, launched, Pass(launched, order[1..], now, next).0, id);
      } else {
        var due := Due(s.table.objects[order[0]], now);
        PassStarts(s, order[1..], now, if due > now && (next.None? || due < next.value) then Some(due) else next, id);
      }
    }
  }

  lemma LaunchLeavesOthers(s: State, launched: JobId, now: int, order: seq<JobId>)
    requires launched in s.table.objects && AllEligible(s.table.objects, order) && launched !in order
    ensures AllEligible(Launch(s, launched, now).table.objects, order) && Launch(s, launched, now).log.clock == s.log.clock
  {}

  lemma CoreRuns(s: State)
    requires CoreInv(s)
    ensures RunsOk(s.table.objects, s.slots.runs, s.slots.running, s.slots.normal, s.ids.run)
  {}

  lemma NothingPassed(s: State, id: JobId)
    ensures PassedOver(s, s, id)
  {}

  lemma PassedTwice(s: State, t: State, u: State, id: JobId)
    requires PassedOver(s, t, id) && PassedOver(t, u, id)
    requires UnderWay(t, id) ==> UnderWay(u, id) && u.table.objects[id] == t.table.objects[id]
    ensures PassedOver(s, u, id)
  {}

  lemma ScheduleStarts(s: State, order: seq<JobId>, now: int, id: JobId)
    requires CoreInv(s) && s.log.clock == now && Candidates(s, order, now)
    ensures PassedOver(s, Schedule(s, order, now), id)
    ensures UnderWay(s, id) ==> UnderWay(Schedule(s, order, now), id) && Schedule(s, order, now).table.objects[id] == s.table.objects[id]
  {
    hide CoreInv, Candidates, Pass, UnderWay, PassedOver;
    var u := s.(wake := None);
    WakeIsFree(s, None, id);
    NothingPassed(s, id);
    if Working(s.link) {
      CandidatesExist(s, order, now);
      PassStarts(u, order, now, None, id);
      PassFree(s, u, Pass(u, order, now, None).0, id, Schedule(s, order, now).wake);
    }
  }

  lemma WakeIsFree(s: State, wake: Option<int>, id: JobId)
    ensures CoreInv(s) ==> CoreInv(s.(wake := wake))
    ensures UnderWay(s, id) <==> UnderWay(s.(wake := wake), id)
    ensures PassedOver(s, s.(wake := wake), id)
  {
    hide TableOk, RestOk, Eligible, SameMarks;
  }

  lemma PassFree(s: State, u: State, t: State, id: JobId, wake: Option<int>)
    requires u == s.(wake := None) && PassedOver(u, t, id)
    ensures PassedOver(s, t.(wake := wake), id) && (UnderWay(t, id) <==> UnderWay(t.(wake := wake), id))
  {
    hide Eligible, SameMarks;
  }

  /** Announcing `scope` tells the job: it shows it, or the operations that one entry comes to stand for. */
  ghost predicate Concerned(s: State, scope: Scope, id: JobId) {
    && id in s.table.objects && !s.table.objects[id].flags.retired
    && (scope in s.table.objects[id].scopes
        || (|s.dirty| >= DIRTY_KEYS && scope !in s.dirty && (scope.OperationOf? || scope.Operations?)
            && (Operations in s.table.objects[id].scopes || s.table.objects[id].key.OperationJob?)))
  }

  /** The jobs a section tells to run again: whom an announcement concerns, the one asked for, or all of them. */
  ghost predicate Tells(s: State, a: Action, id: JobId) {
    match a
    case Announced(scope, urgent, now, order) => Concerned(s, scope, id)
    case Overflowed(now, order) => Concerned(s, OperationsResync, id)
    case Retried(key, now, order) => key in s.table.jobs && s.table.jobs[key] == id
    case Shown(visible, now, order) => visible && id in s.table.objects && !s.table.objects[id].flags.retired
    case BecameReady(displayed, now, order) => s.link.active && id in s.table.objects && !s.table.objects[id].flags.retired
    case _ => false
  }

  ghost predicate Urgently(a: Action) { if a.Announced? then a.urgent else !a.Overflowed? }

  /** A job that has `version` waits to be run, or is being run as it is. */
  ghost predicate Awaits(s: State, id: JobId, version: nat, urgent: bool) {
    && id in s.table.objects && s.table.objects[id].version == version
    && (UnderWay(s, id) || (s.table.objects[id].flags.dirty && !s.table.objects[id].flags.blocked
                            && (urgent ==> s.table.objects[id].flags.urgent)))
  }

  /** Who was told is at its next version and waits to be run, at once if that is urgent, or is being run as it is. Who was
      not keeps its version. */
  ghost predicate ToldRightly(s: State, a: Action, t: State, id: JobId) {
    id in s.table.objects ==>
      if Tells(s, a, id) then Awaits(t, id, s.table.objects[id].version + 1, Urgently(a))
      else id in t.table.objects && t.table.objects[id].version == s.table.objects[id].version
  }

  lemma PassKeepsTold(s: State, a: Action, t: State, u: State, id: JobId)
    requires ToldRightly(s, a, t, id) && PassedOver(t, u, id)
    requires UnderWay(t, id) ==> UnderWay(u, id) && u.table.objects[id] == t.table.objects[id]
    ensures ToldRightly(s, a, u, id)
  {
    hide Tells, SameMarks;
  }

  lemma AnnounceTells(s: State, scope: Scope, urgent: bool, now: int, id: JobId, a: Action)
    requires Tells(s, a, id) <==> Concerned(s, scope, id)
    requires urgent == Urgently(a)
    ensures ToldRightly(s, a, Announce(s, scope, urgent, now), id)
  {
    hide Remembered, UnderWay, Tells;
  }

  lemma FinishTells(s: State, a: Action, t: State, id: JobId)
    requires ToldRightly(s, a, t, id)
    ensures ToldRightly(s, a, FinishResync(t), id)
  {
    hide Tells, CaughtUp, AllIdle;
  }

  lemma ScheduleTells(s: State, a: Action, t: State, order: seq<JobId>, now: int, id: JobId)
    requires CoreInv(t) && t.log.clock == now && Candidates(t, order, now) && ToldRightly(s, a, t, id)
    ensures ToldRightly(s, a, Schedule(t, order, now), id)
  {
    hide *;
    ScheduleStarts(t, order, now, id);
    PassKeepsTold(s, a, t, Schedule(t, order, now), id);
  }

  lemma LinkTells(s: State, link: Link, log: Log, now: int, id: JobId, a: Action)
    requires Tells(s, a, id) <==> id in s.table.objects && !s.table.objects[id].flags.retired
    ensures ToldRightly(s, a, MarkEvery(s.(link := link, log := log), now), id)
  {
    hide UnderWay, Tells;
  }

  lemma RetryTells(s: State, key: JobKey, now: int, id: JobId, a: Action)
    requires CoreInv(s) && key in s.table.jobs && a.Retried? && a.key == key
    ensures ToldRightly(s, a, RetryJob(s, key, now), id)
  {
    hide RestOk, UnderWay;
  }

  lemma EnterTells(s: State, key: JobKey, scopes: set<Scope>, initial: bool, now: int, id: JobId, a: Action)
    requires CoreInv(s) && a.Entered?
    ensures ToldRightly(s, a, Enter(s, key, scopes, initial, now), id)
  {
    hide RestOk, UnderWay, Newcomer;
  }

  lemma QuietTells(s: State, a: Action, t: State, id: JobId)
    requires !Tells(s, a, id)
    requires id in s.table.objects ==> id in t.table.objects && t.table.objects[id].version == s.table.objects[id].version
    ensures ToldRightly(s, a, t, id)
  {
    hide Tells;
  }

  lemma EndTells(s: State, r: RunId, now: int, order: seq<JobId>, id: JobId)
    requires Inv(s) && Candidates(EndRun(Tick(s, now), r), order, now)
    ensures ToldRightly(s, RunEnded(r, now, order), Step(s, RunEnded(r, now, order)), id)
  {
    hide CoreInv, CoveredOk, Candidates, Schedule, FinishResync, ToldRightly, EndRun, Tick;
    var a, t := RunEnded(r, now, order), EndRun(Tick(s, now), r);
    TickKeeps(s, now);
    EndRunKeeps(Tick(s, now), r);
    EndRunFrame(s, r, now, id);
    QuietTells(s, a, t, id);
    ScheduleTells(s, a, t, order, now, id);
    FinishTells(s, a, Schedule(t, order, now), id);
  }

  lemma EndRunFrame(s: State, r: RunId, now: int, id: JobId)
    ensures var t := EndRun(Tick(s, now), r);
      && t.log.clock == now
      && (id in s.table.objects ==> id in t.table.objects && t.table.objects[id].version == s.table.objects[id].version)
  {}

  lemma SettleFrameOne(s: State, r: RunId, ok: bool, id: JobId)
    ensures var t := Settle(s, r, ok);
      id in s.table.objects ==> id in t.table.objects && t.table.objects[id].version == s.table.objects[id].version
  {}

  lemma ReleaseFrameOne(s: State, released: JobId, id: JobId)
    ensures var t := Release(s, released);
      id in s.table.objects ==> id in t.table.objects && t.table.objects[id].version == s.table.objects[id].version
  {}

  lemma FinishFrameOne(s: State, id: JobId)
    ensures FinishResync(s).table == s.table
  {
    hide CaughtUp, AllIdle;
  }

  lemma AnnouncedTells(s: State, scope: Scope, urgent: bool, now: int, order: seq<JobId>, id: JobId)
    requires Inv(s) && Possible(s, Announced(scope, urgent, now, order))
    ensures ToldRightly(s, Announced(scope, urgent, now, order), Step(s, Announced(scope, urgent, now, order)), id)
  {
    hide Inv, CoreInv, Announce, Schedule, Candidates, ToldRightly, Concerned;
    InvIsCore(s);
    AnnounceKeeps(s, scope, urgent, now);
    AnnounceClock(s, scope, urgent, now);
    AnnounceTells(s, scope, urgent, now, id, Announced(scope, urgent, now, order));
    ScheduleTells(s, Announced(scope, urgent, now, order), Announce(s, scope, urgent, now), order, now, id);
  }

  lemma OverflowedTells(s: State, now: int, order: seq<JobId>, id: JobId)
    requires Inv(s) && Possible(s, Overflowed(now, order))
    ensures ToldRightly(s, Overflowed(now, order), Step(s, Overflowed(now, order)), id)
  {
    hide Inv, CoreInv, Announce, Schedule, Candidates, ToldRightly, Concerned;
    var t := s.(link := s.link.(overflowing := true, kind := Resyncing));
    InvIsCore(s);
    RelinkKeepsCore(s, t.link);
    AnnounceKeeps(t, OperationsResync, false, now);
    AnnounceClock(t, OperationsResync, false, now);
    OverflowConcerns(s, t.link, id);
    AnnounceTells(t, OperationsResync, false, now, id, Overflowed(now, order));
    RelinkTells(s, t.link, Overflowed(now, order), Announce(t, OperationsResync, false, now), id);
    ScheduleTells(s, Overflowed(now, order), Announce(t, OperationsResync, false, now), order, now, id);
  }

  lemma OverflowConcerns(s: State, link: Link, id: JobId)
    ensures Concerned(s.(link := link), OperationsResync, id) <==> Concerned(s, OperationsResync, id)
  {}

  lemma RelinkTells(s: State, link: Link, a: Action, t: State, id: JobId)
    requires a.Overflowed? && ToldRightly(s.(link := link), a, t, id)
    ensures ToldRightly(s, a, t, id)
  {
    hide Concerned, Awaits;
    OverflowConcerns(s, link, id);
  }

  lemma SectionTells(s: State, a: Action, id: JobId)
    requires Inv(s) && Possible(s, a)
    ensures ToldRightly(s, a, Step(s, a), id)
  {
    hide Inv, CoreInv, Candidates, Schedule, Announce, RetryJob, Enter, Release, Settle, FinishResync, MarkEvery, EndRun, ToldRightly;
    InvIsCore(s);
    match a
    case Announced(scope, urgent, now, order) => AnnouncedTells(s, scope, urgent, now, order, id);
    case Overflowed(now, order) => OverflowedTells(s, now, order, id);
    case Retried(key, now, order) =>
      if key in s.table.jobs {
        RetryKeeps(s, key, now);
        RetryClock(s, key, now);
        RetryTells(s, key, now, id, a);
        ScheduleTells(s, a, RetryJob(s, key, now), order, now, id);
      } else {
        QuietTells(s, a, s, id);
      }
    case Entered(key, scopes, initial, now, order) =>
      if !NoRoom(s.table, key) {
        EnterKeeps(s, key, scopes, initial, now);
        EnterClock(s, key, scopes, initial, now);
        EnterTells(s, key, scopes, initial, now, id, a);
        ScheduleTells(s, a, Enter(s, key, scopes, initial, now), order, now, id);
      } else {
        QuietTells(s, a, Step(s, a), id);
      }
    case Shown(visible, now, order) =>
      if visible {
        ShownTells(s, now, order, id);
      } else {
        QuietTells(s, a, Step(s, a), id);
      }
    case WakeFired(now, order) =>
      TickKeeps(s, now);
      QuietTells(s, a, Tick(s, now), id);
      ScheduleTells(s, a, Tick(s, now), order, now, id);
    case RunEnded(r, now, order) => EndTells(s, r, now, order, id);
    case BecameReady(displayed, now, order) =>
      if s.link.active {
        ConnectedTells(s, displayed, now, order, id);
      } else {
        QuietTells(s, a, s, id);
      }
    case Released(released) =>
      ReleaseFrameOne(s, released, id);
      QuietTells(s, a, Step(s, a), id);
    case RunSettled(r, ok) =>
      SettleFrameOne(s, r, ok, id);
      QuietTells(s, a, Step(s, a), id);
    case OverflowSynced(version) =>
      FinishFrameOne(s.(link := s.link.(overflowing := false)), id);
      QuietTells(s, a, Step(s, a), id);
    case _ => QuietTells(s, a, Step(s, a), id);
  }

  lemma ShownTells(s: State, now: int, order: seq<JobId>, id: JobId)
    requires Inv(s) && Possible(s, Shown(true, now, order))
    ensures ToldRightly(s, Shown(true, now, order), Step(s, Shown(true, now, order)), id)
  {
    hide Inv, CoreInv, Candidates, Schedule, MarkEvery, ToldRightly;
    var t := s.(link := s.link.(visible := true));
    InvIsCore(s);
    RelinkKeepsCore(s, t.link);
    MarkEveryKeeps(t, now);
    EveryClock(t, now);
    LinkTells(s, t.link, s.log, now, id, Shown(true, now, order));
    ScheduleTells(s, Shown(true, now, order), MarkEvery(t, now), order, now, id);
  }

  lemma EveryClock(s: State, now: int)
    ensures MarkEvery(s, now).log.clock == now
  {}

  lemma ConnectedTells(s: State, displayed: bool, now: int, order: seq<JobId>, id: JobId)
    requires Inv(s) && s.link.active && Possible(s, BecameReady(displayed, now, order))
    ensures ToldRightly(s, BecameReady(displayed, now, order), Step(s, BecameReady(displayed, now, order)), id)
  {
    hide Inv, CoreInv, Candidates, Schedule, FinishResync, MarkEvery, ToldRightly;
    var a, t := BecameReady(displayed, now, order), Connect(s, displayed, now);
    InvIsCore(s);
    ConnectKeeps(s, displayed, now);
    EveryClock(s.(link := s.link.(ready := true, kind := if displayed then Resyncing else Connecting),
                  log := s.log.(connectedAt := s.log.tick)), now);
    LinkTells(s, s.link.(ready := true, kind := if displayed then Resyncing else Connecting),
              s.log.(connectedAt := s.log.tick), now, id, a);
    ScheduleTells(s, a, t, order, now, id);
    FinishTells(s, a, Schedule(t, order, now), id);
  }

  /** Over every run, a section tells exactly the jobs it is to tell. */
  lemma SectionsTellWhomTheyConcern(actions: seq<Action>, a: Action, id: JobId)
    requires Possible(RunAll(INITIAL, actions), a)
    ensures ToldRightly(RunAll(INITIAL, actions), a, RunAll(INITIAL, actions + [a]), id)
  {
    hide *;
    RunAllKeeps(actions);
    RunOneMore(INITIAL, actions, a);
    SectionTells(RunAll(INITIAL, actions), a, id);
  }

  // -- whoever comes later -----------------------------------------------------------------------

  /** A new job in place of whoever had its key. It waits to be run at once, or is being run, exactly if it asks for that
      or one of its scopes has a change that is remembered. */
  ghost predicate EntersRightly(s: State, key: JobKey, scopes: set<Scope>, initial: bool, t: State) {
    && key in t.table.jobs && t.table.jobs[key] == s.ids.job && s.ids.job in t.table.objects
    && var job := t.table.objects[s.ids.job];
    && job.key == key && job.scopes == scopes && !job.flags.retired && job.past.remembered == s.dirty
    && (key in s.table.jobs && s.table.jobs[key] in t.table.objects ==> t.table.objects[s.table.jobs[key]].flags.retired)
    && if initial || exists scope :: scope in scopes && scope in s.dirty then Awaits(t, s.ids.job, 1, true)
       else job.version == 0 && !job.flags.dirty && job.run.None?
  }

  lemma EnterIsRight(s: State, key: JobKey, scopes: set<Scope>, initial: bool, now: int)
    requires CoreInv(s)
    ensures EntersRightly(s, key, scopes, initial, Enter(s, key, scopes, initial, now))
  {
    hide CoreInv, UnderWay;
    NextIsNew(s, key);
    ShareWhen(scopes, s.dirty);
  }

  lemma NextIsNew(s: State, key: JobKey)
    requires CoreInv(s)
    ensures key in s.table.jobs ==> s.table.jobs[key] in s.table.objects && s.table.jobs[key] != s.ids.job
  {
    hide RestOk;
  }

  lemma ShareWhen(scopes: set<Scope>, dirty: set<Scope>)
    ensures scopes * dirty != {} <==> exists scope :: scope in scopes && scope in dirty
  {
    if scope :| scope in scopes && scope in dirty {
      assert scope in scopes * dirty;
    }
  }

  lemma PassKeepsEntered(s: State, key: JobKey, scopes: set<Scope>, initial: bool, t: State, u: State)
    requires EntersRightly(s, key, scopes, initial, t) && PassedOver(t, u, s.ids.job) && SameRoom(t, u)
    requires UnderWay(t, s.ids.job) ==> UnderWay(u, s.ids.job) && u.table.objects[s.ids.job] == t.table.objects[s.ids.job]
    requires key in s.table.jobs ==> PassedOver(t, u, s.table.jobs[key])
    ensures EntersRightly(s, key, scopes, initial, u)
  {}

  lemma RegisteredRightly(s: State, key: JobKey, scopes: set<Scope>, initial: bool, now: int, order: seq<JobId>)
    requires Inv(s) && !NoRoom(s.table, key) && Possible(s, Entered(key, scopes, initial, now, order))
    ensures EntersRightly(s, key, scopes, initial, Step(s, Entered(key, scopes, initial, now, order)))
  {
    hide Inv, CoreInv, Candidates, Schedule, Enter, NoRoom, EntersRightly, PassedOver, UnderWay, SameRoom;
    var t := Enter(s, key, scopes, initial, now);
    InvIsCore(s);
    EnterKeeps(s, key, scopes, initial, now);
    EnterClock(s, key, scopes, initial, now);
    EnterIsRight(s, key, scopes, initial, now);
    ScheduleStarts(t, order, now, s.ids.job);
    if key in s.table.jobs {
      ScheduleStarts(t, order, now, s.table.jobs[key]);
    }
    ScheduleKeepsRoom(t, order, now);
    PassKeepsEntered(s, key, scopes, initial, t, Schedule(t, order, now));
  }

  lemma ScheduleKeepsRoom(s: State, order: seq<JobId>, now: int)
    ensures SameRoom(s, Schedule(s, order, now))
  {
    hide Pass;
    PassKeepsKeys(s.(wake := None), order, now, None);
  }

  /** What is remembered stands for changes of this scope. */
  predicate Stands(dirty: set<Scope>, scope: Scope) { scope in dirty || (scope.OperationOf? && Operations in dirty) }

  /** An announced change is remembered, under its own scope while there is room. */
  lemma AnnouncedIsRemembered(s: State, scope: Scope, urgent: bool, now: int, order: seq<JobId>)
    requires Possible(s, Announced(scope, urgent, now, order))
    ensures var t := Step(s, Announced(scope, urgent, now, order));
      && Stands(t.dirty, scope)
      && (|s.dirty| < DIRTY_KEYS || scope in s.dirty || !scope.OperationOf? ==> scope in t.dirty)
  {
    hide Candidates, Schedule, MarkConcerned;
    ScheduleFrame(Announce(s, scope, urgent, now), order, now);
  }

  /** The sections that look whether everything is up to date: the end of a run, of connecting, and of reading the
      operations that overflowed. */
  ghost predicate Finishes(s: State, a: Action) {
    match a
    case RunEnded(r, now, order) => true
    case BecameReady(displayed, now, order) => s.link.active
    case OverflowSynced(version) => version == s.link.overflowVersion
    case _ => false
  }

  /** What is shown while a section goes on, before it looks whether everything is up to date. */
  ghost function KindBefore(s: State, a: Action): Kind {
    if a.BecameReady? then if a.displayed then Resyncing else Connecting else s.link.kind
  }

  /** A section that looks forgets exactly the changes that everyone who shows them has read, and shows ready exactly if the
      connection is ready, no operation overflowed, and no registered job is marked or running. What is still
      remembered, because nobody shows it, does not matter for that. */
  ghost predicate FinishedRightly(s: State, a: Action, t: State) {
    && (forall scope :: scope in t.dirty <==> scope in s.dirty && !CaughtUp(t.table, scope))
    && (t.link.kind.Ready? <==>
          || KindBefore(s, a).Ready?
          || (t.link.ready && !t.link.overflowing && (KindBefore(s, a).Resyncing? || KindBefore(s, a).Connecting?)
              && forall k | k in t.table.jobs && t.table.jobs[k] in t.table.objects :: Idle(t.table.objects[t.table.jobs[k]])))
    && (!t.link.kind.Ready? ==> t.link.kind == KindBefore(s, a))
  }

  lemma FinishResyncIsRight(s: State, a: Action, t: State)
    requires t.dirty == s.dirty && t.link.kind == KindBefore(s, a)
    ensures FinishedRightly(s, a, FinishResync(t))
  {
    hide CaughtUp, KindBefore;
  }

  /** Over every run, such a section finishes rightly. */
  lemma SectionsFinishRightly(actions: seq<Action>, a: Action)
    requires Possible(RunAll(INITIAL, actions), a) && Finishes(RunAll(INITIAL, actions), a)
    ensures FinishedRightly(RunAll(INITIAL, actions), a, RunAll(INITIAL, actions + [a]))
  {
    RunOneMore(INITIAL, actions, a);
    hide RunAll;
    var s := RunAll(INITIAL, actions);
    SectionFinishesRightly(s, a);
  }

  lemma SectionFinishesRightly(s: State, a: Action)
    requires Possible(s, a) && Finishes(s, a)
    ensures FinishedRightly(s, a, Step(s, a))
  {
    hide Candidates, Schedule, FinishResync, MarkAll, FinishedRightly, SettleJob;
    match a
    case RunEnded(r, now, order) =>
      ScheduleFrame(EndRun(Tick(s, now), r), order, now);
      FinishResyncIsRight(s, a, Schedule(EndRun(Tick(s, now), r), order, now));
    case BecameReady(displayed, now, order) =>
      ScheduleFrame(Connect(s, displayed, now), order, now);
      FinishResyncIsRight(s, a, Schedule(Connect(s, displayed, now), order, now));
    case OverflowSynced(version) => FinishResyncIsRight(s, a, s.(link := s.link.(overflowing := false)));
  }

  /** Everyone who shows the scope, or everyone who shows the operations it is one of, has nothing left to read. */
  ghost predicate CaughtUpWith(table: Table, scope: Scope) {
    CaughtUp(table, scope) || (scope.OperationOf? && CaughtUp(table, Operations))
  }

  /** A change is forgotten by a section that finds it caught up with, and by no other. */
  lemma ForgottenWhenCaughtUp(s: State, a: Action, scope: Scope)
    requires Stands(s.dirty, scope) && !Stands(Step(s, a).dirty, scope)
    ensures Finishes(s, a) && CaughtUpWith(Step(s, a).table, scope)
    ensures scope in s.dirty ==> CaughtUp(Step(s, a).table, scope)
  {
    hide Candidates, Schedule, Retire, Newcomer, MarkConcerned, MarkAll, CaughtUp, SettleJob, AllIdle;
    if a.Announced? || a.Retried? || a.Entered? || a.Shown? || a.WakeFired? || a.RunEnded? || a.BecameReady? || a.Overflowed? {
      forall t: State | Candidates(t, a.order, a.now)
        ensures Schedule(t, a.order, a.now).dirty == t.dirty
      {
        ScheduleFrame(t, a.order, a.now);
      }
    }
  }

  /** Over a whole run, a change that is remembered stays so until a moment at which it is caught up with. */
  lemma {:induction false} RememberedUntilServed(s: State, more: seq<Action>, scope: Scope) returns (n: nat)
    requires Stands(s.dirty, scope) && !Stands(RunAll(s, more).dirty, scope)
    ensures 0 < n <= |more| && CaughtUpWith(RunAll(s, more[..n]).table, scope)
    ensures Finishes(RunAll(s, more[..n - 1]), more[n - 1])
  {
    hide Step, Stands, CaughtUpWith, Finishes;
    var before := more[..|more| - 1];
    assert more[..|more|] == more;
    if Stands(RunAll(s, before).dirty, scope) {
      ForgottenWhenCaughtUp(RunAll(s, before), more[|more| - 1], scope);
      n := |more|;
    } else {
      n := RememberedUntilServed(s, before, scope);
      assert before[..n] == more[..n] && before[..n - 1] == more[..n - 1];
    }
  }

  /** A change that was announced when the memory was full is no change to an operation's job that registers later. */
  lemma FullMemoryForgetsOperations(s: State, id: string, urgent: bool, now: int, order: seq<JobId>, later: seq<JobId>)
    requires Inv(s) && |s.dirty| >= DIRTY_KEYS && OperationOf(id) !in s.dirty && !NoRoom(s.table, OperationJob(id))
    requires Possible(s, Announced(OperationOf(id), urgent, now, order))
    requires Possible(Step(s, Announced(OperationOf(id), urgent, now, order)), Entered(OperationJob(id), {OperationOf(id)}, false, now, later))
    ensures var told := Step(s, Announced(OperationOf(id), urgent, now, order));
      var t := Step(told, Entered(OperationJob(id), {OperationOf(id)}, false, now, later));
      && told.ids.job in t.table.objects && Idle(t.table.objects[told.ids.job])
  {
    hide Inv, Candidates, Schedule, MarkConcerned, Enter, UnderWay, Idle;
    var told := Step(s, Announced(OperationOf(id), urgent, now, order));
    StepKeeps(s, Announced(OperationOf(id), urgent, now, order));
    ScheduleFrame(Announce(s, OperationOf(id), urgent, now), order, now);
    AnnouncedKeepsKeys(s, OperationOf(id), urgent, now, order);
    assert OperationOf(id) !in told.dirty;
    RegisteredRightly(told, OperationJob(id), {OperationOf(id)}, false, now, later);
    IdleIsUnmarked(Step(told, Entered(OperationJob(id), {OperationOf(id)}, false, now, later)), told.ids.job);
  }

  lemma IdleIsUnmarked(s: State, id: JobId)
    requires id in s.table.objects && !s.table.objects[id].flags.dirty && s.table.objects[id].run.None?
    ensures Idle(s.table.objects[id])
  {}

  ghost function Overflows(invalidations: seq<Invalidation>): nat {
    if invalidations == [] then 0
    else Overflows(invalidations[..|invalidations| - 1]) + if invalidations[|invalidations| - 1].scope.OperationsResync? then 1 else 0
  }

  lemma OneMoreOverflow(invalidations: seq<Invalidation>, entry: Invalidation)
    ensures Overflows(invalidations + [entry]) == Overflows(invalidations) + if entry.scope.OperationsResync? then 1 else 0
  {
    assert (invalidations + [entry])[..|invalidations|] == invalidations;
  }

  lemma {:induction false} PassKeepsLog(s: State, order: seq<JobId>, now: int, next: Option<int>)
    ensures var t := Pass(s, order, now, next).0; t.log.invalidations == s.log.invalidations && t.link == s.link
    decreases |order|
  {
    hide Due, SlotsFull, StartJob;
    if order != [] && order[0] in s.table.objects {
      var due := Due(s.table.objects[order[0]], now);
      PassKeepsLog(s, order[1..], now, if due > now && (next.None? || due < next.value) then Some(due) else next);
      PassKeepsLog(Launch(s, order[0], now), order[1..], now, next);
    }
  }

  lemma ScheduleKeepsLog(s: State, order: seq<JobId>, now: int)
    ensures var t := Schedule(s, order, now); t.log.invalidations == s.log.invalidations && t.link == s.link
  {
    hide Pass;
    PassKeepsLog(s.(wake := None), order, now, None);
  }

  /** Whether operations are known to have overflowed after a section. */
  ghost predicate OverflowingAfter(s: State, a: Action) {
    a.Overflowed? || (s.link.overflowing && !(a.OverflowSynced? && a.version == Overflows(s.log.invalidations)))
  }

  lemma StepCountsOverflows(s: State, a: Action)
    requires s.link.overflowVersion == Overflows(s.log.invalidations) && Possible(s, a)
    ensures var t := Step(s, a);
      t.link.overflowVersion == Overflows(t.log.invalidations) && (t.link.overflowing <==> OverflowingAfter(s, a))
  {
    hide Candidates, Schedule, Newcomer, Retire, MarkConcerned, MarkAll, CaughtUp, SettleJob, AllIdle, Overflows, Remembered;
    if a.Announced? || a.Retried? || a.Entered? || a.Shown? || a.WakeFired? || a.RunEnded? || a.BecameReady? || a.Overflowed? {
      forall t: State
        ensures Schedule(t, a.order, a.now).log.invalidations == t.log.invalidations && Schedule(t, a.order, a.now).link == t.link
      {
        ScheduleKeepsLog(t, a.order, a.now);
      }
    }
    if a.Announced? {
      OneMoreOverflow(s.log.invalidations, Invalidation(s.log.tick + 1, a.scope));
    } else if a.Overflowed? {
      OneMoreOverflow(s.log.invalidations, Invalidation(s.log.tick + 1, OperationsResync));
    }
  }

  /** Every section of the run is possible. */
  ghost predicate AllPossible(actions: seq<Action>) {
    forall i | 0 <= i < |actions| :: Possible(RunAll(INITIAL, actions[..i]), actions[i])
  }

  lemma {:induction false} RunCountsOverflows(actions: seq<Action>)
    requires AllPossible(actions)
    ensures RunAll(INITIAL, actions).link.overflowVersion == Overflows(RunAll(INITIAL, actions).log.invalidations)
  {
    hide Step, Possible;
    if actions != [] {
      var before := actions[..|actions| - 1];
      assert forall i | 0 <= i < |before| :: before[..i] == actions[..i];
      RunCountsOverflows(before);
      StepCountsOverflows(RunAll(INITIAL, before), actions[|actions| - 1]);
    }
  }

  /** Over every run: the operations that overflowed count as read anew exactly when that is said of a version that no
      further one has overflowed after. */
  lemma OverflowEndsWhenSynced(actions: seq<Action>, a: Action)
    requires AllPossible(actions) && Possible(RunAll(INITIAL, actions), a)
    ensures RunAll(INITIAL, actions + [a]).link.overflowing <==> OverflowingAfter(RunAll(INITIAL, actions), a)
  {
    hide Step, Possible, OverflowingAfter, Overflows;
    RunCountsOverflows(actions);
    RunOneMore(INITIAL, actions, a);
    StepCountsOverflows(RunAll(INITIAL, actions), a);
  }

  /** Capacity, over every run: at most 5000 jobs and 4936 of operations, at most four runs and three normal
      ones, with exact counters through replacement, double release and retirement; no job runs twice at once. */
  lemma {:induction false} CapacityIsKept(actions: seq<Action>, r: RunId, q: RunId)
    ensures var s := RunAll(INITIAL, actions);
      && |s.table.jobs| <= CACHED_ROWS
      && s.table.operationJobs == |set k | k in s.table.jobs && k.OperationJob?| <= OPERATION_JOBS
      && s.slots.running == |s.slots.runs| <= CONCURRENCY
      && s.slots.normal == |set q | q in s.slots.runs && !s.slots.runs[q].urgent| <= NORMAL_CONCURRENCY
      && (r in s.slots.runs && q in s.slots.runs && s.slots.runs[r].job == s.slots.runs[q].job ==> r == q)
  {
    RunAllKeeps(actions);
    var s := RunAll(INITIAL, actions);
    hide JobsOk, HeardOk, ConnectedOk, TimesOk, CoveredOk, RunAll;
    assert OperationKeys(s.table.jobs) == set k | k in s.table.jobs && k.OperationJob?;
    assert NormalRuns(s.slots.runs) == set q | q in s.slots.runs && !s.slots.runs[q].urgent;
  }

  /** Progress, over every run: while connected and visible, a job that could run either finds no slot, and
      the end of a run will look for it, or the timer fires no later than it is due. With no run under way
      and no timer set nothing is left to do. */
  lemma {:induction false} NothingIsLeftWaiting(actions: seq<Action>, id: JobId)
    requires Working(RunAll(INITIAL, actions).link)
    requires id in RunAll(INITIAL, actions).table.objects && Eligible(RunAll(INITIAL, actions).table.objects[id])
    ensures var s := RunAll(INITIAL, actions); var job := s.table.objects[id];
      && (SlotsFull(s.slots.running, s.slots.normal, job.flags.urgent)
          || (!job.flags.urgent && s.wake.Some? && s.wake.value <= Due(job, 0) <= job.first + MAX_WAIT_MS))
      && (s.slots.runs != map[] || s.wake.Some?)
  {
    RunAllKeeps(actions);
    var s := RunAll(INITIAL, actions);
    hide TableOk, JobsOk, HeardOk, ConnectedOk, TimesOk, RunAll, Step;
    assert Awaited(s.table.objects[id], s.slots.running, s.slots.normal, s.wake);
    if s.slots.runs == map[] {
      assert NormalRuns(s.slots.runs) == {};
    }
  }

  /** Timing, over every run: a job that is not urgent starts no sooner than the merge time after its first
      unserved mark, and if the clock never went back, no sooner than the interval after its last start,
      unless it was only dirty because that run failed. */
  lemma {:induction false} StartsAreSpaced(actions: seq<Action>, i: nat)
    requires i < |RunAll(INITIAL, actions).log.launches| && !RunAll(INITIAL, actions).log.launches[i].urgent
    ensures var log := RunAll(INITIAL, actions).log; var l := log.launches[i];
      && l.first + MERGE_MS <= l.now
      && (log.steady && l.last.Some? && !l.stale ==> l.last.value + INTERVAL_MS <= l.now)
  {
    RunAllKeeps(actions);
    hide TableOk, RunsOk, JobsOk, HeardOk, ConnectedOk, CoveredOk, RunAll, JobTimed;
    assert TimedLaunch(RunAll(INITIAL, actions).log.launches[i], RunAll(INITIAL, actions).log.steady);
  }

  /** A job's time is between the merge time and the longest wait after its first unserved mark, and respects
      the interval exactly when that mark is not too long before its last start. */
  lemma SpacingIsExact(job: Job, now: int)
    requires !job.flags.urgent
    ensures job.first + MERGE_MS <= Due(job, now) <= job.first + MAX_WAIT_MS
    ensures job.last.Some? ==> (job.last.value + INTERVAL_MS <= Due(job, now) <==> job.last.value <= job.first + INTERVAL_MS)
  {}

  // A run of the scheduler in which a job is started late, fails, and is marked again.
  const PAGE := PageJob("")
  const CLEAN := Unmarked(PAGE, {Projects}, 2, {})
  const MARKED := Mark(CLEAN, false, 0, 3)
  const LATE := StartJob(MARKED, 400, 0)
  const LATE_RUN := Run(0, 1, false, 5, None)
  const FAILED := SettleJob(LATE, LATE_RUN, false)
  const REMARKED := Mark(FAILED.(run := None), false, 450, 7)
  const LATE_LAUNCH := Launched(400, false, 0, None, false)
  const EARLY_LAUNCH := Launched(500, false, 0, Some(400), true)

  const SHOWN := State(Link(true, true, true, Ready, false, 0), Table(map[], map[], 0), Slots(map[], 0, 0), {}, false, None, Ids(0, 0),
                       Log(1, [], [], 0, true, 0))
  const WITH_PAGE := SHOWN.(table := Table(map[PAGE := 0], map[0 := CLEAN], 0), ids := Ids(1, 0), log := Log(2, [], [], 0, true, 0))
  const TOLD := WITH_PAGE.(table := Table(map[PAGE := 0], map[0 := MARKED], 0), dirty := {Projects}, wake := Some(100),
                           log := Log(3, [Invalidation(3, Projects)], [], 0, true, 0))
  const RUNNING := TOLD.(table := Table(map[PAGE := 0], map[0 := LATE], 0), slots := Slots(map[0 := LATE_RUN], 1, 1), ids := Ids(1, 1),
                         wake := None, log := Log(5, [Invalidation(3, Projects)], [LATE_LAUNCH], 400, true, 0))
  const REJECTED := RUNNING.(table := Table(map[PAGE := 0], map[0 := FAILED], 0),
                             slots := Slots(map[0 := LATE_RUN.(settled := Some(false))], 1, 1))
  const BLOCKED := REJECTED.(table := Table(map[PAGE := 0], map[0 := FAILED.(run := None)], 0), slots := Slots(map[], 0, 0),
                             log := Log(6, [Invalidation(3, Projects)], [LATE_LAUNCH], 410, true, 0))
  const TOLD_AGAIN := BLOCKED.(table := Table(map[PAGE := 0], map[0 := REMARKED], 0), wake := Some(500),
                               log := Log(7, [Invalidation(3, Projects), Invalidation(7, Projects)], [LATE_LAUNCH], 450, true, 0))

  lemma PageEnters()
    ensures Step(Step(INITIAL, Started), BecameReady(false, 0, [])) == SHOWN
    ensures Step(SHOWN, Entered(PAGE, {Projects}, false, 0, [])) == WITH_PAGE
  {
    ConnectsEmpty();
    EntersUnmarked();
  }

  lemma ConnectsEmpty()
    ensures Step(Step(INITIAL, Started), BecameReady(false, 0, [])) == SHOWN
  {
    var t := Connect(INITIAL.(link := INITIAL.link.(active := true)), false, 0);
    assert Candidates(t, [], 0) && AllIdle(t.table);
  }

  lemma EntersUnmarked()
    ensures Step(SHOWN, Entered(PAGE, {Projects}, false, 0, [])) == WITH_PAGE
  {
    assert {Projects} * SHOWN.dirty == {};
    assert Enter(SHOWN, PAGE, {Projects}, false, 0) == WITH_PAGE && Candidates(WITH_PAGE, [], 0);
  }

  /** A pass over the only job there is. */
  lemma PassOverOne(s: State, t: State, job: Job, now: int)
    requires Working(t.link) && t.table.objects == map[0 := job] && Eligible(job)
    ensures Due(job, now) > now ==> Scheduled(s, t, [0], now) == t.(wake := Some(Due(job, now)))
    ensures Due(job, now) <= now && !SlotsFull(t.slots.running, t.slots.normal, job.flags.urgent) ==>
      Scheduled(s, t, [0], now) == Launch(t, 0, now).(wake := None)
  {
    var u := t.(wake := None);
    assert Candidates(t, [0], now) && [0][1..] == [];
    assert Pass(u, [], now, Some(Due(job, now))) == (u, Some(Due(job, now)));
    hide Due;
    if Due(job, now) <= now && !SlotsFull(t.slots.running, t.slots.normal, job.flags.urgent) {
      assert Pass(u, [0], now, None) == Pass(Launch(u, 0, now), [], now, None) == (Launch(u, 0, now), None);
    } else if Due(job, now) > now {
      assert Pass(u, [0], now, None) == (u, Some(Due(job, now)));
    }
  }

  lemma StepSchedules(s: State, now: int)
    ensures Step(s, Announced(Projects, false, now, [0])) == Scheduled(s, Announce(s, Projects, false, now), [0], now)
    ensures Step(s, WakeFired(now, [0])) == Scheduled(s, Tick(s, now), [0], now)
  {
    hide Scheduled, Announce, Tick;
  }

  lemma MarkedIsDueLater()
    ensures Step(WITH_PAGE, Announced(Projects, false, 0, [0])) == TOLD
  {
    var marked := Announce(WITH_PAGE, Projects, false, 0);
    assert marked == TOLD.(wake := None) by {
      assert marked.table.objects == map[0 := MARKED];
    }
    assert Due(MARKED, 0) == 100 && Eligible(MARKED);
    hide Announce, Step, Scheduled;
    StepSchedules(WITH_PAGE, 0);
    PassOverOne(WITH_PAGE, marked, MARKED, 0);
  }

  lemma MarkedIsStartedLate()
    ensures Step(TOLD, WakeFired(400, [0])) == RUNNING
  {
    var ticked := Tick(TOLD, 400);
    assert Due(MARKED, 400) == 100 && Eligible(MARKED) && ticked.table.objects == map[0 := MARKED];
    assert Launch(ticked, 0, 400).(wake := None) == RUNNING by {
      assert map[0 := MARKED][0 := LATE] == map[0 := LATE];
    }
    hide Tick, Step, Scheduled, Launch;
    StepSchedules(TOLD, 400);
    PassOverOne(TOLD, ticked, MARKED, 400);
  }

  lemma FailureBlocks()
    ensures Step(RUNNING, RunSettled(0, false)) == REJECTED
  {
    assert map[0 := LATE][0 := FAILED] == map[0 := FAILED];
  }

  lemma BlockedIsNoCandidate()
    ensures Candidates(BLOCKED, [], 410) && Schedule(BLOCKED, [], 410) == BLOCKED && FinishResync(BLOCKED) == BLOCKED
  {
    assert Covering(BLOCKED.table, Projects, PAGE) && !CaughtUp(BLOCKED.table, Projects);
    assert FinishResync(BLOCKED).dirty == BLOCKED.dirty;
  }

  lemma RunIsOff()
    ensures EndRun(Tick(REJECTED, 410), 0) == BLOCKED
  {
    hide SettleJob, StartJob, Mark;
    assert map[0 := FAILED][0 := FAILED.(run := None)] == map[0 := FAILED.(run := None)];
  }

  lemma FailureEnds()
    ensures Step(REJECTED, RunEnded(0, 410, [])) == BLOCKED
  {
    hide EndRun, Tick, Candidates, Schedule, FinishResync;
    RunIsOff();
    BlockedIsNoCandidate();
  }

  lemma RemarkedIsDueSoon()
    ensures Step(BLOCKED, Announced(Projects, false, 450, [0])) == TOLD_AGAIN
  {
    var marked := Announce(BLOCKED, Projects, false, 450);
    assert marked == TOLD_AGAIN.(wake := None) by {
      assert marked.table.objects == map[0 := REMARKED];
      assert {Projects} + {Projects} == {Projects};
    }
    assert Due(REMARKED, 450) == 500 && Eligible(REMARKED);
    hide Announce, Step, Scheduled;
    StepSchedules(BLOCKED, 450);
    PassOverOne(BLOCKED, marked, REMARKED, 450);
  }

  lemma RemarkedIsStartedEarly()
    ensures Step(TOLD_AGAIN, WakeFired(500, [0])).log.launches == [LATE_LAUNCH, EARLY_LAUNCH]
    ensures Step(TOLD_AGAIN, WakeFired(500, [0])).log.steady
  {
    var ticked := Tick(TOLD_AGAIN, 500);
    assert Due(REMARKED, 500) == 500 && Eligible(REMARKED) && ticked.table.objects == map[0 := REMARKED];
    assert Launch(ticked, 0, 500).log.launches == [LATE_LAUNCH, EARLY_LAUNCH] && Launch(ticked, 0, 500).log.steady;
    hide Tick, Step, Scheduled, Launch;
    StepSchedules(TOLD_AGAIN, 500);
    PassOverOne(TOLD_AGAIN, ticked, REMARKED, 500);
  }

  lemma RunOne(a: Action)
    ensures RunAll(INITIAL, [a]) == Step(INITIAL, a)
  {
    hide Step;
    assert [a][..0] == [];
  }

  /** The interval can be missed, under a steady clock: a job marked at 0 is started late, at 400. Its run fails, its scope is
      announced again at 450, and the job is started at 500, since the first mark still counts. */
  lemma FailedRunRestartsEarly()
    ensures var log := RunAll(INITIAL, [Started] + [BecameReady(false, 0, [])] + [Entered(PAGE, {Projects}, false, 0, [])]
        + [Announced(Projects, false, 0, [0])] + [WakeFired(400, [0])] + [RunSettled(0, false)] + [RunEnded(0, 410, [])]
        + [Announced(Projects, false, 450, [0])] + [WakeFired(500, [0])]).log;
      && log.launches == [LATE_LAUNCH, EARLY_LAUNCH] && log.steady
      && EARLY_LAUNCH.last == Some(LATE_LAUNCH.now) && EARLY_LAUNCH.now < LATE_LAUNCH.now + INTERVAL_MS
  {
    PageEnters();
    MarkedIsDueLater();
    MarkedIsStartedLate();
    FailureBlocks();
    FailureEnds();
    RemarkedIsDueSoon();
    RemarkedIsStartedEarly();
    var a := [Started];
    var b := a + [BecameReady(false, 0, [])];
    var c := b + [Entered(PAGE, {Projects}, false, 0, [])];
    var d := c + [Announced(Projects, false, 0, [0])];
    var e := d + [WakeFired(400, [0])];
    var f := e + [RunSettled(0, false)];
    var g := f + [RunEnded(0, 410, [])];
    var h := g + [Announced(Projects, false, 450, [0])];
    hide RunAll, Step;
    assert RunAll(INITIAL, a) == Step(INITIAL, Started) by { RunOne(Started); }
    RunOneMore(INITIAL, a, BecameReady(false, 0, []));
    RunOneMore(INITIAL, b, Entered(PAGE, {Projects}, false, 0, []));
    RunOneMore(INITIAL, c, Announced(Projects, false, 0, [0]));
    RunOneMore(INITIAL, d, WakeFired(400, [0]));
    RunOneMore(INITIAL, e, RunSettled(0, false));
    RunOneMore(INITIAL, f, RunEnded(0, 410, []));
    RunOneMore(INITIAL, g, Announced(Projects, false, 450, [0]));
    RunOneMore(INITIAL, h, WakeFired(500, [0]));
  }

  /** While a slot is taken, a job in front of the queue does not change. */
  lemma {:induction false} PassBlocked(s: State, order: seq<JobId>, now: int, next: Option<int>, id: JobId)
    requires AllEligible(s.table.objects, order) && id in order && (next.Some? ==> next.value > now)
    requires SlotsFull(s.slots.running, s.slots.normal, s.table.objects[id].flags.urgent)
    ensures id in Pass(s, order, now, next).0.table.objects && Pass(s, order, now, next).0.table.objects[id] == s.table.objects[id]
    decreases |order|
  {
    hide Due, Handled;
    assert AllEligible(s.table.objects, order[1..]) && order[0] !in order[1..];
    var job := s.table.objects[order[0]];
    if Due(job, now) <= now && !SlotsFull(s.slots.running, s.slots.normal, job.flags.urgent) {
      PassBlocked(Launch(s, order[0], now), order[1..], now, next, id);
    } else {
      var due := Due(job, now);
      var next' := if due > now && (next.None? || due < next.value) then Some(due) else next;
      if id == order[0] {
        PassHandles(s, order[1..], now, next');
      } else {
        PassBlocked(s, order[1..], now, next', id);
      }
    }
  }

  /** A pass is fair: a job whose time has come is only overtaken for a slot by an urgent one, when the normal
      slots are taken. */
  lemma {:induction false} PassIsFair(s: State, order: seq<JobId>, now: int, next: Option<int>, i: nat, j: nat)
    requires AllEligible(s.table.objects, order) && i < j < |order| && (next.Some? ==> next.value > now)
    requires var t := Pass(s, order, now, next).0;
      && order[i] in t.table.objects && Eligible(t.table.objects[order[i]]) && Due(s.table.objects[order[i]], now) <= now
      && order[j] in t.table.objects && !Eligible(t.table.objects[order[j]])
    ensures s.table.objects[order[j]].flags.urgent && !s.table.objects[order[i]].flags.urgent
    decreases |order|
  {
    hide Due, Handled;
    var job := s.table.objects[order[0]];
    assert AllEligible(s.table.objects, order[1..]) && order[0] !in order[1..];
    assert order[j] == order[1..][j - 1];
    if Due(job, now) <= now && !SlotsFull(s.slots.running, s.slots.normal, job.flags.urgent) {
      PassHandles(Launch(s, order[0], now), order[1..], now, next);
      if i > 0 {
        assert order[i] == order[1..][i - 1];
        PassIsFair(Launch(s, order[0], now), order[1..], now, next, i - 1, j - 1);
      }
    } else if i > 0 {
      assert order[i] == order[1..][i - 1];
      var due := Due(job, now);
      PassIsFair(s, order[1..], now, if due > now && (next.None? || due < next.value) then Some(due) else next, i - 1, j - 1);
    } else if SlotsFull(s.slots.running, s.slots.normal, s.table.objects[order[j]].flags.urgent) {
      PassBlocked(s, order, now, next, order[j]);
    }
  }

  // ---------------------------------------------------------------------------------------------
  // The scheduler
  // ---------------------------------------------------------------------------------------------

  /** The part of the coordinator that keeps views up to date. Its methods are its synchronous sections, and
      each does to the scheduler what the step of the same section does to its value. */
  class JobScheduler {
    var link: Link
    var table: Table
    var slots: Slots
    var dirty: set<Scope>
    var pendingObservers: bool
    var wake: Option<int>
    var ids: Ids
    var log: Log

    ghost function Snapshot(): State
      reads this
    { State(link, table, slots, dirty, pendingObservers, wake, ids, log) }

    ghost predicate Valid()
      reads this
    { Inv(Snapshot()) }

    constructor ()
      ensures Valid() && Snapshot() == INITIAL
    {
      link, table := Link(false, false, true, Connecting, false, 0), Table(map[], map[], 0);
      slots, dirty, pendingObservers, wake := Slots(map[], 0, 0), {}, false, None;
      ids, log := Ids(0, 0), Log(0, [], [], 0, true, 0);
      new;
      RunAllKeeps([]);
    }

    method Clock(now: int)
      modifies `log
      ensures Snapshot() == Tick(old(Snapshot()), now)
    {
      log := log.(tick := log.tick + 1, clock := now, steady := log.steady && log.clock <= now);
    }

    /** The candidates of a pass, sorted. */
    method SortCandidates(now: int) returns (order: seq<JobId>)
      requires TableOk(table.jobs, table.objects, table.operationJobs, ids.job)
      ensures Candidates(Snapshot(), order, now)
    {
      var remaining := set k | k in table.jobs && table.jobs[k] in table.objects && Eligible(table.objects[table.jobs[k]]) :: table.jobs[k];
      ghost var all := remaining;
      assert forall id | id in table.objects && Eligible(table.objects[id]) :: id in all;
      order := [];
      while remaining != {}
        invariant remaining <= all && forall id | id in all :: id in table.objects && Eligible(table.objects[id])
        invariant forall id :: id in order <==> id in all && id !in remaining
        invariant SortedJobs(table.objects, order, now)
      {
        var id :| id in remaining;
        var at := 0;
        while at < |order| && NotAfter(table.objects[order[at]], table.objects[id], now)
          invariant at <= |order|
          invariant forall i | 0 <= i < at :: NotAfter(table.objects[order[i]], table.objects[id], now)
        {
          at := at + 1;
        }
        InsertKeepsSorted(table.objects, order, now, id, at);
        order := order[..at] + [id] + order[at..];
        remaining := remaining - {id};
      }
    }

    /** One pass over the jobs: starts what is due and has a slot, and sets the timer for what is due next. */
    method ScheduleJobs(now: int) returns (ghost order: seq<JobId>)
      requires TableOk(table.jobs, table.objects, table.operationJobs, ids.job)
      modifies `wake, `table, `slots, `ids, `log
      ensures Candidates(old(Snapshot()), order, now) && Snapshot() == Schedule(old(Snapshot()), order, now)
    {
      hide TableOk, Due, SlotsFull, Candidates, Handled, AllEligible;
      var candidates := SortCandidates(now);
      order := candidates;
      wake := None;
      if !link.active || !link.ready || !link.visible {
        return;
      }
      ghost var s := Snapshot();
      CandidatesExist(old(Snapshot()), candidates, now);
      PassHandles(s, candidates, now, None);
      var next := None;
      for i := 0 to |candidates|
        invariant link == old(link) && dirty == old(dirty) && pendingObservers == old(pendingObservers) && wake == None
        invariant forall id | id in s.table.objects :: id in table.objects
        invariant Pass(Snapshot(), candidates[i..], now, next) == Pass(s, candidates, now, None)
      {
        assert candidates[i..][0] == candidates[i] && candidates[i..][1..] == candidates[i + 1..];
        var id := candidates[i];
        var due := Due(table.objects[id], now);
        if due > now {
          next := if next.None? || due < next.value then Some(due) else next;
        } else if !SlotsFull(slots.running, slots.normal, table.objects[id].flags.urgent) {
          StartRun(id, now);
        }
      }
      assert candidates[|candidates|..] == [];
      if next.Some? {
        wake := Some(now + if next.value - now > 1 then next.value - now else 1);
      }
    }

    method StartRun(id: JobId, now: int)
      requires id in table.objects
      modifies `table, `slots, `ids, `log
      ensures Snapshot() == Launch(old(Snapshot()), id, now)
    {
      var job, run := table.objects[id], ids.run;
      slots := Slots(slots.runs[run := Run(id, job.version, job.flags.urgent, log.tick + 1, None)], slots.running + 1,
                     if job.flags.urgent then slots.normal else slots.normal + 1);
      table := table.(objects := table.objects[id := job.(
        flags := Flags(false, job.flags.blocked, false, job.flags.retired), last := Some(now), run := Some(run),
        past := job.past.(stale := false))]);
      log := log.(tick := log.tick + 1, launches := log.launches + [Launched(now, job.flags.urgent, job.first, job.last, job.past.stale)]);
      ids := ids.(run := run + 1);
    }

    /** Forgets changes whose readers have caught up, and shows ready once nothing is left to do. */
    method FinishResyncing()
      modifies `dirty, `link
      ensures Snapshot() == FinishResync(old(Snapshot()))
    {
      hide CaughtUp, AllIdle;
      var remaining := dirty;
      while remaining != {}
        invariant remaining <= dirty <= old(dirty) && link == old(link)
        invariant forall scope | scope in old(dirty) && scope !in remaining :: scope in dirty <==> !CaughtUp(table, scope)
      {
        var scope :| scope in remaining;
        if CaughtUp(table, scope) {
          dirty := dirty - {scope};
        }
        remaining := remaining - {scope};
      }
      if link.ready && !link.overflowing && (link.kind.Resyncing? || link.kind.Connecting?) && AllIdle(table) {
        link := link.(kind := Ready);
      }
    }

    // -- the sections --------------------------------------------------------------------------------

    /** Something changed: whoever shows it is marked, and it is remembered for whoever will. */
    method Invalidate(scope: Scope, urgent: bool, now: int) returns (ghost order: seq<JobId>)
      requires Valid()
      modifies this
      ensures Valid() && Snapshot() == Step(old(Snapshot()), Announced(scope, urgent, now, order))
      ensures Possible(old(Snapshot()), Announced(scope, urgent, now, order))
    {
      hide Inv, CoreInv, Candidates, Schedule, MarkConcerned, TableOk;
      Record(scope, urgent, now);
      CoreOf(old(Snapshot()));
      AnnounceKeeps(old(Snapshot()), scope, urgent, now);
      CoreTable(Snapshot());
      order := ScheduleJobs(now);
      StepKeeps(old(Snapshot()), Announced(scope, urgent, now, order));
    }

    /** Remembers a change. Past the limit it is one of its category. */
    method Remember(scope: Scope) returns (promoted: Option<Scope>)
      modifies `dirty
      ensures dirty == Remembered(old(dirty), scope) && promoted == Promoted(old(dirty), scope)
    {
      if |dirty| < DIRTY_KEYS || scope in dirty {
        dirty := dirty + {scope};
        return None;
      }
      var category := if scope.OperationOf? then Operations else scope;
      if category.Operations? {
        dirty := set s | s in dirty && !s.OperationOf?;
      }
      dirty := dirty + {category};
      promoted := Some(category);
    }

    method Record(scope: Scope, urgent: bool, now: int)
      modifies `log, `dirty, `table, `link
      ensures Snapshot() == Announce(old(Snapshot()), scope, urgent, now)
    {
      hide MarkConcerned, Remembered, Promoted;
      Clock(now);
      if scope.OperationsResync? {
        link := link.(overflowVersion := link.overflowVersion + 1);
      }
      var promoted := Remember(scope);
      MarkJobs(scope, promoted, urgent, now);
      log := log.(invalidations := log.invalidations + [Invalidation(log.tick, scope)]);
    }

    method MarkJob(job: Job, concerned: bool, urgent: bool, now: int) returns (marked: Job)
      ensures marked == MarkIf(concerned, job, urgent, now, log.tick)
    {
      marked := if concerned && !job.flags.retired then Mark(job, urgent, now, log.tick) else job;
    }

    method MarkJobs(scope: Scope, promoted: Option<Scope>, urgent: bool, now: int)
      modifies `table
      ensures table == old(table).(objects := MarkConcerned(old(table), scope, promoted, urgent, now, log.tick))
    {
      hide Concerns, MarkIf, MarkConcerned, Mark;
      var objects, remaining := table.objects, table.objects.Keys;
      while remaining != {}
        invariant table == old(table) && remaining <= objects.Keys == table.objects.Keys
        invariant forall id | id in remaining :: objects[id] == table.objects[id]
        invariant forall id | id in objects && id !in remaining ::
          objects[id] == MarkIf(Concerns(table.objects[id], scope, promoted), table.objects[id], urgent, now, log.tick)
      {
        var id :| id in remaining;
        var marked := MarkJob(objects[id], Concerns(objects[id], scope, promoted), urgent, now);
        objects := objects[id := marked];
        remaining := remaining - {id};
      }
      ConcernedMarked(table, objects, scope, promoted, urgent, now, log.tick);
      table := table.(objects := objects);
    }

    /** Marks every registered job, in a moment of its own. */
    method InvalidateAll(now: int)
      modifies `log, `table
      ensures Snapshot() == MarkEvery(old(Snapshot()), now)
    {
      hide Mark;
      Clock(now);
      var objects, remaining := table.objects, table.objects.Keys;
      ghost var marked := MarkAll(table, now, log.tick);
      while remaining != {}
        invariant remaining <= objects.Keys == table.objects.Keys
        invariant forall id | id in objects :: objects[id] == if id in remaining then table.objects[id] else marked[id]
      {
        var id :| id in remaining;
        if !objects[id].flags.retired {
          objects := objects[id := Mark(objects[id], true, now, log.tick)];
        }
        remaining := remaining - {id};
      }
      assert objects == marked;
      table := table.(objects := objects);
    }

    /** A view asks for its job to be run again. */
    method RetryRead(key: JobKey, now: int) returns (found: bool, ghost order: seq<JobId>)
      requires Valid()
      modifies this
      ensures Valid() && Snapshot() == Step(old(Snapshot()), Retried(key, now, order)) && found == (key in old(table).jobs)
      ensures Possible(old(Snapshot()), Retried(key, now, order))
    {
      hide Inv, CoreInv, Candidates, Schedule, TableOk;
      StepKeeps(Snapshot(), Retried(key, now, []));
      if key !in table.jobs {
        return false, [];
      }
      CoreOf(Snapshot());
      CoreTable(Snapshot());
      KeyTable(table.jobs, table.objects, table.operationJobs, ids.job, key);
      RetryKeeps(Snapshot(), key, now);
      var id := table.jobs[key];
      Clock(now);
      table := table.(objects := table.objects[id := Mark(table.objects[id], true, now, log.tick)]);
      CoreTable(Snapshot());
      order := ScheduleJobs(now);
      StepKeeps(old(Snapshot()), Retried(key, now, order));
      found := true;
    }

    /** A view registers its job. When there is no room an operation waits for it, and any other view shows
        that it is behind. */
    method Register(key: JobKey, scopes: set<Scope>, initial: bool, now: int)
        returns (id: Option<JobId>, ghost order: seq<JobId>, ghost told: seq<Action>)
      requires Valid()
      modifies this
      ensures Valid() && Possible(old(Snapshot()), Entered(key, scopes, initial, now, order))
      ensures key.OperationJob? || !NoRoom(old(table), key) ==> told == []
      ensures !key.OperationJob? && NoRoom(old(table), key) ==> AnnouncesAll(old(Snapshot()), told, scopes, now)
      ensures Snapshot() == Step(RunAll(old(Snapshot()), told), Entered(key, scopes, initial, now, order))
      ensures id == if NoRoom(old(table), key) then None else Some(old(ids).job)
      ensures !NoRoom(old(table), key) ==> EntersRightly(old(Snapshot()), key, scopes, initial, Snapshot())
      ensures NoRoom(old(table), key) ==> table.jobs == old(table).jobs && table.operationJobs == old(table).operationJobs
      ensures NoRoom(old(table), key) && !key.OperationJob? ==> link.kind.Resyncing? && pendingObservers == old(pendingObservers)
    {
      hide Inv, CoreInv, Candidates, Schedule, TableOk, EntersRightly;
      order, told := [], [];
      if NoRoom(table, key) {
        id := None;
        if key.OperationJob? {
          PendingKeeps(Snapshot());
          pendingObservers := true;
        } else {
          told := AnnounceEach(scopes, now);
          ReadyMeansActive(Snapshot());
          RelinkKeeps(Snapshot(), link.(kind := Resyncing), wake);
          link := link.(kind := Resyncing);
        }
        return;
      }
      id := Some(ids.job);
      CoreOf(Snapshot());
      CoreTable(Snapshot());
      EnterKeeps(Snapshot(), key, scopes, initial, now);
      AddJob(key, scopes, initial, now);
      CoreTable(Snapshot());
      order := ScheduleJobs(now);
      StepKeeps(old(Snapshot()), Entered(key, scopes, initial, now, order));
      RegisteredRightly(old(Snapshot()), key, scopes, initial, now, order);
    }

    /** Announces each scope as changed, urgently: someone who shows it could not register. */
    method AnnounceEach(scopes: set<Scope>, now: int) returns (ghost told: seq<Action>)
      requires Valid()
      modifies this
      ensures Valid() && SameRoom(old(Snapshot()), Snapshot())
      ensures AnnouncesAll(old(Snapshot()), told, scopes, now) && Snapshot() == RunAll(old(Snapshot()), told)
    {
      hide Inv, CoreInv, Possible, RunAll, Step, AnnouncesAll;
      ghost var first := Snapshot();
      var remaining := scopes;
      told := [];
      NothingAnnounced(first, now);
      assert scopes - remaining == {};
      while remaining != {}
        invariant Valid() && remaining <= scopes && SameRoom(first, Snapshot())
        invariant AnnouncesAll(first, told, scopes - remaining, now) && Snapshot() == RunAll(first, told)
      {
        var scope :| scope in remaining;
        ghost var s := Snapshot();
        ghost var order := Invalidate(scope, true, now);
        AnnouncedKeepsKeys(s, scope, true, now, order);
        AnnounceOneMore(first, told, scopes - remaining, scope, now, order);
        RunOneMore(first, told, Announced(scope, true, now, order));
        assert scopes - remaining + {scope} == scopes - (remaining - {scope});
        told, remaining := told + [Announced(scope, true, now, order)], remaining - {scope};
      }
      assert scopes - {} == scopes;
    }

    method AddJob(key: JobKey, scopes: set<Scope>, initial: bool, now: int)
      modifies `log, `table, `ids
      ensures Snapshot() == Enter(old(Snapshot()), key, scopes, initial, now)
    {
      Clock(now);
      var id := ids.job;
      var job := Unmarked(key, scopes, log.tick, dirty);
      if initial || scopes * dirty != {} {
        job := Mark(job, true, now, log.tick);
      }
      if key in table.jobs && table.jobs[key] in table.objects {
        var previous := table.jobs[key];
        table := table.(objects := table.objects[previous := table.objects[previous].(flags := table.objects[previous].flags.(retired := true))]);
      }
      if key !in table.jobs && key.OperationJob? {
        table := table.(operationJobs := table.operationJobs + 1);
      }
      table := table.(jobs := table.jobs[key := id], objects := table.objects[id := job]);
      ids := ids.(job := id + 1);
    }

    /** What registering returned is called, once or again. `freed` when that makes room for another job. */
    method Unregister(id: JobId) returns (freed: bool)
      requires Valid()
      modifies `table
      ensures Valid() && Snapshot() == Step(old(Snapshot()), Released(id))
      ensures freed <==> table.jobs != old(table).jobs
    {
      hide Inv;
      StepKeeps(Snapshot(), Released(id));
      freed := false;
      if id !in table.objects {
        return;
      }
      var job := table.objects[id];
      table := table.(objects := table.objects[id := job.(flags := job.flags.(retired := true))]);
      if job.key in table.jobs && table.jobs[job.key] == id {
        table := table.(jobs := table.jobs - {job.key},
                        operationJobs := if job.key.OperationJob? then table.operationJobs - 1 else table.operationJobs);
        freed := true;
      }
    }

    method RunIsSettled(r: RunId, ok: bool)
      requires Valid()
      modifies `table, `slots
      ensures Valid() && Snapshot() == Step(old(Snapshot()), RunSettled(r, ok))
    {
      hide Inv;
      StepKeeps(Snapshot(), RunSettled(r, ok));
      if r !in slots.runs || slots.runs[r].settled.Some? || slots.runs[r].job !in table.objects {
        return;
      }
      var run := slots.runs[r];
      var job := table.objects[run.job];
      slots := slots.(runs := slots.runs[r := run.(settled := Some(ok))]);
      if ok {
        job := job.(past := job.past.(served := Some(Service(run.version, run.startTick))));
      }
      if job.version == run.version {
        job := if ok then job.(flags := job.flags.(dirty := false))
               else job.(flags := job.flags.(dirty := true, blocked := true), past := job.past.(stale := true));
      }
      table := table.(objects := table.objects[run.job := job]);
    }

    /** A settled run is over: its slot is free, and the next pass may use it. */
    method RunIsOver(r: RunId, now: int) returns (ghost order: seq<JobId>)
      requires Valid()
      modifies this
      ensures Valid() && Snapshot() == Step(old(Snapshot()), RunEnded(r, now, order))
      ensures Possible(old(Snapshot()), RunEnded(r, now, order))
    {
      hide Inv, CoreInv, Candidates, Schedule, TableOk, FinishResync;
      CoreOf(Snapshot());
      TickKeeps(Snapshot(), now);
      Clock(now);
      EndRunKeeps(Snapshot(), r);
      FreeSlot(r);
      CoreTable(Snapshot());
      order := ScheduleJobs(now);
      FinishResyncing();
      StepKeeps(old(Snapshot()), RunEnded(r, now, order));
    }

    method FreeSlot(r: RunId)
      modifies `table, `slots
      ensures Snapshot() == EndRun(old(Snapshot()), r)
    {
      if r in slots.runs && slots.runs[r].settled.Some? && slots.runs[r].job in table.objects {
        var run := slots.runs[r];
        table := table.(objects := table.objects[run.job := table.objects[run.job].(run := None)]);
        slots := Slots(slots.runs - {r}, slots.running - 1, if run.urgent then slots.normal else slots.normal - 1);
      }
    }

    /** The connection is ready: everything registered is read anew. */
    method ConnectionReady(displayed: bool, now: int) returns (ghost order: seq<JobId>)
      requires Valid()
      modifies this
      ensures Valid() && Snapshot() == Step(old(Snapshot()), BecameReady(displayed, now, order))
      ensures Possible(old(Snapshot()), BecameReady(displayed, now, order))
    {
      hide Inv, CoreInv, Candidates, Schedule, TableOk, FinishResync, MarkEvery;
      order := [];
      if !link.active {
        return;
      }
      CoreOf(Snapshot());
      ConnectKeeps(Snapshot(), displayed, now);
      link := link.(ready := true, kind := if displayed then Resyncing else Connecting);
      log := log.(connectedAt := log.tick);
      InvalidateAll(now);
      CoreTable(Snapshot());
      order := ScheduleJobs(now);
      FinishResyncing();
      StepKeeps(old(Snapshot()), BecameReady(displayed, now, order));
    }

    /** The page is shown or hidden. */
    method VisibilityChanged(visible: bool, now: int) returns (ghost order: seq<JobId>)
      requires Valid()
      modifies this
      ensures Valid() && Snapshot() == Step(old(Snapshot()), Shown(visible, now, order))
      ensures Possible(old(Snapshot()), Shown(visible, now, order))
    {
      hide Inv, CoreInv, Candidates, Schedule, TableOk, MarkEvery;
      order := [];
      StepKeeps(Snapshot(), Shown(visible, now, []));
      CoreOf(Snapshot());
      RelinkKeepsCore(Snapshot(), link.(visible := visible));
      link := link.(visible := visible);
      if visible {
        MarkEveryKeeps(Snapshot(), now);
        InvalidateAll(now);
        CoreTable(Snapshot());
        order := ScheduleJobs(now);
        StepKeeps(old(Snapshot()), Shown(visible, now, order));
      }
    }

    method TimerFired(now: int) returns (ghost order: seq<JobId>)
      requires Valid()
      modifies this
      ensures Valid() && Snapshot() == Step(old(Snapshot()), WakeFired(now, order))
      ensures Possible(old(Snapshot()), WakeFired(now, order))
    {
      hide Inv, CoreInv, Candidates, Schedule, TableOk;
      CoreOf(Snapshot());
      TickKeeps(Snapshot(), now);
      Clock(now);
      CoreTable(Snapshot());
      order := ScheduleJobs(now);
      StepKeeps(old(Snapshot()), WakeFired(now, order));
    }

    /** An operation that is shown but could not register has changed. */
    method OverflowDetected(now: int) returns (ghost order: seq<JobId>)
      requires Valid()
      modifies this
      ensures Valid() && Snapshot() == Step(old(Snapshot()), Overflowed(now, order))
      ensures Possible(old(Snapshot()), Overflowed(now, order))
    {
      hide Inv, CoreInv, Candidates, Schedule, TableOk, Announce;
      CoreOf(Snapshot());
      link := link.(overflowing := true, kind := Resyncing);
      RelinkKeepsCore(old(Snapshot()), link);
      AnnounceKeeps(Snapshot(), OperationsResync, false, now);
      Record(OperationsResync, false, now);
      CoreTable(Snapshot());
      order := ScheduleJobs(now);
      StepKeeps(old(Snapshot()), Overflowed(now, order));
    }

    /** The list of operations was read anew, if nothing has overflowed since `version`. */
    method CompleteOverflowSync(version: nat)
      requires Valid()
      modifies this
      ensures Valid() && Snapshot() == Step(old(Snapshot()), OverflowSynced(version))
    {
      hide Inv, FinishResync;
      StepKeeps(Snapshot(), OverflowSynced(version));
      if version == link.overflowVersion {
        link := link.(overflowing := false);
        FinishResyncing();
      }
    }

    method LinkChanged(a: Action)
      requires Valid() && (a.Subscribing? || a.Failed? || a.Started? || a.Stopped?)
      modifies `link, `wake
      ensures Valid() && Snapshot() == Step(old(Snapshot()), a)
    {
      hide Inv;
      StepKeeps(Snapshot(), a);
      match a
      case Subscribing(resuming) =>
        if link.active {
          link := link.(ready := false, kind := if resuming then Disconnected else Connecting);
        }
      case Failed(retryable) => link := link.(ready := false, kind := if retryable then Disconnected else Broken);
      case Started => link := link.(active := true);
      case Stopped =>
        if link.active {
          link, wake := link.(active := false, ready := false), None;
        }
    }
  }

  lemma CoreOf(s: State)
    requires Inv(s)
    ensures CoreInv(s)
  {}

  lemma CoreTable(s: State)
    requires CoreInv(s)
    ensures TableOk(s.table.jobs, s.table.objects, s.table.operationJobs, s.ids.job)
  {}

  lemma KeyTable(jobs: map<JobKey, JobId>, objects: map<JobId, Job>, operationJobs: int, nextJob: nat, key: JobKey)
    requires TableOk(jobs, objects, operationJobs, nextJob) && key in jobs
    ensures jobs[key] in objects
  {}

  lemma CandidatesExist(s: State, order: seq<JobId>, now: int)
    requires Candidates(s, order, now)
    ensures AllEligible(s.table.objects, order)
  {}

  ghost predicate SortedJobs(objects: map<JobId, Job>, order: seq<JobId>, now: int) {
    && (forall i, j | 0 <= i < j < |order| :: order[i] != order[j])
    && (forall i | 0 <= i < |order| :: order[i] in objects)
    && forall i, j | 0 <= i < j < |order| :: NotAfter(objects[order[i]], objects[order[j]], now)
  }

  lemma InsertKeepsSorted(objects: map<JobId, Job>, order: seq<JobId>, now: int, id: JobId, at: nat)
    requires SortedJobs(objects, order, now) && id in objects && id !in order && at <= |order|
    requires forall i | 0 <= i < at :: NotAfter(objects[order[i]], objects[id], now)
    requires at < |order| ==> !NotAfter(objects[order[at]], objects[id], now)
    ensures SortedJobs(objects, order[..at] + [id] + order[at..], now)
    ensures forall other :: other in order[..at] + [id] + order[at..] <==> other == id || other in order
  {
    InsertKeepsElements(order, id, at);
    RestComesAfter(objects, order, now, id, at);
    hide NotAfter;
    var r := order[..at] + [id] + order[at..];
    forall i, j | 0 <= i < j < |r|
      ensures r[i] != r[j] && r[i] in objects && r[j] in objects && NotAfter(objects[r[i]], objects[r[j]], now)
    {
      assert r[i] == if i < at then order[i] else if i == at then id else order[i - 1];
      assert r[j] == if j < at then order[j] else if j == at then id else order[j - 1];
    }
    forall i | 0 <= i < |r|
      ensures r[i] in objects
    {
      assert r[i] in r;
    }
  }

  lemma RestComesAfter(objects: map<JobId, Job>, order: seq<JobId>, now: int, id: JobId, at: nat)
    requires SortedJobs(objects, order, now) && id in objects && at <= |order|
    requires at < |order| ==> !NotAfter(objects[order[at]], objects[id], now)
    ensures forall k | at <= k < |order| :: NotAfter(objects[id], objects[order[k]], now)
  {
    forall k | at <= k < |order|
      ensures NotAfter(objects[id], objects[order[k]], now)
    {
      assert k == at || NotAfter(objects[order[at]], objects[order[k]], now);
    }
  }

  lemma InsertKeepsElements(order: seq<JobId>, id: JobId, at: nat)
    requires at <= |order|
    ensures forall other :: other in order[..at] + [id] + order[at..] <==> other == id || other in order
  {
    assert order == order[..at] + order[at..];
  }

  ghost predicate SameRoom(s: State, t: State) {
    t.table.jobs == s.table.jobs && t.table.operationJobs == s.table.operationJobs && t.pendingObservers == s.pendingObservers
  }

  lemma AnnouncedKeepsKeys(s: State, scope: Scope, urgent: bool, now: int, order: seq<JobId>)
    ensures SameRoom(s, Step(s, Announced(scope, urgent, now, order)))
  {
    hide MarkConcerned, Candidates;
    PassKeepsKeys(Announce(s, scope, urgent, now).(wake := None), order, now, None);
  }

  /** A registration that finds room takes its key, and nothing else changes about who is registered. */
  lemma EnteredTakesKey(s: State, key: JobKey, scopes: set<Scope>, initial: bool, now: int, order: seq<JobId>)
    requires Possible(s, Entered(key, scopes, initial, now, order))
    ensures var t := Step(s, Entered(key, scopes, initial, now, order));
      if NoRoom(s.table, key)
      then t.table == s.table && t.pendingObservers == (s.pendingObservers || key.OperationJob?)
      else t.table.jobs == s.table.jobs[key := s.ids.job] && t.pendingObservers == s.pendingObservers
           && t.table.operationJobs == s.table.operationJobs + if key.OperationJob? && key !in s.table.jobs then 1 else 0
  {
    hide Retire, Newcomer, Candidates;
    PassKeepsKeys(Enter(s, key, scopes, initial, now).(wake := None), order, now, None);
  }

  lemma {:induction false} PassKeepsKeys(s: State, order: seq<JobId>, now: int, next: Option<int>)
    ensures SameRoom(s, Pass(s, order, now, next).0)
    decreases |order|
  {
    hide Due, SlotsFull, StartJob;
    if order != [] && order[0] in s.table.objects {
      var due := Due(s.table.objects[order[0]], now);
      PassKeepsKeys(s, order[1..], now, if due > now && (next.None? || due < next.value) then Some(due) else next);
      PassKeepsKeys(Launch(s, order[0], now), order[1..], now, next);
    }
  }

  /** Only registering and releasing change who is registered. */
  lemma OtherSectionsKeepRoom(s: State, a: Action)
    requires !a.Entered? && !a.Released?
    ensures SameRoom(s, Step(s, a))
  {
    hide Candidates, MarkConcerned, MarkAll, SettleJob, CaughtUp, AllIdle, Pass;
    if a.Announced? || a.Retried? || a.Shown? || a.WakeFired? || a.RunEnded? || a.BecameReady? || a.Overflowed? {
      forall t: State
        ensures SameRoom(t, Schedule(t, a.order, a.now))
      {
        PassKeepsKeys(t.(wake := None), a.order, a.now, None);
      }
    }
  }

  /** Releasing the job registered under a key frees the key. */
  lemma ReleasedFreesKey(s: State, key: JobKey)
    requires Inv(s) && key in s.table.jobs
    ensures var t := Step(s, Released(s.table.jobs[key]));
      && t.table.jobs == s.table.jobs - {key} && t.pendingObservers == s.pendingObservers
      && t.table.operationJobs == s.table.operationJobs - if key.OperationJob? then 1 else 0
  {
    hide RestOk, CoveredOk;
  }
}
