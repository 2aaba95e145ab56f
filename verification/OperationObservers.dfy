/** The operation cache of the GUI's event coordinator: what is known of each operation, who observes it, and the
    jobs that keep the observed ones current. Jobs are limited; observers beyond the limit wait for room. */
module OperationObservers {
  import opened EventScopes
  import opened Wrappers
  import J = JobScheduling

  type ListenerId = nat

  datatype OperationState = Queued | Running | Succeeded | FailedState | Cancelled {
    predicate Terminal() { Succeeded? || FailedState? || Cancelled? }
  }

  datatype OperationKind = ExtensionKind | BackupKind | OtherKind

  datatype Operation = Operation(id: string, revision: nat, state: OperationState, kind: OperationKind)

  /** `serial` tells an entry from a later one for the same operation; `release` is the job that reads it. */
  datatype Entry = Entry(serial: nat, value: Option<Operation>, failed: bool, version: nat, subscribers: set<ListenerId>,
                         release: Option<J.JobId>)

  // ---------------------------------------------------------------------------------------------
  // The invariant
  // ---------------------------------------------------------------------------------------------

  /** `arrivals` are the operations in the cache in the order they entered it. */
  ghost predicate CacheOk(entries: map<string, Entry>, arrivals: seq<string>) {
    && (forall i, j | 0 <= i < j < |arrivals| :: arrivals[i] != arrivals[j])
    && (forall id :: id in arrivals <==> id in entries)
    && (forall id | id in entries :: entries[id].release.Some? ==> entries[id].subscribers != {})
    && (forall id | id in entries :: entries[id].value.Some? ==> entries[id].value.value.id == id)
  }

  /** The jobs of operations are exactly those of observed entries. */
  ghost predicate JobsMatch(entries: map<string, Entry>, jobs: map<J.JobKey, J.JobId>) {
    && (forall id | id in entries && entries[id].release.Some? ::
          J.OperationJob(id) in jobs && jobs[J.OperationJob(id)] == entries[id].release.value)
    && (forall k | k in jobs && k.OperationJob? :: k.id in entries && entries[k.id].release == Some(jobs[k]))
  }

  ghost predicate Waiting(entry: Entry) { entry.subscribers != {} && entry.release.None? }

  predicate Full(jobs: map<J.JobKey, J.JobId>, operationJobs: int) {
    |jobs| >= J.CACHED_ROWS || operationJobs >= J.OPERATION_JOBS
  }

  /** Whoever waits for a job is known to wait, and will be seen to: at the latest when room is made. `skipped`
      once the coordinator was stopped when it was about to see to them. Only who is `exempt` is seen to now. */
  ghost predicate NobodyForgotten(entries: map<string, Entry>, jobs: map<J.JobKey, J.JobId>, operationJobs: int, pending: bool,
                                  registering: bool, skipped: bool, exempt: set<string>) {
    && (forall id | id in entries && Waiting(entries[id]) :: pending || id in exempt)
    && (pending ==> registering || skipped || Full(jobs, operationJobs))
  }

  /** What an entry knew it still knows, or something newer. */
  ghost predicate NotOlder(before: Entry, after: Entry) {
    before.value.Some? ==> after.value.Some? && before.value.value.revision <= after.value.value.revision
  }

  /** Nobody who is observed is dropped or goes back in time. */
  ghost predicate StillObserved(before: map<string, Entry>, after: map<string, Entry>) {
    forall id | id in before && before[id].subscribers != {} ::
      id in after && after[id].serial == before[id].serial && before[id].subscribers <= after[id].subscribers
      && NotOlder(before[id], after[id])
  }

  /** What becomes of an entry when a value of its operation is read. */
  function Refreshed(entry: Entry, value: Operation): (r: Entry)
    ensures NotOlder(entry, r) && r.value.Some? && value.revision <= r.value.value.revision
    ensures r.value == entry.value || r.value == Some(value)
    ensures entry.value.None? || entry.value.value.revision <= value.revision ==> !r.failed
    ensures r == entry || (r.value == Some(value) && r.version == entry.version + 1)
  {
    if && entry.value.Some?
       && (entry.value.value.revision > value.revision || (entry.value.value.revision == value.revision && !entry.failed))
    then entry
    else entry.(value := Some(value), failed := false, version := entry.version + 1)
  }

  /** The entry shows a failure, and keeps its value. */
  function WithFailure(entries: map<string, Entry>, id: string): map<string, Entry>
    requires id in entries
  { entries[id := entries[id].(failed := true, version := entries[id].version + 1)] }

  function NewEntry(serial: nat): Entry { Entry(serial, None, false, 0, {}, None) }

  lemma AddKeepsCache(entries: map<string, Entry>, arrivals: seq<string>, id: string, entry: Entry)
    requires CacheOk(entries, arrivals) && id !in entries && entry.release.None? && entry.value.None?
    ensures CacheOk(entries[id := entry], arrivals + [id])
  {}

  lemma ChangeKeepsCache(entries: map<string, Entry>, arrivals: seq<string>, id: string, entry: Entry)
    requires CacheOk(entries, arrivals) && id in entries
    requires entry.release.Some? ==> entry.subscribers != {}
    requires entry.value.Some? ==> entry.value.value.id == id
    ensures CacheOk(entries[id := entry], arrivals)
  {}

  lemma RefreshKeepsCache(entries: map<string, Entry>, arrivals: seq<string>, value: Operation)
    requires CacheOk(entries, arrivals) && value.id in entries
    ensures CacheOk(entries[value.id := Refreshed(entries[value.id], value)], arrivals)
  {
    ChangeKeepsCache(entries, arrivals, value.id, Refreshed(entries[value.id], value));
  }

  /** Looking up and refreshing an entry changes nothing about who observes what. */
  lemma StoredKeepsObservers(before: map<string, Entry>, looked: map<string, Entry>, value: Operation)
    requires value.id in looked && (value.id in before ==> looked == before)
    requires value.id !in before ==> looked == before[value.id := looked[value.id]] && looked[value.id].subscribers == {} && looked[value.id].release.None?
    ensures SameObservers(before, looked[value.id := Refreshed(looked[value.id], value)])
    ensures Refreshed(looked[value.id], value).subscribers == looked[value.id].subscribers
  {}

  lemma EvictedKeepsObservers(before: map<string, Entry>, stored: map<string, Entry>, after: map<string, Entry>, keep: string)
    requires SameObservers(before, stored) && OnlyUnobservedLeft(stored, after, keep)
    ensures SameObservers(before, after)
  {}

  lemma DroppedKeepsObservers(before: map<string, Entry>, after: map<string, Entry>, id: string)
    requires SameObservers(before, after) && id in after
    ensures after[id].subscribers == {} ==> SameObservers(before, after - {id})
  {}

  lemma SeedKeepsObserved(before: map<string, Entry>, after: map<string, Entry>, value: Operation)
    requires SameObservers(before, after)
    requires forall id | id in after && id != value.id :: id in before && after[id] == before[id]
    requires value.id in after && value.id in before ==> after[value.id] == Refreshed(before[value.id], value)
    ensures StillObserved(before, after)
  {}

  lemma RemoveKeepsCache(entries: map<string, Entry>, arrivals: seq<string>, at: nat)
    requires CacheOk(entries, arrivals) && at < |arrivals|
    ensures CacheOk(entries - {arrivals[at]}, arrivals[..at] + arrivals[at + 1..])
  {
    var left, id := arrivals[..at] + arrivals[at + 1..], arrivals[at];
    assert forall i | 0 <= i < |left| :: left[i] == arrivals[if i < at then i else i + 1];
    forall other
      ensures other in left <==> other in entries && other != id
    {
      if other in entries && other != id {
        var i :| 0 <= i < |arrivals| && arrivals[i] == other;
        assert left[if i < at then i else i - 1] == other;
      }
    }
  }

  /** Some entries are gone: none that is observed, and not the one to keep. */
  ghost predicate OnlyUnobservedLeft(before: map<string, Entry>, after: map<string, Entry>, keep: string) {
    && (forall id | id in after :: id in before && after[id] == before[id])
    && forall id | id in before && (id == keep || before[id].subscribers != {}) :: id in after
  }

  lemma EvictionIsAllowed(before: map<string, Entry>, after: map<string, Entry>, keep: string, id: string)
    requires OnlyUnobservedLeft(before, after, keep) && id != keep && id in after && after[id].subscribers == {}
    ensures OnlyUnobservedLeft(before, after - {id}, keep)
  {}

  /** The value is newer than what is known of its operation, or shows that it can be read again. */
  predicate TakesIn(entries: map<string, Entry>, value: Operation) {
    value.id !in entries || Refreshed(entries[value.id], value) != entries[value.id]
  }

  /** What an operation of extensions or backups changed that is now seen to have ended: its state is new, and
      it was known before, or was announced as ended. */
  function JustEnded(entries: map<string, Entry>, urgent: map<string, nat>, value: Operation): Option<Scope> {
    var before := if value.id in entries then entries[value.id] else NewEntry(0);
    if && value.state.Terminal() && !value.kind.OtherKind?
       && Refreshed(before, value) != before && (before.value.None? || before.value.value.state != value.state)
       && (before.value.Some? || value.id in urgent)
    then Some(if value.kind.ExtensionKind? then Extensions else Backups)
    else None
  }

  /** The end of an operation that was known to go on is announced, for what it may have changed; nothing else is. */
  lemma EndIsAnnounced(entries: map<string, Entry>, urgent: map<string, nat>, value: Operation)
    ensures var known := value.id in entries && entries[value.id].value.Some?;
      && (known && !entries[value.id].value.value.state.Terminal() && value.state.Terminal()
          && entries[value.id].value.value.revision < value.revision ==>
            JustEnded(entries, urgent, value) == match value.kind
              case ExtensionKind => Some(Extensions)
              case BackupKind => Some(Backups)
              case OtherKind => None)
      && (!value.state.Terminal() || (known && value.revision < entries[value.id].value.value.revision) ==>
            JustEnded(entries, urgent, value).None?)
  {}

  /** Nothing unobserved that is left entered the cache before something that is gone. */
  ghost predicate OldestGone(before: seq<string>, entries: map<string, Entry>, after: map<string, Entry>, keep: string) {
    forall i, j | 0 <= i < j < |before| && before[i] in entries && before[j] in entries && before[j] !in after ::
      before[i] !in after || before[i] == keep || entries[before[i]].subscribers != {}
  }

  lemma NextOldestGone(arrived: seq<string>, first: map<string, Entry>, entries: map<string, Entry>, arrivals: seq<string>, at: nat,
                       keep: string)
    requires OldestGone(arrived, first, entries, keep) && CacheOk(first, arrived) && CacheOk(entries, arrivals) && at < |arrivals|
    requires Sub(arrivals, arrived) && (forall id | id in entries :: id in first && first[id] == entries[id])
    requires forall i | 0 <= i < at :: arrivals[i] == keep || entries[arrivals[i]].subscribers != {}
    ensures OldestGone(arrived, first, entries - {arrivals[at]}, keep)
  {
    var gone := arrivals[at];
    forall i, j | 0 <= i < j < |arrived| && arrived[i] in first && arrived[j] in first && arrived[j] !in entries - {gone}
      ensures arrived[i] !in entries - {gone} || arrived[i] == keep || first[arrived[i]].subscribers != {}
    {
      if arrived[j] == gone && arrived[i] in entries {
        assert arrived[i] in arrivals;
        SubOrder(arrivals, arrived, at, i, j);
      }
    }
  }

  /** What is left of the arrivals is in their order. */
  ghost predicate Sub(arrivals: seq<string>, arrived: seq<string>) {
    forall k, l | 0 <= k < l < |arrivals| :: InOrder(arrived, arrivals[k], arrivals[l])
  }

  ghost predicate InOrder(arrived: seq<string>, x: string, y: string) {
    exists i, j | 0 <= i < j < |arrived| :: arrived[i] == x && arrived[j] == y
  }

  lemma SubOrder(arrivals: seq<string>, arrived: seq<string>, at: nat, i: nat, j: nat)
    requires Sub(arrivals, arrived) && at < |arrivals| && i < j < |arrived| && arrived[j] == arrivals[at] && arrived[i] in arrivals
    requires forall a, b | 0 <= a < b < |arrived| :: arrived[a] != arrived[b]
    ensures exists k | 0 <= k < at :: arrivals[k] == arrived[i]
  {
    var k :| 0 <= k < |arrivals| && arrivals[k] == arrived[i];
    SubIndex(arrivals, arrived, at, k, j, i);
  }

  lemma SubIndex(arrivals: seq<string>, arrived: seq<string>, k: nat, l: nat, i: nat, j: nat)
    requires Sub(arrivals, arrived) && k < |arrivals| && l < |arrivals| && i < |arrived| && j < |arrived|
    requires arrived[i] == arrivals[k] && arrived[j] == arrivals[l]
    requires forall a, b | 0 <= a < b < |arrived| :: arrived[a] != arrived[b]
    ensures k < l ==> i < j
  {
    if k < l {
      assert InOrder(arrived, arrivals[k], arrivals[l]);
      var a, b :| 0 <= a < b < |arrived| && arrived[a] == arrivals[k] && arrived[b] == arrivals[l];
      assert a == i && b == j;
    }
  }

  lemma SubWithout(arrivals: seq<string>, arrived: seq<string>, at: nat)
    requires Sub(arrivals, arrived) && at < |arrivals|
    ensures Sub(arrivals[..at] + arrivals[at + 1..], arrived)
  {
    hide InOrder;
    var left := arrivals[..at] + arrivals[at + 1..];
    assert forall k | 0 <= k < |left| :: left[k] == arrivals[if k < at then k else k + 1];
  }

  lemma NoneGone(arrived: seq<string>, entries: map<string, Entry>, keep: string)
    ensures OldestGone(arrived, entries, entries, keep)
  {}

  lemma SubItself(arrived: seq<string>)
    ensures Sub(arrived, arrived)
  {
    forall k, l | 0 <= k < l < |arrived|
      ensures InOrder(arrived, arrived[k], arrived[l])
    {}
  }

  // ---------------------------------------------------------------------------------------------
  // The cache
  // ---------------------------------------------------------------------------------------------

  class OperationCache {
    const scheduler: J.JobScheduler
    var entries: map<string, Entry>
    var arrivals: seq<string>
    var urgent: map<string, nat>
    var registering: bool
    var serials: nat
    ghost var skipped: bool

    ghost predicate Valid()
      reads this, scheduler
    {
      && scheduler.Valid() && CacheOk(entries, arrivals) && JobsMatch(entries, scheduler.table.jobs)
      && NobodyForgotten(entries, scheduler.table.jobs, scheduler.table.operationJobs, scheduler.pendingObservers, registering, skipped, {})
    }

    constructor ()
      ensures Valid() && fresh(scheduler) && entries == map[]
    {
      scheduler := new J.JobScheduler();
      entries, arrivals, urgent, registering, serials, skipped := map[], [], map[], false, 0, false;
    }

    /** Announces resources an operation has changed, which is urgent. */
    method AnnounceKind(scope: Scope, now: int) returns (ghost order: seq<J.JobId>)
      requires scheduler.Valid()
      modifies scheduler
      ensures scheduler.Valid() && J.SameRoom(old(scheduler.Snapshot()), scheduler.Snapshot())
      ensures J.Possible(old(scheduler.Snapshot()), J.Announced(scope, true, now, order))
      ensures scheduler.Snapshot() == J.Step(old(scheduler.Snapshot()), J.Announced(scope, true, now, order))
    {
      ghost var s := scheduler.Snapshot();
      order := scheduler.Invalidate(scope, true, now);
      J.AnnouncedKeepsKeys(s, scope, true, now, order);
    }

    /** The entry of an operation, a new one if there is none. */
    method Lookup(id: string)
      requires CacheOk(entries, arrivals)
      modifies `entries, `arrivals, `serials
      ensures CacheOk(entries, arrivals) && id in entries
      ensures entries == if id in old(entries) then old(entries) else old(entries)[id := NewEntry(old(serials))]
    {
      if id !in entries {
        AddKeepsCache(entries, arrivals, id, NewEntry(serials));
        entries, arrivals := entries[id := NewEntry(serials)], arrivals + [id];
        serials := serials + 1;
      }
    }

    /** While the cache is too large, the oldest unobserved entries leave it, except the one just read. */
    method Evict(keep: string)
      requires CacheOk(entries, arrivals)
      modifies `entries, `arrivals
      ensures CacheOk(entries, arrivals) && OnlyUnobservedLeft(old(entries), entries, keep)
      ensures |old(entries)| <= J.CACHED_ROWS ==> entries == old(entries)
      ensures |old(entries)| >= J.CACHED_ROWS ==> |entries| >= J.CACHED_ROWS
      ensures |entries| <= J.CACHED_ROWS || forall id | id in entries && id != keep :: entries[id].subscribers != {}
      ensures OldestGone(old(arrivals), old(entries), entries, keep)
    {
      hide CacheOk, OldestGone, Sub;
      NoneGone(arrivals, entries, keep);
      SubItself(arrivals);
      while |entries| > J.CACHED_ROWS
        invariant CacheOk(entries, arrivals) && OnlyUnobservedLeft(old(entries), entries, keep)
        invariant OldestGone(old(arrivals), old(entries), entries, keep) && Sub(arrivals, old(arrivals))
        invariant |old(entries)| <= J.CACHED_ROWS ==> entries == old(entries)
        invariant |old(entries)| >= J.CACHED_ROWS ==> |entries| >= J.CACHED_ROWS
        decreases |arrivals|
      {
        var at := FirstEvictable(keep);
        if at == |arrivals| {
          return;
        }
        EvictionIsAllowed(old(entries), entries, keep, arrivals[at]);
        NextOldestGone(old(arrivals), old(entries), entries, arrivals, at, keep);
        SubWithout(arrivals, old(arrivals), at);
        assert |entries - {arrivals[at]}| == |entries| - 1;
        RemoveAt(at);
      }
    }

    method FirstEvictable(keep: string) returns (at: nat)
      requires CacheOk(entries, arrivals)
      ensures at <= |arrivals|
      ensures at < |arrivals| ==> arrivals[at] in entries && arrivals[at] != keep && entries[arrivals[at]].subscribers == {}
      ensures forall i | 0 <= i < at :: arrivals[i] in entries && (arrivals[i] == keep || entries[arrivals[i]].subscribers != {})
      ensures at == |arrivals| ==> forall id | id in entries && id != keep :: entries[id].subscribers != {}
    {
      at := 0;
      while at < |arrivals| && (arrivals[at] == keep || entries[arrivals[at]].subscribers != {})
        invariant at <= |arrivals|
        invariant forall i | 0 <= i < at :: arrivals[i] == keep || entries[arrivals[i]].subscribers != {}
      {
        at := at + 1;
      }
    }

    method RemoveAt(at: nat)
      requires CacheOk(entries, arrivals) && at < |arrivals|
      modifies `entries, `arrivals
      ensures CacheOk(entries, arrivals) && entries == old(entries) - {old(arrivals)[at]} && |arrivals| == |old(arrivals)| - 1
      ensures arrivals == old(arrivals)[..at] + old(arrivals)[at + 1..]
    {
      RemoveKeepsCache(entries, arrivals, at);
      hide CacheOk;
      entries, arrivals := entries - {arrivals[at]}, arrivals[..at] + arrivals[at + 1..];
    }

    method Remove(id: string)
      requires CacheOk(entries, arrivals) && id in entries
      modifies `entries, `arrivals
      ensures CacheOk(entries, arrivals) && entries == old(entries) - {id}
    {
      assert id in arrivals;
      var at := 0;
      while arrivals[at] != id
        invariant at < |arrivals| && id in arrivals[at..]
        decreases |arrivals| - at
      {
        at := at + 1;
      }
      RemoveAt(at);
    }

    method Refresh(value: Operation)
      requires CacheOk(entries, arrivals)
      modifies `entries, `arrivals, `serials
      ensures CacheOk(entries, arrivals) && value.id in entries && SameObservers(old(entries), entries)
      ensures value.id in old(entries) ==> entries[value.id] == Refreshed(old(entries)[value.id], value)
      ensures value.id !in old(entries) ==> entries[value.id].subscribers == {}
      ensures forall id | id in entries && id != value.id :: id in old(entries) && entries[id] == old(entries)[id]
    {
      hide CacheOk, SameObservers, Refreshed;
      Lookup(value.id);
      RefreshKeepsCache(entries, arrivals, value);
      StoredKeepsObservers(old(entries), entries, value);
      entries := entries[value.id := Refreshed(entries[value.id], value)];
    }

    /** Takes in a value that is newer than what is known. */
    method Store(value: Operation)
      requires CacheOk(entries, arrivals)
      modifies `entries, `arrivals, `serials
      ensures CacheOk(entries, arrivals) && value.id in entries && SameObservers(old(entries), entries)
      ensures value.id in old(entries) ==> entries[value.id] == Refreshed(old(entries)[value.id], value)
      ensures value.id !in old(entries) ==> entries[value.id].subscribers == {}
      ensures forall id | id in entries && id != value.id :: id in old(entries) && entries[id] == old(entries)[id]
      ensures |entries| <= J.CACHED_ROWS || forall id | id in entries && id != value.id :: entries[id].subscribers != {}
    {
      hide CacheOk, SameObservers;
      Refresh(value);
      ghost var stored := entries;
      Evict(value.id);
      EvictedKeepsObservers(old(entries), stored, entries, value.id);
    }

    /** A value of an operation was read. What is newer than what is known replaces it; so does the same value
        after a failure. What is not observed is not kept. An operation of extensions or backups that has just
        ended announces them as changed. */
    method TakeIn(value: Operation) returns (ended: Option<Scope>)
      requires CacheOk(entries, arrivals)
      modifies `entries, `arrivals, `serials, `urgent
      ensures CacheOk(entries, arrivals) && StillObserved(old(entries), entries) && SameObservers(old(entries), entries)
      ensures value.id in entries && value.id in old(entries) ==> entries[value.id] == Refreshed(old(entries)[value.id], value)
      ensures forall id | id in entries :: id in old(entries) && (id != value.id ==> entries[id] == old(entries)[id])
      ensures urgent == if value.id in old(urgent) && (old(urgent)[value.id] <= value.revision
                                                       || (value.state.Terminal() && TakesIn(old(entries), value)))
                        then old(urgent) - {value.id} else old(urgent)
      ensures ended == JustEnded(old(entries), old(urgent), value)
    {
      hide CacheOk, Refreshed, SameObservers, StillObserved;
      ended := None;
      var announced := value.id in urgent;
      if announced && value.revision >= urgent[value.id] {
        urgent := urgent - {value.id};
      }
      var known := value.id in entries;
      var before := if known then entries[value.id] else NewEntry(0);
      if known && Refreshed(before, value) == before {
        NotOlderAtAll(entries);
        return;
      }
      Store(value);
      var stateChanged := (before.value.None? || before.value.value.state != value.state) && (before.value.Some? || announced);
      if stateChanged && value.state.Terminal() && !value.kind.OtherKind? {
        ended := Some(if value.kind.ExtensionKind? then Extensions else Backups);
      }
      if value.state.Terminal() {
        urgent := urgent - {value.id};
      }
      DroppedKeepsObservers(old(entries), entries, value.id);
      if entries[value.id].subscribers == {} {
        Remove(value.id);
      }
      SeedKeepsObserved(old(entries), entries, value);
    }

    method SeedOperation(value: Operation, now: int) returns (ghost order: seq<J.JobId>)
      requires Valid()
      modifies this, scheduler
      ensures Valid() && StillObserved(old(entries), entries) && SameObservers(old(entries), entries)
      ensures value.id in entries && value.id in old(entries) ==> entries[value.id] == Refreshed(old(entries)[value.id], value)
      ensures J.SameRoom(old(scheduler.Snapshot()), scheduler.Snapshot()) && registering == old(registering) && skipped == old(skipped)
      ensures Announces(JustEnded(old(entries), old(urgent), value), now, order, old(scheduler.Snapshot()), scheduler.Snapshot())
    {
      hide CacheOk, JobsMatch, NobodyForgotten, Refreshed, SameObservers, StillObserved;
      order := TakeInAndAnnounce(value, now);
      ObserversKeepMatch(old(entries), old(arrivals), entries, scheduler.table.jobs);
      ObserversKeepNobodyForgotten(old(entries), entries, scheduler.table.jobs, scheduler.table.operationJobs,
                                   scheduler.pendingObservers, registering, skipped, {});
    }

    method TakeInAndAnnounce(value: Operation, now: int) returns (ghost order: seq<J.JobId>)
      requires CacheOk(entries, arrivals) && scheduler.Valid()
      modifies `entries, `arrivals, `serials, `urgent, scheduler
      ensures CacheOk(entries, arrivals) && scheduler.Valid()
      ensures StillObserved(old(entries), entries) && SameObservers(old(entries), entries)
      ensures value.id in entries && value.id in old(entries) ==> entries[value.id] == Refreshed(old(entries)[value.id], value)
      ensures J.SameRoom(old(scheduler.Snapshot()), scheduler.Snapshot())
      ensures Announces(JustEnded(old(entries), old(urgent), value), now, order, old(scheduler.Snapshot()), scheduler.Snapshot())
    {
      hide CacheOk, Refreshed, SameObservers, StillObserved;
      order := [];
      var ended := TakeIn(value);
      if ended.Some? {
        order := AnnounceKind(ended.value, now);
      }
    }

    method Subscribe(id: string, listener: ListenerId)
      requires CacheOk(entries, arrivals)
      modifies `entries, `arrivals, `serials
      ensures CacheOk(entries, arrivals) && Subscribed(old(entries), entries, id, listener)
    {
      Lookup(id);
      entries := entries[id := entries[id].(subscribers := entries[id].subscribers + {listener})];
    }

    /** Registers the job that reads an observed operation, or leaves it waiting for room. */
    method RegisterOperation(id: string, initial: bool, now: int, ghost exempt: set<string>)
      requires scheduler.Valid() && CacheOk(entries, arrivals) && JobsMatch(entries, scheduler.table.jobs)
      requires NobodyForgotten(entries, scheduler.table.jobs, scheduler.table.operationJobs, scheduler.pendingObservers, registering, skipped, exempt)
      requires id in entries && Waiting(entries[id])
      modifies `entries, scheduler
      ensures scheduler.Valid() && CacheOk(entries, arrivals) && JobsMatch(entries, scheduler.table.jobs)
      ensures NobodyForgotten(entries, scheduler.table.jobs, scheduler.table.operationJobs, scheduler.pendingObservers, registering, skipped, exempt - {id})
      ensures id in entries && entries == old(entries)[id := old(entries)[id].(release := entries[id].release)]
      ensures entries[id].release.None? ==> scheduler.pendingObservers
      ensures old(scheduler.pendingObservers) ==> scheduler.pendingObservers
      ensures entries[id].release.Some? ==> ReadsOperation(id, entries[id].release.value, initial, old(scheduler.Snapshot()), scheduler.Snapshot())
      ensures VersionsStay(old(scheduler.Snapshot()), scheduler.Snapshot())
    {
      hide CacheOk, JobsMatch, NobodyForgotten, ReadsOperation, VersionsStay, J.Inv, J.NoRoom;
      WaiterHasNoJob(entries, scheduler.table.jobs, id);
      var job := AskForJob(id, initial, now);
      RegisteringKeeps(entries, arrivals, old(scheduler.table), old(scheduler.pendingObservers), registering, skipped, exempt, id, job, scheduler.table);
      entries := entries[id := entries[id].(release := job)];
    }

    method AskForJob(id: string, initial: bool, now: int) returns (job: Option<J.JobId>)
      requires scheduler.Valid() && J.OperationJob(id) !in scheduler.table.jobs
      modifies scheduler
      ensures scheduler.Valid()
      ensures job.Some? ==> scheduler.table.jobs == old(scheduler.table.jobs)[J.OperationJob(id) := job.value]
      ensures job.Some? ==> scheduler.table.operationJobs == old(scheduler.table.operationJobs) + 1
      ensures job.None? ==> J.NoRoom(old(scheduler.table), J.OperationJob(id)) && scheduler.table == old(scheduler.table)
      ensures scheduler.pendingObservers == (old(scheduler.pendingObservers) || job.None?)
      ensures job.Some? ==> ReadsOperation(id, job.value, initial, old(scheduler.Snapshot()), scheduler.Snapshot())
      ensures VersionsStay(old(scheduler.Snapshot()), scheduler.Snapshot())
    {
      hide J.Inv, J.EntersRightly, VersionsStay, J.Possible;
      ghost var s := scheduler.Snapshot();
      var key, scopes := J.OperationJob(id), {OperationOf(id)};
      ghost var order, told;
      job, order, told := scheduler.Register(key, scopes, initial, now);
      J.EnteredTakesKey(s, key, scopes, initial, now, order);
      assert J.RunAll(s, told) == s;
      RegisteringKeepsVersions(s, key, scopes, initial, now, order);
    }

    /** Someone starts to observe an operation. */
    method Observe(id: string, listener: ListenerId, initial: Option<Operation>, now: int) returns (serial: nat)
      requires Valid()
      modifies this, scheduler
      ensures Valid() && StillObserved(old(entries), entries)
      ensures id in entries && listener in entries[id].subscribers && entries[id].serial == serial
      ensures initial.Some? && initial.value.id == id ==>
        entries[id].value.Some? && initial.value.revision <= entries[id].value.value.revision
      ensures registering == old(registering) && skipped == old(skipped)
      ensures initial.None? && (id in old(entries) ==> old(entries)[id].release.None?) ==>
        WaitsOrIsRead(entries[id], scheduler.Snapshot())
    {
      hide CacheOk, JobsMatch, NobodyForgotten, StillObserved, WaitsOrIsRead, ReadsOperation, VersionsStay;
      Join(id, listener, initial, now);
      serial := entries[id].serial;
      assert {id} - {id} == {};
      if entries[id].release.None? {
        ghost var joined := entries;
        RegisterOperation(id, initial.None?, now, {id});
        ReleaseKeepsObserved(old(entries), joined, id, entries[id].release);
        if initial.None? {
          RegisteredIsRead(entries[id], id, old(scheduler.Snapshot()), scheduler.Snapshot());
        }
      } else {
        NobodyLeft(entries, scheduler.table.jobs, scheduler.table.operationJobs, scheduler.pendingObservers, registering, skipped, id);
      }
    }

    method Join(id: string, listener: ListenerId, initial: Option<Operation>, now: int)
      requires Valid()
      modifies `entries, `arrivals, `serials, `urgent, scheduler
      ensures scheduler.Valid() && CacheOk(entries, arrivals) && JobsMatch(entries, scheduler.table.jobs)
      ensures NobodyForgotten(entries, scheduler.table.jobs, scheduler.table.operationJobs, scheduler.pendingObservers, registering, skipped, {id})
      ensures StillObserved(old(entries), entries) && id in entries && listener in entries[id].subscribers
      ensures initial.Some? && initial.value.id == id ==>
        entries[id].value.Some? && initial.value.revision <= entries[id].value.value.revision
      ensures initial.None? ==> scheduler.Snapshot() == old(scheduler.Snapshot())
      ensures initial.None? ==> entries[id].release == if id in old(entries) then old(entries)[id].release else None
    {
      hide CacheOk, JobsMatch, NobodyForgotten, Refreshed, SameObservers, StillObserved;
      hide Subscribed;
      Subscribe(id, listener);
      ghost var subscribed := entries;
      SubscribedRelease(old(entries), subscribed, id, listener);
      SubscribedKeeps(old(entries), subscribed, id, listener, scheduler.table.jobs, scheduler.table.operationJobs,
                      scheduler.pendingObservers, registering, skipped);
      if initial.Some? {
        ghost var arrived := arrivals;
        ghost var _ := TakeInAndAnnounce(initial.value, now);
        ObserversKeepMatch(subscribed, arrived, entries, scheduler.table.jobs);
        ObserversKeepNobodyForgotten(subscribed, entries, scheduler.table.jobs, scheduler.table.operationJobs,
                                     scheduler.pendingObservers, registering, skipped, {id});
        ObservedTrans(old(entries), subscribed, entries);
        ObserversKept(subscribed, entries, id);
      }
    }

    /** What observing returned is called, once or again: the listener is gone, and with the last one the entry
        and its job. */
    method Unobserve(id: string, serial: nat, listener: ListenerId)
      requires Valid()
      modifies this, scheduler
      ensures Valid()
      ensures StillObserved(if id in old(entries) && old(entries)[id].serial == serial then old(entries) - {id} else old(entries), entries)
      ensures id in old(entries) && old(entries)[id].serial == serial ==>
        if old(entries)[id].subscribers <= {listener} then entries == old(entries) - {id}
        else entries == old(entries)[id := old(entries)[id].(subscribers := old(entries)[id].subscribers - {listener})]
      ensures skipped == old(skipped)
    {
      hide CacheOk, JobsMatch, NobodyForgotten, StillObserved;
      NotOlderAtAll(entries);
      if id !in entries || entries[id].serial != serial {
        return;
      }
      var entry := entries[id];
      var left := entry.subscribers - {listener};
      UnsubscribedKeepsObserved(entries, id, entry.(subscribers := left));
      if left != {} {
        UnsubscribedKeeps(entries, arrivals, id, left, scheduler.table.jobs, scheduler.table.operationJobs,
                          scheduler.pendingObservers, registering, skipped);
        entries := entries[id := entry.(subscribers := left)];
        return;
      }
      assert entry.subscribers <= {listener};
      Leave(id);
    }

    /** The last observer of an operation is gone. */
    method Leave(id: string)
      requires Valid() && id in entries
      modifies this, scheduler
      ensures Valid() && entries == old(entries) - {id} && skipped == old(skipped)
    {
      hide CacheOk, JobsMatch, NobodyForgotten;
      if entries[id].release.Some? {
        ReleaseJob(id);
      }
      Remove(id);
      LeavingKeeps(old(entries), id, old(scheduler.table.jobs), scheduler.table.jobs, old(scheduler.table.operationJobs),
                   scheduler.table.operationJobs, scheduler.pendingObservers, old(registering), registering, skipped);
    }

    /** Releases the job of an operation. The key is free then, so whoever waits will be seen to. */
    method ReleaseJob(id: string)
      requires Valid() && id in entries && entries[id].release.Some?
      modifies `registering, scheduler
      ensures scheduler.Valid() && scheduler.table.jobs == old(scheduler.table.jobs) - {J.OperationJob(id)}
      ensures scheduler.pendingObservers == old(scheduler.pendingObservers)
      ensures scheduler.pendingObservers ==> registering
    {
      hide CacheOk, NobodyForgotten;
      ghost var s := scheduler.Snapshot();
      J.ReleasedFreesKey(s, J.OperationJob(id));
      var freed := scheduler.Unregister(entries[id].release.value);
      if freed {
        SeeToWaiting();
      }
    }

    /** Room was made: whoever waits for a job is seen to as soon as this section is over. */
    method SeeToWaiting()
      modifies `registering
      ensures registering == (old(registering) || scheduler.pendingObservers)
    {
      if !scheduler.pendingObservers || registering {
        return;
      }
      registering := true;
    }

    /** Those who wait are seen to, oldest first, until there is no room again. */
    method RegisterWaiting(now: int)
      requires Valid() && registering
      modifies this, scheduler
      ensures Valid() && StillObserved(old(entries), entries) && !registering
      ensures skipped ==> old(skipped) || !old(scheduler.link.active)
      ensures scheduler.pendingObservers && old(scheduler.link.active) ==> Full(scheduler.table.jobs, scheduler.table.operationJobs)
      ensures NewlyRead(old(entries), entries, scheduler.table.objects)
    {
      hide CacheOk, JobsMatch, NobodyForgotten, StillObserved, ReadsOperation, VersionsStay, NewlyRead;
      NotOlderAtAll(entries);
      NoneNewlyRead(entries, scheduler.table.objects);
      registering := false;
      if !scheduler.link.active {
        SkippedKeeps(entries, scheduler.table.jobs, scheduler.table.operationJobs, scheduler.pendingObservers, true, skipped);
        skipped := true;
        return;
      }
      J.PendingKeeps(scheduler.Snapshot());
      EveryoneIsSeenTo(entries, arrivals, scheduler.table.jobs, scheduler.table.operationJobs);
      scheduler.pendingObservers := false;
      skipped := false;
      var waiting := arrivals;
      for i := 0 to |waiting|
        invariant scheduler.Valid() && CacheOk(entries, arrivals) && JobsMatch(entries, scheduler.table.jobs) && !registering && !skipped
        invariant arrivals == waiting && StillObserved(old(entries), entries)
        invariant NewlyRead(old(entries), entries, scheduler.table.objects)
        invariant NobodyForgotten(entries, scheduler.table.jobs, scheduler.table.operationJobs, scheduler.pendingObservers,
                                  false, false, Elements(waiting[i..]))
      {
        var id := waiting[i];
        ArrivedIsThere(entries, arrivals, i);
        SeenToInTurn(entries, waiting, i, scheduler.table.jobs, scheduler.table.operationJobs, scheduler.pendingObservers);
        if entries[id].subscribers != {} && entries[id].release.None? {
          if scheduler.table.operationJobs >= J.OPERATION_JOBS {
            J.PendingKeeps(scheduler.Snapshot());
            FullMeansPending(entries, scheduler.table.jobs, scheduler.table.operationJobs, Elements(waiting[i..]));
            scheduler.pendingObservers := true;
            break;
          }
          ghost var before, s := entries, scheduler.Snapshot();
          RegisterOperation(id, true, now, Elements(waiting[i..]));
          ReleaseKeepsObserved(old(entries), before, id, entries[id].release);
          OneMoreRead(old(entries), before, s, id, entries[id].release, scheduler.Snapshot());
        }
      }
      NoneAreExempt(entries, waiting, scheduler.table.jobs, scheduler.table.operationJobs, scheduler.pendingObservers);
    }

    /** The job of an observed operation failed: its observers are shown that, and the value stays. */
    method OperationFailed(id: string, serial: nat)
      requires Valid()
      modifies `entries
      ensures Valid() && StillObserved(old(entries), entries)
      ensures entries == if id in old(entries) && old(entries)[id].serial == serial then WithFailure(old(entries), id) else old(entries)
    {
      hide NobodyForgotten, CacheOk, JobsMatch, SameObservers, StillObserved;
      NotOlderAtAll(entries);
      if id in entries && entries[id].serial == serial {
        FailureKeeps(entries, arrivals, id);
        ObserversKeepMatch(entries, arrivals, WithFailure(entries, id), scheduler.table.jobs);
        ObserversKeepNobodyForgotten(entries, WithFailure(entries, id), scheduler.table.jobs, scheduler.table.operationJobs,
                                     scheduler.pendingObservers, registering, skipped, {});
        entries := WithFailure(entries, id);
      }
    }

    /** A view registers or releases its own job; that takes or makes room for operations, too. */
    method RegisterView(key: J.JobKey, scopes: set<Scope>, initial: bool, now: int) returns (job: Option<J.JobId>)
      requires Valid() && !key.OperationJob?
      modifies scheduler
      ensures Valid() && job.Some? == !J.NoRoom(old(scheduler.table), key)
      ensures job.Some? ==> J.EntersRightly(old(scheduler.Snapshot()), key, scopes, initial, scheduler.Snapshot())
    {
      hide CacheOk, NobodyForgotten, JobsMatch;
      ghost var s := scheduler.Snapshot();
      ghost var order, told;
      job, order, told := scheduler.Register(key, scopes, initial, now);
      J.EnteredTakesKey(s, key, scopes, initial, now, order);
      if job.Some? {
        ViewKeeps(entries, s.table.jobs, s.table.operationJobs, s.pendingObservers, registering, skipped, key, job.value);
      }
    }

    method UnregisterView(key: J.JobKey, job: J.JobId)
      requires Valid() && !key.OperationJob? && key in scheduler.table.jobs && scheduler.table.jobs[key] == job
      modifies `registering, scheduler
      ensures Valid() && (scheduler.pendingObservers ==> registering)
      ensures scheduler.table.jobs == old(scheduler.table.jobs) - {key}
    {
      ReleaseView(key, job);
      hide CacheOk, NobodyForgotten, JobsMatch;
      ViewLeft(entries, old(scheduler.table.jobs), scheduler.table.jobs, scheduler.table.operationJobs,
               scheduler.pendingObservers, old(registering), registering, skipped, key);
    }

    method ReleaseView(key: J.JobKey, job: J.JobId)
      requires scheduler.Valid() && !key.OperationJob? && key in scheduler.table.jobs && scheduler.table.jobs[key] == job
      modifies `registering, scheduler
      ensures scheduler.Valid() && scheduler.table.jobs == old(scheduler.table.jobs) - {key}
      ensures scheduler.table.operationJobs == old(scheduler.table.operationJobs)
      ensures scheduler.pendingObservers == old(scheduler.pendingObservers) && (scheduler.pendingObservers ==> registering)
    {
      J.ReleasedFreesKey(scheduler.Snapshot(), key);
      var freed := scheduler.Unregister(job);
      if freed {
        SeeToWaiting();
      }
    }
  }

  /** The new job reads the operation, at once if that is asked for or a change of it is remembered. */
  ghost predicate ReadsOperation(id: string, job: J.JobId, initial: bool, s: J.State, t: J.State) {
    job == s.ids.job && J.EntersRightly(s, J.OperationJob(id), {OperationOf(id)}, initial, t)
  }

  /** Whoever observes the operation waits for room, or has a job that was told to read it. */
  ghost predicate WaitsOrIsRead(entry: Entry, s: J.State) {
    if entry.release.None? then s.pendingObservers
    else entry.release.value in s.table.objects && 0 < s.table.objects[entry.release.value].version
  }

  lemma RegisteredIsRead(entry: Entry, id: string, s: J.State, t: J.State)
    requires entry.release.Some? ==> ReadsOperation(id, entry.release.value, true, s, t)
    requires entry.release.None? ==> t.pendingObservers
    ensures WaitsOrIsRead(entry, t)
  {}

  /** Every operation that got a job since was told to be read. */
  ghost predicate NewlyRead(before: map<string, Entry>, after: map<string, Entry>, jobs: map<J.JobId, J.Job>) {
    forall id | id in before && before[id].release.None? && id in after && after[id].release.Some? ::
      after[id].release.value in jobs && 0 < jobs[after[id].release.value].version
  }

  lemma NoneNewlyRead(entries: map<string, Entry>, jobs: map<J.JobId, J.Job>)
    ensures NewlyRead(entries, entries, jobs)
  {}

  lemma OneMoreRead(first: map<string, Entry>, before: map<string, Entry>, s: J.State, id: string, release: Option<J.JobId>, t: J.State)
    requires NewlyRead(first, before, s.table.objects) && id in before && VersionsStay(s, t)
    requires release.Some? ==> ReadsOperation(id, release.value, true, s, t)
    ensures NewlyRead(first, before[id := before[id].(release := release)], t.table.objects)
  {}

  /** No job is told anything. */
  ghost predicate VersionsStay(s: J.State, t: J.State) {
    forall id | id in s.table.objects :: id in t.table.objects && t.table.objects[id].version == s.table.objects[id].version
  }

  lemma RegisteringKeepsVersions(s: J.State, key: J.JobKey, scopes: set<Scope>, initial: bool, now: int, order: seq<J.JobId>)
    requires J.Inv(s) && J.Possible(s, J.Entered(key, scopes, initial, now, order))
    ensures VersionsStay(s, J.Step(s, J.Entered(key, scopes, initial, now, order)))
  {
    hide J.Inv, J.Possible, J.Step;
    var a := J.Entered(key, scopes, initial, now, order);
    forall id | id in s.table.objects
      ensures id in J.Step(s, a).table.objects && J.Step(s, a).table.objects[id].version == s.table.objects[id].version
    {
      J.SectionTells(s, a, id);
    }
  }

  /** The scheduler was told that the resources changed, if there are any, and else nothing. */
  ghost predicate Announces(scope: Option<Scope>, now: int, order: seq<J.JobId>, s: J.State, t: J.State) {
    if scope.None? then t == s
    else J.Possible(s, J.Announced(scope.value, true, now, order)) && t == J.Step(s, J.Announced(scope.value, true, now, order))
  }

  /** The same observers with the same jobs; whoever else is in the cache has neither. */
  ghost predicate SameObservers(before: map<string, Entry>, after: map<string, Entry>) {
    && (forall id | id in before && before[id].subscribers != {} ::
          id in after && after[id].serial == before[id].serial && after[id].subscribers == before[id].subscribers
          && after[id].release == before[id].release)
    && forall id | id in after && (id !in before || before[id].subscribers == {}) ::
      after[id].subscribers == {} && (after[id].release.Some? ==> id in before && before[id].release == after[id].release)
  }

  lemma NotOlderAtAll(entries: map<string, Entry>)
    ensures StillObserved(entries, entries) && SameObservers(entries, entries)
  {}

  lemma ObserversKeepMatch(before: map<string, Entry>, arrivals: seq<string>, after: map<string, Entry>, jobs: map<J.JobKey, J.JobId>)
    requires CacheOk(before, arrivals) && JobsMatch(before, jobs) && SameObservers(before, after)
    ensures JobsMatch(after, jobs)
  {}

  lemma ObserversKeepNobodyForgotten(before: map<string, Entry>, after: map<string, Entry>, jobs: map<J.JobKey, J.JobId>, operationJobs: int,
                                     pending: bool, registering: bool, skipped: bool, exempt: set<string>)
    requires NobodyForgotten(before, jobs, operationJobs, pending, registering, skipped, exempt) && SameObservers(before, after)
    ensures NobodyForgotten(after, jobs, operationJobs, pending, registering, skipped, exempt)
  {}

  /** One more listener for one operation, which may be new to the cache. */
  ghost predicate Subscribed(before: map<string, Entry>, after: map<string, Entry>, id: string, listener: ListenerId) {
    && id in after && (forall other | other in before && other != id :: other in after && after[other] == before[other])
    && (forall other | other in after && other != id :: other in before)
    && (id in before ==> after[id] == before[id].(subscribers := before[id].subscribers + {listener}))
    && (id !in before ==> after[id].subscribers == {listener} && after[id].release.None?)
  }

  lemma SubscribedRelease(before: map<string, Entry>, after: map<string, Entry>, id: string, listener: ListenerId)
    requires Subscribed(before, after, id, listener)
    ensures after[id].release == if id in before then before[id].release else None
  {}

  lemma SubscribedKeeps(before: map<string, Entry>, after: map<string, Entry>, id: string, listener: ListenerId,
                        jobs: map<J.JobKey, J.JobId>, operationJobs: int, pending: bool, registering: bool, skipped: bool)
    requires Subscribed(before, after, id, listener) && JobsMatch(before, jobs)
    requires NobodyForgotten(before, jobs, operationJobs, pending, registering, skipped, {})
    ensures JobsMatch(after, jobs) && NobodyForgotten(after, jobs, operationJobs, pending, registering, skipped, {id})
    ensures StillObserved(before, after) && id in after && listener in after[id].subscribers
  {}

  lemma ObservedTrans(before: map<string, Entry>, between: map<string, Entry>, after: map<string, Entry>)
    requires StillObserved(before, between) && StillObserved(between, after)
    ensures StillObserved(before, after)
  {}

  lemma ObserversKept(before: map<string, Entry>, after: map<string, Entry>, id: string)
    requires StillObserved(before, after) && id in before && before[id].subscribers != {}
    ensures id in after && before[id].subscribers <= after[id].subscribers && after[id].serial == before[id].serial
  {}

  lemma ReleaseKeepsObserved(before: map<string, Entry>, after: map<string, Entry>, id: string, release: Option<J.JobId>)
    requires StillObserved(before, after) && id in after
    ensures StillObserved(before, after[id := after[id].(release := release)])
  {}

  lemma NobodyLeft(entries: map<string, Entry>, jobs: map<J.JobKey, J.JobId>, operationJobs: int, pending: bool,
                   registering: bool, skipped: bool, id: string)
    requires NobodyForgotten(entries, jobs, operationJobs, pending, registering, skipped, {id})
    requires id in entries && entries[id].release.Some?
    ensures NobodyForgotten(entries, jobs, operationJobs, pending, registering, skipped, {})
  {}

  lemma WaiterHasNoJob(entries: map<string, Entry>, jobs: map<J.JobKey, J.JobId>, id: string)
    requires JobsMatch(entries, jobs) && id in entries && entries[id].release.None?
    ensures J.OperationJob(id) !in jobs
  {}

  lemma RegisteringKeeps(entries: map<string, Entry>, arrivals: seq<string>, table: J.Table, pending: bool, registering: bool,
                         skipped: bool, exempt: set<string>, id: string, job: Option<J.JobId>, table': J.Table)
    requires CacheOk(entries, arrivals) && JobsMatch(entries, table.jobs) && id in entries && Waiting(entries[id])
    requires NobodyForgotten(entries, table.jobs, table.operationJobs, pending, registering, skipped, exempt)
    requires J.OperationJob(id) !in table.jobs
    requires job.Some? ==> table'.jobs == table.jobs[J.OperationJob(id) := job.value] && table'.operationJobs == table.operationJobs + 1
    requires job.None? ==> J.NoRoom(table, J.OperationJob(id)) && table' == table
    ensures var registered := entries[id := entries[id].(release := job)];
      && CacheOk(registered, arrivals) && JobsMatch(registered, table'.jobs)
      && NobodyForgotten(registered, table'.jobs, table'.operationJobs, pending || job.None?, registering, skipped, exempt - {id})
  {
    if job.Some? {
      J.OneMoreJob(table.jobs, J.OperationJob(id), job.value);
    }
  }

  lemma UnsubscribedKeepsObserved(entries: map<string, Entry>, id: string, entry: Entry)
    requires id in entries && entry.serial == entries[id].serial && entry.value == entries[id].value
    ensures StillObserved(entries - {id}, entries[id := entry]) && StillObserved(entries - {id}, entries - {id})
  {}

  lemma UnsubscribedKeeps(entries: map<string, Entry>, arrivals: seq<string>, id: string, left: set<ListenerId>,
                          jobs: map<J.JobKey, J.JobId>, operationJobs: int, pending: bool, registering: bool, skipped: bool)
    requires CacheOk(entries, arrivals) && JobsMatch(entries, jobs) && id in entries && left != {} && left <= entries[id].subscribers
    requires NobodyForgotten(entries, jobs, operationJobs, pending, registering, skipped, {})
    ensures var entries' := entries[id := entries[id].(subscribers := left)];
      && CacheOk(entries', arrivals) && JobsMatch(entries', jobs)
      && NobodyForgotten(entries', jobs, operationJobs, pending, registering, skipped, {})
  {}

  /** The last observer leaves. */
  lemma LeavingKeeps(entries: map<string, Entry>, id: string, jobs: map<J.JobKey, J.JobId>, jobs': map<J.JobKey, J.JobId>,
                     operationJobs: int, operationJobs': int, pending: bool, registering: bool, registering': bool, skipped: bool)
    requires JobsMatch(entries, jobs) && id in entries
    requires NobodyForgotten(entries, jobs, operationJobs, pending, registering, skipped, {})
    requires if entries[id].release.Some? then jobs' == jobs - {J.OperationJob(id)} && (pending ==> registering')
             else jobs' == jobs && operationJobs' == operationJobs && registering' == registering
    ensures JobsMatch(entries - {id}, jobs') && NobodyForgotten(entries - {id}, jobs', operationJobs', pending, registering', skipped, {})
  {}

  ghost function Elements(ids: seq<string>): set<string> { set id | id in ids }

  lemma SkippedKeeps(entries: map<string, Entry>, jobs: map<J.JobKey, J.JobId>, operationJobs: int, pending: bool,
                     registering: bool, skipped: bool)
    requires NobodyForgotten(entries, jobs, operationJobs, pending, registering, skipped, {})
    ensures NobodyForgotten(entries, jobs, operationJobs, pending, false, true, {})
  {}

  lemma EveryoneIsSeenTo(entries: map<string, Entry>, arrivals: seq<string>, jobs: map<J.JobKey, J.JobId>, operationJobs: int)
    requires CacheOk(entries, arrivals)
    ensures NobodyForgotten(entries, jobs, operationJobs, false, false, false, Elements(arrivals[0..]))
  {}

  lemma ArrivedIsThere(entries: map<string, Entry>, arrivals: seq<string>, i: nat)
    requires CacheOk(entries, arrivals) && i < |arrivals|
    ensures arrivals[i] in entries
  {}

  lemma SeenToInTurn(entries: map<string, Entry>, waiting: seq<string>, i: nat, jobs: map<J.JobKey, J.JobId>,
                     operationJobs: int, pending: bool)
    requires i < |waiting| && NobodyForgotten(entries, jobs, operationJobs, pending, false, false, Elements(waiting[i..]))
    ensures waiting[i] in entries && !Waiting(entries[waiting[i]]) ==>
      NobodyForgotten(entries, jobs, operationJobs, pending, false, false, Elements(waiting[i + 1..]))
    ensures forall entries': map<string, Entry>, pending': bool, jobs': map<J.JobKey, J.JobId>, operationJobs': int ::
      NobodyForgotten(entries', jobs', operationJobs', pending', false, false, Elements(waiting[i..]) - {waiting[i]}) ==>
      NobodyForgotten(entries', jobs', operationJobs', pending', false, false, Elements(waiting[i + 1..]))
  {
    assert waiting[i..] == [waiting[i]] + waiting[i + 1..];
  }

  lemma FullMeansPending(entries: map<string, Entry>, jobs: map<J.JobKey, J.JobId>, operationJobs: int, exempt: set<string>)
    requires operationJobs >= J.OPERATION_JOBS
    ensures NobodyForgotten(entries, jobs, operationJobs, true, false, false, {})
  {}

  lemma NoneAreExempt(entries: map<string, Entry>, waiting: seq<string>, jobs: map<J.JobKey, J.JobId>, operationJobs: int, pending: bool)
    ensures Elements(waiting[|waiting|..]) == {}
    ensures NobodyForgotten(entries, jobs, operationJobs, pending, false, false, {}) ==> (pending ==> Full(jobs, operationJobs))
  {}

  lemma ViewKeeps(entries: map<string, Entry>, jobs: map<J.JobKey, J.JobId>, operationJobs: int, pending: bool,
                  registering: bool, skipped: bool, key: J.JobKey, job: J.JobId)
    requires NobodyForgotten(entries, jobs, operationJobs, pending, registering, skipped, {})
    requires JobsMatch(entries, jobs) && !key.OperationJob?
    ensures NobodyForgotten(entries, jobs[key := job], operationJobs, pending, registering, skipped, {})
    ensures JobsMatch(entries, jobs[key := job])
  {
    J.OneMoreJob(jobs, key, job);
  }

  lemma ViewLeft(entries: map<string, Entry>, jobs: map<J.JobKey, J.JobId>, jobs': map<J.JobKey, J.JobId>, operationJobs: int,
                 pending: bool, registering: bool, registering': bool, skipped: bool, key: J.JobKey)
    requires NobodyForgotten(entries, jobs, operationJobs, pending, registering, skipped, {})
    requires pending ==> registering'
    requires JobsMatch(entries, jobs) && !key.OperationJob? && jobs' == jobs - {key}
    ensures NobodyForgotten(entries, jobs', operationJobs, pending, registering', skipped, {}) && JobsMatch(entries, jobs')
  {}

  lemma FailureKeeps(entries: map<string, Entry>, arrivals: seq<string>, id: string)
    requires CacheOk(entries, arrivals) && id in entries
    ensures var failed := WithFailure(entries, id);
      CacheOk(failed, arrivals) && SameObservers(entries, failed) && StillObserved(entries, failed)
  {}

  /** Between the cache's own sections the scheduler goes through any others: whatever they are, what the cache relies on
      still holds. */
  lemma {:induction false} OtherSectionsKeep(entries: map<string, Entry>, s: J.State, actions: seq<J.Action>, registering: bool, skipped: bool)
    requires J.Inv(s) && JobsMatch(entries, s.table.jobs) && (forall a | a in actions :: !a.Entered? && !a.Released?)
    requires NobodyForgotten(entries, s.table.jobs, s.table.operationJobs, s.pendingObservers, registering, skipped, {})
    ensures var t := J.RunAll(s, actions);
      && J.Inv(t) && JobsMatch(entries, t.table.jobs)
      && NobodyForgotten(entries, t.table.jobs, t.table.operationJobs, t.pendingObservers, registering, skipped, {})
  {
    hide J.Inv, J.Step, JobsMatch, NobodyForgotten;
    if actions != [] {
      var before, last := actions[..|actions| - 1], actions[|actions| - 1];
      OtherSectionsKeep(entries, s, before, registering, skipped);
      J.StepKeeps(J.RunAll(s, before), last);
      J.OtherSectionsKeepRoom(J.RunAll(s, before), last);
    }
  }
}
