# ALCOMD: models of its concurrent cores

This project models the parts of ALCOMD where correctness lies in interleavings, version counters and bounds, and
proves what holds of every run. The GUI keeps one event coordinator per connection. It takes in the daemon's events
(`EventIngest`), schedules the reads of the views that show what changed (`JobScheduling`), shares and repeats single
reads (`ReadCoordination`, `ConsistentReads`, `EventEffects`), and caches operations for their observers (`OperationObservers`). Beside
it stand the log window (`LogWindow`), the candidate queries (`Candidates`), the observation of Unity windows
(`UnityObservation`), the list of operations (`OperationHistory`) and the page addresses (`Routes`). On the daemon's side
the extension host serves guests over a strict protocol (`HostProtocol`) and limits their calls (`CallBudget`).

How the models are built: what happens to a component is a sequence of synchronous sections. Between two of them, where
the program awaits something, anything else may happen. Each component is a class whose methods are its sections, and a
value with one function per section. A method's contract says that it does to the object what the function does to the
value, and the lemmas about runs quantify over every sequence of sections. A parameter `order` is how a sort with ties
comes out. Parts of the program's one coordinator class are separate classes here, each with its own fields. Ghost
history (`log`, `Past`, `begun` and the like) records what the theorems speak about.

Things worth knowing about the program that the proofs brought out:

- A read that has been answered can be joined until its request is cleaned up, two promise callbacks later. A caller who
  learns of a change in between and joins gets the value from before the change (`ConsistentReads.JoinedAnswerCanBeStale`);
  exactly then, by `JoinedReadIsFresh` and `JoinedAnswerIsFreshWhen`. So a consistent read can return such a page although
  its versions compare equal (`UndisturbedLoadCanBeStale`); exactly then, by `PageHasVersionWhen`.
- An operation that is made and ends between two rounds of the operations list can be lost to it
  (`OperationHistory.EndedOperationIsPassedOver`). `RoundCoversWhen` and `NextRoundCoversWhen` say exactly when a round leaves
  a hole. A list that was empty when it was first read has no cursor, so what a later round leaves out cannot be loaded
  (`EmptyListIsCut`, `RoundWithoutCursor`) until the view is opened again (`NoMoreUntilReopened`, `ReopeningCovers`).
- Progress of an operation changes what the list of operations answers, its revision and phase, but is not announced to
  it; and that an operation ended is not announced to the reads of backups until the operation itself was read. Such reads
  can be answered with what was before the event (`EventEffects.QuietEventLeavesReadStale`); no others
  (`AffectedReadsAreToldWhen`, `AppliedEventsReachReads`).
- After a failed run the interval of 250 ms between two starts of a job can be missed; the exact condition is
  `JobScheduling.SpacingIsExact`, and a run of the scheduler is `JobScheduling.FailedRunRestartsEarly`.
- The limit of 100000 candidates is not looked at when the first page is the last, and exactly then can be missed
  (`Candidates.LimitIsKeptWhen`, `OversizedPageIsGiven`). The view uses such a page without walking it at all
  (apps/alcomd-gui/src/CorePages.tsx:1307-1310).
- Past 512 remembered changes those of single operations are remembered for all operations together, and a job of one of them
  that registers later, with a value of its own, does not look there: it is not read
  (`JobScheduling.FullMemoryForgetsOperations`). `RegisteredRightly` says exactly which registrations are read.
- If the wanted Unity targets change while an observation starts, and change back before the next reconciliation, that finds
  nothing to do: the observation goes on, but nothing of it is ever shown or read (`UnityObservation.SkippedIsNeverShown`);
  only so can one be skipped (`SkippedWasUnwanted`).
- An extension that asks more often than once a millisecond never refills its token bucket, since each request drops the
  part of a millisecond that passed (`CallBudget.RestlessIsStarved`); by `RefillIsEnough` it loses no more than that, and
  one quiet window brings a token (`PausedIsServed`).
- After a refresh that overlaps what is shown, the log may offer older rows although there are none; the flags are exact after
  reads of older and newer rows (`LogWindow.FlagsAreRight`).
- A route with an empty identifier reads back as another route (`Routes.UnnamedIsAnother`), though its address is its own.
- Overlapping acknowledgements can move the resume cursor back (`EventIngest.OverlappingAcksGoBack`), exactly when they end
  out of order (`AckGoesBackWhen`). With three of them one may even move it forward again to where it still lies behind.
  By `NothingIsMissed` no event is lost by that. The coordinator is modelled against an arbitrary source: the program's bridge
  sends a batch only after the one before was accepted (apps/alcomd-gui/src-tauri/src/events.rs:271-297), so there only
  responses that change places do this.
- A repeated batch that waits for its connection to open reports the rejection without comparing generations, so an older
  connection can break a newer one for good (`EventIngest.RejectionBreaksNewer`); nothing else of it can
  (`OlderConnectionsAreHarmless`). The program's client never passes a repeated batch on
  (crates/alcomd-client/src/events.rs:143-151).
- A frame the pipe refuses leaves a gap in the host's outbound sequence as soon as another is written
  (`HostProtocol.Wire.OutboundNumbers`, `GapIsReachable`).
- A read of an operation with an empty identifier shares no version record, so no invalidation makes its answer stale.

Verify with `dafny verify dfyconfig.toml` (Dafny 4.11).

## Model

| member | source | states |
|---|---|---|
| `ReadCoordination.ReadsAreFresh` | apps/alcomd-gui/src/core-events.ts:376-463 | Fresh reads, over every run of invalidations, retries, promotions, cancellations and reconnects: the request whose value a read resolved with began after every invalidation of the read's scopes received before it resolved, under the one connection it was created for |
| `ReadCoordination.ReadsAreNeverStale` | apps/alcomd-gui/src/core-events.ts:286-292 | Against a backend whose resources only move on, that value is at least as new as everything announced for the read's scopes before it resolved |
| `ReadCoordination.BooksAreExact` | apps/alcomd-gui/src/core-events.ts:384-453 | Read bookkeeping over every run: at most 512 reads, 4 requests and 3 normal ones with exact counters even after cancellation; every read so far is settled, or queued, delayed or in flight and never two of these; an operation's reader record exists while, and only while, it counts live readers |
| `ReadCoordination.PumpKeeps` | apps/alcomd-gui/src/core-events.ts:464-476 | After a pump no urgent read is set aside or waits below 4 requests, and no normal read waits below both limits |
| `ReadCoordination.AcceptedIsFresh` | apps/alcomd-gui/src/core-events.ts:431-440 | A value is only accepted when no scope of its read was invalidated since its request began |
| `ReadCoordination.ReadsEndForAReason` | apps/alcomd-gui/src/core-events.ts:407-446 | Over every run, a read that has not ended stays the same read and goes on, unless a section answers its own request or leaves it with a connection that is no longer the usable one; it is rejected only then, by a failure, a value of another operation or the loss of the connection, and resolved only by such an answer, with the value of it |
| `ReadCoordination.OvertakenReadsAreMadeAgain` | apps/alcomd-gui/src/core-events.ts:409-446 | Over every run, when the request of an overtaken read of the present connection ends, or its interval does, the read stays unfinished for the same key and is queued, in flight by a newer request, or set aside, exactly if it is too early |
| `ReadCoordination.AnswersAreJudgedRightly` | apps/alcomd-gui/src/core-events.ts:431-440 | Over every run, an answer under the present connection fails its read if it is a failure or of another operation, is found overtaken if and only if something the read tracks was invalidated since its request began, and else resolves it |
| `ReadCoordination.CallersAreAdmittedRightly` | apps/alcomd-gui/src/core-events.ts:376-388 | Over every run, a caller is turned away exactly without a ready connection, joins an unfinished read of what it asks for if there is one and it does not ask for the settings, is refused when 512 reads are unfinished, and else gets a new read that is queued or in flight |
| `ReadCoordination.NothingWaitsForNothing` | apps/alcomd-gui/src/core-events.ts:441-476 | Over every run, after each section that ends, makes, times or lets go on a read, no read waits that could be in flight |
| `ReadCoordination.QueueIsFair` | apps/alcomd-gui/src/core-events.ts:464-476 | Over every run, a read that waits behind another, no less urgent one is never started before it: while the other waits it stays ahead |
| `ReadCoordination.InvalidateMoves` | apps/alcomd-gui/src/core-events.ts:286-292 | An invalidation moves on the version of exactly the reads that track its scope, and no version ever drops |
| `ReadCoordination.RecordCounts` | apps/alcomd-gui/src/core-events.ts:385-393 | The reader record of an operation counts exactly its unfinished reads, and is there exactly while there are any; an empty identifier has none |
| `ReadCoordination.StepKeeps` | apps/alcomd-gui/src/core-events.ts:376-476 | Every section keeps the whole invariant of places, keys, counters, records, freshness and outcomes |
| `ReadCoordination.CancelEverythingKeeps` | apps/alcomd-gui/src/core-events.ts:104-119 | Failing or stopping cancels every unfinished read, and the requests under way keep their slots until they end |
| `ReadCoordination.ReadCoordinator.constructor` | apps/alcomd-gui/src/core-events.ts:52-70 | A new coordinator reads nothing |
| `ReadCoordination.ReadCoordinator.RequestRead` | apps/alcomd-gui/src/core-events.ts:376-454 | A call joins the read of its key, is refused when not ready or full, or creates a read; new state and admission stated |
| `ReadCoordination.ReadCoordinator.ReadVersion` | apps/alcomd-gui/src/core-events.ts:455-463 | The version a request is answered under, from the operation's record or the method's categories |
| `ReadCoordination.ReadCoordinator.PumpReads` | apps/alcomd-gui/src/core-events.ts:464-476 | Promotes what became urgent, then starts urgent reads first until no slot is left |
| `ReadCoordination.ReadCoordinator.CleanRead` | apps/alcomd-gui/src/core-events.ts:389-406 | Ends a read: leaves every queue and the table, releases its version record, removes the record with its last reader |
| `ReadCoordination.ReadCoordinator.EnqueueRead` | apps/alcomd-gui/src/core-events.ts:409-422 | Queues a read, sets it aside for the rest of the interval when it is made again, or cancels it |
| `ReadCoordination.ReadCoordinator.LaunchRead` | apps/alcomd-gui/src/core-events.ts:423-431 | Starts the request of a read, with the urgency and the version of that moment |
| `ReadCoordination.ReadCoordinator.AnswerArrived` | apps/alcomd-gui/src/core-events.ts:431-440 | An answer resolves its read, fails it, or is found overtaken |
| `ReadCoordination.ReadCoordinator.CallEnded` | apps/alcomd-gui/src/core-events.ts:441-446 | An ended request frees its slot; an overtaken read of the present connection is made again, queued, in flight by a newer request or set aside, and one of an older connection is cancelled |
| `ReadCoordination.ReadCoordinator.Invalidate` | apps/alcomd-gui/src/core-events.ts:286-292 | An invalidation moves on the category's version and the operation's record |
| `ReadCoordination.ReadCoordinator.Disconnect` | apps/alcomd-gui/src/core-events.ts:228-237 | A failed or stopped connection leaves no unfinished read |
| `ConsistentReads.JoinedReadIsFresh` | apps/alcomd-gui/src/core-events.ts:382-383 | A caller who joins a read that is not answered yet gets a value asked for after everything it was told before it joined |
| `ConsistentReads.JoinedAnswerIsFreshWhen` | apps/alcomd-gui/src/core-events.ts:382-446 | A caller who joins a read that is answered already is as well served if and only if nothing the read tracks was invalidated since the answer |
| `ConsistentReads.JoinedAnswerCanBeStale` | apps/alcomd-gui/src/core-events.ts:382-446 | Where that ends: between its answer and the end of its request a read can still be joined, and then the value can be older than a change the caller knows of; a concrete run |
| `ConsistentReads.ComparisonIsExact` | apps/alcomd-gui/src/core-events.ts:483-486 | Comparing generation and versions before and after a load succeeds if and only if the connection stayed the same throughout and no named category was invalidated |
| `ConsistentReads.PageHasVersionWhen` | apps/alcomd-gui/src/core-events.ts:479-490 | Every page of an undisturbed load, joined or asked for anew, came with exactly one resolution, and is of the version in force when the load began if and only if no category it tracks was invalidated between its answer and that moment; a page answered during the load always is |
| `ConsistentReads.UndisturbedLoadCanBeStale` | apps/alcomd-gui/src/core-events.ts:382-490 | Where that ends: a load that begins after a change, joins a read answered before it, is undisturbed and still given the older page; a concrete run |
| `ConsistentReads.ValueIsOfWhatWasAsked` | apps/alcomd-gui/src/core-events.ts:379-383 | Over every run, whoever joins or creates a read and is given a value is given one of the method and arguments it asked for |
| `ConsistentReads.ConsistentRead` | apps/alcomd-gui/src/core-events.ts:479-490 | The value given is the pages the load asked for, joined ones included, of an undisturbed turn: each is the value its read resolved with, or missing exactly if the read was refused or rejected, with the exact condition for its version; all earlier turns had their pages and were disturbed; a turn is given up exactly when the connection or the load fails |
| `ConsistentReads.PerformLoad` | apps/alcomd-gui/src/core-events.ts:485 | What a load is given: every page it asks for is joined, created or refused, in order, whatever happens in between |
| `ConsistentReads.StepGrew` | apps/alcomd-gui/src/core-events.ts:286-292 | Every section moves each category's version exactly when it invalidates it, and never takes back the log or the generation |
| `JobScheduling.NoInvalidationIsLost` | apps/alcomd-gui/src/core-events.ts:286-331 | Over every run: a registered job without unserved mark or run has succeeded in a run that began at its current version, after every invalidation of its scopes since it registered, and after every earlier one that was still remembered when it registered |
| `JobScheduling.ReadyMeansServed` | apps/alcomd-gui/src/core-events.ts:352-374 | Ready is only published when every registered job is idle and up to date in that sense, and what was registered before the connection became ready was read anew since |
| `JobScheduling.CapacityIsKept` | apps/alcomd-gui/src/core-events.ts:318-339 | Over every run: at most 5000 jobs and 4936 of operations, 4 runs and 3 normal ones, with exact counters through replacement, double release and retirement, and no job runs twice at once |
| `JobScheduling.NothingIsLeftWaiting` | apps/alcomd-gui/src/core-events.ts:341-366 | Progress over every run: while active, ready and visible, an eligible job has a timer no later than it is due or finds no slot; with no run and no timer there is none |
| `JobScheduling.StartsAreSpaced` | apps/alcomd-gui/src/core-events.ts:314-366 | Timing over every run: a start that is not urgent is at least 100 ms after the first unserved mark, and at least 250 ms after the last start unless the job was only dirty because that run failed |
| `JobScheduling.SpacingIsExact` | apps/alcomd-gui/src/core-events.ts:349 | A job is due between 100 and 500 ms after its first unserved mark, and at least 250 ms after its last start if and only if that mark is at most 250 ms before it |
| `JobScheduling.FailedRunRestartsEarly` | apps/alcomd-gui/src/core-events.ts:341-363 | A run of the scheduler under a steady clock in which a job is started at 400, fails, is marked again at 450 and started at 500, since it keeps its first mark |
| `JobScheduling.PassIsFair` | apps/alcomd-gui/src/core-events.ts:345-351 | In a pass a due job is only overtaken for a slot by an urgent one |
| `JobScheduling.PassHandles` | apps/alcomd-gui/src/core-events.ts:348-365 | After a pass every candidate was started, or waits for a slot, or for a time the timer does not miss |
| `JobScheduling.RegisteredRightly` | apps/alcomd-gui/src/core-events.ts:318-331 | In every state the invariant allows, a registration that finds room retires the job before it and is told to read, urgently, if it asks to be or one of its scopes is remembered, and else waits for a change |
| `JobScheduling.SectionsTellWhomTheyConcern` | apps/alcomd-gui/src/core-events.ts:286-317 | Over every run, each section tells exactly the jobs it is to tell, those a change concerns, the one asked for or all of them: each such job is one version on and dirty, urgently if it is to be, or running; no other job's version moves |
| `JobScheduling.AnnouncedIsRemembered` | apps/alcomd-gui/src/core-events.ts:293-302 | A change that is announced is remembered, under its own scope or, past 512 entries, under one for all operations |
| `JobScheduling.ForgottenWhenCaughtUp` | apps/alcomd-gui/src/core-events.ts:367-372 | A remembered change is only forgotten by a section that finishes, and when someone shows its scope and everyone who does is idle |
| `JobScheduling.RememberedUntilServed` | apps/alcomd-gui/src/core-events.ts:293-372 | Over every run, a change that is remembered and later is not was caught up with at a moment in between, at which it was forgotten |
| `JobScheduling.FullMemoryForgetsOperations` | apps/alcomd-gui/src/core-events.ts:295-329 | Where that ends: a change of one operation announced past 512 remembered ones is no change to a job of that operation that registers later and does not ask to be read; it stays idle |
| `JobScheduling.SectionsFinishRightly` | apps/alcomd-gui/src/core-events.ts:367-374 | Over every run, a section that finishes forgets exactly the remembered changes that someone shows and everyone who does has caught up with, and shows ready exactly if it was shown, or the connection is ready without overflow, was shown connecting or resyncing, and every registered job is idle |
| `JobScheduling.OverflowEndsWhenSynced` | apps/alcomd-gui/src/core-events.ts:557-558 | Over every run, operations count as overflowing exactly from an overflow until a sync of the newest one |
| `JobScheduling.OnlyFinishingMakesReady` | apps/alcomd-gui/src/core-events.ts:373 | No other section publishes ready |
| `JobScheduling.EnteredTakesKey` | apps/alcomd-gui/src/core-events.ts:318-331 | A registration takes its key, or changes nothing but the note that observers wait |
| `JobScheduling.ReleasedFreesKey` | apps/alcomd-gui/src/core-events.ts:332-338 | Releasing a registered job frees its key and its place |
| `JobScheduling.OtherSectionsKeepRoom` | apps/alcomd-gui/src/core-events.ts:341-374 | No other section changes who is registered |
| `JobScheduling.StepKeeps` | apps/alcomd-gui/src/core-events.ts:286-374 | Every section keeps the scheduler's invariant |
| `JobScheduling.SettleKeeps` | apps/alcomd-gui/src/core-events.ts:356-360 | A run that settles only changes a job that no mark has overtaken, and keeps the invariant |
| `JobScheduling.ConnectKeeps` | apps/alcomd-gui/src/core-events.ts:306-308 | Becoming ready marks every registered job |
| `JobScheduling.JobScheduler.constructor` | apps/alcomd-gui/src/core-events.ts:48-56 | A new scheduler has no jobs |
| `JobScheduling.JobScheduler.SortCandidates` | apps/alcomd-gui/src/core-events.ts:345-346 | The candidates are the eligible jobs, once each, urgent or aged ones first and then by first mark |
| `JobScheduling.JobScheduler.ScheduleJobs` | apps/alcomd-gui/src/core-events.ts:341-366 | One pass over the sorted candidates: starts what is due and has a slot, sets the timer |
| `JobScheduling.JobScheduler.FinishResyncing` | apps/alcomd-gui/src/core-events.ts:367-374 | Forgets changes whose readers have caught up, and publishes ready |
| `JobScheduling.JobScheduler.Invalidate` | apps/alcomd-gui/src/core-events.ts:293-305 | Marks whom the change concerns, remembers it, promotes it past 512 entries, and schedules |
| `JobScheduling.JobScheduler.Register` | apps/alcomd-gui/src/core-events.ts:318-331 | Registers a job, replaces the one before and has it read if it asks to be or its scopes are remembered; without room it notes that an observer waits, or announces each scope of the view once, urgently, in sections of their own |
| `JobScheduling.JobScheduler.Unregister` | apps/alcomd-gui/src/core-events.ts:332-338 | Releases a job, once or again |
| `JobScheduling.JobScheduler.RetryRead` | apps/alcomd-gui/src/core-events.ts:309-313 | Marks a job urgent on request |
| `JobScheduling.JobScheduler.RunIsSettled` | apps/alcomd-gui/src/core-events.ts:356-360 | What the end of a run means for its job |
| `JobScheduling.JobScheduler.RunIsOver` | apps/alcomd-gui/src/core-events.ts:360-363 | Frees the slot, schedules, and may publish ready |
| `JobScheduling.JobScheduler.ConnectionReady` | apps/alcomd-gui/src/core-events.ts:180-187 | Becoming ready marks every job, schedules and may publish ready |
| `JobScheduling.JobScheduler.VisibilityChanged` | apps/alcomd-gui/src/core-events.ts:340 | Being shown again marks every job and schedules |
| `JobScheduling.JobScheduler.CompleteOverflowSync` | apps/alcomd-gui/src/core-events.ts:558 | Only the newest overflow ends the resync |
| `OperationObservers.OperationCache.Observe` | apps/alcomd-gui/src/core-events.ts:521-525 | An observer is entered, its value taken in, and its job registered or left waiting with the note that it waits; whoever is the first and brings no value waits or has a job that is told to read; nobody observed is dropped or goes back |
| `OperationObservers.OperationCache.Unobserve` | apps/alcomd-gui/src/core-events.ts:526-532 | The last observer takes the entry and its job away; calling again changes nothing |
| `OperationObservers.OperationCache.SeedOperation` | apps/alcomd-gui/src/core-events.ts:498-520 | A value replaces an older one, or the same after a failure, for its own operation; exactly an end that was not known is announced; nobody observed is dropped or goes back |
| `OperationObservers.OperationCache.TakeIn` | apps/alcomd-gui/src/core-events.ts:498-520 | What a value changes in the cache, which operation is no longer urgent, and exactly when it announces extensions or backups |
| `OperationObservers.EndIsAnnounced` | apps/alcomd-gui/src/core-events.ts:502-516 | The end of an operation that was known to go on is announced for what it may have changed; a value that is no end, or older than what is known, announces nothing |
| `OperationObservers.OperationCache.Evict` | apps/alcomd-gui/src/core-events.ts:507-511 | Past 5000 the unobserved entries leave, except the one just read, oldest first, and no more than needed, until 5000 are left or only observed ones; no other entry changes |
| `OperationObservers.OperationCache.RegisterOperation` | apps/alcomd-gui/src/core-events.ts:534-543 | The job of an operation is registered, and has the operation read if it asks to be or a change of it is remembered, or it is noted that an observer waits; no other job is told anything |
| `OperationObservers.OperationCache.RegisterWaiting` | apps/alcomd-gui/src/core-events.ts:544-556 | Whoever waits is registered, and told to read, until there is no room; who still waits then is noted, and the table is full |
| `OperationObservers.OperationCache.SeeToWaiting` | apps/alcomd-gui/src/core-events.ts:544-546 | Room that is made is offered to whoever waits, once |
| `OperationObservers.OperationCache.OperationFailed` | apps/alcomd-gui/src/core-events.ts:535-541 | A failed read marks the entry it was for, and keeps its value |
| `OperationObservers.OperationCache.RegisterView` | apps/alcomd-gui/src/core-events.ts:318-331 | A view's job takes room, has what is remembered of its scopes read, and nobody who waits is forgotten |
| `OperationObservers.OperationCache.UnregisterView` | apps/alcomd-gui/src/core-events.ts:332-338 | A view's job that leaves makes room, and whoever waits will be seen to |
| `OperationObservers.RegisteringKeeps` | apps/alcomd-gui/src/core-events.ts:534-543 | The jobs of operations are exactly those of observed entries, and no waiting observer goes unnoted |
| `OperationObservers.LeavingKeeps` | apps/alcomd-gui/src/core-events.ts:526-532 | The same when the last observer leaves |
| `OperationObservers.OtherSectionsKeep` | apps/alcomd-gui/src/core-events.ts:286-374 | Over every sequence of the scheduler's other sections that matching is kept, and nobody who waits is forgotten |
| `EventIngest.NothingIsMissed` | apps/alcomd-gui/src/core-events.ts:126-227 | With an honest daemon, over every run and any loss of connections and acknowledgements: every event up to the subscription's position, and up to the cursor the next one resumes after, was applied or is covered by a resync |
| `EventIngest.NextBatchIsTaken` | apps/alcomd-gui/src/core-events.ts:190-221 | With a daemon that keeps its own rules, over every honest run: the next batch of the present subscription is always taken whole, all its events applied in order and all its scopes invalidated, with or without events, and the connection stays as it is |
| `EventIngest.AllBatchesAreTaken` | apps/alcomd-gui/src/core-events.ts:157-221 | So all batches of a subscription, delivered one after another, are taken, each exactly once and in order |
| `EventIngest.AnswerIsAccepted` | apps/alcomd-gui/src/core-events.ts:166-187 | And an honest answer to a request for a subscription is accepted: the connection is live, at the daemon's baseline |
| `EventIngest.EventsAreAppliedOnce` | apps/alcomd-gui/src/core-events.ts:157-216 | Over every run and whatever the daemon sends: what one connection applies it applies once each, in strictly increasing sequence, after its baseline |
| `EventIngest.BatchesAreAllOrNothing` | apps/alcomd-gui/src/core-events.ts:190-216 | A message applies no event, or is a sound next batch and applies all of them in order and invalidates all its scopes, moving the position past exactly them, and the resources' revision exactly when there is a scope |
| `EventIngest.RepeatedBatchIsOnlyAcknowledged` | apps/alcomd-gui/src/core-events.ts:191-195 | The last batch delivered again is only acknowledged again, and waits for its connection to open if it has not |
| `EventIngest.LateMessagesChangeNothing` | apps/alcomd-gui/src/core-events.ts:158 | Messages of an older connection, or after a stop, change nothing |
| `EventIngest.OlderConnectionsAreHarmless` | apps/alcomd-gui/src/core-events.ts:141-226 | Nothing that comes by an older connection changes the present one, its position or the cursor, except, and always then, the rejected opening that a repeated batch was waiting for |
| `EventIngest.RejectionBreaksNewer` | apps/alcomd-gui/src/core-events.ts:142-193 | Such a rejection, in a run: the newer connection is given up for good |
| `EventIngest.AckGoesBackWhen` | apps/alcomd-gui/src/core-events.ts:217-220 | Over every run and whatever the daemon sends, once an acknowledgement of the present connection has succeeded: the next makes the cursor exactly its batch's, takes it back if and only if the last to succeed was of a later batch, and below some cursor this connection had if and only if one of a later batch had succeeded |
| `EventIngest.CursorGoesBackWhen` | apps/alcomd-gui/src/core-events.ts:217-220 | With an honest daemon the same from the first acknowledgement on, which never takes it back |
| `EventIngest.CursorIsForgottenWhen` | apps/alcomd-gui/src/core-events.ts:228-229 | The cursor is forgotten only when the daemon finds the coordinator too slow, and the connection is another from then on |
| `EventIngest.OverlappingAcksGoBack` | apps/alcomd-gui/src/core-events.ts:217-220 | Two batches of an open connection acknowledged in the wrong order, in a run: the cursor ends at the first |
| `EventIngest.SoundEventsIncrease` | apps/alcomd-gui/src/core-events.ts:204-211 | The event loop accepts exactly the lists that are sound, strictly increasing and newer than the position |
| `EventIngest.ConnectionIsNeverForgotten` | apps/alcomd-gui/src/core-events.ts:126-155 | While active the connection is open, being opened, or tried again within 250 ms to 30 s, or broken for good |
| `EventIngest.RetriesBackOff` | apps/alcomd-gui/src/core-events.ts:238-241 | Each further failed attempt doubles the delay before the next, up to 30 s: after any number of them it is the first delay times that power of two, or 30 s |
| `EventIngest.RetryStartsAfresh` | apps/alcomd-gui/src/core-events.ts:120-125 | The user's wish to try again begins that anew at 250 ms |
| `EventIngest.FaultsAreHeeded` | apps/alcomd-gui/src/core-events.ts:228-244 | However the end of a connection is told, it is given up, and tried again exactly if the fault can be retried |
| `EventIngest.StepKeeps` | apps/alcomd-gui/src/core-events.ts:98-244 | Every section keeps the invariant of sessions, positions and applied events |
| `EventIngest.EventConsumer.ReceiveMessage` | apps/alcomd-gui/src/core-events.ts:157-189 | What each kind of message does |
| `EventIngest.EventConsumer.ReceiveReady` | apps/alcomd-gui/src/core-events.ts:166-187 | The checks of a baseline, and what it sets |
| `EventIngest.EventConsumer.ReceiveBatch` | apps/alcomd-gui/src/core-events.ts:190-227 | The branches of a batch in their order, and what an accepted one sets; what it accepts is stated without them by `NextBatchIsTaken` |
| `EventIngest.EventConsumer.CheckEvents` | apps/alcomd-gui/src/core-events.ts:204-211 | The loop over the events of a batch |
| `EventIngest.EventConsumer.AckIsOver` | apps/alcomd-gui/src/core-events.ts:217-226 | What an acknowledgement's end does; it can only succeed once its connection is open |
| `EventIngest.EventConsumer.RepeatedIsRejected` | apps/alcomd-gui/src/core-events.ts:141-193 | The rejected opening of a repeated batch fails whatever connection there is now |
| `EventIngest.EventConsumer.FailConnection` | apps/alcomd-gui/src/core-events.ts:228-244 | What a failure does, with the doubling delay |
| `EventIngest.EventConsumer.PriorIsClosed` | apps/alcomd-gui/src/core-events.ts:131-143 | The new subscription resumes after the accepted cursor |
| `EventIngest.EventConsumer.Stop` | apps/alcomd-gui/src/core-events.ts:104-110 | Stopping ends the connection and its timer |
| `EventEffects.AppliedEventsReachReads` | apps/alcomd-gui/src/core-events.ts:213-271 | From the daemon to the screen, over every run of the subscription and the reads: once an event is applied, a read it can change, is told of it, and had not resolved by then, resolves with a value asked for after the section that applied it began |
| `EventEffects.BatchScopesReachReads` | apps/alcomd-gui/src/core-events.ts:213 | The same for the scopes a batch names: a read that tracks one, and had not resolved by then, resolves with a value asked for after the section that took the batch in began |
| `EventEffects.EventsReachReads` | apps/alcomd-gui/src/core-events.ts:246-271 | The same for one event on its own: a read it can change and is told of it, and that resolves after it was taken in, resolves with a value asked for after it was, whenever it was called |
| `EventEffects.AppliedIsAnnounced` | apps/alcomd-gui/src/core-events.ts:212-213 | Every event of a batch announces all of its scopes, in the order of the events |
| `EventEffects.UrgentWhen` | apps/alcomd-gui/src/core-events.ts:247-271 | What an event announces is urgent exactly if a word for its kind of aggregate stands somewhere in the name of the event |
| `EventEffects.MentionsIsExact` | apps/alcomd-gui/src/core-events.ts:250 | The search for a word finds it exactly if it stands somewhere |
| `EventEffects.AffectedReadsAreToldWhen` | apps/alcomd-gui/src/core-events.ts:246-271 | Of the reads whose answer an event can change, it announces a scope of all but, and never of, these: the list of operations when an operation makes progress, and the reads of backups when it does anything else |
| `EventEffects.ToldReadsAreAffected` | apps/alcomd-gui/src/core-events.ts:246-271 | And of no other: a read that is told of an event is one whose answer it can change |
| `EventEffects.QuietEventLeavesReadStale` | apps/alcomd-gui/src/core-events.ts:246-263 | Where that ends, for every such event and read: asked for before the event and answered after it was taken in, the read resolves with the old value; a run from the start |
| `EventEffects.AnnouncedIsLogged` | apps/alcomd-gui/src/core-events.ts:246-292 | Everything announced is an invalidation on record |
| `HostProtocol.ProtocolChannel.EventLoop` | apps/alcomd-extension-host/src/main.rs:175-238 | Whatever the daemon sends and the guests do: the trace follows the protocol to the end; each answer carries the result of a guest of its own, in the order they ran, and between the answer before and it all calls of that guest were carried out; the host only stops with an export unanswered when its guest could not be prepared, a call failed or the reply could not be written |
| `HostProtocol.RepliesFollowRequests` | apps/alcomd-extension-host/src/main.rs:184-228 | Exports are answered in order, each once, and at most the last one is open |
| `HostProtocol.NoReplyAfterFailure` | apps/alcomd-extension-host/src/main.rs:211-213 | After a failed call no export result is ever sent |
| `HostProtocol.CallsNameServedContext` | apps/alcomd-extension-host/src/main.rs:728-740 | Every capability call carries the context of the export being served and the host's lease |
| `HostProtocol.AnswerIsNextMessage` | apps/alcomd-extension-host/src/main.rs:741-760 | On every trace of the protocol: if the host writes anything after a call and no call has failed, the very next thing after the call was to accept a result with its identifier, a value or an error and not both |
| `HostProtocol.Wire.AnsweredIsFaithful` | apps/alcomd-extension-host/src/main.rs:728-760 | An answered call is one more frame sent and one more accepted, with the call's capability, input, context and lease, and the value of the answer |
| `HostProtocol.CallIdsDiffer` | apps/alcomd-extension-host/src/main.rs:729-730 | Call identifiers of different numbers differ |
| `HostProtocol.Wire.NextCallIsFresh` | apps/alcomd-extension-host/src/main.rs:729-730 | A call's identifier was never used before |
| `HostProtocol.AcceptedGrows` | apps/alcomd-extension-host/src/main.rs:647-658 | Accepted inbound sequence numbers are consecutive from the bootstrap's |
| `HostProtocol.NumbersSkipTheLost` | apps/alcomd-extension-host/src/main.rs:660-674 | Over every sequence of frames, written or refused: the numbers written increase, are exactly those of the frames written, and all numbers exactly if none was refused |
| `HostProtocol.ConsecutiveWhen` | apps/alcomd-extension-host/src/main.rs:660-674 | They are consecutive if and only if no frame was written after a refused one |
| `HostProtocol.Wire.OutboundNumbers` | apps/alcomd-extension-host/src/main.rs:660-674 | In every reachable state the outbound sequence begins at 1 and increases, and is consecutive if and only if no frame was written after a refused one, which shows in the last number alone |
| `HostProtocol.GapIsReachable` | apps/alcomd-extension-host/src/main.rs:660-700 | A guest whose first call cannot be written and whose second can leaves the gap |
| `HostProtocol.ProtocolChannel.HistoryWithinLimits` | apps/alcomd-extension-host/src/main.rs:702-726 | Over a host's whole life any window has at most the calls per window, and any interval at most the burst plus the rate |
| `HostProtocol.ProtocolChannel.ValidateInbound` | apps/alcomd-extension-host/src/main.rs:647-658 | Accepts exactly the expected next message of this host's identity |
| `HostProtocol.ProtocolChannel.Send` | apps/alcomd-extension-host/src/main.rs:660-674 | Writes under the next sequence number, and fails when it overflows or the pipe refuses |
| `HostProtocol.ProtocolChannel.ConsumeCallBudget` | apps/alcomd-extension-host/src/main.rs:702-726 | Admits a call exactly when both limits allow, and refills only past the window's limit |
| `HostProtocol.ProtocolChannel.CapabilityInner` | apps/alcomd-extension-host/src/main.rs:728-760 | One call: what it writes, what it reads, when it fails |
| `HostProtocol.ProtocolChannel.Capability` | apps/alcomd-extension-host/src/main.rs:676-700 | A call is refused without a trace exactly if its input is too large or the budget is spent; else it is written and what is next read decides: its own answer is the result, unless too large, and anything else fails the host for good |
| `HostProtocol.ProtocolChannel.RunGuest` | apps/alcomd-extension-host/src/main.rs:676-700 | All calls of a guest are carried out one after another, each from where the one before left the host |
| `HostProtocol.ProtocolChannel.ServeExport` | apps/alcomd-extension-host/src/main.rs:199-228 | Serves an export: all calls of its guest are carried out in its context, and it is answered with its identifier and exactly the guest's result, value or error, unless the guest could not be prepared, the export is unknown, one of its calls failed or the reply could not be written; each of these stops is told exactly |
| `HostProtocol.ProtocolChannel.ServeMessage` | apps/alcomd-extension-host/src/main.rs:181-236 | Takes the next message and does what it asks for, or stops, with the exact stop for each message; only an export is answered, with what its guest gave |
| `CallBudget.WindowBound` | apps/alcomd-extension-host/src/main.rs:705-714 | Any half-open interval of one window's length has at most the calls per window |
| `CallBudget.RateBound` | apps/alcomd-extension-host/src/main.rs:715-725 | Any interval has at most the burst plus the rate times its length, in spite of truncated milliseconds and calls the window refused |
| `CallBudget.RefillKeepsCover` | apps/alcomd-extension-host/src/main.rs:715-719 | Refilling keeps the bucket covered by the time that passed |
| `CallBudget.RefillIsEnough` | apps/alcomd-extension-host/src/main.rs:715-719 | A refill never takes anything away, never exceeds the burst, and loses less than what one millisecond gives |
| `CallBudget.PausedIsServed` | apps/alcomd-extension-host/src/main.rs:712-723 | Whoever has asked for nothing over a whole window is not refused for want of a token |
| `CallBudget.RestlessIsStarved` | apps/alcomd-extension-host/src/main.rs:715-722 | Where that ends: requests that come less than a millisecond after one another never refill the bucket, however long they go on, so an empty one refuses all of them |
| `CallBudget.SpendKeepsBound` | apps/alcomd-extension-host/src/main.rs:720-724 | Spending a token keeps the bound on every run of calls |
| `CallBudget.AdmitKeepsSpacing` | apps/alcomd-extension-host/src/main.rs:705-714 | Admitting below the window's limit keeps calls that far apart |
| `LogWindow.LimitWindow` | apps/alcomd-gui/src/OperationLogsRoute.tsx:42-62 | Keeps a contiguous part with the row being read, or the end the read was for, of at most 500 rows and 8 MiB unless it is one row; the room goes to the side the read was for first, and no row next to either end would fit as well |
| `LogWindow.OnePartIsKept` | apps/alcomd-gui/src/OperationLogsRoute.tsx:42-62 | That leaves no choice: only one part of the entries is such a part |
| `LogWindow.OperationLogs.FinishRead` | apps/alcomd-gui/src/OperationLogsRoute.tsx:106-133 | Over every read and filter: what is shown is the one part that can be kept of what was shown joined with the page, still a contiguous slice, newest first; without older it has the oldest record, without newer the head the last refresh or newer read saw, and after reads of older or newer rows both flags are exact; an implausible page is refused |
| `LogWindow.OlderReadGoesOn` | apps/alcomd-gui/src/OperationLogsRoute.tsx:59-118 | A read of older rows that brings any shows older rows than before, unless the rows from the one being read on fill the window by themselves |
| `LogWindow.NewerReadGoesOn` | apps/alcomd-gui/src/OperationLogsRoute.tsx:59-118 | A read of newer rows that brings any shows newer rows than before, unless the rows up to the one being read do |
| `LogWindow.OperationLogs.BeginRead` | apps/alcomd-gui/src/OperationLogsRoute.tsx:91-112 | When a read begins, waits, is dropped, or only notes that there is more; one at a time |
| `LogWindow.OperationLogs.FailRead` | apps/alcomd-gui/src/OperationLogsRoute.tsx:139-148 | A failed read is remembered for the retry only while it still counts |
| `LogWindow.OperationLogs.ChangeFilter` | apps/alcomd-gui/src/OperationLogsRoute.tsx:162-180 | A new filter starts over, and what is under way counts no more |
| `LogWindow.OperationLogs.Append` | apps/alcomd-gui/src/OperationLogsRoute.tsx:91-133 | A growing log leaves what is shown a slice of it |
| `LogWindow.OperationLogs.constructor` | apps/alcomd-gui/src/OperationLogsRoute.tsx:71-83 | A new route shows nothing yet |
| `LogWindow.FlagsAreRight` | apps/alcomd-gui/src/OperationLogsRoute.tsx:126-131 | Whether there is more on either side is answered right for every kind of read |
| `LogWindow.PageMeets` | apps/alcomd-gui/src/OperationLogsRoute.tsx:110-113 | The page of a read lies right before what is shown, right after it, or at the newest end |
| `LogWindow.RestoringReadEndsThere` | apps/alcomd-gui/src/OperationLogsRoute.tsx:107-110 | The page that restores a view ends at the row that is remembered, or the last before it |
| `LogWindow.HonestPagesArePlausible` | apps/alcomd-gui/src/OperationLogsRoute.tsx:115 | A page of an honest daemon is never refused |
| `LogWindow.Join` | apps/alcomd-gui/src/OperationLogsRoute.tsx:116-121 | A page is joined to what is shown without a hole; a refresh with nothing in common replaces it |
| `LogWindow.Merge` | apps/alcomd-gui/src/OperationLogsRoute.tsx:119-121 | One entry for each identity, newest first |
| `Candidates.SlotsAreFair` | apps/alcomd-gui/src/package-candidates.ts:35-42 | Over any callers and failures: at most two queries run, waiting means both slots are held, and slots are given in order of arrival |
| `Candidates.FinishGivesOneSlot` | apps/alcomd-gui/src/package-candidates.ts:41 | A finished query wakes exactly the first waiter or frees exactly one slot |
| `Candidates.CandidateQueries.Query` | apps/alcomd-gui/src/package-candidates.ts:37-39 | A caller gets a slot or waits behind everyone who waits |
| `Candidates.CandidateQueries.QueryOver` | apps/alcomd-gui/src/package-candidates.ts:41 | The slot goes to the first waiter, or is free |
| `Candidates.SummaryIsConsistent` | apps/alcomd-gui/src/package-candidates.ts:46-77 | Against every server: a returned set has the items of its pages, each once, of one fingerprint, complete if every page is; every further page is a summary of the project and revision asked for, and the first if it was sound |
| `Candidates.SummaryEndsRightly` | apps/alcomd-gui/src/package-candidates.ts:46-77 | Against every server: the pages a walk accepts, and what comes after them, decide how it ends: complete at the end of the list, superseded when the caller no longer is current, failed with the request, stale by an unsound page or a repeated item, and exceeded past 100000 items or 1563 pages |
| `Candidates.LimitIsKeptWhen` | apps/alcomd-gui/src/package-candidates.ts:57-77 | Against every server: a returned set has at most 100000 items if and only if there was a second page or the first has at most 100000 |
| `Candidates.TraversalIsExact` | apps/alcomd-gui/src/package-candidates.ts:46-77 | A fixed list paged 64 at a time is returned exactly, if and only if it has at most 100000 entries |
| `Candidates.OversizedPageIsGiven` | apps/alcomd-gui/src/package-candidates.ts:57-77 | One page of 100001 items is returned as it is |
| `Candidates.FinishSummary` | apps/alcomd-gui/src/package-candidates.ts:57-77 | The walk ends on every server, within 1563 pages, with what its definition says |
| `UnityObservation.ObservationConverges` | apps/alcomd-gui/src/unity-window-observation.ts:57-117 | Over every run: one reconciliation at a time, at most one observation started without a settled stop, only the current one's snapshots shown, and whenever nothing is scheduled or changing: if nothing is wanted nothing is watched or shown; else the current observation was started for just what is wanted, and its last snapshot is shown and its changes are read, or it has failed and nothing is shown, or it was skipped |
| `UnityObservation.SkippedWasUnwanted` | apps/alcomd-gui/src/unity-window-observation.ts:82-93 | Over every run, an observation is skipped only by the end of its own start, when something else was wanted by then, and another reconciliation is scheduled |
| `UnityObservation.SkippedIsNeverShown` | apps/alcomd-gui/src/unity-window-observation.ts:57-93 | Where that ends: if what was wanted first is wanted again by the time that reconciliation runs, the observation goes on for just what is wanted, and nothing of it is ever shown or read; a run |
| `UnityObservation.ChangesAreShownWhen` | apps/alcomd-gui/src/unity-window-observation.ts:96-111 | Over every run, a change that was read is shown, and the next read, exactly if its observation is still the current one; a failure clears what is shown |
| `UnityObservation.StartsAlone` | apps/alcomd-gui/src/unity-window-observation.ts:66-84 | A new observation only starts when all earlier ones are stopped and settled |
| `UnityObservation.TargetsAreRight` | apps/alcomd-gui/src/unity-window-observation.ts:49-55 | What is watched is each wanted project once at its highest revision, in order, the first 128 |
| `UnityObservation.TargetsIgnoreOrder` | apps/alcomd-gui/src/unity-window-observation.ts:49-55 | Who subscribed when makes no difference |
| `UnityObservation.StepKeeps` | apps/alcomd-gui/src/unity-window-observation.ts:36-117 | Every section keeps the invariant |
| `UnityObservation.UnityWindowObservation.WantedTargets` | apps/alcomd-gui/src/unity-window-observation.ts:49-55 | The loop that finds the targets |
| `UnityObservation.UnityWindowObservation.RunMicrotask` | apps/alcomd-gui/src/unity-window-observation.ts:57-75 | A scheduled reconciliation does nothing if nothing changed, stops the previous observation, or starts anew |
| `UnityObservation.UnityWindowObservation.StartIsSettled` | apps/alcomd-gui/src/unity-window-observation.ts:82-93 | What a started, or failed, observation leads to |
| `UnityObservation.UnityWindowObservation.NextIsSettled` | apps/alcomd-gui/src/unity-window-observation.ts:96-111 | A change read is shown only for the current observation |
| `OperationHistory.MergeHasHighest` | apps/alcomd-gui/src/OperationItems.tsx:13-20 | A merge is strictly descending, without repetition, and has exactly the highest revision of every operation in either list |
| `OperationHistory.MergeIsIdempotent` | apps/alcomd-gui/src/OperationItems.tsx:13-20 | Merging again what was merged changes nothing |
| `OperationHistory.MergeIgnoresOrder` | apps/alcomd-gui/src/OperationItems.tsx:13-20 | Merging in two goes is merging at once, in either order |
| `OperationHistory.TakeInTakesHighest` | apps/alcomd-gui/src/OperationItems.tsx:14-18 | Newer revisions and the same revision read later replace what is known, older ones do not |
| `OperationHistory.Merge` | apps/alcomd-gui/src/OperationItems.tsx:13-20 | The loops of a merge, and its order |
| `OperationHistory.ListHasNoHole` | apps/alcomd-gui/src/OperationItems.tsx:31-156 | Over every history of rounds, further pages, updates and reopenings: the list has everything the daemon had when the head was last read, from the list's cursor up, if every round was the first or began with nothing newer, down to its boundary, than all there was at the round before |
| `OperationHistory.RoundCoversWhen` | apps/alcomd-gui/src/OperationItems.tsx:62-107 | After a round the list has everything from its cursor up that the daemon had when the head was read if and only if the walk passed over none: no operation below where it stopped that neither the list nor the active operations have |
| `OperationHistory.NextRoundCoversWhen` | apps/alcomd-gui/src/OperationItems.tsx:62-107 | A round keeps a list without a hole if and only if it passes over no operation that is new since the round before |
| `OperationHistory.AnchoredRoundCovers` | apps/alcomd-gui/src/OperationItems.tsx:65-80 | It passes over none if nothing in the list was newer than everything the daemon had then |
| `OperationHistory.EndedOperationIsPassedOver` | apps/alcomd-gui/src/OperationItems.tsx:62-107 | Where that ends: an operation made and ended between two rounds, with a newer active one already in the list, is in neither part and no cursor leads to it; a concrete history |
| `OperationHistory.NewerIsShown` | apps/alcomd-gui/src/OperationItems.tsx:65-107 | After a round the list has every operation the daemon had when the head was read that is newer than every one saved |
| `OperationHistory.BoundaryIsShown` | apps/alcomd-gui/src/OperationItems.tsx:65-107 | And, without anything saved, the operation the boundary is the place of |
| `OperationHistory.RoundReadsNoFurther` | apps/alcomd-gui/src/OperationItems.tsx:69-80 | A round reads on exactly while there are more pages and the last one read ends with an operation newer than all that was saved, or than the history loaded |
| `OperationHistory.RoundWithoutCursor` | apps/alcomd-gui/src/OperationItems.tsx:62-107 | A list saved without a cursor gets none from a round, and has all there is if and only if it had, or has as active, all that lies below where the walk stopped |
| `OperationHistory.NoMoreUntilReopened` | apps/alcomd-gui/src/OperationItems.tsx:140-141 | Over every history, such a list has no further pages to load until its view is opened again |
| `OperationHistory.ReopeningCovers` | apps/alcomd-gui/src/OperationItems.tsx:31-34 | Then it has all there is down to the end of the page its view is opened with, and goes on from there |
| `OperationHistory.EmptyListIsCut` | apps/alcomd-gui/src/OperationItems.tsx:31-156 | A history of a list that began empty: a later round leaves a hole, opening the view again and loading more brings what is missing |
| `OperationHistory.OpenedCovers` | apps/alcomd-gui/src/OperationItems.tsx:31-34 | A list without anything saved begins without a hole |
| `OperationHistory.MoreCovers` | apps/alcomd-gui/src/OperationItems.tsx:140-150 | Loading more goes on where the list ends, without a hole, though the daemon may have new operations by then |
| `OperationHistory.HistoryEndsAtBoundary` | apps/alcomd-gui/src/OperationItems.tsx:81-150 | After a first round or a further page of an honest daemon the boundary is where the list's cursor is |
| `OperationHistory.NoStaleActive` | apps/alcomd-gui/src/OperationItems.tsx:96-107 | After a round no operation is shown as active from before it: each is as this round read it, or newer |
| `OperationHistory.CursorsGoDown` | apps/alcomd-gui/src/OperationItems.tsx:71-80 | An honest walk never comes by a cursor twice |
| `OperationHistory.FollowBack` | apps/alcomd-gui/src/OperationItems.tsx:69-80 | The loop that follows the head back, and how it ends: at the first page that has no successor or ends no newer than the boundary, or at a cursor it had before |
| `OperationHistory.CollectActive` | apps/alcomd-gui/src/OperationItems.tsx:82-95 | The loop over the pages of active operations: each once, as it was seen last |
| `OperationHistory.FormerlyIsExact` | apps/alcomd-gui/src/OperationItems.tsx:97-101 | Asked for one by one is exactly what the list had as active and is no longer |
| `OperationHistory.OperationSession.constructor` | apps/alcomd-gui/src/OperationItems.tsx:31-34 | A session begins with what was saved and the first page, merged, and the saved cursor or the page's |
| `OperationHistory.OperationSession.AskLatest` | apps/alcomd-gui/src/OperationItems.tsx:56-64 | A request for the newest operations begins a round, or is queued behind what is being read |
| `OperationHistory.OperationSession.FindBoundary` | apps/alcomd-gui/src/OperationItems.tsx:65-66 | How far back a walk goes: the newest saved operation, or how far the history was loaded |
| `OperationHistory.OperationSession.FormerlyActive` | apps/alcomd-gui/src/OperationItems.tsx:97-101 | The loop over the former active operations |
| `OperationHistory.OperationSession.FinishRound` | apps/alcomd-gui/src/OperationItems.tsx:81-108 | A round merges its walk, the active operations and the former ones, sets cursor and boundary if it is the first, and is followed by another if anyone asked meanwhile |
| `OperationHistory.OperationSession.Update` | apps/alcomd-gui/src/OperationItems.tsx:119-122 | A changed operation is taken in if the list has it |
| `OperationHistory.OperationSession.BeginMore` | apps/alcomd-gui/src/OperationItems.tsx:140-142 | Further pages are read one at a time, and not during a round |
| `OperationHistory.OperationSession.FinishMore` | apps/alcomd-gui/src/OperationItems.tsx:143-155 | A further page extends list, cursor and boundary; a failed one changes nothing; a round begins if anyone asked meanwhile |
| `Routes.RouteRoundTrip` | apps/alcomd-gui/src/App.tsx:792-849 | Reading the path and query of a route gives the route back, if and only if its identifier, if it has one, is not empty |
| `Routes.ReadIsWritten` | apps/alcomd-gui/src/App.tsx:792-849 | What is read as a route, except from the bare address, is written as the very same segments, and whether a migration opens the project as it was read |
| `Routes.NotFoundWhen` | apps/alcomd-gui/src/App.tsx:792-824 | Segments are not found if and only if there are any and no route is written as them; no segments are the projects |
| `Routes.RootIsProjects` | apps/alcomd-gui/src/App.tsx:793-794 | The bare address is the projects page, with any query |
| `Routes.AddressesTellRoutes` | apps/alcomd-gui/src/App.tsx:114-118 | Two routes have the same address if and only if they are the same, even with an empty identifier, so comparing addresses compares routes |
| `Routes.JoinTells` | apps/alcomd-gui/src/App.tsx:826-849 | Joining segments loses nothing, not even that one is empty |
| `Routes.EncodingRoundTrip` | apps/alcomd-gui/src/App.tsx:792-849 | Whatever characters a segment has, decoding what was encoded gives it back |
| `Routes.EncodingIsSafe` | apps/alcomd-gui/src/App.tsx:826-849 | An encoded segment has no character that ends a segment or a path |
| `Routes.PathRoundTrip` | apps/alcomd-gui/src/App.tsx:792-794 | A path of encoded segments is read back as the segments, without the empty ones |
| `Routes.UnnamedIsAnother` | apps/alcomd-gui/src/App.tsx:792-824 | A route with an empty identifier is read back as another route |

## Left out

- React components, focus, scrolling and translations: anchors, visibility and whether a list is scrolled are inputs.
- The transport of calls and events, framing, Wasmtime, fuel and epochs: peers and guests are arbitrary sources of messages.
- Callbacks that call back into the coordinator while it notifies them, and code of a read or job that runs before its first await: sections are not re-entered.
- The urgency that `changed` gives to operations and to the list of operations (core-events.ts:251, 261), and that `finishResync` takes back from the list (core-events.ts:368): what is urgent is an input of `ReadCoordination`.
- `lookupResourceImpact` (core-events.ts:272-285): its jobs are ordinary jobs and its refusals ordinary invalidations.
- `consumeTerminal`, `metadata`, `writeView` and the view cache (core-events.ts:560-587): bookkeeping without effect on the rest.
- The `then` and `finally` of a run or read are separate sections that others may come between; the program has less freedom there than the model.
- JobScheduling.StartsAreSpaced: assumes for the interval that the clock never went back, which the program does not check.
- OperationObservers.OperationCache.RegisterWaiting: while the coordinator is stopped nobody is seen to, and the model remembers that it was skipped.
- Scopes with a colon other than operations: no view registers any, so promoting one never removes entries of its category.
- The tokens of the call budget are reals where the program has 64-bit floats; rounding is not modelled, and times are whole nanoseconds.
- EventIngest.NothingIsMissed: events of other owners may be missing from the sequence, and the daemon is taken to send consecutive slices and to resume where it is asked to unless it demands a resync, as crates/alcomd-client/src/events.rs:106-115 enforces.
- EventIngest.NextBatchIsTaken: the daemon's rules are those of crates/alcomd-application/src/events.rs:196-226 and apps/alcomd/src/events_rpc.rs:161-224, and its sequence and revision are taken to fit in 53 bits, which the daemon does not check.
- Identifiers, kinds and timestamps of events are one flag, whether they are well formed.
- Versions of a log entry: the log is append-only and an entry never changes; sizes of encoded entries are arbitrary numbers.
- OperationHistory.ListHasNoHole: operations created after the head was read are for the next round, which their event asks for; the daemon is taken to create operations in the order of their keys and to end a page at its last operation (crates/alcomd-store/src/sqlite.rs:1331-1350).
- OperationHistory.CollectActive: which active operations the daemon lists is arbitrary; what a round misses is stated for whatever it got.
- ConsistentReads.ConsistentRead: the value is the pages a load asks for; what it makes of them is not modelled, and whether it fails is an input.
- EventEffects.AffectedReadsAreToldWhen: which answers an event can change is a table of this model, from what the daemon's queries select. Templates have events of their own and extensions a scope of the batch; what `lookupResourceImpact` finds out later is announced later.
- EventEffects.AppliedEventsReachReads: what each event is, and whether its operation waits for a job, are given by arbitrary functions; reads and subscription share no connection state in that run, so it allows more runs than the program has.
- `validateVersionPage` and the conversions of package-candidates.ts: one check each.
- `localeCompare` is an arbitrary total order on identifiers, represented by numbers.
- UnityObservation.ObservationConverges: which observation is shown is modelled, not the states it shows; after a failure nothing is shown until the targets change, as in the program.
- Routes.RouteRoundTrip: the query is the list of names and values that URLSearchParams makes of it, and a browser's removal of dot segments, which changes identifiers `.` and `..`, comes before and is not modelled.
- Settings autosave, portable UI and window state are not part of this model.
