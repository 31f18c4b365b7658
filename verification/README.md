# Live observation and event commitment, verified

A Dafny model of the parts of Arc for TypeScript in which something can go wrong between two awaits, with proofs of what
holds in every run.

**Live observation** (`Source/Drizzle`). `PostgreSQLObservationManager` is one tenant's shared LISTEN session: leases and
their routes, connection generations, bounded recovery, revalidation, and the barrier between one socket's close and the
next one's connect. `DrizzleObservationSession` is the single-flight reader behind a live query. `ObservationGate` says what
a session may rely on; `FencedObservation` proves what follows for any source that keeps those promises;
`ObservationPromises` proves that the manager does; `ObservationSystem` runs the two together. The invariants of the manager
are in `ObservationRouting`, `ObservationSockets` and `ObservationLifecycle`; what its turning points amount to in
`ObservationOutcomes`, and what a session owes and shows in `DrizzleSessionOutcomes`; bounds and progress in
`ObservationRecovery`; what it takes for a lease to be served, and to be served again, in `ObservationVetting` and
`ObservationRevalidation`. `ObservationEvents` and `DrizzleSessionEvents` say what each event must lead to,
`ObservationProgress` that good answers lead to an available entry and a filed lease, `ObservationSystemEvents` what the
events of a whole run mean for the values a session accepts, and `ObservationDelivery` how a committed change reaches a
subscriber.
`DrizzleObservable`, `ChangeListeners`, `DrizzleChangeNotifications` and `DrizzleReadModels` cover adoption, the in-process
change bus and stable pages; `ChangeNotificationEvents` says of the calls on the bus who hears of what.

**Event commitment** (`Source/Chronicle`). `ChronicleUnitOfWork` is a chain of nested commands that fills one batch;
`ChronicleConservation` proves where its events go and what its disposition means, `ChronicleLedger` the same of what its
steps returned and applied, `ChronicleAnswers` what it answers; `ChronicleCommand` classifies acknowledgements.
`ChronicleArtifactActivator` is the lease and shutdown protocol of activated artifacts, `ChronicleActivationEvents` what
each call does to a lease, `KernelReleasedReadModels` the marking of released object graphs, and `ReplayRule` the
reachability analysis of lint rule arcchr0006; both graph algorithms share `Graphs`.

**MongoDB** (`Source/MongoDB`). `MongoDBWatcher` is the shared change stream, `MongoDBWatcherEvents` what its events mean to
its listeners, `MongoDBSelection` the coalescing loop over it; `MongoDocumentCodec` and `MongoGeoJSON` are the codecs and
their round trips, and `MongoStoredForms` what is literally stored.

## How it is modelled

A protocol is a state machine whose steps are the code segments between awaits; a suspended coroutine is a value of the
state. The environment chooses everything else: which coroutine goes on, what a driver answers and when, timeouts, losses,
late results, releases, cancellation. Theorems about runs quantify over every sequence of such steps. Where the program
updates objects in place, classes hold its fields, and an abstraction function says what the machine sees of them; every
method is proved to move the objects as the machine moves its value, so what is proved of all runs holds of the objects.
Objects that the program shares by reference are shared here, too: the lease objects that an entry's set, its routes and its
coroutines refer to (`LiveLeases`), the connections that an entry, its close barrier and the tenant's next entry refer to
(`LiveSockets`, `LiveManager`), the promises that a session's fields and its waiting callers refer to (`LiveSession`), and
the listeners and streams of a watcher and its pumps (`LiveWatcher`). `LiveUnitOfWork`, `LiveChangeNotifications` and the
classes in `ChronicleArtifactActivator`, `DrizzleObservable`, `MongoDBSelection`, `KernelReleasedReadModels` and `ReplayRule`
do the same for the rest. Fields marked as history record what happened; the program does not store them and no step reads
them. That they record what happened is proved, too: the modules named for events define what a run's events amount to
from its trace alone, and prove that the history says the same.

Assumptions about the surroundings:

- A promise that settles and the continuation that awaits it, up to that continuation's next await, are one step. In
  particular nothing happens between the last check of `start()` and the line of `recover()` that follows it.
- The callbacks of a lease do not throw, and a session that is told of its end releases its lease.
- Table mappings, database names and trigger checks are answers of the environment: good, failed, or definitively failed.
- A factory's connection is new: the same connection is not handed over twice.
- Response values of one command are handled one at a time; `ChronicleConservation.OverlappingHandlesDuplicate` shows why.
- Between the first line of `ChronicleCommandScope.complete` and its append no further event is applied or returned.
- A lifetime that settles leaves the active set before `drain` resumes, in the order in which the two were registered.

## What the proofs found

- A failed wait for observers after a complete acknowledgement reaches the `catch` of `ChronicleUnitOfWork.commit`, which
  overwrites `Committed` with `NotCommitted` (`ChronicleConservation.HonestExactlyWithoutWaiting`).
- Releasing a change-bus handle a second time can unregister a newer listener (`ChangeListeners.SecondReleaseIsHarmlessExactly`).
- Two kinds of model do not survive storage unchanged, and no others: an empty concept comes back as what it wraps, and a
  field left undefined comes back as what its constructor assigns (`MongoDocumentCodec.SerializedDeserializes`).
- An object that gains a child after it was marked as released hides the child from later marking
  (`KernelReleasedReadModels.MarkingReachesEverythingExactly`).

## Model

| member | source | states |
|---|---|---|
| `DrizzleObservationSession.NextKeeps` | Source/Drizzle/DrizzleObservationSession.ts:31-212 | Every callback, resumed read, pump turn and waiting caller keeps the invariant of a session: one reader at a time, every owed read on its way, a clean session is up to date, the subscriber saw the snapshot. |
| `DrizzleObservationSession.RunKeeps` | Source/Drizzle/DrizzleObservationSession.ts:31-212 | The same over every run from the constructor, fenced or not, under any readiness and generations. |
| `DrizzleObservationSession.ReadsNeverOverlap` | Source/Drizzle/DrizzleObservationSession.ts:140-172 | In no run are two reads of a session in flight at once, the first read included. |
| `DrizzleObservationSession.RestingSessionHasConverged` | Source/Drizzle/DrizzleObservationSession.ts:94-172 | When an open session that has shown something is at rest, the last value its subscriber saw is its snapshot, whose read began after the last change. |
| `DrizzleSessionOutcomes.OwedReadsAreOnTheirWay` | Source/Drizzle/DrizzleObservationSession.ts:94-172 | An open session that owes a catch-up has a read scheduled or running; so has a dirty one that was adopted, unless its adopter still waits for the first emission. |
| `DrizzleSessionOutcomes.RestingSubscribersAreUpToDate` | Source/Drizzle/DrizzleObservationSession.ts:94-172 | The same of any subscriber of an open session at rest whose adoption is over, whether or not it had seen anything. |
| `DrizzleSessionOutcomes.FirstEmissionsAreFollowedUp` | Source/Drizzle/DrizzleObservationSession.ts:104-107 | That first emission shows the snapshot and sees to it that what changed meanwhile is read next. |
| `DrizzleSessionOutcomes.UnreadChangesStayOwed` | Source/Drizzle/DrizzleObservationSession.ts:43-51 | No counted change is forgotten: until a read that began after the last one is accepted, the session is dirty, or its running turn reads after it. `EveryChangeCounts` says which changes are counted. |
| `DrizzleSessionOutcomes.TurnsShowWhatTheyRead` | Source/Drizzle/DrizzleObservationSession.ts:146-170 | A turn that ended is followed by another exactly when a value was accepted, the session is open and something changed meanwhile; an accepted value becomes the snapshot and what the subscriber sees. |
| `DrizzleSessionOutcomes.EveryValueWasRead` | Source/Drizzle/DrizzleObservationSession.ts:77-112 | In every run nobody is shown or answered anything but a value that a read returned and the session accepted. |
| `DrizzleSessionOutcomes.NobodyWaitsAtRest` | Source/Drizzle/DrizzleObservationSession.ts:85-88 | When the session is at rest, nobody waits for a promise that is still to be settled. |
| `DrizzleSessionOutcomes.ClosedForGood` | Source/Drizzle/DrizzleObservationSession.ts:174-212 | A session that failed or was closed has let go of its lease and of every catch-up waiter, and never again accepts, shows or answers anything; how it ended stays. |
| `DrizzleSessionOutcomes.OnlyAskedCatchupsAreOwed` | Source/Drizzle/DrizzleObservationSession.ts:43-51 | Over a source that never asks for a catch-up, as the in-process bus never does, none is ever owed, awaited or retired. |
| `DrizzleSessionEvents.EveryChangeCounts` | Source/Drizzle/DrizzleObservationSession.ts:43-51 | Over every run the changes and catch-up requests a session has counted are exactly those its source announced while it was open. |
| `DrizzleSessionEvents.ChangesAreNoted` | Source/Drizzle/DrizzleObservationSession.ts:43-51 | An announced change makes an open session dirty, adopted or not; it has a read under way if it was adopted or the change asks for a catch-up, which is then owed. |
| `DrizzleSessionEvents.EndsAreHeard` | Source/Drizzle/DrizzleObservationSession.ts:174-212 | A source that fails ends an open session as failed, a close as closed; it lets go of its lease and turns away whoever only asked. |
| `DrizzleSessionEvents.PumpedValuesAreTaken` | Source/Drizzle/DrizzleObservationSession.ts:150-166 | A turn whose read returns under the live generation makes that value the snapshot, releases the catch-up it set out to serve, and shows it if something was shown before. |
| `DrizzleSessionEvents.FirstValuesAreTaken` | Source/Drizzle/DrizzleObservationSession.ts:61-67 | So does the first read. |
| `DrizzleSessionEvents.FencedReadsAreThrownAway` | Source/Drizzle/DrizzleObservationSession.ts:128-137 | A read that a lost listener overtook, whether it returned or threw, changes nothing that can be seen and is begun anew. |
| `DrizzleSessionEvents.BrokenReadsFailTheSession` | Source/Drizzle/DrizzleObservationSession.ts:167-187 | An error that no lost listener explains, or a refused readiness, fails the session, and nobody is shown anything. |
| `DrizzleSessionEvents.ReadsBeginWhenReady` | Source/Drizzle/DrizzleObservationSession.ts:125-129 | A read begins when the readiness it awaits has come, under the generation that readiness names. |
| `DrizzleSessionEvents.ScheduledTurnsBegin` | Source/Drizzle/DrizzleObservationSession.ts:114-149 | A scheduled turn of a dirty session with a snapshot begins to read, and is a catch-up if one is owed. |
| `DrizzleSessionEvents.JoinersWait` | Source/Drizzle/DrizzleObservationSession.ts:77-98 | Whoever asks or adopts an open session waits for its first read, and the first to adopt it is its subscriber. |
| `DrizzleSessionEvents.AdmittedCallersAreServed` | Source/Drizzle/DrizzleObservationSession.ts:84-107 | An admitted caller is answered with the snapshot at once if nothing is owed or read; otherwise it waits for the catch-up, else for the read in flight. |
| `DrizzleSessionEvents.ServedCallersAreAnswered` | Source/Drizzle/DrizzleObservationSession.ts:86-107 | When that read is over the caller is answered with the snapshot, and an adopter has been shown it. |
| `DrizzleSessionEvents.DeniedCallersGo` | Source/Drizzle/DrizzleObservationSession.ts:108-111 | A refused caller goes without an answer; a refused adopter closes the session. |
| `DrizzleSessionEvents.ValuesAreTakenNow` | Source/Drizzle/DrizzleObservationSession.ts:123-138 | No step accepts a value but one read under the generation that is live at that moment. |
| `FencedObservation.ReadSurvives` | Source/Drizzle/DrizzleObservationSession.ts:123-138 | Heart of the fence: a read that a step of the entry could have invalidated no longer carries the entry's generation. |
| `FencedObservation.ApplyKeeps` | Source/Drizzle/DrizzleObservationSession.ts:31-212 | A session and any change source that keeps its promises keep the fencing invariant in every step of either. |
| `FencedObservation.EveryAcceptedReadIsUnbroken` | Source/Drizzle/DrizzleObservationSession.ts:123-138 | Generation fencing: every value ever accepted was read wholly inside one listener generation, live from start to acceptance, with no loss in between. |
| `FencedObservation.EveryCatchupIsServed` | Source/Drizzle/DrizzleObservationSession.ts:45-49 | A catch-up waiter is released only by a read that began after every catch-up asked for before its release. |
| `FencedObservation.NobodyIsAnsweredFromBeforeTheirWait` | Source/Drizzle/DrizzleObservationSession.ts:77-112 | Nobody is handed a snapshot older than the generation whose readiness admitted them. |
| `FencedObservation.RestingObservationIsCurrent` | Source/Drizzle/DrizzleObservationSession.ts:94-172 | At rest over an available entry, the shown snapshot was read under the present generation, after the last change. |
| `ObservationLifecycle.NextKeeps` | Source/Drizzle/PostgreSQLObservationManager.ts:44-383 | Every event keeps the entry's invariant: truthful promises and heartbeats, routing, socket ownership, and exactly one phase. |
| `ObservationLifecycle.TenantRunKeeps` | Source/Drizzle/PostgreSQLObservationManager.ts:44-74 | The same over the whole history of a tenant, through entries that die and are created anew. |
| `ObservationLifecycle.LiveEntryWorksOrRecovers` | Source/Drizzle/PostgreSQLObservationManager.ts:235-320 | A live entry that has been ready is in exactly one of two states: available, with an open connection, an un-aborted controller and readiness resolved with the current generation; or unavailable with exactly one recovery in flight. `BadNewsIsALoss` says what takes it from one to the other. |
| `ObservationLifecycle.LostKeeps` | Source/Drizzle/PostgreSQLObservationManager.ts:235-255 | A loss at any moment leaves that alternative intact: it ends an entry that was never ready, and otherwise fences, closes and starts no second recovery. |
| `ObservationEvents.BadNewsIsALoss` | Source/Drizzle/PostgreSQLObservationManager.ts:235-255 | A disconnect of the current connection, a timeout under the live controller and a failed heartbeat of the current generation are losses: one more is counted, the generation moves on, nothing may be read, operations are aborted, the connection is closing; the entry recovers, or ends if it was never ready. |
| `ObservationEvents.OldNewsIsIgnored` | Source/Drizzle/PostgreSQLObservationManager.ts:142-146 | The same from a connection, controller or heartbeat that has been replaced changes nothing. |
| `ObservationEvents.AcquiredLeasesAreHeld` | Source/Drizzle/PostgreSQLObservationManager.ts:61-79 | An acquired lease is held, unvalidated, and waits for the entry to start. |
| `ObservationEvents.NewEntriesStart` | Source/Drizzle/PostgreSQLObservationManager.ts:47-60 | Without an entry `acquire` creates one with that lease alone, and it begins to start. |
| `ObservationEvents.ReleasedLeasesAreGone` | Source/Drizzle/PostgreSQLObservationManager.ts:64-75 | A release takes its own lease out of the set and every route and tells nobody; with the last lease the entry ends and its connection closes. |
| `ObservationEvents.LateConnectionsAreClosed` | Source/Drizzle/PostgreSQLObservationManager.ts:131-132 | A connection nobody waits for any more is closed, and nothing else happens. |
| `ObservationEvents.HandedConnectionsAreTaken` | Source/Drizzle/PostgreSQLObservationManager.ts:131-152 | The connection a start waits for is held and connected when it is whole, otherwise closed when it can be. |
| `ObservationEvents.ClosesSettle` | Source/Drizzle/PostgreSQLObservationManager.ts:347-357 | A close that settles takes its connection out of use and lowers the barrier it stands for. |
| `ObservationEvents.DisposalEnds` | Source/Drizzle/PostgreSQLObservationManager.ts:373-383 | Disposal ends a live entry, completes exactly the leases it held, each once, and closes its connection. |
| `ObservationEvents.TransientFailuresSpendARetry` | Source/Drizzle/PostgreSQLObservationManager.ts:294-318 | A failure that a retry could change keeps every lease, closes the attempt's connection and spends one retry, or ends the entry when none is left. |
| `ObservationEvents.DefinitiveOutcomesFailOneLease` | Source/Drizzle/PostgreSQLObservationManager.ts:294-301 | An outcome that no retry can change fails and releases exactly the lease it is about; no retry is spent and the attempt goes on over the same connection. |
| `ObservationEvents.RefusedLeasesAreReleased` | Source/Drizzle/PostgreSQLObservationManager.ts:111-117 | A new lease whose validation is refused, with no loss to excuse it, is released and waits for nothing. |
| `ObservationEvents.StaleChecksStartOver` | Source/Drizzle/PostgreSQLObservationManager.ts:80-95 | A lease that was being validated when the listener was lost starts over. |
| `ObservationOutcomes.FailedStartsEndTheEntry` | Source/Drizzle/PostgreSQLObservationManager.ts:54-58 | The first start ends the entry exactly when it fails, and tells exactly the leases that were held; when it is done, the entry holds a connection in use. |
| `ObservationOutcomes.TerminationLeavesNothing` | Source/Drizzle/PostgreSQLObservationManager.ts:322-345 | Termination leaves no route, no identity, no held lease, no waiting promise and no connection that is not closing; exactly those who were held are told, each once. |
| `ObservationOutcomes.RecoveredEntriesServe` | Source/Drizzle/PostgreSQLObservationManager.ts:305-312 | A recovery that succeeds leaves an available entry under the generation its leases were validated under, and asks exactly the held, validated leases to catch up. |
| `ObservationOutcomes.FiledLeasesAreServed` | Source/Drizzle/PostgreSQLObservationManager.ts:93-109 | The last check files a lease exactly when it is held, what it learned still counts and nothing contradicts; then it is routed over a working entry, which the first such lease opens. |
| `ObservationProgress.GoodAnswersStart` | Source/Drizzle/PostgreSQLObservationManager.ts:124-155 | A first start whose operations all succeed starts the entry, with a connection and every lease it had. |
| `ObservationProgress.GoodAnswersRecover` | Source/Drizzle/PostgreSQLObservationManager.ts:257-320 | A recovery whose operations all succeed makes the entry available again with every lease it had, and nobody is told of an end. |
| `ObservationProgress.GoodAnswersFile` | Source/Drizzle/PostgreSQLObservationManager.ts:76-110 | A lease whose checks all succeed, and whose table is not read from elsewhere already, is filed and routed, and readers may read. |
| `ObservationLifecycle.OneConnectionPerTenant` | Source/Drizzle/PostgreSQLObservationManager.ts:124-155 | At most one connection of a tenant has had `connect` called without its `close` having settled. |
| `ObservationLifecycle.EveryConnectionIsOwned` | Source/Drizzle/PostgreSQLObservationManager.ts:203-233 | Every connection handed over, late and wrongly shaped ones included, has close scheduled at most once, and if it can be closed it is held by the live entry or closing. |
| `ObservationLifecycle.NotificationsReachExactly` | Source/Drizzle/PostgreSQLObservationManager.ts:143-151 | A notification reaches exactly the held leases that were validated for its key, and only from the current connection. |
| `ObservationRouting.DropKeeps` | Source/Drizzle/PostgreSQLObservationManager.ts:64-75 | A released lease is in no route and not in the set, everybody else is where they were, and its table is forgotten exactly with the last lease that reads it. |
| `ObservationRouting.RouteKeeps` | Source/Drizzle/PostgreSQLObservationManager.ts:95-103 | Filing a lease keeps index and lease set in agreement, when its table's identity does not contradict. |
| `ObservationRouting.ReleaseAllKeeps` | Source/Drizzle/PostgreSQLObservationManager.ts:331-345 | When an entry ends, nothing is held or routed, whoever was held is released, and nobody else is touched. |
| `ObservationRouting.ReachesExactly` | Source/Drizzle/PostgreSQLObservationManager.ts:147-151 | Under that agreement a route is exactly the held leases validated for its key. |
| `ObservationSockets.ConnectKeeps` | Source/Drizzle/PostgreSQLObservationManager.ts:124-153 | Connecting is safe once the barrier is down and the entry holds nothing. |
| `ObservationSockets.HandKeeps` | Source/Drizzle/PostgreSQLObservationManager.ts:131-141 | A connection nobody waits for, or of the wrong shape, is closed at once when it can be closed. |
| `ObservationSockets.CloseSettlesKeeps` | Source/Drizzle/PostgreSQLObservationManager.ts:347-357 | The barrier falls exactly with the close it stands for, and then nothing of a tenant without a connection is in use; no other socket is affected. |
| `ObservationSockets.AtMostOneInUse` | Source/Drizzle/PostgreSQLObservationManager.ts:347-357 | Ownership and barrier together admit one socket in use. |
| `ObservationPromises.StepMoves` | Source/Drizzle/PostgreSQLObservationManager.ts:44-383 | Every step but an answered heartbeat takes nothing back and refills no budget: settled promises, generations, keys and releases only advance; only a success answers catch-ups; ends are told once. |
| `ObservationPromises.EntryIsReliable` | Source/Drizzle/PostgreSQLObservationManager.ts:120-121 | The manager refines the gate a session relies on: what `whenReady` and `isCurrent` tell any one lease is sound in every step. |
| `ObservationPromises.StepEndsOnce` | Source/Drizzle/PostgreSQLObservationManager.ts:322-345 | A lease is told of its end at most once, only while it is held, and is released with it. |
| `ObservationRecovery.RecoveryIsBounded` | Source/Drizzle/PostgreSQLObservationManager.ts:257-264 | Between answered heartbeats an entry starts no more attempts than it has delays left; failed or merely reconnected attempts never refill the budget. |
| `ObservationRecovery.OnlyCurrentAnswersRefill` | Source/Drizzle/PostgreSQLObservationManager.ts:189-200 | The answer to a heartbeat of the present connection arrives only while available and restores the whole budget; a stale answer restores nothing. |
| `ObservationRecovery.AnswersPayForAttempts` | Source/Drizzle/PostgreSQLObservationManager.ts:189-200 | Over any run an entry starts at most what was left of its budget, plus one budget for every current heartbeat answered. |
| `ObservationRecovery.ReleasedHearsNothing` | Source/Drizzle/PostgreSQLObservationManager.ts:322-329 | A lease whose observation ended never hears of an end again. |
| `ObservationRecovery.EveryRecoveryStepIsNearer` | Source/Drizzle/PostgreSQLObservationManager.ts:257-320 | Every step of a recovery that changes anything is nearer its end, by a rank of attempts, stages and checks left. |
| `ObservationRecovery.RecoveryIsNeverStuck` | Source/Drizzle/PostgreSQLObservationManager.ts:203-233 | A recovery can always proceed: the failure that every bounded wait can end in takes it on. |
| `ObservationRecovery.RecoveryEnds` | Source/Drizzle/PostgreSQLObservationManager.ts:257-320 | Every recovery ends: however its operations settle, whatever happens in between and however many leases join, after finitely many of its moves the entry is available again, or dead. |
| `ObservationRecovery.FailedAttemptsSpendTheBudget` | Source/Drizzle/PostgreSQLObservationManager.ts:257-264 | A failed attempt begins the next one while the budget lasts; when it is spent the entry dies, and exactly the leases it held are told, each once. |
| `ObservationRecovery.OnlyRecoveryMovesRecovery` | Source/Drizzle/PostgreSQLObservationManager.ts:257-320 | Nothing else that happens to a recovering entry sets its recovery back. |
| `ObservationVetting.StepVets` | Source/Drizzle/PostgreSQLObservationManager.ts:76-118 | In any step, a lease's check and key change only with the answers it waits for. |
| `ObservationVetting.NoLeaseIsFiledUnvetted` | Source/Drizzle/PostgreSQLObservationManager.ts:76-118 | In every run a lease with a key was mapped by its reader to a table with that key, then found the listener on that table's database, then had its trigger found in order. |
| `ObservationRevalidation.OthersLeave` | Source/Drizzle/PostgreSQLObservationManager.ts:257-304 | While a recovery is in flight nothing else moves it, and no new lease becomes due. |
| `ObservationRevalidation.EveryRecoveryRevalidatesEveryLease` | Source/Drizzle/PostgreSQLObservationManager.ts:275-312 | Whenever a recovery makes an entry available again, every held, validated lease has passed all its checks in the revalidation that just ended. |
| `ObservationRevalidation.ChecksAdvanceByTheirAnswers` | Source/Drizzle/PostgreSQLObservationManager.ts:277-300 | Those checks advance only on the mapping the lease had before and on a listener connected to that same database. |
| `ObservationSystem.EntryStepIsAllowed` | Source/Drizzle/PostgreSQLObservationManager.ts:120-121 | Seen from one of its leases, every step of an entry is one the fence allows. |
| `ObservationSystem.RunKeeps` | Source/Drizzle/DrizzleObservationSession.ts:31-73 | Entry and session, composed, keep both invariants in every run. |
| `ObservationSystem.EveryAcceptedReadIsUnbroken` | Source/Drizzle/DrizzleObservationSession.ts:123-138 | Generation fencing end to end, over session and manager together: no accepted read spans a counted loss. `NoAcceptedReadSpansALoss` says it of the events. |
| `ObservationSystemEvents.NoAcceptedReadSpansALoss` | Source/Drizzle/DrizzleObservationSession.ts:123-138 | In every run, after a disconnect, a timeout or a failed heartbeat of the present connection, every value accepted from then on was read wholly after it, under a later generation. |
| `ObservationSystemEvents.NotificationsAreHeard` | Source/Drizzle/PostgreSQLObservationManager.ts:147-151 | A notification for the table of a held, validated lease makes its open session dirty and counts as a change. |
| `ObservationSystemEvents.SessionsEndWithTheirLeases` | Source/Drizzle/PostgreSQLObservationManager.ts:322-345 | After any run a session is closed exactly when its lease has been let go. |
| `ObservationDelivery.CommittedChangesAreShown` | Source/Drizzle/DrizzleObservationSession.ts:114-172 | A change announced while a subscriber watches at rest over a working listener is shown: when the scheduled turn has run and its read has returned, exactly that value was emitted, under the listener that announced the change. |
| `ObservationDelivery.LeasesAreToldTheTruth` | Source/Drizzle/PostgreSQLObservationManager.ts:120-121 | `isCurrent` holds of the present generation of an available entry and of no other; `whenReady` refuses exactly the released and the dead, and otherwise is resolved with that generation while available and pending while recovering. |
| `ObservationSystem.EveryWaitIsServedAfresh` | Source/Drizzle/DrizzleObservationSession.ts:77-112 | Catch-ups and admissions are served afresh, end to end. |
| `ObservationSystem.RestingSystemIsCurrent` | Source/Drizzle/DrizzleObservationSession.ts:94-172 | An open session that has shown something and is at rest over an available entry shows what was read under the present connection after the last change; a session whose lease is gone is closed. |
| `LiveSession.DrizzleObservationSession.Handle` | Source/Drizzle/DrizzleObservationSession.ts:31-212 | Every event moves the session object and its promise objects as the machine moves its value, whose steps `DrizzleSessionEvents` pins down event by event, and keeps the invariant of both. |
| `LiveSession.DrizzleObservationSession.SettledIsNotOutstanding` | Source/Drizzle/DrizzleObservationSession.ts:149-172 | Whoever waits for a read or a catch-up shares the promise object with the field that holds it: the object is settled exactly when no field holds it any more. |
| `LiveManager.Entry.Handle` | Source/Drizzle/PostgreSQLObservationManager.ts:44-383 | Every event moves the entry, its lease objects and its connection objects as the machine moves its value, whose steps `ObservationEvents` pins down event by event, keeps the invariant, and every lease ever taken has heard exactly the callbacks that the machine made for it. |
| `LiveManager.Entry.Create` | Source/Drizzle/PostgreSQLObservationManager.ts:47-60 | A new entry shares the tenant's connections and close barrier with the one before it, and nothing else. |
| `LiveManager.Entry.NextDue` | Source/Drizzle/PostgreSQLObservationManager.ts:277-278 | The loop that looks for the next lease to validate again skips whoever was released or never validated. |
| `LiveLeases.Leases.Drop` | Source/Drizzle/PostgreSQLObservationManager.ts:64-75 | The release closure of a lease object: the set, the routes and whoever else refers to the object see it released. |
| `LiveLeases.Leases.File` | Source/Drizzle/PostgreSQLObservationManager.ts:95-103 | A lease object is filed under its key, in a route that is created with its first lease. |
| `LiveLeases.Leases.Notify` | Source/Drizzle/PostgreSQLObservationManager.ts:147-151 | The loop over a route calls every lease object of it that was not released, and no other. |
| `LiveLeases.Leases.EndAll` | Source/Drizzle/PostgreSQLObservationManager.ts:322-345 | The loop over the held leases tells each of them once, and each of them releases itself. |
| `LiveSockets.Sockets.Receive` | Source/Drizzle/PostgreSQLObservationManager.ts:131-142 | A connection object that is handed over is kept and connected, or closed at once if it can be; whoever else holds one is unaffected. |
| `LiveSockets.Sockets.CloseSettles` | Source/Drizzle/PostgreSQLObservationManager.ts:347-357 | A close that settles lowers the barrier exactly if the barrier is that same object. |
| `DrizzleObservable.SessionsAreAdoptedOnce` | Source/Drizzle/DrizzleObservable.ts:12-50 | In every run no session is adopted twice, the prime by nobody yet; the owner watches exactly while a session is open; after `close` all sessions are over. |
| `DrizzleObservable.EverySubscriptionIsServed` | Source/Drizzle/DrizzleObservable.ts:14-23 | In every run each permitted subscription before `close` was given a session, and nothing else was. |
| `DrizzleObservable.SubscribersGetASession` | Source/Drizzle/DrizzleObservable.ts:15-21 | A permitted subscriber is given the prime, which is then primed no more, or a new session that the owner watches. |
| `DrizzleObservable.AskingPrimesASession` | Source/Drizzle/DrizzleObservable.ts:38-42 | A permitted `current` primes a session unless one is primed, and gives none away. |
| `DrizzleObservable.EndedSessionsAreForgotten` | Source/Drizzle/DrizzleObservable.ts:26-36 | A session that closes is forgotten, the owner stops watching with the last, and `close` ends them all. |
| `DrizzleObservable.SubscribersGetAnOpenSessionExactly` | Source/Drizzle/DrizzleObservable.ts:15-21 | A subscriber is given an open session exactly unless the primed one has ended by itself: then it is given that. |
| `DrizzleObservable.Observable.Subscribe` | Source/Drizzle/DrizzleObservable.ts:15-23 | A subscriber is given the primed session, or a new one, and that session has then been given to exactly one subscriber. |
| `DrizzleObservable.Observable.Current` | Source/Drizzle/DrizzleObservable.ts:38-42 | `current` asks the primed session, priming one if there is none, and no subscriber has it yet. |
| `DrizzleObservable.Observable.Close` | Source/Drizzle/DrizzleObservable.ts:45-50 | `close` ends every session, each of which calls back: afterwards every session ever started has closed. |
| `ChangeListeners.PublicationReachesLiveHandles` | Source/Drizzle/DrizzleChangeNotifications.ts:49-68 | If every release is called once, a publication reaches exactly the listeners whose handles are live for its tenant and table. |
| `ChangeListeners.ListenKeeps` | Source/Drizzle/DrizzleChangeNotifications.ts:49-54 | Listening keeps maps, sets and live handles in agreement. |
| `ChangeListeners.ReleaseKeeps` | Source/Drizzle/DrizzleChangeNotifications.ts:55-59 | So does the first release of a handle; no empty set or map stays behind. |
| `ChangeListeners.SecondReleaseIsHarmlessExactly` | Source/Drizzle/DrizzleChangeNotifications.ts:55-59 | A second release changes nobody's registration exactly when it does not find its own set empty and something newer under its keys. |
| `ChangeListeners.SecondReleaseCanDropANewerListener` | Source/Drizzle/DrizzleChangeNotifications.ts:55-59 | Listen, release, listen again, release the first handle again: the second listener is gone. |
| `ChangeNotificationEvents.PublicationReachesWhoListens` | Source/Drizzle/DrizzleChangeNotifications.ts:49-60 | If every release is called once, a publication reaches exactly those who, by the calls alone, listened to its table and tenant and did not release. |
| `ChangeNotificationEvents.ListenersAreRegistered` | Source/Drizzle/DrizzleChangeNotifications.ts:49-54 | Listening adds its listener to its own table of its own tenant, and to no other. |
| `ChangeNotificationEvents.ReleasedListenersAreForgotten` | Source/Drizzle/DrizzleChangeNotifications.ts:55-59 | A first release takes exactly its own listener away. |
| `DrizzleChangeNotifications.FramesPublishOnce` | Source/Drizzle/DrizzleChangeNotifications.ts:33-47 | In every run an active frame has published nothing and holds what was announced in it; a settled one has published exactly that, each table once. |
| `ChangeNotificationEvents.FramesPublishWhatWasAnnounced` | Source/Drizzle/DrizzleChangeNotifications.ts:33-47 | In every run a frame whose work has settled has published exactly the tables that the calls within it announced, each once; one whose work goes on has published nothing. |
| `ChangeNotificationEvents.SettledFramesPublish` | Source/Drizzle/DrizzleChangeNotifications.ts:41-45 | When its work settles a frame is over and publishes what it holds back, in order. |
| `ChangeNotificationEvents.FramesEndWithTheirWork` | Source/Drizzle/DrizzleChangeNotifications.ts:33-47 | A frame is over exactly when its own work has settled. |
| `ChangeNotificationEvents.PublicationsAreHeard` | Source/Drizzle/DrizzleChangeNotifications.ts:66-68 | Whatever is published is heard by the listeners its table has at that moment. |
| `DrizzleChangeNotifications.AnnouncementsAreFramed` | Source/Drizzle/DrizzleChangeNotifications.ts:14-30 | Inside an active frame nothing is published; a late announcement publishes each table once at once; unknown tables and a disabled bus do nothing. |
| `DrizzleChangeNotifications.TenantsAreIsolated` | Source/Drizzle/DrizzleChangeNotifications.ts:26-38 | What one tenant does neither publishes for another nor touches its frames. |
| `DrizzleChangeNotifications.NestedCallsJoin` | Source/Drizzle/DrizzleChangeNotifications.ts:32-38 | A nested call joins the frame of its context and begins none of its own. |
| `LiveChangeNotifications.DrizzleChangeNotifications.Notify` | Source/Drizzle/DrizzleChangeNotifications.ts:14-30 | Both loops of `notify`. |
| `LiveChangeNotifications.DrizzleChangeNotifications.End` | Source/Drizzle/DrizzleChangeNotifications.ts:41-45 | The `finally` block of `run`. |
| `LiveChangeNotifications.DrizzleChangeNotifications.ListenerCount` | Source/Drizzle/DrizzleChangeNotifications.ts:62-64 | The count is the number of the tenant's live handles. |
| `DrizzleReadModels.OrderIsTotal` | Source/Drizzle/DrizzleReadModels.ts:56-63 | Whatever supported column is sorted by, the produced order is a strict total order on the rows of a table; `RowsPrecedeAsAsked` says which. |
| `DrizzleReadModels.RowsPrecedeAsAsked` | Source/Drizzle/DrizzleReadModels.ts:56-63 | A row precedes another exactly as was asked for: smaller in the requested field under ascending, greater under descending; where equal, or without a sorting, smaller in the first primary key in which they differ. Exactly unknown fields and directions are refused. |
| `DrizzleReadModels.AnswersComeAsAsked` | Source/Drizzle/DrizzleReadModels.ts:65-70 | The answer to a sorted query never shows a row before one that was asked to come first. |
| `DrizzleReadModels.PrecedesIsStrict` | Source/Drizzle/DrizzleReadModels.ts:56-63 | It is irreflexive, asymmetric and transitive, however the database ranks the values of a column. |
| `DrizzleReadModels.PagesPartitionTheRows` | Source/Drizzle/DrizzleReadModels.ts:162-169 | The pages of independently sorted queries, of any size, concatenate to the sorted rows: no gap, no repeat. |
| `DrizzleReadModels.TiesBreakPages` | Source/Drizzle/DrizzleReadModels.ts:60-62 | Under any order that ties two rows, one of them can be shown twice and the other never: why the primary keys follow the sort column. |
| `DrizzleReadModels.ValidatePage` | Source/Drizzle/DrizzleReadModels.ts:72-79 | Exactly which pages are accepted, and as what. |
| `DrizzleReadModels.ObservedPage` | Source/Drizzle/DrizzleReadModels.ts:106-119 | An emitted page always has as many items as its count leaves for it, comes from the first attempt that agrees, and it gives up exactly after three that do not. |
| `DrizzleReadModels.UndisturbedAttemptAgrees` | Source/Drizzle/DrizzleReadModels.ts:109-116 | Without a write between count and selection the first attempt agrees. |
| `DrizzleReadModels.Observed` | Source/Drizzle/DrizzleReadModels.ts:96-103 | `observe` emits the complete result or fails, never a truncated one. |
| `ChronicleCommand.CheckResults` | Source/Chronicle/ChronicleCommand.ts:51-68 | The trichotomy: accepted exactly when every event is acknowledged as stored, rejected exactly when every one is refused for a stated reason, thrown otherwise. |
| `ChronicleCommand.AppendRejection` | Source/Chronicle/ChronicleCommand.ts:24-49 | The issues are those of the distinct violations. |
| `ChronicleCommand.EveryViolationIsReported` | Source/Chronicle/ChronicleCommand.ts:24-49 | What is reported is every constraint and every concurrent change that some result names, and nothing else. |
| `ChronicleCommand.IssuesDescribe` | Source/Chronicle/ChronicleCommand.ts:24-49 | Issue by issue, in order: a constraint's message (or its name), its name and the client's name of its property; a concurrent change's event source, expected and actual sequence numbers. |
| `ChronicleCommand.DistinctIsFirstOccurrences` | Source/Chronicle/ChronicleCommand.ts:24-49 | Distinct means: every violation, none twice, in the order they first occur. |
| `ChronicleConservation.NextKeeps` | Source/Chronicle/ChronicleUnitOfWork.ts:33-86 | Every load, application, commit, return, nested end and completion keeps the books: each entry has one origin, each origin its own order. |
| `ChronicleConservation.AppendConservesEvents` | Source/Chronicle/ChronicleCommandScope.ts:24-36 | The one `appendMany` of a chain receives every returned and applied event of the chain's records exactly once, each aggregate's in apply order, guarded by the tail it was loaded at; only if root and nested commands succeeded. `AppendCarriesWhatHappened` says it of the steps. |
| `ChronicleLedger.AppendCarriesWhatHappened` | Source/Chronicle/ChronicleResponseHandler.ts:59-90 | Event conservation, said of the steps: that call receives every value the commands returned and every event applied to a loaded aggregate, each once, each origin's in order, under its own event source and its aggregate's tail, and nothing else. |
| `ChronicleLedger.ReturnedValuesAreStaged` | Source/Chronicle/ChronicleResponseHandler.ts:38-90 | A command that returns events has all of them staged, one entry each, in order, under the value's own source or the selected one, or none; exactly when they can be sent, the unit is open to it and its scopes contradict nothing. |
| `ChronicleLedger.RunIsBooked` | Source/Chronicle/ChronicleUnitOfWork.ts:33-47 | Over every run the records of a chain are what its steps returned, loaded and applied. |
| `ChronicleLedger.MergeAgrees` | Source/Chronicle/ChronicleUnitOfWork.ts:40-45 | Scopes are merged exactly when they contradict neither what is known nor one another. |
| `ChronicleLedger.CompletionAppendsExactly` | Source/Chronicle/ChronicleUnitOfWork.ts:53-66 | A chain that completes calls `appendMany` exactly when the root succeeded, no nested command failed, something is to be sent and fits, and nobody cancelled. |
| `ChronicleLedger.CompletionDecides` | Source/Chronicle/ChronicleUnitOfWork.ts:64-80 | What it then reports, from what the world answered. |
| `ChronicleAnswers.ReturnedResultsAreStaged` | Source/Chronicle/ChronicleResponseHandler.ts:35-90 | A returned commit result is staged whole and moves its aggregate's cursor past it exactly when it was neither staged nor overtaken, can be sent, and its guard contradicts nothing. |
| `ChronicleAnswers.CommitsHandOutTheRest` | Source/Chronicle/AggregateRoot.ts:50-56 | `commit()` hands out what its aggregate still holds back, in order, with the place where it starts and its guard. |
| `ChronicleAnswers.OnlyNestedFailuresWithhold` | Source/Chronicle/ChronicleUnitOfWork.ts:48-52 | Over every run the batch is withheld for a nested command exactly when one failed while the chain was open. |
| `ChronicleAnswers.CommitAnswers` | Source/Chronicle/ChronicleUnitOfWork.ts:53-86 | The caller is answered its own result where nothing was to be appended or all was; otherwise a failure without a response, with the issues of a rejected batch or as an exception. |
| `ChronicleAnswers.OtherChainsAreUnknown` | Source/Chronicle/ChronicleCommandScope.ts:19-23 | A chain knows nothing of another correlation. |
| `ChronicleConservation.FailedChainsAppendNothing` | Source/Chronicle/ChronicleUnitOfWork.ts:48-60 | If a nested command fails while the chain is open, or the root fails, nothing is ever appended. |
| `ChronicleConservation.DoomLasts` | Source/Chronicle/runChronicleCommand.ts:31-38 | A chain that is doomed by a nested failure, or has completed without an append, stays without one in every step. |
| `ChronicleConservation.DispositionIsSound` | Source/Chronicle/ChronicleCommandScope.ts:19-23 | What a caller is told after any run: `NoCommit` exactly when nothing was staged or left unstaged, `Committed` only after a full acknowledgement, `Unknown` exactly when the append was invoked and is undecided, `NotCommitted` for what was refused or staged and never appended. |
| `ChronicleConservation.CommitDecides` | Source/Chronicle/ChronicleUnitOfWork.ts:53-86 | Exactly when each disposition is reached, when the append is invoked, and when the result stays a success. |
| `ChronicleConservation.WaitThrowsExactly` | Source/Chronicle/waitForProjectionCompletion.ts:6-27 | The wait throws exactly unless no timeout is configured, or it is a whole number of milliseconds from 1 to 2^53 - 1 and the wait is aborted, cancelled, or every observer finishes without a failed partition. |
| `ChronicleConservation.HonestExactlyWithoutWaiting` | Source/Chronicle/ChronicleUnitOfWork.ts:68-80 | A unit reports a stored batch as committed, whatever the world does, exactly when no completion timeout is configured: a failed wait reports a stored batch as not committed. |
| `ChronicleConservation.EnrolKeeps` | Source/Chronicle/ChronicleResponseHandler.ts:85-90 | Staging a commit result adds all its events or none, moves the cursor of its aggregate alone, over exactly those, and the result cannot be staged again. |
| `ChronicleConservation.MergeKeeps` | Source/Chronicle/ChronicleUnitOfWork.ts:40-45 | A concurrency scope, once merged, is never overwritten. |
| `ChronicleConservation.OverlappingHandlesDuplicate` | Source/Chronicle/ChronicleResponseHandler.ts:36-90 | Two overlapping calls of `handle` for one result would stage its events twice: why response values are handled one at a time. |
| `LiveUnitOfWork.AggregateRoot.Apply` | Source/Chronicle/AggregateRoot.ts:42-49 | An active aggregate appends to its pending events. |
| `LiveUnitOfWork.AggregateRoot.Rehydrate` | Source/Chronicle/AggregateRoot.ts:31-40 | An aggregate is rehydrated once. |
| `LiveUnitOfWork.AggregateRoot.Commit` | Source/Chronicle/AggregateRoot.ts:50-56 | `commit` hands out what is not staged yet. |
| `LiveUnitOfWork.AggregateRoot.AssertUnstaged` | Source/Chronicle/AggregateRoot.ts:58-61 | A result that was staged or overtaken is refused. |
| `LiveUnitOfWork.ChronicleUnitOfWork.Stage` | Source/Chronicle/ChronicleUnitOfWork.ts:33-47 | All entries or none; scopes merged before a conflict stay. |
| `LiveUnitOfWork.ChronicleUnitOfWork.Track` | Source/Chronicle/ChronicleUnitOfWork.ts:25-26 | The aggregates of a unit are a set in load order. |
| `LiveUnitOfWork.ChronicleUnitOfWork.NestedCompleted` | Source/Chronicle/ChronicleUnitOfWork.ts:48-52 | A failed nested command dooms the batch. |
| `LiveUnitOfWork.ChronicleUnitOfWork.Commit` | Source/Chronicle/ChronicleUnitOfWork.ts:53-86 | `commit`, with every way the world can settle what it awaits. |
| `LiveUnitOfWork.ChronicleResponseHandler.HandleResult` | Source/Chronicle/ChronicleResponseHandler.ts:35-90 | The handler stages a commit result, then moves the cursor, or changes nothing but scopes. |
| `LiveUnitOfWork.ChronicleResponseHandler.HandleValues` | Source/Chronicle/ChronicleResponseHandler.ts:35-90 | The handler stages returned events as the machine does; `ReturnedValuesAreStaged` says which. |
| `LiveUnitOfWork.ChronicleCommandScope.Complete` | Source/Chronicle/ChronicleCommandScope.ts:24-36 | `complete` stages what its aggregates still hold, in load order, then commits. |
| `ChronicleArtifactActivator.ScopesAreDisposedOnce` | Source/Chronicle/chronicleArtifactActivator.ts:62-99 | Under any mix and order of completion, disposal and construction failure no scope is disposed twice, and a lease settles exactly with its scope. |
| `ChronicleArtifactActivator.CleanupIsFinal` | Source/Chronicle/chronicleArtifactActivator.ts:73-74 | Nothing that is called on a released lease starts its cleanup again or changes how it ended. |
| `ChronicleActivationEvents.CleanupBeginsExactly` | Source/Chronicle/chronicleArtifactActivator.ts:73-99 | In every run the scope of a lease has been disposed, and once, exactly when its artifact could not be built or the handed-out lease was completed or disposed. |
| `ChronicleActivationEvents.ReleasesDispose` | Source/Chronicle/chronicleArtifactActivator.ts:73-99 | Each of these calls begins the cleanup unless it has begun; only `complete` marks the lease completed. |
| `ChronicleActivationEvents.BuiltArtifactsAreHandedOut` | Source/Chronicle/chronicleArtifactActivator.ts:76-95 | A lease has been handed out exactly when its artifact was built. |
| `ChronicleActivationEvents.ActivationsAreAdmitted` | Source/Chronicle/chronicleArtifactActivator.ts:39-69 | An accepted activation before `stop` is active at once; one without a scope has settled; any other changes nothing. |
| `ChronicleActivationEvents.EveryLeaseCanSettle` | Source/Chronicle/chronicleArtifactActivator.ts:73-99 | Whatever state a lease is in it can be settled, leaving the others as they are. |
| `ChronicleArtifactActivator.NothingIsAdmittedAfterStop` | Source/Chronicle/chronicleArtifactActivator.ts:39-40 | After `stop` no lease is added. |
| `ChronicleArtifactActivator.DrainWaitsForAll` | Source/Chronicle/chronicleArtifactActivator.ts:104-106 | `drain` returns only when every admitted lease has settled. |
| `ChronicleArtifactActivator.SettledForGood` | Source/Chronicle/chronicleArtifactActivator.ts:102-107 | After `stop` that remains so. |
| `ChronicleArtifactActivator.DrainIsNeverStuck` | Source/Chronicle/chronicleArtifactActivator.ts:104-106 | Once all have settled, a waiting `drain` can always proceed, and comes nearer. |
| `ChronicleArtifactActivator.DrainReturns` | Source/Chronicle/chronicleArtifactActivator.ts:104-106 | Whatever else is called in between, it has returned by the time as many effective steps were taken as its rank counts. |
| `ChronicleArtifactActivator.ArtifactLease.Complete` | Source/Chronicle/chronicleArtifactActivator.ts:86-99 | `complete` releases and marks. |
| `ChronicleArtifactActivator.ArtifactLease.Dispose` | Source/Chronicle/chronicleArtifactActivator.ts:97-98 | `dispose` releases unless completed. |
| `ChronicleArtifactActivator.ArtifactLease.Constructed` | Source/Chronicle/chronicleArtifactActivator.ts:76-85 | A failed construction releases its scope. |
| `KernelReleasedReadModels.ReleasedReadModels.MarkKernelReleased` | Source/Chronicle/kernelReleasedReadModels.ts:11-25 | The worklist releases exactly what was released before and what can be reached without going through it; it ends on cycles. |
| `KernelReleasedReadModels.HeldObjectsAreChildren` | Source/Chronicle/kernelReleasedReadModels.ts:11-25 | The child relation: what a property value or array element refers to, unless that is a view on binary data. |
| `KernelReleasedReadModels.MarkingCloses` | Source/Chronicle/kernelReleasedReadModels.ts:11-25 | A closed set stays closed, everything reachable is released, and nothing else is added. |
| `KernelReleasedReadModels.MarkingReachesEverythingExactly` | Source/Chronicle/kernelReleasedReadModels.ts:7-25 | Marking releases every object the model reaches exactly when what the objects marked before it still hold is marked, too, or reached without them. |
| `KernelReleasedReadModels.GrownObjectsHideTheirChildren` | Source/Chronicle/kernelReleasedReadModels.ts:15-16 | An object that is given a child after it was marked hides that child from the next marking. |
| `ReplayRule.Reaches` | Source/CodeAnalysis/rules/arcchr0006.ts:135-140 | The search with one visited set: true only with a path; false only after leaving no edge unexplored. |
| `ReplayRule.Reach` | Source/CodeAnalysis/rules/arcchr0006.ts:143 | From an empty set it is true exactly when a path exists, cycles included. |
| `ReplayRule.Undecided` | Source/CodeAnalysis/rules/arcchr0006.ts:141-147 | A report names exactly the handlers that reach a method with a return site. |
| `ReplayRule.EveryHandlerThatReturnsACommandIsNamed` | Source/CodeAnalysis/rules/arcchr0006.ts:109-128 | Not tracing helpers of a return that supplies a command itself loses no handler. |
| `MongoDBWatcher.NextKeeps` | Source/MongoDB/MongoDBWatcher.ts:83-149 | Every step keeps the watcher's invariant. |
| `MongoDBWatcher.ListenersAreServed` | Source/MongoDB/MongoDBWatcher.ts:83-132 | A listener whose `listen` returned and that was not released is registered with the current, open, pumped stream, or was given an error, or is owed one by a pump awaiting its close; nobody is told twice. `ListenersReceiveWhatIsSent` says what being registered gives it. |
| `MongoDBWatcherEvents.ListenersReceiveWhatIsSent` | Source/MongoDB/MongoDBWatcher.ts:114-121 | In every run a listener received, in order and once each, exactly the events that came from the current stream while it was listening. |
| `MongoDBWatcherEvents.EventsReachEveryListener` | Source/MongoDB/MongoDBWatcher.ts:117-120 | An event of the current stream goes to everybody who listens, and changes nothing else. |
| `MongoDBWatcherEvents.OnlyTheseChangeWhoListens` | Source/MongoDB/MongoDBWatcher.ts:83-149 | Whoever calls `listen` listens, until its start is refused, it is released, its stream breaks or all is disposed. |
| `MongoDBWatcherEvents.OnlyTheseChangeTheStream` | Source/MongoDB/MongoDBWatcher.ts:96-149 | A stream opens when the server has answered, and stays current until it breaks, its last listener leaves or all is disposed. |
| `MongoDBWatcherEvents.NewListenersHear` | Source/MongoDB/MongoDBWatcher.ts:83-121 | On a watcher that is not disposed a new `listen` returns once the server has answered, and its listener is given the next event. |
| `MongoDBWatcherEvents.ListensReturnExactly` | Source/MongoDB/MongoDBWatcher.ts:87-94 | A `listen` returns exactly when its stream was opened and nothing was disposed, and otherwise throws. |
| `MongoDBWatcherEvents.RefusalsStartAnew` | Source/MongoDB/MongoDBWatcher.ts:108-111 | After a refusal whoever listens next starts anew. |
| `MongoDBWatcherEvents.ReleasesEndWithTheLast` | Source/MongoDB/MongoDBWatcher.ts:90-93 | A release removes its own listener, and the last one closes the stream. |
| `MongoDBWatcherEvents.BrokenStreamsTellEverybody` | Source/MongoDB/MongoDBWatcher.ts:122-129 | Whatever happens between the failure of a stream and the settling of its close, that gives the error to all who listened when it failed, and to nobody else. |
| `MongoDBWatcherEvents.DisposalTellsEverybody` | Source/MongoDB/MongoDBWatcher.ts:142-149 | Disposal gives everybody who listens an error and closes the stream. |
| `MongoDBWatcher.StreamsAreClosedOnce` | Source/MongoDB/MongoDBWatcher.ts:134-140 | Every opened stream is closed at most once, and has been unless it is current. |
| `MongoDBWatcher.SupersededPumpsAreHarmless` | Source/MongoDB/MongoDBWatcher.ts:114-132 | A superseded pump delivers nothing, tells nobody and stops nothing newer. |
| `MongoDBWatcher.DisposalEndsEverything` | Source/MongoDB/MongoDBWatcher.ts:142-149 | After disposal nothing is open or listening, and everyone served has been told or will be. |
| `MongoDBWatcher.StartsAreNotOvertaken` | Source/MongoDB/MongoDBWatcher.ts:96-112 | While a start is asking nothing has stopped, and whoever began it still listens. |
| `LiveWatcher.MongoDBWatcher.Handle` | Source/MongoDB/MongoDBWatcher.ts:83-149 | Every event moves the watcher, its listener objects and its stream objects as the machine moves its value, and keeps the invariant: what each listener received and was told is what the machine's history says; and an event of the current stream gives each listening object one more event. |
| `LiveWatcher.MongoDBWatcher.Deliver` | Source/MongoDB/MongoDBWatcher.ts:119-120 | The loop over the listeners gives the event to each object registered at that moment, and to no other. |
| `LiveWatcher.MongoDBWatcher.Tell` | Source/MongoDB/MongoDBWatcher.ts:123-128 | The loop over the listeners that are owed an error gives it to each of them once. |
| `MongoDBSelection.RestingSelectionIsCurrent` | Source/MongoDB/MongoDBWatcher.ts:54-66 | A selection loses no notification: at rest, what it emitted last was read after the last one. |
| `MongoDBSelection.RestingSelectionSawEveryNotification` | Source/MongoDB/MongoDBWatcher.ts:54-75 | An open selection at rest has emitted a snapshot that was read after as many notifications as the run holds. |
| `MongoDBSelection.GoodReadsAreEmitted` | Source/MongoDB/MongoDBWatcher.ts:57-63 | A good read is emitted while the selection is open, and followed by another exactly when it was notified meanwhile. |
| `MongoDBSelection.IdleSelectionsRead` | Source/MongoDB/MongoDBWatcher.ts:54-74 | A notification, or the return of `listen`, has an idle open selection read. |
| `MongoDBSelection.EndedSelectionsAreSilent` | Source/MongoDB/MongoDBWatcher.ts:61-76 | A failed read, an unsubscription or a disposal ends a selection, and nothing is emitted afterwards. |
| `MongoDBSelection.NotificationsAreCoalesced` | Source/MongoDB/MongoDBWatcher.ts:58-63 | A notification during a read is answered by another read when this one ends. |
| `MongoGeoJSON.EncodedDecodes` | Source/MongoDB/MongoGeoJSON.ts:9-43 | Every geometry that encodes decodes to itself. |
| `MongoGeoJSON.DecodedEncodes` | Source/MongoDB/MongoGeoJSON.ts:25-57 | Every document that decodes is the encoding of what it decodes to. |
| `MongoGeoJSON.EncodesExactly` | Source/MongoDB/MongoGeoJSON.ts:9-22 | Exactly the geometries with finite coordinates, long enough lines and closed rings encode. |
| `MongoStoredForms.GeometriesAreStoredAs` | Source/MongoDB/MongoGeoJSON.ts:9-23 | The literal documents: type `Point`, `LineString` or `Polygon`, each point a pair of longitude and latitude, the shell before the holes. |
| `MongoDocumentCodec.SerializedDeserializes` | Source/MongoDB/MongoDocumentCodec.ts:38-147 | A well-typed model serializes exactly when its key holds something; its document deserializes to its restored form, through nested objects, arrays, concepts, geometry and derived types; that is the model itself exactly when no concept in it is empty and no undefined field is assigned by a constructor. |
| `MongoDocumentCodec.ValuesReturn` | Source/MongoDB/MongoDocumentCodec.ts:75-147 | A well-typed value of any type encodes, to nothing exactly when it is empty, and decodes to its restored form. |
| `MongoDocumentCodec.ObjectsReturn` | Source/MongoDB/MongoDocumentCodec.ts:63-118 | The same for an object, as the root and inside a document. |
| `MongoDocumentCodec.DashesReturn` | Source/MongoDB/MongoDocumentCodec.ts:84-85 | A Guid survives its digits. |
| `MongoDocumentCodec.UniqueIdentifiersSelect` | Source/MongoDB/MongoDocumentCodec.ts:101-110 | Where derived type identifiers are unique, each selects its own type. |
| `MongoDocumentCodec.InjectivePolicyNames` | Source/MongoDB/MongoDocumentCodec.ts:68-69 | An injective policy that avoids the reserved names keeps all fields apart. |
| `MongoDocumentCodec.EncodeDocument` | Source/MongoDB/MongoDocumentCodec.ts:63-74 | The loop of `encodeObject`. |
| `MongoDocumentCodec.DecodeDocument` | Source/MongoDB/MongoDocumentCodec.ts:112-116 | The loop of `decodeObject`. |
| `MongoDocumentCodec.IntactReturns` | Source/MongoDB/MongoDocumentCodec.ts:111-122 | The restored form of a value is the value itself exactly when it is intact: empty concepts come back unwrapped, and undefined fields as their constructor leaves them. |
| `MongoStoredForms.DocumentsHoldExactly` | Source/MongoDB/MongoDocumentCodec.ts:38-74 | A stored model holds its key under `_id`, every other defined property under its policy name, the identifier of a derived type under `_derivedTypeId`, and nothing else. |
| `MongoStoredForms.GuidsAreStoredAs` | Source/MongoDB/MongoDocumentCodec.ts:80-85 | A Guid is stored as its 32 digits, in order and in lower case. |
| `MongoStoredForms.TimesAreStoredAs` | Source/MongoDB/MongoDocumentCodec.ts:86-88 | A day is stored at noon, a time of day on the first day of the epoch, a length of time as its text. |
| `MongoStoredForms.ConceptsAreStoredAsTheirCore` | Source/MongoDB/MongoDocumentCodec.ts:78-79 | However many concepts wrap it, a value is stored as if none did. |
| `MongoStoredForms.NumbersAreReadExactly` | Source/MongoDB/MongoDocumentCodec.ts:136-146 | A number is read from a wide type exactly when it can be represented; nothing else is a number. |
| `MongoStoredForms.IdentifiersIgnoreCase` | Source/MongoDB/MongoDocumentCodec.ts:104-109 | Derived type identifiers that are Guids select the same class in any case. |
| `MongoStoredForms.UnknownTypesAreRefused` | Source/MongoDB/MongoDocumentCodec.ts:101-110 | A document without an identifier is read as the declared class; one that names no derived type is refused. |

## Left out

- SQL text, catalogue queries and trigger inspection: answers of the environment.
- `drainCloses`, `closeFailures` and the reporting deadline of a close: they collect errors for disposal; the closes themselves are modelled.
- Several tenants at once: a manager's entries share nothing but its disposal, so one tenant's history is modelled.
- Error texts, loss reasons and causes; exact delays and timeouts, which are events here.
- `DrizzleObservationSession` with a signal that is aborted before construction, and its read context.
- Errors that listeners of the change bus throw, and listeners that announce or unsubscribe from inside a publication.
- ChronicleConservation.AppendConservesEvents: counts a returned event once its handler has staged it; a handler that throws fails its command.
- The direct append of `ChronicleResponseHandler` outside a unit of work, `defineChronicleCommand`, and event routing: entries keep their source and event.
- Aggregate state and its handlers: application code; `isNew` follows from the tail.
- Concurrency scopes are compared as values, not as their JSON text.
- Violation details are compared as maps; the program compares their sorted JSON text.
- Letter case outside ASCII in `memberName` and derived type identifiers, and white space outside ASCII in event source ids.
- The activator's registration as a shutdown participant, delivery validation and correlation.
- `find`, `findById` and `queryPage` as separate methods: single reads over the same windows.
- `MongoDBWatcher.changes` and the observe builders: filters over `listen` and argument plumbing.
- RxJS delivery, and subscribers that unsubscribe from inside a delivery.
- MongoDocumentCodec.SerializedDeserializes: does not cover `ignoreConventions`, which copies the object, nor Guid fields that hold strings, which come back as Guids.
- MongoGeoJSON.DecodedEncodes: is about a document's type and coordinates; the program ignores other members.
- Calendar text: a date is its day number and a time its millisecond of the day, so years that ISO text does not write with four digits are not modelled.
- Symbol and type resolution in arcchr0006: which returns yield a command is an input; names are not sorted or formatted.
- Host adapters, telemetry, the process life cycle, the Chronicle kernel and the drivers.
