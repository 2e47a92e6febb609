# A verified model of the durable agent engine

The engine runs tasks for agents. A runner claims a task under a lease that expires, asks a model for an
action, has it authorized, reserves resources, prepares an operation, executes it through a capability and
verifies the outcome. Everything that must survive a crash is written to tables in transactions, and a new
process recovers from them. This project models that engine in Dafny and proves what it promises over whole
runs: any interleaving of runners, any expiry of leases, and a crash between any two transactions.

| file | contents |
|---|---|
| `Basics.dfy`, `Models.dfy`, `Ordering.dfy` | shared vocabulary: sums over maps, the shared records, the scheduling order |
| `Fencing.dfy` | lease identities with generations, once for both lease tables |
| `TaskLeases.dfy`, `ResourceLeases.dfy` | the two durable lease tables and the in-memory resource broker |
| `Scheduler.dfy` | the in-memory queue against the durable claim query |
| `Events.dfy`, `Memory.dfy` | outbox and log; receipts, cursors, pipelines, memory records |
| `World.dfy`, `DurableWorld.dfy` | revisions as optimistic concurrency control, and crashes between its transactions |
| `Engine.dfy` | tasks, operations, agent steps, crashes and recovery as a machine of atomic steps |
| `EngineSafety.dfy` | what every run of that machine keeps |
| `Runtime.dfy` | the imperative code of one process, every method of which is a run of the machine |
| `EngineEvents.dfy` | the events written with operations, through crashes and dispatches |
| `EngineGrounds.dfy` | what stands behind every effect, said on the tables; what is recorded of each answer |
| `EngineRuns.dfy` | the machine joined to the world model; operations that no recovery finishes; a run that reaches an effect |
| `Frames.dfy`, `Referents.dfy` | the length-prefixed frame codec; the bounded referent stack |

How the pieces fit. A transaction is one step, and so is one call into a capability. `Engine.IsRun` describes
all sequences of such steps: agent steps of any tasks, crashes at any boundary, restarts, recoveries, other
runners moving the lease tables, and changes of the world. `EngineSafety` proves an invariant and a list of
step guarantees (`Good`) for each kind of step and derives the theorems about whole runs. `Runtime.Node` has
the fields and methods of the source. Its `Valid()` says that its history is a run of the machine which has
arrived at the present state, and every method keeps it and only appends to the history, so the theorems hold
of every execution of the code and of every crash inside one.

Time is a real number that does not decrease over a run, with every timestamp at least zero; identifiers are
numbers in the order of the strings they stand for, zero being the empty string. Answers from outside (the
model's proposal, a capability's results, fresh ids, the iteration order of a dictionary) are parameters.

## What does not hold

Where a stronger claim fails, the code is modelled as it is; each item names the exact condition and a concrete
input or run that fails.

- Renewing a resource lease at a time before another task's acquisition can overcommit: `RenewSafeIff`,
  `BackwardsClockOvercommits`.
- The in-memory broker writes back the request of the handle it is given: `BrokerRenewSafeIff`,
  `SwollenHandleOvercommits`.
- Broker and table differ on renewals by a non-positive duration, on which only the table raises:
  `BrokerAndTableAgree`, `EmptyRenewalDiffers`.
- An in-memory task claim may overlap the lease it replaces: `MemoryClaimsOverlapIff`, `MemoryClaimsOverlap`.
- A durable OBSERVED operation without a result stays as it is through recovery: `RecoveryConcludesIff`. It
  arises exactly when the process dies between recording that execute returned None and the next transaction, and
  then stays for good: `LeftBehindIff`, `LeftBehindStays`, `RunToLeftBehind`.
- Replaying a superseded event moves the in-memory memory index back: `ReplayKeepsIndexIff`,
  `CommitsKeepIndexIff`, `ReplayMovesIndexBack`.
- Acknowledging reads and writes in two steps, so the cursor can go down: `CursorGoesDownIff`, `CursorGoesDown`.
- Processing an event out of turn breaks coverage: `ProcessKeepsCoverageIff`, `OutOfTurnLosesCoverage`.
- Registering an entity under another workspace changes the old one without bumping it: `RegisterIsLocalIff`,
  `MovedEntityGoesUnnoticed`.
- With a memory store per pipeline, an index does not see the commits of others: `ForeignCommitsIff`,
  `ForeignCommitGoesUnnoticed`.
- A crash inside a change of the world can leave contents under an old revision, or the workspace counter behind:
  `HalfDoneIff`, `CountersThroughCrashes`, `CrashesInRegistration`.
- Not every allowed action can execute through a step, because the step's own phase changes move the task and the
  global counter after the manifest was built. They stop exactly the actions registered with the revision domain
  "tasks" or "global_revision": `OwnChangesStopIff`, the last clause of `Runtime.Node.Step`, `RunToStaleCounter`.

## Model

| member | source | states |
|---|---|---|
| `Fencing.DeadForever` | liandanlu_native/storage.py:879-920 | over every history of a lease table under a clock that does not decrease, an identity that has expired, been released or been superseded never validates again |
| `Fencing.GenerationsGrow` | liandanlu_native/storage.py:843-874 | rows are never dropped, generations never go down, and an unchanged generation means an unchanged owner |
| `Fencing.ValidityIsConvex` | liandanlu_native/storage.py:956-977 | the moments at which an identity validates form an interval |
| `Fencing.ValidityPeriodsDisjoint` | liandanlu_native/storage.py:814-977 | two identities of one task never have overlapping or interleaved validity, and the later one has the larger generation |
| `TaskLeases.SelectNext` | liandanlu_native/storage.py:826-842 | scanning the rows finds the claimable task that is first in the order interactive, priority descending, queued_at, id |
| `TaskLeases.ClaimIsMostUrgent` | liandanlu_native/storage.py:826-842 | said on the tasks: the claim query finds nothing exactly if every queued task that is meant to run is under an unexpired lease; otherwise it finds one that is not, and no other such task is interactive when it is not, or in its lane has a larger priority, or with the same priority an earlier queue time, or with the same time a smaller id |
| `TaskLeases.TaskLeaseTable.ClaimNext` | liandanlu_native/storage.py:814-877 | raises exactly on an empty owner or a non-positive duration; otherwise leases the first claimable task with the next generation, and the new lease validates |
| `TaskLeases.TaskLeaseTable.Renew` | liandanlu_native/storage.py:879-908 | succeeds exactly when the handle's identity validates now, and then moves only the expiry |
| `TaskLeases.TaskLeaseTable.Release` | liandanlu_native/storage.py:910-920 | answers whether owner and generation matched, keeps the generation, and leaves an identity that validates at no time |
| `TaskLeases.TaskLeaseTable.ValidateIdentity` | liandanlu_native/storage.py:956-977 | true exactly for the owner and generation of an unexpired row |
| `TaskLeases.ClaimTakesSlot` | liandanlu_native/storage.py:843-874 | a claim anywhere in a run puts its identity into the row with a generation above any earlier one |
| `TaskLeases.NotBeforeClaim` | liandanlu_native/storage.py:843-874 | a lease validates at no point of the run up to its claim |
| `TaskLeases.ClaimsAreFenced` | liandanlu_native/storage.py:814-877 | for two claims of one task in any run, whatever happened between: generations strictly increase, the earlier lease validates only before the later claim and the later one only after it |
| `TaskLeases.LostLeasesStayLost` | liandanlu_native/storage.py:879-920 | a claimed lease that once fails to validate never validates or renews again |
| `TaskLeases.OneHolder` | liandanlu_native/storage.py:956-977 | no two claims of one task hold at the same point of a run: if both leases validate, they are the same claim |
| `TaskLeases.ClaimLasts` | liandanlu_native/storage.py:843-877 | in any run a claimed lease that is neither renewed nor released holds for exactly the seconds asked for, whatever other runners do |
| `TaskLeases.RenewalLasts` | liandanlu_native/storage.py:879-908 | in any run a renewal of a lease that holds makes it hold for exactly the seconds asked for from then on |
| `Scheduler.PopValidLoop` | liandanlu_native/runtime.py:94-104 | the pop loop returns the first runnable item and leaves the items after it |
| `Scheduler.PopSkipsStale` | liandanlu_native/runtime.py:94-104 | whatever has become of the tasks since they were pushed, popping returns a queued task that is meant to run, whose item comes before those of all others such, and nothing exactly if there is none |
| `Scheduler.TaskScheduler.Rebuild` | liandanlu_native/runtime.py:69-79 | the rebuilt heaps hold each eligible task once, in its lane |
| `Scheduler.TaskScheduler.Push` | liandanlu_native/runtime.py:81-87 | adds exactly one item to the heap of the task's lane; a task never queued counts as queued now |
| `Scheduler.TaskScheduler.Next` | liandanlu_native/runtime.py:106-110 | the interactive heap is exhausted before the background heap is touched |
| `Scheduler.TaskScheduler.ClaimNext` | liandanlu_native/runtime.py:113-134 | leases the next task with the next generation without looking at the previous expiry; every earlier handle of that task stops holding |
| `Scheduler.TaskScheduler.Submit` | liandanlu_native/runtime.py:89-92 | raises exactly for an unknown or finished task; otherwise the task is queued now and gets one more item in its lane |
| `Scheduler.TaskScheduler.Renew` | liandanlu_native/runtime.py:136-161 | without a store, renews exactly a handle that holds, by any duration, and writes back the handle |
| `Scheduler.TaskScheduler.Release` | liandanlu_native/runtime.py:163-178 | without a store, expires exactly a matching lease, after which the handle holds at no time |
| `Scheduler.DrainLists` | liandanlu_native/runtime.py:94-110 | draining heaps of current items lists exactly those items, each once, in scheduling order |
| `Scheduler.ListsUnique` | liandanlu_native/runtime.py:69-110 | there is exactly one list of a set of tasks in scheduling order, so the order below is fully determined |
| `Scheduler.RebuildAgreesWithClaims` | liandanlu_native/storage.py:826-874 | draining the rebuilt heaps lists each eligible task exactly once in scheduling order, and any number of durable claims at one timestamp obtains those tasks in that order, skipping just the ones under an unexpired lease |
| `Scheduler.DrainIsByUrgency` | liandanlu_native/runtime.py:69-110 | said on the tasks: draining the rebuilt heaps lists exactly the queued tasks meant to run, each once, interactive first, then by falling priority, then by queue time, then by id |
| `Scheduler.MemoryClaimLasts` | liandanlu_native/runtime.py:126-134 | an in-memory claim has the next generation and holds for exactly the seconds asked for |
| `Scheduler.MemoryRenewalMeans` | liandanlu_native/runtime.py:136-178 | an in-memory renewal makes a lease that holds hold for exactly the seconds asked for from now, and changes nothing otherwise; a release ends exactly the lease it names |
| `Scheduler.SubmitMeans` | liandanlu_native/runtime.py:89-92 | exactly an unfinished task is queued now, meant to run, and gets one item in the heap of its lane |
| `Scheduler.MemoryClaimsOverlapIff` | liandanlu_native/runtime.py:113-134 | for two successive in-memory claims of a task in any run of submit, claim, renew and release, the generation grows by one, and some moment from the second claim on has both leases holding exactly when the first had not expired or been released |
| `Scheduler.MemoryClaimsOverlap` | liandanlu_native/runtime.py:126-134 | a concrete run, submit, claim, submit, claim, in which both leases hold at once |
| `ResourceLeases.SumActive` | liandanlu_native/resources.py:84-92 | the loop computes the sum of one dimension over the unexpired leases |
| `ResourceLeases.LabelClash` | liandanlu_native/resources.py:84-92 | true exactly when an unexpired lease holds one of the requested labels |
| `ResourceLeases.ResourceBroker.Acquire` | liandanlu_native/resources.py:51-111 | raises, refuses or grants exactly as the admission rule says, and writes only a granted lease |
| `ResourceLeases.ResourceBroker.Renew` | liandanlu_native/resources.py:113-142 | renews exactly a held handle, writing back the handle's own request |
| `ResourceLeases.ResourceBroker.Release` | liandanlu_native/resources.py:144-163 | expires exactly the matching lease and keeps its generation |
| `ResourceLeases.ResourceBroker.Validate` | liandanlu_native/resources.py:165-182 | true exactly for the owner and generation of an unexpired lease |
| `ResourceLeases.ResourceTable.Acquire` | liandanlu_native/storage.py:979-1069 | the same admission rule on rows, and the row written spells out the granted lease |
| `ResourceLeases.ResourceTable.Renew` | liandanlu_native/storage.py:1071-1101 | renews exactly a matching unexpired row and keeps the stored request |
| `ResourceLeases.ResourceTable.Release` | liandanlu_native/storage.py:1103-1113 | afterwards the handle validates at no time, and no other task's row has changed |
| `ResourceLeases.ResourceTable.Validate` | liandanlu_native/storage.py:1115-1140 | true exactly for an unexpired row with the handle's owner, generation and request |
| `ResourceLeases.PutSafeIff` | liandanlu_native/resources.py:80-99 | adding a lease keeps capacities and labels respected exactly when the admission test passes and the other leases respect them |
| `ResourceLeases.TableNeverOvercommits` | liandanlu_native/storage.py:999-1113 | over every run with a clock that does not decrease and any handles, now and at every later time the unexpired leases fit the capacity in CPU, memory and GPU and no exclusive label is held twice |
| `ResourceLeases.RowsStayWithinCapacity` | liandanlu_native/storage.py:999-1069 | said on the rows: in every run from an empty table the CPU, memory and GPU units of unexpired rows each add up to at most the capacity, and no label is listed in two of them |
| `ResourceLeases.AcquireGrantsIff` | liandanlu_native/storage.py:979-1069 | admission refuses nothing safe: with proper arguments a request is granted exactly if the task has no unexpired lease and the table with the new one would respect capacity and labels; the lease is the one asked for and valid for exactly the seconds asked for |
| `ResourceLeases.AcquireRaisesIff` | liandanlu_native/storage.py:979-998 | acquire raises exactly for an empty task, an empty owner or a non-positive duration |
| `ResourceLeases.RenewalHolds` | liandanlu_native/storage.py:1071-1101 | a renewal is granted exactly for a row with the handle's owner and generation that has not expired, which then holds for exactly the seconds asked for and keeps its request |
| `ResourceLeases.ValidIff` | liandanlu_native/storage.py:1115-1140 | a lease is valid exactly if its row has its owner, its generation and every part of its request, and has not expired |
| `ResourceLeases.BrokerNeverOvercommits` | liandanlu_native/resources.py:80-163 | the same for the in-memory broker over every run of issued handles, with renewals by any durations |
| `ResourceLeases.BrokerAndTableAgree` | liandanlu_native/storage.py:979-1140 | on every sequence of acquire, renew, release and validate with issued handles, broker and table give the same answers, generations and expiries exactly when no renewal has a non-positive duration, and then end with the same contents |
| `ResourceLeases.RunsFromEmpty` | liandanlu_native/storage.py:979-1140 | the three statements for runs that start with no leases |
| `ResourceLeases.EmptyRenewalDiffers` | liandanlu_native/resources.py:113-142 | a concrete run of issued handles, acquire and renew by zero, on which broker and table answer differently |
| `ResourceLeases.TableMovesSlots` | liandanlu_native/storage.py:999-1113 | every command moves the rows only in the ways fencing allows, so resource identities are fenced as well |
| `ResourceLeases.RenewSafeIff` | liandanlu_native/storage.py:1071-1101 | at any two timestamps, a renewal keeps a safe table safe exactly if the renewed lease is over by then, or had not expired by then, or would be admitted anew |
| `ResourceLeases.BackwardsClockOvercommits` | liandanlu_native/resources.py:124-142 | a concrete run with a decreasing clock that overcommits |
| `ResourceLeases.BrokerRenewSafeIff` | liandanlu_native/resources.py:113-142 | renewing a handle with any request is safe exactly when that request passes the admission test |
| `ResourceLeases.SwollenHandleOvercommits` | liandanlu_native/resources.py:113-142 | a concrete run in which renewing a handle that was not issued overcommits the broker |
| `Events.DurableEvents.EnqueueOutbox` | liandanlu_native/storage.py:279-303 | appends one undispatched row under an unused id |
| `Events.DurableEvents.DispatchOutbox` | liandanlu_native/storage.py:561-600 | appends to the log exactly the first pending contents up to the limit, in order, returns them, and leaves the rest pending; a negative limit is none |
| `Events.MemoryEventStore.FlushOutbox` | liandanlu_native/events.py:46-65 | moves the whole in-memory outbox, in order, to the end of the log and returns it |
| `Events.MemoryEventStore.ReadAfter` | liandanlu_native/events.py:67-71 | returns the events after the consumer's cursor |
| `Events.MemoryEventStore.Ack` | liandanlu_native/events.py:73-79 | the cursor becomes the larger of its old value and the sequence; no other cursor changes |
| `Events.SweepMovesPending` | liandanlu_native/storage.py:561-600 | one dispatch moves the first pending contents within the limit, each once, and keeps all ids unused elsewhere |
| `Events.DispatchKeepsLogUnique` | liandanlu_native/storage.py:561-600 | for every outbox, also with rows under one id or rows logged before: a dispatch never puts an event id into the log twice |
| `Events.LoggedRowsAddNothing` | liandanlu_native/storage.py:561-600 | a dispatch that finds only rows whose ids are in the log leaves the log as it is and nothing pending |
| `Events.LogThenOutboxIsHistory` | liandanlu_native/storage.py:561-600 | after every run of enqueues and dispatches with any limits, log followed by pending outbox equals everything enqueued, each entry once and in order |
| `Events.DispatchAllEqualsFlush` | liandanlu_native/events.py:46-65 | dispatching with any non-zero limit until empty gives the log of one unlimited in-memory flush |
| `Memory.DurableMemory.ProcessEvent` | liandanlu_native/storage.py:732-812 | a replay changes nothing and returns what the receipt names; otherwise receipt, cursor and, for a candidate, the next revision of its key are written together |
| `Memory.NewEventIsRecorded` | liandanlu_native/storage.py:765-808 | a new event is stored as a record with the candidate's key, value and confidence, naming the event, above all earlier revisions of its key, with a receipt that names the record, and the cursor reaches the event |
| `Memory.NewEventIsIgnored` | liandanlu_native/storage.py:757-763 | an ignored event leaves a receipt without a record and moves the cursor |
| `Memory.AcceptedIff` | liandanlu_native/memory.py:179-202 | exactly the well-formed candidate events that learning may use are remembered, globally only what the user has stated explicitly, and the candidate says what the payload says |
| `Memory.RecordsSayWhatEventsSay` | liandanlu_native/memory.py:179-220 | in every run of interleaved pipelines each stored record comes from one such log event and holds its value, confidence, kind, key and scope, in the partition of its workspace or, if stated globally, the global one |
| `Memory.ConsumedEventsAreRemembered` | liandanlu_native/memory.py:204-220 | in every run each event at or below the cursor has a receipt with its number, and has a record exactly if it could be remembered |
| `Memory.DurableMemory.FindLatest` | liandanlu_native/storage.py:765-775 | finds the last revision of a key |
| `Memory.DurableMemory.Ack` | liandanlu_native/storage.py:628-647 | raises exactly beyond the log, and otherwise never lowers the cursor when run without interruption |
| `Memory.DurableMemory.RunOnce` | liandanlu_native/memory.py:204-220 | deals with the next events in order up to the limit, remembers exactly those that can be, counts committed and ignored correctly, rewrites nothing, and keeps the store sound |
| `Memory.ProcessSound` | liandanlu_native/storage.py:703-812 | processing in turn keeps coverage, traces between records and receipts, and revision chains |
| `Memory.ProcessKeepsCoverageIff` | liandanlu_native/storage.py:703-730 | coverage survives processing event n exactly when the event has a receipt or all earlier ones do |
| `Memory.OutOfTurnLosesCoverage` | liandanlu_native/storage.py:703-730 | a concrete store in which processing event 2 before event 1 moves the cursor past an event without receipt |
| `Memory.PipelinesAreSafe` | liandanlu_native/storage.py:703-812 | over every run of interleaved pipelines, arriving events and crashes: every event at or below the cursor has a receipt, each event yields at most one record, and revisions are chained |
| `Memory.NothingIsRewritten` | liandanlu_native/storage.py:732-812 | receipts and records, once written, never change |
| `Memory.ReplayReturnsFirstResult` | liandanlu_native/storage.py:732-764 | processing an event again at any later point, with any candidate, changes nothing and returns the record it first produced |
| `Memory.CursorGoesDownIff` | liandanlu_native/storage.py:628-647 | in any run of interleaved pipelines the cursor goes down at a step exactly when that step is the write of an acknowledgement whose pipeline another one has overtaken since its read, by processing or acknowledging a later event with no lower write since; coverage holds even so |
| `Memory.CursorGoesDown` | liandanlu_native/storage.py:628-647 | a concrete run of two pipelines that takes the cursor from 2 back to 1 |
| `Memory.RevisionsAreConsecutive` | liandanlu_native/storage.py:765-808 | the revisions of a key are exactly 1 to n |
| `Memory.IndexRows` | liandanlu_native/memory.py:71-81 | whatever order the rows come in, the loop indexes exactly their keys, each at a last revision |
| `Memory.MemoryStore.FromPersistence` | liandanlu_native/memory.py:71-81 | the store holds all durable records and such an index |
| `Memory.IndexIsLatest` | liandanlu_native/memory.py:71-81 | such an index maps every key to revision n, hence is the same for every load order |
| `Memory.ReplayKeepsIndexIff` | liandanlu_native/memory.py:102-109 | after a replayed commit the index is right exactly when the returned record is the last revision of its key |
| `Memory.MemoryStore.Remember` | liandanlu_native/memory.py:102-109 | caching a record makes it the latest of its key; a right index stays right by that exactly when the record is the last revision of its key |
| `Memory.MemoryStore.Commit` | liandanlu_native/memory.py:101-109 | for a validated candidate, the durable transaction and then the cache: the cached records stay those of the table, and a right index stays right exactly when the event was new or ignored or its record is still the last revision |
| `Memory.CommitIsAnswered` | liandanlu_native/memory.py:101-109 | after a new event is committed through a store with a right index, the store answers its key with the value and confidence committed |
| `Memory.CommitsKeepIndexIff` | liandanlu_native/memory.py:92-109 | over any list of commits the index is right all the way exactly when no commit replays a superseded event; commits of new events keep it right |
| `Memory.ReplayMovesIndexBack` | liandanlu_native/memory.py:102-109 | a concrete store with two revisions of a key in which replaying the first event points the index at revision 1 |
| `Memory.ForeignCommitsIff` | liandanlu_native/memory.py:161-170 | with several stores over one table, an index still answers a key with its durable last revision exactly if none of the commits made elsewhere since has written a new revision of that key |
| `Memory.ForeignCommitGoesUnnoticed` | liandanlu_native/memory.py:161-170 | a concrete commit through another store that an index misses |
| `Memory.MemoryStore.LatestRecord` | liandanlu_native/memory.py:161-170 | with a right index, returns the last revision of the key in the asker's partition, and nothing exactly when the key has no record |
| `World.WorldModel.RegisterEntity` | liandanlu_native/world.py:44-58 | stores the entity and raises the revision of its workspace, the workspace counter and the global one |
| `World.WorldModel.ObserveDomain` | liandanlu_native/world.py:120-139 | records the observation, raises exactly for the global domain or a missing workspace, and otherwise bumps one domain |
| `World.ObserveRaises` | liandanlu_native/world.py:120-139 | an observation raises the counter of its domain and the global one by one and nothing else; for the workspace domain also the revision of the workspace named |
| `World.WorldModel.RelateEntities` | liandanlu_native/world.py:141-152 | succeeds exactly for two known entities of one workspace; a new edge bumps that workspace and a known one changes nothing |
| `World.RegisterAndRelateStore` | liandanlu_native/world.py:53-58 | registering stores the entity as given; relating appends one new edge between active entities of one workspace, and otherwise changes nothing |
| `World.AccessibleIff` | liandanlu_native/world.py:71-100 | an object may be used exactly if it is registered, active, in the asker's workspace, and grants the permission |
| `World.RegisterIsLocalIff` | liandanlu_native/world.py:53-58 | a registration leaves every workspace it does not bump unchanged exactly when the entity is new or stays in its workspace |
| `World.MovedEntityGoesUnnoticed` | liandanlu_native/world.py:53-58 | a concrete run in which an entity moves to another workspace and a manifest of the old one still passes the check |
| `World.RevisionCountsTouches` | liandanlu_native/world.py:44-58 | over any run a workspace's revision counts the steps that touched it and no others |
| `World.ManifestCheckIsExact` | liandanlu_native/context.py:58-69 | if a manifest passes the revision check at any later point, the entities and relations of its workspace are as they were when it was built; its workspace entry passes exactly when no step touched that workspace, so changes elsewhere never cause a mismatch |
| `World.SnapshotComparesCounters` | liandanlu_native/world.py:102-118 | the check passes exactly if each counter asked for, and that very one, has the value it had when the manifest was built |
| `World.CountersCountTheirSteps` | liandanlu_native/world.py:120-139 | over any run the desktop, browser, media and task counters each count the steps that concern their domain and no others |
| `World.DomainCheckIsExact` | liandanlu_native/world.py:102-118 | a manifest entry of one of these domains passes at a later point exactly if no step in between concerned it |
| `World.CountersAreConserved` | liandanlu_native/models.py:73-77 | over every run from zero, the global revision is the sum of the five domain counters and the workspace counter the sum of all workspace revisions |
| `World.CountersNeverDecrease` | liandanlu_native/world.py:44-51 | no counter ever decreases |
| `DurableWorld.AllWritesAreTheStep` | liandanlu_native/world.py:44-58 | the up to three transactions of a change of the world together are the change |
| `DurableWorld.CountersThroughCrashes` | liandanlu_native/world.py:37-58 | over every run with crashes between these transactions and reloads, the global revision stays the sum of the five counters, and the workspace counter is behind the sum of the workspace revisions by exactly the crashes between the two writes of a bump; so both laws hold exactly if there were none |
| `DurableWorld.HalfDoneIff` | liandanlu_native/world.py:53-58 | one attempt changes a workspace under an unchanged revision exactly if it crashed between writing the entity or edge and writing the revision, and the step does change the contents |
| `DurableWorld.ManifestThroughCrashes` | liandanlu_native/world.py:53-58 | through any run with crashes, while a workspace has the same revision its contents are the same, as long as no attempt on it was half done |
| `DurableWorld.CrashesInRegistration` | liandanlu_native/world.py:53-58 | a concrete registration whose crashes break either law |
| `EngineSafety.StepIsGood` | liandanlu_native/runtime.py:214-382 | every transaction, capability call, crash, restart and outside move keeps the engine's invariant and all step guarantees |
| `EngineSafety.ExecutedAtMostOnce` | liandanlu_native/runtime.py:335-356 | in every state of every run with crashes and recoveries, execute has been called at most once per operation, and not at all while it is durably PREPARED or CANCELLED |
| `EngineSafety.CancelledNeverExecuted` | liandanlu_native/runtime.py:349-356 | an operation that recovery marks CANCELLED is executed zero times, before and after |
| `EngineSafety.CallsNeverForgotten` | liandanlu_native/agent.py:127-164 | the count of calls never decreases, so the two statements above cover whole runs |
| `EngineSafety.TerminalIsFinal` | liandanlu_native/runtime.py:349-382 | a VERIFIED, FAILED or CANCELLED operation never changes again in any way |
| `EngineSafety.VerifiedHasGrounds` | liandanlu_native/runtime.py:291-312 | in every reachable state a VERIFIED operation has non-empty evidence that all passes, or no evidence and a reconcile call that returned true |
| `EngineSafety.ConfirmedMeansCalled` | liandanlu_native/runtime.py:366-382 | such a reconcile call really happened earlier in the run |
| `EngineSafety.UnknownNeedsReconcile` | liandanlu_native/runtime.py:349-382 | an UNKNOWN operation becomes VERIFIED only through a reconcile call in between that returned true |
| `EngineSafety.BudgetCountsOperations` | liandanlu_native/runtime.py:260-278 | in every durable state operations_started equals the number of stored operations of the task and does not exceed a non-negative limit |
| `EngineSafety.EffectsAreCleared` | liandanlu_native/agent.py:36-164 | every execute call in any run ends one chain of points of its own, uninterrupted step, in this order: ALLOW for the registered risk; current revisions, access to every object and a valid task fence at prepare; a valid resource fence; budget left when this operation was charged; task fence and then resource fence valid when execute checked them; capability, revisions and access at the last check; by default with a task lease |
| `EngineGrounds.EffectsHaveGrounds` | liandanlu_native/runtime.py:214-338 | said on the tables: behind every execute call lies one uninterrupted step in which, in order, the policy's own sets allowed the registered action; the task lease row had the step's owner and generation and was unexpired, the revisions were the manifest's and every object active, of the workspace and granting the permission; the same of the row of the resource lease, which is the step's own for the registered resources; the budget was below its limit and before its deadline; both rows were checked again and held; and capability, revisions and objects were right at last; the operation called is the one these facts are about |
| `EngineGrounds.ReconcilesHaveGrounds` | liandanlu_native/runtime.py:357-373 | every reconcile call of every run is about a durably RECONCILING operation whose capability is there, and one that concludes found every object active, of the workspace and granting the permission |
| `EngineGrounds.PrepareDecides` | liandanlu_native/runtime.py:224-264 | prepare passes and raises at its checks exactly as rows, revisions, objects and budget say; a lease is lost exactly if its row is gone, another's or expired |
| `EngineGrounds.ExecuteDecides` | liandanlu_native/runtime.py:314-334 | execute passes and raises at its checks exactly as the same facts say |
| `EngineGrounds.PolicyMeans` | liandanlu_native/policy.py:31-43 | an action is allowed exactly if the workspace has a policy that does not deny it, allows its capability, asks no confirmation of its risk and allows its risk |
| `EngineGrounds.BudgetMeans` | liandanlu_native/models.py:86-91 | a budget blocks exactly at its limit or from its deadline on, the limit first |
| `EngineGrounds.RunKeepsOwn` | liandanlu_native/agent.py:96-126 | in every run a step holds no resource lease for an action that needs none, and otherwise one for its own task, owner and registered resources |
| `EngineGrounds.AnswersAreRecorded` | liandanlu_native/runtime.py:291-382 | over any run what is stored after an execute, verify or reconcile call is decided by the answer alone: VERIFIED exactly for evidence that is there and all passes, or a reconcile that returned true; FAILED for the contrary; UNKNOWN with the error where execute or reconcile raised |
| `EngineSafety.StepExitReleases` | liandanlu_native/agent.py:193-195 | short of a crash a step gives up its resource lease only by releasing it, which changes no other task's row and leaves an identity that validates at no time |
| `EngineSafety.HeldIsIssued` | liandanlu_native/agent.py:112-124 | a lease held by a step has a row in the table at its generation or a later one |
| `EngineSafety.ReleasedForGood` | liandanlu_native/agent.py:193-195 | a resource lease that a step has released never validates again in the rest of the run |
| `EngineRuns.EffectSeesItsManifest` | liandanlu_native/context.py:58-69 | if since a manifest was built the world changed only by steps of the world model that keep entities in their workspace, then when RUNNING is recorded for an action that depends on the workspace, its entities and relations are those the manifest was built on |
| `EngineRuns.LeftBehindStays` | liandanlu_native/runtime.py:358-363 | no step of any process, recovery included, changes an operation observed without a result that nobody is about to verify |
| `EngineRuns.LeftBehindIff` | liandanlu_native/runtime.py:291-295 | in any run such an operation exists exactly when the process crashed earlier between recording that execute returned None and the next transaction |
| `EngineRuns.RunToLeftBehind` | liandanlu_native/runtime.py:343-347 | a concrete run that ends so |
| `EngineRuns.RunToEffect` | liandanlu_native/agent.py:36-164 | a concrete run from an empty store, under the default lease requirement, that calls execute with any outcome |
| `EngineRuns.OwnChangesStopIff` | liandanlu_native/agent.py:57-75 | in any run, between a manifest and a check, when the world has changed at least once and only by task changes, as those an agent step makes itself, the check passes exactly for actions whose registered domains contain neither tasks nor global_revision |
| `EngineRuns.RunToStaleCounter` | liandanlu_native/runtime.py:224-227 | a concrete run in which an allowed action that depends on the task counter fails in prepare for that reason |
| `EngineEvents.StepTold` | liandanlu_native/storage.py:374-397 | every step changes every stored operation only in a way that the event it writes in the same transaction tells |
| `EngineEvents.EntrySays` | liandanlu_native/runtime.py:201-212 | an entry names its operation, task, workspace and objects, and its actor is the engine up to the effect, the verifier for a verification, and recovery otherwise |
| `EngineEvents.EventsTellState` | liandanlu_native/storage.py:374-397 | in every run with crashes, recoveries and dispatches, for every operation: log and pending outbox together hold exactly the events of its saves, once and in order; they begin with the one operation.prepared, contain one operation.started exactly if the operation left PREPARED other than by cancellation, and the last one fits the stored state; an operation that is not stored has none |
| `EngineEvents.EventsCanBeRead` | liandanlu_native/runtime.py:291-382 | in every run the event types of a stored operation read as its state: first operation.prepared, last the one that belongs to its state |
| `EngineEvents.StartedIffWasRunning` | liandanlu_native/runtime.py:335-336 | an operation.started is in log or outbox exactly for the operations that have durably been RUNNING |
| `EngineEvents.NameIsInjective` | liandanlu_native/runtime.py:291-382 | the event types tell the kinds of events apart |
| `Runtime.RecoveryConcludesIff` | liandanlu_native/runtime.py:349-382 | if nothing raises, recovery ends an operation in VERIFIED, FAILED or CANCELLED exactly when it was not observed without a result, and such a one it leaves unchanged |
| `Runtime.ReconcileDecides` | liandanlu_native/runtime.py:365-382 | an operation in RUNNING, UNKNOWN or RECONCILING ends recovery VERIFIED exactly if reconcile returned true, FAILED exactly if it returned false, with the result told, and UNKNOWN with the error exactly if it raised; nothing else of it changes |
| `Runtime.RecoveryDecides` | liandanlu_native/runtime.py:349-364 | a prepared operation is cancelled; an observed one is judged by its verdict; final ones and those without a result stay as they are |
| `Runtime.ExecuteDecides` | liandanlu_native/runtime.py:335-347 | execute leaves UNKNOWN with the error if the call raised, UNKNOWN without a result if it returned none, and otherwise the result and what the verdict says |
| `Runtime.RecoveryFailsSoftly` | liandanlu_native/runtime.py:349-382 | without a conclusion an operation is left UNKNOWN after a failed reconcile, VERIFYING after a failed verify, or observed without a result, and in no other state |
| `Runtime.StuckNeedsNone` | liandanlu_native/runtime.py:343-347 | in no run without an execute call returning None is an operation ever stored as observed without a result |
| `Runtime.SettledIsStable` | liandanlu_native/runtime.py:516-532 | settling at a safe boundary gives the task the state asked for and a second time changes nothing |
| `Runtime.SettlingMeans` | liandanlu_native/runtime.py:516-532 | a pause takes effect at a safe boundary, a cancellation there or when confirmed, and nothing else of the task changes but its revision |
| `Runtime.RequestsMean` | liandanlu_native/runtime.py:487-514 | what a request does in each state: a running task is only marked and stops at the next boundary, others stop at once, a request to run wakes those that wait, a finished task ignores all |
| `Runtime.UpdatesMean` | liandanlu_native/runtime.py:459-485 | the small updates set what they name, count one revision exactly for a change, and keep the rest |
| `Runtime.EarlyEndsMean` | liandanlu_native/agent.py:36-99 | the early ends of a step one by one, in their order of precedence |
| `Runtime.ExecutedState` | liandanlu_native/runtime.py:314-347 | execute leaves an operation UNKNOWN exactly when the call raised or returned None, and otherwise VERIFYING, VERIFIED or FAILED |
| `Runtime.TaskChangesStopIff` | liandanlu_native/world.py:102-118 | when of all revisions only those of task changes have moved since a manifest was built, the check passes exactly for actions that depend neither on the task counter nor on the global one |
| `Runtime.StepLeaves` | liandanlu_native/agent.py:36-195 | what a step does to its task: the budget is charged exactly if the operation was stored; the latest request stands; a wait leaves WAITING with its reason, a refusal BLOCKED, an exception the phase reached; after the effect the task is where a request wants it, or WAITING with an open operation and RUNNING otherwise |
| `Runtime.Node.FromStore` | liandanlu_native/recovery.py:19-41 | a new process starts with the durable tasks and operations, continuing the history of the crashed one |
| `Runtime.Node.Wait` | liandanlu_native/runtime.py:459-468 | the task waits for the reason given, whatever its state, and nothing else changes |
| `Runtime.Node.UpdateState` | liandanlu_native/runtime.py:470-485 | state and phase are set; if that changes anything, the revision grows by one and the counters of task changes move |
| `Runtime.Node.Control` | liandanlu_native/runtime.py:487-514 | a finished task ignores the request; any other records it and takes the state that its present one and the request determine |
| `Runtime.Node.SettleControl` | liandanlu_native/runtime.py:516-532 | a requested pause or cancellation takes effect where its condition allows, reported exactly when the state changed |
| `Runtime.Node.Prepare` | liandanlu_native/runtime.py:214-289 | either operation and charged task are stored together and the history shows each check passing at its place, or nothing changed and the history shows the check that failed: a revision or object, the task lease, the resource lease, or the budget with that reason |
| `Runtime.Node.Verify` | liandanlu_native/runtime.py:291-312 | without a result the operation becomes UNKNOWN, otherwise the verdict decides |
| `Runtime.Node.Execute` | liandanlu_native/runtime.py:314-347 | either nothing changed and the history shows the lease check, capability, revision or locator that failed at its place, or the history shows each of them passing, the capability was called once, and outcome and verdict decide the operation; every step in between is a step of the machine |
| `Runtime.Node.RecoverOperation` | liandanlu_native/runtime.py:349-382 | raises exactly for a missing capability of an operation that is not PREPARED; otherwise the operation becomes what its state, the verdict and the conclusion determine, a locator failing exactly if the history shows an object that could not be used, and no other changes |
| `Runtime.Node.SettleAll` | liandanlu_native/recovery.py:62-67 | every task is settled, and the count is of those whose state changed |
| `Runtime.Node.Recover` | liandanlu_native/recovery.py:46-73 | raises exactly when an open operation lacks its capability, and then the operations before the first such one are recovered, the rest and all tasks unchanged; otherwise every operation is recovered; a locator is reported lost exactly if the history shows an object that could not be used; if nothing raised on the way all are final but those without a result, and all if no execute call in the whole history returned None; with all operations final it reconciles none and changes none |
| `Runtime.Node.Step` | liandanlu_native/agent.py:29-195 | a missing lease, a pending request, an unresolved proposal and the policy end the step exactly as the task and inputs determine, and after ALLOW it ends with the effect unless the history it added shows the check that failed; execute is called exactly if it ends with the effect, once, on the operation prepared from this proposal; the task ends exactly as TaskAfter says for this end and the requests that arrived while the model or the capability was at work; no other task or operation changes; on every exit its resource lease no longer validates; an action depending on the task counters never runs |
| `Frames.HeaderRoundTrip` | liandanlu_native/desktop_bridge.py:115-115 | the four-byte length survives packing and unpacking |
| `Frames.HeaderIsBigEndian` | liandanlu_native/desktop_bridge.py:115-115 | the length is written most significant byte first |
| `Frames.EncodeRejectsIff` | liandanlu_native/desktop_bridge.py:92-115 | exactly empty and too large payloads are rejected; a frame is the header and the payload as it is |
| `Frames.DecodeFailsIff` | liandanlu_native/desktop_bridge.py:134-150 | a transport error exactly if the stream ends inside header or payload, a protocol error exactly for a length of zero or above the limit |
| `Frames.DecodeUndoesEncode` | liandanlu_native/desktop_bridge.py:91-156 | decoding an encoded payload, whatever follows it, returns the payload and stops at the frame boundary |
| `Frames.EncodeUndoesDecode` | liandanlu_native/desktop_bridge.py:134-156 | every accepted frame is the encoding of its payload |
| `Frames.RecvExact` | liandanlu_native/desktop_bridge.py:117-132 | however reads are cut, exactly the requested bytes are consumed; failure on a sound connection means it ended first |
| `Frames.Recv` | liandanlu_native/desktop_bridge.py:134-156 | outcome and bytes left over are those of decoding the stream, or a transport error on an unsound connection |
| `Frames.RecvAll` | liandanlu_native/desktop_bridge.py:91-156 | for every list of payloads within the limit and every way reads are cut, repeated receiving returns exactly those payloads in order, terminates, and leaves the bytes that follow |
| `Referents.Remove` | liandanlu_native/context.py:21-23 | the comprehension drops the earlier entries of a reference and keeps the order of the rest |
| `Referents.ReferentStack.PushReferent` | liandanlu_native/context.py:21-24 | the new entry comes first, earlier ones for the same reference go, and at most 32 stay |
| `Referents.StackIsTruncatedHistory` | liandanlu_native/context.py:21-24 | truncating at every push equals truncating the full distinct history once |
| `Referents.StackIsMostRecentDistinct` | liandanlu_native/context.py:21-24 | the stack lists the last pushes of distinct references, most recent first, and anything missing was last pushed before all 32 that are kept |

## Left out

- SQL text, schema creation and migration, and JSON encoding: tables are maps and transactions are atomic updates.
- Sockets, peer credentials, the handshake and its field checks, and the JSON check of a received payload.
- `supervisor.py`, `control.py` and `brain.py`; `policy.py` is the plain decision function `Engine.Evaluate`.
- `capabilities.py`: the registry is a map from capability and action to a spec; argument checks are not modelled.
- The idempotency mode, arguments and goal texts of tasks and operations, which no modelled branch reads.
- `create`, `queue` and `evaluate_goal` of the task runtime: the machine has them as writes of a task that keep its budget and workspace, and they would only add easy members.
- Runtime.Node.Step: one control request to the task may arrive while the model thinks and one while the capability is at work, the moments at which a process gives up control; requests to other tasks during a step are not part of its contract.
- A budget object shared between tasks: each task has its own, starting at zero.
- Strategy support promotion and memory records saved without a source event.
- Floating-point behaviour of timestamps, scores and confidences: numbers are exact.
- A failing database write inside a live process: a write either happens or the process stops.
- The internal layout of `heapq` lists: a heap is a multiset from which the least item is taken.
- Several processes recovering while another one runs: one process is live at a time, the others appear only through the lease tables, the clock and the world.
- Payloads of the events written with operations, and which events task saves write: `EngineEvents` follows the types, actors and subjects of operation events.
- Crashes inside a change of the world are treated in `DurableWorld`; the machine of `Engine` changes the world at once.
- Time passing inside one step: the revision, access and task lease checks of prepare happen at one instant, as do the budget check and the charge, and the last checks of execute and the saving of RUNNING.
- Runtime.Node.Interfere: its body moves only the clock and the world; that other runners may move the lease tables is part of its contract, which is all its callers use.
- The events that step and recover enqueue, and the flush of the outbox at their ends.
- Frames.RecvAll: payloads are bytes; the JSON objects they spell are not decoded.
