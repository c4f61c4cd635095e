# Velocity Dispatch: a verified model

A Dafny model of the dispatch pipeline: orders are stored and announced on a queue, workers match each one to
the nearest available driver inside a Postgres transaction, and the result is published, notified and audited,
every hop at least once. `dafny verify dfyconfig.toml` checks all of it.

## How it is modelled

- `Model`, `Haversine`, `Geo` are the pure core. Doubles are NaN, the infinities and the reals, without
  rounding; sin, cos, asin and sqrt are parameters constrained by the laws in `TrigLaws` and, where kilometres
  are at stake, `ArcLaw`. The transaction is proved for any function that answers with one of the available
  candidates (`Geo.Matcher`), and `Geo.Matching` is the one the worker uses.
- `Database` is the transaction machine: committed tables, and open transactions with a phase, candidates,
  row locks and private writes. Statements run at READ COMMITTED (PostgreSQL 16, section 13.2.1) with row
  locks (section 13.3.2). `FOR UPDATE SKIP LOCKED` is modelled row by row: others may run between two rows,
  and each row is re-examined when it is reached. An API upsert takes the lock of its row, and commits or fails
  later. The foreign keys of `assignments` need no step of their own: the inserting transaction already holds
  both referenced rows.
- `AtomicSpec` has three atomic events on the tables. `LockSoundness` is the inductive invariant, `Refinement`
  shows that every interleaving is a history of those events and proves what histories keep, `Progress` is
  deadlock freedom, and `Scan` says whom a scan fetches while others run.
- `Pipeline` is the whole protocol: queue with receive counts and visibility, dead-letter queue, poll loops
  with permits, worker tasks, event bus. A call that can fail carries what became of it, whether or not its
  caller heard of it; `Fail` and `Restart` are crashes. `Delivery`, `Messages`, `Accounting`, `Permits` and
  `Termination` prove what every run keeps, and `Reachability` collects the results for runs from an empty system.
- `Serial` and `Greedy` are one delivery after the other, and the quality of the matching that yields; `Drain`
  proves the same of the pipeline machine with one worker and one permit.
- `Postgres`, `MatchingService`, `Worker`, `ApiService` and `Notify` follow the services' imperative code.
  A `Server` logs its steps, so a valid server is in a reachable state of the machine and every theorem about
  runs applies to it. What other clients do between two awaits, and the fate of each request, come in as an
  argument and are arbitrary.
- `Counterexamples` runs these methods where the code does less than its documentation says.

Limits are parameters (`poolSize`, `maxInFlight`, the radius) or constants (5 receives, batches of 10). Ids are
natural numbers; a generated UUID is an unused one.

## Where documentation and code differ

- `services/dispatch-worker/src/db.rs:61-65` says that the loser of a race sees the next-nearest candidate. The
  query has no LIMIT and locks every available driver it reaches, so a concurrent scan may find nobody:
  `Counterexamples.LoserFindsNobody`. What a scan does fetch, under any interference, are all drivers that are
  free throughout it and none that never is (`Scan.ScanFetches`), and no other driver is promised. A driver is
  free while it is available and nobody has its row locked: not another worker, and not a location ping in
  flight (`Counterexamples.PingHidesDriver`).
- FR-9 (`docs/REQUIREMENTS.md:113`) promises a notification and an audit record for every assignment. The event
  is published after the commit, and a redelivery does not publish again.
  `Counterexamples.RefusedPublishIsNeverRepeated` is such a run. The exact condition is in
  `Notify.FR9HoldsUnlessLost`: the commit's reply was not lost, the publish was not refused, and the task did not
  die in between (`Reachability.LosesEvent`).
- A driver can be assigned again while its first order is under way, because both driver endpoints can make it
  available. `Counterexamples.BusyDriverIsAssignedAgain` does it, and
  `Refinement.SecondAssignmentNeedsReset` is the version that holds.
- `services/dispatch-notify-lambda/src/audit.rs:5-8` calls the key the assignment id; it is the pair of order id
  and assignment id, as in the code and in `Notify.KeyOf`.

## Model

| member | source | states |
|---|---|---|
| `Model.NewGeoPoint` | crates/dispatch-core/src/model.rs:16-23 | accepts exactly the points within ±90/±180 degrees; NaN and infinities are rejected by the same comparisons, and the error carries both inputs |
| `Haversine.HIsChord` | crates/dispatch-core/src/geo.rs:20-31 | `h` is a quarter of the squared straight-line chord between the two points of the unit sphere, for any coordinates |
| `Haversine.HWellDefined` | crates/dispatch-core/src/geo.rs:27-28 | `h` stays in [0, 1], so `sqrt` and `asin` apply; it is symmetric, and 0 exactly when both points are the same place |
| `Haversine.HaversineWellDefined` | crates/dispatch-core/src/geo.rs:20-31 | the distance lies in [0, π·6371], is symmetric, and is 0 exactly on one place |
| `Haversine.HaversineRanksByChord` | crates/dispatch-core/src/geo.rs:17-19 | as a "who is closest" signal the distance ranks exactly like the chord through the sphere |
| `Haversine.GreatCircleDistance` | crates/dispatch-core/src/geo.rs:20-31 | between any two validated points the distance is 6371 times the angle at the earth's centre: the great-circle arc |
| `Haversine.MeridianDistance` | crates/dispatch-core/src/geo.rs:20-31 | due north it is 6371 · π/180 kilometres per degree of latitude |
| `Haversine.EquatorDistance` | crates/dispatch-core/src/geo.rs:20-31 | along the equator it is 6371 · π/180 kilometres per degree of longitude |
| `Haversine.ValidPointsHaveDistance` | crates/dispatch-core/src/geo.rs:20-31 | between validated points the distance is a number, never NaN, symmetric, and at most π·6371 |
| `Geo.InRangeStep` | crates/dispatch-core/src/geo.rs:44-48 | the filter/map/filter chain is a scan: one more candidate adds its measurement exactly when it is available and within the radius |
| `Geo.NearestStep` | crates/dispatch-core/src/geo.rs:44-50 | one more candidate changes the answer only by being eligible and strictly closer (`min_by` keeps the first minimum) |
| `Geo.NearestDriverIsNearest` | crates/dispatch-core/src/geo.rs:39-51 | for every slice: an error exactly when nobody is eligible, else the earliest candidate at minimum distance |
| `Geo.NearestDistanceIsInRange` | crates/dispatch-core/src/geo.rs:48 | the returned distance passed the radius test, so it is never NaN, and the driver is an available candidate |
| `Geo.EligibleDistancesCompare` | crates/dispatch-core/src/geo.rs:48-49 | on what reaches it, `total_cmp` agrees with `<` |
| `Geo.DistanceIgnoresOrder` | crates/dispatch-core/src/geo.rs:39-51 | the same rows in another order give the same distance or the same error |
| `Geo.Matching` | services/dispatch-worker/src/matching.rs:44 | the matcher used by the transaction is `nearest_driver` with metric and radius fixed, and its answer is always one of the available candidates |
| `AtomicSpec.LegalKeepsTablesInv` | migrations/20260101000001_init.sql:38-44 | each atomic event keeps assignments and assigned orders in one-to-one correspondence, without a unique constraint on `order_id` |
| `AtomicSpec.HistoryKeepsTablesInv` | services/dispatch-worker/src/db.rs:40-51 | at most one assignment per order over every history of events |
| `LockSoundness.StatementKeepsTxnInv` | services/dispatch-worker/src/db.rs:40-114 | each statement keeps: claimed order locked and still pending, candidates locked, unchanged and still available, writes only to locked rows |
| `LockSoundness.StatementKeepsApart` | services/dispatch-worker/src/db.rs:66-73 | no statement makes two open transactions share an order lock, a driver lock or an assignment id |
| `LockSoundness.CommitIsAssignment` | services/dispatch-worker/src/matching.rs:44-61 | committing the private write set equals one atomic assignment, legal at that moment: order pending, every candidate an available row, driver the matcher's answer |
| `LockSoundness.StepKeepsInv` | services/dispatch-worker/src/matching.rs:24-73 | lock soundness is inductive over every step: API writes, every statement, every scanned row, commit, rollback, crash |
| `LockSoundness.RunKeepsInv` | services/dispatch-worker/src/matching.rs:18-23 | lock soundness after every interleaving of any number of transactions |
| `LockSoundness.CandidatesAreExclusive` | services/dispatch-worker/src/db.rs:61-73 | candidate sets of two open transactions are disjoint, and each candidate is locked, available in the committed table, and not held by an upsert |
| `Refinement.StepRefines` | services/dispatch-worker/src/matching.rs:24-73 | one step changes the tables by one legal atomic event or not at all |
| `Refinement.RunRefinesSpec` | services/dispatch-worker/src/matching.rs:18-23 | refinement: the tables after any interleaving are the outcome of its history of atomic events, and that history is legal |
| `Refinement.HistoryExtends` | services/dispatch-worker/src/db.rs:95-104 | assignment rows never change, assigned orders stay assigned, pickups and names stay, over every history |
| `Refinement.AssignmentsArePermanent` | services/dispatch-worker/src/db.rs:35-51 | the same between any two reachable states, with the one-to-one correspondence in the first |
| `Refinement.AssignmentsNeedResets` | services/dispatch-api/src/routes.rs:139-177 | a driver's assignments plus its being available never exceed the upserts that made it available |
| `Refinement.SecondAssignmentNeedsReset` | services/dispatch-worker/src/db.rs:61-65 | between two assignments of one driver there is an upsert that made it available |
| `Progress.WaitersHoldNothing` | services/dispatch-worker/src/matching.rs:30-42 | a transaction that waits holds no row lock, and nobody waits behind a waiter: no waits-for cycle |
| `Progress.HoldersMove` | services/dispatch-worker/src/matching.rs:42-70 | once the order is claimed, nothing can block the transaction again |
| `Progress.MovesOrWaits` | services/dispatch-worker/src/matching.rs:30-70 | every open transaction can move, or waits for one that can |
| `Progress.NoDeadlock` | services/dispatch-worker/src/db.rs:40-114 | while any transaction is open, some open transaction can move (the pool comes in with `Termination.TasksAreServed`) |
| `Progress.UpsertsWaitForMovers` | services/dispatch-api/src/db.rs:147-162 | an API upsert that finds its driver locked waits for a transaction that can move, or for another upsert that can commit and then sets the row free |
| `Scan.FreeDriverIsReached` | services/dispatch-worker/src/db.rs:66-73 | among arbitrary other transactions and API upserts, in flight or committed, a scan never passes over a driver that is available and unlocked in each of its states |
| `Scan.LockedDriverIsPassedOver` | services/dispatch-worker/src/db.rs:66-73 | and it never locks a driver that is free in none of them |
| `Scan.ScanFetches` | services/dispatch-worker/src/db.rs:66-88 | so after the scan every driver that stayed free is a candidate, with its present row, and none that never was free |
| `Scan.ChoiceBeatsFreeDrivers` | services/dispatch-worker/src/matching.rs:42-47 | from then to the commit or rollback: the chosen driver is no farther than any driver that stayed free; if nobody was found, none of those is in range |
| `Scan.UninterruptedScanFetches` | services/dispatch-worker/src/db.rs:66-73 | with nobody else running during the scan, it fetches a driver if and only if it was free at the start |
| `Scan.LoserFetchesNobody` | services/dispatch-worker/src/db.rs:61-65 | while others hold every available driver, the scan returns nobody: the next-nearest driver promised by the comment is not seen |
| `Delivery.TablesMove` | services/dispatch-worker/src/main.rs:91-152 | each action of the pipeline changes the tables by one legal atomic event or not at all |
| `Delivery.NotClaimedMeansAssigned` | services/dispatch-worker/src/matching.rs:32-40 | an UPDATE that touches no row means that the order of this message is already assigned |
| `Delivery.MessageStays` | services/dispatch-worker/src/main.rs:127-146 | a message of a pending order stays in the main queue or moves to the dead-letter queue |
| `Delivery.StaysTraceable` | services/dispatch-api/src/routes.rs:97-115 | no single action, crash or failure makes a pending order untraceable |
| `Delivery.ActionKeepsInvariant` | services/dispatch-worker/src/main.rs:44-152 | locks, true messages, valid coordinates, settled deleters and no lost order are kept by every action |
| `Delivery.TraceKeepsInvariant` | services/dispatch-worker/src/main.rs:44-152 | the same over every run |
| `Delivery.KeepsCoordinates` | services/dispatch-worker/src/db.rs:75-87 | every stored coordinate stays a validated one although the worker rebuilds points without checking |
| `Delivery.KeepsMessages` | services/dispatch-worker/src/main.rs:104-116 | every message, batched delivery and worker task refers to an existing order and carries exactly that order's pickup |
| `Messages.FiveReceives` | infra/terraform/sqs.tf:17-20 | over every run: each message is received at most 5 times, each receive is counted, another one needs a timeout in between, and a dead letter was received exactly 5 times |
| `Messages.WhereMessagesEnd` | services/dispatch-worker/src/main.rs:154-167 | a queued message stays until a task deletes it or it is redriven, and is a dead letter exactly if it was redriven |
| `Messages.DeleteTakesOne` | services/dispatch-worker/src/main.rs:154-167 | a successful delete takes exactly its own message out of the main queue |
| `Messages.DeletedIsGone` | services/dispatch-worker/src/main.rs:154-167 | at no later point of any run is a deleted message in the main queue or received |
| `Messages.FailedTaskLeavesMessage` | services/dispatch-worker/src/main.rs:128-133 | a task that fails, be it at commit, rollback, publish or delete, is gone, and both queues are as they were |
| `Messages.NoDriverLeavesMessage` | services/dispatch-worker/src/main.rs:139-146 | "no driver" ends the task and leaves the message for another attempt |
| `Messages.DeletersWereAcknowledged` | services/dispatch-worker/src/main.rs:131-138 | in every run a task that may delete has had its event acknowledged, or has rolled back an order already handled |
| `Messages.HandledMayBeDeleted` | services/dispatch-worker/src/main.rs:131-138 | and after either of the two the delete can be made |
| `Messages.CommittedMayBePublished` | services/dispatch-worker/src/main.rs:128-131 | a commit that is heard of can be published, with the ids and the distance of the stored row |
| `Messages.CallsMayFail` | services/dispatch-worker/src/main.rs:114-152 | wherever a call can be made it can also fail, and a publish may fail although it was accepted |
| `Messages.TasksMayDie` | services/dispatch-worker/src/main.rs:74-87 | a task may die at any await; it and its open transaction are gone |
| `Messages.ReceivedIsHandedOver` | services/dispatch-worker/src/main.rs:51-73 | a received message is the last of the batch, with the order and the pickup of the queue; a lost reply hands over nothing |
| `Messages.SpawnTakesFirst` | services/dispatch-worker/src/main.rs:74-87 | each message of a batch goes to one task of its own, in the order of the batch |
| `Messages.UnannouncedIffFailed` | services/dispatch-api/src/routes.rs:105-115 | over every run an order is unannounced if and only if publishing its message failed |
| `Messages.StoredIffAnnounced` | services/dispatch-api/src/routes.rs:105-115 | a message exists for an order if and only if the order's announcement stored it |
| `Messages.OrdersAreAnnouncedOnce` | services/dispatch-api/src/routes.rs:97-115 | no order ever has two messages |
| `Accounting.ActionsPostEntries` | services/dispatch-worker/src/main.rs:128-133 | what an action does to assignments, bus, held and lost events is exactly one ledger entry |
| `Accounting.PostingKeepsBalance` | services/dispatch-worker/src/eventbridge.rs:21-42 | each entry keeps the books: every assignment in exactly one of bus, held, lost; nothing published twice; ids and distance as stored |
| `Accounting.TraceKeepsBalance` | services/dispatch-worker/src/main.rs:128-133 | the books are balanced after every run |
| `Permits.ActionConservesPermits` | services/dispatch-worker/src/main.rs:74-87 | free permits, the one in the loop's hand and those of running tasks always add up to `max_in_flight`, on every path |
| `Permits.ActionRespectsPool` | services/dispatch-worker/src/db.rs:9-13 | a worker's open transactions never exceed its pool |
| `Permits.WorkIsBounded` | services/dispatch-worker/src/main.rs:36-39 | running tasks never exceed the permits, open transactions neither the permits nor the pool |
| `Termination.StatementShortens` | services/dispatch-worker/src/matching.rs:30-70 | every await of the transaction, each scanned row included, shortens what is left of it |
| `Termination.ActionDecreases` | services/dispatch-worker/src/main.rs:51-146 | one measure over receives left, batches, tasks and statements goes down with every action but new traffic, failures and timeouts included |
| `Termination.RunsAreBounded` | infra/terraform/sqs.tf:17-20 | no run without new orders and driver updates is longer than the measure of its first state |
| `Termination.TasksAreServed` | services/dispatch-worker/src/db.rs:8-15 | however small the pool, as long as it is not empty: while there are tasks, some task can make its next step, without waiting and with success |
| `Termination.StoppedMeansDone` | infra/terraform/sqs.tf:17-20 | where no action can succeed any more, the main queue and all batches are empty, and each pending order is a dead letter or was never announced |
| `Reachability.EveryReachableState` | services/dispatch-worker/src/main.rs:44-152 | from an empty system, all invariants above hold in every reachable state |
| `Reachability.PipelineRunsDatabase` | services/dispatch-worker/src/main.rs:114-116 | the database inside the pipeline goes through a run of the database machine, so its refinement applies |
| `Reachability.DriverExclusivity` | services/dispatch-api/src/routes.rs:139-177 | over every run of the whole system, assignments of a driver plus its being available never exceed its resets |
| `Reachability.FreeDriversAreNotOverlooked` | services/dispatch-worker/src/matching.rs:42-61 | over any stretch of a run: the answer is the best for the order's own pickup among all drivers that stayed free during the scan, for commits and for rollbacks |
| `Reachability.PipelineRefinesSpec` | services/dispatch-worker/src/matching.rs:42-61 | every run of the pipeline is a legal history of atomic events in which each assignment is for its order's own pickup and gives it the nearest candidate in range |
| `Reachability.CommittedDistanceIsNumber` | services/dispatch-worker/src/db.rs:94-104 | the stored distance is a number between 0 and the radius, at most π·6371 |
| `Reachability.DeletesAreSafe` | services/dispatch-worker/src/main.rs:154-167 | a message is deleted only when its order is assigned |
| `Reachability.PublishedIffNothingFailed` | services/dispatch-worker/src/main.rs:128-133 | over every run: once no task holds it, an assignment's event has reached the bus if and only if no commit reply was lost, no publish refused and no task died before the publish, for this assignment |
| `Reachability.LostIffRefusedOrDied` | services/dispatch-worker/src/main.rs:128-133 | lost are exactly the events whose commit reply was lost, whose publish was refused, or whose task died before publishing |
| `Serial.SerialRunConcat` | services/dispatch-worker/src/main.rs:74-87 | serial runs compose: tables and outcomes of a longer run are those of its parts |
| `Serial.DuplicatesAreStuttering` | services/dispatch-worker/src/matching.rs:32-40 | a delivery of an order no longer pending can be removed from any serial run; tables and all other outcomes stay |
| `Greedy.NearestFinds` | crates/dispatch-core/src/geo.rs:39-51 | the worker's matcher finds somebody exactly when somebody available is in range |
| `Greedy.DrainTakesOutMatching` | services/dispatch-worker/src/matching.rs:42-70 | any serial run assigns a matching of in-range pairs and leaves each order it delivered without an available driver in range |
| `Greedy.DrainIsMaximal` | services/dispatch-worker/src/main.rs:127-146 | if every pending order was delivered once, no order left pending has an available driver in range |
| `Greedy.DrainIsHalfOfBest` | services/dispatch-worker/src/matching.rs:42-70 | then any other matching is at most twice as large |
| `Greedy.DrainStoresMatching` | services/dispatch-worker/src/db.rs:94-104 | each pair of the matching is one new assignment row |
| `Drain.DrainedSystemIsHalfOfBest` | services/dispatch-worker/src/main.rs:51-146 | of the machine itself, from any reachable state before the first receive: one worker with one permit, no API traffic, no failures; in whatever order messages are received, time out and are dead-lettered, when nothing is left to do no pending order has an available driver in range, and any matching is at most twice the number of rows stored |
| `Drain.DrainEnds` | infra/terraform/sqs.tf:17-20 | and from every reachable state some run without failures comes to that end |
| `Postgres.Server.InsertOrder` | services/dispatch-api/src/db.rs:76-93 | adds exactly the pending row |
| `Postgres.Server.LockDriver` | services/dispatch-api/src/db.rs:147-162 | the upsert has the row of a driver that nobody else has locked; scans skip it from now on |
| `Postgres.Server.UpsertDriver` | services/dispatch-api/src/db.rs:135-164 | its commit inserts or overwrites location and status, keeps the name of a known driver, and sets the row free |
| `Postgres.Server.Commit` | services/dispatch-worker/src/matching.rs:61 | the committed tables become the old ones overwritten by the private writes, and the transaction is gone |
| `Postgres.Server.Interfere` | services/dispatch-worker/src/matching.rs:30-70 | between two awaits each step of others that the locks allow happens; an open transaction keeps its phase, locks, candidates and writes, and an upsert in flight its row |
| `Postgres.ForeignRunHappens` | services/dispatch-worker/src/matching.rs:30-70 | a run of other clients between two awaits happens in full |
| `Postgres.TablesOnlyGrow` | services/dispatch-worker/src/db.rs:40-114 | between two points of any log, assignments, assigned orders and driver rows stay |
| `MatchingService.AwaitOrderRow` | services/dispatch-worker/src/db.rs:44-50 | the UPDATE waits exactly while another transaction has the pending row locked; it fails only with a failed await, or still waiting when the plan is over |
| `MatchingService.ClaimOrderForAssignment` | services/dispatch-worker/src/db.rs:40-51 | waits for the row lock, then claims exactly if the order is pending at that moment; an error means a failed await or a row still locked at the end of the plan, and then the transaction is gone |
| `MatchingService.VisitNext` | services/dispatch-worker/src/db.rs:66-73 | one row of the scan, exactly: passed over when locked or no longer available, else locked and fetched; a locked row is no error |
| `MatchingService.AvailableDriversForUpdate` | services/dispatch-worker/src/db.rs:66-88 | succeeds if and only if none of its awaits failed, and returns every driver that stayed free, whatever others do; with nobody else running, every available driver |
| `MatchingService.RecordAssignment` | services/dispatch-worker/src/db.rs:90-114 | either both rows are written in the transaction, or an await failed or the id is in use, and the transaction is gone |
| `MatchingService.AssignOrder` | services/dispatch-worker/src/matching.rs:24-73 | under arbitrary interference and failures: always ends its transaction; an error means that an await failed, the order's row was still locked at the end, or the assignment id is in use; the outcome is the matcher's answer on rows that include every driver that stayed free; a reported assignment is stored with the same ids and distance; "already handled" means assigned; otherwise nothing was committed unless a reply was lost; alone it computes the serial assignment |
| `MatchingService.OutcomeIsJustified` | services/dispatch-worker/src/matching.rs:44-70 | what that means for a driver that stayed free: it is no nearer than the assigned one, and after "no driver" it is out of range |
| `Worker.HandleMessage` | services/dispatch-worker/src/main.rs:91-152 | for each outcome of `assign_order`, what becomes of bus, message and reply: publish before delete, and no delete unless the publish is acknowledged; an order already handled is deleted; "no driver" and errors leave everything |
| `Worker.OrderQueue.Send` | services/dispatch-api/src/sqs.rs:21-40 | a stored message has an id never used before and carries the order and its pickup, unreceived and visible; the reply says only whether the caller knows |
| `Worker.OrderQueue.Delete` | services/dispatch-worker/src/main.rs:154-167 | removes exactly this message, or nothing; the caller may not hear of a removal, and without a receipt handle nothing happens and that is a success |
| `Worker.EventBus.Publish` | services/dispatch-worker/src/eventbridge.rs:21-42 | appends the event or nothing, and fails if the bus refused it |
| `Worker.ServeBatch` | services/dispatch-worker/src/main.rs:74-87 | the message loop with one permit and no failures is a serial run: tables, bus and queue are those of the run, and only messages of orders without a driver stay |
| `Worker.ServedConcat` | services/dispatch-worker/src/main.rs:51-87 | batches served one after the other are one long batch |
| `Worker.BatchStoresHalfOfBest` | services/dispatch-worker/src/main.rs:74-87 | a batch with a message for every pending order stores at least half as many assignment rows as any matching has pairs |
| `Counterexamples.RefusedPublishIsNeverRepeated` | docs/REQUIREMENTS.md:113 | FR-9 fails: after one refused publish and a redelivery the order is assigned, the queue empty and the bus empty |
| `Counterexamples.DriverIsAssignedTwice` | services/dispatch-worker/src/db.rs:90-114 | a legal history with two assignments of one driver |
| `Counterexamples.BusyDriverIsAssignedAgain` | services/dispatch-api/src/routes.rs:162-177 | the same through the services' handlers: register, create two orders, deliver one, update the location, deliver the other |
| `Counterexamples.PingHidesDriver` | services/dispatch-worker/src/db.rs:66-73 | a reachable state in which a scan has found nobody, although the only driver was available and in range all the time: its location ping had the row |
| `Counterexamples.LoserFindsNobody` | services/dispatch-worker/src/db.rs:61-65 | a reachable state in which a scan has found nobody although two drivers are available and in range |
| `ApiService.CreateOrder` | services/dispatch-api/src/routes.rs:81-118 | invalid points change nothing and name the first bad one; once stored, success whatever becomes of the message; never a message without a row |
| `ApiService.AwaitDriverRow` | services/dispatch-api/src/db.rs:147-162 | waits until the first moment at which nobody has the row locked |
| `ApiService.PutDriver` | services/dispatch-api/src/db.rs:147-162 | succeeds if and only if the row becomes free during the wait and the statement does not fail; it holds the row while others run; the row has the new location and status, a known driver its name, and a new one that nobody else is inserting the given name |
| `ApiService.RegisterDriver` | services/dispatch-api/src/routes.rs:138-154 | validates and names the bad point; otherwise it fails only as the upsert fails, and then the driver is available at that place, under the given name if it is new |
| `ApiService.UpdateDriverLocation` | services/dispatch-api/src/routes.rs:162-177 | the same for an update; busy and offline only on exactly those words, anything else makes the driver available |
| `Notify.HandleEvent` | services/dispatch-notify-lambda/src/main.rs:53-75 | notify before audit; the record is written if and only if a bucket is configured, the notification did not fail (or there is no topic), and the put takes effect; success means both configured steps succeeded |
| `Notify.StoreHoldsWritten` | services/dispatch-notify-lambda/src/audit.rs:19-32 | the store holds exactly the events whose audit step took effect at least once, each under its key |
| `Notify.AuditConverges` | services/dispatch-notify-lambda/src/audit.rs:5-8 | reordering, duplication, retries and partial failures do not show: equal sets of written events give equal stores |
| `Notify.AuditConvergesBehindBus` | services/dispatch-notify-lambda/src/main.rs:60-74 | the same for the events of any reachable state's bus, where no two events share a key |
| `Notify.RecordsWereNotified` | services/dispatch-notify-lambda/src/main.rs:70-72 | with a topic, a stored record implies that its notification was sent |
| `Notify.RecordsMatchRows` | services/dispatch-notify-lambda/src/audit.rs:19-32 | behind the pipeline each record agrees with its assignment row, and no order has two records |
| `Notify.TopicHoldsNotified` | services/dispatch-notify-lambda/src/notify.rs:9-36 | the topic has exactly the notifications whose publish took effect |
| `Notify.NotifiedIffNothingFailed` | services/dispatch-notify-lambda/src/main.rs:70-72 | over every run and every list of invocations: once no task holds it, an assignment is notified and audited if and only if invocations of its event got through both steps, which they can only if nothing failed before the bus |
| `Notify.FR9HoldsUnlessLost` | docs/REQUIREMENTS.md:113 | FR-9's exact condition: if the bus gets every accepted event through once, an assignment is notified and audited if and only if no commit reply was lost, no publish refused and no task died before the publish, for this assignment |

## Left out

- HTTP, JSON, AWS clients, configuration, metrics, logging, health check, read-only endpoints, migrations and deployment: foreign calls or tables of constants.
- Wall-clock time: `created_at`, `assigned_at` and `updated_at` are not modelled, and a visibility timeout may expire at any moment.
- Rounding of doubles and the sign of zero: distances are reals, and no accuracy figure is claimed.
- Message retention and messages without a body or with a foreign body: `Worker.HandleMessage` handles them, but the `Pipeline` machine has no such messages.
- Statuses picked up, delivered and cancelled: they exist as values, and no code produces them.
- A second attempt of an AWS client below one call (its own retries): a call is one attempt whose effect and reply may differ.
- Deletes, unique violations and serialization failures on tables: no code deletes rows, and a collision of generated ids is only modelled in `MatchingService.InsertAssignmentRow`.
- The poll loop as an imperative loop with spawned tasks: `Pipeline` has it as actions, because Dafny methods do not run concurrently; `Worker.ServeBatch` is its one-permit case.
- Restart: a crashed process is the restart of its loop and the failure of its tasks one by one, in any order, not one simultaneous step.
- That every order is eventually matched: it does not hold under lock contention and five receives, and is not claimed.
- HandleMessage: others may use the database meanwhile, but the queue and the bus are only touched by this call; interleavings on those are covered by the `Pipeline` machine.
