/**
 The Postgres side as a state machine: committed tables, and open transactions with their row locks and
 uncommitted writes. Every transition is one statement, one row of the locking scan, or the end of a
 transaction; an API upsert is two, taking its row's lock and committing. No isolation level is set in the code,
 so statements run at READ COMMITTED: a statement sees committed rows, and a blocked UPDATE looks at the row
 again once the lock is gone.
 */
module Database {
  import opened Model
  import opened Wrappers
  import opened Geo

  /** What the environment fixes: the matching function and the limits of one worker process. */
  datatype Config = Config(nearest: Matcher, poolSize: nat, maxInFlight: nat)

  datatype Tables = Tables(orders: map<Id, Order>, drivers: map<Id, Driver>, assignments: map<Id, Assignment>)

  const NO_ROWS := Tables(map[], map[], map[])

  predicate IsPending(t: Tables, o: Id) {
    o in t.orders && t.orders[o].status == Pending
  }

  function AvailableIds(t: Tables): set<Id> {
    set d | d in t.drivers && t.drivers[d].status == Available
  }

  /** The rows of `w` replace or extend those of `t`. */
  function Overwrite(t: Tables, w: Tables): Tables {
    Tables(t.orders + w.orders, t.drivers + w.drivers, t.assignments + w.assignments)
  }

  function InsertOrderRow(t: Tables, o: Id, pickup: GeoPoint, dropoff: GeoPoint): Tables {
    t.(orders := t.orders[o := Order(pickup, dropoff, Pending)])
  }

  /** INSERT .. ON CONFLICT DO UPDATE: an existing row keeps its name. */
  function UpsertDriverRow(t: Tables, d: Id, name: string, location: GeoPoint, status: DriverStatus): Tables {
    var kept := if d in t.drivers then t.drivers[d].name else name;
    t.(drivers := t.drivers[d := Driver(d, kept, location, status)])
  }

  // --- One transaction of `assign_order`

  /** Where `assign_order` stands between two awaits. */
  datatype Phase =
    | Begun
    | Waiting                        // blocked on the order row
    | NotClaimed                     // the UPDATE touched no row
    | Claimed
    | Scanning(remaining: set<Id>)   // inside SELECT .. FOR UPDATE SKIP LOCKED
    | Selected
    | Inserted(assignmentId: Id)
    | Recorded(assignmentId: Id)

  datatype Txn = Txn(
    orderId: Id, pickup: GeoPoint, phase: Phase, candidates: seq<Driver>,
    orderLocks: set<Id>, driverLocks: set<Id>, writes: Tables)

  function NewTxn(o: Id, pickup: GeoPoint): Txn {
    Txn(o, pickup, Begun, [], {}, {}, NO_ROWS)
  }

  /** One await of the transaction. `skip`: the row is locked by somebody else. */
  datatype Statement =
    | Block
    | Claim
    | StartScan
    | ScanRow(driverId: Id, skip: bool)
    | EndScan
    | InsertAssignment(assignmentId: Id)
    | MarkBusy

  function Choice(c: Config, x: Txn): Result<Measured, CoreError> {
    (c.nearest)(x.pickup, x.candidates)
  }

  function ChosenDriver(c: Config, x: Txn): Id
    requires Choice(c, x).Ok?
  {
    Choice(c, x).value.0.id
  }

  function InsertedRow(c: Config, x: Txn): Assignment
    requires Choice(c, x).Ok?
  {
    Assignment(x.orderId, ChosenDriver(c, x), Choice(c, x).value.1)
  }

  /** The order in which the code issues its statements. */
  predicate CanExecute(c: Config, t: Tables, x: Txn, stmt: Statement) {
    match stmt
    case Block => x.phase.Begun?
    case Claim => x.phase.Begun? || x.phase.Waiting?
    case StartScan => x.phase.Claimed?
    case ScanRow(d, _) => x.phase.Scanning? && d in x.phase.remaining
    case EndScan => x.phase == Scanning({})
    case InsertAssignment(_) => x.phase.Selected? && Choice(c, x).Ok?
    case MarkBusy => x.phase.Inserted? && Choice(c, x).Ok? && ChosenDriver(c, x) in t.drivers
  }

  /** UPDATE orders SET status = 'assigned' WHERE id = $1 AND status = 'pending' */
  function ClaimOrder(t: Tables, x: Txn): Txn {
    if IsPending(t, x.orderId) then
      x.(phase := Claimed, orderLocks := x.orderLocks + {x.orderId},
         writes := x.writes.(orders := x.writes.orders[x.orderId := t.orders[x.orderId].(status := Assigned)]))
    else
      x.(phase := NotClaimed)
  }

  /** One row of the scan: skipped when locked or no longer available, else locked and fetched as it is now. */
  function VisitRow(t: Tables, x: Txn, d: Id, skip: bool): Txn
    requires x.phase.Scanning?
  {
    var rest := Scanning(x.phase.remaining - {d});
    if !skip && d in AvailableIds(t)
    then x.(phase := rest, candidates := x.candidates + [t.drivers[d]], driverLocks := x.driverLocks + {d})
    else x.(phase := rest)
  }

  function Execute(c: Config, t: Tables, x: Txn, stmt: Statement): Txn
    requires CanExecute(c, t, x, stmt)
  {
    match stmt
    case Block => x.(phase := Waiting)
    case Claim => ClaimOrder(t, x)
    case StartScan => x.(phase := Scanning(AvailableIds(t)))
    case ScanRow(d, skip) => VisitRow(t, x, d, skip)
    case EndScan => x.(phase := Selected)
    case InsertAssignment(a) =>
      x.(phase := Inserted(a), writes := x.writes.(assignments := x.writes.assignments[a := InsertedRow(c, x)]))
    case MarkBusy =>
      var d := ChosenDriver(c, x);
      x.(phase := Recorded(x.phase.assignmentId),
         writes := x.writes.(drivers := x.writes.drivers[d := t.drivers[d].(status := Busy)]))
  }

  // --- All transactions together

  /** `held`: drivers whose row an API upsert has locked and not committed yet. */
  datatype Db = Db(tables: Tables, txns: map<Id, Txn>, held: set<Id>)

  const EMPTY_DB := Db(NO_ROWS, map[], {})

  datatype Step =
    | InsertOrder(orderId: Id, pickup: GeoPoint, dropoff: GeoPoint)
    | LockDriver(driverId: Id)     // an upsert has its row
    | UpsertDriver(driverId: Id, name: string, location: GeoPoint, status: DriverStatus)   // and commits
    | UnlockDriver(driverId: Id)   // or fails
    | Begin(txn: Id, orderId: Id, pickup: GeoPoint)
    | Do(txn: Id, stmt: Statement)
    | Commit(txn: Id)
    | Abort(txn: Id)               // ROLLBACK, a failed statement, or a lost connection

  predicate OrderLocked(s: Db, o: Id) {
    exists t :: t in s.txns && o in s.txns[t].orderLocks
  }

  predicate LockedByTxn(s: Db, d: Id) {
    exists t :: t in s.txns && d in s.txns[t].driverLocks
  }

  predicate DriverLocked(s: Db, d: Id) {
    d in s.held || LockedByTxn(s, d)
  }

  /** A UUID nobody has used: neither committed nor written by an open transaction. */
  predicate FreshAssignment(s: Db, a: Id) {
    && a !in s.tables.assignments
    && (forall t | t in s.txns :: a !in s.txns[t].writes.assignments)
  }

  /** What the locks of other transactions, and primary keys, allow a statement to do. */
  predicate LocksAllow(s: Db, x: Txn, stmt: Statement) {
    match stmt
    case Block => IsPending(s.tables, x.orderId) && OrderLocked(s, x.orderId)
    case Claim => IsPending(s.tables, x.orderId) ==> !OrderLocked(s, x.orderId)
    case ScanRow(d, skip) => skip == DriverLocked(s, d)
    case InsertAssignment(a) => FreshAssignment(s, a)
    case _ => true
  }

  predicate Enabled(c: Config, s: Db, step: Step) {
    match step
    case InsertOrder(o, _, _) => o !in s.tables.orders
    case LockDriver(d) => !DriverLocked(s, d)
    case UpsertDriver(d, _, _, _) => d in s.held
    case UnlockDriver(d) => d in s.held
    case Begin(t, _, _) => t !in s.txns
    case Do(t, stmt) => t in s.txns && CanExecute(c, s.tables, s.txns[t], stmt) && LocksAllow(s, s.txns[t], stmt)
    case Commit(t) => t in s.txns && s.txns[t].phase.Recorded?
    case Abort(t) => t in s.txns
  }

  function Apply(c: Config, s: Db, step: Step): Db
    requires Enabled(c, s, step)
  {
    match step
    case InsertOrder(o, pickup, dropoff) => s.(tables := InsertOrderRow(s.tables, o, pickup, dropoff))
    case LockDriver(d) => s.(held := s.held + {d})
    case UpsertDriver(d, name, location, status) =>
      s.(tables := UpsertDriverRow(s.tables, d, name, location, status), held := s.held - {d})
    case UnlockDriver(d) => s.(held := s.held - {d})
    case Begin(t, o, pickup) => s.(txns := s.txns[t := NewTxn(o, pickup)])
    case Do(t, stmt) => s.(txns := s.txns[t := Execute(c, s.tables, s.txns[t], stmt)])
    case Commit(t) => Db(Overwrite(s.tables, s.txns[t].writes), s.txns - {t}, s.held)
    case Abort(t) => s.(txns := s.txns - {t})
  }

  // Runs: any list of steps, each enabled when its turn comes. All interleavings are such lists.

  ghost predicate IsRun(c: Config, s: Db, run: seq<Step>)
    decreases |run|
  {
    run == [] || (Enabled(c, s, run[0]) && IsRun(c, Apply(c, s, run[0]), run[1..]))
  }

  ghost function After(c: Config, s: Db, run: seq<Step>): Db
    requires IsRun(c, s, run)
    decreases |run|
  {
    if run == [] then s else After(c, Apply(c, s, run[0]), run[1..])
  }
}
