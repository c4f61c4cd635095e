/**
 The delivery protocol around the matching transaction: orders announced on a queue, poll loops with
 permits, tasks that match, publish and delete, a dead-letter queue and an event bus. Each action is one
 await of some process; calls that may fail carry what became of them, whether or not the caller was told.
 */
module Pipeline {
  import opened Model
  import opened Wrappers
  import opened Database
  import opened Progress

  /** `maxReceiveCount` of the redrive policy. */
  const MAX_RECEIVES: nat := 5
  /** `max_number_of_messages` of one receive call. */
  const BATCH_SIZE: nat := 10

  datatype Message = Message(orderId: Id, pickup: GeoPoint, receives: nat, visible: bool)

  /** What a worker got from one receive: the identity of the message and the parsed body. */
  datatype Receipt = Receipt(messageId: Id, orderId: Id, pickup: GeoPoint)

  /** The main queue, the dead-letter queue, and for every message ever stored the order it announces. */
  datatype Sqs = Sqs(queue: map<Id, Message>, dlq: map<Id, Message>, sent: map<Id, Id>)

  /** Orders between INSERT and SendMessage, and orders whose message was never stored. */
  datatype Api = Api(announcing: set<Id>, unannounced: set<Id>)

  /** One `run_poll_loop`: free permits, the messages received and not yet handed to a task, the permit in hand. */
  datatype PollLoop = PollLoop(free: nat, dispatching: bool, batch: seq<Receipt>, holding: bool)

  datatype Stage = Starting | InTxn | Publishing(event: DispatchAssigned) | Deleting

  /** One spawned `handle_message`. */
  datatype Task = Task(worker: Id, delivery: Receipt, stage: Stage)

  /** Events the bus accepted, and assignments whose event never reached it. */
  datatype Events = Events(bus: seq<DispatchAssigned>, lost: set<Id>)

  datatype Sys = Sys(db: Db, api: Api, sqs: Sqs, loops: map<Id, PollLoop>, tasks: map<Id, Task>, events: Events)

  datatype Action =
    // dispatch-api
    | CreateOrder(orderId: Id, pickup: GeoPoint, dropoff: GeoPoint)
    | Announce(orderId: Id, messageId: Id, stored: bool)
    | StartPut(driverId: Id)         // the upsert has its row
    | PutDriver(driverId: Id, name: string, location: GeoPoint, status: DriverStatus)
    | CancelPut(driverId: Id)
    // SQS
    | Expire(messageId: Id)
    | Redrive(messageId: Id)
    // the poll loop
    | Receive(worker: Id, messageId: Id, delivered: bool)
    | StartDispatch(worker: Id)
    | NextPoll(worker: Id)
    | Acquire(worker: Id)
    | Spawn(worker: Id, task: Id)
    | Restart(worker: Id)
    // a task
    | BeginTxn(task: Id)
    | Run(task: Id, stmt: Statement)
    | CommitTxn(task: Id, replied: bool)
    | RollBack(task: Id, replied: bool)
    | Publish(task: Id, accepted: bool, acknowledged: bool)
    | Delete(task: Id, removed: bool)
    | Fail(task: Id)                 // an error, or the process dies at this await

  function TasksOf(tasks: map<Id, Task>, w: Id): set<Id> {
    set t | t in tasks && tasks[t].worker == w
  }

  function TxnsOf(tasks: map<Id, Task>, w: Id): set<Id> {
    set t | t in tasks && tasks[t].worker == w && tasks[t].stage.InTxn?
  }

  predicate AtStage(s: Sys, t: Id, stage: Stage) {
    t in s.tasks && s.tasks[t].stage == stage
  }

  predicate InOpenTxn(s: Sys, t: Id) {
    AtStage(s, t, InTxn) && t in s.db.txns
  }

  predicate Possible(c: Config, s: Sys, a: Action) {
    match a
    case CreateOrder(o, p, q) => ValidPoint(p) && ValidPoint(q) && Enabled(c, s.db, InsertOrder(o, p, q))
    case Announce(o, m, stored) => o in s.api.announcing && o in s.db.tables.orders && m !in s.sqs.sent
    case StartPut(d) => Enabled(c, s.db, LockDriver(d))
    case CancelPut(d) => Enabled(c, s.db, UnlockDriver(d))
    case PutDriver(d, n, l, st) => ValidPoint(l) && Enabled(c, s.db, UpsertDriver(d, n, l, st))
    case Expire(m) => m in s.sqs.queue && !s.sqs.queue[m].visible
    case Redrive(m) => m in s.sqs.queue && s.sqs.queue[m].visible && s.sqs.queue[m].receives >= MAX_RECEIVES
    case Receive(w, m, _) =>
      && w in s.loops && !s.loops[w].dispatching && |s.loops[w].batch| < BATCH_SIZE
      && m in s.sqs.queue && s.sqs.queue[m].visible && s.sqs.queue[m].receives < MAX_RECEIVES
    case StartDispatch(w) => w in s.loops && !s.loops[w].dispatching && s.loops[w].batch != []
    case NextPoll(w) => w in s.loops && s.loops[w].dispatching && s.loops[w].batch == [] && !s.loops[w].holding
    case Acquire(w) =>
      && w in s.loops && s.loops[w].dispatching && s.loops[w].batch != []
      && !s.loops[w].holding && s.loops[w].free > 0
    case Spawn(w, t) => w in s.loops && s.loops[w].holding && s.loops[w].batch != [] && t !in s.tasks && t !in s.db.txns
    case Restart(w) => w in s.loops && (s.loops[w].dispatching || s.loops[w].batch != [])
    case BeginTxn(t) => AtStage(s, t, Starting) && t !in s.db.txns && |TxnsOf(s.tasks, s.tasks[t].worker)| < c.poolSize
    case Run(t, stmt) => InOpenTxn(s, t) && Enabled(c, s.db, Do(t, stmt))
    case CommitTxn(t, _) => InOpenTxn(s, t) && Enabled(c, s.db, Commit(t)) && Choice(c, s.db.txns[t]).Ok?
    case RollBack(t, _) => InOpenTxn(s, t) && RollsBack(c, s.db.txns[t])
    case Publish(t, accepted, acknowledged) =>
      t in s.tasks && s.tasks[t].stage.Publishing? && (acknowledged ==> accepted)
    case Delete(t, _) => AtStage(s, t, Deleting)
    case Fail(t) => t in s.tasks && (s.tasks[t].stage.InTxn? ==> t in s.db.txns)
  }

  // The effect of an action, component by component.

  /** The database transition an action performs, if any. */
  function DbStep(s: Sys, a: Action): Option<Step> {
    match a
    case CreateOrder(o, p, q) => Some(InsertOrder(o, p, q))
    case StartPut(d) => Some(LockDriver(d))
    case PutDriver(d, n, l, st) => Some(UpsertDriver(d, n, l, st))
    case CancelPut(d) => Some(UnlockDriver(d))
    case BeginTxn(t) =>
      if t in s.tasks then Some(Begin(t, s.tasks[t].delivery.orderId, s.tasks[t].delivery.pickup)) else None
    case Run(t, stmt) => Some(Do(t, stmt))
    case CommitTxn(t, _) => Some(Commit(t))
    case RollBack(t, _) => Some(Abort(t))
    case Fail(t) => if AtStage(s, t, InTxn) then Some(Abort(t)) else None
    case _ => None
  }

  function DbAfter(c: Config, s: Sys, a: Action): Db
    requires Possible(c, s, a)
  {
    match DbStep(s, a)
    case None => s.db
    case Some(step) => Apply(c, s.db, step)
  }

  function ApiAfter(api: Api, a: Action): Api {
    match a
    case CreateOrder(o, _, _) => api.(announcing := api.announcing + {o})
    case Announce(o, _, stored) => Api(api.announcing - {o}, if stored then api.unannounced else api.unannounced + {o})
    case _ => api
  }

  function SqsAfter(c: Config, s: Sys, a: Action): Sqs
    requires Possible(c, s, a)
  {
    var q := s.sqs;
    match a
    case Announce(o, m, true) =>
      q.(queue := q.queue[m := Message(o, s.db.tables.orders[o].pickup, 0, true)], sent := q.sent[m := o])
    case Expire(m) => q.(queue := q.queue[m := q.queue[m].(visible := true)])
    case Redrive(m) => q.(queue := q.queue - {m}, dlq := q.dlq[m := q.queue[m]])
    case Receive(_, m, _) =>
      q.(queue := q.queue[m := q.queue[m].(receives := q.queue[m].receives + 1, visible := false)])
    case Delete(t, true) => q.(queue := q.queue - {s.tasks[t].delivery.messageId})
    case _ => q
  }

  function EventFor(c: Config, x: Txn): DispatchAssigned
    requires x.phase.Recorded? && Choice(c, x).Ok?
  {
    DispatchAssigned(x.phase.assignmentId, x.orderId, ChosenDriver(c, x), Choice(c, x).value.1)
  }

  /** Where a task goes on after its await; None when it returns. */
  function StageAfter(c: Config, s: Sys, a: Action): Option<Stage>
    requires Possible(c, s, a)
  {
    match a
    case BeginTxn(_) => Some(InTxn)
    case Run(_, _) => Some(InTxn)
    case CommitTxn(t, true) => Some(Publishing(EventFor(c, s.db.txns[t])))
    case RollBack(t, true) => if s.db.txns[t].phase.NotClaimed? then Some(Deleting) else None
    case Publish(_, _, true) => Some(Deleting)
    case _ => None
  }

  function TaskOf(a: Action): Option<Id> {
    match a
    case BeginTxn(t) => Some(t)
    case Run(t, _) => Some(t)
    case CommitTxn(t, _) => Some(t)
    case RollBack(t, _) => Some(t)
    case Publish(t, _, _) => Some(t)
    case Delete(t, _) => Some(t)
    case Fail(t) => Some(t)
    case _ => None
  }

  function TasksAfter(c: Config, s: Sys, a: Action): map<Id, Task>
    requires Possible(c, s, a)
  {
    match TaskOf(a)
    case None => if a.Spawn? then s.tasks[a.task := Task(a.worker, s.loops[a.worker].batch[0], Starting)] else s.tasks
    case Some(t) =>
      match StageAfter(c, s, a)
      case Some(stage) => s.tasks[t := s.tasks[t].(stage := stage)]
      case None => s.tasks - {t}
  }

  function IdleLoopsAfter(c: Config, s: Sys, a: Action): map<Id, PollLoop>
    requires Possible(c, s, a)
  {
    match a
    case Receive(w, m, true) =>
      var d := Receipt(m, s.sqs.queue[m].orderId, s.sqs.queue[m].pickup);
      s.loops[w := s.loops[w].(batch := s.loops[w].batch + [d])]
    case StartDispatch(w) => s.loops[w := s.loops[w].(dispatching := true)]
    case NextPoll(w) => s.loops[w := s.loops[w].(dispatching := false)]
    case Acquire(w) => s.loops[w := s.loops[w].(free := s.loops[w].free - 1, holding := true)]
    case Spawn(w, _) => s.loops[w := s.loops[w].(batch := s.loops[w].batch[1..], holding := false)]
    case Restart(w) => s.loops[w := PollLoop(s.loops[w].free + (if s.loops[w].holding then 1 else 0), false, [], false)]
    case _ => s.loops
  }

  /** A task that returns drops its permit. */
  function LoopsAfter(c: Config, s: Sys, a: Action): map<Id, PollLoop>
    requires Possible(c, s, a)
  {
    match TaskOf(a)
    case None => IdleLoopsAfter(c, s, a)
    case Some(t) =>
      var w := s.tasks[t].worker;
      if StageAfter(c, s, a).None? && w in s.loops
      then s.loops[w := s.loops[w].(free := s.loops[w].free + 1)]
      else s.loops
  }

  /** An accepted publish appends to the bus. An event dies with its task if the publish failed or was never reached. */
  function EventsAfter(c: Config, s: Sys, a: Action): Events
    requires Possible(c, s, a)
  {
    var e := s.events;
    match a
    case CommitTxn(t, false) => e.(lost := e.lost + {EventFor(c, s.db.txns[t]).assignmentId})
    case Publish(t, accepted, _) =>
      var event := s.tasks[t].stage.event;
      if accepted then e.(bus := e.bus + [event]) else e.(lost := e.lost + {event.assignmentId})
    case Fail(t) =>
      if s.tasks[t].stage.Publishing? then e.(lost := e.lost + {s.tasks[t].stage.event.assignmentId}) else e
    case _ => e
  }

  function Next(c: Config, s: Sys, a: Action): Sys
    requires Possible(c, s, a)
  {
    Sys(DbAfter(c, s, a), ApiAfter(s.api, a), SqsAfter(c, s, a), LoopsAfter(c, s, a), TasksAfter(c, s, a),
        EventsAfter(c, s, a))
  }

  /** No orders, no drivers, empty queues; any number of idle workers with all their permits. */
  ghost predicate Initial(c: Config, s: Sys) {
    && s.db == EMPTY_DB && s.api == Api({}, {}) && s.sqs == Sqs(map[], map[], map[])
    && s.tasks == map[] && s.events == Events([], {})
    && (forall w | w in s.loops :: s.loops[w] == PollLoop(c.maxInFlight, false, [], false))
  }

  ghost predicate IsTrace(c: Config, s: Sys, trace: seq<Action>)
    decreases |trace|
  {
    trace == [] || (Possible(c, s, trace[0]) && IsTrace(c, Next(c, s, trace[0]), trace[1..]))
  }

  ghost function End(c: Config, s: Sys, trace: seq<Action>): Sys
    requires IsTrace(c, s, trace)
    decreases |trace|
  {
    if trace == [] then s else End(c, Next(c, s, trace[0]), trace[1..])
  }
}
