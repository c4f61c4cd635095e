/**
 What every run of the delivery protocol keeps: identities, coordinates, no lost order, exact event accounting,
 permits.
 */
module Delivery {
  import opened Model
  import opened Wrappers
  import opened Database
  import opened AtomicSpec
  import opened LockSoundness
  import opened Refinement
  import opened Pipeline

  ghost predicate KnownOrder(t: Tables, o: Id, pickup: GeoPoint) {
    o in t.orders && t.orders[o].pickup == pickup
  }

  predicate IsAssigned(t: Tables, o: Id) {
    o in t.orders && t.orders[o].status == Assigned
  }

  /** Message `m` announces order `o`, which exists, and carries its pickup. */
  ghost predicate Announces(t: Tables, q: Sqs, m: Id, o: Id, pickup: GeoPoint) {
    m in q.sent && q.sent[m] == o && KnownOrder(t, o, pickup)
  }

  ghost predicate GoodMessages(t: Tables, q: Sqs, box: map<Id, Message>) {
    forall m | m in box :: Announces(t, q, m, box[m].orderId, box[m].pickup) && box[m].receives <= MAX_RECEIVES
  }

  ghost predicate GoodReceipt(t: Tables, q: Sqs, d: Receipt) {
    Announces(t, q, d.messageId, d.orderId, d.pickup)
  }

  /** Every message, in a queue, in a batch or with a task, is about an existing order and carries its pickup. */
  ghost predicate MessagesAreTrue(s: Sys) {
    && GoodMessages(s.db.tables, s.sqs, s.sqs.queue)
    && GoodMessages(s.db.tables, s.sqs, s.sqs.dlq)
    && (forall w, d | w in s.loops && d in s.loops[w].batch :: GoodReceipt(s.db.tables, s.sqs, d))
    && (forall t | t in s.tasks :: GoodReceipt(s.db.tables, s.sqs, s.tasks[t].delivery))
    && (forall o | o in s.api.announcing :: o in s.db.tables.orders)
  }

  /** Transaction `t` of a task works on what its message says. */
  ghost predicate OwnsTxn(tasks: map<Id, Task>, db: Db, t: Id) {
    && t in tasks && t in db.txns
    && db.txns[t].orderId == tasks[t].delivery.orderId
    && db.txns[t].pickup == tasks[t].delivery.pickup
  }

  /** Open transactions and worker tasks inside a transaction are the same thing. */
  ghost predicate TasksOwnTxns(s: Sys) {
    && (forall t | t in s.db.txns :: AtStage(s, t, InTxn))
    && (forall t | t in s.tasks && s.tasks[t].stage.InTxn? :: OwnsTxn(s.tasks, s.db, t))
  }

  /** Every stored coordinate passed `GeoPoint::new`. */
  ghost predicate CoordinatesValid(t: Tables) {
    && (forall o | o in t.orders :: ValidPoint(t.orders[o].pickup) && ValidPoint(t.orders[o].dropoff))
    && (forall d | d in t.drivers :: ValidPoint(t.drivers[d].location))
  }

  /** A task that is about to delete its message, or will be after its rollback, works on an assigned order. */
  ghost predicate DeletersAreSettled(s: Sys) {
    && (forall t | t in s.tasks && (s.tasks[t].stage.Deleting? || s.tasks[t].stage.Publishing?) ::
          IsAssigned(s.db.tables, s.tasks[t].delivery.orderId))
    && (forall t | t in s.db.txns && s.db.txns[t].phase.NotClaimed? :: IsAssigned(s.db.tables, s.db.txns[t].orderId))
  }

  ghost predicate HasMessage(box: map<Id, Message>, o: Id) {
    exists m :: m in box && box[m].orderId == o
  }

  ghost predicate Traceable(s: Sys, o: Id) {
    || o in s.api.announcing
    || o in s.api.unannounced
    || HasMessage(s.sqs.queue, o)
    || HasMessage(s.sqs.dlq, o)
  }

  ghost predicate NoOrderLost(s: Sys) {
    forall o | IsPending(s.db.tables, o) :: Traceable(s, o)
  }

  ghost predicate Invariant(c: Config, s: Sys) {
    && DbInv(c, s.db)
    && MessagesAreTrue(s)
    && TasksOwnTxns(s)
    && CoordinatesValid(s.db.tables)
    && DeletersAreSettled(s)
    && NoOrderLost(s)
  }

  // --- How the tables move

  /** The atomic event an action amounts to, if any. */
  function EventOf(c: Config, s: Sys, a: Action): Option<Event>
    requires Possible(c, s, a)
  {
    match a
    case CreateOrder(o, p, q) => Some(OrderCreated(o, p, q))
    case PutDriver(d, n, l, st) => Some(DriverUpserted(d, n, l, st))
    case CommitTxn(t, _) => Some(AssignmentEvent(c, s.db.txns[t]))
    case _ => None
  }

  lemma DbStepEnabled(c: Config, s: Sys, a: Action)
    requires Possible(c, s, a)
    ensures DbStep(s, a).Some? ==> Enabled(c, s.db, DbStep(s, a).value)
  {
  }

  lemma KeepsDbInv(c: Config, s: Sys, a: Action)
    requires DbInv(c, s.db) && Possible(c, s, a)
    ensures DbInv(c, Next(c, s, a).db)
  {
    DbStepEnabled(c, s, a);
    if DbStep(s, a).Some? {
      StepKeepsInv(c, s.db, DbStep(s, a).value);
    }
  }

  lemma CommitMovesTables(c: Config, s: Sys, t: Id, replied: bool)
    requires DbInv(c, s.db) && Possible(c, s, CommitTxn(t, replied))
    ensures var e := AssignmentEvent(c, s.db.txns[t]);
            Legal(c, s.db.tables, e) && DbAfter(c, s, CommitTxn(t, replied)).tables == Perform(s.db.tables, e)
  {
    assert TxnInv(c, s.db.tables, s.db.txns[t]);
    CommitIsAssignment(c, s.db.tables, s.db.txns[t]);
  }

  lemma TablesMove(c: Config, s: Sys, a: Action)
    requires DbInv(c, s.db) && Possible(c, s, a)
    ensures match EventOf(c, s, a)
            case None => Next(c, s, a).db.tables == s.db.tables
            case Some(e) => Legal(c, s.db.tables, e) && Next(c, s, a).db.tables == Perform(s.db.tables, e)
  {
    if a.CommitTxn? {
      CommitMovesTables(c, s, a.task, a.replied);
    } else {
      DbStepEnabled(c, s, a);
    }
  }

  lemma TablesGrow(c: Config, s: Sys, a: Action)
    requires DbInv(c, s.db) && Possible(c, s, a)
    ensures Extends(s.db.tables, Next(c, s, a).db.tables)
  {
    TablesMove(c, s, a);
    if EventOf(c, s, a).Some? {
      EventExtends(c, s.db.tables, EventOf(c, s, a).value);
    }
  }

  /** Orders become pending only by being created. */
  lemma PendingOrdersAreOld(c: Config, s: Sys, a: Action, o: Id)
    requires DbInv(c, s.db) && Possible(c, s, a) && IsPending(Next(c, s, a).db.tables, o)
    ensures IsPending(s.db.tables, o) || (a.CreateOrder? && a.orderId == o)
  {
    TablesMove(c, s, a);
  }

  lemma KeepsCoordinates(c: Config, s: Sys, a: Action)
    requires DbInv(c, s.db) && CoordinatesValid(s.db.tables) && Possible(c, s, a)
    ensures CoordinatesValid(Next(c, s, a).db.tables)
  {
    TablesMove(c, s, a);
  }

  // --- Messages

  lemma SentOnlyGrows(c: Config, s: Sys, a: Action, m: Id)
    requires Possible(c, s, a) && m in s.sqs.sent
    ensures m in Next(c, s, a).sqs.sent && Next(c, s, a).sqs.sent[m] == s.sqs.sent[m]
  {
  }

  lemma QueueKeepsTruth(c: Config, s: Sys, a: Action)
    requires MessagesAreTrue(s) && Possible(c, s, a) && Extends(s.db.tables, Next(c, s, a).db.tables)
    ensures GoodMessages(Next(c, s, a).db.tables, Next(c, s, a).sqs, Next(c, s, a).sqs.queue)
    ensures GoodMessages(Next(c, s, a).db.tables, Next(c, s, a).sqs, Next(c, s, a).sqs.dlq)
  {
    var r := Next(c, s, a);
    forall m | m in r.sqs.queue
      ensures Announces(r.db.tables, r.sqs, m, r.sqs.queue[m].orderId, r.sqs.queue[m].pickup)
                && r.sqs.queue[m].receives <= MAX_RECEIVES
    {
      if m in s.sqs.queue {
        assert Announces(s.db.tables, s.sqs, m, s.sqs.queue[m].orderId, s.sqs.queue[m].pickup);
      }
    }
    forall m | m in r.sqs.dlq
      ensures Announces(r.db.tables, r.sqs, m, r.sqs.dlq[m].orderId, r.sqs.dlq[m].pickup)
                && r.sqs.dlq[m].receives <= MAX_RECEIVES
    {
    }
  }

  lemma BatchesAreReceived(c: Config, s: Sys, a: Action, w: Id, d: Receipt)
    requires MessagesAreTrue(s) && Possible(c, s, a)
    requires w in Next(c, s, a).loops && d in Next(c, s, a).loops[w].batch
    ensures GoodReceipt(s.db.tables, s.sqs, d)
  {
    assert w in s.loops;
    if d !in s.loops[w].batch {
      assert a.Receive?;
      assert Announces(s.db.tables, s.sqs, a.messageId, s.sqs.queue[a.messageId].orderId,
          s.sqs.queue[a.messageId].pickup);
    }
  }

  lemma WorkersKeepTruth(c: Config, s: Sys, a: Action)
    requires MessagesAreTrue(s) && Possible(c, s, a) && Extends(s.db.tables, Next(c, s, a).db.tables)
    ensures var r := Next(c, s, a);
            && (forall w, d | w in r.loops && d in r.loops[w].batch :: GoodReceipt(r.db.tables, r.sqs, d))
            && (forall t | t in r.tasks :: GoodReceipt(r.db.tables, r.sqs, r.tasks[t].delivery))
  {
    var r := Next(c, s, a);
    forall w, d | w in r.loops && d in r.loops[w].batch ensures GoodReceipt(r.db.tables, r.sqs, d) {
      BatchesAreReceived(c, s, a, w, d);
      SentOnlyGrows(c, s, a, d.messageId);
    }
    forall t | t in r.tasks ensures GoodReceipt(r.db.tables, r.sqs, r.tasks[t].delivery) {
      var d := r.tasks[t].delivery;
      if t in s.tasks {
        assert s.tasks[t].delivery == d;
        assert GoodReceipt(s.db.tables, s.sqs, d);
      } else {
        assert d in s.loops[a.worker].batch;
        assert GoodReceipt(s.db.tables, s.sqs, d);
      }
      SentOnlyGrows(c, s, a, d.messageId);
    }
  }

  lemma KeepsMessages(c: Config, s: Sys, a: Action)
    requires MessagesAreTrue(s) && Possible(c, s, a) && Extends(s.db.tables, Next(c, s, a).db.tables)
    ensures MessagesAreTrue(Next(c, s, a))
  {
    QueueKeepsTruth(c, s, a);
    WorkersKeepTruth(c, s, a);
  }

  lemma OtherTxnsRest(c: Config, s: Sys, a: Action, t: Id)
    requires Possible(c, s, a) && TaskOf(a) != Some(t) && OwnsTxn(s.tasks, s.db, t)
    ensures t in TasksAfter(c, s, a) && TasksAfter(c, s, a)[t] == s.tasks[t]
    ensures t in DbAfter(c, s, a).txns && DbAfter(c, s, a).txns[t] == s.db.txns[t]
  {
  }

  lemma KeepsTxnOwner(c: Config, s: Sys, a: Action, t: Id)
    requires TasksOwnTxns(s) && Possible(c, s, a) && t in DbAfter(c, s, a).txns
    ensures t in TasksAfter(c, s, a) && TasksAfter(c, s, a)[t].stage.InTxn?
  {
    if TaskOf(a) != Some(t) {
      assert t in s.db.txns;
      assert AtStage(s, t, InTxn) && OwnsTxn(s.tasks, s.db, t);
      OtherTxnsRest(c, s, a, t);
    }
  }

  lemma OwnTxnMoves(c: Config, s: Sys, a: Action, t: Id)
    requires Possible(c, s, a) && TaskOf(a) == Some(t) && StageAfter(c, s, a) == Some(InTxn)
    requires t in s.tasks && (a.Run? ==> OwnsTxn(s.tasks, s.db, t))
    ensures OwnsTxn(TasksAfter(c, s, a), DbAfter(c, s, a), t)
  {
    assert a.BeginTxn? || a.Run?;
  }

  lemma KeepsOwnTxn(c: Config, s: Sys, a: Action, t: Id)
    requires TasksOwnTxns(s) && Possible(c, s, a) && t in TasksAfter(c, s, a) && TasksAfter(c, s, a)[t].stage.InTxn?
    ensures OwnsTxn(TasksAfter(c, s, a), DbAfter(c, s, a), t)
  {
    if TaskOf(a) == Some(t) {
      OwnTxnMoves(c, s, a, t);
    } else {
      assert OwnsTxn(s.tasks, s.db, t);
      OtherTxnsRest(c, s, a, t);
    }
  }

  lemma KeepsTxnOwnership(c: Config, s: Sys, a: Action)
    requires TasksOwnTxns(s) && Possible(c, s, a)
    ensures TasksOwnTxns(Next(c, s, a))
  {
    var r := Next(c, s, a);
    forall t | t in r.db.txns ensures AtStage(r, t, InTxn) {
      KeepsTxnOwner(c, s, a, t);
    }
    forall t | t in r.tasks && r.tasks[t].stage.InTxn? ensures OwnsTxn(r.tasks, r.db, t) {
      KeepsOwnTxn(c, s, a, t);
    }
  }

  // --- Safety

  lemma NotClaimedComesFrom(c: Config, db: Db, step: Step, t: Id)
    requires Enabled(c, db, step) && t in Apply(c, db, step).txns && Apply(c, db, step).txns[t].phase.NotClaimed?
    ensures t in db.txns && Apply(c, db, step).txns[t].orderId == db.txns[t].orderId
    ensures db.txns[t].phase.NotClaimed? || !IsPending(db.tables, db.txns[t].orderId)
  {
  }

  /** A transaction finds no row to claim only if the order is already assigned. */
  lemma NotClaimedMeansAssigned(c: Config, s: Sys, a: Action, t: Id)
    requires Invariant(c, s) && Possible(c, s, a)
    requires t in Next(c, s, a).db.txns && Next(c, s, a).db.txns[t].phase.NotClaimed?
    ensures t in s.db.txns && Next(c, s, a).db.txns[t].orderId == s.db.txns[t].orderId
    ensures IsAssigned(s.db.tables, s.db.txns[t].orderId)
  {
    DbStepEnabled(c, s, a);
    if DbStep(s, a).Some? {
      NotClaimedComesFrom(c, s.db, DbStep(s, a).value, t);
    }
    assert AtStage(s, t, InTxn);
    assert GoodReceipt(s.db.tables, s.sqs, s.tasks[t].delivery);
  }

  lemma SettledTaskComesFrom(c: Config, s: Sys, a: Action, t: Id)
    requires Possible(c, s, a) && t in TasksAfter(c, s, a)
    requires TasksAfter(c, s, a)[t].stage.Deleting? || TasksAfter(c, s, a)[t].stage.Publishing?
    ensures t in s.tasks && TasksAfter(c, s, a)[t].delivery == s.tasks[t].delivery
    ensures || s.tasks[t].stage.Deleting?
            || s.tasks[t].stage.Publishing?
            || (InOpenTxn(s, t) && (a == CommitTxn(t, true) || s.db.txns[t].phase.NotClaimed?))
  {
  }

  lemma SettledTaskIsAssigned(c: Config, s: Sys, a: Action, t: Id)
    requires Invariant(c, s) && Possible(c, s, a) && t in TasksAfter(c, s, a)
    requires TasksAfter(c, s, a)[t].stage.Deleting? || TasksAfter(c, s, a)[t].stage.Publishing?
    ensures IsAssigned(Next(c, s, a).db.tables, TasksAfter(c, s, a)[t].delivery.orderId)
  {
    SettledTaskComesFrom(c, s, a, t);
    if a == CommitTxn(t, true) {
      TablesMove(c, s, a);
    } else {
      assert IsAssigned(s.db.tables, s.tasks[t].delivery.orderId);
      TablesGrow(c, s, a);
    }
  }

  lemma KeepsSettled(c: Config, s: Sys, a: Action)
    requires Invariant(c, s) && Possible(c, s, a)
    ensures DeletersAreSettled(Next(c, s, a))
  {
    var r := Next(c, s, a);
    forall t | t in r.tasks && (r.tasks[t].stage.Deleting? || r.tasks[t].stage.Publishing?)
      ensures IsAssigned(r.db.tables, r.tasks[t].delivery.orderId)
    {
      SettledTaskIsAssigned(c, s, a, t);
    }
    forall t | t in r.db.txns && r.db.txns[t].phase.NotClaimed? ensures IsAssigned(r.db.tables, r.db.txns[t].orderId) {
      NotClaimedMeansAssigned(c, s, a, t);
      TablesGrow(c, s, a);
    }
  }

  /** A message leaves the main queue for the dead-letter queue, or by a delete when its order is not pending. */
  lemma MessageStays(c: Config, s: Sys, a: Action, m: Id)
    requires MessagesAreTrue(s) && DeletersAreSettled(s) && Possible(c, s, a)
    requires m in s.sqs.queue && IsPending(s.db.tables, s.sqs.queue[m].orderId)
    ensures var r, o := Next(c, s, a), s.sqs.queue[m].orderId;
            || (m in r.sqs.queue && r.sqs.queue[m].orderId == o)
            || (m in r.sqs.dlq && r.sqs.dlq[m].orderId == o)
  {
    assert Announces(s.db.tables, s.sqs, m, s.sqs.queue[m].orderId, s.sqs.queue[m].pickup);
    if a.Delete? {
      assert GoodReceipt(s.db.tables, s.sqs, s.tasks[a.task].delivery);
    }
  }

  lemma DeadLetterStays(c: Config, s: Sys, a: Action, m: Id)
    requires MessagesAreTrue(s) && Possible(c, s, a) && m in s.sqs.dlq
    ensures var r := Next(c, s, a); m in r.sqs.dlq && r.sqs.dlq[m].orderId == s.sqs.dlq[m].orderId
  {
    assert Announces(s.db.tables, s.sqs, m, s.sqs.dlq[m].orderId, s.sqs.dlq[m].pickup);
    if a.Redrive? {
      assert Announces(s.db.tables, s.sqs, a.messageId, s.sqs.queue[a.messageId].orderId,
          s.sqs.queue[a.messageId].pickup);
    }
  }

  lemma StaysTraceable(c: Config, s: Sys, a: Action, o: Id)
    requires Invariant(c, s) && Possible(c, s, a) && IsPending(s.db.tables, o)
    ensures Traceable(Next(c, s, a), o)
  {
    var r := Next(c, s, a);
    if HasMessage(s.sqs.queue, o) {
      var m :| m in s.sqs.queue && s.sqs.queue[m].orderId == o;
      MessageStays(c, s, a, m);
    } else if HasMessage(s.sqs.dlq, o) {
      var m :| m in s.sqs.dlq && s.sqs.dlq[m].orderId == o;
      DeadLetterStays(c, s, a, m);
    } else if a.Announce? && a.orderId == o && a.stored {
      assert a.messageId in r.sqs.queue && r.sqs.queue[a.messageId].orderId == o;
    }
  }

  lemma KeepsOrders(c: Config, s: Sys, a: Action)
    requires Invariant(c, s) && Possible(c, s, a)
    ensures NoOrderLost(Next(c, s, a))
  {
    var r := Next(c, s, a);
    forall o | IsPending(r.db.tables, o) ensures Traceable(r, o) {
      PendingOrdersAreOld(c, s, a, o);
      if IsPending(s.db.tables, o) {
        StaysTraceable(c, s, a, o);
      }
    }
  }

  lemma ActionKeepsInvariant(c: Config, s: Sys, a: Action)
    requires Invariant(c, s) && Possible(c, s, a)
    ensures Invariant(c, Next(c, s, a))
  {
    KeepsDbInv(c, s, a);
    TablesGrow(c, s, a);
    KeepsMessages(c, s, a);
    KeepsTxnOwnership(c, s, a);
    KeepsCoordinates(c, s, a);
    KeepsSettled(c, s, a);
    KeepsOrders(c, s, a);
  }

  /** In every reachable state: locks are sound, messages are true, coordinates valid, and no order is lost. */
  lemma {:induction false} TraceKeepsInvariant(c: Config, s: Sys, trace: seq<Action>)
    requires Invariant(c, s) && IsTrace(c, s, trace)
    ensures Invariant(c, End(c, s, trace))
    decreases |trace|
  {
    if trace != [] {
      ActionKeepsInvariant(c, s, trace[0]);
      TraceKeepsInvariant(c, Next(c, s, trace[0]), trace[1..]);
    }
  }

  /** Every open transaction works with the pickup of its order's row. */
  lemma TxnsKnowTheirOrders(c: Config, s: Sys, t: Id)
    requires Invariant(c, s) && t in s.db.txns
    ensures KnownOrder(s.db.tables, s.db.txns[t].orderId, s.db.txns[t].pickup)
  {
    assert AtStage(s, t, InTxn);
    assert GoodReceipt(s.db.tables, s.sqs, s.tasks[t].delivery);
  }

  lemma InitialInvariant(c: Config, s: Sys)
    requires Initial(c, s)
    ensures Invariant(c, s)
  {
  }
}
