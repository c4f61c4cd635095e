/**
 Every run without new API traffic is bounded, crashes and redeliveries included, and when nothing is left
 to do every message has been deleted or sits in the dead-letter queue.
 */
module Termination {
  import opened FiniteSets
  import opened Model
  import opened Wrappers
  import opened Database
  import opened AtomicSpec
  import opened LockSoundness
  import opened Progress
  import opened Pipeline
  import opened Delivery
  import opened Permits

  // --- Sums over finite maps

  ghost function Sum(m: map<Id, nat>): nat
    decreases |m|
  {
    if m == map[] then 0 else
      var k :| k in m;
      m[k] + Sum(m - {k})
  }

  lemma {:induction false} SumSplit(m: map<Id, nat>, k: Id)
    requires k in m
    ensures Sum(m) == m[k] + Sum(m - {k})
    decreases |m|
  {
    var j :| j in m && Sum(m) == m[j] + Sum(m - {j});
    if j != k {
      SumSplit(m - {j}, k);
      SumSplit(m - {k}, j);
      assert m - {j} - {k} == m - {k} - {j};
    }
  }

  lemma SumAdd(m: map<Id, nat>, r: map<Id, nat>, k: Id)
    requires k !in m && k in r && r == m[k := r[k]]
    ensures Sum(r) == Sum(m) + r[k]
  {
    SumSplit(r, k);
    assert r - {k} == m;
  }

  lemma SumReplace(m: map<Id, nat>, r: map<Id, nat>, k: Id)
    requires k in m && k in r && r == m[k := r[k]]
    ensures Sum(r) + m[k] == Sum(m) + r[k]
  {
    SumSplit(m, k);
    SumSplit(r, k);
    assert r - {k} == m - {k};
  }

  lemma SumShrinks(m: map<Id, nat>, k: Id)
    ensures Sum(m - {k}) <= Sum(m)
  {
    if k in m {
      SumSplit(m, k);
    } else {
      assert m - {k} == m;
    }
  }

  // --- The measure. `n` is the number of driver rows, which only the API changes.

  /** Awaits left to a transaction. */
  function PhaseWork(n: nat, phase: Phase): nat {
    match phase
    case Begun => n + 9
    case Waiting => n + 8
    case NotClaimed => 1
    case Claimed => n + 7
    case Scanning(remaining) => |remaining| + 5
    case Selected => 4
    case Inserted(_) => 3
    case Recorded(_) => 2
  }

  function TaskWork(n: nat, db: Db, t: Id, stage: Stage): nat {
    match stage
    case Starting => n + 12
    case InTxn => 2 + (if t in db.txns then PhaseWork(n, db.txns[t].phase) else 0)
    case Publishing(_) => 2
    case Deleting => 1
  }

  /** A received message still to be handed to a task. */
  function EntryWork(n: nat): nat {
    n + 14
  }

  function BatchWork(n: nat, size: nat): (r: nat)
    ensures size > 0 ==> r > 0
  {
    if size == 0 then 0 else EntryWork(n) + BatchWork(n, size - 1)
  }

  function LoopWork(n: nat, l: PollLoop): nat {
    BatchWork(n, |l.batch|) - (if l.holding && l.batch != [] then 1 else 0)
    + (if l.dispatching then 1 else if l.batch != [] then 2 else 0)
  }

  function ReceivesWork(n: nat, left: nat): nat {
    if left == 0 then 0 else EntryWork(n) + 4 + ReceivesWork(n, left - 1)
  }

  /** A message with receives left: each of them may put it into a batch and let it time out again. */
  function MessageWork(n: nat, m: Message): nat {
    1 + ReceivesWork(n, if m.receives < MAX_RECEIVES then MAX_RECEIVES - m.receives else 0) +
        (if m.visible then 0 else 1)
  }

  /** An order whose message is still to be sent. */
  function AnnouncementsWork(n: nat, orders: nat): nat {
    if orders == 0 then 0 else 2 + ReceivesWork(n, MAX_RECEIVES) + AnnouncementsWork(n, orders - 1)
  }

  ghost function QueueWork(n: nat, q: Sqs): map<Id, nat> {
    map m | m in q.queue :: MessageWork(n, q.queue[m])
  }

  ghost function LoopsWork(n: nat, loops: map<Id, PollLoop>): map<Id, nat> {
    map w | w in loops :: LoopWork(n, loops[w])
  }

  ghost function TasksWork(n: nat, s: Sys): map<Id, nat> {
    map t | t in s.tasks :: TaskWork(n, s.db, t, s.tasks[t].stage)
  }

  ghost function Measure(n: nat, s: Sys): nat {
    AnnouncementsWork(n, |s.api.announcing|) + Sum(QueueWork(n, s.sqs)) + Sum(LoopsWork(n, s.loops)) +
        Sum(TasksWork(n, s))
    + |s.db.held|
  }

  // --- How each part moves

  predicate IsTraffic(a: Action) {
    a.CreateOrder? || a.StartPut? || a.PutDriver?
  }

  lemma AnnouncementStored(c: Config, n: nat, s: Sys, a: Action)
    requires Possible(c, s, a) && a.Announce? && a.messageId !in s.sqs.queue
    ensures Sum(QueueWork(n, SqsAfter(c, s, a))) <= Sum(QueueWork(n, s.sqs)) + 1 + ReceivesWork(n, MAX_RECEIVES)
  {
    if a.stored {
      var before, after := QueueWork(n, s.sqs), QueueWork(n, SqsAfter(c, s, a));
      assert after == before[a.messageId := after[a.messageId]];
      SumAdd(before, after, a.messageId);
    }
  }

  lemma MessageChanges(n: nat, q: Sqs, m: Id, msg: Message)
    requires m in q.queue
    ensures Sum(QueueWork(n, q.(queue := q.queue[m := msg]))) + MessageWork(n, q.queue[m]) ==
            Sum(QueueWork(n, q)) + MessageWork(n, msg)
  {
    var before, after := QueueWork(n, q), QueueWork(n, q.(queue := q.queue[m := msg]));
    assert after == before[m := after[m]];
    SumReplace(before, after, m);
  }

  lemma MessageExpired(c: Config, n: nat, s: Sys, a: Action)
    requires Possible(c, s, a) && a.Expire?
    ensures Sum(QueueWork(n, SqsAfter(c, s, a))) < Sum(QueueWork(n, s.sqs))
  {
    MessageChanges(n, s.sqs, a.messageId, s.sqs.queue[a.messageId].(visible := true));
  }

  lemma MessageReceived(c: Config, n: nat, s: Sys, a: Action)
    requires Possible(c, s, a) && a.Receive?
    ensures Sum(QueueWork(n, SqsAfter(c, s, a))) + EntryWork(n) + 3 == Sum(QueueWork(n, s.sqs))
  {
    var msg := s.sqs.queue[a.messageId];
    MessageChanges(n, s.sqs, a.messageId, msg.(receives := msg.receives + 1, visible := false));
  }

  lemma MessageRemoved(c: Config, n: nat, s: Sys, a: Action)
    requires Possible(c, s, a) && (a.Redrive? || a.Delete?)
    ensures var q, r := Sum(QueueWork(n, s.sqs)), Sum(QueueWork(n, SqsAfter(c, s, a)));
            if a.Redrive? then r < q else r <= q
  {
    var before, after := QueueWork(n, s.sqs), QueueWork(n, SqsAfter(c, s, a));
    if a.Redrive? {
      assert after == before - {a.messageId};
      SumSplit(before, a.messageId);
    } else if a.removed {
      var m := s.tasks[a.task].delivery.messageId;
      assert after == before - {m};
      SumShrinks(before, m);
    }
  }

  lemma LoopMoves(c: Config, n: nat, s: Sys, a: Action, w: Id)
    requires PermitsConserved(c, s) && Possible(c, s, a) && TaskOf(a).None? && w in s.loops
    ensures var l, r := LoopWork(n, s.loops[w]), LoopWork(n, IdleLoopsAfter(c, s, a)[w]);
            match a
            case Receive(v, _, _) => r <= l + (if v == w then EntryWork(n) + 2 else 0)
            case StartDispatch(v) => r + (if v == w then 1 else 0) <= l
            case NextPoll(v) => r + (if v == w then 1 else 0) <= l
            case Acquire(v) => r + (if v == w then 1 else 0) <= l
            case Restart(v) => r + (if v == w then 1 else 0) <= l
            case Spawn(v, _) => r + (if v == w then EntryWork(n) - 1 else 0) <= l
            case _ => r <= l
  {
  }

  function LoopOf(a: Action): Option<Id> {
    match a
    case Receive(w, _, _) => Some(w)
    case StartDispatch(w) => Some(w)
    case NextPoll(w) => Some(w)
    case Acquire(w) => Some(w)
    case Spawn(w, _) => Some(w)
    case Restart(w) => Some(w)
    case _ => None
  }

  lemma LoopsMove(c: Config, n: nat, s: Sys, a: Action)
    requires Possible(c, s, a)
    ensures var l, r := Sum(LoopsWork(n, s.loops)), Sum(LoopsWork(n, LoopsAfter(c, s, a)));
            match LoopOf(a)
            case Some(w) => w in s.loops && r + LoopWork(n, s.loops[w]) == l + LoopWork(n, IdleLoopsAfter(c, s, a)[w])
            case None => r == l
  {
    var before, after := LoopsWork(n, s.loops), LoopsWork(n, LoopsAfter(c, s, a));
    match LoopOf(a)
    case Some(w) =>
      assert after == before[w := after[w]];
      SumReplace(before, after, w);
    case None =>
      assert after == before;
  }

  lemma ScanShortens(remaining: set<Id>, d: Id)
    requires d in remaining
    ensures |remaining - {d}| < |remaining|
  {
    assert remaining == remaining - {d} + {d};
  }

  lemma ScanStatementShortens(c: Config, n: nat, t: Tables, x: Txn, stmt: Statement)
    requires CanExecute(c, t, x, stmt) && |t.drivers| == n && (stmt.StartScan? || stmt.ScanRow?)
    ensures PhaseWork(n, Execute(c, t, x, stmt).phase) < PhaseWork(n, x.phase)
  {
    if stmt.StartScan? {
      SubsetSize(AvailableIds(t), t.drivers.Keys);
    } else {
      ScanShortens(x.phase.remaining, stmt.driverId);
    }
  }

  /** Each await of a transaction shortens what is left of it. */
  lemma StatementShortens(c: Config, n: nat, t: Tables, x: Txn, stmt: Statement)
    requires CanExecute(c, t, x, stmt) && |t.drivers| == n
    ensures PhaseWork(n, Execute(c, t, x, stmt).phase) < PhaseWork(n, x.phase)
  {
    if stmt.StartScan? || stmt.ScanRow? {
      ScanStatementShortens(c, n, t, x, stmt);
    }
  }

  lemma RunMoves(c: Config, n: nat, s: Db, t: Id, stmt: Statement)
    requires Enabled(c, s, Do(t, stmt)) && |s.tables.drivers| == n
    ensures var r := Apply(c, s, Do(t, stmt));
            t in r.txns && PhaseWork(n, r.txns[t].phase) < PhaseWork(n, s.txns[t].phase)
  {
    StatementShortens(c, n, s.tables, s.txns[t], stmt);
  }

  lemma TaskHasWork(c: Config, n: nat, s: Sys, a: Action, t: Id)
    requires Possible(c, s, a) && TaskOf(a) == Some(t)
    ensures t in s.tasks && TaskWork(n, s.db, t, s.tasks[t].stage) > 0
  {
  }

  lemma TxnTaskMoves(c: Config, n: nat, s: Sys, a: Action, t: Id)
    requires Possible(c, s, a) && (a.Run? || a.BeginTxn?) && a.task == t && |s.db.tables.drivers| == n
    ensures TaskWork(n, DbAfter(c, s, a), t, InTxn) < TaskWork(n, s.db, t, s.tasks[t].stage)
  {
    if a.Run? {
      RunMoves(c, n, s.db, t, a.stmt);
    } else {
      assert DbAfter(c, s, a).txns[t].phase == Begun;
    }
  }

  lemma LaterStages(c: Config, n: nat, s: Sys, a: Action, t: Id)
    requires Possible(c, s, a) && TaskOf(a) == Some(t) && !a.Run? && !a.BeginTxn? && StageAfter(c, s, a).Some?
    ensures var before, after := s.tasks[t].stage, StageAfter(c, s, a).value;
            || (after.Publishing? && TaskWork(n, s.db, t, before) > 2)
            || (after.Deleting? && TaskWork(n, s.db, t, before) > 1)
  {
    match a
    case CommitTxn(_, _) =>
    case RollBack(_, _) =>
    case Publish(_, _, _) =>
  }

  lemma TaskMoves(c: Config, n: nat, s: Sys, a: Action, t: Id)
    requires Possible(c, s, a) && TaskOf(a) == Some(t) && |s.db.tables.drivers| == n
    requires StageAfter(c, s, a).Some? && t in s.tasks
    ensures TaskWork(n, DbAfter(c, s, a), t, StageAfter(c, s, a).value) < TaskWork(n, s.db, t, s.tasks[t].stage)
  {
    if a.Run? || a.BeginTxn? {
      TxnTaskMoves(c, n, s, a, t);
    } else {
      LaterStages(c, n, s, a, t);
    }
  }

  lemma OtherTasksRest(c: Config, n: nat, s: Sys, a: Action, u: Id)
    requires Possible(c, s, a) && u in s.tasks && TaskOf(a) != Some(u) && u in TasksAfter(c, s, a)
    ensures TasksAfter(c, s, a)[u] == s.tasks[u]
    ensures TaskWork(n, DbAfter(c, s, a), u, s.tasks[u].stage) == TaskWork(n, s.db, u, s.tasks[u].stage)
  {
  }

  lemma TasksWorkAfter(c: Config, n: nat, s: Sys, a: Action, t: Id)
    requires Possible(c, s, a) && TaskOf(a) == Some(t)
    ensures TasksWork(n, Next(c, s, a))
         == match StageAfter(c, s, a)
            case Some(stage) => TasksWork(n, s)[t := TaskWork(n, DbAfter(c, s, a), t, stage)]
            case None => TasksWork(n, s) - {t}
  {
    forall u | u in s.tasks && u in TasksAfter(c, s, a) && u != t
      ensures TasksWork(n, Next(c, s, a))[u] == TasksWork(n, s)[u]
    {
      OtherTasksRest(c, n, s, a, u);
    }
  }

  lemma TasksMove(c: Config, n: nat, s: Sys, a: Action, t: Id)
    requires Possible(c, s, a) && |s.db.tables.drivers| == n && TaskOf(a) == Some(t)
    ensures Sum(TasksWork(n, Next(c, s, a))) < Sum(TasksWork(n, s))
  {
    TaskHasWork(c, n, s, a, t);
    TasksWorkAfter(c, n, s, a, t);
    if StageAfter(c, s, a).Some? {
      TaskMoves(c, n, s, a, t);
      SumReplace(TasksWork(n, s), TasksWork(n, Next(c, s, a)), t);
    } else {
      SumSplit(TasksWork(n, s), t);
    }
  }

  lemma TasksRest(c: Config, n: nat, s: Sys, a: Action)
    requires Possible(c, s, a) && TaskOf(a) == None
    ensures Sum(TasksWork(n, Next(c, s, a))) <= Sum(TasksWork(n, s)) + (if a.Spawn? then n + 12 else 0)
  {
    var before, after := TasksWork(n, s), TasksWork(n, Next(c, s, a));
    forall u | u in s.tasks && u in after && (a.Spawn? ==> u != a.task) ensures after[u] == before[u] {
      OtherTasksRest(c, n, s, a, u);
    }
    if a.Spawn? {
      assert after == before[a.task := after[a.task]];
      SumAdd(before, after, a.task);
    } else {
      assert after == before;
    }
  }

  lemma HeldRests(c: Config, s: Sys, a: Action)
    requires Possible(c, s, a) && !a.StartPut? && !a.PutDriver? && !a.CancelPut?
    ensures DbAfter(c, s, a).held == s.db.held
  {
  }

  lemma QueueShrinks(c: Config, n: nat, s: Sys, a: Action)
    requires Possible(c, s, a) && TaskOf(a).Some?
    ensures ApiAfter(s.api, a) == s.api && Sum(QueueWork(n, SqsAfter(c, s, a))) <= Sum(QueueWork(n, s.sqs))
  {
    if a.Delete? {
      MessageRemoved(c, n, s, a);
    } else {
      assert SqsAfter(c, s, a) == s.sqs;
    }
  }

  lemma TaskActionDecreases(c: Config, n: nat, s: Sys, a: Action)
    requires Possible(c, s, a) && TaskOf(a).Some? && |s.db.tables.drivers| == n
    ensures Measure(n, Next(c, s, a)) < Measure(n, s)
  {
    TasksMove(c, n, s, a, TaskOf(a).value);
    LoopsMove(c, n, s, a);
    QueueShrinks(c, n, s, a);
    HeldRests(c, s, a);
  }

  /** An upsert given up: its row lock goes, and nothing else changes. */
  lemma CancelDecreases(c: Config, n: nat, s: Sys, a: Action)
    requires Possible(c, s, a) && a.CancelPut?
    ensures Measure(n, Next(c, s, a)) < Measure(n, s)
  {
    TasksRest(c, n, s, a);
    LoopsMove(c, n, s, a);
    assert s.db.held == DbAfter(c, s, a).held + {a.driverId};
  }

  lemma LoopActionDecreases(c: Config, n: nat, s: Sys, a: Action)
    requires PermitsConserved(c, s) && Possible(c, s, a) && LoopOf(a).Some?
    ensures Measure(n, Next(c, s, a)) < Measure(n, s)
  {
    TasksRest(c, n, s, a);
    LoopsMove(c, n, s, a);
    LoopMoves(c, n, s, a, LoopOf(a).value);
    HeldRests(c, s, a);
    if a.Receive? {
      MessageReceived(c, n, s, a);
    }
  }

  lemma QueueActionDecreases(c: Config, n: nat, s: Sys, a: Action)
    requires PermitsConserved(c, s) && Possible(c, s, a) && (a.Announce? || a.Expire? || a.Redrive?)
    requires a.Announce? ==> a.messageId !in s.sqs.queue
    ensures Measure(n, Next(c, s, a)) < Measure(n, s)
  {
    TasksRest(c, n, s, a);
    LoopsMove(c, n, s, a);
    HeldRests(c, s, a);
    if a.Announce? {
      AnnouncementStored(c, n, s, a);
      assert s.api.announcing == s.api.announcing - {a.orderId} + {a.orderId};
      assert |s.api.announcing| == |ApiAfter(s.api, a).announcing| + 1;
    } else if a.Expire? {
      MessageExpired(c, n, s, a);
    } else {
      MessageRemoved(c, n, s, a);
    }
  }

  lemma NewMessageIsNotQueued(c: Config, s: Sys, a: Action)
    requires MessagesAreTrue(s) && Possible(c, s, a)
    ensures a.Announce? ==> a.messageId !in s.sqs.queue
  {
    assert forall m | m in s.sqs.queue ::
        Announces(s.db.tables, s.sqs, m, s.sqs.queue[m].orderId, s.sqs.queue[m].pickup);
  }

  /** The measure goes down with every action but new traffic, whether it succeeds, fails or is a crash. */
  lemma ActionDecreases(c: Config, s: Sys, a: Action)
    requires Invariant(c, s) && PermitsConserved(c, s) && Possible(c, s, a) && !IsTraffic(a)
    ensures Measure(|s.db.tables.drivers|, Next(c, s, a)) < Measure(|s.db.tables.drivers|, s)
  {
    var n := |s.db.tables.drivers|;
    if TaskOf(a).Some? {
      TaskActionDecreases(c, n, s, a);
    } else if LoopOf(a).Some? {
      LoopActionDecreases(c, n, s, a);
    } else if a.CancelPut? {
      CancelDecreases(c, n, s, a);
    } else {
      NewMessageIsNotQueued(c, s, a);
      QueueActionDecreases(c, n, s, a);
    }
  }

  lemma NoNewDrivers(c: Config, t: Tables, e: Event)
    requires Legal(c, t, e) && !e.DriverUpserted?
    ensures |Perform(t, e).drivers| == |t.drivers|
  {
    assert Perform(t, e).drivers.Keys == t.drivers.Keys;
    assert |t.drivers| == |t.drivers.Keys| && |Perform(t, e).drivers| == |Perform(t, e).drivers.Keys|;
  }

  lemma DriversStay(c: Config, s: Sys, a: Action)
    requires Invariant(c, s) && Possible(c, s, a) && !a.PutDriver?
    ensures |Next(c, s, a).db.tables.drivers| == |s.db.tables.drivers|
  {
    TablesMove(c, s, a);
    if EventOf(c, s, a).Some? {
      NoNewDrivers(c, s.db.tables, EventOf(c, s, a).value);
    }
  }

  ghost function Bound(s: Sys): nat {
    Measure(|s.db.tables.drivers|, s)
  }

  lemma QuietStep(c: Config, s: Sys, a: Action)
    requires Invariant(c, s) && PermitsConserved(c, s) && Possible(c, s, a) && !IsTraffic(a)
    ensures var r := Next(c, s, a);
            && Invariant(c, r) && PermitsConserved(c, r)
            && Bound(r) < Bound(s)
  {
    ActionDecreases(c, s, a);
    DriversStay(c, s, a);
    ActionKeepsInvariant(c, s, a);
    ActionConservesPermits(c, s, a);
  }

  /** Along the run the bound goes down with every action. */
  ghost predicate Descends(c: Config, s: Sys, trace: seq<Action>)
    requires IsTrace(c, s, trace)
    decreases |trace|
  {
    trace != [] ==> Bound(Next(c, s, trace[0])) < Bound(s) && Descends(c, Next(c, s, trace[0]), trace[1..])
  }

  predicate IsQuiet(trace: seq<Action>) {
    forall a | a in trace :: !IsTraffic(a)
  }

  lemma {:induction false} QuietRunsDescend(c: Config, s: Sys, trace: seq<Action>)
    requires Invariant(c, s) && PermitsConserved(c, s) && IsTrace(c, s, trace) && IsQuiet(trace)
    ensures Descends(c, s, trace)
    decreases |trace|
  {
    if trace != [] {
      QuietStep(c, s, trace[0]);
      QuietRunsDescend(c, Next(c, s, trace[0]), trace[1..]);
    }
  }

  lemma {:induction false} DescentsAreBounded(c: Config, s: Sys, trace: seq<Action>)
    requires IsTrace(c, s, trace) && Descends(c, s, trace)
    ensures |trace| <= Bound(s)
    decreases |trace|
  {
    if trace != [] {
      DescentsAreBounded(c, Next(c, s, trace[0]), trace[1..]);
    }
  }

  /** So no run without new traffic is longer than the measure of the state it starts from. */
  lemma RunsAreBounded(c: Config, s: Sys, trace: seq<Action>)
    requires Invariant(c, s) && PermitsConserved(c, s) && IsTrace(c, s, trace) && IsQuiet(trace)
    ensures |trace| <= Bound(s)
  {
    QuietRunsDescend(c, s, trace);
    DescentsAreBounded(c, s, trace);
  }

  // --- Where a run can stop

  /** Done, and the caller knows it; and no wait for a row lock. */
  predicate Succeeds(a: Action) {
    match a
    case Announce(_, _, stored) => stored
    case Receive(_, _, delivered) => delivered
    case Run(_, stmt) => !stmt.Block?
    case CommitTxn(_, replied) => replied
    case RollBack(_, replied) => replied
    case Publish(_, accepted, acknowledged) => accepted && acknowledged
    case Delete(_, removed) => removed
    case CancelPut(_) => false
    case Restart(_) => false
    case Fail(_) => false
    case _ => true
  }

  /** An action that serves what is there: neither new traffic nor a failure. */
  predicate Serves(c: Config, s: Sys, a: Action) {
    Possible(c, s, a) && !IsTraffic(a) && Succeeds(a)
  }

  predicate ServesTask(c: Config, s: Sys, a: Action) {
    Serves(c, s, a) && TaskOf(a).Some?
  }

  /** Some task gets on. */
  ghost predicate TaskIsServed(c: Config, s: Sys) {
    exists a :: ServesTask(c, s, a)
  }

  predicate AllDone(s: Sys) {
    && s.sqs.queue == map[] && s.tasks == map[] && s.api.announcing == {}
    && (forall w | w in s.loops :: s.loops[w].batch == [] && !s.loops[w].dispatching)
  }

  lemma StatementIsServed(c: Config, s: Sys, t: Id, stmt: Statement)
    requires InOpenTxn(s, t) && Enabled(c, s.db, Do(t, stmt)) && !stmt.Block?
    ensures ServesTask(c, s, Run(t, stmt))
  {
  }

  lemma CommitIsServed(c: Config, s: Sys, t: Id)
    requires InOpenTxn(s, t) && Enabled(c, s.db, Commit(t)) && TxnInv(c, s.db.tables, s.db.txns[t])
    ensures ServesTask(c, s, CommitTxn(t, true))
  {
  }

  lemma MovesAreServed(c: Config, s: Sys, t: Id, step: Step)
    requires DbInv(c, s.db) && InOpenTxn(s, t) && Moves(c, s.db, t, step)
    ensures TaskIsServed(c, s)
  {
    if step.Do? {
      StatementIsServed(c, s, t, step.stmt);
    } else if step.Commit? {
      CommitIsServed(c, s, t);
    } else {
      assert ServesTask(c, s, RollBack(t, true));
    }
  }

  lemma OpenTxnsAreServed(c: Config, s: Sys)
    requires Invariant(c, s) && s.db.txns != map[]
    ensures TaskIsServed(c, s)
  {
    NoDeadlock(c, s.db);
    var t, step :| t in s.db.txns && Moves(c, s.db, t, step);
    assert AtStage(s, t, InTxn);
    MovesAreServed(c, s, t, step);
  }

  lemma StageIsServed(c: Config, s: Sys, t: Id)
    requires t in s.tasks && !s.tasks[t].stage.InTxn? && s.db.txns == map[] && c.poolSize > 0
    requires forall u | u in s.tasks :: !s.tasks[u].stage.InTxn?
    ensures TaskIsServed(c, s)
  {
    match s.tasks[t].stage
    case Starting =>
      assert TxnsOf(s.tasks, s.tasks[t].worker) == {};
      assert ServesTask(c, s, BeginTxn(t));
    case Publishing(_) => assert ServesTask(c, s, Publish(t, true, true));
    case Deleting => assert ServesTask(c, s, Delete(t, true));
  }

  /**
   Tasks never wait for each other for good, and one connection per worker is enough: while there are tasks, one
   of them can make its next step with success.
   */
  lemma TasksAreServed(c: Config, s: Sys)
    requires Invariant(c, s) && s.tasks != map[] && c.poolSize > 0
    ensures TaskIsServed(c, s)
  {
    if s.db.txns != map[] {
      OpenTxnsAreServed(c, s);
    } else {
      var t :| t in s.tasks;
      StageIsServed(c, s, t);
    }
  }

  lemma LoopsAreServed(c: Config, s: Sys, w: Id)
    requires PermitsConserved(c, s) && w in s.loops && c.maxInFlight > 0
    requires s.tasks == map[] && s.db.txns == map[]
    requires s.loops[w].batch != [] || s.loops[w].dispatching
    ensures exists a :: Serves(c, s, a)
  {
    assert TasksOf(s.tasks, w) == {};
    if s.loops[w].holding {
      assert Serves(c, s, Spawn(w, 0));
    } else if s.loops[w].batch == [] {
      assert Serves(c, s, NextPoll(w));
    } else if s.loops[w].dispatching {
      assert Serves(c, s, Acquire(w));
    } else {
      assert Serves(c, s, StartDispatch(w));
    }
  }

  lemma MessagesAreServed(c: Config, s: Sys, m: Id, w: Id)
    requires m in s.sqs.queue && w in s.loops && s.loops[w].batch == [] && !s.loops[w].dispatching
    ensures exists a :: Serves(c, s, a)
  {
    var msg := s.sqs.queue[m];
    if !msg.visible {
      assert Serves(c, s, Expire(m));
    } else if msg.receives >= MAX_RECEIVES {
      assert Serves(c, s, Redrive(m));
    } else {
      assert Serves(c, s, Receive(w, m, true));
    }
  }

  /** A state in which nothing can be served has an empty queue: every message was deleted or is a dead letter. */
  lemma StoppedMeansDone(c: Config, s: Sys)
    requires Invariant(c, s) && PermitsConserved(c, s)
    requires c.maxInFlight > 0 && c.poolSize > 0 && s.loops != map[]
    requires !exists a :: Serves(c, s, a)
    ensures AllDone(s)
    ensures forall o | IsPending(s.db.tables, o) :: HasMessage(s.sqs.dlq, o) || o in s.api.unannounced
  {
    if s.tasks != map[] {
      TasksAreServed(c, s);
    }
    if s.db.txns != map[] {
      OpenTxnsAreServed(c, s);
    }
    forall w | w in s.loops ensures s.loops[w].batch == [] && !s.loops[w].dispatching {
      if s.loops[w].batch != [] || s.loops[w].dispatching {
        LoopsAreServed(c, s, w);
      }
    }
    if s.sqs.queue != map[] {
      var m :| m in s.sqs.queue;
      var w :| w in s.loops;
      MessagesAreServed(c, s, m, w);
    }
    if s.api.announcing != {} {
      var o :| o in s.api.announcing;
      var m := FreshIdExists(s.sqs.sent.Keys);
      assert Serves(c, s, Announce(o, m, true));
    }
    forall o | IsPending(s.db.tables, o) ensures HasMessage(s.sqs.dlq, o) || o in s.api.unannounced {
      assert Traceable(s, o);
    }
  }
}
