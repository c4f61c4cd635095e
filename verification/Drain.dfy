/**
 A queue drained by the machine itself: one worker with one permit, no API traffic and no failures. Whatever
 order messages are received in, redelivered and dead-lettered, the run ends in a maximal matching.
 */
module Drain {
  import opened FiniteSets
  import opened Model
  import opened Geo
  import opened Database
  import opened AtomicSpec
  import opened LockSoundness
  import opened Scan
  import opened Pipeline
  import opened Delivery
  import opened Permits
  import opened Termination
  import opened Greedy

  predicate IsCalm(a: Action) {
    !IsTraffic(a) && Succeeds(a)
  }

  // --- One transaction at a time

  lemma OneTaskAtATime(c: Config, s: Sys, w: Id, t: Id, u: Id)
    requires PermitsConserved(c, s) && c.maxInFlight == 1 && s.loops.Keys == {w} && t in s.tasks && u in s.tasks
    ensures t == u
  {
    assert {t, u} <= TasksOf(s.tasks, w);
    SubsetSize({t, u}, TasksOf(s.tasks, w));
  }

  /** A scan that has missed nobody: an available driver is still to be visited, or is a candidate. */
  ghost predicate MissesNobody(t: Tables, x: Txn) {
    BeforeScan(x) || forall d | d in AvailableIds(t) ::
        t.drivers[d] in x.candidates || (x.phase.Scanning? && d in x.phase.remaining)
  }

  lemma VisitMissesNobody(c: Config, s: Db, t: Id, e: Id, skip: bool)
    requires DbInv(c, s) && Enabled(c, s, Do(t, ScanRow(e, skip))) && s.txns.Keys == {t} && s.held == {}
    requires MissesNobody(s.tables, s.txns[t])
    ensures MissesNobody(s.tables, VisitRow(s.tables, s.txns[t], e, skip))
  {
    var x, y := s.txns[t], VisitRow(s.tables, s.txns[t], e, skip);
    assert TxnInv(c, s.tables, x);
    forall d | d in AvailableIds(s.tables) ensures s.tables.drivers[d] in y.candidates || d in y.phase.remaining {
      if d == e && !skip {
        assert y.candidates[|x.candidates|] == s.tables.drivers[d];
      } else if s.tables.drivers[d] in x.candidates {
        assert x.candidates <= y.candidates;
      }
    }
  }

  lemma StatementMissesNobody(c: Config, s: Db, t: Id, stmt: Statement)
    requires DbInv(c, s) && Enabled(c, s, Do(t, stmt)) && s.txns.Keys == {t} && s.held == {}
    requires MissesNobody(s.tables, s.txns[t])
    ensures MissesNobody(s.tables, Execute(c, s.tables, s.txns[t], stmt))
  {
    if stmt.ScanRow? {
      VisitMissesNobody(c, s, t, stmt.driverId, stmt.skip);
    }
  }

  // --- The tables

  /** An assignment takes out an edge, and with it every edge of its order and of its driver. */
  lemma AssignmentTakesOut(c: Config, range: Range, t0: Tables, m: map<Id, Id>, t: Tables, e: Event)
    requires Finds(c, range) && TakenOut(range, t0, t, m)
    requires e.OrderAssigned? && Legal(c, t, e) && KnownOrder(t, e.orderId, e.pickup)
    ensures TakenOut(range, t0, Perform(t, e), m[e.orderId := e.driverId]) && e.orderId !in m
    ensures |Perform(t, e).assignments| == |t.assignments| + 1
    ensures forall o, d | Edge(range, Perform(t, e), o, d) :: Edge(range, t, o, d)
  {
    assert t.drivers[e.driverId] in e.candidates;
    assert Edge(range, t, e.orderId, e.driverId);
    AssignTakesOut(range, t0, t, m, e.assignmentId, e.orderId, e.driverId, e.distance);
  }

  /** When the matcher finds nobody and the scan missed nobody, the order has no driver. */
  lemma NobodyFoundExhausts(c: Config, range: Range, t: Tables, x: Txn)
    requires Finds(c, range) && KnownOrder(t, x.orderId, x.pickup) && Choice(c, x).Err?
    requires x.phase.Selected? && MissesNobody(t, x)
    ensures Exhausted(range, t, x.orderId)
  {
    forall d ensures !Edge(range, t, x.orderId, d) {
      if d in AvailableIds(t) {
        assert t.drivers[d] in x.candidates;
      }
    }
  }

  lemma RollBackExhausts(c: Config, range: Range, s: Sys, t: Id)
    requires Finds(c, range) && Invariant(c, s) && Possible(c, s, RollBack(t, true)) && s.db.txns[t].phase.Selected?
    requires MissesNobody(s.db.tables, s.db.txns[t])
    ensures Exhausted(range, s.db.tables, s.tasks[t].delivery.orderId)
  {
    TxnsKnowTheirOrders(c, s, t);
    assert OwnsTxn(s.tasks, s.db, t);
    NobodyFoundExhausts(c, range, s.db.tables, s.db.txns[t]);
  }

  // --- The messages

  /** The worker has received the message and is not done with it. */
  ghost predicate InHand(s: Sys, m: Id) {
    || (exists w, d :: w in s.loops && d in s.loops[w].batch && d.messageId == m)
    || (exists t :: t in s.tasks && s.tasks[t].delivery.messageId == m)
  }

  /** A message that was received is still in hand, or its order has no driver to hope for. */
  ghost predicate Tried(range: Range, s: Sys, m: Id, o: Id) {
    InHand(s, m) || Exhausted(range, s.db.tables, o)
  }

  ghost predicate AllTried(range: Range, s: Sys) {
    && (forall m | m in s.sqs.queue && s.sqs.queue[m].receives > 0 :: Tried(range, s, m, s.sqs.queue[m].orderId))
    && (forall m | m in s.sqs.dlq :: Tried(range, s, m, s.sqs.dlq[m].orderId))
  }

  lemma BatchIsHandedOn(c: Config, s: Sys, a: Action, w: Id, d: Receipt)
    requires Possible(c, s, a) && IsCalm(a) && w in s.loops && d in s.loops[w].batch
    ensures InHand(Next(c, s, a), d.messageId)
  {
    var r := Next(c, s, a);
    if a.Spawn? && a.worker == w && d == s.loops[w].batch[0] {
      assert a.task in r.tasks && r.tasks[a.task].delivery == d;
    } else {
      assert w in r.loops && d in r.loops[w].batch;
    }
  }

  lemma TaskGoesOn(c: Config, s: Sys, a: Action, t: Id)
    requires Possible(c, s, a) && IsCalm(a) && t in s.tasks
    ensures || InHand(Next(c, s, a), s.tasks[t].delivery.messageId)
            || a == Delete(t, true)
            || (a == RollBack(t, true) && s.db.txns[t].phase.Selected?)
  {
    var r := Next(c, s, a);
    if t in r.tasks {
      assert r.tasks[t].delivery == s.tasks[t].delivery;
    }
  }

  lemma FinishedIsExhausted(c: Config, range: Range, s: Sys, a: Action, t: Id)
    requires Finds(c, range) && Invariant(c, s) && Possible(c, s, a) && t in s.tasks
    requires a == Delete(t, true) || (a == RollBack(t, true) && s.db.txns[t].phase.Selected?)
    requires t in s.db.txns ==> MissesNobody(s.db.tables, s.db.txns[t])
    ensures Exhausted(range, s.db.tables, s.tasks[t].delivery.orderId)
  {
    if a.RollBack? {
      RollBackExhausts(c, range, s, t);
    } else {
      assert IsAssigned(s.db.tables, s.tasks[t].delivery.orderId);
    }
  }

  /** What a calm action may rely on: nobody was missed, and edges only go. */
  ghost predicate OnlyLoses(range: Range, s: Sys, r: Tables) {
    && (forall t | t in s.db.txns :: MissesNobody(s.db.tables, s.db.txns[t]))
    && (forall o, d | Edge(range, r, o, d) :: Edge(range, s.db.tables, o, d))
  }

  lemma TaskStaysTried(c: Config, range: Range, s: Sys, a: Action, t: Id, o: Id)
    requires Finds(c, range) && Invariant(c, s) && Possible(c, s, a) && IsCalm(a)
    requires OnlyLoses(range, s, Next(c, s, a).db.tables)
    requires t in s.tasks && s.tasks[t].delivery.messageId in s.sqs.sent
              && s.sqs.sent[s.tasks[t].delivery.messageId] == o
    ensures Tried(range, Next(c, s, a), s.tasks[t].delivery.messageId, o)
  {
    TaskGoesOn(c, s, a, t);
    if !InHand(Next(c, s, a), s.tasks[t].delivery.messageId) {
      FinishedIsExhausted(c, range, s, a, t);
      assert GoodReceipt(s.db.tables, s.sqs, s.tasks[t].delivery);
    }
  }

  lemma StaysTried(c: Config, range: Range, s: Sys, a: Action, m: Id, o: Id)
    requires Finds(c, range) && Invariant(c, s) && Possible(c, s, a) && IsCalm(a)
    requires OnlyLoses(range, s, Next(c, s, a).db.tables)
    requires m in s.sqs.sent && s.sqs.sent[m] == o && Tried(range, s, m, o)
    ensures Tried(range, Next(c, s, a), m, o)
  {
    if w, d :| w in s.loops && d in s.loops[w].batch && d.messageId == m {
      BatchIsHandedOn(c, s, a, w, d);
    } else if t :| t in s.tasks && s.tasks[t].delivery.messageId == m {
      TaskStaysTried(c, range, s, a, t, o);
    }
  }

  lemma ReceivedIsInHand(c: Config, s: Sys, a: Action)
    requires Possible(c, s, a) && IsCalm(a) && a.Receive?
    ensures InHand(Next(c, s, a), a.messageId)
  {
    var batch := LoopsAfter(c, s, a)[a.worker].batch;
    assert batch[|s.loops[a.worker].batch|].messageId == a.messageId;
    assert batch[|s.loops[a.worker].batch|] in Next(c, s, a).loops[a.worker].batch;
  }

  lemma QueuedBefore(c: Config, s: Sys, a: Action, m: Id)
    requires Possible(c, s, a) && m in SqsAfter(c, s, a).queue && SqsAfter(c, s, a).queue[m].receives > 0
    ensures m in s.sqs.queue && s.sqs.queue[m].orderId == SqsAfter(c, s, a).queue[m].orderId
    ensures s.sqs.queue[m].receives > 0 || (a.Receive? && a.messageId == m)
  {
  }

  lemma QueuedWasTried(c: Config, range: Range, s: Sys, a: Action, m: Id)
    requires Finds(c, range) && Invariant(c, s) && Possible(c, s, a) && IsCalm(a) && AllTried(range, s)
    requires OnlyLoses(range, s, Next(c, s, a).db.tables)
    requires m in SqsAfter(c, s, a).queue && SqsAfter(c, s, a).queue[m].receives > 0
    ensures Tried(range, Next(c, s, a), m, SqsAfter(c, s, a).queue[m].orderId)
  {
    QueuedBefore(c, s, a, m);
    assert Announces(s.db.tables, s.sqs, m, s.sqs.queue[m].orderId, s.sqs.queue[m].pickup);
    if s.sqs.queue[m].receives > 0 {
      StaysTried(c, range, s, a, m, s.sqs.queue[m].orderId);
    } else {
      ReceivedIsInHand(c, s, a);
    }
  }

  lemma DeadWasTried(c: Config, range: Range, s: Sys, a: Action, m: Id)
    requires Finds(c, range) && Invariant(c, s) && Possible(c, s, a) && IsCalm(a) && AllTried(range, s)
    requires OnlyLoses(range, s, Next(c, s, a).db.tables)
    requires m in SqsAfter(c, s, a).dlq
    ensures Tried(range, Next(c, s, a), m, SqsAfter(c, s, a).dlq[m].orderId)
  {
    if a == Redrive(m) {
      assert Announces(s.db.tables, s.sqs, m, s.sqs.queue[m].orderId, s.sqs.queue[m].pickup);
      StaysTried(c, range, s, a, m, s.sqs.queue[m].orderId);
    } else {
      assert Announces(s.db.tables, s.sqs, m, s.sqs.dlq[m].orderId, s.sqs.dlq[m].pickup);
      StaysTried(c, range, s, a, m, s.sqs.dlq[m].orderId);
    }
  }

  lemma KeepsTried(c: Config, range: Range, s: Sys, a: Action)
    requires Finds(c, range) && Invariant(c, s) && Possible(c, s, a) && IsCalm(a) && AllTried(range, s)
    requires OnlyLoses(range, s, Next(c, s, a).db.tables)
    ensures AllTried(range, Next(c, s, a))
  {
    var r := Next(c, s, a);
    forall m | m in r.sqs.queue && r.sqs.queue[m].receives > 0 ensures Tried(range, r, m, r.sqs.queue[m].orderId) {
      QueuedWasTried(c, range, s, a, m);
    }
    forall m | m in r.sqs.dlq ensures Tried(range, r, m, r.sqs.dlq[m].orderId) {
      DeadWasTried(c, range, s, a, m);
    }
  }

  // --- The run

  /**
   From tables `t0`, the pairs of `m` have been assigned and stored, nobody is missed, and every message received
   was tried.
   */
  ghost predicate Draining(range: Range, t0: Tables, m: map<Id, Id>, s: Sys) {
    && TakenOut(range, t0, s.db.tables, m)
    && |s.db.tables.assignments| == |t0.assignments| + |m|
    && s.db.held == {}
    && (forall t | t in s.db.txns :: MissesNobody(s.db.tables, s.db.txns[t]))
    && AllTried(range, s)
  }

  lemma TablesDrain(c: Config, range: Range, t0: Tables, m: map<Id, Id>, s: Sys, a: Action) returns (n: map<Id, Id>)
    requires Finds(c, range) && Invariant(c, s) && Possible(c, s, a) && IsCalm(a)
    requires TakenOut(range, t0, s.db.tables, m) && |s.db.tables.assignments| == |t0.assignments| + |m|
    ensures var r := Next(c, s, a).db.tables;
            && TakenOut(range, t0, r, n) && |r.assignments| == |t0.assignments| + |n|
            && forall o, d | Edge(range, r, o, d) :: Edge(range, s.db.tables, o, d)
  {
    TablesMove(c, s, a);
    n := m;
    match EventOf(c, s, a)
    case None =>
    case Some(e) =>
      TxnsKnowTheirOrders(c, s, a.task);
      AssignmentTakesOut(c, range, t0, m, s.db.tables, e);
      n := m[e.orderId := e.driverId];
  }

  lemma OneTxnAtATime(c: Config, s: Sys, w: Id, t: Id)
    requires PermitsConserved(c, s) && c.maxInFlight == 1 && s.loops.Keys == {w} && TasksOwnTxns(s) && t in s.db.txns
    ensures s.db.txns.Keys == {t}
  {
    forall u | u in s.db.txns ensures u == t {
      assert AtStage(s, t, InTxn) && AtStage(s, u, InTxn);
      OneTaskAtATime(c, s, w, t, u);
    }
  }

  lemma ScansMissNobody(c: Config, s: Sys, a: Action)
    requires DbInv(c, s.db) && Possible(c, s, a) && IsCalm(a) && s.db.held == {}
    requires forall t | t in s.db.txns :: s.db.txns.Keys == {t} && MissesNobody(s.db.tables, s.db.txns[t])
    ensures forall t | t in DbAfter(c, s, a).txns :: MissesNobody(DbAfter(c, s, a).tables, DbAfter(c, s, a).txns[t])
  {
    if a.Run? {
      StatementMissesNobody(c, s.db, a.task, a.stmt);
    } else if a.CommitTxn? {
      assert DbAfter(c, s, a).txns == map[];
    }
  }

  lemma CalmActionDrains(c: Config, range: Range, t0: Tables, m: map<Id, Id>, s: Sys, a: Action, w: Id)
    returns (n: map<Id, Id>)
    requires Finds(c, range) && Invariant(c, s) && PermitsConserved(c, s) && c.maxInFlight == 1 && s.loops.Keys == {w}
    requires Possible(c, s, a) && IsCalm(a) && Draining(range, t0, m, s)
    ensures Draining(range, t0, n, Next(c, s, a))
  {
    n := TablesDrain(c, range, t0, m, s, a);
    forall t | t in s.db.txns ensures s.db.txns.Keys == {t} {
      OneTxnAtATime(c, s, w, t);
    }
    ScansMissNobody(c, s, a);
    KeepsTried(c, range, s, a);
    HeldRests(c, s, a);
  }

  /** One worker with one permit, in any state that its invariants allow. */
  ghost predicate OneAtATime(c: Config, s: Sys, w: Id) {
    Invariant(c, s) && PermitsConserved(c, s) && c.maxInFlight == 1 && s.loops.Keys == {w}
  }

  lemma CalmActionAnnounces(s: Api, a: Action)
    requires IsCalm(a)
    ensures ApiAfter(s, a).unannounced == s.unannounced
  {
  }

  lemma LoopsStay(c: Config, s: Sys, a: Action)
    requires Possible(c, s, a)
    ensures LoopsAfter(c, s, a).Keys == s.loops.Keys
  {
  }

  lemma CalmActionKeeps(c: Config, s: Sys, a: Action, w: Id)
    requires OneAtATime(c, s, w) && Possible(c, s, a) && IsCalm(a)
    ensures OneAtATime(c, Next(c, s, a), w) && Next(c, s, a).api.unannounced == s.api.unannounced
  {
    ActionKeepsInvariant(c, s, a);
    ActionConservesPermits(c, s, a);
    CalmActionAnnounces(s.api, a);
    LoopsStay(c, s, a);
  }

  ghost predicate AllCalm(trace: seq<Action>)
    decreases |trace|
  {
    trace != [] ==> IsCalm(trace[0]) && AllCalm(trace[1..])
  }

  lemma {:induction false} CalmRunKeeps(c: Config, s: Sys, trace: seq<Action>, w: Id)
    requires OneAtATime(c, s, w) && IsTrace(c, s, trace) && AllCalm(trace)
    ensures OneAtATime(c, End(c, s, trace), w) && End(c, s, trace).api.unannounced == s.api.unannounced
    decreases |trace|
  {
    if trace != [] {
      CalmActionKeeps(c, s, trace[0], w);
      CalmRunKeeps(c, Next(c, s, trace[0]), trace[1..], w);
    }
  }

  lemma {:induction false} CalmRunDrains(c: Config, range: Range, t0: Tables, m: map<Id, Id>, s: Sys,
                                         trace: seq<Action>, w: Id)
    returns (n: map<Id, Id>)
    requires Finds(c, range) && OneAtATime(c, s, w) && IsTrace(c, s, trace) && AllCalm(trace)
              && Draining(range, t0, m, s)
    ensures Draining(range, t0, n, End(c, s, trace))
    decreases |trace|
  {
    n := m;
    if trace != [] {
      n := CalmActionDrains(c, range, t0, m, s, trace[0], w);
      CalmActionKeeps(c, s, trace[0], w);
      n := CalmRunDrains(c, range, t0, n, Next(c, s, trace[0]), trace[1..], w);
    }
  }

  /** A drain begins: nothing is under way, and no message has been received yet. */
  ghost predicate Untouched(s: Sys, w: Id) {
    && s.loops.Keys == {w} && s.loops[w].batch == [] && s.tasks == map[] && s.db.held == {}
    && (forall m | m in s.sqs.queue :: s.sqs.queue[m].receives == 0) && s.sqs.dlq == map[]
    && (forall o | o in s.api.unannounced :: !IsPending(s.db.tables, o))
  }

  lemma UntouchedIsDraining(c: Config, range: Range, s: Sys, w: Id)
    requires DbInv(c, s.db) && TasksOwnTxns(s) && Untouched(s, w)
    ensures Draining(range, s.db.tables, map[], s)
  {
    assert forall t | t in s.db.txns :: AtStage(s, t, InTxn);
  }

  lemma DeadLetterIsExhausted(range: Range, s: Sys, o: Id)
    requires AllDone(s) && AllTried(range, s) && HasMessage(s.sqs.dlq, o)
    ensures Exhausted(range, s.db.tables, o)
  {
    var q :| q in s.sqs.dlq && s.sqs.dlq[q].orderId == o;
    assert Tried(range, s, q, o);
    assert !InHand(s, q);
  }

  lemma DrainedIsMaximal(c: Config, range: Range, s: Sys, r: Sys, m: map<Id, Id>, w: Id, o: Id, d: Id)
    requires OneAtATime(c, r, w) && c.poolSize > 0 && (!exists a :: Serves(c, r, a))
    requires Draining(range, s.db.tables, m, r)
    requires r.api.unannounced == s.api.unannounced && forall p | p in s.api.unannounced :: !IsPending(s.db.tables, p)
    ensures !Edge(range, r.db.tables, o, d)
  {
    StoppedMeansDone(c, r);
    if IsPending(r.db.tables, o) {
      DeadLetterIsExhausted(range, r, o);
    }
  }

  /** And every drain comes to its end. */
  lemma {:induction false} DrainEnds(c: Config, s: Sys) returns (trace: seq<Action>)
    requires Invariant(c, s) && PermitsConserved(c, s)
    ensures IsTrace(c, s, trace) && AllCalm(trace) && !exists a :: Serves(c, End(c, s, trace), a)
    decreases Bound(s)
  {
    if a :| Serves(c, s, a) {
      QuietStep(c, s, a);
      var rest := DrainEnds(c, Next(c, s, a));
      trace := [a] + rest;
      assert trace[1..] == rest;
    } else {
      trace := [];
    }
  }

  /**
   The greedy bound for the machine. One worker with one permit drains the queue until there is nothing left to
   do. Then no pending order has an available driver in range, and at least half as many assignments have been
   stored as any matching of the orders with the drivers has pairs.
   */
  lemma DrainedSystemIsHalfOfBest(c: Config, dist: Metric, radiusKm: nat, s: Sys, trace: seq<Action>, w: Id,
                                  other: map<Id, Id>)
    requires c.nearest == Matching(dist, radiusKm) && c.poolSize > 0
    requires OneAtATime(c, s, w) && Untouched(s, w)
    requires IsTrace(c, s, trace) && AllCalm(trace) && !exists a :: Serves(c, End(c, s, trace), a)
    requires IsMatching(WithinKm(dist, radiusKm), s.db.tables, other)
    ensures forall o, d :: !Edge(WithinKm(dist, radiusKm), End(c, s, trace).db.tables, o, d)
    ensures |other| <= 2 * (|End(c, s, trace).db.tables.assignments| - |s.db.tables.assignments|)
  {
    var range, r := WithinKm(dist, radiusKm), End(c, s, trace);
    NearestFinds(dist, radiusKm, c);
    UntouchedIsDraining(c, range, s, w);
    var m := CalmRunDrains(c, range, s.db.tables, map[], s, trace, w);
    CalmRunKeeps(c, s, trace, w);
    forall o, d ensures !Edge(range, r.db.tables, o, d) {
      DrainedIsMaximal(c, range, s, r, m, w, o, d);
    }
    MaximalIsHalf(range, s.db.tables, r.db.tables, m, other);
  }
}
