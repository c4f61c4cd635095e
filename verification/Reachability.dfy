/** The main results about whole runs of the pipeline, from an empty system. */
module Reachability {
  import opened Model
  import opened Wrappers
  import opened Geo
  import opened Haversine
  import opened Database
  import opened AtomicSpec
  import opened LockSoundness
  import opened Refinement
  import opened Postgres
  import opened Pipeline
  import opened Delivery
  import opened Accounting
  import opened Permits
  import opened Scan

  /**
   In every reachable state: sound locks, true messages, valid coordinates, no lost order, balanced books, all
   permits.
   */
  lemma EveryReachableState(c: Config, s: Sys, trace: seq<Action>)
    requires Initial(c, s) && IsTrace(c, s, trace)
    ensures var r := End(c, s, trace);
            Invariant(c, r) && Balanced(LedgerOf(r)) && PermitsConserved(c, r) && PoolRespected(c, r)
  {
    forall w | w in s.loops ensures TasksOf(s.tasks, w) == {} && TxnsOf(s.tasks, w) == {} {
    }
    InitialInvariant(c, s);
    TraceKeepsInvariant(c, s, trace);
    TraceKeepsBalance(c, s, trace);
    TraceConservesPermits(c, s, trace);
  }

  /** The database steps inside a run of the pipeline. */
  ghost function DbRun(c: Config, s: Sys, trace: seq<Action>): seq<Step>
    requires IsTrace(c, s, trace)
    decreases |trace|
  {
    if trace == [] then []
    else
      (match DbStep(s, trace[0]) case None => [] case Some(step) => [step]) + DbRun(c, Next(c, s, trace[0]), trace[1..])
  }

  /** So whatever holds of database runs holds of the database inside the pipeline. */
  lemma {:induction false} PipelineRunsDatabase(c: Config, s: Sys, trace: seq<Action>)
    requires IsTrace(c, s, trace)
    ensures IsRun(c, s.db, DbRun(c, s, trace)) && After(c, s.db, DbRun(c, s, trace)) == End(c, s, trace).db
    decreases |trace|
  {
    if trace != [] {
      var a := trace[0];
      DbStepEnabled(c, s, a);
      PipelineRunsDatabase(c, Next(c, s, a), trace[1..]);
      if DbStep(s, a).Some? {
        assert DbRun(c, s, trace)[0] == DbStep(s, a).value;
        assert DbRun(c, s, trace)[1..] == DbRun(c, Next(c, s, a), trace[1..]);
      } else {
        assert DbRun(c, s, trace) == DbRun(c, Next(c, s, a), trace[1..]);
      }
    }
  }

  /** Over any run of the whole system a driver is assigned at most as often as the API made it available. */
  lemma DriverExclusivity(c: Config, s: Sys, trace: seq<Action>, d: Id)
    requires Initial(c, s) && IsTrace(c, s, trace)
    ensures IsRun(c, EMPTY_DB, DbRun(c, s, trace))
    ensures var es := History(c, EMPTY_DB, DbRun(c, s, trace));
            Assignments(es, d) + AvailableOnce(End(c, s, trace).db.tables, d) <= Resets(es, d)
  {
    PipelineRunsDatabase(c, s, trace);
    EmptyInv(c);
    RunRefinesSpec(c, EMPTY_DB, DbRun(c, s, trace));
    AssignmentsNeedResets(c, NO_ROWS, History(c, EMPTY_DB, DbRun(c, s, trace)), d);
  }

  /**
   When a task commits, its driver is the nearest in range of the order's own pickup among its candidates, and
   each candidate is an available row at that very moment.
   */
  lemma CommittedChoiceIsNearest(c: Config, dist: Metric, radiusKm: nat, s: Sys, t: Id, replied: bool)
    requires Invariant(c, s) && c.nearest == Matching(dist, radiusKm) && Possible(c, s, CommitTxn(t, replied))
    ensures var x, rows := s.db.txns[t], s.db.tables;
            && IsPending(rows, x.orderId)
            && Selects(dist, rows.orders[x.orderId].pickup, x.candidates, radiusKm, Choice(c, x))
            && (forall row | row in x.candidates ::
                row.id in rows.drivers && rows.drivers[row.id] == row && row.status == Available)
  {
    var x := s.db.txns[t];
    assert TxnInv(c, s.db.tables, x);
    assert GoodReceipt(s.db.tables, s.sqs, s.tasks[t].delivery);
    NearestDriverIsNearest(dist, x.pickup, x.candidates, radiusKm);
    forall row | row in x.candidates
      ensures row.id in s.db.tables.drivers && s.db.tables.drivers[row.id] == row && row.status == Available
    {
      assert RowIsLocked(s.db.tables, x, row);
    }
  }

  /**
   Over any stretch of the pipeline's run in which task `t` scans, whatever everybody else does meanwhile: its
   answer is the best for the order's own pickup among all drivers that stayed free. So the driver it commits is no
   farther than any of them, and when it rolls back for want of drivers, none of them is in range.
   */
  lemma FreeDriversAreNotOverlooked(c: Config, dist: Metric, radiusKm: nat, s: Sys, trace: seq<Action>, t: Id, d: Id)
    requires Invariant(c, s) && c.nearest == Matching(dist, radiusKm) && IsTrace(c, s, trace)
    requires t in s.db.txns ==> BeforeScan(s.db.txns[t])
    requires IsRun(c, s.db, DbRun(c, s, trace)) && FreeDuringScan(c, s.db, DbRun(c, s, trace), t, d)
    requires t in End(c, s, trace).db.txns && AfterScan(End(c, s, trace).db.txns[t])
    ensures var r := End(c, s, trace).db;
            var x := r.txns[t];
            && KnownOrder(r.tables, x.orderId, x.pickup)
            && d in r.tables.drivers
            && BestAnswer(dist, x.pickup, radiusKm, Choice(c, x), r.tables.drivers[d].location)
  {
    TraceKeepsInvariant(c, s, trace);
    TxnsKnowTheirOrders(c, End(c, s, trace), t);
    PipelineRunsDatabase(c, s, trace);
    ChoiceBeatsFreeDrivers(c, dist, radiusKm, s.db, DbRun(c, s, trace), t, d);
  }

  // --- The pipeline as a history of atomic events

  ghost function TraceEvents(c: Config, s: Sys, trace: seq<Action>): seq<Event>
    requires IsTrace(c, s, trace)
    decreases |trace|
  {
    if trace == [] then []
    else
      (match EventOf(c, s, trace[0]) case None => [] case Some(e) => [e]) +
          TraceEvents(c, Next(c, s, trace[0]), trace[1..])
  }

  /** An assignment is for its order's own pickup, and gives it the nearest of its candidates in range. */
  ghost predicate IsDispatch(dist: Metric, radiusKm: nat, t: Tables, e: Event) {
    e.OrderAssigned? ==>
      && KnownOrder(t, e.orderId, e.pickup) && e.driverId in t.drivers
      && Selects(dist, e.pickup, e.candidates, radiusKm, Ok((t.drivers[e.driverId], e.distance)))
  }

  ghost predicate AllDispatches(c: Config, dist: Metric, radiusKm: nat, t: Tables, es: seq<Event>)
    requires IsHistory(c, t, es)
    decreases |es|
  {
    es != [] ==> IsDispatch(dist, radiusKm, t, es[0]) && AllDispatches(c, dist, radiusKm, Perform(t, es[0]), es[1..])
  }

  lemma ActionIsDispatch(c: Config, dist: Metric, radiusKm: nat, s: Sys, a: Action)
    requires Invariant(c, s) && c.nearest == Matching(dist, radiusKm) && Possible(c, s, a)
    ensures EventOf(c, s, a).Some? ==>
              Legal(c, s.db.tables, EventOf(c, s, a).value)
                  && IsDispatch(dist, radiusKm, s.db.tables, EventOf(c, s, a).value)
  {
    TablesMove(c, s, a);
    if a.CommitTxn? {
      var x := s.db.txns[a.task];
      TxnsKnowTheirOrders(c, s, a.task);
      NearestDriverIsNearest(dist, x.pickup, x.candidates, radiusKm);
    }
  }

  lemma DispatchCons(c: Config, dist: Metric, radiusKm: nat, t: Tables, e: Event, es: seq<Event>)
    requires Legal(c, t, e) && IsDispatch(dist, radiusKm, t, e)
    requires IsHistory(c, Perform(t, e), es) && AllDispatches(c, dist, radiusKm, Perform(t, e), es)
    ensures IsHistory(c, t, [e] + es) && AllDispatches(c, dist, radiusKm, t, [e] + es)
    ensures Outcome(c, t, [e] + es) == Outcome(c, Perform(t, e), es)
  {
    assert ([e] + es)[1..] == es;
  }

  /** Every run of the pipeline is a legal history in which every assignment is a dispatch. */
  lemma {:induction false} PipelineRefinesSpec(c: Config, dist: Metric, radiusKm: nat, s: Sys, trace: seq<Action>)
    requires Invariant(c, s) && c.nearest == Matching(dist, radiusKm) && IsTrace(c, s, trace)
    ensures var es := TraceEvents(c, s, trace);
            && IsHistory(c, s.db.tables, es) && AllDispatches(c, dist, radiusKm, s.db.tables, es)
            && Outcome(c, s.db.tables, es) == End(c, s, trace).db.tables
    decreases |trace|
  {
    if trace != [] {
      var a := trace[0];
      var r := Next(c, s, a);
      ActionIsDispatch(c, dist, radiusKm, s, a);
      TablesMove(c, s, a);
      ActionKeepsInvariant(c, s, a);
      PipelineRefinesSpec(c, dist, radiusKm, r, trace[1..]);
      match EventOf(c, s, a)
      case None => assert TraceEvents(c, s, trace) == TraceEvents(c, r, trace[1..]);
      case Some(e) =>
        DispatchCons(c, dist, radiusKm, s.db.tables, e, TraceEvents(c, r, trace[1..]));
    }
  }

  /**
   With the haversine metric the stored distance is a number between 0 and the radius: validated points leave no
   room for NaN.
   */
  lemma CommittedDistanceIsNumber(c: Config, trig: Trig, dist: Metric, radiusKm: nat, s: Sys, t: Id, row: Driver,
                                  distance: F64)
    requires TrigLaws(trig) && forall p, q :: dist(p, q) == Distance(trig, p, q)
    requires Invariant(c, s) && c.nearest == Matching(dist, radiusKm)
    requires Possible(c, s, CommitTxn(t, true)) && Choice(c, s.db.txns[t]) == Ok((row, distance))
    ensures distance.Num? && 0.0 <= distance.value <= radiusKm as real && distance.value <= trig.pi * EARTH_RADIUS_KM
  {
    var x := s.db.txns[t];
    CommittedChoiceIsNearest(c, dist, radiusKm, s, t, true);
    NearestDistanceIsInRange(dist, x.pickup, x.candidates, radiusKm);
    assert GoodReceipt(s.db.tables, s.sqs, s.tasks[t].delivery);
    assert ValidPoint(s.db.tables.drivers[row.id].location);
    ValidPointsHaveDistance(trig, x.pickup, row.location);
  }

  /** A message is deleted only by a task whose order is assigned. */
  lemma DeletesAreSafe(c: Config, s: Sys, t: Id, removed: bool)
    requires Invariant(c, s) && Possible(c, s, Delete(t, removed))
    ensures var m := s.tasks[t].delivery.messageId;
            m in s.sqs.queue ==> IsAssigned(s.db.tables, s.sqs.queue[m].orderId)
  {
    var d := s.tasks[t].delivery;
    assert GoodReceipt(s.db.tables, s.sqs, d);
    if d.messageId in s.sqs.queue {
      assert Announces(s.db.tables, s.sqs, d.messageId, s.sqs.queue[d.messageId].orderId,
          s.sqs.queue[d.messageId].pickup);
    }
  }

  // --- FR-9 on the worker's side: which assignments are published

  /** The books alone: a row whose event nobody holds is on the bus unless it is lost. */
  lemma PublishedIffNotLost(l: Ledger, a: Id)
    requires Balanced(l) && a in l.rows && !IsHeld(l, a)
    ensures OnBus(l, a) <==> a !in l.events.lost
  {
  }

  /**
   What costs an assignment its event: the commit took effect but its reply was lost, the bus refused the event,
   or the task died after the commit and before the bus accepted.
   */
  predicate LosesEvent(c: Config, s: Sys, a: Action, id: Id)
    requires Possible(c, s, a)
  {
    match a
    case CommitTxn(t, replied) => !replied && s.db.txns[t].phase.assignmentId == id
    case Publish(t, accepted, _) => !accepted && s.tasks[t].stage.event.assignmentId == id
    case Fail(t) => s.tasks[t].stage.Publishing? && s.tasks[t].stage.event.assignmentId == id
    case _ => false
  }

  ghost predicate SomewhereLost(c: Config, s: Sys, trace: seq<Action>, id: Id)
    requires IsTrace(c, s, trace)
    decreases |trace|
  {
    trace != [] && (LosesEvent(c, s, trace[0], id) || SomewhereLost(c, Next(c, s, trace[0]), trace[1..], id))
  }

  lemma {:induction false} LostIffRefusedOrDied(c: Config, s: Sys, trace: seq<Action>, id: Id)
    requires IsTrace(c, s, trace)
    ensures id in End(c, s, trace).events.lost <==> id in s.events.lost || SomewhereLost(c, s, trace, id)
    decreases |trace|
  {
    if trace != [] {
      LostIffRefusedOrDied(c, Next(c, s, trace[0]), trace[1..], id);
    }
  }

  /**
   Over every run: once no task holds it any more, an assignment's event has reached the bus if and only if none of
   the three failures ever hit it.
   */
  lemma PublishedIffNothingFailed(c: Config, s: Sys, trace: seq<Action>, a: Id)
    requires Initial(c, s) && IsTrace(c, s, trace)
    requires a in End(c, s, trace).db.tables.assignments && !IsHeld(LedgerOf(End(c, s, trace)), a)
    ensures OnBus(LedgerOf(End(c, s, trace)), a) <==> !SomewhereLost(c, s, trace, a)
  {
    EveryReachableState(c, s, trace);
    PublishedIffNotLost(LedgerOf(End(c, s, trace)), a);
    LostIffRefusedOrDied(c, s, trace, a);
  }
}
