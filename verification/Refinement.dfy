/** Every interleaving of transactions and API writes is, table by table, a history of the atomic specification. */
module Refinement {
  import opened Model
  import opened Database
  import opened AtomicSpec
  import opened LockSoundness

  /** What a step means to a reader of the committed tables: only API writes and commits mean anything. */
  function EventsOf(c: Config, s: Db, step: Step): seq<Event>
    requires Enabled(c, s, step)
  {
    match step
    case InsertOrder(o, pickup, dropoff) => [OrderCreated(o, pickup, dropoff)]
    case UpsertDriver(d, name, location, status) => [DriverUpserted(d, name, location, status)]
    case Commit(t) => if Choice(c, s.txns[t]).Ok? then [AssignmentEvent(c, s.txns[t])] else []
    case _ => []
  }

  ghost function History(c: Config, s: Db, run: seq<Step>): seq<Event>
    requires IsRun(c, s, run)
    decreases |run|
  {
    if run == [] then [] else EventsOf(c, s, run[0]) + History(c, Apply(c, s, run[0]), run[1..])
  }

  lemma StepRefines(c: Config, s: Db, step: Step)
    requires DbInv(c, s) && Enabled(c, s, step)
    ensures IsHistory(c, s.tables, EventsOf(c, s, step))
    ensures Outcome(c, s.tables, EventsOf(c, s, step)) == Apply(c, s, step).tables
  {
    var es := EventsOf(c, s, step);
    if step.Commit? {
      CommitIsAssignment(c, s.tables, s.txns[step.txn]);
    }
    if es != [] {
      assert es == [es[0]] && es[1..] == [];
      assert Legal(c, s.tables, es[0]);
      assert IsHistory(c, Perform(s.tables, es[0]), es[1..]);
    }
  }

  /** Refinement: the tables after any run are the outcome of its history, and that history is a legal one. */
  lemma {:induction false} RunRefinesSpec(c: Config, s: Db, run: seq<Step>)
    requires DbInv(c, s) && IsRun(c, s, run)
    ensures IsHistory(c, s.tables, History(c, s, run))
    ensures Outcome(c, s.tables, History(c, s, run)) == After(c, s, run).tables
    decreases |run|
  {
    if run != [] {
      var r := Apply(c, s, run[0]);
      StepRefines(c, s, run[0]);
      StepKeepsInv(c, s, run[0]);
      RunRefinesSpec(c, r, run[1..]);
      HistoryConcat(c, s.tables, EventsOf(c, s, run[0]), History(c, r, run[1..]));
    }
  }

  // --- Histories

  /** Assignments are only ever added, an assigned order stays assigned, and orders and drivers stay who they are. */
  ghost predicate Extends(t: Tables, r: Tables) {
    && (forall a | a in t.assignments :: a in r.assignments && r.assignments[a] == t.assignments[a])
    && (forall o | o in t.orders ::
          && o in r.orders && r.orders[o].pickup == t.orders[o].pickup && r.orders[o].dropoff == t.orders[o].dropoff
          && (t.orders[o].status == Assigned ==> r.orders[o].status == Assigned))
    && (forall d | d in t.drivers :: d in r.drivers && r.drivers[d].name == t.drivers[d].name)
  }

  lemma EventExtends(c: Config, t: Tables, e: Event)
    requires Legal(c, t, e)
    ensures Extends(t, Perform(t, e))
  {
  }

  lemma {:induction false} HistoryExtends(c: Config, t: Tables, es: seq<Event>)
    requires IsHistory(c, t, es)
    ensures Extends(t, Outcome(c, t, es))
    decreases |es|
  {
    if es != [] {
      var r := Perform(t, es[0]);
      EventExtends(c, t, es[0]);
      HistoryExtends(c, r, es[1..]);
    }
  }

  /**
   Status never goes back, assignment rows never change, and the correspondence is one to one in every reachable
   state.
   */
  lemma AssignmentsArePermanent(c: Config, before: seq<Step>, after: seq<Step>)
    requires IsRun(c, EMPTY_DB, before) && IsRun(c, After(c, EMPTY_DB, before), after)
    ensures var s := After(c, EMPTY_DB, before);
            TablesInv(s.tables) && Extends(s.tables, After(c, s, after).tables)
  {
    var s := After(c, EMPTY_DB, before);
    RunKeepsInv(c, EMPTY_DB, before);
    RunRefinesSpec(c, s, after);
    HistoryExtends(c, s.tables, History(c, s, after));
  }

  predicate Assigns(e: Event, d: Id) {
    e.OrderAssigned? && e.driverId == d
  }

  predicate MakesAvailable(e: Event, d: Id) {
    e.DriverUpserted? && e.driverId == d && e.status == Available
  }

  function AvailableOnce(t: Tables, d: Id): nat {
    if d in AvailableIds(t) then 1 else 0
  }

  function Assignments(es: seq<Event>, d: Id): nat {
    if es == [] then 0 else (if Assigns(es[0], d) then 1 else 0) + Assignments(es[1..], d)
  }

  function Resets(es: seq<Event>, d: Id): nat {
    if es == [] then 0 else (if MakesAvailable(es[0], d) then 1 else 0) + Resets(es[1..], d)
  }

  /** A driver is assigned at most as often as the API made it available. */
  lemma {:induction false} AssignmentsNeedResets(c: Config, t: Tables, es: seq<Event>, d: Id)
    requires IsHistory(c, t, es)
    ensures Assignments(es, d) + AvailableOnce(Outcome(c, t, es), d) <= Resets(es, d) + AvailableOnce(t, d)
    decreases |es|
  {
    if es != [] {
      AssignmentsNeedResets(c, Perform(t, es[0]), es[1..], d);
      if es[0].OrderAssigned? {
        assert t.drivers[es[0].driverId] in es[0].candidates;
      }
    }
  }

  lemma {:induction false} UnavailableUntilReset(c: Config, t: Tables, es: seq<Event>, d: Id)
    requires IsHistory(c, t, es) && d !in AvailableIds(t)
    requires forall k | 0 <= k < |es| :: !MakesAvailable(es[k], d)
    ensures d !in AvailableIds(Outcome(c, t, es))
    decreases |es|
  {
    if es != [] {
      assert !MakesAvailable(es[0], d);
      forall k | 0 <= k < |es[1..]| ensures !MakesAvailable(es[1..][k], d) {
        assert es[1..][k] == es[k + 1];
      }
      UnavailableUntilReset(c, Perform(t, es[0]), es[1..], d);
    }
  }

  /** Between two assignments of one driver there is an upsert that made it available again. */
  lemma SecondAssignmentNeedsReset(c: Config, t: Tables, es: seq<Event>, d: Id, i: nat, j: nat)
    requires IsHistory(c, t, es) && i < j < |es| && Assigns(es[i], d) && Assigns(es[j], d)
    ensures exists k :: i < k < j && MakesAvailable(es[k], d)
  {
    HistorySplit(c, t, es, i);
    var t1 := Perform(Outcome(c, t, es[..i]), es[i]);
    var rest := es[i..][1..];
    assert d !in AvailableIds(t1);
    var n := j - i - 1;
    HistorySplit(c, t1, rest, n);
    assert rest[n..][0] == es[j];
    var t2 := Outcome(c, t1, rest[..n]);
    assert t2.drivers[d] in es[j].candidates;
    assert d in AvailableIds(t2);
    if forall k | 0 <= k < n :: !MakesAvailable(rest[..n][k], d) {
      UnavailableUntilReset(c, t1, rest[..n], d);
    } else {
      var k :| 0 <= k < n && MakesAvailable(rest[..n][k], d);
      assert es[i + 1 + k] == rest[..n][k];
    }
  }
}
