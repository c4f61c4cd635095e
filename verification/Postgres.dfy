/**
 The database as the services see it: an object whose methods are their SQL. Other clients run between the
 awaits of a transaction; what they do, and which awaits fail, is handed in as a plan.
 */
module Postgres {
  import opened Model
  import opened Database
  import opened LockSoundness
  import opened Refinement

  /** What became of the request behind an await: done, not done, or done without the client hearing of it. */
  datatype Fate = Fine | Fails | ReplyLost

  /** One await: the steps of other clients that happen first, and its fate. */
  datatype Await = Await(others: seq<Step>, fate: Fate)

  datatype Failure = Failure

  /** What a client of the server is in the middle of: a transaction, an upsert that has its row, or nothing yet. */
  datatype Client = Transaction(txn: Id) | Upserting(driverId: Id) | NotYet

  /** A step of somebody else. */
  predicate IsForeign(who: Client, step: Step) {
    match step
    case InsertOrder(_, _, _) => true
    case LockDriver(_) => true
    case UpsertDriver(d, _, _, _) => who != Upserting(d)
    case UnlockDriver(d) => who != Upserting(d)
    case Begin(t, _, _) => who != Transaction(t)
    case Do(t, _) => who != Transaction(t)
    case Commit(t) => who != Transaction(t)
    case Abort(t) => who != Transaction(t)
  }

  /** What others must leave alone: the transaction itself, or the locked row. */
  ghost predicate Spared(who: Client, before: Db, after: Db) {
    match who
    case Transaction(t) =>
      (t in after.txns <==> t in before.txns) && (t in after.txns ==> after.txns[t] == before.txns[t])
    case Upserting(d) =>
      d in before.held ==>
        && d in after.held && (d in after.tables.drivers <==> d in before.tables.drivers)
        && (d in after.tables.drivers ==> after.tables.drivers[d] == before.tables.drivers[d])
    case NotYet => true
  }

  lemma {:induction false} RunAppend(c: Config, s: Db, run: seq<Step>, step: Step)
    requires IsRun(c, s, run) && Enabled(c, After(c, s, run), step)
    ensures IsRun(c, s, run + [step]) && After(c, s, run + [step]) == Apply(c, After(c, s, run), step)
    decreases |run|
  {
    if run == [] {
      assert IsRun(c, Apply(c, s, step), []);
      assert [step][1..] == [] && run + [step] == [step];
    } else {
      RunAppend(c, Apply(c, s, run[0]), run[1..], step);
      assert (run + [step])[1..] == run[1..] + [step];
    }
  }

  lemma {:induction false} RunSplit(c: Config, s: Db, before: seq<Step>, run: seq<Step>)
    requires before <= run && IsRun(c, s, run)
    ensures IsRun(c, s, before) && IsRun(c, After(c, s, before), run[|before|..])
    ensures After(c, After(c, s, before), run[|before|..]) == After(c, s, run)
    decreases |before|
  {
    if before != [] {
      assert before[1..] <= run[1..];
      RunSplit(c, Apply(c, s, run[0]), before[1..], run[1..]);
      assert run[1..][|before| - 1..] == run[|before|..];
    }
  }

  /** Whatever happens between two points of a log, rows of the earlier one are still there. */
  lemma TablesOnlyGrow(c: Config, before: seq<Step>, run: seq<Step>)
    requires before <= run && IsRun(c, EMPTY_DB, run)
    ensures IsRun(c, EMPTY_DB, before)
    ensures Extends(After(c, EMPTY_DB, before).tables, After(c, EMPTY_DB, run).tables)
  {
    RunSplit(c, EMPTY_DB, before, run);
    AssignmentsArePermanent(c, before, run[|before|..]);
  }

  lemma EmptyInv(c: Config)
    ensures DbInv(c, EMPTY_DB)
  {
  }

  lemma StepSpares(c: Config, s: Db, who: Client, step: Step)
    requires DbInv(c, s) && Enabled(c, s, step) && IsForeign(who, step)
    ensures Spared(who, s, Apply(c, s, step))
  {
    if who.Upserting? && step.Commit? {
      assert TxnInv(c, s.tables, s.txns[step.txn]);
      ChoiceIsLocked(c, s.tables, s.txns[step.txn]);
    }
  }

  lemma ForeignStepSpares(c: Config, run: seq<Step>, who: Client, step: Step)
    requires IsRun(c, EMPTY_DB, run) && Enabled(c, After(c, EMPTY_DB, run), step) && IsForeign(who, step)
    ensures IsRun(c, EMPTY_DB, run + [step])
    ensures Spared(who, After(c, EMPTY_DB, run), After(c, EMPTY_DB, run + [step]))
  {
    RunAppend(c, EMPTY_DB, run, step);
    EmptyInv(c);
    RunKeepsInv(c, EMPTY_DB, run);
    StepSpares(c, After(c, EMPTY_DB, run), who, step);
  }

  /** What a list of steps of others does: each that the locks allow happens, the rest are passed over. */
  function Undergo(c: Config, who: Client, s: Db, steps: seq<Step>): Db
    decreases |steps|
  {
    if steps == [] then s
    else
      var happens := IsForeign(who, steps[0]) && Enabled(c, s, steps[0]);
      Undergo(c, who, if happens then Apply(c, s, steps[0]) else s, steps[1..])
  }

  /** So a run of other clients, whatever it is, happens in full. */
  lemma {:induction false} ForeignRunHappens(c: Config, who: Client, s: Db, run: seq<Step>)
    requires IsRun(c, s, run) && forall k | 0 <= k < |run| :: IsForeign(who, run[k])
    ensures Undergo(c, who, s, run) == After(c, s, run)
    decreases |run|
  {
    if run != [] {
      assert IsForeign(who, run[0]);
      ForeignRunHappens(c, who, Apply(c, s, run[0]), run[1..]);
    }
  }

  class Server {
    const c: Config
    var orders: map<Id, Order>
    var drivers: map<Id, Driver>
    var assignments: map<Id, Assignment>
    var txns: map<Id, Txn>
    var held: set<Id>
    ghost var log: seq<Step>

    function Contents(): Db
      reads this
    {
      Db(Tables(orders, drivers, assignments), txns, held)
    }

    /** The contents are what the logged steps lead to: every valid server is in a reachable state. */
    ghost predicate Valid()
      reads this
    {
      IsRun(c, EMPTY_DB, log) && Contents() == After(c, EMPTY_DB, log)
    }

    constructor (c: Config)
      ensures Valid() && log == [] && this.c == c && Contents() == EMPTY_DB
    {
      this.c := c;
      orders, drivers, assignments, txns, held := map[], map[], map[], map[], {};
      log := [];
    }

    lemma Reachable()
      requires Valid()
      ensures DbInv(c, Contents())
    {
      EmptyInv(c);
      RunKeepsInv(c, EMPTY_DB, log);
    }

    method InsertOrder(o: Id, pickup: GeoPoint, dropoff: GeoPoint)
      requires Valid() && o !in orders
      modifies `orders, `log
      ensures Valid() && log == old(log) + [Step.InsertOrder(o, pickup, dropoff)]
      ensures orders == old(orders)[o := Order(pickup, dropoff, Pending)]
    {
      RunAppend(c, EMPTY_DB, log, Step.InsertOrder(o, pickup, dropoff));
      orders := orders[o := Order(pickup, dropoff, Pending)];
      log := log + [Step.InsertOrder(o, pickup, dropoff)];
    }

    method LockDriver(d: Id)
      requires Valid() && !DriverLocked(Contents(), d)
      modifies `held, `log
      ensures Valid() && log == old(log) + [Step.LockDriver(d)]
      ensures held == old(held) + {d}
    {
      RunAppend(c, EMPTY_DB, log, Step.LockDriver(d));
      held := held + {d};
      log := log + [Step.LockDriver(d)];
    }

    method UnlockDriver(d: Id)
      requires Valid() && d in held
      modifies `held, `log
      ensures Valid() && log == old(log) + [Step.UnlockDriver(d)]
      ensures held == old(held) - {d}
    {
      RunAppend(c, EMPTY_DB, log, Step.UnlockDriver(d));
      held := held - {d};
      log := log + [Step.UnlockDriver(d)];
    }

    /** The commit of an upsert: the row is written and its lock is gone. */
    method UpsertDriver(d: Id, name: string, location: GeoPoint, status: DriverStatus)
      requires Valid() && d in held
      modifies `drivers, `held, `log
      ensures held == old(held) - {d}
      ensures Valid() && log == old(log) + [Step.UpsertDriver(d, name, location, status)]
      ensures var kept := if d in old(drivers) then old(drivers)[d].name else name;
              drivers == old(drivers)[d := Driver(d, kept, location, status)]
    {
      RunAppend(c, EMPTY_DB, log, Step.UpsertDriver(d, name, location, status));
      var kept := if d in drivers then drivers[d].name else name;
      drivers := drivers[d := Driver(d, kept, location, status)];
      held := held - {d};
      log := log + [Step.UpsertDriver(d, name, location, status)];
    }

    method Begin(t: Id, orderId: Id, pickup: GeoPoint)
      requires Valid() && t !in txns
      modifies `txns, `log
      ensures Valid() && log == old(log) + [Step.Begin(t, orderId, pickup)]
      ensures txns == old(txns)[t := NewTxn(orderId, pickup)]
    {
      RunAppend(c, EMPTY_DB, log, Step.Begin(t, orderId, pickup));
      txns := txns[t := NewTxn(orderId, pickup)];
      log := log + [Step.Begin(t, orderId, pickup)];
    }

    method Statement(t: Id, stmt: Database.Statement)
      requires Valid() && Enabled(c, Contents(), Do(t, stmt))
      modifies `txns, `log
      ensures Valid() && log == old(log) + [Do(t, stmt)]
      ensures t in old(txns) && txns == old(txns)[t := Execute(c, old(Contents()).tables, old(txns)[t], stmt)]
    {
      RunAppend(c, EMPTY_DB, log, Do(t, stmt));
      txns := txns[t := Execute(c, Tables(orders, drivers, assignments), txns[t], stmt)];
      log := log + [Do(t, stmt)];
    }

    method Commit(t: Id)
      requires Valid() && t in txns && txns[t].phase.Recorded?
      modifies this
      ensures Valid() && log == old(log) + [Step.Commit(t)]
      ensures Contents() == Db(Overwrite(old(Contents()).tables, old(txns)[t].writes), old(txns) - {t}, old(held))
    {
      RunAppend(c, EMPTY_DB, log, Step.Commit(t));
      var w := txns[t].writes;
      orders := orders + w.orders;
      drivers := drivers + w.drivers;
      assignments := assignments + w.assignments;
      txns := txns - {t};
      log := log + [Step.Commit(t)];
    }

    method Abort(t: Id)
      requires Valid() && t in txns
      modifies `txns, `log
      ensures Valid() && log == old(log) + [Step.Abort(t)]
      ensures txns == old(txns) - {t}
    {
      RunAppend(c, EMPTY_DB, log, Step.Abort(t));
      txns := txns - {t};
      log := log + [Step.Abort(t)];
    }

    method Perform(step: Step)
      requires Valid() && Enabled(c, Contents(), step)
      modifies this
      ensures Valid() && log == old(log) + [step] && Contents() == Apply(c, old(Contents()), step)
    {
      match step
      case InsertOrder(o, pickup, dropoff) => InsertOrder(o, pickup, dropoff);
      case LockDriver(d) => LockDriver(d);
      case UpsertDriver(d, name, location, status) => UpsertDriver(d, name, location, status);
      case UnlockDriver(d) => UnlockDriver(d);
      case Begin(t, o, pickup) => Begin(t, o, pickup);
      case Do(t, stmt) => Statement(t, stmt);
      case Commit(t) => Commit(t);
      case Abort(t) => Abort(t);
    }

    /** Other clients: each of their steps that the locks allow happens, the others are passed over. */
    method Interfere(who: Client, steps: seq<Step>)
      requires Valid()
      modifies this
      ensures Valid() && old(log) <= log && (steps == [] ==> log == old(log))
      ensures Contents() == Undergo(c, who, old(Contents()), steps)
      ensures forall k | |old(log)| <= k < |log| :: IsForeign(who, log[k])
      ensures Spared(who, old(Contents()), Contents())
    {
      var i := 0;
      while i < |steps|
        invariant 0 <= i <= |steps|
        invariant Valid() && old(log) <= log && (i == 0 ==> log == old(log))
        invariant Undergo(c, who, Contents(), steps[i..]) == Undergo(c, who, old(Contents()), steps)
        invariant forall k | |old(log)| <= k < |log| :: IsForeign(who, log[k])
        invariant Spared(who, old(Contents()), Contents())
      {
        assert steps[i..][1..] == steps[i + 1..];
        if IsForeign(who, steps[i]) && Enabled(c, Db(Tables(orders, drivers, assignments), txns, held), steps[i]) {
          ForeignStepSpares(c, log, who, steps[i]);
          Perform(steps[i]);
        }
        i := i + 1;
      }
    }
  }
}
