/** The inductive invariant of the database machine: what locks, candidates and pending writes mean. */
module LockSoundness {
  import opened Model
  import opened Database
  import opened AtomicSpec

  /** Has this transaction claimed its order? */
  predicate HoldsOrder(x: Txn) {
    !x.phase.Begun? && !x.phase.Waiting? && !x.phase.NotClaimed?
  }

  /** A claimed order is locked, and still pending in the committed table. */
  ghost predicate ClaimIsLocked(t: Tables, x: Txn) {
    if HoldsOrder(x) then x.orderLocks == {x.orderId} && IsPending(t, x.orderId) else x.orderLocks == {}
  }

  ghost predicate RowIsLocked(t: Tables, x: Txn, row: Driver) {
    row.id in x.driverLocks && row.id in t.drivers && t.drivers[row.id] == row && row.status == Available
  }

  /** Every candidate is locked, unchanged since it was read and still available; no other driver is locked. */
  ghost predicate CandidatesAreLocked(t: Tables, x: Txn) {
    && (forall row | row in x.candidates :: RowIsLocked(t, x, row))
    && (forall d | d in x.driverLocks :: d in t.drivers && t.drivers[d] in x.candidates)
    && (!HoldsOrder(x) || x.phase.Claimed? ==> x.candidates == [])
  }

  /** The uncommitted writes are a function of the phase: nothing is written outside the locked rows. */
  ghost predicate WritesMatchPhase(c: Config, t: Tables, x: Txn) {
    && x.writes.orders == (if HoldsOrder(x) && x.orderId in t.orders
                           then map[x.orderId := t.orders[x.orderId].(status := Assigned)] else map[])
    && (if x.phase.Inserted? || x.phase.Recorded? then
          Choice(c, x).Ok? && x.writes.assignments == map[x.phase.assignmentId := InsertedRow(c, x)]
        else x.writes.assignments == map[])
    && (if x.phase.Recorded? && Choice(c, x).Ok? then
          x.writes.drivers == map[ChosenDriver(c, x) := Choice(c, x).value.0.(status := Busy)]
        else x.writes.drivers == map[])
    && x.writes.assignments.Keys !! t.assignments.Keys
  }

  ghost predicate TxnInv(c: Config, t: Tables, x: Txn) {
    ClaimIsLocked(t, x) && CandidatesAreLocked(t, x) && WritesMatchPhase(c, t, x)
  }

  /** Two open transactions share no row lock and no new assignment id. */
  ghost predicate Apart(x: Txn, y: Txn) {
    && x.orderLocks !! y.orderLocks
    && x.driverLocks !! y.driverLocks
    && x.writes.assignments.Keys !! y.writes.assignments.Keys
  }

  ghost predicate DbInv(c: Config, s: Db) {
    && (forall t | t in s.txns :: TxnInv(c, s.tables, s.txns[t]))
    && (forall t, u | t in s.txns && u in s.txns && t != u :: Apart(s.txns[t], s.txns[u]))
    && (forall t | t in s.txns :: s.txns[t].driverLocks !! s.held)
    && TablesInv(s.tables)
  }

  // --- One transaction

  /** The choice is one of the locked candidates, so its row is in the table and available. */
  lemma ChoiceIsLocked(c: Config, t: Tables, x: Txn)
    requires CandidatesAreLocked(t, x) && Choice(c, x).Ok?
    ensures RowIsLocked(t, x, Choice(c, x).value.0)
  {
  }

  lemma NoCandidatesNoLocks(t: Tables, x: Txn)
    requires CandidatesAreLocked(t, x) && x.candidates == []
    ensures x.driverLocks == {}
  {
    if d :| d in x.driverLocks {
      assert false;
    }
  }

  lemma ClaimKeepsTxnInv(c: Config, t: Tables, x: Txn)
    requires TxnInv(c, t, x) && (x.phase.Begun? || x.phase.Waiting?)
    ensures TxnInv(c, t, ClaimOrder(t, x))
  {
  }

  lemma VisitKeepsTxnInv(c: Config, t: Tables, x: Txn, d: Id, skip: bool)
    requires TxnInv(c, t, x) && x.phase.Scanning? && TablesInv(t)
    ensures TxnInv(c, t, VisitRow(t, x, d, skip))
  {
    var y := VisitRow(t, x, d, skip);
    forall row | row in y.candidates ensures RowIsLocked(t, y, row) {
      assert row in x.candidates ==> RowIsLocked(t, x, row);
    }
    assert y.candidates != x.candidates ==> y.candidates[|x.candidates|] == t.drivers[d];
    forall e | e in y.driverLocks ensures e in t.drivers && t.drivers[e] in y.candidates {
    }
  }

  lemma StatementKeepsTxnInv(c: Config, t: Tables, x: Txn, stmt: Statement)
    requires TxnInv(c, t, x) && TablesInv(t) && CanExecute(c, t, x, stmt)
    requires stmt.InsertAssignment? ==> stmt.assignmentId !in t.assignments
    ensures TxnInv(c, t, Execute(c, t, x, stmt))
  {
    match stmt
    case Claim => ClaimKeepsTxnInv(c, t, x);
    case ScanRow(d, skip) => VisitKeepsTxnInv(c, t, x, d, skip);
    case MarkBusy => ChoiceIsLocked(c, t, x);
    case _ =>
  }

  /** A transaction notices nothing of table changes that spare its locked rows and its assignment id. */
  lemma TableChangeKeepsTxnInv(c: Config, t: Tables, r: Tables, x: Txn)
    requires TxnInv(c, t, x)
    requires forall o | o in x.orderLocks && o in t.orders :: o in r.orders && r.orders[o] == t.orders[o]
    requires forall d | d in x.driverLocks && d in t.drivers :: d in r.drivers && r.drivers[d] == t.drivers[d]
    requires x.writes.assignments.Keys !! r.assignments.Keys
    ensures TxnInv(c, r, x)
  {
    forall row | row in x.candidates ensures RowIsLocked(r, x, row) {
      assert RowIsLocked(t, x, row);
    }
  }

  // --- All transactions together

  function AssignmentEvent(c: Config, x: Txn): Event
    requires x.phase.Recorded? && Choice(c, x).Ok?
  {
    OrderAssigned(x.phase.assignmentId, x.orderId, x.pickup, x.candidates, ChosenDriver(c, x), Choice(c, x).value.1)
  }

  lemma CommitIsLegal(c: Config, t: Tables, x: Txn)
    requires TxnInv(c, t, x) && x.phase.Recorded?
    ensures Choice(c, x).Ok? && Legal(c, t, AssignmentEvent(c, x))
  {
    ChoiceIsLocked(c, t, x);
    forall row | row in x.candidates
      ensures row.id in t.drivers && t.drivers[row.id] == row && row.status == Available
    {
      assert RowIsLocked(t, x, row);
    }
  }

  /** Committing a transaction that has recorded its assignment is the atomic assignment, enabled at that moment. */
  lemma CommitIsAssignment(c: Config, t: Tables, x: Txn)
    requires TxnInv(c, t, x) && x.phase.Recorded?
    ensures Choice(c, x).Ok? && Legal(c, t, AssignmentEvent(c, x))
    ensures Overwrite(t, x.writes) == Perform(t, AssignmentEvent(c, x))
  {
    CommitIsLegal(c, t, x);
    ChoiceIsLocked(c, t, x);
  }

  lemma StepKeepsTables(c: Config, s: Db, step: Step)
    requires DbInv(c, s) && Enabled(c, s, step)
    ensures TablesInv(Apply(c, s, step).tables)
  {
    match step
    case InsertOrder(o, p, q) => LegalKeepsTablesInv(c, s.tables, OrderCreated(o, p, q));
    case UpsertDriver(d, n, l, st) => LegalKeepsTablesInv(c, s.tables, DriverUpserted(d, n, l, st));
    case Commit(t) =>
      CommitIsAssignment(c, s.tables, s.txns[t]);
      LegalKeepsTablesInv(c, s.tables, AssignmentEvent(c, s.txns[t]));
    case _ =>
  }

  lemma StatementKeepsApart(c: Config, s: Db, t: Id, stmt: Statement, u: Id)
    requires Enabled(c, s, Do(t, stmt)) && u in s.txns && Apart(s.txns[t], s.txns[u])
    ensures Apart(Execute(c, s.tables, s.txns[t], stmt), s.txns[u])
  {
    var x, y := s.txns[t], s.txns[u];
    match stmt
    case Claim => assert IsPending(s.tables, x.orderId) ==> x.orderId !in y.orderLocks;
    case ScanRow(d, skip) => assert !skip ==> d !in y.driverLocks;
    case InsertAssignment(a) => assert a !in y.writes.assignments;
    case _ =>
  }

  lemma StepKeepsApart(c: Config, s: Db, step: Step, t: Id, u: Id)
    requires DbInv(c, s) && Enabled(c, s, step)
    requires t in Apply(c, s, step).txns && u in Apply(c, s, step).txns && t != u
    ensures Apart(Apply(c, s, step).txns[t], Apply(c, s, step).txns[u])
  {
    if t in s.txns && u in s.txns {
      assert Apart(s.txns[t], s.txns[u]) && Apart(s.txns[u], s.txns[t]);
      if step.Do? && step.txn == t {
        StatementKeepsApart(c, s, t, step.stmt, u);
      } else if step.Do? && step.txn == u {
        StatementKeepsApart(c, s, u, step.stmt, t);
      }
    }
  }

  /** A driver row is locked by at most one transaction or upsert. */
  lemma StepKeepsHeldApart(c: Config, s: Db, step: Step, t: Id)
    requires DbInv(c, s) && Enabled(c, s, step) && t in Apply(c, s, step).txns
    ensures Apply(c, s, step).txns[t].driverLocks !! Apply(c, s, step).held
  {
    assert t in s.txns ==> s.txns[t].driverLocks !! s.held;
    if step.LockDriver? {
      assert !LockedByTxn(s, step.driverId);
    }
  }

  lemma CommitSparesOthers(c: Config, s: Db, t: Id, u: Id)
    requires DbInv(c, s) && t in s.txns && u in s.txns && t != u && s.txns[t].phase.Recorded?
    ensures var w, x := s.txns[t].writes, s.txns[u];
            w.orders.Keys !! x.orderLocks && w.drivers.Keys !! x.driverLocks
                && w.assignments.Keys !! x.writes.assignments.Keys
  {
    assert Apart(s.txns[t], s.txns[u]);
    ChoiceIsLocked(c, s.tables, s.txns[t]);
  }

  lemma StepKeepsTxn(c: Config, s: Db, step: Step, u: Id)
    requires DbInv(c, s) && Enabled(c, s, step)
    requires u in Apply(c, s, step).txns
    ensures TxnInv(c, Apply(c, s, step).tables, Apply(c, s, step).txns[u])
  {
    var r := Apply(c, s, step);
    if step.Begin? && step.txn == u {
    } else if step.Do? && step.txn == u {
      StatementKeepsTxnInv(c, s.tables, s.txns[u], step.stmt);
    } else {
      if step.Commit? {
        CommitSparesOthers(c, s, step.txn, u);
      }
      TableChangeKeepsTxnInv(c, s.tables, r.tables, s.txns[u]);
    }
  }

  /** Lock soundness is inductive. */
  lemma StepKeepsInv(c: Config, s: Db, step: Step)
    requires DbInv(c, s) && Enabled(c, s, step)
    ensures DbInv(c, Apply(c, s, step))
  {
    var r := Apply(c, s, step);
    StepKeepsTables(c, s, step);
    forall t | t in r.txns ensures TxnInv(c, r.tables, r.txns[t]) {
      StepKeepsTxn(c, s, step, t);
    }
    forall t, u | t in r.txns && u in r.txns && t != u ensures Apart(r.txns[t], r.txns[u]) {
      StepKeepsApart(c, s, step, t, u);
    }
    forall t | t in r.txns ensures r.txns[t].driverLocks !! r.held {
      StepKeepsHeldApart(c, s, step, t);
    }
  }

  lemma {:induction false} RunKeepsInv(c: Config, s: Db, run: seq<Step>)
    requires DbInv(c, s) && IsRun(c, s, run)
    ensures DbInv(c, After(c, s, run))
    decreases |run|
  {
    if run != [] {
      StepKeepsInv(c, s, run[0]);
      RunKeepsInv(c, Apply(c, s, run[0]), run[1..]);
    }
  }

  // --- What the invariant says to a reader

  /**
   Candidates of different open transactions never coincide, and each is available, unchanged, until its transaction
   ends.
   */
  lemma CandidatesAreExclusive(c: Config, s: Db, t: Id, u: Id, row: Driver)
    requires DbInv(c, s) && t in s.txns && row in s.txns[t].candidates
    ensures row.id in s.tables.drivers && s.tables.drivers[row.id] == row && row.status == Available
    ensures LockedByTxn(s, row.id) && row.id !in s.held
    ensures u in s.txns && u != t ==> forall other | other in s.txns[u].candidates :: other.id != row.id
  {
    assert TxnInv(c, s.tables, s.txns[t]);
    assert RowIsLocked(s.tables, s.txns[t], row);
    if u in s.txns && u != t {
      assert Apart(s.txns[t], s.txns[u]);
      forall other | other in s.txns[u].candidates ensures other.id != row.id {
        assert RowIsLocked(s.tables, s.txns[u], other);
      }
    }
  }
}
