/** Deadlock freedom: whoever waits holds nothing, and whoever is waited for can move. */
module Progress {
  import opened FiniteSets
  import opened Model
  import opened Database
  import opened LockSoundness

  predicate WaitsFor(s: Db, t: Id, u: Id) {
    && t in s.txns && u in s.txns && t != u
    && (s.txns[t].phase.Begun? || s.txns[t].phase.Waiting?)
    && IsPending(s.tables, s.txns[t].orderId)
    && s.txns[t].orderId in s.txns[u].orderLocks
  }

  /** The rollback that the code itself asks for: the order was not pending, or nobody is in range. */
  predicate RollsBack(c: Config, x: Txn) {
    x.phase.NotClaimed? || (x.phase.Selected? && Choice(c, x).Err?)
  }

  /** A step of transaction `t` that brings `assign_order` closer to its end. */
  predicate Moves(c: Config, s: Db, t: Id, step: Step) {
    && Enabled(c, s, step)
    && match step
       case Do(u, stmt) => u == t && !stmt.Block?
       case Commit(u) => u == t
       case Abort(u) => u == t && RollsBack(c, s.txns[t])
       case _ => false
  }

  lemma FreshAssignmentExists(s: Db) returns (a: Id)
    ensures FreshAssignment(s, a)
  {
    var pending := set t, b | t in s.txns && b in s.txns[t].writes.assignments :: b;
    a := FreshIdExists(s.tables.assignments.Keys + pending);
    forall t | t in s.txns ensures a !in s.txns[t].writes.assignments {
      assert forall b | b in s.txns[t].writes.assignments :: b in pending;
    }
  }

  /**
   A transaction that waits holds no row lock, and the one it waits for does not wait: no chain is longer than one.
   */
  lemma WaitersHoldNothing(c: Config, s: Db, t: Id, u: Id)
    requires DbInv(c, s) && WaitsFor(s, t, u)
    ensures s.txns[t].orderLocks == {} && s.txns[t].driverLocks == {}
    ensures HoldsOrder(s.txns[u])
    ensures forall v :: !WaitsFor(s, u, v) && !WaitsFor(s, v, t)
  {
    assert TxnInv(c, s.tables, s.txns[t]) && TxnInv(c, s.tables, s.txns[u]);
    NoCandidatesNoLocks(s.tables, s.txns[t]);
  }

  /** Once the order is claimed nothing can block the transaction again. */
  lemma HoldersMove(c: Config, s: Db, t: Id)
    requires DbInv(c, s) && t in s.txns && HoldsOrder(s.txns[t])
    ensures exists step :: Moves(c, s, t, step)
  {
    var x := s.txns[t];
    assert TxnInv(c, s.tables, x);
    match x.phase
    case Claimed => assert Moves(c, s, t, Do(t, StartScan));
    case Scanning(remaining) =>
      if remaining == {} {
        assert Moves(c, s, t, Do(t, EndScan));
      } else {
        var d :| d in remaining;
        assert Moves(c, s, t, Do(t, ScanRow(d, DriverLocked(s, d))));
      }
    case Selected =>
      if Choice(c, x).Ok? {
        var a := FreshAssignmentExists(s);
        assert Moves(c, s, t, Do(t, InsertAssignment(a)));
      } else {
        assert Moves(c, s, t, Abort(t));
      }
    case Inserted(_) =>
      ChoiceIsLocked(c, s.tables, x);
      assert Moves(c, s, t, Do(t, MarkBusy));
    case Recorded(_) => assert Moves(c, s, t, Commit(t));
  }

  /** Every open transaction can move, or waits for one that can. */
  lemma MovesOrWaits(c: Config, s: Db, t: Id)
    requires DbInv(c, s) && t in s.txns
    ensures (exists step :: Moves(c, s, t, step))
         || (exists u, step :: WaitsFor(s, t, u) && Moves(c, s, u, step))
  {
    var x := s.txns[t];
    assert TxnInv(c, s.tables, x);
    if HoldsOrder(x) {
      HoldersMove(c, s, t);
    } else if x.phase.NotClaimed? {
      assert Moves(c, s, t, Abort(t));
    } else if IsPending(s.tables, x.orderId) && OrderLocked(s, x.orderId) {
      var u :| u in s.txns && x.orderId in s.txns[u].orderLocks;
      assert WaitsFor(s, t, u);
      WaitersHoldNothing(c, s, t, u);
      HoldersMove(c, s, u);
      var step :| Moves(c, s, u, step);
      assert WaitsFor(s, t, u) && Moves(c, s, u, step);
    } else {
      assert Moves(c, s, t, Do(t, Claim));
    }
  }

  /** So the database is never stuck: while a transaction is open, an open transaction can move. */
  lemma NoDeadlock(c: Config, s: Db)
    requires DbInv(c, s) && s.txns != map[]
    ensures exists t, step :: t in s.txns && Moves(c, s, t, step)
  {
    var t :| t in s.txns;
    MovesOrWaits(c, s, t);
    if !exists step :: Moves(c, s, t, step) {
      var u, step :| WaitsFor(s, t, u) && Moves(c, s, u, step);
      assert u in s.txns;
    }
  }

  /**
   An API upsert that finds its driver row locked waits for a transaction that can move, or for another upsert
   that can commit.
   */
  lemma UpsertsWaitForMovers(c: Config, s: Db, d: Id)
    requires DbInv(c, s) && DriverLocked(s, d)
    ensures if d in s.held
            then forall name, location, status ::
                   && Enabled(c, s, UpsertDriver(d, name, location, status))
                   && !DriverLocked(Apply(c, s, UpsertDriver(d, name, location, status)), d)
            else exists t, step :: t in s.txns && d in s.txns[t].driverLocks && Moves(c, s, t, step)
  {
    if d in s.held {
      return;
    }
    var t :| t in s.txns && d in s.txns[t].driverLocks;
    assert TxnInv(c, s.tables, s.txns[t]);
    assert s.tables.drivers[d] in s.txns[t].candidates;
    HoldersMove(c, s, t);
    var step :| Moves(c, s, t, step);
    assert t in s.txns && d in s.txns[t].driverLocks && Moves(c, s, t, step);
  }
}
