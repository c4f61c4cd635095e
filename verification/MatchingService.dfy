/** `assign_order` and the SQL functions it awaits, running against a server that others use at the same time. */
module MatchingService {
  import opened Model
  import opened Wrappers
  import opened Geo
  import opened Database
  import opened LockSoundness
  import opened Scan
  import opened Postgres
  import opened Serial

  /** From one log to a later one, transaction `t` has not committed; an empty plan means nobody else ran. */
  ghost predicate Quietly(t: Id, plan: seq<Await>, before: seq<Step>, after: seq<Step>) {
    && before <= after
    && (forall k | |before| <= k < |after| :: after[k] != Commit(t))
    && (plan == [] ==> forall k | |before| <= k < |after| :: !IsForeign(Transaction(t), after[k]))
  }

  predicate NobodyRuns(pg: Server)
    reads pg
  {
    pg.txns == map[] && pg.held == {}
  }

  /** Transaction `t` is open, and nothing else is under way. */
  predicate OnlyRuns(pg: Server, t: Id)
    reads pg
  {
    pg.txns.Keys == {t} && pg.held == {}
  }

  // --- Drivers that stay free

  /** Between two points of a log, driver `d` was free whenever `t` was scanning. */
  ghost predicate StayedFree(c: Config, before: seq<Step>, after: seq<Step>, t: Id, d: Id) {
    && before <= after && IsRun(c, EMPTY_DB, before) && IsRun(c, EMPTY_DB, after)
    && IsRun(c, After(c, EMPTY_DB, before), after[|before|..])
    && FreeDuringScan(c, After(c, EMPTY_DB, before), after[|before|..], t, d)
  }

  lemma {:induction false} FreedomSplits(c: Config, s: Db, part: seq<Step>, run: seq<Step>, t: Id, d: Id)
    requires part <= run && IsRun(c, s, run) && FreeDuringScan(c, s, run, t, d)
    ensures IsRun(c, s, part) && FreeDuringScan(c, s, part, t, d)
    ensures IsRun(c, After(c, s, part), run[|part|..]) && FreeDuringScan(c, After(c, s, part), run[|part|..], t, d)
    decreases |part|
  {
    if part != [] {
      assert part[1..] <= run[1..];
      FreedomSplits(c, Apply(c, s, run[0]), part[1..], run[1..], t, d);
      assert run[1..][|part| - 1..] == run[|part|..];
    }
  }

  lemma StayedFreeInParts(c: Config, before: seq<Step>, mid: seq<Step>, after: seq<Step>, t: Id)
    requires before <= mid <= after
    ensures forall d | StayedFree(c, before, after, t, d) ::
              StayedFree(c, before, mid, t, d) && StayedFree(c, mid, after, t, d)
  {
    forall d | StayedFree(c, before, after, t, d)
      ensures StayedFree(c, before, mid, t, d) && StayedFree(c, mid, after, t, d)
    {
      RunSplit(c, EMPTY_DB, mid, after);
      RunSplit(c, EMPTY_DB, before, mid);
      var part := mid[|before|..];
      FreedomSplits(c, After(c, EMPTY_DB, before), part, after[|before|..], t, d);
      assert after[|before|..][|part|..] == after[|mid|..];
    }
  }

  function IdsOf(rows: seq<Driver>): set<Id> {
    set row | row in rows :: row.id
  }

  /** A scan has fetched every driver that stayed free, whatever others did. */
  lemma ScanWasComplete(pg: Server, before: seq<Step>, t: Id)
    requires pg.Valid() && before <= pg.log && t in pg.txns && AfterScan(pg.txns[t])
    requires IsRun(pg.c, EMPTY_DB, before)
    requires t in After(pg.c, EMPTY_DB, before).txns ==> BeforeScan(After(pg.c, EMPTY_DB, before).txns[t])
    ensures forall d | StayedFree(pg.c, before, pg.log, t, d) :: d in IdsOf(pg.txns[t].candidates)
  {
    forall d | StayedFree(pg.c, before, pg.log, t, d) ensures d in IdsOf(pg.txns[t].candidates) {
      RunSplit(pg.c, EMPTY_DB, before, pg.log);
      EmptyInv(pg.c);
      RunKeepsInv(pg.c, EMPTY_DB, before);
      pg.Reachable();
      ScanFetches(pg.c, After(pg.c, EMPTY_DB, before), pg.log[|before|..], t, d);
    }
  }

  // --- Awaits

  /** Beyond the plan nobody else runs and nothing fails. */
  function FateAt(plan: seq<Await>, k: nat): Fate {
    if k < |plan| then plan[k].fate else Fine
  }

  function OthersAt(plan: seq<Await>, k: nat): seq<Step> {
    if k < |plan| then plan[k].others else []
  }

  ghost predicate AllFine(plan: seq<Await>, start: nat, end: nat) {
    forall k: nat | start <= k < end :: FateAt(plan, k) == Fine
  }

  lemma OneMoreFine(plan: seq<Await>, start: nat, end: nat)
    requires start <= end
    ensures AllFine(plan, start, end + 1) <==> AllFine(plan, start, end) && FateAt(plan, end) == Fine
  {
  }

  /** An await: others run, and then the request has its fate. */
  method Pause(pg: Server, t: Id, plan: seq<Await>, k: nat) returns (fate: Fate)
    requires pg.Valid()
    modifies pg
    ensures pg.Valid() && Quietly(t, plan, old(pg.log), pg.log)
    ensures pg.Contents() == Undergo(pg.c, Transaction(t), old(pg.Contents()), OthersAt(plan, k))
    ensures (t in pg.txns <==> t in old(pg.txns)) && (t in pg.txns ==> pg.txns[t] == old(pg.txns)[t])
    ensures fate == FateAt(plan, k)
    ensures plan == [] ==> pg.Contents() == old(pg.Contents())
  {
    if k < |plan| {
      pg.Interfere(Transaction(t), plan[k].others);
      fate := plan[k].fate;
    } else {
      fate := Fine;
    }
  }

  /** Has the claim not been made yet? */
  predicate BeforeClaim(pg: Server, t: Id, o: Id, pickup: GeoPoint)
    reads pg
  {
    && t in pg.txns
    && (pg.txns[t].phase.Begun? || pg.txns[t].phase.Waiting?)
    && pg.txns[t].orderId == o && pg.txns[t].pickup == pickup
  }

  lemma NobodyBlocksALoneClaim(pg: Server, t: Id)
    requires pg.Valid() && OnlyRuns(pg, t) && (pg.txns[t].phase.Begun? || pg.txns[t].phase.Waiting?)
    ensures forall o :: !OrderLocked(pg.Contents(), o)
    ensures forall d :: !DriverLocked(pg.Contents(), d)
  {
    pg.Reachable();
    assert TxnInv(pg.c, pg.Contents().tables, pg.txns[t]);
    NoCandidatesNoLocks(pg.Contents().tables, pg.txns[t]);
  }

  predicate RowTaken(s: Db, o: Id) {
    IsPending(s.tables, o) && OrderLocked(s, o)
  }

  function Blocked(s: Db, t: Id): Db {
    if t in s.txns then s.(txns := s.txns[t := s.txns[t].(phase := Waiting)]) else s
  }

  method BlockForRow(pg: Server, t: Id)
    requires pg.Valid() && t in pg.txns && (pg.txns[t].phase.Begun? || pg.txns[t].phase.Waiting?)
    requires RowTaken(pg.Contents(), pg.txns[t].orderId)
    modifies pg`txns, pg`log
    ensures pg.Valid() && pg.Contents() == Blocked(old(pg.Contents()), t)
    ensures pg.log == old(pg.log) || pg.log == old(pg.log) + [Do(t, Block)]
  {
    if pg.txns[t].phase.Begun? {
      pg.Statement(t, Block);
    }
  }

  /** The lock the transaction was waiting for is not its own. */
  method GiveUpClaim(pg: Server, t: Id, o: Id)
    requires pg.Valid() && t in pg.txns && (pg.txns[t].phase.Begun? || pg.txns[t].phase.Waiting?)
    modifies pg`txns, pg`log
    ensures pg.Valid() && t !in pg.txns && pg.log == old(pg.log) + [Abort(t)]
    ensures old(RowTaken(pg.Contents(), o)) ==> RowTaken(pg.Contents(), o)
  {
    pg.Reachable();
    assert TxnInv(pg.c, pg.Contents().tables, pg.txns[t]);
    ghost var before := pg.Contents();
    pg.Abort(t);
    if RowTaken(before, o) {
      var u :| u in before.txns && o in before.txns[u].orderLocks;
      assert u in pg.txns && o in pg.txns[u].orderLocks;
    }
  }

  /** The database after the awaits from `start` to `end`, with transaction `t` blocked in between. */
  function Waited(c: Config, s: Db, t: Id, plan: seq<Await>, start: nat, end: nat): Db
    requires start < end
    decreases end
  {
    var before := if end == start + 1 then s else Blocked(Waited(c, s, t, plan, start, end - 1), t);
    Undergo(c, Transaction(t), before, OthersAt(plan, end - 1))
  }

  /** The row was taken after each of these awaits but the last. */
  ghost predicate TakenUntil(c: Config, s: Db, t: Id, plan: seq<Await>, start: nat, end: nat, o: Id) {
    forall k: nat | start < k < end :: RowTaken(Waited(c, s, t, plan, start, k), o)
  }

  /** One more await with the row taken: the transaction blocks, and others go on. */
  method WaitOnce(pg: Server, t: Id, o: Id, pickup: GeoPoint, plan: seq<Await>, start: nat, k: nat, ghost s: Db)
    returns (fate: Fate)
    requires pg.Valid() && BeforeClaim(pg, t, o, pickup) && RowTaken(pg.Contents(), o) && start < k < |plan|
    requires pg.Contents() == Waited(pg.c, s, t, plan, start, k) && TakenUntil(pg.c, s, t, plan, start, k, o)
    modifies pg
    ensures pg.Valid() && Quietly(t, plan, old(pg.log), pg.log) && BeforeClaim(pg, t, o, pickup)
    ensures pg.Contents() == Waited(pg.c, s, t, plan, start, k + 1) && TakenUntil(pg.c, s, t, plan, start, k + 1, o)
    ensures fate == Fine <==> FateAt(plan, k) == Fine
  {
    BlockForRow(pg, t);
    fate := Pause(pg, t, plan, k);
  }

  /** Goes on waiting after the first await, which has had its fate. */
  method WaitForRow(pg: Server, t: Id, o: Id, pickup: GeoPoint, plan: seq<Await>, start: nat, first: Fate, ghost s: Db)
    returns (fate: Fate, k: nat)
    requires pg.Valid() && BeforeClaim(pg, t, o, pickup) && first == FateAt(plan, start)
    requires pg.Contents() == Waited(pg.c, s, t, plan, start, start + 1)
    modifies pg
    ensures pg.Valid() && Quietly(t, plan, old(pg.log), pg.log) && BeforeClaim(pg, t, o, pickup)
    ensures start < k && (plan == [] ==> k == start + 1)
    ensures pg.Contents() == Waited(pg.c, s, t, plan, start, k) && TakenUntil(pg.c, s, t, plan, start, k, o)
    ensures fate == Fine <==> AllFine(plan, start, k)
    ensures fate != Fine || !RowTaken(pg.Contents(), o) || |plan| <= k
  {
    fate, k := first, start + 1;
    while fate == Fine && RowTaken(pg.Contents(), o) && k < |plan|
      invariant pg.Valid() && Quietly(t, plan, old(pg.log), pg.log) && BeforeClaim(pg, t, o, pickup)
      invariant start < k && (plan == [] ==> k == start + 1)
      invariant pg.Contents() == Waited(pg.c, s, t, plan, start, k) && TakenUntil(pg.c, s, t, plan, start, k, o)
      invariant fate == Fine <==> AllFine(plan, start, k)
      decreases |plan| - k
    {
      fate := WaitOnce(pg, t, o, pickup, plan, start, k, s);
      OneMoreFine(plan, start, k);
      k := k + 1;
    }
  }

  /**
   The UPDATE that claims the order waits as long as another transaction has the row locked, and no longer. It
   ends with the row free, with a failure, or still waiting when the plan is over.
   */
  method AwaitOrderRow(pg: Server, t: Id, o: Id, pickup: GeoPoint, plan: seq<Await>, start: nat)
    returns (fate: Fate, k: nat)
    requires pg.Valid() && BeforeClaim(pg, t, o, pickup)
    modifies pg
    ensures pg.Valid() && Quietly(t, plan, old(pg.log), pg.log)
    ensures BeforeClaim(pg, t, o, pickup)
    ensures start < k && pg.Contents() == Waited(pg.c, old(pg.Contents()), t, plan, start, k)
    ensures TakenUntil(pg.c, old(pg.Contents()), t, plan, start, k, o)
    ensures fate == Fine ==> AllFine(plan, start, k) && !RowTaken(pg.Contents(), o)
    ensures fate != Fine ==> !AllFine(plan, start, k) || (|plan| <= k && RowTaken(pg.Contents(), o))
    ensures plan == [] && old(OnlyRuns(pg, t)) ==> fate == Fine && pg.Contents() == old(pg.Contents())
  {
    ghost var s := pg.Contents();
    var first := Pause(pg, t, plan, start);
    fate, k := WaitForRow(pg, t, o, pickup, plan, start, first, s);
    if OnlyRuns(pg, t) {
      NobodyBlocksALoneClaim(pg, t);
    }
    if fate == Fine && RowTaken(pg.Contents(), o) {
      fate := Fails;
    }
  }

  method ClaimOrderForAssignment(pg: Server, t: Id, o: Id, pickup: GeoPoint, plan: seq<Await>, start: nat)
    returns (r: Result<bool, Failure>, k: nat)
    requires pg.Valid() && BeforeClaim(pg, t, o, pickup)
    modifies pg
    ensures pg.Valid() && Quietly(t, plan, old(pg.log), pg.log)
    ensures r.Err? ==> t !in pg.txns
    ensures r.Err? ==> !AllFine(plan, start, k) || (|plan| <= k && RowTaken(pg.Contents(), o))
    ensures r.Ok? ==> start < k && AllFine(plan, start, k)
    ensures r.Ok? ==> t in pg.txns && pg.txns[t].orderId == o && pg.txns[t].pickup == pickup
    ensures r.Ok? ==> r.value == IsPending(pg.Contents().tables, o)
    ensures r.Ok? ==> pg.txns[t].phase == (if r.value then Claimed else NotClaimed)
    ensures plan == [] && old(OnlyRuns(pg, t)) ==>
              r.Ok? && pg.Contents().tables == old(pg.Contents()).tables && OnlyRuns(pg, t)
  {
    var fate;
    fate, k := AwaitOrderRow(pg, t, o, pickup, plan, start);
    if fate != Fine {
      GiveUpClaim(pg, t, o);
      return Err(Failure), k;
    }
    pg.Statement(t, Claim);
    r := Ok(pg.txns[t].phase.Claimed?);
  }

  method BeginTxn(pg: Server, t: Id, o: Id, pickup: GeoPoint, plan: seq<Await>) returns (ok: bool)
    requires pg.Valid() && t !in pg.txns
    modifies pg
    ensures pg.Valid() && Quietly(t, plan, old(pg.log), pg.log)
    ensures ok == (FateAt(plan, 0) == Fine)
    ensures if ok then BeforeClaim(pg, t, o, pickup) else t !in pg.txns
    ensures plan == [] ==>
              && ok && pg.Contents().tables == old(pg.Contents()).tables
              && pg.txns.Keys == old(pg.txns).Keys + {t} && pg.held == old(pg.held)
  {
    var fate := Pause(pg, t, plan, 0);
    ok := fate == Fine;
    if ok {
      pg.Begin(t, o, pickup);
    }
  }

  // --- SELECT .. WHERE status = 'available' FOR UPDATE SKIP LOCKED

  /** The scan of transaction `t` is under way, for order `o`. */
  predicate Scanned(pg: Server, t: Id, o: Id, pickup: GeoPoint)
    reads pg
  {
    t in pg.txns && pg.txns[t].phase.Scanning? && pg.txns[t].orderId == o && pg.txns[t].pickup == pickup
  }

  /** With nobody else running, a driver is available only if it is still to be visited or already fetched. */
  ghost predicate Covered(pg: Server, t: Id)
    requires t in pg.txns && pg.txns[t].phase.Scanning?
    reads pg
  {
    forall d | d in AvailableIds(pg.Contents().tables) ::
      d in pg.txns[t].phase.remaining || pg.drivers[d] in pg.txns[t].candidates
  }

  lemma LocksAreCandidates(pg: Server, t: Id, d: Id)
    requires pg.Valid() && OnlyRuns(pg, t) && DriverLocked(pg.Contents(), d)
    ensures d in pg.drivers && pg.drivers[d] in pg.txns[t].candidates
  {
    pg.Reachable();
    assert TxnInv(pg.c, pg.Contents().tables, pg.txns[t]);
  }

  method VisitNext(pg: Server, t: Id, o: Id, pickup: GeoPoint, d: Id, plan: seq<Await>, k: nat) returns (fate: Fate)
    requires pg.Valid() && Scanned(pg, t, o, pickup) && d in pg.txns[t].phase.remaining
    modifies pg
    ensures pg.Valid() && Quietly(t, plan, old(pg.log), pg.log) && Scanned(pg, t, o, pickup)
    ensures fate == FateAt(plan, k)
    ensures var w := Undergo(pg.c, Transaction(t), old(pg.Contents()), OthersAt(plan, k));
            && IsScanning(w, t)
            && pg.Contents() == w.(txns := w.txns[t := VisitRow(w.tables, w.txns[t], d, DriverLocked(w, d))])
    ensures pg.txns[t].phase.remaining == old(pg.txns)[t].phase.remaining - {d}
    ensures plan == [] && old(OnlyRuns(pg, t)) && old(Covered(pg, t)) ==>
              fate == Fine && pg.Contents().tables == old(pg.Contents()).tables && OnlyRuns(pg, t) && Covered(pg, t)
  {
    fate := Pause(pg, t, plan, k);
    var skip := DriverLocked(pg.Contents(), d);
    if skip && OnlyRuns(pg, t) {
      LocksAreCandidates(pg, t, d);
    }
    ghost var before := pg.txns[t].candidates;
    pg.Statement(t, ScanRow(d, skip));
    assert before <= pg.txns[t].candidates;
    assert pg.txns[t].candidates != before ==> pg.txns[t].candidates[|before|] == pg.drivers[d];
  }

  /** The rows of the scan, one by one and in any order, until none is left or one fails. */
  method FetchRows(pg: Server, t: Id, o: Id, pickup: GeoPoint, plan: seq<Await>, start: nat)
    returns (fate: Fate, k: nat)
    requires pg.Valid() && Scanned(pg, t, o, pickup)
    modifies pg
    ensures pg.Valid() && Quietly(t, plan, old(pg.log), pg.log) && Scanned(pg, t, o, pickup)
    ensures start <= k && (fate == Fine <==> AllFine(plan, start, k))
    ensures fate == Fine ==> pg.txns[t].phase.remaining == {}
    ensures plan == [] && old(OnlyRuns(pg, t)) && old(Covered(pg, t)) ==>
              fate == Fine && pg.Contents().tables == old(pg.Contents()).tables && OnlyRuns(pg, t) && Covered(pg, t)
  {
    fate, k := Fine, start;
    while fate == Fine && pg.txns[t].phase.remaining != {}
      invariant pg.Valid() && Quietly(t, plan, old(pg.log), pg.log) && Scanned(pg, t, o, pickup)
      invariant start <= k && (fate == Fine <==> AllFine(plan, start, k))
      invariant plan == [] && old(OnlyRuns(pg, t)) && old(Covered(pg, t)) ==>
                  fate == Fine && pg.Contents().tables == old(pg.Contents()).tables && OnlyRuns(pg, t) && Covered(pg, t)
      decreases if t in pg.txns && pg.txns[t].phase.Scanning? then pg.txns[t].phase.remaining else {}
    {
      var d :| d in pg.txns[t].phase.remaining;
      fate := VisitNext(pg, t, o, pickup, d, plan, k);
      k := k + 1;
    }
  }

  /** The start of the scan: the available rows of this moment are to be visited. */
  method OpenScan(pg: Server, t: Id, o: Id, pickup: GeoPoint, plan: seq<Await>, start: nat) returns (ok: bool)
    requires pg.Valid() && t in pg.txns && pg.txns[t].phase.Claimed? && pg.txns[t].orderId == o
              && pg.txns[t].pickup == pickup
    modifies pg
    ensures pg.Valid() && Quietly(t, plan, old(pg.log), pg.log)
    ensures ok == (FateAt(plan, start) == Fine)
    ensures if ok then Scanned(pg, t, o, pickup) && Covered(pg, t) else t !in pg.txns
    ensures plan == [] ==>
              && ok && pg.Contents().tables == old(pg.Contents()).tables
              && pg.txns.Keys == old(pg.txns).Keys && pg.held == old(pg.held)
  {
    var fate := Pause(pg, t, plan, start);
    ok := fate == Fine;
    if ok {
      pg.Statement(t, StartScan);
    } else {
      pg.Abort(t);
    }
  }

  /** Others may lock, move and free drivers all the while: every driver that stayed free comes back. */
  method AvailableDriversForUpdate(pg: Server, t: Id, o: Id, pickup: GeoPoint, plan: seq<Await>, start: nat)
    returns (r: Result<seq<Driver>, Failure>, k: nat)
    requires pg.Valid() && t in pg.txns && pg.txns[t].phase.Claimed? && pg.txns[t].orderId == o
              && pg.txns[t].pickup == pickup
    modifies pg
    ensures pg.Valid() && Quietly(t, plan, old(pg.log), pg.log)
    ensures start < k && (r.Ok? <==> AllFine(plan, start, k))
    ensures r.Err? ==> t !in pg.txns
    ensures r.Ok? ==> t in pg.txns && pg.txns[t].phase.Selected? && pg.txns[t].candidates == r.value
    ensures r.Ok? ==> pg.txns[t].orderId == o && pg.txns[t].pickup == pickup
    ensures r.Ok? ==> forall d | StayedFree(pg.c, old(pg.log), pg.log, t, d) :: d in IdsOf(r.value)
    ensures plan == [] && old(OnlyRuns(pg, t)) ==>
              && r.Ok? && pg.Contents().tables == old(pg.Contents()).tables && OnlyRuns(pg, t)
              && forall d | d in AvailableIds(pg.Contents().tables) :: pg.drivers[d] in r.value
  {
    var started := OpenScan(pg, t, o, pickup, plan, start);
    if !started {
      return Err(Failure), start + 1;
    }
    var fate;
    fate, k := FetchRows(pg, t, o, pickup, plan, start + 1);
    if fate != Fine {
      pg.Abort(t);
      return Err(Failure), k;
    }
    pg.Statement(t, EndScan);
    ScanWasComplete(pg, old(pg.log), t);
    r := Ok(pg.txns[t].candidates);
  }

  // --- INSERT INTO assignments, UPDATE drivers

  /** The transaction has its candidates and its choice among them. */
  predicate HasChosen(pg: Server, t: Id, o: Id, pickup: GeoPoint, candidates: seq<Driver>)
    reads pg
  {
    && t in pg.txns && Choice(pg.c, pg.txns[t]).Ok?
    && pg.txns[t].orderId == o && pg.txns[t].pickup == pickup && pg.txns[t].candidates == candidates
  }

  lemma AloneIdIsFresh(pg: Server, t: Id, a: Id)
    requires pg.Valid() && OnlyRuns(pg, t) && pg.txns[t].phase.Selected? && a !in pg.assignments
    ensures FreshAssignment(pg.Contents(), a)
  {
    pg.Reachable();
    assert TxnInv(pg.c, pg.Contents().tables, pg.txns[t]);
  }

  /** An id that is in use is in use by somebody else. */
  method GiveUpInsert(pg: Server, t: Id, a: Id)
    requires pg.Valid() && t in pg.txns && pg.txns[t].phase.Selected?
    modifies pg`txns, pg`log
    ensures pg.Valid() && t !in pg.txns && pg.log == old(pg.log) + [Abort(t)]
    ensures !old(FreshAssignment(pg.Contents(), a)) ==> !FreshAssignment(pg.Contents(), a)
  {
    pg.Reachable();
    assert TxnInv(pg.c, pg.Contents().tables, pg.txns[t]);
    ghost var before := pg.Contents();
    pg.Abort(t);
    if a !in pg.assignments && !FreshAssignment(before, a) {
      var u :| u in before.txns && a in before.txns[u].writes.assignments;
      assert u in pg.txns && a in pg.txns[u].writes.assignments;
    }
  }

  method InsertAssignmentRow(pg: Server, t: Id, o: Id, pickup: GeoPoint, candidates: seq<Driver>, a: Id,
                             plan: seq<Await>, k: nat)
    returns (ok: bool)
    requires pg.Valid() && HasChosen(pg, t, o, pickup, candidates) && pg.txns[t].phase.Selected?
    modifies pg
    ensures pg.Valid() && Quietly(t, plan, old(pg.log), pg.log)
    ensures if ok then HasChosen(pg, t, o, pickup, candidates) && pg.txns[t].phase == Inserted(a) else t !in pg.txns
    ensures if ok then FateAt(plan, k) == Fine else FateAt(plan, k) != Fine || !FreshAssignment(pg.Contents(), a)
    ensures plan == [] && old(OnlyRuns(pg, t)) && a !in old(pg.assignments) ==>
              ok && pg.Contents().tables == old(pg.Contents()).tables && OnlyRuns(pg, t)
  {
    var fate := Pause(pg, t, plan, k);
    if OnlyRuns(pg, t) && a !in pg.assignments {
      AloneIdIsFresh(pg, t, a);
    }
    ok := fate == Fine && FreshAssignment(pg.Contents(), a);
    if ok {
      pg.Statement(t, InsertAssignment(a));
    } else {
      GiveUpInsert(pg, t, a);
    }
  }

  lemma MarkBusyIsEnabled(pg: Server, t: Id)
    requires pg.Valid() && t in pg.txns && pg.txns[t].phase.Inserted?
    ensures Enabled(pg.c, pg.Contents(), Do(t, MarkBusy))
  {
    pg.Reachable();
    assert TxnInv(pg.c, pg.Contents().tables, pg.txns[t]);
    ChoiceIsLocked(pg.c, pg.Contents().tables, pg.txns[t]);
  }

  method MarkDriverBusy(pg: Server, t: Id, o: Id, pickup: GeoPoint, candidates: seq<Driver>, a: Id, plan: seq<Await>,
                        k: nat)
    returns (ok: bool)
    requires pg.Valid() && HasChosen(pg, t, o, pickup, candidates) && pg.txns[t].phase == Inserted(a)
    modifies pg
    ensures pg.Valid() && Quietly(t, plan, old(pg.log), pg.log)
    ensures ok == (FateAt(plan, k) == Fine)
    ensures if ok then HasChosen(pg, t, o, pickup, candidates) && pg.txns[t].phase == Recorded(a) else t !in pg.txns
    ensures plan == [] ==>
              && ok && pg.Contents().tables == old(pg.Contents()).tables
              && pg.txns.Keys == old(pg.txns).Keys && pg.held == old(pg.held)
  {
    var fate := Pause(pg, t, plan, k);
    ok := fate == Fine;
    if ok {
      MarkBusyIsEnabled(pg, t);
      pg.Statement(t, MarkBusy);
    } else {
      pg.Abort(t);
    }
  }

  method RecordAssignment(pg: Server, t: Id, o: Id, pickup: GeoPoint, candidates: seq<Driver>, a: Id,
                          plan: seq<Await>, start: nat)
    returns (r: Result<Id, Failure>, k: nat)
    requires pg.Valid() && HasChosen(pg, t, o, pickup, candidates) && pg.txns[t].phase.Selected?
    modifies pg
    ensures pg.Valid() && Quietly(t, plan, old(pg.log), pg.log)
    ensures k == start + 2
    ensures if r.Ok? then AllFine(plan, start, k) else !AllFine(plan, start, k) || !FreshAssignment(pg.Contents(), a)
    ensures r.Err? ==> t !in pg.txns
    ensures r.Ok? ==> r.value == a && HasChosen(pg, t, o, pickup, candidates) && pg.txns[t].phase == Recorded(a)
    ensures plan == [] && old(OnlyRuns(pg, t)) && a !in old(pg.assignments) ==>
              r.Ok? && pg.Contents().tables == old(pg.Contents()).tables && OnlyRuns(pg, t)
  {
    k := start + 2;
    var ok := InsertAssignmentRow(pg, t, o, pickup, candidates, a, plan, start);
    if ok {
      ok := MarkDriverBusy(pg, t, o, pickup, candidates, a, plan, start + 1);
    }
    r := if ok then Ok(a) else Err(Failure);
  }

  // --- The whole transaction

  /** The stored rows agree with the event: same ids, same distance, and the order is assigned. */
  ghost predicate HoldsEvent(pg: Server, e: DispatchAssigned)
    reads pg
  {
    && e.assignmentId in pg.assignments
    && pg.assignments[e.assignmentId] == Assignment(e.orderId, e.driverId, e.distance)
    && e.orderId in pg.orders && pg.orders[e.orderId].status == OrderStatus.Assigned
  }

  /** The outcome is the matcher's answer on these rows. */
  predicate AnswersFor(c: Config, pickup: GeoPoint, rows: seq<Driver>, outcome: AssignOutcome) {
    match outcome
    case Assigned(e) =>
      var found := (c.nearest)(pickup, rows);
      found.Ok? && found.value.0.id == e.driverId && found.value.1 == e.distance
    case NoDriverAvailable => (c.nearest)(pickup, rows).Err?
    case AlreadyHandled => true
  }

  /** The rows were available when the answer was given, and their drivers are where they were then. */
  ghost predicate StillThere(pg: Server, rows: seq<Driver>)
    reads pg
  {
    forall row | row in rows ::
        row.status == Available && row.id in pg.drivers && pg.drivers[row.id].location == row.location
  }

  /**
   What an outcome tells about a driver that stayed free during the scan: it is no nearer than the assigned one,
   and when no driver was available it is out of range.
   */
  lemma OutcomeIsJustified(dist: Metric, radiusKm: nat, pg: Server, pickup: GeoPoint, rows: seq<Driver>,
                           outcome: AssignOutcome, d: Id)
    requires pg.c.nearest == Matching(dist, radiusKm)
    requires AnswersFor(pg.c, pickup, rows, outcome) && StillThere(pg, rows) && d in IdsOf(rows)
    ensures d in pg.drivers
    ensures outcome.Assigned? ==> !Precedes(dist(pickup, pg.drivers[d].location), outcome.event.distance)
    ensures outcome.NoDriverAvailable? ==> !Le(dist(pickup, pg.drivers[d].location), Num(radiusKm as real))
  {
    var row :| row in rows && row.id == d;
    AnswerBeats(dist, pickup, rows, radiusKm, row);
  }

  lemma CommitIsAloneAssignment(pg: Server, t: Id)
    requires pg.Valid() && t in pg.txns && pg.txns[t].phase.Recorded? && Choice(pg.c, pg.txns[t]).Ok?
    ensures var x := pg.txns[t];
            var (d, distance) := (ChosenDriver(pg.c, x), Choice(pg.c, x).value.1);
            var event := DispatchAssigned(x.phase.assignmentId, x.orderId, d, distance);
            && (Overwrite(pg.Contents().tables, x.writes), AssignOutcome.Assigned(event))
               == AssignAlone(pg.c, pg.Contents().tables, x.orderId, x.pickup, x.phase.assignmentId, x.candidates)
            && x.orderId in pg.orders
  {
    pg.Reachable();
    assert TxnInv(pg.c, pg.Contents().tables, pg.txns[t]);
    CommitIsAssignment(pg.c, pg.Contents().tables, pg.txns[t]);
  }

  lemma CandidatesAreRows(pg: Server, t: Id)
    requires pg.Valid() && t in pg.txns
    ensures forall row | row in pg.txns[t].candidates ::
              row.id in pg.drivers && pg.drivers[row.id] == row && row.status == Available
  {
    pg.Reachable();
    assert TxnInv(pg.c, pg.Contents().tables, pg.txns[t]);
    forall row | row in pg.txns[t].candidates
      ensures row.id in pg.drivers && pg.drivers[row.id] == row && row.status == Available
    {
      assert RowIsLocked(pg.Contents().tables, pg.txns[t], row);
    }
  }

  /** COMMIT: it may take effect without the client hearing of it. */
  method CommitAssignment(pg: Server, t: Id, o: Id, pickup: GeoPoint, candidates: seq<Driver>, a: Id,
                          plan: seq<Await>, k: nat)
    returns (r: Result<DispatchAssigned, Failure>)
    requires pg.Valid() && HasChosen(pg, t, o, pickup, candidates) && pg.txns[t].phase == Recorded(a)
    modifies pg
    ensures pg.Valid() && old(pg.log) <= pg.log && t !in pg.txns
    ensures r.Ok? <==> FateAt(plan, k) == Fine
    ensures FateAt(plan, k) == Fails ==> Quietly(t, plan, old(pg.log), pg.log)
    ensures FateAt(plan, k) != Fails ==> a in pg.assignments && pg.assignments[a].orderId == o
    ensures r.Ok? ==> HoldsEvent(pg, r.value) && r.value.assignmentId == a && r.value.orderId == o
    ensures r.Ok? ==>
              && AnswersFor(pg.c, pickup, candidates, AssignOutcome.Assigned(r.value))
              && StillThere(pg, candidates)
    ensures r.Err? && (forall i | 0 <= i < |plan| :: plan[i].fate != ReplyLost) ==>
              Quietly(t, plan, old(pg.log), pg.log)
    ensures plan == [] ==>
              && r.Ok? && pg.txns == old(pg.txns) - {t} && pg.held == old(pg.held)
              && (pg.Contents().tables, AssignOutcome.Assigned(r.value))
                 == AssignAlone(pg.c, old(pg.Contents()).tables, o, pickup, a, candidates)
  {
    var event := DispatchAssigned(a, o, ChosenDriver(pg.c, pg.txns[t]), Choice(pg.c, pg.txns[t]).value.1);
    var fate := Pause(pg, t, plan, k);
    if fate == Fails {
      pg.Abort(t);
      return Err(Failure);
    }
    CommitIsAloneAssignment(pg, t);
    CandidatesAreRows(pg, t);
    pg.Commit(t);
    r := if fate == Fine then Ok(event) else Err(Failure);
  }

  method RollBack(pg: Server, t: Id, outcome: AssignOutcome, plan: seq<Await>, k: nat)
    returns (r: Result<AssignOutcome, Failure>)
    requires pg.Valid() && t in pg.txns
    modifies pg
    ensures pg.Valid() && Quietly(t, plan, old(pg.log), pg.log) && t !in pg.txns
    ensures r == if FateAt(plan, k) == Fine then Ok(outcome) else Err(Failure)
    ensures StillThere(pg, old(pg.txns)[t].candidates)
    ensures plan == [] ==>
              && r.Ok? && pg.Contents().tables == old(pg.Contents()).tables
              && pg.txns == old(pg.txns) - {t} && pg.held == old(pg.held)
  {
    var fate := Pause(pg, t, plan, k);
    CandidatesAreRows(pg, t);
    pg.Abort(t);
    r := if fate == Fine then Ok(outcome) else Err(Failure);
  }

  lemma OrderIsPending(pg: Server, t: Id)
    requires pg.Valid() && t in pg.txns && pg.txns[t].phase.Claimed?
    ensures IsPending(pg.Contents().tables, pg.txns[t].orderId)
  {
    pg.Reachable();
    assert TxnInv(pg.c, pg.Contents().tables, pg.txns[t]);
  }

  /** What is left of `assign_order` once the order is claimed. */
  method MatchClaimed(pg: Server, t: Id, o: Id, pickup: GeoPoint, a: Id, plan: seq<Await>, start: nat)
    returns (r: Result<AssignOutcome, Failure>, ghost rows: seq<Driver>, ghost end: nat)
    requires pg.Valid() && t in pg.txns && pg.txns[t].phase.Claimed? && pg.txns[t].orderId == o
              && pg.txns[t].pickup == pickup
    modifies pg
    ensures pg.Valid() && old(pg.log) <= pg.log && t !in pg.txns
    ensures r.Ok? && r.value.Assigned? ==> HoldsEvent(pg, r.value.event) && r.value.event.orderId == o
    ensures start <= end
    ensures r.Ok? ==> AllFine(plan, start, end)
    ensures r.Err? ==> !AllFine(plan, start, end) || !FreshAssignment(pg.Contents(), a)
    ensures r.Ok? ==> !r.value.AlreadyHandled? && AnswersFor(pg.c, pickup, rows, r.value) && StillThere(pg, rows)
    ensures r.Ok? ==> forall d | StayedFree(pg.c, old(pg.log), pg.log, t, d) :: d in IdsOf(rows)
    ensures (r.Ok? && !r.value.Assigned?) || (r.Err? && (forall i | 0 <= i < |plan| :: plan[i].fate != ReplyLost)) ==>
              Quietly(t, plan, old(pg.log), pg.log)
    ensures plan == [] && old(OnlyRuns(pg, t)) && a !in old(pg.assignments) ==>
              && r.Ok? && NobodyRuns(pg) && IsSelection(old(pg.Contents()).tables, rows)
              && (pg.Contents().tables, r.value) == AssignAlone(pg.c, old(pg.Contents()).tables, o, pickup, a, rows)
  {
    OrderIsPending(pg, t);
    var selected, k := AvailableDriversForUpdate(pg, t, o, pickup, plan, start);
    end := k;
    if selected.Err? {
      return Err(Failure), [], end;
    }
    var candidates := selected.value;
    rows := candidates;
    ghost var scanned := pg.log;
    CandidatesAreRows(pg, t);
    match (pg.c.nearest)(pickup, candidates)
    case Err(_) =>
      end := k + 1;
      r := RollBack(pg, t, NoDriverAvailable, plan, k);
      StayedFreeInParts(pg.c, old(pg.log), scanned, pg.log, t);
    case Ok(_) =>
      var recorded;
      recorded, k := RecordAssignment(pg, t, o, pickup, candidates, a, plan, k);
      end := k;
      if recorded.Err? {
        return Err(Failure), rows, end;
      }
      end := k + 1;
      var committed := CommitAssignment(pg, t, o, pickup, candidates, a, plan, k);
      StayedFreeInParts(pg.c, old(pg.log), scanned, pg.log, t);
      r := if committed.Ok? then Ok(AssignOutcome.Assigned(committed.value)) else Err(Failure);
  }

  lemma KnownOrderIsAssigned(pg: Server, before: seq<Step>, o: Id)
    requires pg.Valid() && before <= pg.log && !IsPending(pg.Contents().tables, o)
    ensures IsRun(pg.c, EMPTY_DB, before)
    ensures o in After(pg.c, EMPTY_DB, before).tables.orders ==>
              o in pg.orders && pg.orders[o].status == OrderStatus.Assigned
  {
    TablesOnlyGrow(pg.c, before, pg.log);
    pg.Reachable();
  }

  /** The order was not pending: roll back and report success. An order assigned now is assigned ever after. */
  method AcknowledgeHandled(pg: Server, t: Id, o: Id, plan: seq<Await>, k: nat)
    returns (r: Result<AssignOutcome, Failure>)
    requires pg.Valid() && t in pg.txns
    modifies pg
    ensures pg.Valid() && Quietly(t, plan, old(pg.log), pg.log) && t !in pg.txns
    ensures r == if FateAt(plan, k) == Fine then Ok(AlreadyHandled) else Err(Failure)
    ensures o in old(pg.orders) && old(pg.orders)[o].status == OrderStatus.Assigned ==>
              o in pg.orders && pg.orders[o].status == OrderStatus.Assigned
    ensures plan == [] ==>
              && r.Ok? && pg.Contents().tables == old(pg.Contents()).tables
              && pg.txns == old(pg.txns) - {t} && pg.held == old(pg.held)
  {
    r := RollBack(pg, t, AlreadyHandled, plan, k);
    TablesOnlyGrow(pg.c, old(pg.log), pg.log);
  }

  /**
   What an error may come from: one of the awaits that were made failed, the order's row was still locked when the
   plan was over, or somebody else uses the assignment's id.
   */
  ghost predicate IsExcused(pg: Server, plan: seq<Await>, awaits: nat, o: Id, a: Id)
    reads pg
  {
    || !AllFine(plan, 0, awaits)
    || (|plan| <= awaits && RowTaken(pg.Contents(), o))
    || !FreshAssignment(pg.Contents(), a)
  }

  /**
   `assign_order`, whatever others do meanwhile and wherever it fails. It always ends its transaction; an
   assignment it reports is in the tables; without a report of an assignment, and with no reply lost, it has
   not committed. The outcome is the matcher's answer on rows that include every driver that stayed free. With
   nobody else running it computes `AssignAlone`.
   */
  method AssignOrder(pg: Server, t: Id, o: Id, pickup: GeoPoint, a: Id, plan: seq<Await>)
    returns (r: Result<AssignOutcome, Failure>, ghost rows: seq<Driver>, ghost awaits: nat)
    requires pg.Valid() && t !in pg.txns
    modifies pg
    ensures pg.Valid() && old(pg.log) <= pg.log && t !in pg.txns
    ensures r.Ok? ==> AllFine(plan, 0, awaits)
    ensures r.Err? ==> IsExcused(pg, plan, awaits, o, a)
    ensures r.Ok? && r.value.Assigned? ==> HoldsEvent(pg, r.value.event) && r.value.event.orderId == o
    ensures r.Ok? && r.value.AlreadyHandled? && o in old(pg.orders) ==>
              o in pg.orders && pg.orders[o].status == OrderStatus.Assigned
    ensures r.Ok? ==> AnswersFor(pg.c, pickup, rows, r.value) && StillThere(pg, rows)
    ensures r.Ok? && !r.value.AlreadyHandled? ==>
              forall d | StayedFree(pg.c, old(pg.log), pg.log, t, d) :: d in IdsOf(rows)
    ensures (r.Ok? && !r.value.Assigned?) || (r.Err? && (forall i | 0 <= i < |plan| :: plan[i].fate != ReplyLost)) ==>
              Quietly(t, plan, old(pg.log), pg.log)
    ensures plan == [] && old(NobodyRuns(pg)) && a !in old(pg.assignments) ==>
              && r.Ok? && NobodyRuns(pg) && (r.value.AlreadyHandled? || IsSelection(old(pg.Contents()).tables, rows))
              && (pg.Contents().tables, r.value) == AssignAlone(pg.c, old(pg.Contents()).tables, o, pickup, a, rows)
  {
    rows, awaits := [], 1;
    var begun := BeginTxn(pg, t, o, pickup, plan);
    if !begun {
      return Err(Failure), rows, awaits;
    }
    var claimed, k := ClaimOrderForAssignment(pg, t, o, pickup, plan, 1);
    awaits := k;
    if claimed.Err? {
      return Err(Failure), rows, awaits;
    }
    if claimed.value {
      ghost var claimedAt := pg.log;
      r, rows, awaits := MatchClaimed(pg, t, o, pickup, a, plan, k);
      StayedFreeInParts(pg.c, old(pg.log), claimedAt, pg.log, t);
    } else {
      awaits := k + 1;
      KnownOrderIsAssigned(pg, old(pg.log), o);
      r := AcknowledgeHandled(pg, t, o, plan, k);
    }
  }
}
