/**
 Whom SELECT .. FOR UPDATE SKIP LOCKED fetches while others run: every driver that stays free during the scan,
 and no driver that never is. So the chosen driver is no farther away than any driver that stayed free.
 */
module Scan {
  import opened Model
  import opened Wrappers
  import opened Geo
  import opened Database
  import opened LockSoundness

  predicate LockedByOther(s: Db, t: Id, d: Id) {
    d in s.held || exists u :: u in s.txns && u != t && d in s.txns[u].driverLocks
  }

  /**
   Driver `d` is there to be fetched by `t`: available, and locked neither by another transaction nor by an upsert.
   */
  predicate FreeFor(s: Db, t: Id, d: Id) {
    d in AvailableIds(s.tables) && !LockedByOther(s, t, d)
  }

  predicate IsScanning(s: Db, t: Id) {
    t in s.txns && s.txns[t].phase.Scanning?
  }

  /** In every state of the run in which `t` is scanning, `d` is free. Everybody else may run, too. */
  ghost predicate FreeDuringScan(c: Config, s: Db, run: seq<Step>, t: Id, d: Id)
    requires IsRun(c, s, run)
    decreases |run|
  {
    && (IsScanning(s, t) ==> FreeFor(s, t, d))
    && (run != [] ==> FreeDuringScan(c, Apply(c, s, run[0]), run[1..], t, d))
  }

  ghost predicate NeverFreeDuringScan(c: Config, s: Db, run: seq<Step>, t: Id, d: Id)
    requires IsRun(c, s, run)
    decreases |run|
  {
    && (IsScanning(s, t) ==> !FreeFor(s, t, d))
    && (run != [] ==> NeverFreeDuringScan(c, Apply(c, s, run[0]), run[1..], t, d))
  }

  predicate BeforeScan(x: Txn) {
    !HoldsOrder(x) || x.phase.Claimed?
  }

  predicate AfterScan(x: Txn) {
    x.phase.Selected? || x.phase.Inserted? || x.phase.Recorded?
  }

  /** The scan has not passed over `d`. */
  predicate Reaches(x: Txn, d: Id) {
    BeforeScan(x) || d in x.driverLocks || (x.phase.Scanning? && d in x.phase.remaining)
  }

  lemma VisitFetches(c: Config, s: Db, t: Id, e: Id, skip: bool, d: Id)
    requires Enabled(c, s, Do(t, ScanRow(e, skip))) && FreeFor(s, t, d) && Reaches(s.txns[t], d)
    ensures Reaches(VisitRow(s.tables, s.txns[t], e, skip), d)
  {
    if e == d && skip {
      var u :| u in s.txns && d in s.txns[u].driverLocks;
      assert u == t;
    }
  }

  lemma StepReaches(c: Config, s: Db, step: Step, t: Id, d: Id)
    requires Enabled(c, s, step) && (t in s.txns ==> Reaches(s.txns[t], d))
    requires IsScanning(s, t) ==> FreeFor(s, t, d)
    requires IsScanning(Apply(c, s, step), t) ==> FreeFor(Apply(c, s, step), t, d)
    ensures t in Apply(c, s, step).txns ==> Reaches(Apply(c, s, step).txns[t], d)
  {
    if step.Do? && step.txn == t && step.stmt.ScanRow? {
      VisitFetches(c, s, t, step.stmt.driverId, step.stmt.skip, d);
    }
  }

  /** Whatever others do, a driver that stays free while `t` scans is not passed over. */
  lemma {:induction false} FreeDriverIsReached(c: Config, s: Db, run: seq<Step>, t: Id, d: Id)
    requires IsRun(c, s, run) && FreeDuringScan(c, s, run, t, d) && (t in s.txns ==> Reaches(s.txns[t], d))
    ensures var r := After(c, s, run); t in r.txns ==> Reaches(r.txns[t], d)
    decreases |run|
  {
    if run != [] {
      StepReaches(c, s, run[0], t, d);
      FreeDriverIsReached(c, Apply(c, s, run[0]), run[1..], t, d);
    }
  }

  lemma LockedStepPassesOver(c: Config, s: Db, step: Step, t: Id, d: Id)
    requires Enabled(c, s, step) && (t in s.txns ==> d !in s.txns[t].driverLocks)
    requires IsScanning(s, t) ==> !FreeFor(s, t, d)
    ensures t in Apply(c, s, step).txns ==> d !in Apply(c, s, step).txns[t].driverLocks
  {
  }

  /** And a driver that is free at no moment of the scan is not fetched. */
  lemma {:induction false} LockedDriverIsPassedOver(c: Config, s: Db, run: seq<Step>, t: Id, d: Id)
    requires IsRun(c, s, run) && NeverFreeDuringScan(c, s, run, t, d) && (t in s.txns ==> d !in s.txns[t].driverLocks)
    ensures var r := After(c, s, run); t in r.txns ==> d !in r.txns[t].driverLocks
    decreases |run|
  {
    if run != [] {
      LockedStepPassesOver(c, s, run[0], t, d);
      LockedDriverIsPassedOver(c, Apply(c, s, run[0]), run[1..], t, d);
    }
  }

  /** A transaction has fetched what it has locked, and that was free and still is. */
  lemma FetchedIsFree(c: Config, s: Db, t: Id, d: Id)
    requires DbInv(c, s) && t in s.txns && d in s.txns[t].driverLocks
    ensures FreeFor(s, t, d) && s.tables.drivers[d] in s.txns[t].candidates
  {
    assert TxnInv(c, s.tables, s.txns[t]);
    assert RowIsLocked(s.tables, s.txns[t], s.tables.drivers[d]);
    forall u | u in s.txns && u != t ensures d !in s.txns[u].driverLocks {
      assert Apart(s.txns[t], s.txns[u]);
    }
  }

  /**
   The result of a scan among arbitrary other transactions and API writes. Every driver that stayed free is a
   candidate, with the row it has in the table now; no driver that never was free is one.
   */
  lemma ScanFetches(c: Config, s: Db, run: seq<Step>, t: Id, d: Id)
    requires DbInv(c, s) && IsRun(c, s, run) && (t in s.txns ==> BeforeScan(s.txns[t]))
    requires t in After(c, s, run).txns && AfterScan(After(c, s, run).txns[t])
    ensures var r := After(c, s, run);
            && (FreeDuringScan(c, s, run, t, d) ==>
                  d in r.tables.drivers && r.tables.drivers[d] in r.txns[t].candidates
                      && r.tables.drivers[d].status == Available)
            && (NeverFreeDuringScan(c, s, run, t, d) ==> forall row | row in r.txns[t].candidates :: row.id != d)
  {
    var r := After(c, s, run);
    RunKeepsInv(c, s, run);
    assert TxnInv(c, r.tables, r.txns[t]);
    if FreeDuringScan(c, s, run, t, d) {
      FreeDriverIsReached(c, s, run, t, d);
      FetchedIsFree(c, r, t, d);
    }
    if NeverFreeDuringScan(c, s, run, t, d) {
      if t in s.txns {
        assert TxnInv(c, s.tables, s.txns[t]);
        NoCandidatesNoLocks(s.tables, s.txns[t]);
      }
      LockedDriverIsPassedOver(c, s, run, t, d);
      assert forall row | row in r.txns[t].candidates :: RowIsLocked(r.tables, r.txns[t], row);
    }
  }

  /** No available driver at `place` would have been a better answer. */
  predicate BestAnswer(dist: Metric, pickup: GeoPoint, radiusKm: nat, answer: Result<Measured, CoreError>,
                       place: GeoPoint) {
    match answer
    case Ok(found) => !Precedes(dist(pickup, place), found.1)
    case Err(_) => !Le(dist(pickup, place), Num(radiusKm as real))
  }

  lemma AnswerBeats(dist: Metric, pickup: GeoPoint, candidates: seq<Driver>, radiusKm: nat, row: Driver)
    requires row in candidates && row.status == Available
    ensures BestAnswer(dist, pickup, radiusKm, NearestDriver(dist, pickup, candidates, radiusKm), row.location)
  {
    NearestDriverIsNearest(dist, pickup, candidates, radiusKm);
  }

  /**
   What the answer is worth: the chosen driver is no farther than any driver that stayed free during the scan,
   and when nobody is found, no driver that stayed free is in range.
   */
  lemma ChoiceBeatsFreeDrivers(c: Config, dist: Metric, radiusKm: nat, s: Db, run: seq<Step>, t: Id, d: Id)
    requires c.nearest == Matching(dist, radiusKm)
    requires DbInv(c, s) && IsRun(c, s, run) && (t in s.txns ==> BeforeScan(s.txns[t]))
    requires t in After(c, s, run).txns && AfterScan(After(c, s, run).txns[t])
    requires FreeDuringScan(c, s, run, t, d)
    ensures var r := After(c, s, run);
            && d in r.tables.drivers
            && BestAnswer(dist, r.txns[t].pickup, radiusKm, Choice(c, r.txns[t]), r.tables.drivers[d].location)
  {
    var r := After(c, s, run);
    ScanFetches(c, s, run, t, d);
    AnswerBeats(dist, r.txns[t].pickup, r.txns[t].candidates, radiusKm, r.tables.drivers[d]);
  }

  // --- With nobody else running

  predicate IsScanStep(t: Id, step: Step) {
    step.Do? && step.txn == t && (step.stmt.StartScan? || step.stmt.ScanRow? || step.stmt.EndScan?)
  }

  lemma ScanStepChangesNobody(c: Config, s: Db, t: Id, step: Step, d: Id)
    requires Enabled(c, s, step) && IsScanStep(t, step)
    ensures var r := Apply(c, s, step); t in r.txns && r.tables == s.tables && (FreeFor(r, t, d) <==> FreeFor(s, t, d))
  {
    var r := Apply(c, s, step);
    if u :| u in s.txns && u != t && d in s.txns[u].driverLocks {
      assert u in r.txns && d in r.txns[u].driverLocks;
    }
  }

  lemma {:induction false} QuietScanChangesNobody(c: Config, s: Db, t: Id, run: seq<Step>, d: Id)
    requires t in s.txns && IsRun(c, s, run) && (forall k | 0 <= k < |run| :: IsScanStep(t, run[k]))
    ensures var r := After(c, s, run); t in r.txns && r.tables == s.tables && (FreeFor(r, t, d) <==> FreeFor(s, t, d))
    ensures FreeFor(s, t, d) ==> FreeDuringScan(c, s, run, t, d)
    decreases |run|
  {
    if run != [] {
      assert IsScanStep(t, run[0]);
      ScanStepChangesNobody(c, s, t, run[0], d);
      QuietScanChangesNobody(c, Apply(c, s, run[0]), t, run[1..], d);
    }
  }

  /** A scan during which nobody else runs fetches a driver if and only if it was free at the start. */
  lemma UninterruptedScanFetches(c: Config, s: Db, t: Id, run: seq<Step>, d: Id)
    requires DbInv(c, s) && t in s.txns && BeforeScan(s.txns[t]) && IsRun(c, s, run)
    requires forall k | 0 <= k < |run| :: IsScanStep(t, run[k])
    ensures var r := After(c, s, run);
            && r.tables == s.tables && t in r.txns
            && (AfterScan(r.txns[t]) ==> (d in r.txns[t].driverLocks <==> FreeFor(s, t, d)))
  {
    var r := After(c, s, run);
    RunKeepsInv(c, s, run);
    QuietScanChangesNobody(c, s, t, run, d);
    if d in r.txns[t].driverLocks {
      FetchedIsFree(c, r, t, d);
    } else if FreeFor(s, t, d) {
      FreeDriverIsReached(c, s, run, t, d);
    }
  }

  /**
   So a transaction that scans while others hold every available driver fetches nobody: it does not get the
   next-nearest driver, it finds none.
   */
  lemma LoserFetchesNobody(c: Config, s: Db, run: seq<Step>, t: Id)
    requires DbInv(c, s) && IsRun(c, s, run) && (t in s.txns ==> BeforeScan(s.txns[t]))
    requires t in After(c, s, run).txns && AfterScan(After(c, s, run).txns[t])
    requires forall d :: NeverFreeDuringScan(c, s, run, t, d)
    ensures After(c, s, run).txns[t].candidates == []
  {
    var candidates := After(c, s, run).txns[t].candidates;
    if candidates != [] {
      ScanFetches(c, s, run, t, candidates[0].id);
    }
  }
}
