/** The handlers of `dispatch-api` that write: they validate, run one statement, and announce an order afterwards. */
module ApiService {
  import opened Model
  import opened Wrappers
  import opened Database
  import opened Pipeline
  import opened Postgres
  import opened Worker

  datatype ApiError = BadRequest(error: CoreError) | DatabaseError

  /**
   `create_order`. Invalid coordinates change nothing. Once the row is stored the request succeeds whatever
   becomes of the message; no message is ever sent for an order that is not stored.
   */
  method CreateOrder(pg: Server, queue: OrderQueue, pickupLat: F64, pickupLon: F64, dropoffLat: F64, dropoffLon: F64,
                     o: Id, inserted: Fate, sent: Fate)
    returns (r: Result<Id, ApiError>, m: Id)
    requires pg.Valid() && o !in pg.orders
    modifies pg`orders, pg`log, queue
    ensures pg.Valid() && old(pg.log) <= pg.log
    ensures var pickup, dropoff := GeoPoint(pickupLat, pickupLon), GeoPoint(dropoffLat, dropoffLon);
            && (r.Err? && r.error.BadRequest? <==> !ValidPoint(pickup) || !ValidPoint(dropoff))
            && (r.Err? && r.error.BadRequest? ==>
                pg.log == old(pg.log) && pg.orders == old(pg.orders) && queue.messages == old(queue.messages))
            && (r.Err? && r.error.BadRequest? ==>
                  r.error.error == if ValidPoint(pickup)
                                   then InvalidCoordinate(dropoffLat, dropoffLon)
                                   else InvalidCoordinate(pickupLat, pickupLon))
            && (r.Err? ==> queue.messages == old(queue.messages))
            && (r == Err(DatabaseError) ==>
                  pg.orders == if inserted == Fails
                               then old(pg.orders)
                               else old(pg.orders)[o := Order(pickup, dropoff, Pending)])
            && (r.Ok? ==> r.value == o && pg.orders == old(pg.orders)[o := Order(pickup, dropoff, Pending)])
            && (r.Ok? ==> pg.log == old(pg.log) + [InsertOrder(o, pickup, dropoff)])
            && (r.Ok? ==>
                  queue.messages == if sent == Fails
                                    then old(queue.messages)
                                    else old(queue.messages)[m := Message(o, pickup, 0, true)])
            && (r.Ok? ==> m !in old(queue.messages) && m !in old(queue.used))
            && (ValidPoint(pickup) && ValidPoint(dropoff) ==> (r.Ok? <==> inserted == Fine))
  {
    var pickup := NewGeoPoint(pickupLat, pickupLon);
    if pickup.Err? {
      return Err(BadRequest(pickup.error)), 0;
    }
    var dropoff := NewGeoPoint(dropoffLat, dropoffLon);
    if dropoff.Err? {
      return Err(BadRequest(dropoff.error)), 0;
    }
    if inserted != Fails {
      pg.InsertOrder(o, pickup.value, dropoff.value);
    }
    if inserted != Fine {
      return Err(DatabaseError), 0;
    }
    var told;
    told, m := queue.Send(o, pickup.value, sent);
    r := Ok(o);
  }

  /** A known driver keeps its name. */
  function NameAfter(known: map<Id, Driver>, d: Id, name: string): string {
    if d in known then known[d].name else name
  }

  /** The database after others have run through these lists of steps, one list after the other. */
  function AfterWaits(c: Config, s: Db, waits: seq<seq<Step>>): Db
    decreases |waits|
  {
    if waits == [] then s
    else Undergo(c, NotYet, AfterWaits(c, s, waits[..|waits| - 1]), waits[|waits| - 1])
  }

  /** The first moment at which the row is free, or the end. */
  ghost predicate IsFirstFree(c: Config, s: Db, d: Id, waits: seq<seq<Step>>, n: nat) {
    && n <= |waits|
    && (forall k: nat | k < n :: DriverLocked(AfterWaits(c, s, waits[..k]), d))
    && (n < |waits| ==> !DriverLocked(AfterWaits(c, s, waits[..n]), d))
  }

  /** The row is free at some moment of the wait. */
  ghost predicate GetsRow(c: Config, s: Db, d: Id, waits: seq<seq<Step>>) {
    exists n: nat :: n <= |waits| && !DriverLocked(AfterWaits(c, s, waits[..n]), d)
  }

  /** What an upsert that has the row free in `s` leaves behind. */
  function AfterUpsert(c: Config, s: Db, d: Id, name: string, location: GeoPoint, status: DriverStatus,
                       meanwhile: seq<Step>, fate: Fate): Db
  {
    var r := Undergo(c, Upserting(d), s.(held := s.held + {d}), meanwhile);
    if fate == Fails then r.(held := r.held - {d})
    else r.(tables := UpsertDriverRow(r.tables, d, name, location, status), held := r.held - {d})
  }

  /** Waits until the row is free, and no longer. Other clients run meanwhile. */
  method AwaitDriverRow(pg: Server, d: Id, waits: seq<seq<Step>>) returns (free: bool, ghost n: nat)
    requires pg.Valid()
    modifies pg
    ensures pg.Valid() && old(pg.log) <= pg.log
    ensures IsFirstFree(pg.c, old(pg.Contents()), d, waits, n)
    ensures pg.Contents() == AfterWaits(pg.c, old(pg.Contents()), waits[..n])
    ensures free == !DriverLocked(pg.Contents(), d) && (free <==> GetsRow(pg.c, old(pg.Contents()), d, waits))
  {
    var i := 0;
    assert waits[..0] == [];
    while DriverLocked(pg.Contents(), d) && i < |waits|
      invariant 0 <= i <= |waits| && pg.Valid() && old(pg.log) <= pg.log
      invariant pg.Contents() == AfterWaits(pg.c, old(pg.Contents()), waits[..i])
      invariant forall k: nat | k < i :: DriverLocked(AfterWaits(pg.c, old(pg.Contents()), waits[..k]), d)
    {
      assert waits[..i + 1][..i] == waits[..i];
      pg.Interfere(NotYet, waits[i]);
      i := i + 1;
    }
    free, n := !DriverLocked(pg.Contents(), d), i;
  }

  /** With the row free: lock it, let others run, and commit or fail. */
  method HoldAndPut(pg: Server, d: Id, name: string, location: GeoPoint, status: DriverStatus, meanwhile: seq<Step>,
                    fate: Fate)
    returns (done: bool)
    requires pg.Valid() && !DriverLocked(pg.Contents(), d)
    modifies pg
    ensures pg.Valid() && old(pg.log) <= pg.log && done == (fate == Fine)
    ensures pg.Contents() == AfterUpsert(pg.c, old(pg.Contents()), d, name, location, status, meanwhile, fate)
    ensures done ==> d in pg.drivers
    ensures done ==> pg.drivers[d] == Driver(d, NameAfter(old(pg.drivers), d, name), location, status)
  {
    pg.LockDriver(d);
    pg.Interfere(Upserting(d), meanwhile);
    if fate == Fails {
      pg.UnlockDriver(d);
      return false;
    }
    assert NameAfter(pg.drivers, d, name) == NameAfter(old(pg.drivers), d, name);
    pg.UpsertDriver(d, name, location, status);
    done := fate == Fine;
  }

  /**
   `upsert_driver`. The statement waits while a transaction or another upsert has the row locked; then it has the
   row until it commits or fails, and it may commit without the caller hearing of it. Other clients run during
   both: `waits` while it waits, `meanwhile` while it has the row. It succeeds if and only if the row becomes free
   and the statement does not fail.
   */
  method PutDriver(pg: Server, d: Id, name: string, location: GeoPoint, status: DriverStatus,
                   waits: seq<seq<Step>>, meanwhile: seq<Step>, fate: Fate)
    returns (done: bool, ghost n: nat)
    requires pg.Valid()
    modifies pg
    ensures pg.Valid() && old(pg.log) <= pg.log
    ensures done <==> fate == Fine && GetsRow(pg.c, old(pg.Contents()), d, waits)
    ensures IsFirstFree(pg.c, old(pg.Contents()), d, waits, n)
    ensures var w := AfterWaits(pg.c, old(pg.Contents()), waits[..n]);
            pg.Contents() == if DriverLocked(w, d) then w
                             else AfterUpsert(pg.c, w, d, name, location, status, meanwhile, fate)
    ensures done ==> d in pg.drivers && pg.drivers[d] == Driver(d, pg.drivers[d].name, location, status)
    ensures done && (d in old(pg.drivers) || !old(DriverLocked(pg.Contents(), d))) ==>
              pg.drivers[d].name == NameAfter(old(pg.drivers), d, name)
    ensures waits == [] && meanwhile == [] && !old(DriverLocked(pg.Contents(), d)) ==>
              && pg.txns == old(pg.txns) && pg.held == old(pg.held) && (done <==> fate == Fine)
              && pg.Contents().tables == if fate == Fails then old(pg.Contents()).tables
                                         else UpsertDriverRow(old(pg.Contents()).tables, d, name, location, status)
  {
    var free;
    free, n := AwaitDriverRow(pg, d, waits);
    if !free {
      return false, n;
    }
    assert waits[..0] == [];
    TablesOnlyGrow(pg.c, old(pg.log), pg.log);
    done := HoldAndPut(pg, d, name, location, status, meanwhile, fate);
  }

  /** The row is free, nobody else runs, and nothing fails. */
  predicate RunsUndisturbed(s: Db, d: Id, waits: seq<seq<Step>>, meanwhile: seq<Step>, fate: Fate) {
    !DriverLocked(s, d) && waits == [] && meanwhile == [] && fate == Fine
  }

  /** The answer to a driver request: invalid points are named, and otherwise it fails only as the statement fails. */
  ghost predicate Answered(c: Config, s: Db, d: Id, lat: F64, lon: F64, waits: seq<seq<Step>>, fate: Fate,
                           r: Result<Id, ApiError>) {
    if !ValidPoint(GeoPoint(lat, lon)) then r == Err(BadRequest(InvalidCoordinate(lat, lon)))
    else if fate == Fine && GetsRow(c, s, d, waits) then r == Ok(d)
    else r == Err(DatabaseError)
  }

  /** `register_driver`: a new or known driver, available from now on. */
  method RegisterDriver(pg: Server, d: Id, name: string, lat: F64, lon: F64,
                        waits: seq<seq<Step>>, meanwhile: seq<Step>, fate: Fate)
    returns (r: Result<Id, ApiError>)
    requires pg.Valid()
    modifies pg
    ensures pg.Valid() && old(pg.log) <= pg.log
    ensures Answered(pg.c, old(pg.Contents()), d, lat, lon, waits, fate, r)
    ensures !ValidPoint(GeoPoint(lat, lon)) ==> pg.log == old(pg.log) && pg.Contents() == old(pg.Contents())
    ensures r.Ok? ==>
              && d in pg.drivers && pg.drivers[d] == Driver(d, pg.drivers[d].name, GeoPoint(lat, lon), Available)
    ensures r.Ok? && (d in old(pg.drivers) || !old(DriverLocked(pg.Contents(), d))) ==>
              pg.drivers[d].name == NameAfter(old(pg.drivers), d, name)
    ensures RunsUndisturbed(old(pg.Contents()), d, waits, meanwhile, fate) && ValidPoint(GeoPoint(lat, lon)) ==>
              && r.Ok? && pg.txns == old(pg.txns) && pg.held == old(pg.held)
              && pg.Contents().tables ==
                 UpsertDriverRow(old(pg.Contents()).tables, d, name, GeoPoint(lat, lon), Available)
  {
    var location := NewGeoPoint(lat, lon);
    if location.Err? {
      return Err(BadRequest(location.error));
    }
    var done;
    ghost var n;
    done, n := PutDriver(pg, d, name, location.value, Available, waits, meanwhile, fate);
    r := if done then Ok(d) else Err(DatabaseError);
  }

  /** The status of an update: anything but "busy" and "offline", or nothing at all, means available. */
  function RequestedStatus(status: Option<string>): DriverStatus {
    match status
    case Some(s) => if s == "busy" then Busy else if s == "offline" then Offline else Available
    case None => Available
  }

  /**
   `update_driver_location`: this is how a busy driver becomes available again. An unknown driver appears without
   a name.
   */
  method UpdateDriverLocation(pg: Server, d: Id, lat: F64, lon: F64, status: Option<string>,
                              waits: seq<seq<Step>>, meanwhile: seq<Step>, fate: Fate)
    returns (r: Result<Id, ApiError>)
    requires pg.Valid()
    modifies pg
    ensures pg.Valid() && old(pg.log) <= pg.log
    ensures Answered(pg.c, old(pg.Contents()), d, lat, lon, waits, fate, r)
    ensures !ValidPoint(GeoPoint(lat, lon)) ==> pg.log == old(pg.log) && pg.Contents() == old(pg.Contents())
    ensures r.Ok? ==> d in pg.drivers && pg.drivers[d].id == d && pg.drivers[d].location == GeoPoint(lat, lon)
    ensures r.Ok? ==> (pg.drivers[d].status == Busy <==> status == Some("busy"))
    ensures r.Ok? ==> (pg.drivers[d].status == Offline <==> status == Some("offline"))
    ensures r.Ok? && (d in old(pg.drivers) || !old(DriverLocked(pg.Contents(), d))) ==>
              pg.drivers[d].name == NameAfter(old(pg.drivers), d, "")
    ensures RunsUndisturbed(old(pg.Contents()), d, waits, meanwhile, fate) && ValidPoint(GeoPoint(lat, lon)) ==>
              && r.Ok? && pg.txns == old(pg.txns) && pg.held == old(pg.held)
              && d in pg.drivers && pg.drivers[d].status == RequestedStatus(status)
              && pg.Contents().tables ==
                 UpsertDriverRow(old(pg.Contents()).tables, d, "", GeoPoint(lat, lon), RequestedStatus(status))
  {
    var location := NewGeoPoint(lat, lon);
    if location.Err? {
      return Err(BadRequest(location.error));
    }
    var done;
    ghost var n;
    done, n := PutDriver(pg, d, "", location.value, RequestedStatus(status), waits, meanwhile, fate);
    r := if done then Ok(d) else Err(DatabaseError);
  }
}
