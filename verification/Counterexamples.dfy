/** Concrete runs: what the documentation promises, or a reader might expect, and the code does not do. */
module Counterexamples {
  import opened Model
  import opened Wrappers
  import opened Geo
  import opened Database
  import opened AtomicSpec
  import opened Refinement
  import opened Progress
  import opened Postgres
  import opened Serial
  import opened Greedy
  import opened MatchingService
  import opened Worker
  import opened ApiService

  const HERE := GeoPoint(Num(52.52), Num(13.405))

  function NoDistance(p: GeoPoint, q: GeoPoint): F64 {
    Num(0.0)
  }

  /** A city in which everybody is at the same place. */
  const ALL_CLOSE := Config(Matching(NoDistance, 15), 10, 20)

  lemma EverybodyIsClose(p: GeoPoint, d: Driver)
    ensures WithinKm(NoDistance, 15)(p, d)
  {
    var dist, radiusKm: nat := NoDistance, 15;
    assert dist(p, d.location) == Num(0.0);
    assert WithinKm(dist, radiusKm)(p, d);
  }

  function NewOrder(): Order {
    Order(HERE, HERE, Pending)
  }

  function Driver0(): Driver {
    Driver(0, "", HERE, Available)
  }

  function Driver1(): Driver {
    Driver(1, "", HERE, Available)
  }

  /** With driver 0 as the only driver, a pending order is assigned to driver 0. */
  lemma LoneDriverIsFound(t: Tables, o: Id, a: Id, rows: seq<Driver>)
    requires IsPending(t, o) && t.drivers == map[0 := Driver0()] && IsSelection(t, rows)
    ensures AssignAlone(ALL_CLOSE, t, o, HERE, a, rows) ==
            (AssignRows(t, a, o, 0, Num(0.0)), AssignOutcome.Assigned(DispatchAssigned(a, o, 0, Num(0.0))))
  {
    NearestFinds(NoDistance, 15, ALL_CLOSE);
    NearestDistanceIsInRange(NoDistance, HERE, rows, 15);
    var d: Id := 0;
    assert d in t.drivers && t.drivers[d] == Driver0();
    assert d in AvailableIds(t);
    assert t.drivers[d] in rows;
    EverybodyIsClose(HERE, t.drivers[d]);
  }

  /** A first delivery with driver 0 as the only driver: the assignment is committed, whatever becomes of the event. */
  method DeliverToLoneDriver(pg: Server, queue: OrderQueue, bus: EventBus, m: Id, o: Id, a: Id, published: Fate)
    requires pg.Valid() && pg.c == ALL_CLOSE && NobodyRuns(pg) && pg.drivers == map[0 := Driver0()]
    requires IsPending(pg.Contents().tables, o) && a !in pg.assignments
    modifies pg, queue`messages, bus
    ensures pg.Valid() && NobodyRuns(pg)
    ensures pg.Contents().tables == AssignRows(old(pg.Contents().tables), a, o, 0, Num(0.0))
    ensures published == Fails ==> bus.events == old(bus.events)
    ensures queue.messages == if published == Fine then old(queue.messages) - {m} else old(queue.messages)
  {
    ghost var t := pg.Contents().tables;
    var r;
    ghost var outcome, rows, awaits;
    r, outcome, rows, awaits := HandleMessage(pg, queue, bus, 0, m, Created(o, HERE), true, a, [], published, Fine);
    LoneDriverIsFound(t, o, a, rows);
  }

  // --- FR-9: an assignment whose publish is refused is never notified

  method NewSystem() returns (pg: Server, queue: OrderQueue, bus: EventBus)
    ensures pg.Valid() && pg.c == ALL_CLOSE && pg.Contents() == EMPTY_DB
    ensures queue.messages == map[] && bus.events == []
    ensures fresh(pg) && fresh(queue) && fresh(bus)
  {
    pg := new Server(ALL_CLOSE);
    queue := new OrderQueue();
    bus := new EventBus();
  }

  method OrderHere(pg: Server, queue: OrderQueue, o: Id) returns (m: Id)
    requires pg.Valid() && o !in pg.orders
    modifies pg`orders, pg`log, queue
    ensures pg.Valid() && pg.orders == old(pg.orders)[o := NewOrder()]
    ensures m !in old(queue.messages) && queue.messages.Keys == old(queue.messages).Keys + {m}
  {
    var r;
    r, m := CreateOrder(pg, queue, HERE.lat, HERE.lon, HERE.lat, HERE.lon, o, Fine, Fine);
  }

  method DriverHere(pg: Server, d: Id)
    requires pg.Valid() && NobodyRuns(pg) && d !in pg.drivers
    modifies pg
    ensures pg.Valid() && NobodyRuns(pg)
    ensures pg.Contents().tables ==
              old(pg.Contents()).tables.(drivers := old(pg.drivers)[d := Driver(d, "", HERE, Available)])
  {
    var r := RegisterDriver(pg, d, "", HERE.lat, HERE.lon, [], [], Fine);
  }

  method OneOrderOneDriver() returns (pg: Server, queue: OrderQueue, bus: EventBus, m: Id)
    ensures pg.Valid() && pg.c == ALL_CLOSE && NobodyRuns(pg) && pg.assignments == map[]
    ensures pg.orders == map[0 := NewOrder()] && pg.drivers == map[0 := Driver0()]
    ensures queue.messages.Keys == {m} && bus.events == []
    ensures fresh(pg) && fresh(queue) && fresh(bus)
  {
    pg, queue, bus := NewSystem();
    DriverHere(pg, 0);
    m := OrderHere(pg, queue, 0);
  }

  /**
   The first delivery commits and its publish is refused; the second finds the order handled and deletes the
   message.
   */
  method RefusedPublishIsNeverRepeated() returns (pg: Server, queue: OrderQueue, bus: EventBus)
    ensures pg.orders == map[0 := Order(HERE, HERE, OrderStatus.Assigned)]
    ensures bus.events == [] && queue.messages == map[]
  {
    var m;
    pg, queue, bus, m := OneOrderOneDriver();
    DeliverToLoneDriver(pg, queue, bus, m, 0, 0, Fails);
    assert pg.orders == map[0 := Order(HERE, HERE, OrderStatus.Assigned)] && 1 !in pg.assignments;
    var r;
    ghost var outcome, rows, awaits;
    r, outcome, rows, awaits := HandleMessage(pg, queue, bus, 0, m, Created(0, HERE), true, 1, [], Fine, Fine);
  }

  // --- A driver gets a second order while the first is under way

  lemma HistoryCons(t: Tables, e: Event, es: seq<Event>, d: Id)
    requires Legal(ALL_CLOSE, t, e) && IsHistory(ALL_CLOSE, Perform(t, e), es)
    ensures IsHistory(ALL_CLOSE, t, [e] + es)
    ensures Assignments([e] + es, d) == (if Assigns(e, d) then 1 else 0) + Assignments(es, d)
  {
    assert ([e] + es)[1..] == es;
  }

  function ToDriver0(o: Id): Event {
    OrderAssigned(o, o, HERE, [Driver0()], 0, Num(0.0))
  }

  lemma Driver0IsChosen()
    ensures (ALL_CLOSE.nearest)(HERE, [Driver0()]) == Ok((Driver0(), Num(0.0)))
  {
    NearestFinds(NoDistance, 15, ALL_CLOSE);
    NearestDistanceIsInRange(NoDistance, HERE, [Driver0()], 15);
    EverybodyIsClose(HERE, Driver0());
    assert Driver0() in [Driver0()];
  }

  const RESET := DriverUpserted(0, "", HERE, Available)

  const ASSIGNED_TWICE := [
    OrderCreated(0, HERE, HERE), OrderCreated(1, HERE, HERE), RESET, ToDriver0(0), RESET, ToDriver0(1)
  ]

  /** A legal history with two assignments of driver 0: an upsert came in between. */
  lemma DriverIsAssignedTwice()
    ensures IsHistory(ALL_CLOSE, NO_ROWS, ASSIGNED_TWICE) && Assignments(ASSIGNED_TWICE, 0) == 2
  {
    Driver0IsChosen();
    var create0, create1 := OrderCreated(0, HERE, HERE), OrderCreated(1, HERE, HERE);
    var t1 := Perform(NO_ROWS, create0);
    var t2 := Perform(t1, create1);
    var t3 := Perform(t2, RESET);
    var t4 := Perform(t3, ToDriver0(0));
    var t5 := Perform(t4, RESET);
    HistoryCons(t5, ToDriver0(1), [], 0);
    HistoryCons(t4, RESET, [ToDriver0(1)], 0);
    HistoryCons(t3, ToDriver0(0), [RESET, ToDriver0(1)], 0);
    HistoryCons(t2, RESET, [ToDriver0(0), RESET, ToDriver0(1)], 0);
    HistoryCons(t1, create1, [RESET, ToDriver0(0), RESET, ToDriver0(1)], 0);
    HistoryCons(NO_ROWS, create0, [create1, RESET, ToDriver0(0), RESET, ToDriver0(1)], 0);
  }

  /** And the services do it: both orders are assigned to driver 0, both with a row. */
  method BusyDriverIsAssignedAgain() returns (pg: Server)
    ensures pg.Valid() && pg.assignments == map[0 := Assignment(0, 0, Num(0.0)), 1 := Assignment(1, 0, Num(0.0))]
  {
    var queue, bus, m;
    pg, queue, bus, m := OneOrderOneDriver();
    var n := OrderHere(pg, queue, 1);
    DeliverToLoneDriver(pg, queue, bus, m, 0, 0, Fine);
    var r := UpdateDriverLocation(pg, 0, HERE.lat, HERE.lon, Some("available"), [], [], Fine);
    DeliverToLoneDriver(pg, queue, bus, n, 1, 1, Fine);
  }

  // --- The loser of a race does not see the next-nearest driver

  method TwoOrdersTwoDrivers() returns (pg: Server)
    ensures fresh(pg) && pg.Valid() && pg.c == ALL_CLOSE && NobodyRuns(pg)
    ensures pg.orders == map[0 := NewOrder(), 1 := NewOrder()] && pg.drivers == map[0 := Driver0(), 1 := Driver1()]
  {
    var queue, bus, m;
    pg, queue, bus, m := OneOrderOneDriver();
    DriverHere(pg, 1);
    m := OrderHere(pg, queue, 1);
  }

  /** Transaction `t` has claimed the order with its own number, and is scanning. */
  predicate HasClaimed(pg: Server, t: Id, remaining: set<Id>, locked: set<Id>)
    reads pg
  {
    && t in pg.txns && pg.txns[t].orderId == t && pg.txns[t].pickup == HERE && pg.txns[t].orderLocks == {t}
    && pg.txns[t].phase == Scanning(remaining) && pg.txns[t].driverLocks == locked
  }

  method ClaimOwnOrder(pg: Server, t: Id)
    requires pg.Valid() && t !in pg.txns && IsPending(pg.Contents().tables, t) && !OrderLocked(pg.Contents(), t)
    modifies pg`txns, pg`log
    ensures pg.Valid() && HasClaimed(pg, t, AvailableIds(pg.Contents().tables), {}) && pg.txns[t].candidates == []
    ensures pg.txns.Keys == old(pg.txns).Keys + {t} && forall u | u in old(pg.txns) :: pg.txns[u] == old(pg.txns)[u]
  {
    pg.Begin(t, t, HERE);
    pg.Statement(t, Claim);
    pg.Statement(t, StartScan);
  }

  method FetchBoth(pg: Server)
    requires pg.Valid() && OnlyRuns(pg, 0) && HasClaimed(pg, 0, {0, 1}, {})
    requires pg.drivers == map[0 := Driver0(), 1 := Driver1()]
    modifies pg`txns, pg`log
    ensures pg.Valid() && OnlyRuns(pg, 0) && HasClaimed(pg, 0, {}, {0, 1})
  {
    pg.Statement(0, ScanRow(0, false));
    pg.Statement(0, ScanRow(1, false));
  }

  /** Two orders and two drivers; the transaction of the first order has fetched both drivers. */
  method FirstTakesAll() returns (pg: Server)
    ensures fresh(pg) && pg.Valid() && pg.c == ALL_CLOSE && OnlyRuns(pg, 0) && HasClaimed(pg, 0, {}, {0, 1})
    ensures pg.orders == map[0 := NewOrder(), 1 := NewOrder()] && pg.drivers == map[0 := Driver0(), 1 := Driver1()]
  {
    pg := TwoOrdersTwoDrivers();
    ClaimOwnOrder(pg, 0);
    FetchBoth(pg);
  }

  /** A row that is locked by somebody else is passed over. */
  method SkipRow(pg: Server, t: Id, remaining: set<Id>, d: Id)
    requires pg.Valid() && HasClaimed(pg, t, remaining, {}) && d in remaining && DriverLocked(pg.Contents(), d)
    modifies pg`txns, pg`log
    ensures pg.Valid() && HasClaimed(pg, t, remaining - {d}, {}) && pg.txns[t].candidates == old(pg.txns)[t].candidates
    ensures forall e | old(DriverLocked(pg.Contents(), e)) :: DriverLocked(pg.Contents(), e)
  {
    ghost var before := pg.Contents();
    pg.Statement(t, ScanRow(d, true));
    forall e | DriverLocked(before, e) ensures DriverLocked(pg.Contents(), e) {
      if e !in pg.held {
        var u :| u in before.txns && e in before.txns[u].driverLocks;
        assert u in pg.txns && e in pg.txns[u].driverLocks;
      }
    }
  }

  method SkipBoth(pg: Server, t: Id)
    requires pg.Valid() && HasClaimed(pg, t, {0, 1}, {}) && pg.txns[t].candidates == []
    requires DriverLocked(pg.Contents(), 0) && DriverLocked(pg.Contents(), 1)
    modifies pg`txns, pg`log
    ensures pg.Valid() && t in pg.txns && pg.txns[t].phase.Selected? && pg.txns[t].pickup == HERE
              && pg.txns[t].candidates == []
  {
    SkipRow(pg, t, {0, 1}, 0);
    SkipRow(pg, t, {1}, 1);
    pg.Statement(t, EndScan);
  }

  /**
   Only one of two available drivers can be needed by the first order. Still the second order's scan finds nobody,
   and `assign_order` rolls back, although both drivers are available and in range.
   */
  method LoserFindsNobody() returns (pg: Server)
    ensures pg.Valid() && 1 in pg.txns && RollsBack(pg.c, pg.txns[1]) && pg.txns[1].phase.Selected?
    ensures pg.drivers == map[0 := Driver0(), 1 := Driver1()]
    ensures WithinKm(NoDistance, 15)(HERE, Driver0()) && WithinKm(NoDistance, 15)(HERE, Driver1())
  {
    pg := FirstTakesAll();
    ClaimOwnOrder(pg, 1);
    assert 0 in pg.txns[0].driverLocks && 1 in pg.txns[0].driverLocks;
    SkipBoth(pg, 1);
    NearestDriverIsNearest(NoDistance, HERE, [], 15);
    EverybodyIsClose(HERE, Driver0());
    EverybodyIsClose(HERE, Driver1());
  }

  // --- A location ping hides its driver

  method ScanPastPing(pg: Server)
    requires pg.Valid() && pg.txns == map[] && pg.held == {0} && pg.drivers == map[0 := Driver0()]
    requires pg.orders == map[0 := NewOrder()]
    modifies pg`txns, pg`log
    ensures pg.Valid() && 0 in pg.txns && pg.txns[0].phase.Selected? && pg.txns[0].candidates == []
    ensures pg.txns[0].pickup == HERE
  {
    ClaimOwnOrder(pg, 0);
    SkipRow(pg, 0, {0}, 0);
    pg.Statement(0, EndScan);
  }

  /**
   The only driver is available and in range before, during and after its ping, and does not even move. While the
   ping has the row the scan skips it, so nobody is found.
   */
  method PingHidesDriver() returns (pg: Server)
    ensures pg.Valid() && 0 in pg.txns && RollsBack(pg.c, pg.txns[0]) && pg.txns[0].phase.Selected?
    ensures pg.drivers == map[0 := Driver0()] && pg.held == {} && WithinKm(NoDistance, 15)(HERE, Driver0())
  {
    var queue, bus, m;
    pg, queue, bus, m := OneOrderOneDriver();
    pg.LockDriver(0);
    ScanPastPing(pg);
    pg.UpsertDriver(0, "", HERE, Available);
    NearestDriverIsNearest(NoDistance, HERE, [], 15);
    EverybodyIsClose(HERE, Driver0());
  }
}
