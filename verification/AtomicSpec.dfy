/**
 The specification the database machine is measured against: tables changed by three atomic events and
 nothing else.
 */
module AtomicSpec {
  import opened Model
  import opened Wrappers
  import opened Database

  datatype Event =
    | OrderCreated(orderId: Id, pickup: GeoPoint, dropoff: GeoPoint)
    | DriverUpserted(driverId: Id, name: string, location: GeoPoint, status: DriverStatus)
    | OrderAssigned(assignmentId: Id, orderId: Id, pickup: GeoPoint, candidates: seq<Driver>, driverId: Id,
                    distance: F64)

  /**
   When an event may happen. An assignment needs a pending order, an unused id, candidates that are rows of
   the table available right now, and a driver that is the matcher's answer on those candidates.
   */
  ghost predicate Legal(c: Config, t: Tables, e: Event) {
    match e
    case OrderCreated(o, _, _) => o !in t.orders
    case DriverUpserted(_, _, _, _) => true
    case OrderAssigned(a, o, pickup, candidates, d, distance) =>
      && IsPending(t, o)
      && a !in t.assignments
      && (forall row | row in candidates :: row.id in t.drivers && t.drivers[row.id] == row && row.status == Available)
      && d in t.drivers
      && (c.nearest)(pickup, candidates) == Ok((t.drivers[d], distance))
  }

  function AssignRows(t: Tables, a: Id, o: Id, d: Id, distance: F64): Tables
    requires o in t.orders && d in t.drivers
  {
    Tables(t.orders[o := t.orders[o].(status := Assigned)],
           t.drivers[d := t.drivers[d].(status := Busy)],
           t.assignments[a := Assignment(o, d, distance)])
  }

  function Perform(t: Tables, e: Event): Tables
    requires e.OrderAssigned? ==> e.orderId in t.orders && e.driverId in t.drivers
  {
    match e
    case OrderCreated(o, pickup, dropoff) => InsertOrderRow(t, o, pickup, dropoff)
    case DriverUpserted(d, name, location, status) => UpsertDriverRow(t, d, name, location, status)
    case OrderAssigned(a, o, _, _, d, distance) => AssignRows(t, a, o, d, distance)
  }

  ghost predicate IsHistory(c: Config, t: Tables, es: seq<Event>)
    decreases |es|
  {
    es == [] || (Legal(c, t, es[0]) && IsHistory(c, Perform(t, es[0]), es[1..]))
  }

  ghost function Outcome(c: Config, t: Tables, es: seq<Event>): Tables
    requires IsHistory(c, t, es)
    decreases |es|
  {
    if es == [] then t else Outcome(c, Perform(t, es[0]), es[1..])
  }

  lemma {:induction false} HistoryConcat(c: Config, t: Tables, es: seq<Event>, fs: seq<Event>)
    requires IsHistory(c, t, es)
    ensures IsHistory(c, t, es + fs) <==> IsHistory(c, Outcome(c, t, es), fs)
    ensures IsHistory(c, t, es + fs) ==> Outcome(c, t, es + fs) == Outcome(c, Outcome(c, t, es), fs)
    decreases |es|
  {
    if es == [] {
      assert es + fs == fs;
    } else {
      assert (es + fs)[1..] == es[1..] + fs;
      HistoryConcat(c, Perform(t, es[0]), es[1..], fs);
    }
  }

  lemma {:induction false} HistorySplit(c: Config, t: Tables, es: seq<Event>, i: nat)
    requires IsHistory(c, t, es) && i <= |es|
    ensures IsHistory(c, t, es[..i]) && IsHistory(c, Outcome(c, t, es[..i]), es[i..])
    decreases i
  {
    if i > 0 {
      HistorySplit(c, Perform(t, es[0]), es[1..], i - 1);
      assert es[..i][1..] == es[1..][..i - 1] && es[1..][i - 1..] == es[i..];
    }
  }

  ghost predicate HasAssignment(t: Tables, o: Id) {
    exists a :: a in t.assignments && t.assignments[a].orderId == o
  }

  /** Committed rows: keys agree with ids, and assignments are in one-to-one correspondence with assigned orders. */
  ghost predicate TablesInv(t: Tables) {
    && (forall d | d in t.drivers :: t.drivers[d].id == d)
    && (forall o | o in t.orders ::
          t.orders[o].status == Pending || (t.orders[o].status == Assigned && HasAssignment(t, o)))
    && (forall a | a in t.assignments ::
          && t.assignments[a].orderId in t.orders && t.orders[t.assignments[a].orderId].status == Assigned
          && t.assignments[a].driverId in t.drivers)
    && (forall a, b | a in t.assignments && b in t.assignments ::
          t.assignments[a].orderId == t.assignments[b].orderId ==> a == b)
  }

  lemma LegalKeepsTablesInv(c: Config, t: Tables, e: Event)
    requires TablesInv(t) && Legal(c, t, e)
    ensures TablesInv(Perform(t, e))
  {
    var r := Perform(t, e);
    forall o | o in r.orders && r.orders[o].status != Pending
      ensures r.orders[o].status == Assigned && HasAssignment(r, o)
    {
      if e.OrderAssigned? && o == e.orderId {
        assert r.assignments[e.assignmentId].orderId == o;
      } else {
        assert HasAssignment(t, o);
        var a :| a in t.assignments && t.assignments[a].orderId == o;
        assert r.assignments[a].orderId == o;
      }
    }
  }

  lemma {:induction false} HistoryKeepsTablesInv(c: Config, t: Tables, es: seq<Event>)
    requires TablesInv(t) && IsHistory(c, t, es)
    ensures TablesInv(Outcome(c, t, es))
    decreases |es|
  {
    if es != [] {
      LegalKeepsTablesInv(c, t, es[0]);
      HistoryKeepsTablesInv(c, Perform(t, es[0]), es[1..]);
    }
  }
}
