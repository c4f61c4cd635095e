/** `assign_order` with nobody else running, as a function, and what a serial drain of the queue is. */
module Serial {
  import opened Model
  import opened Database
  import opened AtomicSpec

  datatype AssignOutcome = Assigned(event: DispatchAssigned) | AlreadyHandled | NoDriverAvailable

  /** What the locking SELECT returns when nothing is locked: all available rows, in any order. */
  ghost predicate IsSelection(t: Tables, rows: seq<Driver>) {
    && (forall row | row in rows :: row.id in t.drivers && t.drivers[row.id] == row && row.status == Available)
    && (forall d | d in AvailableIds(t) :: t.drivers[d] in rows)
  }

  function AssignAlone(c: Config, t: Tables, o: Id, pickup: GeoPoint, a: Id, rows: seq<Driver>)
    : (Tables, AssignOutcome)
  {
    if !IsPending(t, o) then (t, AlreadyHandled)
    else match (c.nearest)(pickup, rows)
      case Err(_) => (t, NoDriverAvailable)
      case Ok((row, distance)) =>
        if row.id !in t.drivers then (t, NoDriverAvailable)
        else (AssignRows(t, a, o, row.id, distance), AssignOutcome.Assigned(DispatchAssigned(a, o, row.id, distance)))
  }

  /** One delivery of an order's message: the id its assignment would get, and the rows its SELECT returns. */
  datatype Attempt = Attempt(orderId: Id, pickup: GeoPoint, assignmentId: Id, rows: seq<Driver>)

  /** A delivery as it happens in tables `t`: a known order, an unused id, and the rows that are there. */
  ghost predicate Fits(t: Tables, x: Attempt) {
    && x.orderId in t.orders && t.orders[x.orderId].pickup == x.pickup
    && x.assignmentId !in t.assignments
    && (IsPending(t, x.orderId) ==> IsSelection(t, x.rows))
  }

  function TablesAfter(c: Config, t: Tables, x: Attempt): Tables {
    AssignAlone(c, t, x.orderId, x.pickup, x.assignmentId, x.rows).0
  }

  function OutcomeOf(c: Config, t: Tables, x: Attempt): AssignOutcome {
    AssignAlone(c, t, x.orderId, x.pickup, x.assignmentId, x.rows).1
  }

  /** A serial run: deliveries one after the other, in any order, with any repetitions. */
  ghost predicate IsSerialRun(c: Config, t: Tables, xs: seq<Attempt>)
    decreases |xs|
  {
    xs == [] || (Fits(t, xs[0]) && IsSerialRun(c, TablesAfter(c, t, xs[0]), xs[1..]))
  }

  function Drained(c: Config, t: Tables, xs: seq<Attempt>): Tables
    decreases |xs|
  {
    if xs == [] then t else Drained(c, TablesAfter(c, t, xs[0]), xs[1..])
  }

  function Outcomes(c: Config, t: Tables, xs: seq<Attempt>): (r: seq<AssignOutcome>)
    ensures |r| == |xs|
    decreases |xs|
  {
    if xs == [] then [] else [OutcomeOf(c, t, xs[0])] + Outcomes(c, TablesAfter(c, t, xs[0]), xs[1..])
  }

  lemma {:induction false} SerialRunConcat(c: Config, t: Tables, xs: seq<Attempt>, ys: seq<Attempt>)
    ensures IsSerialRun(c, t, xs + ys) <==> IsSerialRun(c, t, xs) && IsSerialRun(c, Drained(c, t, xs), ys)
    ensures Drained(c, t, xs + ys) == Drained(c, Drained(c, t, xs), ys)
    ensures Outcomes(c, t, xs + ys) == Outcomes(c, t, xs) + Outcomes(c, Drained(c, t, xs), ys)
    decreases |xs|
  {
    if xs == [] {
      assert xs + ys == ys;
    } else {
      assert (xs + ys)[1..] == xs[1..] + ys;
      SerialRunConcat(c, TablesAfter(c, t, xs[0]), xs[1..], ys);
    }
  }

  lemma SerialRunStep(c: Config, t0: Tables, xs: seq<Attempt>, x: Attempt)
    ensures IsSerialRun(c, t0, xs + [x]) <==> IsSerialRun(c, t0, xs) && Fits(Drained(c, t0, xs), x)
    ensures Drained(c, t0, xs + [x]) == TablesAfter(c, Drained(c, t0, xs), x)
    ensures Outcomes(c, t0, xs + [x]) == Outcomes(c, t0, xs) + [OutcomeOf(c, Drained(c, t0, xs), x)]
  {
    var t := Drained(c, t0, xs);
    SerialRunConcat(c, t0, xs, [x]);
    assert [x][1..] == [];
    assert IsSerialRun(c, TablesAfter(c, t, x), [x][1..]);
    assert Drained(c, t, [x]) == Drained(c, TablesAfter(c, t, x), [x][1..]);
    assert Outcomes(c, t, [x]) == [OutcomeOf(c, t, x)] + Outcomes(c, TablesAfter(c, t, x), [x][1..]);
  }

  /** A delivery of an order that is no longer pending can be left out of any serial run without a trace. */
  lemma DuplicatesAreStuttering(c: Config, t: Tables, xs: seq<Attempt>, dup: Attempt, ys: seq<Attempt>)
    requires IsSerialRun(c, t, xs + [dup] + ys)
    requires !IsPending(Drained(c, t, xs), dup.orderId)
    ensures IsSerialRun(c, t, xs + ys)
    ensures Drained(c, t, xs + [dup] + ys) == Drained(c, t, xs + ys)
    ensures Outcomes(c, t, xs + [dup] + ys) ==
              Outcomes(c, t, xs) + [AlreadyHandled] + Outcomes(c, Drained(c, t, xs), ys)
    ensures Outcomes(c, t, xs + ys) == Outcomes(c, t, xs) + Outcomes(c, Drained(c, t, xs), ys)
  {
    var mid := Drained(c, t, xs);
    SerialRunConcat(c, t, xs + [dup], ys);
    SerialRunStep(c, t, xs, dup);
    SerialRunConcat(c, t, xs, ys);
    assert TablesAfter(c, mid, dup) == mid && OutcomeOf(c, mid, dup) == AlreadyHandled;
  }
}
