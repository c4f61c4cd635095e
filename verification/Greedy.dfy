/**
 What a serial drain of the queue achieves: a maximal matching between orders and drivers in range, and so at
 least half of the best possible.
 */
module Greedy {
  import opened FiniteSets
  import opened Model
  import opened Geo
  import opened Database
  import opened AtomicSpec
  import opened Serial

  /** Is this driver in range of this pickup? */
  type Range = (GeoPoint, Driver) -> bool

  /** The matcher finds somebody exactly when somebody available is in range, and then somebody in range. */
  ghost predicate Finds(c: Config, range: Range) {
    forall p: GeoPoint, rows: seq<Driver> ::
      match (c.nearest)(p, rows)
      case Err(_) => forall row | row in rows && row.status == Available :: !range(p, row)
      case Ok((row, _)) => range(p, row)
  }

  function WithinKm(dist: Metric, radiusKm: nat): Range {
    (p: GeoPoint, d: Driver) => Le(dist(p, d.location), Num(radiusKm as real))
  }

  lemma NearestFinds(dist: Metric, radiusKm: nat, c: Config)
    requires c.nearest == Matching(dist, radiusKm)
    ensures Finds(c, WithinKm(dist, radiusKm))
  {
    var range := WithinKm(dist, radiusKm);
    forall p: GeoPoint, rows: seq<Driver>
      ensures match (c.nearest)(p, rows)
              case Err(_) => forall row | row in rows && row.status == Available :: !range(p, row)
              case Ok((row, _)) => range(p, row)
    {
      NearestDriverIsNearest(dist, p, rows, radiusKm);
    }
  }

  /** Order `o` and driver `d` could be matched in tables `t`. */
  predicate Edge(range: Range, t: Tables, o: Id, d: Id) {
    IsPending(t, o) && d in AvailableIds(t) && range(t.orders[o].pickup, t.drivers[d])
  }

  ghost predicate Injective(m: map<Id, Id>) {
    forall o, p | o in m && p in m && m[o] == m[p] :: o == p
  }

  /** A matching: each order to one driver, no driver twice, every pair an edge. */
  ghost predicate IsMatching(range: Range, t: Tables, m: map<Id, Id>) {
    Injective(m) && forall o | o in m :: Edge(range, t, o, m[o])
  }

  /** The pairs a serial run reports. */
  function Matched(outcomes: seq<AssignOutcome>): map<Id, Id> {
    if outcomes == [] then map[]
    else
      var last := outcomes[|outcomes| - 1];
      var m := Matched(outcomes[..|outcomes| - 1]);
      if last.Assigned? then m[last.event.orderId := last.event.driverId] else m
  }

  lemma MatchedStep(outcomes: seq<AssignOutcome>, x: AssignOutcome)
    ensures Matched(outcomes + [x])
         == if x.Assigned? then Matched(outcomes)[x.event.orderId := x.event.driverId] else Matched(outcomes)
  {
    assert (outcomes + [x])[..|outcomes|] == outcomes;
  }

  /** `t` is `t0` with exactly the pairs of `m` taken out. */
  ghost predicate TakenOut(range: Range, t0: Tables, t: Tables, m: map<Id, Id>) {
    && IsMatching(range, t0, m)
    && (forall o :: IsPending(t, o) <==> IsPending(t0, o) && o !in m)
    && (forall o | IsPending(t, o) :: t.orders[o] == t0.orders[o])
    && (forall d :: d in AvailableIds(t) <==> d in AvailableIds(t0) && d !in m.Values)
    && (forall d | d in AvailableIds(t) :: t.drivers[d] == t0.drivers[d])
    && (forall d | d in t.drivers :: t.drivers[d].id == d)
  }

  ghost predicate Exhausted(range: Range, t: Tables, o: Id) {
    forall d :: !Edge(range, t, o, d)
  }

  lemma AssignTakesOut(range: Range, t0: Tables, t: Tables, m: map<Id, Id>, a: Id, o: Id, d: Id, distance: F64)
    requires TakenOut(range, t0, t, m) && Edge(range, t, o, d)
    ensures TakenOut(range, t0, AssignRows(t, a, o, d, distance), m[o := d])
  {
    var r, n := AssignRows(t, a, o, d, distance), m[o := d];
    forall e ensures e in n.Values <==> e in m.Values || e == d {
      if e in m.Values {
        var p :| p in m && m[p] == e;
        assert n[p] == e;
      }
      assert n[o] == d;
    }
  }

  /** One delivery takes out one more edge, or leaves its order without any. */
  lemma AttemptTakesOut(c: Config, range: Range, t0: Tables, t: Tables, m: map<Id, Id>, x: Attempt)
    requires Finds(c, range) && TakenOut(range, t0, t, m) && Fits(t, x)
    ensures var r, out := TablesAfter(c, t, x), OutcomeOf(c, t, x);
            && (out.Assigned? ==> TakenOut(range, t0, r, m[out.event.orderId := out.event.driverId]))
            && (!out.Assigned? ==> r == t)
            && Exhausted(range, r, x.orderId)
            && forall o, d | Edge(range, r, o, d) :: Edge(range, t, o, d)
  {
    if IsPending(t, x.orderId) {
      match (c.nearest)(x.pickup, x.rows)
      case Err(_) =>
        forall d ensures !Edge(range, t, x.orderId, d) {
          assert d in AvailableIds(t) ==> t.drivers[d] in x.rows;
        }
      case Ok((row, distance)) =>
        assert row in x.rows && row.id in t.drivers && t.drivers[row.id] == row;
        AssignTakesOut(range, t0, t, m, x.assignmentId, x.orderId, row.id, distance);
    }
  }

  /** Any serial run takes out a matching, and leaves every order it delivered without a driver in range. */
  lemma {:induction false} DrainTakesOutMatching(c: Config, range: Range, t0: Tables, xs: seq<Attempt>)
    requires Finds(c, range) && (forall d | d in t0.drivers :: t0.drivers[d].id == d)
    requires IsSerialRun(c, t0, xs)
    ensures TakenOut(range, t0, Drained(c, t0, xs), Matched(Outcomes(c, t0, xs)))
    ensures forall i | 0 <= i < |xs| :: Exhausted(range, Drained(c, t0, xs), xs[i].orderId)
    decreases |xs|
  {
    if xs == [] {
      assert Outcomes(c, t0, xs) == [];
    } else {
      var n := |xs| - 1;
      var ys, x := xs[..n], xs[n];
      assert xs == ys + [x];
      SerialRunConcat(c, t0, ys, [x]);
      SerialRunStep(c, t0, ys, x);
      DrainTakesOutMatching(c, range, t0, ys);
      var t := Drained(c, t0, ys);
      AttemptTakesOut(c, range, t0, t, Matched(Outcomes(c, t0, ys)), x);
      MatchedStep(Outcomes(c, t0, ys), OutcomeOf(c, t, x));
      forall i | 0 <= i < |xs| ensures Exhausted(range, Drained(c, t0, xs), xs[i].orderId) {
        assert i < n ==> xs[i] == ys[i] && Exhausted(range, t, ys[i].orderId);
      }
    }
  }

  predicate Delivers(xs: seq<Attempt>, o: Id) {
    exists i :: 0 <= i < |xs| && xs[i].orderId == o
  }

  /** If every pending order was delivered at least once, no order left pending has an available driver in range. */
  lemma DrainIsMaximal(c: Config, range: Range, t0: Tables, xs: seq<Attempt>, o: Id, d: Id)
    requires Finds(c, range) && (forall e | e in t0.drivers :: t0.drivers[e].id == e)
    requires IsSerialRun(c, t0, xs) && (forall p | IsPending(t0, p) :: Delivers(xs, p))
    ensures !Edge(range, Drained(c, t0, xs), o, d)
  {
    DrainTakesOutMatching(c, range, t0, xs);
    if IsPending(t0, o) {
      var i :| 0 <= i < |xs| && xs[i].orderId == o;
      assert Exhausted(range, Drained(c, t0, xs), xs[i].orderId);
    }
  }

  /** Distinct drivers of distinct orders: an injective map into a set has no more keys than the set has elements. */
  lemma {:induction false} PigeonHole(keys: set<Id>, m: map<Id, Id>, values: set<Id>)
    requires keys <= m.Keys && Injective(m) && (forall o | o in keys :: m[o] in values)
    ensures |keys| <= |values|
    decreases |keys|
  {
    if keys != {} {
      var o :| o in keys;
      PigeonHole(keys - {o}, m, values - {m[o]});
      assert keys == keys - {o} + {o};
      assert values == values - {m[o]} + {m[o]};
    }
  }

  /** An edge that a maximal matching has not matched at the order's end is blocked at the driver's end. */
  lemma UnmatchedOrderNeedsTakenDriver(range: Range, t0: Tables, t: Tables, m: map<Id, Id>, o: Id, d: Id)
    requires TakenOut(range, t0, t, m) && Edge(range, t0, o, d) && !Edge(range, t, o, d)
    ensures o in m || d in m.Values
  {
  }

  lemma {:induction false} ValuesAreFewer(m: map<Id, Id>)
    ensures |m.Values| <= |m|
    decreases |m|
  {
    if m != map[] {
      var o :| o in m;
      var n := m - {o};
      ValuesAreFewer(n);
      assert m.Values <= n.Values + {m[o]} by {
        forall d | d in m.Values ensures d in n.Values + {m[o]} {
          var p :| p in m && m[p] == d;
          assert p != o ==> n[p] == d;
        }
      }
      assert |m.Values| <= |n.Values + {m[o]}| by { SubsetSize(m.Values, n.Values + {m[o]}); }
    }
  }

  lemma CountEnds(m: map<Id, Id>, other: map<Id, Id>)
    requires Injective(other) && (forall o | o in other && o !in m :: other[o] in m.Values)
    ensures |other| <= 2 * |m|
  {
    var shared, rest := other.Keys * m.Keys, other.Keys - m.Keys;
    PigeonHole(rest, other, m.Values);
    ValuesAreFewer(m);
    SubsetSize(shared, m.Keys);
    assert other.Keys == shared + rest;
    assert |other| == |other.Keys| && |m| == |m.Keys|;
  }

  /** A maximal matching is at least half as large as any other. */
  lemma MaximalIsHalf(range: Range, t0: Tables, t: Tables, m: map<Id, Id>, other: map<Id, Id>)
    requires TakenOut(range, t0, t, m) && IsMatching(range, t0, other)
    requires forall o, d :: !Edge(range, t, o, d)
    ensures |other| <= 2 * |m|
  {
    forall o | o in other && o !in m ensures other[o] in m.Values {
      UnmatchedOrderNeedsTakenDriver(range, t0, t, m, o, other[o]);
    }
    CountEnds(m, other);
  }

  /**
   The bound for the worker's matcher: drain a queue that delivers every pending order at least once, one
   delivery at a time; then any matching of orders with drivers in range is at most twice as large as the one found.
   */
  lemma DrainIsHalfOfBest(dist: Metric, radiusKm: nat, c: Config, t0: Tables, xs: seq<Attempt>, other: map<Id, Id>)
    requires c.nearest == Matching(dist, radiusKm)
    requires TablesInv(t0) && IsSerialRun(c, t0, xs) && (forall p | IsPending(t0, p) :: Delivers(xs, p))
    requires IsMatching(WithinKm(dist, radiusKm), t0, other)
    ensures var m := Matched(Outcomes(c, t0, xs));
            IsMatching(WithinKm(dist, radiusKm), t0, m) && |other| <= 2 * |m|
  {
    var range := WithinKm(dist, radiusKm);
    NearestFinds(dist, radiusKm, c);
    DrainTakesOutMatching(c, range, t0, xs);
    forall o, d ensures !Edge(range, Drained(c, t0, xs), o, d) {
      DrainIsMaximal(c, range, t0, xs, o, d);
    }
    MaximalIsHalf(range, t0, Drained(c, t0, xs), Matched(Outcomes(c, t0, xs)), other);
  }

  // --- What the table holds afterwards

  lemma AttemptStores(c: Config, t: Tables, x: Attempt)
    requires Fits(t, x)
    ensures |TablesAfter(c, t, x).assignments| == |t.assignments| + (if OutcomeOf(c, t, x).Assigned? then 1 else 0)
    ensures OutcomeOf(c, t, x).Assigned? ==> IsPending(t, OutcomeOf(c, t, x).event.orderId)
  {
  }

  /** Each pair of the matching is one new assignment row. */
  lemma {:induction false} DrainStoresMatching(c: Config, range: Range, t0: Tables, xs: seq<Attempt>)
    requires Finds(c, range) && (forall d | d in t0.drivers :: t0.drivers[d].id == d)
    requires IsSerialRun(c, t0, xs)
    ensures |Drained(c, t0, xs).assignments| == |t0.assignments| + |Matched(Outcomes(c, t0, xs))|
    decreases |xs|
  {
    if xs == [] {
      assert Outcomes(c, t0, xs) == [];
    } else {
      var n := |xs| - 1;
      var ys, x := xs[..n], xs[n];
      assert xs == ys + [x];
      SerialRunStep(c, t0, ys, x);
      DrainStoresMatching(c, range, t0, ys);
      DrainTakesOutMatching(c, range, t0, ys);
      AttemptStores(c, Drained(c, t0, ys), x);
      MatchedStep(Outcomes(c, t0, ys), OutcomeOf(c, Drained(c, t0, ys), x));
    }
  }
}
