/** Failure-carrying results, in the shape the Rust code uses them. */
module Wrappers {
  datatype Option<+T> = None | Some(value: T)

  datatype Result<+T, +E> = Ok(value: T) | Err(error: E)
}

module FiniteSets {
  lemma SubsetSize<T>(a: set<T>, b: set<T>)
    requires a <= b
    ensures |a| <= |b|
  {
    assert b == a + (b - a);
  }

  /** No finite set holds every id: there is always an unused one. */
  lemma FreshIdExists(used: set<nat>) returns (a: nat)
    ensures a !in used && forall b | b in used :: b < a
  {
    if used == {} {
      a := 0;
    } else {
      var x :| x in used;
      var m := FreshIdExists(used - {x});
      a := if m <= x then x + 1 else m;
      assert used == (used - {x}) + {x};
    }
  }
}

/** The domain types of `dispatch-core`, and the part of IEEE 754 its comparisons need. */
module Model {
  import opened Wrappers

  /** UUIDs: only equality matters. */
  type Id = nat

  /** A double without its rounding: NaN, the two infinities and the reals. Signed zeros are one value. */
  datatype F64 = NaN | NegInf | Num(value: real) | PosInf

  /** IEEE `<=`: false as soon as one side is NaN. */
  predicate Le(a: F64, b: F64) {
    && a != NaN
    && b != NaN
    && (a == NegInf || b == PosInf || (a.Num? && b.Num? && a.value <= b.value))
  }

  /** The strict part of `f64::total_cmp` (NaN, taken as positive, comes last). */
  predicate Precedes(a: F64, b: F64) {
    match (a, b)
    case (Num(x), Num(y)) => x < y
    case (NegInf, _) => b != NegInf
    case (Num(_), _) => b != NegInf
    case (PosInf, _) => b == NaN
    case (NaN, _) => false
  }

  datatype CoreError = NoDriverInRange(radiusKm: nat) | InvalidCoordinate(lat: F64, lon: F64)

  datatype GeoPoint = GeoPoint(lat: F64, lon: F64)

  predicate ValidPoint(p: GeoPoint) {
    && p.lat.Num? && -90.0 <= p.lat.value <= 90.0
    && p.lon.Num? && -180.0 <= p.lon.value <= 180.0
  }

  predicate InRange(lo: real, x: F64, hi: real) {
    Le(Num(lo), x) && Le(x, Num(hi))
  }

  /** `GeoPoint::new`: the range test is written with `<=` on doubles, so it also turns away NaN and infinities. */
  function NewGeoPoint(lat: F64, lon: F64): (r: Result<GeoPoint, CoreError>)
    ensures r.Ok? <==> ValidPoint(GeoPoint(lat, lon))
    ensures r.Ok? ==> r.value == GeoPoint(lat, lon)
    ensures r.Err? ==> r.error == InvalidCoordinate(lat, lon)
  {
    if !InRange(-90.0, lat, 90.0) || !InRange(-180.0, lon, 180.0)
    then Err(InvalidCoordinate(lat, lon))
    else Ok(GeoPoint(lat, lon))
  }

  datatype OrderStatus = Pending | Assigned | PickedUp | Delivered | Cancelled

  datatype DriverStatus = Available | Busy | Offline

  datatype Order = Order(pickup: GeoPoint, dropoff: GeoPoint, status: OrderStatus)

  datatype Driver = Driver(id: Id, name: string, location: GeoPoint, status: DriverStatus)

  datatype Assignment = Assignment(orderId: Id, driverId: Id, distance: F64)

  /** The event published for an assignment. */
  datatype DispatchAssigned = DispatchAssigned(assignmentId: Id, orderId: Id, driverId: Id, distance: F64)
}
