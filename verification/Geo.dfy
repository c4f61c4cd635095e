/** `nearest_driver`: the iterator chain filter, map, filter, `min_by`, and what it selects. */
module Geo {
  import opened Model
  import opened Wrappers

  type Metric = (GeoPoint, GeoPoint) -> F64

  type Measured = (Driver, F64)

  function Filter<T>(p: T -> bool, s: seq<T>): (r: seq<T>)
  {
    if s == [] then []
    else
      var n := |s| - 1;
      Filter(p, s[..n]) + (if p(s[n]) then [s[n]] else [])
  }

  function Map<T, U>(f: T -> U, s: seq<T>): (r: seq<U>)
  {
    if s == [] then []
    else
      var n := |s| - 1;
      Map(f, s[..n]) + [f(s[n])]
  }

  /** `Iterator::min_by`: a left fold that keeps what it has unless the next element is strictly smaller. */
  function MinBy(s: seq<Measured>): Option<Measured>
  {
    if s == [] then None
    else
      var n := |s| - 1;
      match MinBy(s[..n])
      case None => Some(s[n])
      case Some(best) => Some(if Precedes(s[n].1, best.1) then s[n] else best)
  }

  predicate IsAvailable(d: Driver) {
    d.status == Available
  }

  function Measure(dist: Metric, pickup: GeoPoint): Driver -> Measured {
    (d: Driver) => (d, dist(pickup, d.location))
  }

  function WithinRadius(radiusKm: nat): Measured -> bool {
    (m: Measured) => Le(m.1, Num(radiusKm as real))
  }

  function InRangeOf(dist: Metric, pickup: GeoPoint, candidates: seq<Driver>, radiusKm: nat): seq<Measured> {
    Filter(WithinRadius(radiusKm), Map(Measure(dist, pickup), Filter(IsAvailable, candidates)))
  }

  function OkOrNoDriver(m: Option<Measured>, radiusKm: nat): Result<Measured, CoreError> {
    match m
    case None => Err(NoDriverInRange(radiusKm))
    case Some(x) => Ok(x)
  }

  function NearestDriver(dist: Metric, pickup: GeoPoint, candidates: seq<Driver>, radiusKm: nat)
    : Result<Measured, CoreError>
  {
    OkOrNoDriver(MinBy(InRangeOf(dist, pickup, candidates, radiusKm)), radiusKm)
  }

  // What is selected, said about the candidate slice itself.

  predicate Eligible(dist: Metric, pickup: GeoPoint, d: Driver, radiusKm: nat) {
    d.status == Available && Le(dist(pickup, d.location), Num(radiusKm as real))
  }

  /** `i` is the first of the eligible candidates at minimum distance. */
  ghost predicate IsNearest(dist: Metric, pickup: GeoPoint, candidates: seq<Driver>, radiusKm: nat, i: nat) {
    && i < |candidates|
    && Eligible(dist, pickup, candidates[i], radiusKm)
    && (forall j | 0 <= j < |candidates| && Eligible(dist, pickup, candidates[j], radiusKm) ::
          !Precedes(dist(pickup, candidates[j].location), dist(pickup, candidates[i].location)))
    && (forall j | 0 <= j < i && Eligible(dist, pickup, candidates[j], radiusKm) ::
          Precedes(dist(pickup, candidates[i].location), dist(pickup, candidates[j].location)))
  }

  lemma FilterStep<T>(p: T -> bool, s: seq<T>, x: T)
    ensures Filter(p, s + [x]) == Filter(p, s) + (if p(x) then [x] else [])
  {
    assert (s + [x])[..|s|] == s;
  }

  lemma MapStep<T, U>(f: T -> U, s: seq<T>, x: T)
    ensures Map(f, s + [x]) == Map(f, s) + [f(x)]
  {
    assert (s + [x])[..|s|] == s;
  }

  /** The chain is a scan: one more candidate adds its measurement exactly when it is eligible. */
  lemma InRangeStep(dist: Metric, pickup: GeoPoint, cs: seq<Driver>, d: Driver, radiusKm: nat)
    ensures InRangeOf(dist, pickup, cs + [d], radiusKm)
         == InRangeOf(dist, pickup, cs, radiusKm)
          + (if Eligible(dist, pickup, d, radiusKm) then [(d, dist(pickup, d.location))] else [])
  {
    var available, measure := Filter(IsAvailable, cs), Measure(dist, pickup);
    FilterStep(IsAvailable, cs, d);
    MapStep(measure, available, d);
    FilterStep(WithinRadius(radiusKm), Map(measure, available), measure(d));
    assert available + [] == available;
    assert InRangeOf(dist, pickup, cs, radiusKm) + [] == InRangeOf(dist, pickup, cs, radiusKm);
  }

  lemma MinByStep(kept: seq<Measured>, x: Measured)
    ensures MinBy(kept + [x])
         == match MinBy(kept)
            case None => Some(x)
            case Some(best) => Some(if Precedes(x.1, best.1) then x else best)
  {
    assert (kept + [x])[..|kept|] == kept;
  }

  /** What the answer becomes when one more candidate is measured: it wins only by being strictly closer. */
  function Improve(before: Result<Measured, CoreError>, m: Measured): Result<Measured, CoreError> {
    if before.Err? || Precedes(m.1, before.value.1) then Ok(m) else before
  }

  lemma NearestStep(dist: Metric, pickup: GeoPoint, cs: seq<Driver>, d: Driver, radiusKm: nat)
    ensures NearestDriver(dist, pickup, cs + [d], radiusKm)
         == var before := NearestDriver(dist, pickup, cs, radiusKm);
            if Eligible(dist, pickup, d, radiusKm) then Improve(before, (d, dist(pickup, d.location))) else before
  {
    var kept, x := InRangeOf(dist, pickup, cs, radiusKm), (d, dist(pickup, d.location));
    if Eligible(dist, pickup, d, radiusKm) {
      assert InRangeOf(dist, pickup, cs + [d], radiusKm) == kept + [x] by {
        InRangeStep(dist, pickup, cs, d, radiusKm);
      }
      MinByStep(kept, x);
    } else {
      assert InRangeOf(dist, pickup, cs + [d], radiusKm) == kept by {
        InRangeStep(dist, pickup, cs, d, radiusKm);
        assert kept + [] == kept;
      }
    }
  }

  /** The specification: an error when nobody is eligible, else the first candidate at minimum distance. */
  ghost predicate Selects(dist: Metric, pickup: GeoPoint, cs: seq<Driver>, radiusKm: nat,
                          r: Result<Measured, CoreError>) {
    match r
    case Err(e) =>
      e == NoDriverInRange(radiusKm) && forall j | 0 <= j < |cs| :: !Eligible(dist, pickup, cs[j], radiusKm)
    case Ok((d, x)) =>
      x == dist(pickup, d.location) && exists i: nat :: IsNearest(dist, pickup, cs, radiusKm, i) && cs[i] == d
  }

  lemma KeepNearest(dist: Metric, pickup: GeoPoint, cs: seq<Driver>, d: Driver, radiusKm: nat, i: nat)
    requires IsNearest(dist, pickup, cs, radiusKm, i)
    requires Eligible(dist, pickup, d, radiusKm) ==> !Precedes(dist(pickup, d.location), dist(pickup, cs[i].location))
    ensures IsNearest(dist, pickup, cs + [d], radiusKm, i)
  {
    var all := cs + [d];
    forall j | 0 <= j < |all| && Eligible(dist, pickup, all[j], radiusKm)
      ensures !Precedes(dist(pickup, all[j].location), dist(pickup, all[i].location))
    {
      assert j < |cs| ==> all[j] == cs[j];
    }
    forall j | 0 <= j < i && Eligible(dist, pickup, all[j], radiusKm)
      ensures Precedes(dist(pickup, all[i].location), dist(pickup, all[j].location))
    {
      assert all[j] == cs[j];
    }
  }

  lemma NewNearest(dist: Metric, pickup: GeoPoint, cs: seq<Driver>, d: Driver, radiusKm: nat)
    requires Eligible(dist, pickup, d, radiusKm)
    requires forall j | 0 <= j < |cs| && Eligible(dist, pickup, cs[j], radiusKm) ::
               Precedes(dist(pickup, d.location), dist(pickup, cs[j].location))
    ensures IsNearest(dist, pickup, cs + [d], radiusKm, |cs|)
  {
    var all := cs + [d];
    forall j | 0 <= j < |all| && Eligible(dist, pickup, all[j], radiusKm)
      ensures j < |cs| ==> Precedes(dist(pickup, d.location), dist(pickup, all[j].location))
    {
      assert j < |cs| ==> all[j] == cs[j];
    }
  }

  /** `nearest_driver` meets its specification on every candidate slice. */
  lemma {:induction false} NearestDriverIsNearest(dist: Metric, pickup: GeoPoint, cs: seq<Driver>, radiusKm: nat)
    ensures Selects(dist, pickup, cs, radiusKm, NearestDriver(dist, pickup, cs, radiusKm))
    decreases |cs|
  {
    if cs == [] {
    } else {
      var n := |cs| - 1;
      var before, d := cs[..n], cs[n];
      assert cs == before + [d];
      NearestDriverIsNearest(dist, pickup, before, radiusKm);
      NearestStep(dist, pickup, before, d, radiusKm);
      var r := NearestDriver(dist, pickup, before, radiusKm);
      if Eligible(dist, pickup, d, radiusKm) && (r.Err? || Precedes(dist(pickup, d.location), r.value.1)) {
        NewNearest(dist, pickup, before, d, radiusKm);
      } else if r.Ok? {
        var i: nat :| IsNearest(dist, pickup, before, radiusKm, i) && before[i] == r.value.0;
        KeepNearest(dist, pickup, before, d, radiusKm, i);
      }
    }
  }

  /** A NaN or infinite distance is never the result: what is returned passed the radius test. */
  lemma NearestDistanceIsInRange(dist: Metric, pickup: GeoPoint, cs: seq<Driver>, radiusKm: nat)
    ensures var r := NearestDriver(dist, pickup, cs, radiusKm);
            r.Ok? ==> (
              && r.value.0 in cs && r.value.0.status == Available
              && r.value.1 == dist(pickup, r.value.0.location)
              && Le(r.value.1, Num(radiusKm as real)) && r.value.1 != NaN)
  {
    NearestDriverIsNearest(dist, pickup, cs, radiusKm);
  }

  /** Distances of eligible candidates are never NaN, and `total_cmp` orders them like `<`. */
  lemma EligibleDistancesCompare(dist: Metric, pickup: GeoPoint, d: Driver, e: Driver, radiusKm: nat)
    requires Eligible(dist, pickup, d, radiusKm) && Eligible(dist, pickup, e, radiusKm)
    ensures Precedes(dist(pickup, d.location), dist(pickup, e.location))
       <==> !Le(dist(pickup, e.location), dist(pickup, d.location))
  {
  }

  /** Row order decides ties only: the same rows in another order give the same distance, or the same error. */
  lemma DistanceIgnoresOrder(dist: Metric, pickup: GeoPoint, cs: seq<Driver>, ds: seq<Driver>, radiusKm: nat)
    requires forall d :: d in cs <==> d in ds
    ensures var r, q := NearestDriver(dist, pickup, cs, radiusKm), NearestDriver(dist, pickup, ds, radiusKm);
            r.Ok? == q.Ok? && (r.Ok? ==> r.value.1 == q.value.1)
  {
    NearestDriverIsNearest(dist, pickup, cs, radiusKm);
    NearestDriverIsNearest(dist, pickup, ds, radiusKm);
    var r, q := NearestDriver(dist, pickup, cs, radiusKm), NearestDriver(dist, pickup, ds, radiusKm);
    if r.Ok? {
      assert r.value.0 in ds;
    }
    if q.Ok? {
      assert q.value.0 in cs;
    }
  }

  /**
   What the transaction code needs from its matcher: an answer is one of the available candidates. The
   concurrency proofs hold for any such function; `Matching` is the one the worker uses.
   */
  type Matcher = f: (GeoPoint, seq<Driver>) -> Result<Measured, CoreError>
    | forall p, cs :: f(p, cs).Ok? ==> f(p, cs).value.0 in cs && f(p, cs).value.0.status == Available
    witness (p, cs) => Err(NoDriverInRange(0))

  function Matching(dist: Metric, radiusKm: nat): (f: Matcher)
    ensures forall p, cs :: f(p, cs) == NearestDriver(dist, p, cs, radiusKm)
  {
    var f := (p: GeoPoint, cs: seq<Driver>) => NearestDriver(dist, p, cs, radiusKm);
    assert forall p, cs :: f(p, cs).Ok? ==> f(p, cs).value.0 in cs && f(p, cs).value.0.status == Available by {
      forall p, cs ensures f(p, cs).Ok? ==> f(p, cs).value.0 in cs && f(p, cs).value.0.status == Available {
        NearestDistanceIsInRange(dist, p, cs, radiusKm);
      }
    }
    f
  }
}
