/** Coordinates and the length of a route through them (`updateRoute` in Map/mapapp.js).
    The great-circle formula itself is kept abstract: a route length is parameterised by
    any distance function on two coordinates that never returns a negative number. */
module Geo {

  /** A geographic coordinate in degrees, as Leaflet's `{lat, lng}`. */
  datatype LatLng = LatLng(lat: real, lng: real)

  /** The pairwise distance in kilometres (`haversineDistance`), known only to be non-negative. */
  type Distance = d: (LatLng, LatLng) -> real | forall a, b :: d(a, b) >= 0.0
    witness (a: LatLng, b: LatLng) => 0.0

  /** Total length of the polyline through `ps` in order: the legs are added from the first
      to the last, the way the script's loop adds them. */
  function PathLength(d: Distance, ps: seq<LatLng>): (r: real)
    ensures r >= 0.0
    decreases |ps|
  {
    if |ps| < 2 then 0.0
    else PathLength(d, ps[..|ps| - 1]) + d(ps[|ps| - 2], ps[|ps| - 1])
  }

  /** Reference definition: d(p0, p1) + d(p1, p2) + ... + d(p(n-2), p(n-1)), peeled from the front. */
  function LegSum(d: Distance, ps: seq<LatLng>): real
  {
    if |ps| < 2 then 0.0 else d(ps[0], ps[1]) + LegSum(d, ps[1..])
  }

  /** Appending a point to a route adds exactly the leg from its last point. */
  lemma {:induction false} LegSumSnoc(d: Distance, ps: seq<LatLng>, q: LatLng)
    requires |ps| >= 1
    ensures LegSum(d, ps + [q]) == LegSum(d, ps) + d(ps[|ps| - 1], q)
  {
    if |ps| == 1 {
      assert (ps + [q])[1..] == [q];
    } else {
      assert (ps + [q])[1..] == ps[1..] + [q];
      LegSumSnoc(d, ps[1..], q);
    }
  }

  /** The accumulated total equals the sum over consecutive pairs. */
  lemma {:induction false} PathLengthIsLegSum(d: Distance, ps: seq<LatLng>)
    ensures PathLength(d, ps) == LegSum(d, ps)
    decreases |ps|
  {
    if |ps| >= 2 {
      var front := ps[..|ps| - 1];
      PathLengthIsLegSum(d, front);
      LegSumSnoc(d, front, ps[|ps| - 1]);
      assert front + [ps[|ps| - 1]] == ps;
    }
  }

  /** Adding a point to the end of a route lengthens it by the new leg only. */
  lemma PathLengthSnoc(d: Distance, ps: seq<LatLng>, q: LatLng)
    requires |ps| >= 1
    ensures PathLength(d, ps + [q]) == PathLength(d, ps) + d(ps[|ps| - 1], q)
  {
    assert (ps + [q])[..|ps|] == ps;
  }

  /** The length is order-dependent: the same three points in another order give another total. */
  lemma OrderMatters()
    ensures var d: Distance := LatGap;
            var a, b, c := LatLng(0.0, 0.0), LatLng(1.0, 0.0), LatLng(2.0, 0.0);
            multiset{a, c, b} == multiset{a, b, c} &&
            PathLength(d, [a, c, b]) != PathLength(d, [a, b, c])
  {
    var d: Distance := LatGap;
    var a, b, c := LatLng(0.0, 0.0), LatLng(1.0, 0.0), LatLng(2.0, 0.0);
    assert [a, c, b][..2] == [a, c] && [a, c][..1] == [a];
    assert [a, b, c][..2] == [a, b] && [a, b][..1] == [a];
    assert d(a, c) == 2.0 && d(c, b) == 1.0 && d(a, b) == 1.0 && d(b, c) == 1.0;
    assert PathLength(d, [a, c]) == PathLength(d, [a]) + d(a, c) == 2.0;
    assert PathLength(d, [a, c, b]) == PathLength(d, [a, c]) + d(c, b) == 3.0;
    assert PathLength(d, [a, b]) == PathLength(d, [a]) + d(a, b) == 1.0;
    assert PathLength(d, [a, b, c]) == 2.0;
  }

  /** A simple distance used to exhibit order dependence: the gap in latitude. */
  const LatGap: Distance := (a: LatLng, b: LatLng) => if a.lat >= b.lat then a.lat - b.lat else b.lat - a.lat

  /** The summation loop of `updateRoute`: `totalDist += d(latlngs[i], latlngs[i + 1])`. */
  method SumLegs(d: Distance, ps: seq<LatLng>) returns (total: real)
    ensures total == PathLength(d, ps)
    ensures total == LegSum(d, ps)
  {
    total := 0.0;
    var i := 0;
    while i < |ps| - 1
      invariant |ps| == 0 ==> i == 0 && total == 0.0
      invariant |ps| > 0 ==> 0 <= i <= |ps| - 1 && total == PathLength(d, ps[..i + 1])
    {
      assert ps[..i + 2][..i + 1] == ps[..i + 1];
      total := total + d(ps[i], ps[i + 1]);
      i := i + 1;
    }
    if |ps| > 0 {
      assert ps[..i + 1] == ps;
    }
    PathLengthIsLegSum(d, ps);
  }
}
