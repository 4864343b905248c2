/** The trip-comparison rule of `is_longer_trip`, stated over an arbitrary
    distance function: nothing here depends on how the distance is computed. */
module TripRule {

  /** A point given as (latitude, longitude) in decimal degrees. */
  datatype Coord = Coord(lat: real, lon: real)

  /** Any distance between two points; the haversine formula is one of them. */
  type Distance = (Coord, Coord) -> real

  /** Reference definition: the length of travelling along `path` leg by leg. */
  function PathLength(path: seq<Coord>, dist: Distance): real
  {
    if |path| < 2 then 0.0 else dist(path[0], path[1]) + PathLength(path[1..], dist)
  }

  /** Travelling one leg further adds exactly that leg, which is what each
      `trip += dist(p, q)` step of the source does. */
  lemma {:induction false} PathLengthExtend(path: seq<Coord>, q: Coord, dist: Distance)
    requires |path| >= 1
    ensures PathLength(path + [q], dist) == PathLength(path, dist) + dist(path[|path| - 1], q)
  {
    if |path| == 1 {
      assert (path + [q])[1..] == [q];
    } else {
      assert (path + [q])[1..] == path[1..] + [q];
      PathLengthExtend(path[1..], q, dist);
    }
  }

  /** `xtrip`: start at 0.0 and add the legs a->c, c->d, d->b in that order. */
  function XTrip(a: Coord, b: Coord, c: Coord, d: Coord, dist: Distance): real
  {
    0.0 + dist(a, c) + dist(c, d) + dist(d, b)
  }

  /** `ytrip`: start at 0.0 and add the legs c->a, a->b, b->d in that order. */
  function YTrip(a: Coord, b: Coord, c: Coord, d: Coord, dist: Distance): real
  {
    0.0 + dist(c, a) + dist(a, b) + dist(b, d)
  }

  /** The accumulated sums are the lengths of the two detour paths
      a->c->d->b (the first driver fetches the second) and
      c->a->b->d (the second driver fetches the first). */
  lemma TripsAreDetourPaths(a: Coord, b: Coord, c: Coord, d: Coord, dist: Distance)
    ensures XTrip(a, b, c, d, dist) == PathLength([a, c, d, b], dist)
    ensures YTrip(a, b, c, d, dist) == PathLength([c, a, b, d], dist)
  {
    PathLengthExtend([a], c, dist);
    PathLengthExtend([a, c], d, dist);
    PathLengthExtend([a, c, d], b, dist);
    assert [a] + [c] == [a, c];
    assert [a, c] + [d] == [a, c, d];
    assert [a, c, d] + [b] == [a, c, d, b];
    PathLengthExtend([c], a, dist);
    PathLengthExtend([c, a], b, dist);
    PathLengthExtend([c, a, b], d, dist);
    assert [c] + [a] == [c, a];
    assert [c, a] + [b] == [c, a, b];
    assert [c, a, b] + [d] == [c, a, b, d];
  }

  /** The decision of `is_longer_trip` on well-formed routes x = (a, b) and
      y = (c, d): True exactly when the first driver's detour is strictly
      longer than the second's. */
  function LongerTrip(a: Coord, b: Coord, c: Coord, d: Coord, dist: Distance): (longer: bool)
    ensures longer <==> PathLength([a, c, d, b], dist) > PathLength([c, a, b, d], dist)
  {
    TripsAreDetourPaths(a, b, c, d, dist);
    XTrip(a, b, c, d, dist) > YTrip(a, b, c, d, dist)
  }

  /** A tie goes to the second route: equal detours give False. */
  lemma TieIsNotLonger(a: Coord, b: Coord, c: Coord, d: Coord, dist: Distance)
    requires PathLength([a, c, d, b], dist) == PathLength([c, a, b, d], dist)
    ensures !LongerTrip(a, b, c, d, dist)
  {
  }

  /** Swapping the two routes swaps the two detours, for any distance. */
  lemma SwapRoutesSwapsTrips(a: Coord, b: Coord, c: Coord, d: Coord, dist: Distance)
    ensures XTrip(c, d, a, b, dist) == YTrip(a, b, c, d, dist)
    ensures YTrip(c, d, a, b, dist) == XTrip(a, b, c, d, dist)
  {
  }

  /** The rule is asymmetric and decides every pair: at most one order of the
      routes is longer, and neither is exactly on a tie. */
  lemma LongerTripAsymmetric(a: Coord, b: Coord, c: Coord, d: Coord, dist: Distance)
    ensures !(LongerTrip(a, b, c, d, dist) && LongerTrip(c, d, a, b, dist))
    ensures (!LongerTrip(a, b, c, d, dist) && !LongerTrip(c, d, a, b, dist))
            <==> XTrip(a, b, c, d, dist) == YTrip(a, b, c, d, dist)
  {
    SwapRoutesSwapsTrips(a, b, c, d, dist);
  }
}
