/** The static methods of class SimpleCarpoolComparison: `is_longer_trip`,
    the input checks of `dist` (its haversine arithmetic is the parameter
    `haversine`), and `coordinate_to_float`. Each validator is the source's
    if/elif cascade, in the source's order, with the source's messages. */
module SimpleCarpoolComparison {
  import opened Python
  import opened TripRule

  const TripInvalid := "Invalid input to is_longer_trip! "
  const DistInvalid := "Invalid input to dist! "
  const ConversionInvalid := "Invalid input to coordinate_to_float! "

  function TripTypeError(detail: string): PyError { TypeError(TripInvalid + detail) }
  function DistTypeError(detail: string): PyError { TypeError(DistInvalid + detail) }
  function ConversionTypeError(detail: string): PyError { TypeError(ConversionInvalid + detail) }

  /** A coordinate pair as the source expects it: a 2-tuple of floats. */
  predicate IsGeoPoint(v: PyVal) {
    v.PTuple? && |v.items| == 2 && v.items[0].PFloat? && v.items[1].PFloat?
  }

  /** A route as the source expects it: a 2-tuple (source, destination) of coordinate pairs. */
  predicate IsRoute(v: PyVal) {
    v.PTuple? && |v.items| == 2 && IsGeoPoint(v.items[0]) && IsGeoPoint(v.items[1])
  }

  /** A tuple whose first two items are floats, whatever its length. */
  predicate StartsWithTwoFloats(v: PyVal) {
    v.PTuple? && |v.items| >= 2 && v.items[0].PFloat? && v.items[1].PFloat?
  }

  /** Everything the cascade of `is_longer_trip` checks about y before it reaches y[1][0]. */
  predicate SecondRouteHasDestinationTuple(y: PyVal) {
    y.PTuple? && |y.items| == 2 && IsGeoPoint(y.items[0]) && y.items[1].PTuple?
  }

  function ToCoord(p: PyVal): Coord
    requires IsGeoPoint(p)
  {
    Coord(p.items[0].f, p.items[1].f)
  }

  function Source(route: PyVal): Coord
    requires IsRoute(route)
  {
    ToCoord(route.items[0])
  }

  function Destination(route: PyVal): Coord
    requires IsRoute(route)
  {
    ToCoord(route.items[1])
  }

  /** The input checks of `is_longer_trip`, as written. The check for the size
      of y[1] re-tests len(y), so y[1] needs only two leading floats to pass and
      a shorter y[1] makes the subscripts y[1][0] or y[1][1] raise IndexError. */
  function CheckTripArgs(x: PyVal, y: PyVal): (r: Outcome)
    ensures r.Pass? <==>
      IsRoute(x) && SecondRouteHasDestinationTuple(y) && StartsWithTwoFloats(y.items[1])
    ensures r.Fail? && r.error.IndexError? <==>
      && IsRoute(x) && SecondRouteHasDestinationTuple(y)
      && var d := y.items[1].items;
         |d| == 0 || (|d| == 1 && d[0].PFloat?)
    ensures r.Fail? && r.error.IndexError? ==> r.error.message == TupleIndexOutOfRange
    ensures r.Fail? && r.error.TypeError? ==> TripInvalid <= r.error.message
  {
    if !x.PTuple? then Fail(TripTypeError("Expected tuple in arg[0]"))
    else if |x.items| != 2 then Fail(TripTypeError("Incorrect tuple size in arg[0]"))
    else if !x.items[0].PTuple? then Fail(TripTypeError("Expected tuple in arg[0][0]"))
    else if |x.items[0].items| != 2 then Fail(TripTypeError("Incorrect tuple size in arg[0][0]"))
    else if !x.items[0].items[0].PFloat? then Fail(TripTypeError("Expected float in arg[0][0][0]"))
    // the source reports the [0][0][1] check with the [0][0][0] message
    else if !x.items[0].items[1].PFloat? then Fail(TripTypeError("Expected float in arg[0][0][0]"))
    else if !x.items[1].PTuple? then Fail(TripTypeError("Expected tuple in arg[0][1]"))
    else if |x.items[1].items| != 2 then Fail(TripTypeError("Incorrect tuple size in arg[0][1]"))
    else if !x.items[1].items[0].PFloat? then Fail(TripTypeError("Expected float in arg[0][1][0]"))
    else if !x.items[1].items[1].PFloat? then Fail(TripTypeError("Expected float in arg[0][1][1]"))
    else if !y.PTuple? then Fail(TripTypeError("Expected tuple in arg[1]"))
    else if |y.items| != 2 then Fail(TripTypeError("Incorrect tuple size in arg[1]"))
    else if !y.items[0].PTuple? then Fail(TripTypeError("Expected tuple in arg[1][0]"))
    else if |y.items[0].items| != 2 then Fail(TripTypeError("Incorrect tuple size in arg[1][0]"))
    else if !y.items[0].items[0].PFloat? then Fail(TripTypeError("Expected float in arg[1][0][0]"))
    else if !y.items[0].items[1].PFloat? then Fail(TripTypeError("Expected float in arg[1][0][1]"))
    // the source reports the tuple check on y[1] as "Expected float"
    else if !y.items[1].PTuple? then Fail(TripTypeError("Expected float in arg[1][1]"))
    // the source tests len(y) here, which is already known to be 2
    else if |y.items| != 2 then Fail(TripTypeError("Incorrect tuple size in arg[1][1]"))
    else
      match Subscript(y.items[1], 0)
      case Err(e) => Fail(e)
      case Ok(d0) =>
        if !d0.PFloat? then Fail(TripTypeError("Expected float in arg[1][1][0]"))
        else
          match Subscript(y.items[1], 1)
          case Err(e) => Fail(e)
          case Ok(d1) =>
            if !d1.PFloat? then Fail(TripTypeError("Expected float in arg[1][1][1]"))
            else Pass
  }

  /** The input checks of `dist`: two coordinate pairs of floats. */
  function CheckDistArgs(v1: PyVal, v2: PyVal): (r: Outcome)
    ensures r.Pass? <==> IsGeoPoint(v1) && IsGeoPoint(v2)
    ensures r.Fail? ==> r.error.TypeError? && DistInvalid <= r.error.message
  {
    if !v1.PTuple? then Fail(DistTypeError("Expected tuple in arg[0]"))
    else if |v1.items| != 2 then Fail(DistTypeError("Incorrect tuple size in arg[0]"))
    else if !v1.items[0].PFloat? then Fail(DistTypeError("Expected float in arg[0][0]"))
    else if !v1.items[1].PFloat? then Fail(DistTypeError("Expected float in arg[0][1]"))
    else if !v2.PTuple? then Fail(DistTypeError("Expected tuple in arg[1]"))
    else if |v2.items| != 2 then Fail(DistTypeError("Incorrect tuple size in arg[1]"))
    else if !v2.items[0].PFloat? then Fail(DistTypeError("Expected float in arg[1][0]"))
    else if !v2.items[1].PFloat? then Fail(DistTypeError("Expected float in arg[1][1]"))
    else Pass
  }

  /** The details of the messages the checks on x can raise (the [0][0][1]
      check reuses the [0][0][0] message). */
  const FirstRouteDetails: set<string> := {
    "Expected tuple in arg[0]", "Incorrect tuple size in arg[0]",
    "Expected tuple in arg[0][0]", "Incorrect tuple size in arg[0][0]", "Expected float in arg[0][0][0]",
    "Expected tuple in arg[0][1]", "Incorrect tuple size in arg[0][1]",
    "Expected float in arg[0][1][0]", "Expected float in arg[0][1][1]"
  }

  /** The details of the TypeError messages the checks on y can raise. The size
      check on y[1] cannot fire, so "Incorrect tuple size in arg[1][1]" is not among them. */
  const SecondRouteDetails: set<string> := {
    "Expected tuple in arg[1]", "Incorrect tuple size in arg[1]",
    "Expected tuple in arg[1][0]", "Incorrect tuple size in arg[1][0]",
    "Expected float in arg[1][0][0]", "Expected float in arg[1][0][1]",
    "Expected float in arg[1][1]", "Expected float in arg[1][1][0]", "Expected float in arg[1][1][1]"
  }

  /** The checks on x run before any check on y: a bad x raises an arg[0]
      TypeError, the same one whatever y is. */
  lemma FirstRouteCheckedFirst(x: PyVal, y: PyVal, y': PyVal)
    requires !IsRoute(x)
    ensures CheckTripArgs(x, y) == CheckTripArgs(x, y')
    ensures CheckTripArgs(x, y).Fail? && CheckTripArgs(x, y).error.TypeError?
    ensures var m := CheckTripArgs(x, y).error.message;
      TripInvalid <= m && m[|TripInvalid|..] in FirstRouteDetails
  {
  }

  /** Once x is a route, the outcome depends on y alone, and every TypeError
      it raises names a position in arg[1]. */
  lemma SecondRouteCheckedAfterFirst(x: PyVal, x': PyVal, y: PyVal)
    requires IsRoute(x) && IsRoute(x')
    ensures CheckTripArgs(x, y) == CheckTripArgs(x', y)
    ensures CheckTripArgs(x, y).Fail? && CheckTripArgs(x, y).error.TypeError? ==>
      var m := CheckTripArgs(x, y).error.message;
      TripInvalid <= m && m[|TripInvalid|..] in SecondRouteDetails
  {
  }

  /** The checks on v1 run before any check on v2: a bad v1 raises an arg[0]
      TypeError, the same one whatever v2 is. */
  lemma FirstPointCheckedFirst(v1: PyVal, v2: PyVal, w: PyVal)
    requires !IsGeoPoint(v1)
    ensures CheckDistArgs(v1, v2) == CheckDistArgs(v1, w)
    ensures CheckDistArgs(v1, v2).Fail?
    ensures var m := CheckDistArgs(v1, v2).error.message;
      DistInvalid <= m && m[|DistInvalid|..] in
        {"Expected tuple in arg[0]", "Incorrect tuple size in arg[0]",
         "Expected float in arg[0][0]", "Expected float in arg[0][1]"}
  {
  }

  /** Once v1 is a coordinate pair, the outcome depends on v2 alone, and every
      rejection names a position in arg[1]. */
  lemma SecondPointCheckedAfterFirst(v1: PyVal, v1': PyVal, v2: PyVal)
    requires IsGeoPoint(v1) && IsGeoPoint(v1')
    ensures CheckDistArgs(v1, v2) == CheckDistArgs(v1', v2)
    ensures CheckDistArgs(v1, v2).Fail? ==>
      var m := CheckDistArgs(v1, v2).error.message;
      DistInvalid <= m && m[|DistInvalid|..] in
        {"Expected tuple in arg[1]", "Incorrect tuple size in arg[1]",
         "Expected float in arg[1][0]", "Expected float in arg[1][1]"}
  {
  }

  /** `dist(v1, v2)`: the checks, then the distance `haversine` gives for the two points. */
  function Dist(v1: PyVal, v2: PyVal, haversine: Distance): (r: Result<real>)
    ensures r.Ok? <==> IsGeoPoint(v1) && IsGeoPoint(v2)
    ensures r.Ok? ==> r.value == haversine(ToCoord(v1), ToCoord(v2))
    ensures r.Err? ==> r.error == CheckDistArgs(v1, v2).error
  {
    match CheckDistArgs(v1, v2)
    case Fail(e) => Err(e)
    case Pass => Ok(haversine(ToCoord(v1), ToCoord(v2)))
  }

  /** `trip += leg`, where computing the leg may raise: the first exception wins. */
  function AddLeg(trip: Result<real>, leg: Result<real>): Result<real>
  {
    match trip
    case Err(e) => Err(e)
    case Ok(t) =>
      match leg
      case Err(e) => Err(e)
      case Ok(l) => Ok(t + l)
  }

  /** `is_longer_trip(x, y)`: the checks, then six calls of `dist` in the
      source's order and the comparison `xtrip > ytrip`. A failing check raises
      before any distance is computed, so its error does not depend on
      `haversine`; a y[1] with more than two floats gets past the checks and is
      rejected by the second call, `dist(c, d)`. */
  function IsLongerTrip(x: PyVal, y: PyVal, haversine: Distance): (r: Result<bool>)
    ensures r.Ok? <==> IsRoute(x) && IsRoute(y)
    ensures r.Ok? ==>
      r.value == LongerTrip(Source(x), Destination(x), Source(y), Destination(y), haversine)
    ensures CheckTripArgs(x, y).Fail? ==> r == Err(CheckTripArgs(x, y).error)
  {
    match CheckTripArgs(x, y)
    case Fail(e) => Err(e)
    case Pass =>
      var a, b, c, d := x.items[0], x.items[1], y.items[0], y.items[1];
      var xtrip := AddLeg(AddLeg(AddLeg(Ok(0.0), Dist(a, c, haversine)), Dist(c, d, haversine)), Dist(d, b, haversine));
      match xtrip
      case Err(e) => Err(e)
      case Ok(xt) =>
        var ytrip := AddLeg(AddLeg(AddLeg(Ok(0.0), Dist(c, a, haversine)), Dist(a, b, haversine)), Dist(b, d, haversine));
        match ytrip
        case Err(e) => Err(e)
        case Ok(yt) => Ok(xt > yt)
  }

  /** A destination y[1] of more than two floats passes the checks of
      `is_longer_trip` and is rejected by `dist(c, d)` with the message of `dist`. */
  lemma OversizedDestinationRejectedByDist(x: PyVal, y: PyVal, haversine: Distance)
    requires IsRoute(x) && SecondRouteHasDestinationTuple(y)
    requires StartsWithTwoFloats(y.items[1]) && |y.items[1].items| > 2
    ensures CheckTripArgs(x, y) == Pass
    ensures IsLongerTrip(x, y, haversine) == Err(DistTypeError("Incorrect tuple size in arg[1]"))
  {
    assert CheckDistArgs(y.items[0], y.items[1]) == Fail(DistTypeError("Incorrect tuple size in arg[1]"));
  }

  /** A destination y[1] that is empty, or a single float, raises IndexError
      rather than the TypeError the cascade raises for every other bad size. */
  lemma ShortDestinationRaisesIndexError(x: PyVal, y: PyVal, haversine: Distance)
    requires IsRoute(x) && SecondRouteHasDestinationTuple(y)
    requires y.items[1] == PTuple([]) || (exists f: real :: y.items[1] == PTuple([PFloat(f)]))
    ensures IsLongerTrip(x, y, haversine) == Err(IndexError(TupleIndexOutOfRange))
  {
  }

  /** Calling `is_longer_trip` with the routes in both orders: at most one call
      says True, and both say False exactly when the two detours tie. */
  lemma IsLongerTripAsymmetric(x: PyVal, y: PyVal, haversine: Distance)
    requires IsRoute(x) && IsRoute(y)
    ensures IsLongerTrip(x, y, haversine).Ok? && IsLongerTrip(y, x, haversine).Ok?
    ensures !(IsLongerTrip(x, y, haversine).value && IsLongerTrip(y, x, haversine).value)
    ensures (!IsLongerTrip(x, y, haversine).value && !IsLongerTrip(y, x, haversine).value)
            <==> PathLength([Source(x), Source(y), Destination(y), Destination(x)], haversine)
                 == PathLength([Source(y), Source(x), Destination(x), Destination(y)], haversine)
  {
    var a, b, c, d := Source(x), Destination(x), Source(y), Destination(y);
    LongerTripAsymmetric(a, b, c, d, haversine);
    TripsAreDetourPaths(a, b, c, d, haversine);
  }

  /** `coordinate_to_float(degrees, minutes, seconds, sign)`: three exact ints
      and a bool, converted to decimal degrees over the reals. */
  function CoordinateToFloat(degrees: PyVal, minutes: PyVal, seconds: PyVal, sign: PyVal): (r: Result<real>)
    ensures r.Ok? <==> degrees.PInt? && minutes.PInt? && seconds.PInt? && sign.PBool?
    ensures r.Ok? ==>
      var magnitude := degrees.i as real + minutes.i as real / 60.0 + seconds.i as real / 3600.0;
      r.value == if sign.b then magnitude else -magnitude
    ensures !degrees.PInt? ==> r == Err(ConversionTypeError("Expected int in arg[0]"))
    ensures degrees.PInt? && !minutes.PInt? ==> r == Err(ConversionTypeError("Expected int in arg[1]"))
    ensures degrees.PInt? && minutes.PInt? && !seconds.PInt? ==>
      r == Err(ConversionTypeError("Expected int in arg[2]"))
    ensures degrees.PInt? && minutes.PInt? && seconds.PInt? && !sign.PBool? ==>
      r == Err(ConversionTypeError("Expected bool in arg[3]"))
  {
    if !degrees.PInt? then Err(ConversionTypeError("Expected int in arg[0]"))
    else if !minutes.PInt? then Err(ConversionTypeError("Expected int in arg[1]"))
    else if !seconds.PInt? then Err(ConversionTypeError("Expected int in arg[2]"))
    else if !sign.PBool? then Err(ConversionTypeError("Expected bool in arg[3]"))
    else
      var ret0 := degrees.i as real + 0.0;
      var ret1 := ret0 + minutes.i as real / 60.0;
      var ret2 := ret1 + seconds.i as real / 3600.0;
      if sign.b then Ok(ret2) else Ok(-ret2)
  }

  /** The southern/eastern value is the exact negation of the northern/western one. */
  lemma NegativeHemisphereNegates(degrees: int, minutes: int, seconds: int)
    ensures CoordinateToFloat(PInt(degrees), PInt(minutes), PInt(seconds), PBool(false)).value
         == -CoordinateToFloat(PInt(degrees), PInt(minutes), PInt(seconds), PBool(true)).value
  {
  }
}
