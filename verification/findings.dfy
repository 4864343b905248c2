/** The size check on the second route's destination, as evidently intended:
    the check that re-tests len(y) should test len(y[1]). With it, every bad
    input is rejected by the checks of `is_longer_trip` itself with a TypeError,
    and no distance is computed for a rejected input. */
module CorrectedTripCheck {
  import opened Python
  import opened TripRule
  import opened SimpleCarpoolComparison

  /** The cascade with the size check on y[1] testing len(y[1]). Up to that
      check the two cascades are the same; once y[1] has two items they agree
      again, because neither subscript can then go out of range. */
  function CheckTripArgsIntended(x: PyVal, y: PyVal): (r: Outcome)
    ensures r.Pass? <==> IsRoute(x) && IsRoute(y)
    ensures r.Fail? ==> r.error.TypeError? && TripInvalid <= r.error.message
  {
    if IsRoute(x) && SecondRouteHasDestinationTuple(y) && |y.items[1].items| != 2 then
      Fail(TripTypeError("Incorrect tuple size in arg[1][1]"))
    else
      CheckTripArgs(x, y)
  }

  /** `is_longer_trip` with the corrected cascade. */
  function IsLongerTripIntended(x: PyVal, y: PyVal, haversine: Distance): (r: Result<bool>)
    ensures r.Ok? <==> IsRoute(x) && IsRoute(y)
    ensures r.Ok? ==>
      r.value == LongerTrip(Source(x), Destination(x), Source(y), Destination(y), haversine)
    ensures r.Err? ==> r == Err(CheckTripArgsIntended(x, y).error)
    ensures r.Err? ==> r.error.TypeError? && TripInvalid <= r.error.message
  {
    match CheckTripArgsIntended(x, y)
    case Fail(e) => Err(e)
    case Pass => IsLongerTrip(x, y, haversine)
  }

  /** The two versions differ exactly on a second route whose destination is
      a tuple of the wrong size; everywhere else the source behaves as intended. */
  lemma AsWrittenAgreesExactlyOffTheDefect(x: PyVal, y: PyVal, haversine: Distance)
    ensures IsLongerTrip(x, y, haversine) == IsLongerTripIntended(x, y, haversine)
        <==> !(IsRoute(x) && SecondRouteHasDestinationTuple(y) && |y.items[1].items| != 2)
  {
  }

  const SomeRoute := PTuple([PTuple([PFloat(1.0), PFloat(2.0)]), PTuple([PFloat(3.0), PFloat(4.0)])])
  const EmptyDestination := PTuple([PTuple([PFloat(5.0), PFloat(6.0)]), PTuple([])])
  const OversizedDestination :=
    PTuple([PTuple([PFloat(5.0), PFloat(6.0)]), PTuple([PFloat(7.0), PFloat(8.0), PFloat(9.0)])])

  /** Inputs that show the defect: an empty y[1] raises IndexError instead of
      the size TypeError, and a three-float y[1] is rejected only by `dist`. */
  lemma DefectWitnesses(haversine: Distance)
    ensures IsLongerTrip(SomeRoute, EmptyDestination, haversine) == Err(IndexError(TupleIndexOutOfRange))
    ensures IsLongerTripIntended(SomeRoute, EmptyDestination, haversine)
         == Err(TripTypeError("Incorrect tuple size in arg[1][1]"))
    ensures IsLongerTrip(SomeRoute, OversizedDestination, haversine)
         == Err(DistTypeError("Incorrect tuple size in arg[1]"))
    ensures IsLongerTripIntended(SomeRoute, OversizedDestination, haversine)
         == Err(TripTypeError("Incorrect tuple size in arg[1][1]"))
  {
    ShortDestinationRaisesIndexError(SomeRoute, EmptyDestination, haversine);
    OversizedDestinationRejectedByDist(SomeRoute, OversizedDestination, haversine);
  }
}
