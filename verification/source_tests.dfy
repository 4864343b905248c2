/** Worked examples of the coordinate conversion used by the module's
    self-test, and the self-test's input rejections, which hold exactly
    whatever the haversine arithmetic computes. */
module SourceTests {
  import opened Python
  import opened TripRule
  import opened SimpleCarpoolComparison

  function Dms(degrees: int, minutes: int, seconds: int, sign: bool): Result<real> {
    CoordinateToFloat(PInt(degrees), PInt(minutes), PInt(seconds), PBool(sign))
  }

  function GeoPoint(lat: real, lon: real): PyVal {
    PTuple([PFloat(lat), PFloat(lon)])
  }

  const NewYork := GeoPoint(Dms(40, 45, 6, true).value, Dms(73, 59, 39, true).value)
  const SanFrancisco := GeoPoint(Dms(37, 46, 39, true).value, Dms(122, 24, 40, true).value)
  const WashingtonDC := GeoPoint(Dms(38, 49, 0, true).value, Dms(76, 59, 0, true).value)
  const Paris := GeoPoint(Dms(48, 52, 0, true).value, Dms(2, 20, 0, false).value)
  const Santiago := GeoPoint(Dms(33, 27, 0, false).value, Dms(70, 42, 0, true).value)

  /** Worked examples: the self-test's calls for New York's and Rio de
      Janeiro's latitudes give exactly 24451/600 and -82423/3600, which are
      close to 40.7517 and -22.8953. */
  lemma ConversionExamples()
    ensures Dms(40, 45, 6, true) == Ok(24451.0 / 600.0)
    ensures Dms(22, 53, 43, false) == Ok(-82423.0 / 3600.0)
    ensures 40.7517 * 0.999 < Dms(40, 45, 6, true).value < 40.7517 * 1.001
    ensures -22.8953 * 1.001 < Dms(22, 53, 43, false).value < -22.8953 * 0.999
  {
  }

  /** A float degree and an int sign are refused, as is a bool degree. */
  lemma ConversionRejections()
    ensures CoordinateToFloat(PFloat(6.6), PInt(5), PInt(4), PBool(true))
         == Err(ConversionTypeError("Expected int in arg[0]"))
    ensures CoordinateToFloat(PInt(6), PInt(5), PInt(4), PInt(1))
         == Err(ConversionTypeError("Expected bool in arg[3]"))
    ensures CoordinateToFloat(PBool(true), PInt(5), PInt(4), PBool(true))
         == Err(ConversionTypeError("Expected int in arg[0]"))
  {
  }

  /** A coordinate pair passed where a route is expected fails the check on
      arg[0][0], whatever the second argument is. */
  lemma PointAsFirstRouteRejected(p: PyVal, y: PyVal, haversine: Distance)
    requires IsGeoPoint(p)
    ensures IsLongerTrip(p, y, haversine) == Err(TripTypeError("Expected tuple in arg[0][0]"))
  {
  }

  /** The rejections the self-test asserts for `is_longer_trip`, with the
      message each one raises. */
  lemma TripRejections(haversine: Distance)
    ensures IsLongerTrip(PTuple([]), NewYork, haversine)
         == Err(TripTypeError("Incorrect tuple size in arg[0]"))
    ensures IsLongerTrip(Paris, PTuple([]), haversine)
         == Err(TripTypeError("Expected tuple in arg[0][0]"))
    ensures IsLongerTrip(Santiago, PTuple([PInt(7), GeoPoint(4.4, 5.5)]), haversine)
         == Err(TripTypeError("Expected tuple in arg[0][0]"))
    ensures IsLongerTrip(Santiago, PTuple([PStr("(1.1, 1.2)"), GeoPoint(4.4, 5.5)]), haversine)
         == Err(TripTypeError("Expected tuple in arg[0][0]"))
    ensures IsLongerTrip(SanFrancisco, PTuple([GeoPoint(1.1, 1.2), PTuple([PFloat(4.4), PInt(7)])]), haversine)
         == Err(TripTypeError("Expected tuple in arg[0][0]"))
    ensures IsLongerTrip(PTuple([PTuple([PStr("x"), PFloat(9.435)]), GeoPoint(4.0, 7.0)]), WashingtonDC, haversine)
         == Err(TripTypeError("Expected float in arg[0][0][0]"))
    ensures IsLongerTrip(PTuple([PTuple([PFloat(6.6), PFloat(9.435), PFloat(4.5)]), GeoPoint(4.0, 7.0)]), WashingtonDC, haversine)
         == Err(TripTypeError("Incorrect tuple size in arg[0][0]"))
    ensures IsLongerTrip(PTuple([GeoPoint(6.6, 9.435), PTuple([PFloat(4.0)])]), WashingtonDC, haversine)
         == Err(TripTypeError("Incorrect tuple size in arg[0][1]"))
    ensures IsLongerTrip(PTuple([GeoPoint(6.6, 9.435), GeoPoint(4.0, 5.5), GeoPoint(6.6, 3.0)]), WashingtonDC, haversine)
         == Err(TripTypeError("Incorrect tuple size in arg[0]"))
  {
  }

  /** The two copied messages: the arg[0][0][1] check reports arg[0][0][0], and
      the tuple check on arg[1][1] reports "Expected float". */
  lemma CopiedMessages(haversine: Distance)
    ensures IsLongerTrip(PTuple([PTuple([PFloat(1.0), PInt(2)]), GeoPoint(3.0, 4.0)]), NewYork, haversine)
         == Err(TripTypeError("Expected float in arg[0][0][0]"))
    ensures IsLongerTrip(PTuple([NewYork, Paris]), PTuple([Paris, PFloat(5.0)]), haversine)
         == Err(TripTypeError("Expected float in arg[1][1]"))
  {
  }

  /** The rejections the self-test asserts for `dist`. */
  lemma DistRejections(haversine: Distance)
    ensures Dist(WashingtonDC, PTuple([PTuple([PInt(1), PInt(2)]), PTuple([PInt(3), PInt(4)])]), haversine)
         == Err(DistTypeError("Expected float in arg[1][0]"))
    ensures Dist(WashingtonDC, PTuple([PTuple([]), GeoPoint(3.0, 4.0)]), haversine)
         == Err(DistTypeError("Expected float in arg[1][0]"))
    ensures Dist(WashingtonDC, PTuple([PTuple([PFloat(2.0), PFloat(4.0), PFloat(1.7)]), GeoPoint(3.0, 4.0)]), haversine)
         == Err(DistTypeError("Expected float in arg[1][0]"))
  {
  }
}
