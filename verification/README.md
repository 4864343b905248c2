# Carpool detour comparison, modelled in Dafny

`SimpleCarpoolComparison` decides which of two drivers has the longer detour
when each would pick up and drop off the other. Driver one travels a→b (route
`x`), driver two c→d (route `y`). `is_longer_trip(x, y)` adds up the path
a→c→d→b (`xtrip`) and the path c→a→b→d (`ytrip`). It returns True when `xtrip`
is strictly longer, so a tie gives False. Each leg is a great-circle distance
from `dist`. `coordinate_to_float` turns degrees, minutes and seconds into
decimal degrees.

What this model covers:

- Python values as a small datatype `PyVal`: tuple, float, int, bool or str. The
  type tests are exact, so a bool is neither an int nor a float.
- The input cascades of `is_longer_trip`, `dist` and `coordinate_to_float`. Each
  check comes in the source's order and raises `TypeError` with the source's
  message, copy-paste slips included. An out-of-range subscript raises
  `IndexError`.
- The comparison rule over an arbitrary distance function. Every property
  proved about the rule holds whatever `dist` computes.
- The degree/minute/second conversion as exact arithmetic over the reals.

Files:

- `python.dfy` (module `Python`): values, exceptions, results and tuple subscripts.
- `trip_rule.dfy` (module `TripRule`): path length, `xtrip`, `ytrip`, the rule and its lemmas.
- `carpool.dfy` (module `SimpleCarpoolComparison`): the three static methods, as written.
- `findings.dfy` (module `CorrectedTripCheck`): the destination size check as intended.
- `source_tests.dfy` (module `SourceTests`): worked conversion examples and the self-test's input rejections.

## Model

| member | source | states |
|---|---|---|
| TripRule.PathLengthExtend | src/SimpleCarpoolComparison.py:168-178 | each `trip += dist(p, q)` step adds exactly one leg to the length of the path travelled so far |
| TripRule.TripsAreDetourPaths | src/SimpleCarpoolComparison.py:163-178 | `xtrip` is the length of the path a→c→d→b and `ytrip` that of c→a→b→d, for any distance |
| TripRule.LongerTrip | src/SimpleCarpoolComparison.py:180-185 | True exactly when the path a→c→d→b is strictly longer than the path c→a→b→d |
| TripRule.TieIsNotLonger | src/SimpleCarpoolComparison.py:180-185 | equal detours give False, the fixed tie-break the class docstring announces |
| TripRule.SwapRoutesSwapsTrips | src/SimpleCarpoolComparison.py:168-178 | swapping the routes turns `xtrip` into `ytrip` and `ytrip` into `xtrip`, for any distance |
| TripRule.LongerTripAsymmetric | src/SimpleCarpoolComparison.py:163-185 | the two orders of the routes are never both longer, and both are False exactly on a tie |
| SimpleCarpoolComparison.CheckTripArgs | src/SimpleCarpoolComparison.py:119-160 | accepts exactly a route x of float pairs, a y with a float-pair source and a destination tuple with two leading floats of any length; raises IndexError exactly when that destination is empty or a single float; every TypeError carries the `is_longer_trip` prefix |
| SimpleCarpoolComparison.CheckDistArgs | src/SimpleCarpoolComparison.py:199-216 | accepts exactly two 2-tuples of floats; every rejection is a TypeError with the `dist` prefix |
| SimpleCarpoolComparison.FirstRouteCheckedFirst | src/SimpleCarpoolComparison.py:121-140 | a malformed x is rejected before y is looked at: the error is the same for every y, and it is a TypeError naming a position in arg[0] |
| SimpleCarpoolComparison.SecondRouteCheckedAfterFirst | src/SimpleCarpoolComparison.py:141-160 | once x is a route the outcome depends on y alone, and each TypeError names a position in arg[1]; the "Incorrect tuple size in arg[1][1]" message is never raised |
| SimpleCarpoolComparison.FirstPointCheckedFirst | src/SimpleCarpoolComparison.py:201-208 | a malformed v1 is rejected before v2 is looked at: the same error for every v2, naming a position in arg[0] |
| SimpleCarpoolComparison.SecondPointCheckedAfterFirst | src/SimpleCarpoolComparison.py:209-216 | once v1 is a coordinate pair the outcome depends on v2 alone, and each rejection names a position in arg[1] |
| SimpleCarpoolComparison.Dist | src/SimpleCarpoolComparison.py:188-259 | returns a distance exactly for two float pairs, and then the haversine value for those two points; otherwise raises the first failing check's error |
| SimpleCarpoolComparison.IsLongerTrip | src/SimpleCarpoolComparison.py:105-185 | returns a result exactly when both arguments are routes of float pairs, and then the rule `LongerTrip` on their endpoints; a failing check raises its own error, whatever the distance function |
| SimpleCarpoolComparison.OversizedDestinationRejectedByDist | src/SimpleCarpoolComparison.py:153-170 | a destination y[1] of more than two leading floats passes every check of `is_longer_trip` and is rejected by `dist(c, d)` with the `dist` message |
| SimpleCarpoolComparison.ShortDestinationRaisesIndexError | src/SimpleCarpoolComparison.py:153-160 | an empty or one-float destination y[1] raises IndexError rather than a TypeError |
| SimpleCarpoolComparison.IsLongerTripAsymmetric | src/SimpleCarpoolComparison.py:163-185 | with the routes in both orders at most one call says True, and both say False exactly when the two detour paths are equally long |
| SimpleCarpoolComparison.CoordinateToFloat | src/SimpleCarpoolComparison.py:262-291 | accepts exactly three ints and a bool; the value is degrees + minutes/60 + seconds/3600, negated for a False sign; each non-int or non-bool argument raises the message for its position, in order |
| SimpleCarpoolComparison.NegativeHemisphereNegates | src/SimpleCarpoolComparison.py:288-291 | the value for a False sign is the exact negation of the value for a True sign |
| CorrectedTripCheck.CheckTripArgsIntended | src/SimpleCarpoolComparison.py:153-160 | with the size check testing len(y[1]), the checks accept exactly two routes of float pairs and reject everything else with an `is_longer_trip` TypeError |
| CorrectedTripCheck.IsLongerTripIntended | src/SimpleCarpoolComparison.py:119-185 | with the corrected check, every rejection comes from `is_longer_trip`'s own checks, before any distance, and accepted inputs get the rule `LongerTrip` |
| CorrectedTripCheck.AsWrittenAgreesExactlyOffTheDefect | src/SimpleCarpoolComparison.py:153-160 | the as-written and corrected versions agree exactly on the inputs whose destination y[1] is not a tuple of the wrong size; on every such wrong-size tuple they differ |
| CorrectedTripCheck.DefectWitnesses | src/SimpleCarpoolComparison.py:155-159 | on an empty and on a three-float y[1] the as-written and corrected versions raise different errors |
| SourceTests.ConversionExamples | src/SimpleCarpoolComparison.py:310-335 | worked examples of two conversions the self-test performs: (40, 45, 6, True) is exactly 24451/600 and (22, 53, 43, False) exactly -82423/3600, close to 40.7517 and -22.8953 |
| SourceTests.ConversionRejections | src/SimpleCarpoolComparison.py:577-602 | a float degree, an int sign and a bool degree are each refused with the message for their position |
| SourceTests.PointAsFirstRouteRejected | src/SimpleCarpoolComparison.py:440-489 | a coordinate pair passed as the first route fails the arg[0][0] tuple check, whatever the second argument |
| SourceTests.TripRejections | src/SimpleCarpoolComparison.py:426-538 | each malformed `is_longer_trip` input of the self-test is refused with the message of the first check it fails |
| SourceTests.CopiedMessages | src/SimpleCarpoolComparison.py:129-154 | the arg[0][0][1] float check reports "arg[0][0][0]", and the arg[1][1] tuple check reports "Expected float" |
| SourceTests.DistRejections | src/SimpleCarpoolComparison.py:540-575 | the malformed second points of the self-test are refused by the arg[1][0] float check |

## Left out

- The haversine arithmetic of `dist` (src/SimpleCarpoolComparison.py:219-259) uses sine, cosine, atan2, square root and radians on IEEE floats. It is the parameter `haversine: (Coord, Coord) -> real`, and the radius constant goes with it. Symmetry, non-negativity, `dist(p, p) == 0` and the π·R bound depend on that arithmetic, so they are not claimed.
- Dist: states only that the result is `haversine` of the two points, because the formula itself is not modelled.
- The concrete distances of the self-test and its four `is_longer_trip` outcomes (src/SimpleCarpoolComparison.py:320-424) are float results of the trigonometry, so they are not modelled. The `within_tolerance` helper is left out with them.
- CoordinateToFloat: float rounding, and an int too large to convert to a float, are not modelled; the conversion is exact over the reals.
- Floats in general are reals, so `xtrip` and `ytrip` are exact sums with no rounding, no NaN and no infinity.
- Dist: a non-finite coordinate passes the `type(...) is float` checks, and then the haversine arithmetic can raise ValueError (`math.sin` or `math.cos` of an infinity at src/SimpleCarpoolComparison.py:246-248) or return NaN (an infinity minus itself). For finite points, rounding can push `a` above 1 so that `math.sqrt(1.0 - a)` at :252 raises ValueError. The model, over reals, has none of this and returns a distance for every two float pairs.
- IsLongerTrip: when a `dist` call raises ValueError or returns NaN, `is_longer_trip` raises too, or returns False in both orders of the routes although the trips do not tie. The model, over reals, has neither outcome.
- Logging, the logger in `__init__` and the unused radius constants are left out, because they do not affect any result.
- `len(x) is not 2` is modelled as `len(x) != 2`, which is how CPython behaves for small ints.
- Python types other than tuple, float, int, bool and str are not modelled. A list, None or a subclass of float would fail the same exact-type tests as a str.

## Findings

| source | as written | input that shows it | evidently intended | confidence | as-written member | corrected member |
|---|---|---|---|---|---|---|
| src/SimpleCarpoolComparison.py:155 | the size check reported as "Incorrect tuple size in arg[1][1]" tests `len(y)`, already known to be 2, so the size of `y[1]` is never checked | `is_longer_trip(((1.0, 2.0), (3.0, 4.0)), ((5.0, 6.0), ()))` raises IndexError, and with `(7.0, 8.0, 9.0)` as `y[1]` the TypeError comes from `dist`, after one distance has been computed | test `len(y[1])`, so that both inputs raise this check's TypeError | high; not executed | SimpleCarpoolComparison.CheckTripArgs, with CorrectedTripCheck.DefectWitnesses | CorrectedTripCheck.CheckTripArgsIntended |
