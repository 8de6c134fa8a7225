# Rigel sky engine core, in Dafny

Rigel is a planetarium program: it loads a star catalogue and a list of
asterisms, computes what an observer at a place and time sees, projects it
onto a canvas, and lets the user move the view and speed up time. This project
models the non-trigonometric core of that program and proves properties of it:

- the math primitives: closed and right-open intervals, with `clip` and the
  floor-modulo `reduce`; polynomials, with Horner evaluation and `toString`;
  angle unit conversions and `normalizePositive`; the argument checks;
- the validated coordinate values (spherical, Cartesian, geographic,
  equatorial, ecliptic, horizontal), with the azimuth octant names;
- time: the J2000 and J2010 epochs, elapsed days and Julian centuries, and
  Greenwich and local sidereal time;
- the celestial objects (Sun, Moon, planets, stars) with their construction
  checks, the star colour temperature, and the Moon's eight phase names;
- the star catalogue, its builder, and the two loaders (the HYG star
  database and the asterism list), over lines of text;
- the observed sky: the planet list without the Earth, the flattened position
  arrays, and the nearest-object search with its tie-breaking and threshold;
- the time accelerators and their six named instances, and the keyboard and
  scroll rules that move the view.

Java exceptions are results: `Result<T>` and `Outcome` carry the exception
kind (`IllegalArgument`, `NullPointer`, `IndexOutOfBounds`, `NumberFormat`,
and `UnreachableBranch` for the `Error` a Java switch throws from its default
branch).
A Java `null` is `Option.None`. Reals are exact and `TAU` is an abstract
positive constant. Instants are whole milliseconds since 1970-01-01T00:00Z for
astronomy and whole nanoseconds for the accelerators. Numeric parsing, number
formatting and the stereographic projection of an object are function-valued
parameters. `Math.round`, the `(int)` cast and Java's truncating `/` on
`long` are written out in `JavaMath`.

Modules follow Rigel's classes. `Interval` holds both interval kinds,
`CelestialObject` holds `CelestialObject`, `Sun`, `Moon`, `Planet` and `Star`,
and `Text` holds the two `String` operations the loaders use (`split` and
`isBlank`). `CatalogueLoading` holds the builder's `loadFrom`.

## Model

| member | source | states |
|---|---|---|
| `Interval.ClosedOf` | src/ch/epfl/rigel/math/ClosedInterval.java:29-32 | fails with IllegalArgument exactly when `low >= high`; on success the bounds are the arguments |
| `Interval.ClosedSymmetric` | src/ch/epfl/rigel/math/ClosedInterval.java:39-43 | succeeds exactly for a positive size, giving `[-size/2, size/2]` of that size |
| `Interval.RightOpenOf` | src/ch/epfl/rigel/math/RightOpenInterval.java:29-32 | fails with IllegalArgument exactly when `low >= high`; on success the bounds are the arguments |
| `Interval.RightOpenSymmetric` | src/ch/epfl/rigel/math/RightOpenInterval.java:38-42 | succeeds exactly for a positive size, giving `[-size/2, size/2)` of that size |
| `Interval.FactorySizePositive` | src/ch/epfl/rigel/math/Interval.java:40-42 | every interval the factories build has a positive size |
| `Interval.ClosedContainsEndpoints` | src/ch/epfl/rigel/math/ClosedInterval.java:19-21 | a closed interval contains both of its bounds |
| `Interval.RightOpenEndpoints` | src/ch/epfl/rigel/math/RightOpenInterval.java:20-22 | a right-open interval contains its low bound and not its high bound |
| `Interval.Clip` | src/ch/epfl/rigel/math/ClosedInterval.java:50-54 | the result lies in the interval, equals `v` when `v` is inside, and saturates to `low` or `high` outside |
| `Interval.ClipIdempotent` | src/ch/epfl/rigel/math/ClosedInterval.java:50-54 | clipping twice is clipping once |
| `Interval.ClipMonotone` | src/ch/epfl/rigel/math/ClosedInterval.java:50-54 | clipping never reverses the order of two values |
| `Interval.Reduce` | src/ch/epfl/rigel/math/RightOpenInterval.java:56-61 | the result lies in `[low, high)` for every real, including values below `low` |
| `Interval.FloorModBounds` | src/ch/epfl/rigel/math/RightOpenInterval.java:59 | the floor-modulo `x - y*floor(x/y)` lies in `[0, y)` for a positive `y` |
| `Interval.ReduceIsShift` | src/ch/epfl/rigel/math/RightOpenInterval.java:56-61 | the reduction differs from the argument by a whole number of interval sizes |
| `Interval.ReduceIdentity` | src/ch/epfl/rigel/math/RightOpenInterval.java:56-61 | a value already in the interval is its own reduction |
| `Interval.ReducePeriodic` | src/ch/epfl/rigel/math/RightOpenInterval.java:56-61 | shifting the argument by `k` sizes, for any integer `k`, does not change the reduction |
| `Interval.ReduceUnique` | src/ch/epfl/rigel/math/RightOpenInterval.java:56-61 | the reduction is the only point of the interval a whole number of sizes away from the argument |
| `Interval.ReduceIdempotent` | src/ch/epfl/rigel/math/RightOpenInterval.java:56-61 | reducing twice is reducing once |
| `Preconditions.CheckArgument` | src/ch/epfl/rigel/Preconditions.java:15-19 | passes exactly when the condition holds, and otherwise fails with IllegalArgument |
| `Preconditions.CheckInInterval` | src/ch/epfl/rigel/Preconditions.java:27-33 | returns the value unchanged exactly when the interval contains it, and otherwise fails with IllegalArgument |
| `Preconditions.CheckInIntervalHighBound` | src/ch/epfl/rigel/Preconditions.java:27-33 | the high bound is refused by a right-open interval and accepted by a closed one |
| `JavaMath.Round` | src/ch/epfl/rigel/coordinates/HorizontalCoordinates.java:75 | `Math.round` is an integer within one half of its argument |
| `JavaMath.RoundOfInteger` | src/ch/epfl/rigel/astronomy/MoonModel.java:77 | `Math.round` of a whole number is that number |
| `JavaMath.Truncate` | src/ch/epfl/rigel/astronomy/Star.java:41-43 | the `(int)` cast rounds toward zero: the integer part, below a non-negative value and above a negative one |
| `JavaMath.TruncateMonotone` | src/ch/epfl/rigel/astronomy/Star.java:41-43 | the cast never reverses the order of two values |
| `JavaMath.TruncDiv` | src/ch/epfl/rigel/gui/TimeAccelerator.java:34 | Java's `/` on integers: the remainder has the sign of the dividend and is smaller than the divisor |
| `JavaMath.TruncDivMonotone` | src/ch/epfl/rigel/gui/TimeAccelerator.java:34 | truncating division by a positive divisor never reverses the order of two dividends |
| `Angle.NormalizePositive` | src/ch/epfl/rigel/math/Angle.java:25-27 | the result lies in `[0, TAU)` |
| `Angle.NormalizePeriodic` | src/ch/epfl/rigel/math/Angle.java:25-27 | adding whole turns does not change the normalised angle |
| `Angle.NormalizeIdentity` | src/ch/epfl/rigel/math/Angle.java:25-27 | an angle already in `[0, TAU)` is unchanged |
| `Angle.OfDMS` | src/ch/epfl/rigel/math/Angle.java:46-50 | fails with IllegalArgument exactly for a negative degree, or minutes or seconds outside `[0, 60)`; otherwise it is `ofDeg(d + m/60 + s/3600)` |
| `Angle.DMSSum` | src/ch/epfl/rigel/math/Angle.java:50 | the three-term sum in `ofDMS` is the angle of `d + m/60 + s/3600` degrees |
| `Angle.DegRoundTrip` | src/ch/epfl/rigel/math/Angle.java:58-69 | `toDeg` and `ofDeg` are inverse to each other, in both orders |
| `Angle.HrRoundTrip` | src/ch/epfl/rigel/math/Angle.java:76-87 | `toHr` and `ofHr` are inverse to each other, in both orders |
| `Angle.ArcsecOfDegree` | src/ch/epfl/rigel/math/Angle.java:34-36 | 3600 arcseconds are one degree |
| `Angle.ConversionsMonotone` | src/ch/epfl/rigel/math/Angle.java:58-87 | the unit conversions preserve order, strictly for distinct values |
| `Angle.FullTurnInUnits` | src/ch/epfl/rigel/math/Angle.java:67-87 | an angle in `[0, TAU)` is in `[0, 360)` degrees and `[0, 24)` hours |
| `Angle.QuarterTurnInDegrees` | src/ch/epfl/rigel/math/Angle.java:67-69 | an angle in `[-TAU/4, TAU/4]` is in `[-90, 90]` degrees |
| `Angle.DegreesOfFullTurn` | src/ch/epfl/rigel/math/Angle.java:58-60 | `[0, 360)` degrees is an angle in `[0, TAU)` |
| `Angle.DegreesOfQuarterTurn` | src/ch/epfl/rigel/math/Angle.java:58-60 | `[-90, 90]` degrees is an angle in `[-TAU/4, TAU/4]` |
| `Angle.ToDegOfFractions` | src/ch/epfl/rigel/math/Angle.java:58-87 | a full turn is 360 degrees and 24 hours, a quarter turn 90 degrees, a half turn 180 degrees |
| `CartesianCoordinates.Of` | src/ch/epfl/rigel/coordinates/CartesianCoordinates.java:21-37 | every pair is accepted and read back unchanged |
| `GeographicCoordinates.IsValidLonDeg` | src/ch/epfl/rigel/coordinates/GeographicCoordinates.java:43-45 | holds exactly for longitudes in `[-180, 180)` degrees |
| `GeographicCoordinates.IsValidLatDeg` | src/ch/epfl/rigel/coordinates/GeographicCoordinates.java:52-54 | holds exactly for latitudes in `[-90, 90]` degrees |
| `GeographicCoordinates.OfDeg` | src/ch/epfl/rigel/coordinates/GeographicCoordinates.java:32-36 | succeeds exactly when both checks pass, fails with IllegalArgument otherwise, and reads back the given degrees |
| `GeographicCoordinates.LonRange` | src/ch/epfl/rigel/coordinates/GeographicCoordinates.java:32-36 | a valid longitude lies in `[-TAU/2, TAU/2)` radians |
| `EquatorialCoordinates.Of` | src/ch/epfl/rigel/coordinates/EquatorialCoordinates.java:32-36 | succeeds exactly for `ra` in `[0, TAU)` and `dec` in `[-TAU/4, TAU/4]`, fails with IllegalArgument otherwise, and reads back both |
| `EquatorialCoordinates.EquatorialCoordinates.RaDeg` | src/ch/epfl/rigel/coordinates/EquatorialCoordinates.java:50-52 | a valid right ascension is in `[0, 360)` degrees |
| `EquatorialCoordinates.EquatorialCoordinates.RaHr` | src/ch/epfl/rigel/coordinates/EquatorialCoordinates.java:59-61 | the right ascension in hours is `ra * 24 / TAU`, in `[0, 24)` when valid |
| `EquatorialCoordinates.EquatorialCoordinates.DecDeg` | src/ch/epfl/rigel/coordinates/EquatorialCoordinates.java:76-78 | a valid declination is in `[-90, 90]` degrees |
| `EquatorialCoordinates.RangeInDegrees` | src/ch/epfl/rigel/coordinates/EquatorialCoordinates.java:42-78 | the degree and hour readings of valid coordinates stay in their ranges |
| `EclipticCoordinates.Of` | src/ch/epfl/rigel/coordinates/EclipticCoordinates.java:32-36 | succeeds exactly for `lon` in `[0, TAU)` and `lat` in `[-TAU/4, TAU/4]`, fails with IllegalArgument otherwise, and reads back both |
| `EclipticCoordinates.EclipticCoordinates.LonDeg` | src/ch/epfl/rigel/coordinates/EclipticCoordinates.java:51-54 | a valid longitude is in `[0, 360)` degrees |
| `EclipticCoordinates.EclipticCoordinates.LatDeg` | src/ch/epfl/rigel/coordinates/EclipticCoordinates.java:69-72 | a valid latitude is in `[-90, 90]` degrees |
| `EclipticCoordinates.RangeInDegrees` | src/ch/epfl/rigel/coordinates/EclipticCoordinates.java:42-72 | the degree readings of valid coordinates stay in their ranges |
| `HorizontalCoordinates.IntervalBounds` | src/ch/epfl/rigel/coordinates/HorizontalCoordinates.java:17-21 | the four validity intervals are `[0, TAU)`, `[-TAU/4, TAU/4]`, `[0, 360)` and `[-90, 90]` |
| `HorizontalCoordinates.Of` | src/ch/epfl/rigel/coordinates/HorizontalCoordinates.java:33-37 | succeeds exactly for `az` in `[0, TAU)` and `alt` in `[-TAU/4, TAU/4]`, fails with IllegalArgument otherwise, and reads back both |
| `HorizontalCoordinates.OfDeg` | src/ch/epfl/rigel/coordinates/HorizontalCoordinates.java:45-49 | succeeds exactly for azimuths in `[0, 360)` and altitudes in `[-90, 90]` degrees, and reads back both in degrees |
| `HorizontalCoordinates.ValidInDegrees` | src/ch/epfl/rigel/coordinates/HorizontalCoordinates.java:45-64 | valid coordinates read in degrees are in range, and `ofDeg` of those readings gives the same coordinates back |
| `HorizontalCoordinates.OctantIndex` | src/ch/epfl/rigel/coordinates/HorizontalCoordinates.java:75 | the rounded octant index of a valid azimuth is in 0..8, so the `Error` branch cannot be reached |
| `HorizontalCoordinates.AzOctantName` | src/ch/epfl/rigel/coordinates/HorizontalCoordinates.java:73-97 | the name is entry `index mod 8` of n, n+e, e, s+e, s, s+w, w, n+w, so indices 0 and 8 both give n |
| `HorizontalCoordinates.PrincipalDirectionNames` | src/ch/epfl/rigel/coordinates/HorizontalCoordinates.java:73-97 | the azimuths `k*TAU/8` are named n, n+e, e, s+e, s, s+w, w, n+w in order |
| `HorizontalCoordinates.NorthOctant` | src/ch/epfl/rigel/coordinates/HorizontalCoordinates.java:75-80 | azimuths within a sixteenth of a turn of north, on either side, are named n (indices 0 and 8) |
| `HorizontalCoordinates.OctantSector` | src/ch/epfl/rigel/coordinates/HorizontalCoordinates.java:73-97 | every azimuth from `(2k-1)/16` up to `(2k+1)/16` of a turn gets the `k`-th name of n, n+e, e, s+e, s, s+w, w, n+w |
| `Epoch.EpochInstants` | src/ch/epfl/rigel/astronomy/Epoch.java:10-11 | J2000 is 2000-01-01T12:00Z and J2010 is one day before 2010-01-01T00:00Z, that is 2009-12-31T00:00Z, by the Gregorian calendar |
| `Epoch.DaysUntil` | src/ch/epfl/rigel/astronomy/Epoch.java:28-30 | the elapsed days times 86 400 000 are the elapsed milliseconds |
| `Epoch.JulianCenturiesUntil` | src/ch/epfl/rigel/astronomy/Epoch.java:36-38 | the elapsed Julian centuries are the elapsed days over 36 525 |
| `Epoch.DaysUntilEpoch` | src/ch/epfl/rigel/astronomy/Epoch.java:28-38 | no days and no centuries have elapsed at the epoch itself, in any zone |
| `Epoch.DaysUntilAdditive` | src/ch/epfl/rigel/astronomy/Epoch.java:28-30 | `ms` more milliseconds add `ms / 86 400 000` days |
| `SiderealTime.DayStart` | src/ch/epfl/rigel/astronomy/SiderealTime.java:29-30 | the start of the UTC day is a whole-day instant at or before the instant, less than a day before it |
| `SiderealTime.HoursIntoDay` | src/ch/epfl/rigel/astronomy/SiderealTime.java:32 | the time of day `t` is in `[0, 24)` hours and is the milliseconds since the start of the day over 3 600 000 |
| `SiderealTime.Greenwich` | src/ch/epfl/rigel/astronomy/SiderealTime.java:28-38 | the result is in `[0, TAU)` and is `normalizePositive(ofHr(S0 + 1.002737909 t))`, with `S0` the polynomial at the Julian centuries from J2000 to the start of the day |
| `SiderealTime.SiderealPolynomial` | src/ch/epfl/rigel/astronomy/SiderealTime.java:19-35 | the polynomial built with `Polynomial.of` evaluates to `0.000025862 T² + 2400.051336 T + 6.697374558` |
| `SiderealTime.GreenwichIgnoresZone` | src/ch/epfl/rigel/astronomy/SiderealTime.java:29 | two zoned times of the same instant have the same sidereal time |
| `SiderealTime.Local` | src/ch/epfl/rigel/astronomy/SiderealTime.java:45-47 | the local sidereal time lies in `[0, TAU)` and differs from Greenwich sidereal time plus the longitude by a whole number of turns |
| `SiderealTime.LocalWithoutWrap` | src/ch/epfl/rigel/astronomy/SiderealTime.java:45-47 | when Greenwich sidereal time plus the longitude is already in `[0, TAU)`, it is the local sidereal time |
| `SiderealTime.LocalAtPrimeMeridian` | src/ch/epfl/rigel/astronomy/SiderealTime.java:45-47 | at longitude 0 the local sidereal time is the Greenwich one |
| `SiderealTime.LocalPeriodicInLongitude` | src/ch/epfl/rigel/astronomy/SiderealTime.java:45-47 | longitudes a whole number of turns apart give the same local sidereal time |
| `CelestialObject.CheckBase` | src/ch/epfl/rigel/astronomy/CelestialObject.java:22-30 | passes exactly for a non-negative size with a name and a position; a negative size fails with IllegalArgument first, a missing name or position with NullPointer |
| `CelestialObject.CelestialObject.Info` | src/ch/epfl/rigel/astronomy/Moon.java:35-39 | the information text is the name for the Sun, planets and stars; the Moon's adds its formatted percentage in parentheses, followed by `%` |
| `CelestialObject.CelestialObject.ToString` | src/ch/epfl/rigel/astronomy/CelestialObject.java:75-78 | the text is the information text |
| `CelestialObject.NewPlanet` | src/ch/epfl/rigel/astronomy/Planet.java:15-17 | succeeds exactly when the base checks pass, with their error otherwise, and keeps every argument |
| `CelestialObject.NewSun` | src/ch/epfl/rigel/astronomy/Sun.java:22-28 | succeeds exactly for a non-negative size with both positions; the name is "Soleil" and the magnitude -26.7 |
| `CelestialObject.NewMoon` | src/ch/epfl/rigel/astronomy/Moon.java:24-29 | succeeds exactly for a non-negative size, a position and a phase in `[0, 1]`; the name is "Lune" and the percentage `100 * phase` lies in `[0, 100]` |
| `CelestialObject.Temperature` | src/ch/epfl/rigel/astronomy/Star.java:28 | both denominators are positive over the colour-index range, so the temperature is positive |
| `CelestialObject.NewStar` | src/ch/epfl/rigel/astronomy/Star.java:23-29 | succeeds exactly for a name, a position, a non-negative id and a colour index in `[-0.5, 5.5]`; the angular size is 0 |
| `CelestialObject.ColorTemperature` | src/ch/epfl/rigel/astronomy/Star.java:41-43 | the reported temperature is the integer part of the computed one |
| `CelestialObject.TemperatureAntitone` | src/ch/epfl/rigel/astronomy/Star.java:28 | a larger colour index never gives a higher temperature |
| `CelestialObject.ColorTemperatureAntitone` | src/ch/epfl/rigel/astronomy/Star.java:41-43 | the same holds for the integer temperature reported |
| `CelestialObject.ColorTemperatureRange` | src/ch/epfl/rigel/astronomy/Star.java:23-43 | every valid star reports a temperature between 1490 K and 32459 K |
| `MoonModel.PhaseIndex` | src/ch/epfl/rigel/astronomy/MoonModel.java:77 | the rounded phase index is in 0..8 |
| `MoonModel.MoonPhaseCalc` | src/ch/epfl/rigel/astronomy/MoonModel.java:75-99 | the result is one of the eight phase names, so the default branch cannot be reached |
| `MoonModel.PhaseNameOfIndex` | src/ch/epfl/rigel/astronomy/MoonModel.java:77-98 | the name is the index's entry in the eight names, with index 8 naming the new moon like index 0 |
| `MoonModel.PhaseAtEighths` | src/ch/epfl/rigel/astronomy/MoonModel.java:80-96 | the longitude differences `k*TAU/8` give new moon, waxing crescent, first quarter, waxing gibbous, full moon, waning gibbous, last quarter, waning crescent |
| `MoonModel.NewMoonAroundConjunction` | src/ch/epfl/rigel/astronomy/MoonModel.java:77-82 | within a sixteenth of a turn of conjunction, on either side, the phase is "new moon" |
| `MoonModel.MoonPhasePeriodic` | src/ch/epfl/rigel/astronomy/MoonModel.java:77 | longitude differences a whole number of turns apart give the same phase |
| `PlanetModel.AllListsEveryPlanetOnce` | src/ch/epfl/rigel/astronomy/PlanetModel.java:61 | `ALL` holds each of the eight planets exactly once |
| `Asterism.Values` | src/ch/epfl/rigel/astronomy/Asterism.java:21 | the copy of a list without nulls has the same elements in the same order |
| `Asterism.Of` | src/ch/epfl/rigel/astronomy/Asterism.java:19-22 | an empty list fails with IllegalArgument, a null element with NullPointer; otherwise the stars are the given ones, in order |
| `Asterism.OfStarsRoundTrip` | src/ch/epfl/rigel/astronomy/Asterism.java:19-29 | building an asterism from another's stars gives that asterism back |
| `StarCatalogue.IndexOf` | src/ch/epfl/rigel/astronomy/StarCatalogue.java:25-29 | the star-to-index map holds exactly the listed stars, each at its last position in the list |
| `StarCatalogue.New` | src/ch/epfl/rigel/astronomy/StarCatalogue.java:19-42 | succeeds exactly when every asterism's stars are in the list; the stars are kept in order, the asterisms are exactly the given ones, and each resolves to indices of its stars |
| `StarCatalogue.AsterismIndices` | src/ch/epfl/rigel/astronomy/StarCatalogue.java:63-66 | succeeds exactly for a registered asterism and fails with IllegalArgument otherwise |
| `StarCatalogue.AsterismIndicesOfNew` | src/ch/epfl/rigel/astronomy/StarCatalogue.java:19-66 | for a built catalogue, an asterism has indices exactly when it was given, and the star at each index is the asterism's star at that position |
| `StarCatalogue.ResolutionUnique` | src/ch/epfl/rigel/astronomy/StarCatalogue.java:27-39 | only one index list resolves an asterism: the one with last occurrences |
| `StarCatalogue.Builder.AddStar` | src/ch/epfl/rigel/astronomy/StarCatalogue.java:78-81 | the star is appended and the asterisms are kept |
| `StarCatalogue.Builder.AddAsterism` | src/ch/epfl/rigel/astronomy/StarCatalogue.java:94-97 | the asterism is appended and the stars are kept |
| `StarCatalogue.Builder.Build` | src/ch/epfl/rigel/astronomy/StarCatalogue.java:120-122 | succeeds exactly when every accumulated asterism's stars were added, keeping the stars and the asterisms |
| `StarCatalogue.BuildOfAdded` | src/ch/epfl/rigel/astronomy/StarCatalogue.java:78-122 | adding stars and then asterisms to an empty builder and building is the constructor on those lists |
| `StarCatalogue.AddStarsAppends` | src/ch/epfl/rigel/astronomy/StarCatalogue.java:78-81 | adding several stars appends them in insertion order |
| `StarCatalogue.AddAsterismsAppends` | src/ch/epfl/rigel/astronomy/StarCatalogue.java:94-97 | adding several asterisms appends them in insertion order |
| `StarCatalogue.AddStarKeepsBuildable` | src/ch/epfl/rigel/astronomy/StarCatalogue.java:20-22 | a buildable builder stays buildable after adding a star |
| `CatalogueLoading.LoadFrom` | src/ch/epfl/rigel/astronomy/StarCatalogue.java:112-115 | the load succeeds exactly when the chosen loader decodes every line (for the star loader, every line after the header); the star loader keeps the asterisms and appends each line's decoded star after the builder's stars, and the asterism loader keeps the stars and appends each line's decoded asterism after the builder's asterisms |
| `CatalogueLoading.LoadedCatalogueBuilds` | src/ch/epfl/rigel/astronomy/StarCatalogue.java:112-122 | loading stars and then asterisms into an empty builder always gives a buildable builder |
| `Text.Pieces` | src/ch/epfl/rigel/astronomy/HygDatabaseLoader.java:51 | the text between separators: at least one piece, none holding the separator |
| `Text.JoinPieces` | src/ch/epfl/rigel/astronomy/HygDatabaseLoader.java:51 | gluing the pieces back with the separator gives the input |
| `Text.DropTrailingEmpty` | src/ch/epfl/rigel/astronomy/HygDatabaseLoader.java:51 | the result is a prefix of the list that does not end in an empty string, and only empty strings were removed |
| `Text.Split` | src/ch/epfl/rigel/astronomy/AsterismLoader.java:33 | a string without the separator splits into itself, and no piece holds the separator |
| `Text.SplitRoundTrip` | src/ch/epfl/rigel/astronomy/AsterismLoader.java:33 | the split, padded with the empty pieces it dropped and joined, gives the input back |
| `Text.PaddedSplit` | src/ch/epfl/rigel/astronomy/HygDatabaseLoader.java:51 | the split, padded with the empty pieces it dropped, is the full list of pieces |
| `Text.NoSeparatorOnePiece` | src/ch/epfl/rigel/astronomy/AsterismLoader.java:33 | a string without the separator is one piece |
| `Text.SplitOfEmpty` | src/ch/epfl/rigel/astronomy/AsterismLoader.java:33 | an empty line gives one empty field |
| `Text.SplitOfSeparator` | src/ch/epfl/rigel/astronomy/AsterismLoader.java:33 | a lone comma gives no field |
| `Text.SplitLeadingSeparator` | src/ch/epfl/rigel/astronomy/AsterismLoader.java:33 | a leading comma gives a leading empty field |
| `Text.SplitTrailingSeparators` | src/ch/epfl/rigel/astronomy/HygDatabaseLoader.java:51 | trailing empty fields are dropped and inner ones kept |
| `HygDatabaseLoader.Field` | src/ch/epfl/rigel/astronomy/HygDatabaseLoader.java:61-70 | reading a column succeeds exactly when the record has it and fails with IndexOutOfBounds otherwise |
| `HygDatabaseLoader.IntOrZero` | src/ch/epfl/rigel/astronomy/HygDatabaseLoader.java:61 | a blank field is 0 and any other is parsed |
| `HygDatabaseLoader.RealOrZero` | src/ch/epfl/rigel/astronomy/HygDatabaseLoader.java:64-65 | a blank field is 0 and any other is parsed |
| `HygDatabaseLoader.ReducedPositionValid` | src/ch/epfl/rigel/astronomy/HygDatabaseLoader.java:68-73 | after reduction and clipping, any right ascension and declination make valid equatorial coordinates |
| `HygDatabaseLoader.DecodeStar` | src/ch/epfl/rigel/astronomy/HygDatabaseLoader.java:59-75 | decoding succeeds exactly when the record has the Bayer column (and the constellation one when the name is blank), every number parses, the hip id is non-negative and the colour index is in `[-0.5, 5.5]`; a decoded star has the hip id (0 if blank); the proper name, or else the Bayer designation ("?" if blank), a space and the constellation; the magnitude (0 if blank); the temperature of the colour index (0 if blank); and the reduced right ascension and clipped declination, which are valid |
| `HygDatabaseLoader.BlankRightAscensionFails` | src/ch/epfl/rigel/astronomy/HygDatabaseLoader.java:68-69 | a blank right ascension has no default, so the record fails |
| `HygDatabaseLoader.BlankDeclinationFails` | src/ch/epfl/rigel/astronomy/HygDatabaseLoader.java:70-71 | a blank declination has no default, so the record fails |
| `HygDatabaseLoader.DecodeAll` | src/ch/epfl/rigel/astronomy/HygDatabaseLoader.java:50-76 | decoding succeeds exactly when every record decodes; then there is one star per record, in order, each the record's decoding |
| `HygDatabaseLoader.DecodeAllFailsOnBadRecord` | src/ch/epfl/rigel/astronomy/HygDatabaseLoader.java:59-76 | one undecodable record makes the whole load fail |
| `HygDatabaseLoader.Load` | src/ch/epfl/rigel/astronomy/HygDatabaseLoader.java:41-79 | loading succeeds exactly when every line after the header decodes; then one star per such line is appended after the builder's stars, in file order; the asterisms are kept |
| `AsterismLoader.HipparcosIndex` | src/ch/epfl/rigel/astronomy/AsterismLoader.java:36-40 | every builder star's id is a key; each key maps to a star with that id, and to the last such star |
| `AsterismLoader.ParseIds` | src/ch/epfl/rigel/astronomy/AsterismLoader.java:44-45 | succeeds exactly when every token parses, giving the ids in token order |
| `AsterismLoader.LookupAll` | src/ch/epfl/rigel/astronomy/AsterismLoader.java:45 | one entry per id, null exactly for an unknown id, and the indexed star otherwise |
| `AsterismLoader.DecodeAsterism` | src/ch/epfl/rigel/astronomy/AsterismLoader.java:42-47 | decoding succeeds exactly when the line has a token, every token parses as an integer and every id is a known star; a decoded asterism has one star per token, in token order, each the star with that id |
| `AsterismLoader.UnknownIdFails` | src/ch/epfl/rigel/astronomy/AsterismLoader.java:45-47 | an id that no builder star carries makes the line fail with NullPointer |
| `AsterismLoader.LoneCommaFails` | src/ch/epfl/rigel/astronomy/AsterismLoader.java:33-47 | a lone comma gives no star and the empty asterism fails with IllegalArgument |
| `AsterismLoader.DecodeAll` | src/ch/epfl/rigel/astronomy/AsterismLoader.java:42-48 | decoding succeeds exactly when every line decodes; then there is one asterism per line, in order, each the line's decoding |
| `AsterismLoader.Load` | src/ch/epfl/rigel/astronomy/AsterismLoader.java:24-48 | loading succeeds exactly when every line decodes against the builder's stars; then one asterism per line is appended after the builder's asterisms, in file order; the stars are kept |
| `AsterismLoader.DecodedStarsKnown` | src/ch/epfl/rigel/astronomy/AsterismLoader.java:36-47 | every star of a decoded asterism is one of the builder's stars |
| `AsterismLoader.LoadKeepsBuildable` | src/ch/epfl/rigel/astronomy/AsterismLoader.java:36-48 | loading asterisms into a buildable builder keeps it buildable |
| `ObservedSky.WithoutEarth` | src/ch/epfl/rigel/astronomy/ObservedSky.java:38-44 | the kept models are exactly the given ones other than the Earth |
| `ObservedSky.ShownPlanetModels` | src/ch/epfl/rigel/astronomy/ObservedSky.java:38-44 | the planets shown are the seven other than the Earth, in enum order |
| `ObservedSky.Positions` | src/ch/epfl/rigel/astronomy/ObservedSky.java:83-101 | the array has two entries per object, and entries `2i` and `2i+1` are the projection of object `i` |
| `ObservedSky.New` | src/ch/epfl/rigel/astronomy/ObservedSky.java:27-48 | the sky has the seven planets in order, with the given Sun, Moon, catalogue and projection |
| `ObservedSky.ObservedSky.PlanetPositions` | src/ch/epfl/rigel/astronomy/ObservedSky.java:113-115 | two entries per planet, at `2i` and `2i+1` the projection of planet `i` |
| `ObservedSky.ObservedSky.Stars` | src/ch/epfl/rigel/astronomy/ObservedSky.java:120-122 | the stars are the catalogue's |
| `ObservedSky.ObservedSky.StarPositions` | src/ch/epfl/rigel/astronomy/ObservedSky.java:127-129 | two entries per star, at `2i` and `2i+1` the projection of star `i` |
| `ObservedSky.ObservedSky.Asterisms` | src/ch/epfl/rigel/astronomy/ObservedSky.java:134-136 | the asterisms are the catalogue's |
| `ObservedSky.ObservedSky.AsterismIndices` | src/ch/epfl/rigel/astronomy/ObservedSky.java:142-144 | the indices, or the failure, are the catalogue's |
| `ObservedSky.SquaredDistance` | src/ch/epfl/rigel/astronomy/ObservedSky.java:187-199 | the squared distance is never negative |
| `ObservedSky.SquareMonotone` | src/ch/epfl/rigel/astronomy/ObservedSky.java:187-199 | among non-negative values, squares compare as the values do, so comparing squared distances picks the same object as comparing distances |
| `ObservedSky.WithinIsThreshold` | src/ch/epfl/rigel/astronomy/ObservedSky.java:181-184 | a distance is at most the maximum exactly when its square passes the threshold test, so a negative maximum accepts nothing |
| `ObservedSky.Distances` | src/ch/epfl/rigel/astronomy/ObservedSky.java:152-179 | one squared distance per candidate, in the order Sun, Moon, planets, stars |
| `ObservedSky.FirstMinimum` | src/ch/epfl/rigel/astronomy/ObservedSky.java:158-179 | the index of a smallest entry that every earlier entry strictly exceeds |
| `ObservedSky.FirstMinimumUnique` | src/ch/epfl/rigel/astronomy/ObservedSky.java:158-179 | there is only one such index |
| `ObservedSky.FirstMinimumStep` | src/ch/epfl/rigel/astronomy/ObservedSky.java:168-171 | one more candidate replaces the best so far exactly when it is strictly closer |
| `ObservedSky.ObjectClosestTo` | src/ch/epfl/rigel/astronomy/ObservedSky.java:152-185 | returns an object exactly when the smallest distance is within `distanceMax`, and that object is the first closest candidate |
| `ObservedSky.NearestCandidate` | src/ch/epfl/rigel/astronomy/ObservedSky.java:153-179 | the comparisons end at the first closest candidate and its squared distance |
| `ObservedSky.SunOrMoon` | src/ch/epfl/rigel/astronomy/ObservedSky.java:156-164 | the Moon is taken over the Sun only when strictly closer |
| `ObservedSky.Scan` | src/ch/epfl/rigel/astronomy/ObservedSky.java:166-179 | scanning a position array keeps the first closest candidate of all the candidates seen so far |
| `ObservedSky.ClosestIsNearest` | src/ch/epfl/rigel/astronomy/ObservedSky.java:152-180 | the object found is no farther than any candidate, and strictly nearer than every candidate before it |
| `ObservedSky.SunWinsTies` | src/ch/epfl/rigel/astronomy/ObservedSky.java:158-164 | when the Sun is as close as every other candidate it is the one found |
| `Polynomial.Of` | src/ch/epfl/rigel/math/Polynomial.java:20-27 | fails with IllegalArgument exactly for a zero leading coefficient; otherwise the coefficients are the arguments, highest degree first, and the degree is the number of the others |
| `Polynomial.At` | src/ch/epfl/rigel/math/Polynomial.java:33-40 | the value is the sum of `c_i x^(n-i)` |
| `Polynomial.PowerSumSnoc` | src/ch/epfl/rigel/math/Polynomial.java:36-38 | appending a coefficient multiplies the previous sum by `x` and adds it, one Horner step |
| `Polynomial.HornerIsPowerSum` | src/ch/epfl/rigel/math/Polynomial.java:33-40 | Horner's loop computes the sum of `c_i x^(n-i)` |
| `Polynomial.ConstantPolynomial` | src/ch/epfl/rigel/math/Polynomial.java:34-39 | a one-coefficient polynomial is that coefficient everywhere |
| `Polynomial.ToString` | src/ch/epfl/rigel/math/Polynomial.java:46-118 | the text is the reference rendering: the non-constant terms, then the constant term |
| `Polynomial.NonConstantTerms` | src/ch/epfl/rigel/math/Polynomial.java:53-109 | the loop writes the terms of every coefficient but the last, in order |
| `Polynomial.TermTextAt` | src/ch/epfl/rigel/math/Polynomial.java:55-108 | the text of one term follows the leading-term rules for index 0 and the other-term rules after it |
| `Polynomial.LeadingTermText` | src/ch/epfl/rigel/math/Polynomial.java:57-73 | the leading term writes `x` or `-x` for coefficient 1 or -1, and `x^k` for degrees above 1 |
| `Polynomial.OtherTermText` | src/ch/epfl/rigel/math/Polynomial.java:77-107 | a later term is empty for coefficient 0, carries `+` when positive, and writes `x`/`-x` for 1 and -1 |
| `Polynomial.ConstantTermText` | src/ch/epfl/rigel/math/Polynomial.java:111-115 | the constant term is omitted when zero and carries `+` when positive |
| `Polynomial.RenderMonomial` | src/ch/epfl/rigel/math/Polynomial.java:46-118 | a polynomial whose only nonzero coefficient is the leading one renders as its leading term alone |
| `Polynomial.TermsOfZeros` | src/ch/epfl/rigel/math/Polynomial.java:77 | zero non-leading coefficients add no text |
| `Polynomial.RenderUnitCoefficients` | src/ch/epfl/rigel/math/Polynomial.java:58-105 | `x² - x` renders as `x^2-x` and `-x³ + x` as `-x^3+x` |
| `TimeAccelerator.TimeAccelerator.Adjust` | src/ch/epfl/rigel/gui/TimeAccelerator.java:23-35 | no real time gives no simulated time, and a discrete accelerator moves by whole steps only |
| `TimeAccelerator.DiscreteStepCount` | src/ch/epfl/rigel/gui/TimeAccelerator.java:33-35 | a discrete accelerator has taken `n` steps exactly while `frequency * delta` is in `[n, n + 1)` seconds |
| `TimeAccelerator.DiscreteWaitsForFirstStep` | src/ch/epfl/rigel/gui/TimeAccelerator.java:34 | a discrete accelerator stays at the start until a whole second of advancement has accumulated |
| `TimeAccelerator.DiscreteOneSecond` | src/ch/epfl/rigel/gui/TimeAccelerator.java:34 | one real second is `frequency` steps |
| `TimeAccelerator.ContinuousAdditive` | src/ch/epfl/rigel/gui/TimeAccelerator.java:23-26 | adjusting by `d1` then by `d2` is adjusting by `d1 + d2` |
| `TimeAccelerator.ContinuousRate` | src/ch/epfl/rigel/gui/TimeAccelerator.java:23-26 | a continuous accelerator advances simulated time by exactly `factor` times the real time elapsed, so one real second is `factor` seconds |
| `TimeAccelerator.AdjustMonotone` | src/ch/epfl/rigel/gui/TimeAccelerator.java:23-35 | with non-negative parameters, simulated time never goes back as real time passes |
| `NamedTimeAccelerator.NamedTimeAccelerator.ToString` | src/ch/epfl/rigel/gui/NamedTimeAccelerator.java:48-51 | the text is the display name, which is never empty |
| `NamedTimeAccelerator.AllListsEveryAcceleratorOnce` | src/ch/epfl/rigel/gui/NamedTimeAccelerator.java:9-19 | `ALL` holds each of the six accelerators exactly once |
| `NamedTimeAccelerator.NamesDistinct` | src/ch/epfl/rigel/gui/NamedTimeAccelerator.java:9-14 | two accelerators have the same name exactly when they are the same |
| `NamedTimeAccelerator.DaySteps` | src/ch/epfl/rigel/gui/NamedTimeAccelerator.java:13-14 | "jour" steps 86 400 s and "jour sidéral" 86 164 s, sixty times a second; the sidereal day is 236 s shorter |
| `NamedTimeAccelerator.ContinuousNames` | src/ch/epfl/rigel/gui/NamedTimeAccelerator.java:9-12 | exactly the first four are continuous, each with a positive factor and named by that factor followed by `x` |
| `NamedTimeAccelerator.DayAcceleratorSecond` | src/ch/epfl/rigel/gui/NamedTimeAccelerator.java:13 | one real second of "jour" moves the sky sixty days |
| `SkyCanvasManager.OnKey` | src/ch/epfl/rigel/gui/SkyCanvasManager.java:91-112 | the new centre is always accepted by `ofDeg`; LEFT and RIGHT keep the altitude, UP and DOWN keep the azimuth and move the altitude by 5 degrees up or down, saturating at 90 and at 5, so the altitude stays in `[5, 90]`; other keys keep the centre |
| `SkyCanvasManager.TurnIsRotation` | src/ch/epfl/rigel/gui/SkyCanvasManager.java:95-102 | LEFT and RIGHT turn the azimuth by 10 degrees, wrapping across north, and stay in `[0, 360)` |
| `SkyCanvasManager.LeftRightInverse` | src/ch/epfl/rigel/gui/SkyCanvasManager.java:95-102 | RIGHT undoes LEFT and LEFT undoes RIGHT |
| `SkyCanvasManager.UpDownInverse` | src/ch/epfl/rigel/gui/SkyCanvasManager.java:103-110 | DOWN undoes UP for altitudes up to 85 degrees |
| `SkyCanvasManager.AltitudeSaturates` | src/ch/epfl/rigel/gui/SkyCanvasManager.java:103-110 | UP at 90 degrees and DOWN at 5 degrees change nothing |
| `SkyCanvasManager.ScrollDelta` | src/ch/epfl/rigel/gui/SkyCanvasManager.java:124 | the larger delta in magnitude, the vertical one on a tie |
| `SkyCanvasManager.OnScroll` | src/ch/epfl/rigel/gui/SkyCanvasManager.java:123-126 | the field of view stays in `[30, 150]`, moves by exactly the scroll amount when that stays in range, and becomes 150 or 30 when the amount would take it to or beyond that limit |
| `SkyCanvasManager.ScrollMonotone` | src/ch/epfl/rigel/gui/SkyCanvasManager.java:123-126 | with no horizontal scroll, scrolling further never moves the field of view the other way, and a zero scroll keeps a field of view already in `[30, 150]` |

## Left out

- Trigonometry and orbits. The coordinate conversions, the stereographic
  projection, `angularDistanceTo` and the Sun, Moon and planet models need
  sin, cos, atan2 and asin over doubles. The sky takes the Sun, the Moon, a
  planet per model and the projection of an object as parameters.
- Floating point. Reals are exact: no rounding of `double`, no narrowing of
  `float` arguments, and `Math.PI` is the abstract positive constant `TAU`.
- `TimeAccelerator.TimeAccelerator.Adjust`: integers are unbounded, so the
  64-bit overflow of `deltaT * accFact` and `freqAdvanc * deltaT`, and the
  ArithmeticException of `Duration.multipliedBy` and `ZonedDateTime.plus`, are
  not modelled. Instants are whole nanoseconds rather than zoned date-times.
- Time zones. A zoned date-time is an instant with an offset that no
  computation reads; the days of the calendar are proleptic Gregorian days.
- Stream input. `BufferedReader` reading and `IOException` are left out; the
  loaders take the lines of the file. A failed load returns a failure rather
  than leaving the stars or asterisms added before the bad line in the
  builder.
- Parsing and formatting. `Integer.parseInt` and `Double.parseDouble` are
  parameters returning a result, and `String.format` and the decimal text of
  a `double` are a formatting parameter.
- `CelestialObject.CelestialObject.Info`: the Moon's text takes its formatted
  percentage from a parameter, not the `%.1f` format.
- `SiderealTime.Greenwich`: the instant's day start is computed by whole-day
  division of UTC milliseconds; zone rules are not modelled.
- Identity. `Star` and `Asterism` are compared by value where the program
  uses object identity in its hash maps and in `containsAll`; two equal
  stars in one list are the same star here.
- Copies. `List.copyOf`, `Arrays.copyOf` and the unmodifiable views exist to
  protect mutable arrays and lists; sequences are values, so each accessor
  returns the stored sequence.
- `equals`, `hashCode` and `toString` of intervals, coordinates and
  polynomials' `equals`/`hashCode`: they only throw or format doubles.
- The JavaFX interface: `Main`, `SkyCanvasPainter`, the beans, the bindings
  and listeners of `SkyCanvasManager`, the mouse handlers, `TimeAnimator` and
  `BlackBodyColor` (a colour table read from a resource file).
- `CelestialObjectModel`, an interface with no behaviour.
- `SphericalCoordinates`: its constructor and `lon`/`lat` are the record
  fields, and `lonDeg`/`latDeg` are `toDeg` of them; they carry no
  contract of their own.
- Where the code and its description differ, the code is followed:
  `CelestialObject` checks only that the name is not null, so an empty name
  is accepted; and an asterism line with an unknown Hipparcos id fails while
  loading, in the `Asterism` constructor, with NullPointer, not when the
  catalogue is built.
