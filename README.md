# Climate refugee estimator — a Dafny model

This project models the computing core of a small desktop application. The application estimates how many people sea level rise will displace in a chosen year.

- It keeps every fifth row and column of a world elevation raster and indexes those points by rounded elevation.
- It resolves the sea level of the chosen year. The level comes from a historical table of past years, or else from one of four scenario curves.
- Each flooded point is assigned to the first continent hull that contains it, in the order Asia, Africa, North America, South America, Europe, Oceania. The point then adds that continent's compounded population density times the area the point stands for.
- Refugees from other climatic events are added on top, and the total is shown in millions or billions.

Other parts of the model:

- a list-based copy of the estimator that the application's tests exercise;
- the strict-interior point-in-polygon test (a point is tested as (longitude, latitude));
- the per-longitude coastal profile;
- the conversion of a canvas click back to a raster coordinate.

Modules, one per source file (plus shared pieces):

| module | file | models |
|---|---|---|
| `Numerics` | numerics.dfy | Python's `round` (half to even), `round(x, d)`, `int()` (toward zero), integer powers, `max(lo, min(v, hi))` |
| `Wrappers` | wrappers.dfy | `Option`, `Result` |
| `PointInPolygon` | point_in_polygon.dfy | TestPointIn.py and the containment predicate every polygon uses |
| `Continents` | continents.dfy | the six continent hulls, first-match classification, densities |
| `Estimator` | estimator.dfy | the year clamp, estimate_other_climatic_refugees, one point's contribution, the displayed magnitude |
| `Elevation` | elevation_data.dfy | Class_ElevationData.py: the elevation index, compute_refugees, build_dico_per_long, the `ElevationData` object |
| `RefugeeList` | refugee_test_copy.dfy | Test_compute_refugees.py: the list-based compute_refugees and its test cases |
| `SeaLevelModel` | sea_level.dfy | Class_SeaLevel.py: the table loader, the four curves, retrieve_sea_level |
| `CoordinateConverter` | coordinate_converter.dfy | Class_CoordinateConverter.py: canvas_to_geo |
| `Controller` | controller.dfy | the count_refugees wiring of Class_Controller.py |

Numbers are modelled as exact reals and unbounded integers:

- Python's `round(x)` is round-half-to-even on the exact value. `round(x, d)` applies it to `x * 10^d`.
- `int(x)` truncates toward zero.
- `(1 + g) ** n` with a whole `n` is an exact power.
- The scenario curves raise the year to non-integer exponents. Those powers are a function parameter `rpow`. The model keeps each curve's coefficient, exponent and rounding to three decimals.

Inputs that the application reads from files are passed in already parsed:

- the raster as latitude, longitude and elevation sequences;
- the sea-level file as (year, level) rows;
- the contour and country tables as sequences of rows.

Where the code and the documentation disagree:

- **Index buckets.** The documentation of create_elevation (Class_ElevationData.py:28-32) says every point at an elevation is kept. The code keeps only the first (see Findings). `FoldAsWritten` models the code and the lemmas about it show the dropped points. The `ElevationData` object builds the documented index, `FoldAppend`, and that is what the estimator reads.
- **Continent limits.** The docstring of compute_refugees calls the limits (lat, long) pairs. The code uses them as (longitude, latitude) vertices and tests `Point(coord[1], coord[0])`. The model follows the code.

## Model

| member | source | states |
|---|---|---|
| Numerics.RoundHalfEven | Class_ElevationData.py:70-72 | the result is within 0.5 of the input, and an exact half goes to the even neighbour |
| Numerics.Trunc | Class_ElevationData.py:305 | `int()` truncates toward zero, for either sign |
| Numerics.Clamp | Class_CoordinateConverter.py:46-47 | `max(lo, min(v, hi))` lies in [lo, hi] and is `v` when `v` already lies there |
| Numerics.RoundToMonotone | Class_ElevationData.py:296-299 | rounding to a fixed number of decimals never reverses an order |
| Numerics.PowMonotone | Class_ElevationData.py:205-209 | `(1 + g) ** n` with g >= 0 grows with n |
| PointInPolygon.CreatePolygon | TestPointIn.py:6-36 | the vertex list has one (lon, lat) vertex per table row, in table order; a table whose closed ring would have fewer than four coordinates is refused, as `Polygon` raises for it |
| PointInPolygon.ShortTablesRefused | TestPointIn.py:33 | one or two rows make no polygon, and three rows whose first and last differ do |
| PointInPolygon.Contains | TestPointIn.py:57 | `polygon.contains(point)` as the strict interior of a simple polygon: false on every edge and vertex, otherwise an odd number of crossings of the rightward ray; its all-inputs property is VertexNotContained |
| PointInPolygon.TestIfPointIn | TestPointIn.py:39-59 | the click (lat, lon) is tested as the plane point (lon, lat); no own contract, ClickOnTableRowIsOutside states its property |
| PointInPolygon.VertexNotContained | TestPointIn.py:93-96 | a polygon's vertices lie on its boundary and are not contained |
| PointInPolygon.ClickOnTableRowIsOutside | TestPointIn.py:39-59 | a clicked (lat, lon) is tested as (lon, lat); so clicking exactly on a table row tests its own vertex, which is outside |
| PointInPolygon.TestFunction | TestPointIn.py:62-116 | a table the polygon constructor refuses gives no verdict; otherwise the flag stays true exactly when every one of the nine cases gets its expected containment |
| PointInPolygon.SquareInsideCases | TestPointIn.py:84-86 | (5, 5), (2.3, 9) and (6, 2) are strictly inside the test square |
| PointInPolygon.SquareOutsideCases | TestPointIn.py:89-91 | (-80, 4), (5, 20) and (-120, -35) are not contained |
| PointInPolygon.SquareBorderCases | TestPointIn.py:94-96 | (10, 2), (3, 10) and (10, 10) lie on the border and are not contained |
| PointInPolygon.SquarePassesAllCases | TestPointIn.py:82-116 | the test square passes all nine cases |
| Continents.AsiaHull | Class_ElevationData.py:213-214 | the hand-computed Asia polygon is the convex hull of Asia's limits: strictly convex, counter-clockwise, made of limits, enclosing all of them |
| Continents.AsiaDroppedLimits | Class_ElevationData.py:213 | of Asia's limits, (130, -15) is interior and (30, 0) lies on a hull edge, so neither is a hull vertex |
| Continents.AfricaHull | Class_ElevationData.py:216-217 | the Africa polygon is the convex hull of Africa's limits |
| Continents.NorthAmericaHull | Class_ElevationData.py:219-220 | the North America polygon is the convex hull of its six limits |
| Continents.SouthAmericaHull | Class_ElevationData.py:222-223 | the South America rectangle is the convex hull of its limits |
| Continents.EuropeHull | Class_ElevationData.py:225-226 | the Europe polygon is the convex hull of its six limits |
| Continents.OceaniaHull | Class_ElevationData.py:228-229 | the Oceania rectangle is the convex hull of its limits |
| Continents.Hull | Class_ElevationData.py:213-229 | each continent's `MultiPoint(limits).convex_hull` as its hull vertices, counter-clockwise; the `<Continent>Hull` lemmas prove each is the convex hull of its limits |
| Continents.Classify | Class_ElevationData.py:243-260 | the if/elif chain over the six hulls in the source's order; ClassifyIsFirstMatch states what it returns |
| Continents.Density | Class_ElevationData.py:205-209 | base density times (1 + growth rate) to the power of the years elapsed; DensityAtLeastBase and DensityMonotone state its properties |
| Continents.ClassifyIsFirstMatch | Class_ElevationData.py:243-260 | the chosen continent's hull contains the point and no earlier hull in the order does; no continent means no hull contains it |
| Continents.ClassifyAsiaTestPoint | Test_compute_refugees.py:134 | [40, 100] is classified as Asia |
| Continents.ClassifyAsiaTestPoint2 | Test_compute_refugees.py:134 | [45, 110] is classified as Asia |
| Continents.ClassifyAsiaTestPoint3 | Test_compute_refugees.py:134 | [35, 120] is classified as Asia |
| Continents.ClassifyAfricaTestPoint | Test_compute_refugees.py:159 | [0, 20] is classified as Africa |
| Continents.ClassifyEuropeTestPoint | Test_compute_refugees.py:159 | [50, -10] is classified as Europe |
| Continents.ClassifyOceanTestPoint | Test_compute_refugees.py:146 | [0, -150] lies in no hull |
| Continents.ClassifyOceanTestPoint2 | Test_compute_refugees.py:146 | [-30, -120] lies in no hull |
| Continents.ClassifyOceanTestPoint3 | Test_compute_refugees.py:146 | [0, -100] lies in no hull |
| Continents.ClassifyOverlapTestPoint | Test_compute_refugees.py:159 | [-10, 140], labelled Oceania by the test, lies inside Oceania's hull yet is classified as Asia by priority |
| Continents.AmericasShareDensity | Class_ElevationData.py:250-254 | both Americas are counted at the one `america` density |
| Continents.DensityAtLeastBase | Class_ElevationData.py:205-209 | with non-negative growth rates a density never falls below its positive 2022 value |
| Continents.DensityMonotone | Class_ElevationData.py:205-209 | with non-negative growth rates densities grow with the years elapsed |
| Estimator.YearsPassed | Class_ElevationData.py:293 | `max(0, min(500, year - 2022))`; ClampsAgree proves it equal to the clamp of compute_refugees |
| Estimator.OtherClimaticRefugees | Class_ElevationData.py:277-305 | the truncated weighted sum of the four climate features after the clamped years; OtherAtStart, OtherMonotone, OtherAtLeastStart and OtherConstantAfterCap state its properties |
| Estimator.PointRefugees | Class_ElevationData.py:239-260 | one point's addition: the density of the first hull containing it times the surface, or nothing; PointRefugeesSign and PointRefugeesMonotone state its properties |
| Estimator.YearsSince2022 | Class_ElevationData.py:197-202 | the offset lies in [0, 500]: 0 up to 2022, year - 2022 up to 2522, and 500 from then on |
| Estimator.ClampsAgree | Class_ElevationData.py:293 | `max(0, min(500, year - 2022))` equals compute_refugees' clamp for every year |
| Estimator.OtherAtStart | Class_ElevationData.py:293-305 | up to 2022 the other-event estimate is 10e6 + 35e6 + 10 * 2e6 + 3e6 = 68,000,000 |
| Estimator.FeaturesMonotone | Class_ElevationData.py:296-299 | each rounded or truncated climate feature grows with the years elapsed |
| Estimator.OtherWeightedMonotone | Class_ElevationData.py:302 | the weighted sum of the features grows with the years elapsed |
| Estimator.OtherMonotone | Class_ElevationData.py:293-305 | the other-event estimate never decreases from one year to a later one |
| Estimator.OtherAtLeastStart | Class_ElevationData.py:293-305 | every year gets at least 68,000,000 other-event refugees |
| Estimator.OtherConstantAfterCap | Class_ElevationData.py:293 | any two years from 2522 on give the same other-event estimate |
| Estimator.ShareSign | Class_ElevationData.py:243-260 | a point's share is zero without a hull and positive with one |
| Estimator.PointRefugeesSign | Class_ElevationData.py:239-260 | a point adds a non-negative amount, and a positive one exactly when some hull contains it |
| Estimator.PointsRefugeesNonNegative | Class_ElevationData.py:239-260 | the points of a list never lower the count |
| Estimator.ShareMonotone | Class_ElevationData.py:243-260 | a hull's per-point share grows with the years elapsed |
| Estimator.PointRefugeesMonotone | Class_ElevationData.py:239-260 | one point's contribution grows with the years elapsed |
| Estimator.PointsRefugeesMonotone | Class_ElevationData.py:239-260 | a list of points contributes more, or the same, as the years elapsed grow |
| Estimator.OutsidePointsContributeNothing | Class_ElevationData.py:243-260 | points inside no hull add nothing |
| Estimator.RepeatedPoint | Test_compute_refugees.py:62-86 | a list of one point repeated n times contributes n times that point's share |
| Estimator.Display | Class_ElevationData.py:265-273 | above 1e9 the total is shown in billions, above 1e6 in millions, and only at or below 1e6 is no value bound |
| Elevation.Samples | Class_ElevationData.py:61-72 | the rounded (elevation, point) the loops visit, in row-major order; SampleLayout states which cell each sample is |
| Elevation.FoldAsWritten | Class_ElevationData.py:74-79 | the insertion loop as written: a new elevation gets a bucket holding the point, a known one is left alone; AsWrittenIndex states what it builds |
| Elevation.FoldAppend | Class_ElevationData.py:28-32 | the documented insertion: create the bucket when new, append the point in every case; AppendIndex states what it builds |
| Elevation.IndexEstimate | Class_ElevationData.py:186-263 | the number compute_refugees shows before formatting; EstimateUpTo2022, EstimateAtLeastBase, EstimateCapped and EstimateMonotone state its properties |
| Elevation.Profile | Class_ElevationData.py:160-172 | the per-longitude dictionary build_dico_per_long returns; ProfileShape states what it holds |
| Elevation.StrideInRange | Class_ElevationData.py:64-65 | the r-th kept index 5r of `range(0, n, 5)` is below n |
| Elevation.RowSamplesLayout | Class_ElevationData.py:69-72 | a kept row yields one sample per kept column 0, 5, 10, ... in order, each the rounded (elevation, lat, lon) of that cell |
| Elevation.SampleLayout | Class_ElevationData.py:61-72 | the sampler visits exactly the kept rows times the kept columns in row-major order: sample r * columns + c is cell (5r, 5c) |
| Elevation.KeyIndex | Class_ElevationData.py:75 | the key lookup returns the first bucket holding the elevation, or the length when none does |
| Elevation.AsWrittenIndex | Class_ElevationData.py:74-79 | the loop as written keeps the old buckets and distinct keys, grows the key set by exactly the sampled elevations, and gives each new bucket only the first sampled point at its elevation |
| Elevation.AsWrittenOnePointPerKey | Class_ElevationData.py:74-79 | starting empty, as written, every bucket holds exactly one point, the first sampled at its elevation, and the keys are exactly the sampled elevations |
| Elevation.AsWrittenDropsPoints | Class_ElevationData.py:74-79 | as written, an elevation shared by two or more sampled points gets a bucket of one point |
| Elevation.FlatRasterIndex | Class_ElevationData.py:61-79 | on a 1 x 6 raster of zeros the loop as written keeps [(0, 0)] but the documented index keeps [(0, 0), (0, 5)] |
| Elevation.AppendIndex | Class_ElevationData.py:28-32 | the documented index has distinct keys, exactly the sampled elevations, and under each key every sampled point at that elevation in sampling order |
| Elevation.FoldAppendDistinct | Class_ElevationData.py:74-79 | the documented insertion keeps keys distinct from any start that has them |
| Elevation.EmptyBandAddsNothing | Class_ElevationData.py:238 | buckets outside [elevation_2022, elevation_year) add nothing |
| Elevation.BandRefugeesNonNegative | Class_ElevationData.py:234-260 | the band never lowers the count |
| Elevation.EstimateUpTo2022 | Class_ElevationData.py:186-234 | any year up to 2022 gives exactly 32,000,000 |
| Elevation.EstimateEmptyBand | Class_ElevationData.py:234-263 | after 2022, an empty band still adds the other-event refugees |
| Elevation.EstimateAtLeastBase | Class_ElevationData.py:265-273 | the total is at least 32 million (at least 100 million after 2022), so a value to show is always bound |
| Elevation.EstimateCapped | Class_ElevationData.py:201-202 | two years from 2522 on give the same total |
| Elevation.BandRefugeesMonotone | Class_ElevationData.py:235-260 | the band's refugees grow with the years elapsed |
| Elevation.EstimateMonotone | Class_ElevationData.py:175-263 | for a fixed index and band, a later year never gives a smaller total |
| Elevation.LonKeysCounted | Class_ElevationData.py:163 | a longitude is a group key exactly when some row rounds to it |
| Elevation.ProfileShape | Class_ElevationData.py:160-172 | a rounded longitude is a profile key exactly when its mean elevation exceeds the sea level, and then its value is round(mean - sea level) >= 0 |
| Elevation.ProfileExample | Class_ElevationData.py:160-172 | rows (2.1, 100), (2.1, 80), (5.0, -10) at sea level 50 give {2.1: 40} |
| Elevation.AddBucket | Class_ElevationData.py:239-260 | the inner loop adds the sum of the bucket's points' contributions |
| Elevation.ElevationData.constructor | Class_ElevationData.py:8-23 | the polygon is the contour's (lon, lat) vertices; on a raster that covers the kept indices the index is the documented one over its samples, and the stored estimate is the displayed total for 2030 with a band from 0.21 m to 50 m |
| Elevation.ElevationData.CreateElevation | Class_ElevationData.py:26-79 | succeeds exactly when the raster covers the kept indices; it then records every sample in row-major order into the existing index, keeps keys distinct, and changes nothing else |
| Elevation.ElevationData.RecordRow | Class_ElevationData.py:69-79 | one kept row's samples are recorded in column order |
| Elevation.ElevationData.Record | Class_ElevationData.py:74-79 | a new elevation gets a bucket, and the point is appended to its elevation's bucket |
| Elevation.ElevationData.CreatePolygon | Class_ElevationData.py:83-110 | the contour polygon becomes the table's (lon, lat) vertices, and is returned; a table too short for a ring is refused and the polygon kept; the index and estimate are unchanged |
| Elevation.ElevationData.TestIfPointIn | Class_ElevationData.py:112-136 | the click tested as (lon, lat) against the stored contour, by PointInPolygon.TestIfPointIn; no own contract |
| Elevation.ElevationData.ComputeRefugees | Class_ElevationData.py:175-273 | the total is 32 million plus, after 2022, for every in-band point its density times the 5 x 5 degree cell it stands for, and the other-event refugees; the shown value is always bound |
| Elevation.ElevationData.BuildDicoPerLong | Class_ElevationData.py:140-172 | the result is the profile: the rounded longitudes whose mean elevation is above the sea, each with its rounded height above it |
| RefugeeList.ListEstimate | Test_compute_refugees.py:16-91 | the value the list version returns, as a function of the points and the year; the RefugeeList lemmas state its properties |
| RefugeeList.ComputeRefugees | Test_compute_refugees.py:4-91 | the list version returns the truncated total of its points and year alone, and never reads the two elevation arguments |
| RefugeeList.ListUpTo2022 | Test_compute_refugees.py:166-175 | any points with a year up to 2022 give exactly 32,000,000 |
| RefugeeList.ListAtLeastBaseAndOther | Test_compute_refugees.py:61-91 | after 2022 the result is at least 32,000,000 plus the other-event estimate |
| RefugeeList.OutsidePointsIgnored | Test_compute_refugees.py:62-86 | points inside no hull give the same result as no points |
| RefugeeList.OceanPointsTest | Test_compute_refugees.py:141-152 | the three Pacific points give the same result as the empty list in 2035 |
| RefugeeList.ShareAtLeastOne | Test_compute_refugees.py:66-86 | a point inside some hull contributes at least one refugee |
| RefugeeList.PointInHullIncreases | Test_compute_refugees.py:69-71 | after 2022, adding a point inside a hull strictly raises the result |
| RefugeeList.TenCopiesTest | Test_compute_refugees.py:211-222 | ten copies of [40, 100] give more refugees than one |
| RefugeeList.MaxYearTest | Test_compute_refugees.py:177-187 | years 2522 and 3022 give the same result for the same points |
| RefugeeList.AboveBaseTests | Test_compute_refugees.py:129-164 | the all-Asia and several-continent tests exceed 32,000,000 |
| RefugeeList.OverlapPointShare | Test_compute_refugees.py:159 | [-10, 140] is counted at Asia's density, not Oceania's |
| RefugeeList.MultiContinentShares | Test_compute_refugees.py:154-164 | the several-continent points weigh twice Asia's, once Africa's and once Europe's density |
| SeaLevelModel.SeaLevel.constructor | Class_SeaLevel.py:4-6 | the table is the file loaded from an empty table with its header skipped |
| SeaLevelModel.SeaLevel.LoadDataSeaLevel | Class_SeaLevel.py:8-33 | the loop applies the kept rows to the existing table and returns it; an empty file whose header is to be skipped stops with the table unchanged |
| SeaLevelModel.LoadRows | Class_SeaLevel.py:28-30 | the loop over the rows: a row whose year is a multiple of 5 sets that year's level, any other is skipped; the Load lemmas state its properties |
| SeaLevelModel.ComputeSeaLevel1 | Class_SeaLevel.py:36-50 | round(6e-82 * year ** 24.366, 3), the power given by `rpow`; ScenariosRise states its property |
| SeaLevelModel.ComputeSeaLevel2 | Class_SeaLevel.py:52-65 | round(7e-91 * year ** 27.078, 3); ScenariosRise states its property |
| SeaLevelModel.ComputeSeaLevel3 | Class_SeaLevel.py:67-80 | round(1e-107 * year ** 32.127, 3); ScenariosRise states its property |
| SeaLevelModel.ComputeSeaLevel4 | Class_SeaLevel.py:82-95 | round(3e-128 * year ** 38.388, 3); ScenariosRise states its property |
| SeaLevelModel.LoadKeepsMultiplesOf5 | Class_SeaLevel.py:28-30 | after loading, every year in the table is a multiple of 5 |
| SeaLevelModel.LoadKeySet | Class_SeaLevel.py:28-30 | the years after loading are the old ones plus the years of the rows that are multiples of 5 |
| SeaLevelModel.LoadUntouched | Class_SeaLevel.py:28-30 | a year that no kept row names keeps its old presence and value |
| SeaLevelModel.LoadDropsOtherYears | Class_SeaLevel.py:29 | a year that is not a multiple of 5 is never written |
| SeaLevelModel.LoadLastRowWins | Class_SeaLevel.py:30 | when a year repeats, the last row naming it gives the stored level |
| SeaLevelModel.LoadRowsIdempotent | Class_SeaLevel.py:28-30 | loading the same rows twice gives the table of loading them once |
| SeaLevelModel.CurveMonotone | Class_SeaLevel.py:50 | a positive-coefficient curve, rounded to three decimals, rises wherever the power does |
| SeaLevelModel.ScenariosRise | Class_SeaLevel.py:36-95 | each of the four scenario curves rises with the year wherever its power does |
| SeaLevelModel.SeaLevel.RetrieveSeaLevel | Class_SeaLevel.py:97-133 | a year in the table gives the table's level for any scenario; otherwise scenarios 1 to 4 give their curve; no value exists exactly when the year is missing and the scenario is outside 1 to 4; the table is only read |
| SeaLevelModel.LoadedYearAnswered | Class_SeaLevel.py:117-118 | the level of a file row (the last naming its year, a multiple of 5) is what the resolver returns for that year, whatever the scenario |
| SeaLevelModel.OtherYearsUseCurve | Class_SeaLevel.py:117-133 | after loading, a year that is not a multiple of 5 is not in the table, so each of scenarios 1 to 4 answers with its curve and every other scenario with no value |
| CoordinateConverter.PyIndex | Class_CoordinateConverter.py:50-55 | numpy indexing: defined exactly for -n .. n - 1, negative indices counting from the end |
| CoordinateConverter.ImageCoord | Class_CoordinateConverter.py:42-47 | the clamped pixel lies in [0, size - 1] when size >= 1, and equals the truncated coordinate when that is already in range |
| CoordinateConverter.CanvasToGeo | Class_CoordinateConverter.py:5-57 | a zero zoom is an error; whatever is returned comes from the coordinate arrays; with index arrays covering the image and naming valid entries the result is (lats[lat_indices[image_y]], lons[lon_indices[image_x]]) |
| CoordinateConverter.SmallNegativeOffsetTruncatesToZero | Class_CoordinateConverter.py:42-43 | an offset of less than one pixel before the origin truncates to pixel 0, not -1 |
| CoordinateConverter.UnzoomedPixel | Class_CoordinateConverter.py:42-57 | with no pan and no zoom, pixel (col, row) reads lats[lat_indices[row]] and lons[lon_indices[col]] |
| CoordinateConverter.ShortIndicesFail | Class_CoordinateConverter.py:51 | an empty longitude index array makes every conversion an index error |
| Controller.CountRefugees | Class_Controller.py:55-67 | the count is compute_refugees(year, the resolved sea level, 0.21), and there is none exactly when the sea level cannot be resolved |
| Controller.SubMetreSeaLevelFloodsNothing | Class_Controller.py:32 | index keys are whole metres, so a band from the 0.21 m reference up to a sea level of at most 1 m floods no bucket and only the other events add to 32 million |

## Left out

- The graphical interface is not part of this model: Class_MainView.py, Class_SecondaryView.py, Class_ProfileView.py, Class_TestProfileView.py and TestPolygon.py. This covers image generation, drawing, plotting and printing.
- The model does not follow Class_MainView.py when it applies `int()` to the string compute_refugees returns. That call would fail at run time.
- File reading is not modelled: netCDF, pandas `read_csv` and `csv.reader`. Parsed sequences are the inputs instead.
  - A header row that is not skipped and fails to parse is not modelled.
  - netCDF masked values are not modelled.
  - The raster, contour and country files are not part of this model.
- TestPointIn's `carre_coord.csv` is not part of this model. The nine cases are checked against the square with corners (0, 0), (10, 0), (10, 10), (0, 10), a square that agrees with every case.
- Shapely's `convex_hull` algorithm is not modelled. The six hulls are hand-computed and proved to be the convex hulls of the listed limits.
- Shapely's `Polygon.contains` is modelled as strict interior of a simple polygon, using a boundary test and even-odd ray casting. Self-intersecting contours are not modelled.
- Floating point is not modelled; the model uses exact reals. IEEE rounding errors, the float division in canvas_to_geo and float accumulation order are not captured.
- SeaLevelModel.ComputeSeaLevel1: the non-integer power `year ** 24.366` is the parameter `rpow`. The same holds for its exponent in ComputeSeaLevel2, ComputeSeaLevel3 and ComputeSeaLevel4. Only the coefficient, exponent and three-decimal rounding are fixed, so the curves' values are not computed.
- Estimator.Display: the f-string `'<value> billion'` or `'<value> million'` is kept as a value and a unit, not as text.
- Elevation.ElevationData.CreateElevation follows the documented always-append behaviour, not the first-point-only loop as written. Elevation.FoldAsWritten models the loop as written (see Findings).
- Elevation.ElevationData.RecordRow records every sample of the row under its elevation (documented always-append), where lines 74-79 as written keep only the first point of each new elevation.
- Elevation.ElevationData.Record appends the point to its elevation's bucket in every case (documented always-append), where line 79 as written appends only when the elevation is new; Elevation.InsertFirstOnly is the step as written.
- Elevation.ElevationData.CreateElevation checks the raster's shape before the loop and reports a failure. The source raises IndexError partway through, after some buckets are recorded. That partial state, and the exception aborting the constructor, are not modelled.
- Elevation.ElevationData.constructor states the index and the estimate only for a raster that covers the kept indices, and the polygon only for a contour table that makes a ring. In the source any other raster or contour raises and no object is built; the model goes on with the index or polygon unchanged.
- SeaLevelModel.SeaLevel.RetrieveSeaLevel: for a year the table lacks and a scenario outside 1 to 4, `return sea_level` raises UnboundLocalError; the model returns None.
- PointInPolygon.TestFunction: when `Polygon` raises for a short table, the source's test stops with the exception; the model returns no verdict.
- SeaLevelModel.SeaLevel.constructor: when the file is empty, the StopIteration raised by the constructor is not modelled. The table then stays empty.
- Elevation.ElevationData.BuildDicoPerLong returns a map, so pandas' ascending key order of the dictionary it builds is not kept.
- Elevation.RoundedLon models pandas' `round(1)` as exact half-to-even on the real value.
- Elevation.ElevationData.TestIfPointIn delegates to PointInPolygon.TestIfPointIn over the stored polygon. The stored contour stays abstract and nothing specific to France is proved.
- The test `test_climatic_refugees_estimation` (Test_compute_refugees.py:189-209) is not modelled. Its expected formula uses rates and weights different from the function it checks, so it cannot pass. No property is taken from it.
- The commented-out `color_map` is not modelled.
- Class_Controller.py is wiring only. Controller.CountRefugees keeps its one computation: the resolved sea level is passed second and the reference elevation 0.21 third.
- The default arguments of the list-based compute_refugees (Test_compute_refugees.py:4) are not modelled. The model takes every argument explicitly.

## Findings

| source | as written | input that shows it | evidently intended | confidence | as-written member | corrected member |
|---|---|---|---|---|---|---|
| Class_ElevationData.py:75-79 | the `append` sits inside `if elev not in self.elevation_dict`, so only the first point sampled at each elevation is recorded | raster lats [0], lons [0, 1, 2, 3, 4, 5], elevations all 0: the kept points (0, 0) and (0, 5) share elevation 0, but the index is {0: [[0, 0]]} | create the bucket when the elevation is new, then append in every case: {0: [[0, 0], [0, 5]]}, as the docstring at lines 28-32 says | not executed | Elevation.FlatRasterIndex | Elevation.AppendIndex |
