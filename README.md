# Air-quality interpolation: training-set join and health bands

The program estimates the PM2.5 level at any point in India. It averages each
city's 2020 measurements, attaches coordinates to the cities it knows, fits a
distance-weighted 3-nearest-neighbour regressor on those points, and reports
the estimate for a query coordinate together with a health status.

This project models the two pieces of the program's own logic:

- `Stations` (stations.dfy): the join in `load_and_prep_data`. It walks the
  per-city averages in order and keeps the cities found in the coordinate
  table. For each one it appends latitude, longitude, city name and average to
  four parallel lists, which are then packaged as the feature matrix `X` and the
  target vector `y`. `Join` is the loop, proved against the specification
  function `Kept`. The lemmas show that `Kept` is exactly the order-preserving
  subsequence of rows whose city has coordinates. `LoadAndPrep` adds the
  packaging and shows that `X` and `y` have the same length, row for row.
- `Severity` (severity.dfy): the if/elif chain in `train_and_run` that maps the
  estimate to Good, Moderate, Poor or Unhealthy / Hazardous. Each band is closed
  at its upper threshold of 50, 100 and 200. Values are `real`, since only
  comparisons are involved. `InBand` states each band's interval on its own.
  The lemmas show that classification is total, exact at the thresholds and
  monotone.

The coordinate table is passed in as a `map` rather than transcribed. The
cleaned per-city averages are passed in as a sequence of rows.

The design description of this system presents the interpolation as an
explicit inverse-distance-weighting algorithm, with exact-match, tie-break and
clamped-k rules. The code does not contain that algorithm. It calls a library
regressor instead, so the model follows the code and leaves the interpolation
out. The same description calls the bands "closed below, open above", but the
thresholds it lists and the code (`<=` at each step) both close every band at
its upper limit. The model follows the code.

## Model

| member | source | states |
|---|---|---|
| `Severity.Classify` | src/app.py:110-114 | the band chosen for a value is one whose interval contains it: at most 50 is Good, above 50 up to 100 is Moderate, above 100 up to 200 is Poor, above 200 is Hazardous |
| `Severity.ClassifyExact` | src/app.py:110-114 | classification is total and exact: a value gets band b if and only if it lies in b's interval |
| `Severity.BandsDisjoint` | src/app.py:111-114 | the four band intervals do not overlap, so no value fits two bands |
| `Severity.Boundaries` | src/app.py:111-114 | 50 is Good, 100 is Moderate, 200 is Poor, and any amount above a threshold leaves its band for a more severe one |
| `Severity.Monotone` | src/app.py:111-114 | if a <= b then the band of a is no more severe than the band of b |
| `Severity.MoreSevereMeansLarger` | src/app.py:111-114 | a strictly more severe band implies a strictly larger value |
| `Severity.Label` | src/app.py:111-114 | every band has a non-empty status text |
| `Severity.LabelInjective` | src/app.py:111-114 | different bands never show the same status text |
| `Stations.Kept` | src/app.py:54-60 | the join keeps at most as many rows as it is given |
| `Stations.KeptIsFilteredSubsequence` | src/app.py:54-60 | the kept rows are the input rows at strictly increasing positions, and a position is kept if and only if its city is in the coordinate table, so no known city is skipped or reordered |
| `Stations.KeptMembership` | src/app.py:56 | an input row is kept if and only if its city has coordinates, and every kept row comes from the input |
| `Stations.KeptValueIsCityAverage` | src/app.py:22-25 | when the averages hold one row per city, the kept cities are still distinct and the value kept for a city is that city's own average |
| `Stations.Join` | src/app.py:47-60 | the four lists have the same length as the kept rows; position k holds the k-th kept city and its average, that city is in the table, and the latitude and longitude are the table's entry for it |
| `Stations.FeatureMatrix` | src/app.py:63 | the feature matrix exists if and only if the two coordinate columns have equal length, and row k is (latitude k, longitude k) |
| `Stations.LoadAndPrep` | src/app.py:47-64 | X and y have as many rows as the join keeps; row k of X is the table coordinate of the k-th kept city and y[k] is its average |

## Left out

- Reading `data/city_day.csv` and exiting when it is missing (src/app.py:11-14): file I/O.
- Date parsing, the year-2020 filter, the per-city mean and dropping missing averages (src/app.py:18-25): library behaviour and floating-point averaging. The model takes their output as its input rows; `KeptValueIsCityAverage` assumes the one-row-per-city shape that grouping produces.
- The coordinate table literal (src/app.py:30-44): configuration data, passed in as a map.
- Fitting and querying the distance-weighted nearest-neighbour regressor (src/app.py:76-77, 106-107): a library call whose neighbour search and weighting are not part of this model. The estimate reaches `Classify` as a parameter.
- The menu loop, reading and parsing the query coordinate, the preset demo location, and all printing (src/app.py:79-103, 116-118): user interface and I/O. This includes the station-count message at line 66.
- Severity.Classify: a floating-point NaN estimate fails every comparison in the source and would be reported as Hazardous; `real` has no NaN, so that case is not modelled.
- Severity.Label: the coloured emoji markers in front of the status texts are left out; only the words are modelled.
- Stations.LoadAndPrep: returns the features and targets but not the coordinate table, which the source passes back unchanged.
