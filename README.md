# Smart Crop Recommendation: insight engine model

A Dafny model of the two helper functions behind the crop recommendation web
app: `get_crop_insights`, which summarises the reference table rows of one
crop (per-column minimum, maximum and mean), and
`get_seasonal_recommendations`, which maps a month number to a fixed list of
four crops. Both are pure, so they are modelled as functions over values with
lemmas about them. The reference table, a module-level pandas DataFrame in the
source, is an explicit `seq<Sample>` parameter.

Modules:

- `Wrappers`: `Option`, for the `None` that `get_crop_insights` returns.
- `Dataset`: one table row (`Sample`: integer N, P, K; real temperature,
  humidity, pH, rainfall; the crop label), column selection, and
  `FilterByLabel` (pandas boolean-mask selection on `label`).
- `IntStats` / `RealStats`: `min()`, `max()` and `mean()` of a column. The
  integer mean is modelled as the source computes it: pandas averages the
  integer column as a float, and Python's `int()` truncates that toward zero
  (`IntStats.Truncate`).
- `Insights`: the insight record (`name`, `optimal_conditions` ranges,
  `avg_conditions`) and `GetCropInsights`.
- `InsightExamples`: small tables that show the edge cases (truncation of
  10.5 to 10, case-sensitive labels, rows of other crops ignored).
- `Seasonal`: the month-to-crop-list lookup. It is checked against an
  independent arithmetic definition of the season of a month.

Two behaviours of the code are worth stating outright. The lookup does not
reject months outside 1..12: the final `else` returns the
September-November list for every other integer
(`Seasonal.OutOfRangeMonthFallsThrough`). The insight record carries no
count of matching rows.

## Model

| member | source | states |
|---|---|---|
| `Dataset.FilterByLabel` | app.py:68 | the selected rows all come from the table and carry exactly the requested label; every table row with that label is selected; the selection is empty exactly when no row has the label |
| `Dataset.FilterMultiplicity` | app.py:68 | each row with the requested label is kept as many times as it occurs in the table, and a row of any other label not at all |
| `Dataset.FilterAppend` | app.py:68 | selecting from a concatenated table selects from each part in order |
| `Dataset.FilterIdempotent` | app.py:68 | selecting the same label again from a selection changes nothing |
| `IntStats.Min` | app.py:76-78 | the integer column minimum is a value of the column and no value is smaller |
| `IntStats.Max` | app.py:76-78 | the integer column maximum is a value of the column and no value is larger |
| `RealStats.Min` | app.py:79-82 | the float column minimum is a value of the column and no value is smaller |
| `RealStats.Max` | app.py:79-82 | the float column maximum is a value of the column and no value is larger |
| `RealStats.MeanWithin` | app.py:88-91 | the mean of values that all lie in an interval lies in that interval |
| `RealStats.Mean` | app.py:88-91 | pandas `mean()` of a float column, the exact average; it lies between the column's minimum and maximum |
| `IntStats.Truncate` | app.py:85-87 | Python `int()` of a float drops the fractional part toward zero: for x >= 0 the result is the largest integer not above x, for x < 0 the smallest not below x |
| `IntStats.SumAsReals` | app.py:85-87 | summing an integer column as floats gives the integer sum |
| `IntStats.MeanBetweenMinMax` | app.py:85-87 | the exact mean of an integer column lies between its minimum and maximum |
| `IntStats.TruncatedMean` | app.py:85-87 | `int(column.mean())`: the exact mean truncated toward zero (see `Truncate`); it lies between the column minimum and maximum for values of any sign, and `TruncatedMeanOfNonNegative` shows it is sum / count rounded down for non-negative columns |
| `IntStats.TruncatedMeanOfNonNegative` | app.py:85-87 | for non-negative values the truncated mean equals integer division of the sum by the count, i.e. mean * count <= sum < (mean + 1) * count |
| `IntStats.TruncateQuotient` | app.py:85-87 | truncating the exact quotient of a non-negative integer by a positive one is integer division |
| `Insights.Summarize` | app.py:73-93 | the record built from the rows of one crop carries that crop's name, and every integer and float average lies within its column's reported range |
| `Insights.GetCropInsights` | app.py:66-95 | the result is `None` exactly when no row's label equals the requested name; otherwise the record carries that name |
| `Insights.IntRangeOfRowsSpans` | app.py:76-78 | over non-empty rows, the (min, max) pair of an integer column has min <= max, bounds every row, and both ends are values of some row |
| `Insights.RealRangeOfRowsSpans` | app.py:79-82 | the same for a float column |
| `Insights.IntRangeSpansMatchingRows` | app.py:68-78 | each N/P/K range has min <= max, every matching row's value lies within it, and both ends are values of some matching row |
| `Insights.RealRangeSpansMatchingRows` | app.py:68-82 | the same for the float columns |
| `Insights.IntAverageWithinRange` | app.py:76-87 | each N/P/K average lies within the reported range of that column |
| `Insights.RealAverageWithinRange` | app.py:79-91 | each float average lies within the reported range of that column |
| `Insights.IntMeanOfRowsRoundsDown` | app.py:85-87 | over rows with non-negative values, the truncated column mean is sum / count rounded down: mean * count <= sum < (mean + 1) * count |
| `Insights.IntAverageRoundsDown` | app.py:85-87 | when the matching rows' values are non-negative, the reported N/P/K average is their sum divided by their count, rounded down |
| `Insights.InsightsUseOnlyMatchingRows` | app.py:68-71 | the insights computed from the table equal those computed from the crop's own rows alone |
| `Insights.OtherCropsIgnored` | app.py:68 | inserting rows of other crops anywhere in the table leaves the insights unchanged |
| `InsightExamples.MeanIsTruncatedNotRounded` | app.py:85 | N values 10 and 11 give N range (10, 11) and average 10, not 11 |
| `InsightExamples.RangeAndMeanOfThreeRows` | app.py:68-85 | N values 10, 20, 30 of one crop, with a row of another crop among them, give range (10, 30) and average 20 |
| `InsightExamples.ThreeRowsOfOneCrop` | app.py:76-85 | three rows of one crop with N = 10, 20, 30 give range (10, 30) and average 20 |
| `InsightExamples.NStatsOfThreeRows` | app.py:76-85 | the N column 10, 20, 30 has truncated mean 20 and range (10, 30) |
| `InsightExamples.LabelMatchIsCaseSensitive` | app.py:68-71 | asking for "Rice" in a table of "rice" rows gives `None` |
| `Seasonal.SeasonalRecommendations` | app.py:97-107 | every month, valid or not, gets one of the four fixed lists, always of four crops |
| `Seasonal.RecommendationsFollowSeasons` | app.py:100-105 | for months 1 to 12 the list is that of the month's season (12, 1, 2 winter; 3, 4, 5 spring; 6, 7, 8 summer; 9, 10, 11 autumn) |
| `Seasonal.OutOfRangeMonthFallsThrough` | app.py:106-107 | any integer outside 1..12 gets the September-November list, with no error |
| `Seasonal.ThreeMonthsPerSeason` | app.py:100-107 | each season covers exactly three calendar months |

## Left out

- The Flask routes `home`, `predict`, `monthly_recommendations` and `crop_insights`, and `app.run`: request parsing, JSON and templates, not logic.
- The pickled classifier and `model.predict`: an opaque foreign object.
- Reading `crop_recommendation.csv`: file I/O. The table is a parameter, every row is assumed complete, and pandas' skipping of missing values in `min`/`max`/`mean` is not modelled.
- `datetime.now()` and `calendar.month_name`: the month is a parameter of the lookup.
- Insights.GetCropInsights: the float averages are the exact means; the `round(..., 1)` and `round(..., 2)` applied to them are not modelled, because they are binary floating-point rounding.
- Insights.GetCropInsights: ranges are (min, max) pairs, not the formatted strings `"a - b"` with units and one or two decimals.
- IntStats.TruncatedMean: the mean is exact, while pandas computes it in 64-bit floating point; the two can differ only for sums too large to be represented exactly as a float.
- Idempotence of the insight query holds by construction, since every member here is a mathematical function.
- `test_app.py` and `debug_csv.py`: scripts that load the files and print diagnostics, with no logic of their own.
