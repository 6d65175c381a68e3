/**
 * `get_crop_insights` (app.py): the per-crop summary the web front end shows
 * next to a prediction. The table is a parameter rather than the
 * module-level `crop_data`.
 */
module Insights {
  import opened Wrappers
  import opened Dataset
  import IntStats
  import RealStats

  /** `"min - max"` of an integer column, before it is rendered as text. */
  datatype IntRange = IntRange(min: int, max: int)

  /** `"min - max"` of a float column, before it is rendered with one or two decimals. */
  datatype RealRange = RealRange(min: real, max: real)

  /** The `optimal_conditions` part of the record. */
  datatype OptimalConditions = OptimalConditions(
    nRange: IntRange,
    pRange: IntRange,
    kRange: IntRange,
    temperatureRange: RealRange,
    humidityRange: RealRange,
    phRange: RealRange,
    rainfallRange: RealRange)

  /** The `avg_conditions` part of the record. */
  datatype AvgConditions = AvgConditions(
    n: int,
    p: int,
    k: int,
    temperature: real,
    humidity: real,
    ph: real,
    rainfall: real)

  datatype Insight = Insight(
    name: string,
    optimalConditions: OptimalConditions,
    avgConditions: AvgConditions)

  function IntRangeOf(o: OptimalConditions, c: IntColumn): IntRange {
    match c
    case N => o.nRange
    case P => o.pRange
    case K => o.kRange
  }

  function RealRangeOf(o: OptimalConditions, c: RealColumn): RealRange {
    match c
    case Temperature => o.temperatureRange
    case Humidity => o.humidityRange
    case Ph => o.phRange
    case Rainfall => o.rainfallRange
  }

  function IntAvgOf(a: AvgConditions, c: IntColumn): int {
    match c
    case N => a.n
    case P => a.p
    case K => a.k
  }

  function RealAvgOf(a: AvgConditions, c: RealColumn): real {
    match c
    case Temperature => a.temperature
    case Humidity => a.humidity
    case Ph => a.ph
    case Rainfall => a.rainfall
  }

  function IntRangeOfRows(rows: seq<Sample>, c: IntColumn): IntRange
    requires |rows| > 0
  {
    var col := IntColumnOf(rows, c);
    IntRange(IntStats.Min(col), IntStats.Max(col))
  }

  function RealRangeOfRows(rows: seq<Sample>, c: RealColumn): RealRange
    requires |rows| > 0
  {
    var col := RealColumnOf(rows, c);
    RealRange(RealStats.Min(col), RealStats.Max(col))
  }

  /**
   * The record built from a non-empty set of rows of one crop: it carries
   * the crop's name, and every column's average lies within that column's
   * (ordered) range.
   */
  function Summarize(cropName: string, rows: seq<Sample>): (r: Insight)
    requires |rows| > 0
    ensures r.name == cropName
    ensures forall c :: IntRangeOf(r.optimalConditions, c).min <= IntAvgOf(r.avgConditions, c) <= IntRangeOf(r.optimalConditions, c).max
    ensures forall c :: RealRangeOf(r.optimalConditions, c).min <= RealAvgOf(r.avgConditions, c) <= RealRangeOf(r.optimalConditions, c).max
  {
    Insight(
      cropName,
      OptimalConditions(
        IntRangeOfRows(rows, N),
        IntRangeOfRows(rows, P),
        IntRangeOfRows(rows, K),
        RealRangeOfRows(rows, Temperature),
        RealRangeOfRows(rows, Humidity),
        RealRangeOfRows(rows, Ph),
        RealRangeOfRows(rows, Rainfall)),
      AvgConditions(
        IntStats.TruncatedMean(IntColumnOf(rows, N)),
        IntStats.TruncatedMean(IntColumnOf(rows, P)),
        IntStats.TruncatedMean(IntColumnOf(rows, K)),
        RealStats.Mean(RealColumnOf(rows, Temperature)),
        RealStats.Mean(RealColumnOf(rows, Humidity)),
        RealStats.Mean(RealColumnOf(rows, Ph)),
        RealStats.Mean(RealColumnOf(rows, Rainfall))))
  }

  /**
   * `get_crop_insights(crop_name)`: no record when no row carries exactly
   * this label, otherwise the ranges and means of the matching rows under
   * the requested name.
   */
  function GetCropInsights(data: seq<Sample>, cropName: string): (r: Option<Insight>)
    ensures r.None? <==> !HasLabel(data, cropName)
    ensures r.Some? ==> r.value.name == cropName
  {
    var subset := FilterByLabel(data, cropName);
    if subset == [] then None else Some(Summarize(cropName, subset))
  }

  /** The integer entries of the record come from the matching rows' column. */
  lemma IntEntries(data: seq<Sample>, cropName: string, c: IntColumn)
    requires HasLabel(data, cropName)
    ensures var rows := FilterByLabel(data, cropName);
      var r := GetCropInsights(data, cropName);
      |rows| > 0 && r.Some? &&
      IntRangeOf(r.value.optimalConditions, c) == IntRangeOfRows(rows, c) &&
      IntAvgOf(r.value.avgConditions, c) == IntStats.TruncatedMean(IntColumnOf(rows, c))
  {
  }

  /** The float entries of the record come from the matching rows' column. */
  lemma RealEntries(data: seq<Sample>, cropName: string, c: RealColumn)
    requires HasLabel(data, cropName)
    ensures var rows := FilterByLabel(data, cropName);
      var r := GetCropInsights(data, cropName);
      |rows| > 0 && r.Some? &&
      RealRangeOf(r.value.optimalConditions, c) == RealRangeOfRows(rows, c) &&
      RealAvgOf(r.value.avgConditions, c) == RealStats.Mean(RealColumnOf(rows, c))
  {
  }

  /** Over a non-empty set of rows, a column's range is attained and bounds every row. */
  lemma IntRangeOfRowsSpans(rows: seq<Sample>, c: IntColumn)
    requires |rows| > 0
    ensures var rg := IntRangeOfRows(rows, c);
      rg.min <= rg.max &&
      (forall s :: s in rows ==> rg.min <= IntField(s, c) <= rg.max) &&
      (exists s :: s in rows && IntField(s, c) == rg.min) &&
      (exists s :: s in rows && IntField(s, c) == rg.max)
  {
    var col := IntColumnOf(rows, c);
    forall s | s in rows
      ensures IntStats.Min(col) <= IntField(s, c) <= IntStats.Max(col)
    {
      var j :| 0 <= j < |rows| && rows[j] == s;
      assert col[j] in col;
    }
    var jl :| 0 <= jl < |col| && col[jl] == IntStats.Min(col);
    assert rows[jl] in rows;
    var jh :| 0 <= jh < |col| && col[jh] == IntStats.Max(col);
    assert rows[jh] in rows;
  }

  lemma RealRangeOfRowsSpans(rows: seq<Sample>, c: RealColumn)
    requires |rows| > 0
    ensures var rg := RealRangeOfRows(rows, c);
      rg.min <= rg.max &&
      (forall s :: s in rows ==> rg.min <= RealField(s, c) <= rg.max) &&
      (exists s :: s in rows && RealField(s, c) == rg.min) &&
      (exists s :: s in rows && RealField(s, c) == rg.max)
  {
    var col := RealColumnOf(rows, c);
    forall s | s in rows
      ensures RealStats.Min(col) <= RealField(s, c) <= RealStats.Max(col)
    {
      var j :| 0 <= j < |rows| && rows[j] == s;
      assert col[j] in col;
    }
    var jl :| 0 <= jl < |col| && col[jl] == RealStats.Min(col);
    assert rows[jl] in rows;
    var jh :| 0 <= jh < |col| && col[jh] == RealStats.Max(col);
    assert rows[jh] in rows;
  }

  /**
   * Each integer range spans exactly the matching rows' values: its minimum
   * and maximum are values of some row of this crop, and every row of this
   * crop lies between them.
   */
  lemma IntRangeSpansMatchingRows(data: seq<Sample>, cropName: string, c: IntColumn)
    requires GetCropInsights(data, cropName).Some?
    ensures var rg := IntRangeOf(GetCropInsights(data, cropName).value.optimalConditions, c);
      rg.min <= rg.max &&
      (forall s :: s in data && s.crop == cropName ==> rg.min <= IntField(s, c) <= rg.max) &&
      (exists s :: s in data && s.crop == cropName && IntField(s, c) == rg.min) &&
      (exists s :: s in data && s.crop == cropName && IntField(s, c) == rg.max)
  {
    IntEntries(data, cropName, c);
    var rows := FilterByLabel(data, cropName);
    IntRangeOfRowsSpans(rows, c);
    forall s | s in data && s.crop == cropName
      ensures s in rows
    {
      var i :| 0 <= i < |data| && data[i] == s;
    }
  }

  /** The same for the float ranges. */
  lemma RealRangeSpansMatchingRows(data: seq<Sample>, cropName: string, c: RealColumn)
    requires GetCropInsights(data, cropName).Some?
    ensures var rg := RealRangeOf(GetCropInsights(data, cropName).value.optimalConditions, c);
      rg.min <= rg.max &&
      (forall s :: s in data && s.crop == cropName ==> rg.min <= RealField(s, c) <= rg.max) &&
      (exists s :: s in data && s.crop == cropName && RealField(s, c) == rg.min) &&
      (exists s :: s in data && s.crop == cropName && RealField(s, c) == rg.max)
  {
    RealEntries(data, cropName, c);
    var rows := FilterByLabel(data, cropName);
    RealRangeOfRowsSpans(rows, c);
    forall s | s in data && s.crop == cropName
      ensures s in rows
    {
      var i :| 0 <= i < |data| && data[i] == s;
    }
  }

  /** The truncated integer mean never leaves the reported range, whatever the signs. */
  lemma IntAverageWithinRange(data: seq<Sample>, cropName: string, c: IntColumn)
    requires GetCropInsights(data, cropName).Some?
    ensures var r := GetCropInsights(data, cropName).value;
      IntRangeOf(r.optimalConditions, c).min <= IntAvgOf(r.avgConditions, c) <= IntRangeOf(r.optimalConditions, c).max
  {
    IntEntries(data, cropName, c);
  }

  /** The float mean never leaves the reported range. */
  lemma RealAverageWithinRange(data: seq<Sample>, cropName: string, c: RealColumn)
    requires GetCropInsights(data, cropName).Some?
    ensures var r := GetCropInsights(data, cropName).value;
      RealRangeOf(r.optimalConditions, c).min <= RealAvgOf(r.avgConditions, c) <= RealRangeOf(r.optimalConditions, c).max
  {
    RealEntries(data, cropName, c);
  }

  /** Over non-negative rows, the truncated mean of a column is its sum divided by the count. */
  lemma IntMeanOfRowsRoundsDown(rows: seq<Sample>, c: IntColumn)
    requires |rows| > 0
    requires forall s :: s in rows ==> 0 <= IntField(s, c)
    ensures var col := IntColumnOf(rows, c);
      var total, avg := IntStats.Sum(col), IntStats.TruncatedMean(col);
      avg == total / |rows| && avg * |rows| <= total < (avg + 1) * |rows|
  {
    var col := IntColumnOf(rows, c);
    forall x | x in col
      ensures 0 <= x
    {
      var j :| 0 <= j < |col| && col[j] == x;
      assert rows[j] in rows;
    }
    IntStats.TruncatedMeanOfNonNegative(col);
  }

  /**
   * On non-negative data the integer mean is the matching rows' sum divided
   * by their count, rounded down (so a mean of 10.5 is reported as 10).
   */
  lemma IntAverageRoundsDown(data: seq<Sample>, cropName: string, c: IntColumn)
    requires GetCropInsights(data, cropName).Some?
    requires forall s :: s in data && s.crop == cropName ==> 0 <= IntField(s, c)
    ensures var rows := FilterByLabel(data, cropName);
      var total := IntStats.Sum(IntColumnOf(rows, c));
      var avg := IntAvgOf(GetCropInsights(data, cropName).value.avgConditions, c);
      avg == total / |rows|
  {
    var rows := FilterByLabel(data, cropName);
    var avg := IntAvgOf(GetCropInsights(data, cropName).value.avgConditions, c);
    assert |rows| > 0 && avg == IntStats.TruncatedMean(IntColumnOf(rows, c)) by {
      IntEntries(data, cropName, c);
    }
    assert forall s :: s in rows ==> 0 <= IntField(s, c);
    IntMeanOfRowsRoundsDown(rows, c);
  }

  /** The insights for a crop are those of its own rows: the other rows play no part. */
  lemma InsightsUseOnlyMatchingRows(data: seq<Sample>, cropName: string)
    ensures GetCropInsights(FilterByLabel(data, cropName), cropName) == GetCropInsights(data, cropName)
  {
    FilterIdempotent(data, cropName);
  }

  /** Inserting rows of other crops anywhere in the table leaves the insights unchanged. */
  lemma OtherCropsIgnored(before: seq<Sample>, others: seq<Sample>, after: seq<Sample>, cropName: string)
    requires forall s :: s in others ==> s.crop != cropName
    ensures GetCropInsights(before + others + after, cropName) == GetCropInsights(before + after, cropName)
  {
    var fb, fo, fa := FilterByLabel(before, cropName), FilterByLabel(others, cropName), FilterByLabel(after, cropName);
    assert fo == [];
    FilterAppend(before + others, after, cropName);
    FilterAppend(before, others, cropName);
    FilterAppend(before, after, cropName);
    assert fb + fo == fb;
    assert FilterByLabel(before + others + after, cropName) == FilterByLabel(before + after, cropName);
  }
}
