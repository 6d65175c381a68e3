/**
 * The reference table of labelled samples (one row of
 * crop_recommendation.csv each), held in memory and only read.
 */
module Dataset {

  /** One reference row: three integer nutrient columns, four float columns and the crop label. */
  datatype Sample = Sample(
    n: int,
    p: int,
    k: int,
    temperature: real,
    humidity: real,
    ph: real,
    rainfall: real,
    crop: string)  // the `label` column (`label` is reserved in Dafny)

  /** The integer columns, whose ranges and means are reported as integers. */
  datatype IntColumn = N | P | K

  /** The float columns. */
  datatype RealColumn = Temperature | Humidity | Ph | Rainfall

  function IntField(s: Sample, c: IntColumn): int {
    match c
    case N => s.n
    case P => s.p
    case K => s.k
  }

  function RealField(s: Sample, c: RealColumn): real {
    match c
    case Temperature => s.temperature
    case Humidity => s.humidity
    case Ph => s.ph
    case Rainfall => s.rainfall
  }

  /** The values of one integer column, in row order (`rows['N']`). */
  function IntColumnOf(rows: seq<Sample>, c: IntColumn): (col: seq<int>)
    ensures |col| == |rows|
    ensures forall i :: 0 <= i < |rows| ==> col[i] == IntField(rows[i], c)
  {
    seq(|rows|, i requires 0 <= i < |rows| => IntField(rows[i], c))
  }

  /** The values of one float column, in row order. */
  function RealColumnOf(rows: seq<Sample>, c: RealColumn): (col: seq<real>)
    ensures |col| == |rows|
    ensures forall i :: 0 <= i < |rows| ==> col[i] == RealField(rows[i], c)
  {
    seq(|rows|, i requires 0 <= i < |rows| => RealField(rows[i], c))
  }

  /** Some row carries exactly this label. */
  predicate HasLabel(data: seq<Sample>, cropName: string) {
    exists i :: 0 <= i < |data| && data[i].crop == cropName
  }

  /**
   * The rows whose label equals `cropName` exactly (case-sensitive, no
   * trimming), in their original order: pandas' `data[data['label'] == cropName]`.
   * No row with that label is left out and no other row is let in.
   */
  function FilterByLabel(data: seq<Sample>, cropName: string): (rows: seq<Sample>)
    ensures |rows| <= |data|
    ensures forall s :: s in rows ==> s in data && s.crop == cropName
    ensures forall i :: 0 <= i < |data| && data[i].crop == cropName ==> data[i] in rows
    ensures rows == [] <==> !HasLabel(data, cropName)
  {
    if data == [] then []
    else
      var rest := FilterByLabel(data[1..], cropName);
      assert forall i :: 1 <= i < |data| ==> data[i] == data[1..][i - 1];
      if data[0].crop == cropName then [data[0]] + rest else rest
  }

  /**
   * The filter keeps each matching row exactly as many times as it occurs in
   * the table, and no row of another label.
   */
  lemma {:induction false} FilterMultiplicity(data: seq<Sample>, cropName: string, s: Sample)
    ensures multiset(FilterByLabel(data, cropName))[s] ==
            if s.crop == cropName then multiset(data)[s] else 0
  {
    if data != [] {
      assert data == [data[0]] + data[1..];
      FilterMultiplicity(data[1..], cropName, s);
    }
  }

  /** Filtering a concatenation filters each part. */
  lemma {:induction false} FilterAppend(a: seq<Sample>, b: seq<Sample>, cropName: string)
    ensures FilterByLabel(a + b, cropName) == FilterByLabel(a, cropName) + FilterByLabel(b, cropName)
  {
    if a == [] {
      assert a + b == b;
    } else {
      var tail := a[1..] + b;
      assert (a + b)[0] == a[0] && (a + b)[1..] == tail;
      FilterAppend(a[1..], b, cropName);
      var fa, fb := FilterByLabel(a[1..], cropName), FilterByLabel(b, cropName);
      if a[0].crop == cropName {
        assert [a[0]] + (fa + fb) == ([a[0]] + fa) + fb;
      }
    }
  }

  /** Filtering twice by the same label keeps the same rows as filtering once. */
  lemma {:induction false} FilterIdempotent(data: seq<Sample>, cropName: string)
    ensures FilterByLabel(FilterByLabel(data, cropName), cropName) == FilterByLabel(data, cropName)
  {
    if data != [] {
      FilterIdempotent(data[1..], cropName);
    }
  }
}
