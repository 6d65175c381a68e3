/** Small worked tables showing the edge cases of `get_crop_insights`. */
module InsightExamples {
  import opened Wrappers
  import opened Dataset
  import opened Insights
  import IntStats

  function Row(n: int, crop: string): Sample {
    Sample(n, 40, 40, 20.0, 80.0, 6.5, 200.0, crop)
  }

  /** N = [10, 11] has mean 10.5, which is truncated to 10, not rounded to 11. */
  lemma MeanIsTruncatedNotRounded()
    ensures var r := GetCropInsights([Row(10, "rice"), Row(11, "rice")], "rice");
      r.Some? && r.value.avgConditions.n == 10 && r.value.optimalConditions.nRange == IntRange(10, 11)
  {
    var data := [Row(10, "rice"), Row(11, "rice")];
    assert data[1..] == [Row(11, "rice")];
    assert FilterByLabel(data, "rice") == data;
    var col := IntColumnOf(data, N);
    assert col == [10, 11];
    assert IntStats.Sum([11]) == 11 by {
      assert [11][1..] == [];
    }
    assert IntStats.Sum(col) == 21 by {
      assert col[1..] == [11];
    }
    IntStats.SumAsReals(col);
    assert IntStats.Mean(col) == 21.0 / 2.0;
    assert IntStats.Truncate(10.5) == 10;
    assert IntStats.Min(col) == 10 && IntStats.Max(col) == 11 by {
      assert col[1..] == [11];
    }
    IntEntries(data, "rice", N);
  }

  /** N = [10, 20, 30] of one crop, with a row of another crop between them. */
  lemma RangeAndMeanOfThreeRows(data: seq<Sample>)
    requires data == [Row(10, "maize"), Row(99, "rice"), Row(20, "maize"), Row(30, "maize")]
    ensures var r := GetCropInsights(data, "maize");
      r.Some? && r.value.optimalConditions.nRange == IntRange(10, 30) && r.value.avgConditions.n == 20
  {
    var rows := data[..1] + data[2..];
    assert GetCropInsights(data, "maize") == GetCropInsights(rows, "maize") by {
      assert "rice" != "maize" by {
        assert "rice"[0] != "maize"[0];
      }
      assert data == data[..1] + [data[1]] + data[2..];
      OtherCropsIgnored(data[..1], [data[1]], data[2..], "maize");
    }
    ThreeRowsOfOneCrop(rows);
  }

  lemma ThreeRowsOfOneCrop(rows: seq<Sample>)
    requires rows == [Row(10, "maize"), Row(20, "maize"), Row(30, "maize")]
    ensures var r := GetCropInsights(rows, "maize");
      r.Some? && r.value.optimalConditions.nRange == IntRange(10, 30) && r.value.avgConditions.n == 20
  {
    assert FilterByLabel(rows[2..], "maize") == rows[2..] by {
      assert rows[2..][1..] == [];
    }
    assert FilterByLabel(rows[1..], "maize") == rows[1..] by {
      assert rows[1..][1..] == rows[2..];
    }
    assert FilterByLabel(rows, "maize") == rows;
    NStatsOfThreeRows(rows);
    IntEntries(rows, "maize", N);
  }

  /** Labels are compared exactly: "Rice" does not find the rows labelled "rice". */
  lemma LabelMatchIsCaseSensitive()
    ensures GetCropInsights([Row(10, "rice"), Row(11, "rice")], "Rice") == None
  {
    var data := [Row(10, "rice"), Row(11, "rice")];
    assert "rice"[0] != "Rice"[0];
    assert !HasLabel(data, "Rice");
  }

  lemma NStatsOfThreeRows(rows: seq<Sample>)
    requires rows == [Row(10, "maize"), Row(20, "maize"), Row(30, "maize")]
    ensures IntStats.TruncatedMean(IntColumnOf(rows, N)) == 20
    ensures IntRangeOfRows(rows, N) == IntRange(10, 30)
  {
    var col := IntColumnOf(rows, N);
    assert col == [10, 20, 30];
    assert IntStats.Sum([30]) == 30 by {
      assert [30][1..] == [];
    }
    assert IntStats.Sum([20, 30]) == 50 by {
      assert [20, 30][1..] == [30];
    }
    assert IntStats.Sum(col) == 60 by {
      assert col[1..] == [20, 30];
    }
    assert IntStats.Min([20, 30]) == 20 && IntStats.Max([20, 30]) == 30 by {
      assert [20, 30][1..] == [30];
    }
    assert col[1..] == [20, 30];
    IntStats.SumAsReals(col);
    assert IntStats.Mean(col) == 60.0 / 3.0;
    assert IntStats.Truncate(20.0) == 20;
    assert IntStats.Min(col) == 10 && IntStats.Max(col) == 30;
  }
}
