/**
 * `get_seasonal_recommendations` (app.py): a fixed list of four crops per
 * season, chosen from the month number.
 */
module Seasonal {

  const WinterCrops: seq<string> := ["wheat", "barley", "oats", "peas"]
  const SpringCrops: seq<string> := ["rice", "corn", "cotton", "sugarcane"]
  const SummerCrops: seq<string> := ["rice", "cotton", "sugarcane", "maize"]
  const FallCrops: seq<string> := ["maize", "groundnut", "mustard", "gram"]

  /**
   * The month test of the source, an if/elif chain on membership in three
   * month lists with every other integer (9, 10, 11, but also 0, 13 or -1)
   * falling through to the last list.
   */
  function SeasonalRecommendations(month: int): (crops: seq<string>)
    ensures |crops| == 4
    ensures crops in {WinterCrops, SpringCrops, SummerCrops, FallCrops}
  {
    if month in [12, 1, 2] then WinterCrops
    else if month in [3, 4, 5] then SpringCrops
    else if month in [6, 7, 8] then SummerCrops
    else FallCrops
  }

  datatype Season = Winter | Spring | Summer | Fall

  /**
   * The meteorological season of a calendar month, computed arithmetically:
   * December, January and February are 0, 1 and 2 modulo 12 and each season
   * covers three consecutive months after that.
   */
  function SeasonOfMonth(month: int): Season
    requires 1 <= month <= 12
  {
    match (month % 12) / 3
    case 0 => Winter
    case 1 => Spring
    case 2 => Summer
    case _ => Fall
  }

  function CropsOf(s: Season): seq<string> {
    match s
    case Winter => WinterCrops
    case Spring => SpringCrops
    case Summer => SummerCrops
    case Fall => FallCrops
  }

  /** For every calendar month the lookup gives the crops of that month's season. */
  lemma RecommendationsFollowSeasons(month: int)
    requires 1 <= month <= 12
    ensures SeasonalRecommendations(month) == CropsOf(SeasonOfMonth(month))
  {
  }

  /** Any integer that is not a calendar month gets the September-November list, without error. */
  lemma OutOfRangeMonthFallsThrough(month: int)
    requires month < 1 || month > 12
    ensures SeasonalRecommendations(month) == FallCrops
  {
  }

  /** Each season is recommended for exactly three calendar months. */
  lemma ThreeMonthsPerSeason(s: Season)
    ensures |set m | 1 <= m <= 12 && SeasonOfMonth(m) == s| == 3
  {
    match s
    case Winter =>
      assert (set m | 1 <= m <= 12 && SeasonOfMonth(m) == s) == {12, 1, 2};
    case Spring =>
      assert (set m | 1 <= m <= 12 && SeasonOfMonth(m) == s) == {3, 4, 5};
    case Summer =>
      assert (set m | 1 <= m <= 12 && SeasonOfMonth(m) == s) == {6, 7, 8};
    case Fall =>
      assert (set m | 1 <= m <= 12 && SeasonOfMonth(m) == s) == {9, 10, 11};
  }
}
