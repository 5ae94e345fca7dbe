/** A worked season: two teams' points over weeks 1 to 5 with a window of five. */
module Scenario {
  import opened Stats
  import opened Rolling
  import opened Matchup

  function PointsRow(week: int, points: real): WeekRow
  {
    WeekRow(week, TeamStats(points, 0.0, 0.0, 0.0, 0.0, 0.0, 0.0))
  }

  /** A five-term sum, unfolded. */
  lemma SumOfFive(a: real, b: real, c: real, d: real, e: real)
    ensures Sum([a, b, c, d, e]) == a + b + c + d + e
  {
    assert [a][..0] == [];
    assert Sum([a]) == a;
    assert [a, b][..1] == [a];
    assert Sum([a, b]) == a + b;
    assert [a, b, c][..2] == [a, b];
    assert Sum([a, b, c]) == a + b + c;
    assert [a, b, c, d][..3] == [a, b, c];
    assert Sum([a, b, c, d]) == a + b + c + d;
    assert [a, b, c, d, e][..4] == [a, b, c, d];
  }

  /** Team A scores 20, 24, 17, 28, 31 and team B 14, 10, 21, 17, 20: A leads by 7.6 points a game. */
  lemma FiveWeekPointsDifference()
    ensures var a := Smooth([PointsRow(1, 20.0), PointsRow(2, 24.0), PointsRow(3, 17.0), PointsRow(4, 28.0), PointsRow(5, 31.0)], DefaultWindow);
      var b := Smooth([PointsRow(1, 14.0), PointsRow(2, 10.0), PointsRow(3, 21.0), PointsRow(4, 17.0), PointsRow(5, 20.0)], DefaultWindow);
      && Last(a).rolling.points == 24.0
      && Last(b).rolling.points == 16.4
      && CreateMatchupFeatures(a, b).ptsDiff == 7.6
  {
    var ra := [PointsRow(1, 20.0), PointsRow(2, 24.0), PointsRow(3, 17.0), PointsRow(4, 28.0), PointsRow(5, 31.0)];
    var rb := [PointsRow(1, 14.0), PointsRow(2, 10.0), PointsRow(3, 21.0), PointsRow(4, 17.0), PointsRow(5, 20.0)];
    assert WindowStart(4, DefaultWindow) == 0;
    assert ColumnOf(ra, Points)[0..5] == [20.0, 24.0, 17.0, 28.0, 31.0];
    assert ColumnOf(rb, Points)[0..5] == [14.0, 10.0, 21.0, 17.0, 20.0];
    SumOfFive(20.0, 24.0, 17.0, 28.0, 31.0);
    SumOfFive(14.0, 10.0, 21.0, 17.0, 20.0);
    assert RollingMean(ra, Points, 4, DefaultWindow) == 24.0;
    assert RollingMean(rb, Points, 4, DefaultWindow) == 16.4;
  }
}
