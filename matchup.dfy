/**
 * The matchup differential builder: one feature row from the most recent
 * smoothed row of each of two teams.
 */
module Matchup {
  import opened Stats

  /** Weight applied to the defensive and negative-indicator differences. */
  const DefensiveWeight: real := 2.0

  /** The twelve named features of one matchup, team1 against team2. */
  datatype MatchupRow = MatchupRow(
    ptsDiff: real,
    epaDiff: real,
    successDiff: real,
    turnoverDiff: real,
    t1Epa: real,
    t2Epa: real,
    t1Success: real,
    t2Success: real,
    defEpaDiff: real,
    ptsAllowedDiff: real,
    sacksDiff: real,
    netPtsDiff: real)

  function Last<T>(s: seq<T>): T
    requires |s| > 0
  {
    s[|s| - 1]
  }

  /**
   * `create_matchup_features`: the features of the last (most recent) row of
   * each team's smoothed series. Both series must be non-empty.
   */
  function CreateMatchupFeatures(team1: seq<SmoothedRow>, team2: seq<SmoothedRow>): (f: MatchupRow)
    requires |team1| > 0 && |team2| > 0
    ensures f.t1Epa == Last(team1).rolling.epa && f.t2Epa == Last(team2).rolling.epa
    ensures f.t1Success == Last(team1).rolling.success && f.t2Success == Last(team2).rolling.success
    ensures f.epaDiff == f.t1Epa - f.t2Epa
    ensures f.successDiff == f.t1Success - f.t2Success
    ensures f.netPtsDiff == f.ptsDiff - f.ptsAllowedDiff / DefensiveWeight
  {
    var t1 := Last(team1).rolling;
    var t2 := Last(team2).rolling;
    MatchupRow(
      t1.points - t2.points,
      t1.epa - t2.epa,
      t1.success - t2.success,
      t1.turnovers - t2.turnovers,
      t1.epa,
      t2.epa,
      t1.success,
      t2.success,
      (t1.defEpa - t2.defEpa) * DefensiveWeight,
      (t1.ptsAllowed - t2.ptsAllowed) * DefensiveWeight,
      (t1.sacks - t2.sacks) * DefensiveWeight,
      (t1.points - t1.ptsAllowed) - (t2.points - t2.ptsAllowed))
  }

  /** The row seen from the other side: every difference negated, every t1/t2 pair swapped. */
  function SwapSides(f: MatchupRow): MatchupRow
  {
    MatchupRow(
      -f.ptsDiff, -f.epaDiff, -f.successDiff, -f.turnoverDiff,
      f.t2Epa, f.t1Epa, f.t2Success, f.t1Success,
      -f.defEpaDiff, -f.ptsAllowedDiff, -f.sacksDiff,
      -f.netPtsDiff)
  }

  /**
   * Swapping team1 and team2 swaps the sides of the feature row, and seeing
   * the swapped row from the other side gives the original row back.
   */
  lemma SwapTeamsSwapsSides(team1: seq<SmoothedRow>, team2: seq<SmoothedRow>)
    requires |team1| > 0 && |team2| > 0
    ensures CreateMatchupFeatures(team2, team1) == SwapSides(CreateMatchupFeatures(team1, team2))
    ensures SwapSides(CreateMatchupFeatures(team2, team1)) == CreateMatchupFeatures(team1, team2)
  {
  }

  /** Only the last row of each series is read: earlier rows never change the features. */
  lemma OnlyLastRowsMatter(team1: seq<SmoothedRow>, team2: seq<SmoothedRow>, other1: seq<SmoothedRow>, other2: seq<SmoothedRow>)
    requires |team1| > 0 && |team2| > 0 && |other1| > 0 && |other2| > 0
    requires Last(team1).rolling == Last(other1).rolling && Last(team2).rolling == Last(other2).rolling
    ensures CreateMatchupFeatures(team1, team2) == CreateMatchupFeatures(other1, other2)
  {
  }

  /**
   * The absolute fields are the last rows' smoothed values, each weighted
   * difference is exactly DefensiveWeight times the plain difference of the
   * smoothed column, and every difference is team1 minus team2.
   */
  lemma DifferencesOfColumns(team1: seq<SmoothedRow>, team2: seq<SmoothedRow>)
    requires |team1| > 0 && |team2| > 0
    ensures var f := CreateMatchupFeatures(team1, team2);
      var d := (c: Column) => Get(Last(team1).rolling, c) - Get(Last(team2).rolling, c);
      && f.t1Epa == Get(Last(team1).rolling, Epa) && f.t2Epa == Get(Last(team2).rolling, Epa)
      && f.t1Success == Get(Last(team1).rolling, Success) && f.t2Success == Get(Last(team2).rolling, Success)
      && f.ptsDiff == d(Points) && f.epaDiff == d(Epa)
      && f.successDiff == d(Success) && f.turnoverDiff == d(Turnovers)
      && f.defEpaDiff == DefensiveWeight * d(DefEpa)
      && f.ptsAllowedDiff == DefensiveWeight * d(PtsAllowed)
      && f.sacksDiff == DefensiveWeight * d(Sacks)
      && f.netPtsDiff == d(Points) - d(PtsAllowed)
  {
  }

  /** Two teams in identical form: every difference is zero and each t1/t2 pair agrees. */
  lemma EvenMatchupIsNeutral(team1: seq<SmoothedRow>, team2: seq<SmoothedRow>)
    requires |team1| > 0 && |team2| > 0
    requires Last(team1).rolling == Last(team2).rolling
    ensures var f := CreateMatchupFeatures(team1, team2);
      && f == SwapSides(f)
      && f.ptsDiff == f.epaDiff == f.successDiff == f.turnoverDiff == 0.0
      && f.defEpaDiff == f.ptsAllowedDiff == f.sacksDiff == f.netPtsDiff == 0.0
  {
  }
}
