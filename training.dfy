/**
 * The training set assembler: one labelled matchup row per regular-season
 * game for which both teams have at least three smoothed weeks strictly
 * before the game, home team as team1, in schedule order.
 */
module Training {
  import opened Stats
  import opened Rolling
  import opened Matchup

  /** The game type that marks a regular-season game. */
  const RegularSeasonType: string := "REG"

  /** A game is skipped when either team has fewer prior weeks than this. */
  const MinHistory: nat := 3

  /** One row of the schedule. */
  datatype Game = Game(
    week: int,
    homeTeam: string,
    awayTeam: string,
    homeScore: int,
    awayScore: int,
    gameType: string)

  /** A matchup row with its two supervised labels. */
  datatype TrainingRow = TrainingRow(features: MatchupRow, homeWin: int, pointDiff: int)

  datatype Option<T> = None | Some(value: T)

  /** Concatenating an empty list of frames fails; this is the only failure modelled. */
  datatype TrainingError = NoObjectsToConcatenate

  datatype Result<T> = Ok(value: T) | Err(error: TrainingError)

  /** Team identifier to that team's smoothed season. */
  type Histories = map<string, seq<SmoothedRow>>

  /** `home_win`: 1 exactly when the home side outscored the away side; a tie is 0. */
  function HomeWinLabel(g: Game): (y: int)
    ensures y == 0 || y == 1
    ensures y == 1 <==> g.homeScore > g.awayScore
  {
    if g.homeScore > g.awayScore then 1 else 0
  }

  /** `point_diff`: the home margin; the home side won exactly when it is positive. */
  function PointDiffLabel(g: Game): (d: int)
    ensures d > 0 <==> HomeWinLabel(g) == 1
    ensures g.homeScore == g.awayScore + d
  {
    g.homeScore - g.awayScore
  }

  /** `schedules[schedules['game_type'] == 'REG']`, in schedule order. */
  function RegularSeason(games: seq<Game>): (r: seq<Game>)
    ensures |r| <= |games|
    ensures forall g | g in r :: g in games && g.gameType == RegularSeasonType
    ensures forall k | 0 <= k < |games| && games[k].gameType == RegularSeasonType :: games[k] in r
  {
    if games == [] then []
    else
      var init := RegularSeason(games[..|games| - 1]);
      var g := games[|games| - 1];
      assert forall h | h in games[..|games| - 1] :: h in games;
      if g.gameType == RegularSeasonType then init + [g] else init
  }

  /**
   * The mask keeps order and multiplicity: filtering a concatenation is the
   * concatenation of the filtered parts, and one game is kept exactly when it
   * is a regular-season game.
   */
  lemma {:induction false} RegularSeasonAppend(a: seq<Game>, b: seq<Game>)
    ensures RegularSeason(a + b) == RegularSeason(a) + RegularSeason(b)
  {
    if b == [] {
      assert a + b == a;
    } else {
      var init, g := b[..|b| - 1], b[|b| - 1];
      RegularSeasonAppend(a, init);
      ConcatInit(a, b);
      var last := if g.gameType == RegularSeasonType then [g] else [];
      assert RegularSeason(a + b) == RegularSeason(a + init) + last;
      ConcatAssoc(RegularSeason(a), RegularSeason(init), last);
    }
  }

  /** One game is kept exactly when it is a regular-season game. */
  lemma RegularSeasonOne(g: Game)
    ensures RegularSeason([g]) == (if g.gameType == RegularSeasonType then [g] else [])
  {
    assert [g][..0] == [];
  }

  /** Every team of every regular-season game has a history (a missing key raises). */
  predicate TeamsKnown(hist: Histories, schedule: seq<Game>)
    ensures TeamsKnown(hist, schedule) <==> AllTeamsKnown(hist, RegularSeason(schedule))
  {
    forall g | g in schedule && g.gameType == RegularSeasonType ::
      g.homeTeam in hist && g.awayTeam in hist
  }

  /**
   * The body of one loop iteration, given the two histories already cut to
   * the weeks before the game: None when either is shorter than MinHistory.
   */
  function RowFromHistories(home: seq<SmoothedRow>, away: seq<SmoothedRow>, g: Game): (r: Option<TrainingRow>)
    ensures r.Some? <==> |home| >= MinHistory && |away| >= MinHistory
    ensures r.Some? ==> && r.value.features == CreateMatchupFeatures(home, away)
                        && r.value.homeWin == HomeWinLabel(g) && r.value.pointDiff == PointDiffLabel(g)
  {
    if |home| < MinHistory || |away| < MinHistory then None
    else Some(TrainingRow(CreateMatchupFeatures(home, away), HomeWinLabel(g), PointDiffLabel(g)))
  }

  /** What the assembler does with one game: cut both histories at the game's week, then build. */
  function GameRow(hist: Histories, g: Game): (r: Option<TrainingRow>)
    requires g.homeTeam in hist && g.awayTeam in hist
    ensures r.Some? <==>
      |Before(hist[g.homeTeam], SmoothedWeek, g.week)| >= MinHistory
      && |Before(hist[g.awayTeam], SmoothedWeek, g.week)| >= MinHistory
  {
    RowFromHistories(Before(hist[g.homeTeam], SmoothedWeek, g.week), Before(hist[g.awayTeam], SmoothedWeek, g.week), g)
  }

  /** Every game of the list, not only the regular-season ones, has both teams in hist. */
  predicate AllTeamsKnown(hist: Histories, games: seq<Game>)
  {
    forall g | g in games :: g.homeTeam in hist && g.awayTeam in hist
  }

  /** The rows the loop has appended after visiting `games`, in visiting order. */
  function TrainingRows(hist: Histories, games: seq<Game>): (rows: seq<TrainingRow>)
    requires AllTeamsKnown(hist, games)
    ensures |rows| <= |games|
    ensures forall k | 0 <= k < |rows| :: rows[k].homeWin == 0 || rows[k].homeWin == 1
  {
    if games == [] then []
    else
      var g := games[|games| - 1];
      assert forall h | h in games[..|games| - 1] :: h in games;
      var row := GameRow(hist, g);
      TrainingRows(hist, games[..|games| - 1]) + (if row.Some? then [row.value] else [])
  }

  /** A game yields a training row: regular season, both teams known, enough history on both sides. */
  predicate Qualifies(hist: Histories, g: Game)
    ensures Qualifies(hist, g) <==>
      g.gameType == RegularSeasonType && g.homeTeam in hist && g.awayTeam in hist && GameRow(hist, g).Some?
  {
    && g.gameType == RegularSeasonType
    && g.homeTeam in hist && g.awayTeam in hist
    && |Before(hist[g.homeTeam], SmoothedWeek, g.week)| >= MinHistory
    && |Before(hist[g.awayTeam], SmoothedWeek, g.week)| >= MinHistory
  }

  /** The qualifying games of the schedule, in schedule order. */
  function QualifyingGames(hist: Histories, schedule: seq<Game>): (q: seq<Game>)
    ensures |q| <= |schedule|
    ensures forall k | 0 <= k < |q| :: q[k] in schedule && Qualifies(hist, q[k])
    ensures forall k | 0 <= k < |schedule| && Qualifies(hist, schedule[k]) :: schedule[k] in q
  {
    if schedule == [] then []
    else
      var g := schedule[|schedule| - 1];
      QualifyingGames(hist, schedule[..|schedule| - 1]) + (if Qualifies(hist, g) then [g] else [])
  }

  /**
   * The qualifying games keep schedule order and multiplicity: listing a
   * concatenation lists each part in turn, and one game is listed exactly
   * when it qualifies.
   */
  lemma {:induction false} QualifyingGamesAppend(hist: Histories, a: seq<Game>, b: seq<Game>)
    ensures QualifyingGames(hist, a + b) == QualifyingGames(hist, a) + QualifyingGames(hist, b)
  {
    if b == [] {
      assert a + b == a;
    } else {
      var init, g := b[..|b| - 1], b[|b| - 1];
      QualifyingGamesAppend(hist, a, init);
      ConcatInit(a, b);
      var last := if Qualifies(hist, g) then [g] else [];
      assert QualifyingGames(hist, a + b) == QualifyingGames(hist, a + init) + last;
      ConcatAssoc(QualifyingGames(hist, a), QualifyingGames(hist, init), last);
    }
  }

  /** One game is listed exactly when it qualifies. */
  lemma QualifyingGamesOne(hist: Histories, g: Game)
    ensures QualifyingGames(hist, [g]) == (if Qualifies(hist, g) then [g] else [])
  {
    assert [g][..0] == [];
  }

  /** The labelled row of a qualifying game, stated field by field. */
  function LabelledRow(hist: Histories, g: Game): (r: TrainingRow)
    requires Qualifies(hist, g)
  {
    TrainingRow(
      CreateMatchupFeatures(Before(hist[g.homeTeam], SmoothedWeek, g.week), Before(hist[g.awayTeam], SmoothedWeek, g.week)),
      HomeWinLabel(g),
      PointDiffLabel(g))
  }

  /** The labelled rows of a list of qualifying games, one per game, in order. */
  function LabelledRows(hist: Histories, q: seq<Game>): (rows: seq<TrainingRow>)
    requires forall k | 0 <= k < |q| :: Qualifies(hist, q[k])
    ensures |rows| == |q|
    ensures forall k | 0 <= k < |q| :: rows[k] == LabelledRow(hist, q[k])
  {
    if q == [] then [] else LabelledRows(hist, q[..|q| - 1]) + [LabelledRow(hist, q[|q| - 1])]
  }

  /** Visiting one more game appends that game's row, if it has one. */
  lemma TrainingRowsAppend(hist: Histories, reg: seq<Game>, g: Game)
    requires AllTeamsKnown(hist, reg + [g])
    ensures AllTeamsKnown(hist, reg) && g.homeTeam in hist && g.awayTeam in hist
    ensures var row := GameRow(hist, g);
      TrainingRows(hist, reg + [g]) == TrainingRows(hist, reg) + (if row.Some? then [row.value] else [])
  {
    assert (reg + [g])[..|reg|] == reg;
    assert (reg + [g])[|reg|] == g;
  }

  /** The loop body emits the labelled row of a qualifying game. */
  lemma QualifyingGameRow(hist: Histories, g: Game)
    requires Qualifies(hist, g)
    ensures GameRow(hist, g) == Some(LabelledRow(hist, g))
  {
  }

  /** Labelling one more qualifying game appends its row. */
  lemma LabelledRowsAppend(hist: Histories, q: seq<Game>, g: Game)
    requires forall k | 0 <= k < |q| :: Qualifies(hist, q[k])
    requires Qualifies(hist, g)
    ensures LabelledRows(hist, q + [g]) == LabelledRows(hist, q) + [LabelledRow(hist, g)]
  {
    assert (q + [g])[..|q|] == q;
  }

  /** Visiting a qualifying game appends its labelled row. */
  lemma AppendQualifying(hist: Histories, reg: seq<Game>, q: seq<Game>, g: Game)
    requires AllTeamsKnown(hist, reg + [g]) && Qualifies(hist, g)
    requires forall k | 0 <= k < |q| :: Qualifies(hist, q[k])
    requires AllTeamsKnown(hist, reg) && TrainingRows(hist, reg) == LabelledRows(hist, q)
    ensures TrainingRows(hist, reg + [g]) == LabelledRows(hist, q + [g])
  {
    TrainingRowsAppend(hist, reg, g);
    QualifyingGameRow(hist, g);
    LabelledRowsAppend(hist, q, g);
  }

  /** Visiting a regular-season game without enough history appends nothing. */
  lemma AppendSkipped(hist: Histories, reg: seq<Game>, g: Game)
    requires AllTeamsKnown(hist, reg + [g]) && g.gameType == RegularSeasonType && !Qualifies(hist, g)
    ensures AllTeamsKnown(hist, reg)
    ensures TrainingRows(hist, reg + [g]) == TrainingRows(hist, reg)
  {
    TrainingRowsAppend(hist, reg, g);
  }

  /**
   * The assembled rows are exactly one labelled row per qualifying game, in
   * schedule order: non-regular-season games and games with too little
   * history on either side contribute nothing.
   */
  lemma {:induction false} TrainingRowsFollowQualifyingGames(hist: Histories, schedule: seq<Game>)
    requires TeamsKnown(hist, schedule)
    ensures AllTeamsKnown(hist, RegularSeason(schedule))
    ensures TrainingRows(hist, RegularSeason(schedule)) == LabelledRows(hist, QualifyingGames(hist, schedule))
  {
    if schedule != [] {
      var init := schedule[..|schedule| - 1];
      var g := schedule[|schedule| - 1];
      assert forall h | h in init :: h in schedule;
      TrainingRowsFollowQualifyingGames(hist, init);
      var reg := RegularSeason(init);
      var q := QualifyingGames(hist, init);
      if g.gameType != RegularSeasonType {
        assert RegularSeason(schedule) == reg;
        assert QualifyingGames(hist, schedule) == q;
      } else if Qualifies(hist, g) {
        assert RegularSeason(schedule) == reg + [g];
        assert QualifyingGames(hist, schedule) == q + [g];
        AppendQualifying(hist, reg, q, g);
      } else {
        assert RegularSeason(schedule) == reg + [g];
        assert QualifyingGames(hist, schedule) == q;
        AppendSkipped(hist, reg, g);
      }
    }
  }

  /** One more game visited: the rows so far, then the row of that game if it has one. */
  lemma PrefixStep(hist: Histories, games: seq<Game>, i: nat)
    requires i < |games| && AllTeamsKnown(hist, games)
    ensures AllTeamsKnown(hist, games[..i]) && AllTeamsKnown(hist, games[..i + 1])
    ensures games[i].homeTeam in hist && games[i].awayTeam in hist
    ensures var row := GameRow(hist, games[i]);
      TrainingRows(hist, games[..i + 1]) == TrainingRows(hist, games[..i]) + (if row.Some? then [row.value] else [])
  {
    assert forall h | h in games[..i + 1] :: h in games;
    assert forall h | h in games[..i] :: h in games;
    assert games[..i + 1][..i] == games[..i];
  }

  /**
   * `prepare_training_data`: keeps the regular-season games, and for each one
   * whose teams both have at least MinHistory smoothed weeks before it, appends
   * the matchup row of those histories (home as team1) with its labels. An
   * empty collection fails, as concatenating no frames does.
   */
  method PrepareTrainingData(allTeamStats: Histories, schedules: seq<Game>) returns (r: Result<seq<TrainingRow>>)
    requires TeamsKnown(allTeamStats, schedules)
    ensures r.Err? <==> QualifyingGames(allTeamStats, schedules) == []
    ensures r.Ok? ==> r.value == LabelledRows(allTeamStats, QualifyingGames(allTeamStats, schedules))
  {
    var trainingData: seq<TrainingRow> := [];
    var completed := RegularSeason(schedules);
    TrainingRowsFollowQualifyingGames(allTeamStats, schedules);
    var i := 0;
    while i < |completed|
      invariant 0 <= i <= |completed|
      invariant trainingData == TrainingRows(allTeamStats, completed[..i])
    {
      var game := completed[i];
      PrefixStep(allTeamStats, completed, i);
      var homeStats := Before(allTeamStats[game.homeTeam], SmoothedWeek, game.week);
      var awayStats := Before(allTeamStats[game.awayTeam], SmoothedWeek, game.week);
      if |homeStats| < MinHistory || |awayStats| < MinHistory {
        i := i + 1;
        continue;
      }
      var features := CreateMatchupFeatures(homeStats, awayStats);
      trainingData := trainingData + [TrainingRow(features, HomeWinLabel(game), PointDiffLabel(game))];
      i := i + 1;
    }
    assert completed[..i] == completed;
    if trainingData == [] {
      r := Err(NoObjectsToConcatenate);
    } else {
      r := Ok(trainingData);
    }
  }

  /**
   * No look-ahead: when every history is the smoother's output, the row of a
   * game is the one obtained by smoothing only the raw weeks strictly before
   * the game, so nothing from the game's own week or later reaches it.
   */
  lemma NoLookahead(hist: Histories, g: Game, window: int)
    requires window >= 1
    requires g.homeTeam in hist && g.awayTeam in hist
    requires IsSmoothedSeries(hist[g.homeTeam], window) && IsSmoothedSeries(hist[g.awayTeam], window)
    ensures GameRow(hist, g) == RowFromHistories(
      Smooth(Before(Unsmoothed(hist[g.homeTeam]), RowWeek, g.week), window),
      Smooth(Before(Unsmoothed(hist[g.awayTeam]), RowWeek, g.week), window),
      g)
  {
    SmoothingCommutesWithWeekFilter(Unsmoothed(hist[g.homeTeam]), g.week, window);
    SmoothingCommutesWithWeekFilter(Unsmoothed(hist[g.awayTeam]), g.week, window);
  }

  /**
   * Two seasons that agree on both teams' raw weeks before the game give the
   * game the same training row, whatever happened in that week or later.
   */
  lemma FutureWeeksDoNotMatter(hist: Histories, other: Histories, g: Game, window: int)
    requires window >= 1
    requires g.homeTeam in hist && g.awayTeam in hist && g.homeTeam in other && g.awayTeam in other
    requires IsSmoothedSeries(hist[g.homeTeam], window) && IsSmoothedSeries(hist[g.awayTeam], window)
    requires IsSmoothedSeries(other[g.homeTeam], window) && IsSmoothedSeries(other[g.awayTeam], window)
    requires Before(Unsmoothed(hist[g.homeTeam]), RowWeek, g.week) == Before(Unsmoothed(other[g.homeTeam]), RowWeek, g.week)
    requires Before(Unsmoothed(hist[g.awayTeam]), RowWeek, g.week) == Before(Unsmoothed(other[g.awayTeam]), RowWeek, g.week)
    ensures GameRow(hist, g) == GameRow(other, g)
  {
    NoLookahead(hist, g, window);
    NoLookahead(other, g, window);
  }
}
