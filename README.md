# Feature engineering for a two-team matchup, in Dafny

This project models the `FeatureEngineer` of the Super Bowl prediction
pipeline. The engineer turns per-team weekly statistics into model inputs in
three forward-only stages:

1. **Rolling smoother** (`create_rolling_features`). It sorts one team's
   weekly rows by week. For each of the seven tracked columns (points, EPA,
   success rate, defensive EPA, points allowed, turnovers, sacks) it adds the
   trailing mean over positions `max(0, i - W + 1) .. i`. Because of
   `min_periods=1`, the window shrinks at the start of the season.
2. **Matchup differential builder** (`create_matchup_features`). It reads the
   last smoothed row of each team and emits one row of twelve named features:
   - plain differences;
   - absolute team1 and team2 values;
   - three differences weighted by 2.0;
   - a margin-of-margins.
3. **Training set assembler** (`prepare_training_data`). It keeps the
   regular-season (`REG`) games. For each game, it cuts both teams' smoothed
   seasons to the weeks strictly before the game. It skips the game when
   either side has fewer than three such weeks. Otherwise it builds the
   matchup row, home team first, and attaches the `home_win` and
   `point_diff` labels. Rows come out in schedule order. When no game
   qualifies, concatenating the empty list fails.

Files and modules:

- `stats.dfy` (`Stats`): the row records, `Sum` and `Mean` over reals, sortedness
  by week, and `Before`, the week filter `frame[frame['week'] < w]`.
- `rolling.dfy` (`Rolling`): the smoother, as a method with loops proved
  against the specification function `Smooth`, and the no-look-ahead lemmas.
- `matchup.dfy` (`Matchup`): the builder, as a pure function with lemmas.
- `training.dfy` (`Training`): the assembler, as a method whose loop appends
  rows and skips games, proved against `QualifyingGames` and `LabelledRows`.
- `scenario.dfy` (`Scenario`): a worked two-team season with window 5.

Values are Dafny `real`. Means are exact sums divided by counts.

The central property is that no feature looks ahead. The assembler does not
re-smooth for each game. It filters the rows that were smoothed over the
whole season (`src/main.py:43-48`). `SmoothingCommutesWithWeekFilter` proves
that this is sound for week-sorted rows: smoothing the weeks before `w` gives
the rows before `w` of the full smoothing. `Training.NoLookahead` then shows
that each training row equals the row built from smoothing only the raw weeks
strictly before the game. `Training.FutureWeeksDoNotMatter` shows that two
seasons agreeing on those weeks give the same row.

Behaviour of the code that the model keeps as it is:

- **Empty training set.** `prepare_training_data` ends with `pd.concat` on
  the list it collected. When no game qualifies that list is empty and
  `pd.concat` raises `ValueError`. The model returns
  `Err(NoObjectsToConcatenate)` in exactly that case.
- **No re-smoothing per game.** The assembler cuts the full-season smoothing
  at the game's week instead of smoothing the earlier weeks again.
  `Training.NoLookahead` proves the two give the same row.
- **Unchecked errors.** The code validates neither the window nor its
  inputs. pandas rejects a non-positive window, `iloc[-1]` on an empty
  frame raises `IndexError`, and a team missing from the histories raises
  `KeyError`. These three cases are preconditions: `window >= 1`, non-empty
  series for `CreateMatchupFeatures`, and `TeamsKnown` for the assembler.
- **Sort stability.** `sort_values` uses its default algorithm, quicksort,
  which is not stable. The smoother's contract therefore promises only week
  order and a permutation of the input.

## Model

| member | source | states |
|---|---|---|
| `Rolling.CreateRollingFeatures` | src/features/engineer.py:10-27 | the result has the input's length, is sorted by week, is a permutation of the input's raw rows, and every row carries the rolling means `Smooth` gives at its position |
| `Rolling.SortByWeek` | src/features/engineer.py:14 | the rows come back in non-decreasing week order and as a permutation (same multiset) of the input |
| `Rolling.InsertByWeek` | src/features/engineer.py:14 | inserting into a week-sorted sequence keeps it sorted and adds exactly one occurrence of the row |
| `Rolling.RollingMeanWindow` | src/features/engineer.py:22-24 | while fewer than W rows exist up to position i, the value is the mean of all of them; from then on it is the mean of the last W rows ending at i |
| `Rolling.WindowStart` | src/features/engineer.py:23 | the window ending at position i starts at or before i and holds min(i + 1, W) rows (min_periods=1 shrinks it at the start) |
| `Rolling.RollingAt` | src/features/engineer.py:20-25 | each of the seven columns gets the rolling mean of that same column at that position |
| `Rolling.Smooth` | src/features/engineer.py:20-25 | smoothing keeps the number of rows and leaves every week and raw column unchanged |
| `Rolling.RollingMeanPrefix` | src/features/engineer.py:23 | a rolling mean at position i is unchanged when every row after i is dropped |
| `Rolling.SmoothPrefix` | src/features/engineer.py:23 | smoothing the first k rows gives the first k rows of the full smoothing |
| `Rolling.SmoothingCommutesWithWeekFilter` | src/features/engineer.py:20-25 | on week-sorted rows, smoothing the rows before week w equals taking the rows before week w of the full smoothing |
| `Rolling.FirstWeekIsItsOwnMean` | src/features/engineer.py:23-24 | with `min_periods=1` the first week's rolling mean of any column is defined and equals that week's own value |
| `Rolling.ShortSeriesAveragesEverything` | src/features/engineer.py:23-24 | on a series no longer than the window, the last smoothed value of any column is the mean of the whole column |
| `Rolling.RollingSuccessIsRate` | src/features/engineer.py:20-25 | a success rate within [0, 1] every week stays within [0, 1] after smoothing |
| `Stats.MeanBounds` | src/features/engineer.py:24 | a mean lies between any lower and upper bound of the values averaged |
| `Stats.SumBounds` | src/features/engineer.py:24 | n values within [lo, hi] sum to between n * lo and n * hi |
| `Stats.Before` | src/features/engineer.py:70-75 | the week filter keeps only rows with week strictly below the game's week, and never more rows than it was given |
| `Stats.BeforeKeepsEarlierRows` | src/features/engineer.py:70-75 | every kept row is one of the input's rows, and every input row with week strictly below the game's week is kept |
| `Stats.BeforeAppend` | src/features/engineer.py:70-75 | the week filter keeps order and multiplicity on any input: filtering a concatenation filters each part in turn |
| `Stats.BeforeOne` | src/features/engineer.py:70-75 | a single row is kept exactly when its week is below the game's week |
| `Stats.BeforeOfSortedIsPrefix` | src/features/engineer.py:70-72 | on week-sorted rows, the rows before a week form a prefix of the season, and the first row after that prefix is of that week or later |
| `Stats.BeforeLengthByWeeks` | src/features/engineer.py:70-75 | how many rows the week filter keeps depends only on the rows' weeks, so it keeps as many smoothed rows as raw rows |
| `Matchup.CreateMatchupFeatures` | src/features/engineer.py:29-54 | `t1_epa`, `t2_epa`, `t1_success` and `t2_success` are the last rows' smoothed EPA and success rate; `epa_diff` = `t1_epa` - `t2_epa`, `success_diff` = `t1_success` - `t2_success`, and `net_pts_diff` = `pts_diff` - `pts_allowed_diff` / 2.0 |
| `Matchup.OnlyLastRowsMatter` | src/features/engineer.py:33-34 | the features depend on nothing but the smoothed values of the last row of each series |
| `Matchup.DifferencesOfColumns` | src/features/engineer.py:39-51 | the four absolute fields are the last rows' smoothed values; every difference is team1 minus team2 of a smoothed column; defensive EPA, points allowed and sacks are scaled by exactly 2.0; `net_pts_diff` is the points difference minus the points-allowed difference |
| `Matchup.SwapTeamsSwapsSides` | src/features/engineer.py:38-52 | swapping team1 and team2 negates every difference and `net_pts_diff` and swaps each t1/t2 pair, and swapping back gives the original row |
| `Matchup.EvenMatchupIsNeutral` | src/features/engineer.py:38-52 | two teams in identical form give all-zero differences and a row equal to its own swap |
| `Training.HomeWinLabel` | src/features/engineer.py:82 | `home_win` is 0 or 1, and 1 exactly when the home score is higher (a tie gives 0) |
| `Training.PointDiffLabel` | src/features/engineer.py:83 | `point_diff` is the home margin, positive exactly when `home_win` is 1 |
| `Training.RegularSeason` | src/features/engineer.py:62 | a game is kept if and only if it is a schedule game of type `REG`, and no more games come out than went in |
| `Training.RegularSeasonAppend` | src/features/engineer.py:62 | the `REG` mask keeps schedule order and multiplicity: masking a concatenation masks each part in turn |
| `Training.RegularSeasonOne` | src/features/engineer.py:62 | a single game is kept exactly when its type is `REG` |
| `Training.TeamsKnown` | src/features/engineer.py:62-75 | no `KeyError` arises exactly when both teams of every kept regular-season game have a history |
| `Training.RowFromHistories` | src/features/engineer.py:77-85 | a row comes out exactly when both cut histories have at least 3 rows, and it holds their matchup features (home as team1) and both labels |
| `Training.GameRow` | src/features/engineer.py:69-81 | a game yields a row exactly when both teams have at least 3 rows with week before the game |
| `Training.Qualifies` | src/features/engineer.py:62-78 | a game qualifies exactly when it is a regular-season game with both teams known and the loop body emits a row for it |
| `Training.QualifyingGames` | src/features/engineer.py:62-78 | a schedule game is listed if and only if it qualifies (regular season, both teams with at least 3 prior weeks), and no more games come out than went in |
| `Training.QualifyingGamesAppend` | src/features/engineer.py:64-78 | qualifying games are listed in schedule order, once per occurrence: listing a concatenation lists each part in turn |
| `Training.QualifyingGamesOne` | src/features/engineer.py:64-78 | a single game is listed exactly when it qualifies |
| `Training.TrainingRows` | src/features/engineer.py:64-85 | the loop appends at most one row per visited game, and every appended `home_win` is 0 or 1 |
| `Training.LabelledRows` | src/features/engineer.py:80-85 | one row per listed game, in the same order, each holding the matchup features of the two pre-game histories (home as team1) and both labels |
| `Training.TrainingRowsFollowQualifyingGames` | src/features/engineer.py:64-85 | the rows the loop appends over the regular-season games are exactly the labelled rows of the qualifying games, in schedule order |
| `Training.PrepareTrainingData` | src/features/engineer.py:56-87 | fails exactly when no game qualifies; otherwise returns one row per qualifying game, in schedule order, with the matchup features of the two pre-game histories and both labels |
| `Training.NoLookahead` | src/features/engineer.py:69-75 | when every history is the smoother's output, each game's row is the one built from smoothing only the raw weeks strictly before the game |
| `Training.FutureWeeksDoNotMatter` | src/features/engineer.py:69-78 | two seasons that agree on both teams' weeks before the game give that game the same row |
| `Scenario.FiveWeekPointsDifference` | src/main.py:30-34 | with window 5, points [20, 24, 17, 28, 31] and [14, 10, 21, 17, 20] smooth to 24.0 and 16.4, and `pts_diff` is 7.6 |

## Left out

- `src/main.py` is orchestration only. The model leaves out all of it:
  - data fetching;
  - the per-team statistics derivation (`get_team_season_stats`);
  - model training, prediction and blending;
  - console output;
  - saving models and exporting JSON.
- The `window_size` field set in `__init__` is never changed afterwards, so
  it is a `window` parameter. `Rolling.DefaultWindow` holds its default, 5.
- Column names built from the window size (`points_rolling_5`) are replaced
  by record fields (`rolling.points`). DataFrames become sequences, and
  `iloc[-1]` becomes the last element.
- The smoother adds its columns one column at a time. The model computes all
  seven means per position. The result is the same, and nothing observes the
  intermediate frames.
- IEEE floating-point rounding of means and differences is not modelled:
  arithmetic is over exact reals.
- Scores are integers. Unplayed games with missing (NaN) scores are not
  modelled.
- `Rolling.SortByWeek`: does not fix the order of rows that share a week,
  because the unstable default sort of `sort_values` does not fix it either.
- `Rolling.CreateRollingFeatures`: says nothing about the caller's frame
  being left unmodified. The model works on immutable sequences, so
  aliasing cannot arise.
