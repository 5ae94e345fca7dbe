/**
 * The rolling smoother: sorts one team's weekly rows by week and adds, for
 * each of the seven tracked columns, the trailing mean over the last
 * `window` rows (fewer at the start of the season, never undefined).
 */
module Rolling {
  import opened Stats

  /** The default trailing window of the feature engineer. */
  const DefaultWindow: int := 5

  /** First position of the trailing window that ends at position i: max(0, i - window + 1). */
  function WindowStart(i: nat, window: int): (s: nat)
    requires window >= 1
    ensures s <= i
    ensures i - s + 1 == (if i + 1 < window then i + 1 else window)
  {
    if i - window + 1 < 0 then 0 else i - window + 1
  }

  /** The values of one column, position by position. */
  function ColumnOf(rows: seq<WeekRow>, c: Column): (r: seq<real>)
    ensures |r| == |rows|
    ensures forall k | 0 <= k < |rows| :: r[k] == Get(rows[k].raw, c)
  {
    seq(|rows|, k requires 0 <= k < |rows| => Get(rows[k].raw, c))
  }

  /** `rows[c].rolling(window, min_periods=1).mean()` at position i. */
  function RollingMean(rows: seq<WeekRow>, c: Column, i: nat, window: int): real
    requires window >= 1 && i < |rows|
  {
    Mean(ColumnOf(rows, c)[WindowStart(i, window)..i + 1])
  }

  /**
   * The rolling mean at position i averages everything up to i while fewer
   * than `window` rows exist, and the last `window` rows ending at i after that.
   */
  lemma RollingMeanWindow(rows: seq<WeekRow>, c: Column, i: nat, window: int)
    requires window >= 1 && i < |rows|
    ensures i + 1 <= window ==> RollingMean(rows, c, i, window) == Mean(ColumnOf(rows, c)[..i + 1])
    ensures i + 1 >= window ==> RollingMean(rows, c, i, window) == Mean(ColumnOf(rows, c)[i + 1 - window..i + 1])
  {
  }

  /** The seven rolling means at position i. */
  function RollingAt(rows: seq<WeekRow>, i: nat, window: int): (r: TeamStats)
    requires window >= 1 && i < |rows|
    ensures forall c :: Get(r, c) == RollingMean(rows, c, i, window)
  {
    TeamStats(
      RollingMean(rows, Points, i, window),
      RollingMean(rows, Epa, i, window),
      RollingMean(rows, Success, i, window),
      RollingMean(rows, DefEpa, i, window),
      RollingMean(rows, PtsAllowed, i, window),
      RollingMean(rows, Turnovers, i, window),
      RollingMean(rows, Sacks, i, window))
  }

  /**
   * Specification of the smoothing of rows already in week order: every row
   * keeps its week and raw columns and gains the rolling means at its position.
   */
  function Smooth(rows: seq<WeekRow>, window: int): (r: seq<SmoothedRow>)
    requires window >= 1
    ensures |r| == |rows|
    ensures Unsmoothed(r) == rows
  {
    seq(|rows|, i requires 0 <= i < |rows| => SmoothedRow(rows[i].week, rows[i].raw, RollingAt(rows, i, window)))
  }

  /** What the smoother hands back: week-ordered rows carrying their own rolling means. */
  predicate IsSmoothedSeries(s: seq<SmoothedRow>, window: int)
    requires window >= 1
  {
    SortedBy(Unsmoothed(s), RowWeek) && s == Smooth(Unsmoothed(s), window)
  }

  /** Rearranging rows and adding one more keeps every week at or above a common lower bound. */
  lemma WeeksStayAbove(xs: seq<WeekRow>, ys: seq<WeekRow>, x: WeekRow, lo: int)
    requires multiset(ys) == multiset(xs) + multiset{x}
    requires forall k | 0 <= k < |xs| :: lo <= xs[k].week
    requires lo <= x.week
    ensures forall k | 0 <= k < |ys| :: lo <= ys[k].week
  {
    forall k | 0 <= k < |ys|
      ensures lo <= ys[k].week
    {
      assert ys[k] in multiset(ys);
      if ys[k] != x {
        assert ys[k] in multiset(xs);
        var j :| 0 <= j < |xs| && xs[j] == ys[k];
      }
    }
  }

  /** A row no later than every row of a sorted sequence can go in front of it. */
  lemma PrependSorted(y: WeekRow, rest: seq<WeekRow>)
    requires SortedBy(rest, RowWeek)
    requires forall k | 0 <= k < |rest| :: y.week <= rest[k].week
    ensures SortedBy([y] + rest, RowWeek)
  {
  }

  /** Putting the head of a sorted sequence back in front of its tail with x inserted. */
  lemma InsertBehindHead(sorted: seq<WeekRow>, x: WeekRow, rest: seq<WeekRow>)
    requires |sorted| > 0 && SortedBy(sorted, RowWeek) && sorted[0].week < x.week
    requires SortedBy(rest, RowWeek) && multiset(rest) == multiset(sorted[1..]) + multiset{x}
    ensures SortedBy([sorted[0]] + rest, RowWeek)
    ensures multiset([sorted[0]] + rest) == multiset(sorted) + multiset{x}
  {
    assert sorted == [sorted[0]] + sorted[1..];
    WeeksStayAbove(sorted[1..], rest, x, sorted[0].week);
    PrependSorted(sorted[0], rest);
  }

  /** Inserts x into a week-sorted sequence, keeping it sorted. */
  function InsertByWeek(sorted: seq<WeekRow>, x: WeekRow): (r: seq<WeekRow>)
    requires SortedBy(sorted, RowWeek)
    ensures SortedBy(r, RowWeek)
    ensures multiset(r) == multiset(sorted) + multiset{x}
  {
    if sorted == [] || x.week <= sorted[0].week then
      [x] + sorted
    else
      var rest := InsertByWeek(sorted[1..], x);
      InsertBehindHead(sorted, x, rest);
      [sorted[0]] + rest
  }

  /** `team_stats.sort_values('week')`: the same rows, in non-decreasing week order. */
  method SortByWeek(rows: seq<WeekRow>) returns (sorted: seq<WeekRow>)
    ensures |sorted| == |rows|
    ensures SortedBy(sorted, RowWeek)
    ensures multiset(sorted) == multiset(rows)
  {
    sorted := [];
    var i := 0;
    while i < |rows|
      invariant 0 <= i <= |rows|
      invariant SortedBy(sorted, RowWeek)
      invariant multiset(sorted) == multiset(rows[..i])
    {
      assert rows[..i + 1] == rows[..i] + [rows[i]];
      sorted := InsertByWeek(sorted, rows[i]);
      i := i + 1;
    }
    assert rows[..i] == rows;
    assert |sorted| == |multiset(sorted)| == |multiset(rows)| == |rows|;
  }

  /**
   * `create_rolling_features`: sorts the team's rows by week and adds the
   * seven rolling-mean columns. The result is the sorted input, unchanged in
   * its raw columns, with the rolling means of `Smooth` attached.
   */
  method CreateRollingFeatures(teamStats: seq<WeekRow>, window: int) returns (smoothed: seq<SmoothedRow>)
    requires window >= 1
    ensures |smoothed| == |teamStats|
    ensures SortedBy(Unsmoothed(smoothed), RowWeek)
    ensures multiset(Unsmoothed(smoothed)) == multiset(teamStats)
    ensures smoothed == Smooth(Unsmoothed(smoothed), window)
  {
    var sorted := SortByWeek(teamStats);
    smoothed := [];
    var i := 0;
    while i < |sorted|
      invariant 0 <= i <= |sorted|
      invariant |smoothed| == i
      invariant forall k | 0 <= k < i ::
        smoothed[k] == SmoothedRow(sorted[k].week, sorted[k].raw, RollingAt(sorted, k, window))
    {
      smoothed := smoothed + [SmoothedRow(sorted[i].week, sorted[i].raw, RollingAt(sorted, i, window))];
      i := i + 1;
    }
    ghost var spec := Smooth(sorted, window);
    assert forall k | 0 <= k < |sorted| :: smoothed[k] == spec[k];
    assert smoothed == spec;
  }

  /** A rolling mean at position i reads nothing at or after position k > i. */
  lemma RollingMeanPrefix(rows: seq<WeekRow>, k: nat, c: Column, i: nat, window: int)
    requires window >= 1 && i < k <= |rows|
    ensures RollingMean(rows[..k], c, i, window) == RollingMean(rows, c, i, window)
  {
    var a := WindowStart(i, window);
    assert ColumnOf(rows[..k], c)[a..i + 1] == ColumnOf(rows, c)[a..i + 1];
  }

  /** Smoothing a prefix gives the prefix of the smoothing: the window only looks backwards. */
  lemma {:induction false} SmoothPrefix(rows: seq<WeekRow>, k: nat, window: int)
    requires window >= 1 && k <= |rows|
    ensures Smooth(rows[..k], window) == Smooth(rows, window)[..k]
  {
    forall i | 0 <= i < k
      ensures RollingAt(rows[..k], i, window) == RollingAt(rows, i, window)
    {
      RollingMeanPrefix(rows, k, Points, i, window);
      RollingMeanPrefix(rows, k, Epa, i, window);
      RollingMeanPrefix(rows, k, Success, i, window);
      RollingMeanPrefix(rows, k, DefEpa, i, window);
      RollingMeanPrefix(rows, k, PtsAllowed, i, window);
      RollingMeanPrefix(rows, k, Turnovers, i, window);
      RollingMeanPrefix(rows, k, Sacks, i, window);
    }
  }

  /**
   * No look-ahead: on week-sorted rows, smoothing only the rows before week w
   * yields exactly the rows before week w of the whole-season smoothing.
   */
  lemma {:induction false} SmoothingCommutesWithWeekFilter(rows: seq<WeekRow>, w: int, window: int)
    requires window >= 1
    requires SortedBy(rows, RowWeek)
    ensures Smooth(Before(rows, RowWeek, w), window) == Before(Smooth(rows, window), SmoothedWeek, w)
  {
    var s := Smooth(rows, window);
    BeforeOfSortedIsPrefix(rows, RowWeek, w);
    BeforeOfSortedIsPrefix(s, SmoothedWeek, w);
    BeforeLengthByWeeks(rows, RowWeek, s, SmoothedWeek, w);
    SmoothPrefix(rows, |Before(rows, RowWeek, w)|, window);
  }

  /** Window shrinkage: on a series no longer than the window, the last row averages the whole series. */
  lemma ShortSeriesAveragesEverything(rows: seq<WeekRow>, window: int, c: Column)
    requires window >= 1 && 0 < |rows| <= window
    ensures Get(Smooth(rows, window)[|rows| - 1].rolling, c) == Mean(ColumnOf(rows, c))
  {
    var n := |rows|;
    var col := ColumnOf(rows, c);
    assert RollingMean(rows, c, n - 1, window) == Mean(col) by {
      RollingMeanWindow(rows, c, n - 1, window);
      assert col[..n] == col;
    }
    assert Get(Smooth(rows, window)[n - 1].rolling, c) == RollingMean(rows, c, n - 1, window) by {
      assert Smooth(rows, window)[n - 1].rolling == RollingAt(rows, n - 1, window);
    }
  }

  /** With `min_periods=1` the first week is never undefined: its rolling mean is its own value. */
  lemma FirstWeekIsItsOwnMean(rows: seq<WeekRow>, window: int, c: Column)
    requires window >= 1 && |rows| > 0
    ensures Get(Smooth(rows, window)[0].rolling, c) == Get(rows[0].raw, c)
  {
    var col := ColumnOf(rows, c)[..1];
    assert Smooth(rows, window)[0].rolling == RollingAt(rows, 0, window);
    assert col == [Get(rows[0].raw, c)] && col[..0] == [];
    assert Sum(col) == Sum(col[..0]) + col[0];
  }

  /** A success rate in [0, 1] every week stays in [0, 1] after smoothing. */
  lemma RollingSuccessIsRate(rows: seq<WeekRow>, window: int)
    requires window >= 1
    requires forall k | 0 <= k < |rows| :: 0.0 <= rows[k].raw.success <= 1.0
    ensures forall k | 0 <= k < |rows| :: 0.0 <= Smooth(rows, window)[k].rolling.success <= 1.0
  {
    forall k | 0 <= k < |rows|
      ensures 0.0 <= Smooth(rows, window)[k].rolling.success <= 1.0
    {
      MeanBounds(ColumnOf(rows, Success)[WindowStart(k, window)..k + 1], 0.0, 1.0);
    }
  }
}
