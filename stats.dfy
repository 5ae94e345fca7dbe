/**
 * Per-team weekly statistics and the small sequence toolkit shared by the
 * three feature-engineering stages: sums and means over reals, a filter that
 * keeps the rows of a history that lie strictly before a given week, and
 * sortedness by week.
 */
module Stats {

  /** The seven tracked statistics of one team in one week (or their smoothed values). */
  datatype TeamStats = TeamStats(
    points: real,
    epa: real,
    success: real,
    defEpa: real,
    ptsAllowed: real,
    turnovers: real,
    sacks: real)

  /** The names of the seven tracked columns. */
  datatype Column = Points | Epa | Success | DefEpa | PtsAllowed | Turnovers | Sacks

  /** Reads one column of a statistics record. */
  function Get(s: TeamStats, c: Column): real
  {
    match c
    case Points => s.points
    case Epa => s.epa
    case Success => s.success
    case DefEpa => s.defEpa
    case PtsAllowed => s.ptsAllowed
    case Turnovers => s.turnovers
    case Sacks => s.sacks
  }

  /** One raw row of a team's season: the week and the seven raw statistics. */
  datatype WeekRow = WeekRow(week: int, raw: TeamStats)

  /** A row after smoothing: the raw row kept as it was, plus the seven rolling means. */
  datatype SmoothedRow = SmoothedRow(week: int, raw: TeamStats, rolling: TeamStats)

  function RowWeek(r: WeekRow): int { r.week }

  function SmoothedWeek(r: SmoothedRow): int { r.week }

  /** The raw part of a smoothed series, with the rolling columns dropped. */
  function Unsmoothed(rows: seq<SmoothedRow>): (r: seq<WeekRow>)
    ensures |r| == |rows|
    ensures forall i | 0 <= i < |rows| :: r[i].week == rows[i].week && r[i].raw == rows[i].raw
  {
    seq(|rows|, i requires 0 <= i < |rows| => WeekRow(rows[i].week, rows[i].raw))
  }

  /** Sum of a sequence of reals, adding from the front. */
  function Sum(xs: seq<real>): real
  {
    if xs == [] then 0.0 else Sum(xs[..|xs| - 1]) + xs[|xs| - 1]
  }

  /** Arithmetic mean of a non-empty sequence of reals. */
  function Mean(xs: seq<real>): real
    requires |xs| > 0
  {
    Sum(xs) / |xs| as real
  }

  /** Every element of xs lies in [lo, hi], so their sum lies in [n * lo, n * hi]. */
  lemma {:induction false} SumBounds(xs: seq<real>, lo: real, hi: real)
    requires forall i | 0 <= i < |xs| :: lo <= xs[i] <= hi
    ensures |xs| as real * lo <= Sum(xs) <= |xs| as real * hi
  {
    if xs != [] {
      var n := |xs|;
      SumBounds(xs[..n - 1], lo, hi);
      assert (n - 1) as real * lo + lo == n as real * lo;
      assert (n - 1) as real * hi + hi == n as real * hi;
    }
  }

  /** A mean never leaves the range of the values it averages. */
  lemma MeanBounds(xs: seq<real>, lo: real, hi: real)
    requires |xs| > 0
    requires forall i | 0 <= i < |xs| :: lo <= xs[i] <= hi
    ensures lo <= Mean(xs) <= hi
  {
    SumBounds(xs, lo, hi);
    var n := |xs| as real;
    assert Mean(xs) * n == Sum(xs);
    assert (Mean(xs) - lo) * n >= 0.0;
    assert (hi - Mean(xs)) * n >= 0.0;
  }

  /** Rows are in non-decreasing order of the week that `week` reads off them. */
  predicate SortedBy<T>(xs: seq<T>, week: T -> int)
  {
    forall i, j | 0 <= i < j < |xs| :: week(xs[i]) <= week(xs[j])
  }

  /**
   * The rows whose week is strictly less than w, in their original order:
   * the boolean-mask selection `frame[frame['week'] < w]`.
   */
  function Before<T>(xs: seq<T>, week: T -> int, w: int): (r: seq<T>)
    ensures |r| <= |xs|
    ensures forall i | 0 <= i < |r| :: week(r[i]) < w
  {
    if xs == [] then []
    else if week(xs[0]) < w then [xs[0]] + Before(xs[1..], week, w)
    else Before(xs[1..], week, w)
  }

  /**
   * The filter loses nothing: a row is kept exactly when it is one of the
   * input's rows and its week is below w.
   */
  lemma {:induction false} BeforeKeepsEarlierRows<T>(xs: seq<T>, week: T -> int, w: int)
    ensures forall i | 0 <= i < |Before(xs, week, w)| :: Before(xs, week, w)[i] in xs
    ensures forall i | 0 <= i < |xs| && week(xs[i]) < w :: xs[i] in Before(xs, week, w)
  {
    if xs != [] {
      var tail := xs[1..];
      BeforeKeepsEarlierRows(tail, week, w);
      assert forall i | 0 <= i < |tail| :: tail[i] == xs[i + 1];
    }
  }

  /**
   * The filter keeps order and multiplicity on any input, sorted or not:
   * filtering a concatenation filters each part in turn (with `BeforeOne`,
   * this fixes the result row by row).
   */
  lemma {:induction false} BeforeAppend<T>(a: seq<T>, b: seq<T>, week: T -> int, w: int)
    ensures Before(a + b, week, w) == Before(a, week, w) + Before(b, week, w)
  {
    if a == [] {
      assert a + b == b;
    } else {
      BeforeAppend(a[1..], b, week, w);
      var head := if week(a[0]) < w then [a[0]] else [];
      ConcatTail(a, b);
      assert Before(a + b, week, w) == head + Before(a[1..] + b, week, w);
      ConcatAssoc(head, Before(a[1..], week, w), Before(b, week, w));
    }
  }

  /** The tail of a concatenation with a non-empty front. */
  lemma ConcatTail<T>(a: seq<T>, b: seq<T>)
    requires a != []
    ensures (a + b)[0] == a[0] && (a + b)[1..] == a[1..] + b
  {
  }

  /** The front and the last element of a concatenation with a non-empty back. */
  lemma ConcatInit<T>(a: seq<T>, b: seq<T>)
    requires b != []
    ensures (a + b)[..|a + b| - 1] == a + b[..|b| - 1] && (a + b)[|a + b| - 1] == b[|b| - 1]
  {
  }

  /** Concatenation is associative. */
  lemma ConcatAssoc<T>(x: seq<T>, y: seq<T>, z: seq<T>)
    ensures x + (y + z) == (x + y) + z
  {
  }

  /** One row is kept exactly when its week is below w. */
  lemma BeforeOne<T>(x: T, week: T -> int, w: int)
    ensures Before([x], week, w) == (if week(x) < w then [x] else [])
  {
    assert [x][1..] == [];
  }

  /**
   * On rows sorted by week, the rows before week w are a prefix, and the
   * first row left out (if any) is of week w or later.
   */
  lemma {:induction false} BeforeOfSortedIsPrefix<T>(xs: seq<T>, week: T -> int, w: int)
    requires SortedBy(xs, week)
    ensures Before(xs, week, w) == xs[..|Before(xs, week, w)|]
    ensures |Before(xs, week, w)| < |xs| ==> week(xs[|Before(xs, week, w)|]) >= w
  {
    if xs != [] {
      var tail := xs[1..];
      BeforeOfSortedIsPrefix(tail, week, w);
      var m := |Before(tail, week, w)|;
      if week(xs[0]) < w {
        assert Before(xs, week, w) == [xs[0]] + Before(tail, week, w);
        assert [xs[0]] + tail[..m] == xs[..m + 1];
        assert m + 1 < |xs| ==> xs[m + 1] == tail[m];
      } else {
        assert Before(xs, week, w) == Before(tail, week, w);
        assert forall k | 0 <= k < |tail| :: week(xs[0]) <= week(tail[k]) by {
          forall k | 0 <= k < |tail| ensures week(xs[0]) <= week(tail[k]) {
            assert tail[k] == xs[k + 1];
          }
        }
        NothingBefore(tail, week, w);
        assert xs[..0] == [];
      }
    }
  }

  /** When no row is earlier than week w, nothing lies before w. */
  lemma {:induction false} NothingBefore<T>(xs: seq<T>, week: T -> int, w: int)
    requires forall k | 0 <= k < |xs| :: w <= week(xs[k])
    ensures Before(xs, week, w) == []
  {
    if xs != [] {
      NothingBefore(xs[1..], week, w);
    }
  }

  /** How many rows lie before week w depends only on the weeks of the rows. */
  lemma {:induction false} BeforeLengthByWeeks<T, U>(xs: seq<T>, f: T -> int, ys: seq<U>, g: U -> int, w: int)
    requires |xs| == |ys|
    requires forall i | 0 <= i < |xs| :: f(xs[i]) == g(ys[i])
    ensures |Before(xs, f, w)| == |Before(ys, g, w)|
  {
    if xs != [] {
      BeforeLengthByWeeks(xs[1..], f, ys[1..], g, w);
    }
  }
}
