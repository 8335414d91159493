/** The consumption trends: the daily series and its weekly and monthly
    totals.

    A sample is one day's consumption.  The Daily view is the series
    itself.  The Weekly and Monthly views sum the samples of each calendar
    week (Monday to Sunday) or month, and label each total with the day
    number of the period's last day, the Sunday or the month's last day.

    Grouping here is sparse: a period without samples gets no entry.  The
    dashboard's series has a sample on every day of its range, and on such a
    series the periods follow one another without gaps (`NoGaps`), so no
    empty period lies between two that have samples. */
module Consumption {
  import opened Calendar

  /** One day's sample: its day number and the volume consumed. */
  datatype Sample = Sample(day: int, volume: int)

  datatype View = Daily | Weekly | Monthly

  /** One point of a trend: a period label (a day number) and its total. */
  datatype Point = Point(period: int, total: int)

  /** The label of the period of `view` that contains `day`. */
  function PeriodEnd(view: View, day: int): int
  {
    match view
    case Daily => day
    case Weekly => WeekEnd(day)
    case Monthly => MonthEnd(day)
  }

  /** A period ends no earlier than any of its days, and the label lies in
      its own period. */
  lemma PeriodEndBounds(view: View, day: int)
    ensures day <= PeriodEnd(view, day)
    ensures PeriodEnd(view, PeriodEnd(view, day)) == PeriodEnd(view, day)
  {
    match view
    case Daily =>
    case Weekly => WeekEndIdempotent(day);
    case Monthly => MonthEndIdempotent(day);
  }

  lemma PeriodEndMonotone(view: View, a: int, b: int)
    requires a <= b
    ensures PeriodEnd(view, a) <= PeriodEnd(view, b)
  {
    match view
    case Daily =>
    case Weekly => WeekEndMonotone(a, b);
    case Monthly => MonthEndMonotone(a, b);
  }

  /** Every day from `day` up to the end of its period is in the same
      period. */
  lemma SamePeriod(view: View, day: int, later: int)
    requires day <= later <= PeriodEnd(view, day)
    ensures PeriodEnd(view, later) == PeriodEnd(view, day)
  {
    PeriodEndMonotone(view, day, later);
    PeriodEndMonotone(view, later, PeriodEnd(view, day));
    PeriodEndBounds(view, day);
  }

  /** Dates strictly increase along the series. */
  predicate Ascending(s: seq<Sample>)
  {
    forall i, j :: 0 <= i < j < |s| ==> s[i].day < s[j].day
  }

  /** Each sample is the day after the one before it. */
  predicate Consecutive(s: seq<Sample>)
  {
    forall i, j :: 0 <= i < |s| && 0 <= j < |s| && j == i + 1 ==> s[j].day == s[i].day + 1
  }

  function Volume(s: seq<Sample>): int
  {
    if s == [] then 0 else Volume(s[..|s| - 1]) + s[|s| - 1].volume
  }

  function Total(points: seq<Point>): int
  {
    if points == [] then 0 else Total(points[..|points| - 1]) + points[|points| - 1].total
  }

  /** The volume of the samples that fall in the period labelled `period`. */
  function VolumeIn(s: seq<Sample>, view: View, period: int): int
  {
    if s == [] then 0
    else VolumeIn(s[..|s| - 1], view, period)
         + if PeriodEnd(view, s[|s| - 1].day) == period then s[|s| - 1].volume else 0
  }

  /** The labels of the periods the samples fall in. */
  function SamplePeriods(s: seq<Sample>, view: View): set<int>
  {
    set i | 0 <= i < |s| :: PeriodEnd(view, s[i].day)
  }

  function Periods(points: seq<Point>): set<int>
  {
    set i | 0 <= i < |points| :: points[i].period
  }

  /** The Daily view: one point per sample, values unchanged. */
  function DailySeries(s: seq<Sample>): (r: seq<Point>)
    ensures |r| == |s|
    ensures forall i :: 0 <= i < |s| ==> r[i] == Point(s[i].day, s[i].volume)
  {
    if s == [] then [] else DailySeries(s[..|s| - 1]) + [Point(s[|s| - 1].day, s[|s| - 1].volume)]
  }

  /** Adds one sample's volume to a trend: to the last point when the
      sample is in that point's period, as a new point otherwise. */
  function Absorb(points: seq<Point>, period: int, volume: int): (r: seq<Point>)
    ensures r != [] && r[|r| - 1].period == period
    ensures |points| <= |r| <= |points| + 1
  {
    if points != [] && points[|points| - 1].period == period then
      points[..|points| - 1] + [Point(period, points[|points| - 1].total + volume)]
    else
      points + [Point(period, volume)]
  }

  /** Absorbing a sample leaves every point but the last one untouched. */
  lemma AbsorbKeepsFront(points: seq<Point>, period: int, volume: int)
    ensures var r := Absorb(points, period, volume);
            forall i :: 0 <= i < |points| - 1 ==> r[i] == points[i]
    ensures var r := Absorb(points, period, volume);
            |r| == |points| + 1 ==> forall i :: 0 <= i < |points| ==> r[i] == points[i]
  {
  }

  /** Groups runs of samples that fall in the same period and sums each run. */
  function Group(s: seq<Sample>, view: View): (r: seq<Point>)
    ensures |r| <= |s| && (r == [] <==> s == [])
    ensures s != [] ==> r[|r| - 1].period == PeriodEnd(view, s[|s| - 1].day)
    ensures forall i, j :: 0 <= i < |r| && 0 <= j < |r| && j == i + 1 ==> r[i].period != r[j].period
  {
    if s == [] then []
    else
      var init := Group(s[..|s| - 1], view);
      var r := Absorb(init, PeriodEnd(view, s[|s| - 1].day), s[|s| - 1].volume);
      AbsorbKeepsFront(init, PeriodEnd(view, s[|s| - 1].day), s[|s| - 1].volume);
      assert forall i, j :: 0 <= i < |r| && 0 <= j < |r| && j == i + 1 ==> r[i].period != r[j].period by {
        forall i, j | 0 <= i < |r| && 0 <= j < |r| && j == i + 1
          ensures r[i].period != r[j].period
        {
          if j < |r| - 1 {
            assert r[i] == init[i] && r[j] == init[j];
          } else if |r| == |init| + 1 {
            assert r[i] == init[i];
          } else {
            assert r[i] == init[i];
          }
        }
      }
      r
  }

  /** The trend shown for a view. */
  function Aggregate(view: View, s: seq<Sample>): (r: seq<Point>)
    ensures |r| <= |s| && (r == [] <==> s == [])
    ensures view == Daily ==> |r| == |s|
  {
    if view == Daily then DailySeries(s) else Group(s, view)
  }

  /** A Daily trend is the series itself. */
  lemma DailyIsIdentity(s: seq<Sample>)
    ensures |Aggregate(Daily, s)| == |s|
    ensures forall i :: 0 <= i < |s| ==> Aggregate(Daily, s)[i] == Point(s[i].day, s[i].volume)
  {
  }

  lemma {:induction false} TotalAppend(points: seq<Point>, p: Point)
    ensures Total(points + [p]) == Total(points) + p.total
  {
    assert (points + [p])[..|points|] == points;
  }

  lemma {:induction false} DailyConserves(s: seq<Sample>)
    ensures Total(DailySeries(s)) == Volume(s)
  {
    if s != [] {
      DailyConserves(s[..|s| - 1]);
      TotalAppend(DailySeries(s[..|s| - 1]), Point(s[|s| - 1].day, s[|s| - 1].volume));
    }
  }

  lemma AbsorbConserves(points: seq<Point>, period: int, volume: int)
    ensures Total(Absorb(points, period, volume)) == Total(points) + volume
  {
    if points != [] && points[|points| - 1].period == period {
      var front, last := points[..|points| - 1], points[|points| - 1];
      assert points == front + [last];
      TotalAppend(front, last);
      TotalAppend(front, Point(period, last.total + volume));
    } else {
      TotalAppend(points, Point(period, volume));
    }
  }

  lemma {:induction false} GroupConserves(s: seq<Sample>, view: View)
    ensures Total(Group(s, view)) == Volume(s)
  {
    if s != [] {
      GroupConserves(s[..|s| - 1], view);
      AbsorbConserves(Group(s[..|s| - 1], view), PeriodEnd(view, s[|s| - 1].day), s[|s| - 1].volume);
    }
  }

  /** Regrouping preserves the total: every view sums to the total volume. */
  lemma AggregateConserves(view: View, s: seq<Sample>)
    ensures Total(Aggregate(view, s)) == Volume(s)
  {
    if view == Daily {
      DailyConserves(s);
    } else {
      GroupConserves(s, view);
    }
  }

  /** Removing the last sample keeps the series ascending. */
  lemma AscendingInit(s: seq<Sample>)
    requires Ascending(s) && s != []
    ensures Ascending(s[..|s| - 1])
    ensures forall i :: 0 <= i < |s| - 1 ==> s[i].day < s[|s| - 1].day
  {
  }

  /** On an ascending series, every sample falls in a period no later than
      that of the last sample. */
  lemma PeriodsUpToLast(s: seq<Sample>, view: View)
    requires Ascending(s) && s != []
    ensures forall i :: 0 <= i < |s| ==> PeriodEnd(view, s[i].day) <= PeriodEnd(view, s[|s| - 1].day)
  {
    forall i | 0 <= i < |s|
      ensures PeriodEnd(view, s[i].day) <= PeriodEnd(view, s[|s| - 1].day)
    {
      PeriodEndMonotone(view, s[i].day, s[|s| - 1].day);
    }
  }

  /** A period that no sample falls in has no volume. */
  lemma {:induction false} VolumeInAbsent(s: seq<Sample>, view: View, period: int)
    requires forall i :: 0 <= i < |s| ==> PeriodEnd(view, s[i].day) != period
    ensures VolumeIn(s, view, period) == 0
  {
    if s != [] {
      VolumeInAbsent(s[..|s| - 1], view, period);
    }
  }

  /** Period labels strictly increase along a trend. */
  predicate Increasing(points: seq<Point>)
  {
    forall i, j :: 0 <= i < j < |points| ==> points[i].period < points[j].period
  }

  /** On an ascending series the trend's periods are in ascending order. */
  lemma {:induction false} GroupIncreasing(s: seq<Sample>, view: View)
    requires Ascending(s)
    ensures Increasing(Group(s, view))
  {
    if |s| > 1 {
      var s0, x := s[..|s| - 1], s[|s| - 1];
      var r0, r := Group(s0, view), Group(s, view);
      var period := PeriodEnd(view, x.day);
      AscendingInit(s);
      GroupIncreasing(s0, view);
      PeriodEndMonotone(view, s0[|s0| - 1].day, x.day);
      assert r0[|r0| - 1].period <= period;
      forall i, j | 0 <= i < j < |r|
        ensures r[i].period < r[j].period
      {
        if j < |r| - 1 {
          assert r[i] == r0[i] && r[j] == r0[j];
        } else if |r| == |r0| + 1 {
          assert r[i] == r0[i];
        } else {
          assert r[i] == r0[i];
          assert r0[i].period < r0[|r0| - 1].period;
        }
      }
    }
  }

  lemma VolumeInLast(s: seq<Sample>, view: View, period: int)
    requires s != []
    ensures VolumeIn(s, view, period) == VolumeIn(s[..|s| - 1], view, period)
              + if PeriodEnd(view, s[|s| - 1].day) == period then s[|s| - 1].volume else 0
  {
  }

  /** Each point's total is the volume of its period. */
  predicate TotalsMatch(points: seq<Point>, s: seq<Sample>, view: View)
  {
    forall i :: 0 <= i < |points| ==> points[i].total == VolumeIn(s, view, points[i].period)
  }

  /** A sample in the last point's period raises that point's total. */
  lemma TotalsExtendLast(s: seq<Sample>, view: View, r0: seq<Point>)
    requires s != [] && r0 != [] && Increasing(r0)
    requires TotalsMatch(r0, s[..|s| - 1], view)
    requires r0[|r0| - 1].period == PeriodEnd(view, s[|s| - 1].day)
    ensures TotalsMatch(r0[..|r0| - 1] + [Point(r0[|r0| - 1].period, r0[|r0| - 1].total + s[|s| - 1].volume)], s, view)
  {
    var last := r0[|r0| - 1];
    var r := r0[..|r0| - 1] + [Point(last.period, last.total + s[|s| - 1].volume)];
    forall i | 0 <= i < |r|
      ensures r[i].total == VolumeIn(s, view, r[i].period)
    {
      VolumeInLast(s, view, r[i].period);
      if i < |r| - 1 {
        assert r[i] == r0[i];
        assert r0[i].period < last.period;
      }
    }
  }

  /** A sample in a later period, one no earlier sample falls in, opens a
      point holding just its volume. */
  lemma TotalsExtendNew(s: seq<Sample>, view: View, r0: seq<Point>)
    requires s != []
    requires TotalsMatch(r0, s[..|s| - 1], view)
    requires forall i :: 0 <= i < |r0| ==> r0[i].period < PeriodEnd(view, s[|s| - 1].day)
    requires VolumeIn(s[..|s| - 1], view, PeriodEnd(view, s[|s| - 1].day)) == 0
    ensures TotalsMatch(r0 + [Point(PeriodEnd(view, s[|s| - 1].day), s[|s| - 1].volume)], s, view)
  {
    var r := r0 + [Point(PeriodEnd(view, s[|s| - 1].day), s[|s| - 1].volume)];
    forall i | 0 <= i < |r|
      ensures r[i].total == VolumeIn(s, view, r[i].period)
    {
      VolumeInLast(s, view, r[i].period);
      if i < |r| - 1 {
        assert r[i] == r0[i];
      }
    }
  }

  /** The grouping adds the last sample to the grouping of the others. */
  lemma GroupLast(s: seq<Sample>, view: View)
    requires s != []
    ensures Group(s, view) == Absorb(Group(s[..|s| - 1], view), PeriodEnd(view, s[|s| - 1].day), s[|s| - 1].volume)
  {
  }

  lemma AbsorbSame(points: seq<Point>, period: int, volume: int)
    requires points != [] && points[|points| - 1].period == period
    ensures Absorb(points, period, volume)
            == points[..|points| - 1] + [Point(period, points[|points| - 1].total + volume)]
  {
  }

  /** A sample in the last point's period, for the grouping itself. */
  lemma GroupTotalsSame(s: seq<Sample>, view: View)
    requires |s| > 1 && Increasing(Group(s[..|s| - 1], view))
    requires TotalsMatch(Group(s[..|s| - 1], view), s[..|s| - 1], view)
    requires var r0 := Group(s[..|s| - 1], view);
             r0[|r0| - 1].period == PeriodEnd(view, s[|s| - 1].day)
    ensures TotalsMatch(Group(s, view), s, view)
  {
    var r0 := Group(s[..|s| - 1], view);
    GroupLast(s, view);
    AbsorbSame(r0, PeriodEnd(view, s[|s| - 1].day), s[|s| - 1].volume);
    TotalsExtendLast(s, view, r0);
  }

  /** A sample in a later period than the last point's, for the grouping
      itself. */
  lemma GroupTotalsNew(s: seq<Sample>, view: View)
    requires |s| > 1 && Ascending(s) && Increasing(Group(s[..|s| - 1], view))
    requires TotalsMatch(Group(s[..|s| - 1], view), s[..|s| - 1], view)
    requires var r0 := Group(s[..|s| - 1], view);
             r0[|r0| - 1].period < PeriodEnd(view, s[|s| - 1].day)
    ensures TotalsMatch(Group(s, view), s, view)
  {
    var s0, x := s[..|s| - 1], s[|s| - 1];
    var r0 := Group(s0, view);
    var period := PeriodEnd(view, x.day);
    AscendingInit(s);
    PeriodsUpToLast(s0, view);
    VolumeInAbsent(s0, view, period);
    assert Group(s, view) == r0 + [Point(period, x.volume)];
    forall i | 0 <= i < |r0|
      ensures r0[i].period < period
    {
      assert r0[i].period <= r0[|r0| - 1].period;
    }
    TotalsExtendNew(s, view, r0);
  }

  lemma GroupTotalsSingle(s: seq<Sample>, view: View)
    requires |s| == 1
    ensures TotalsMatch(Group(s, view), s, view)
  {
    assert s[..0] == [];
    assert Group(s, view) == [Point(PeriodEnd(view, s[0].day), s[0].volume)];
    VolumeInLast(s, view, PeriodEnd(view, s[0].day));
  }

  /** On an ascending series each point's total is the volume of its
      period. */
  lemma {:induction false} GroupTotals(s: seq<Sample>, view: View)
    requires Ascending(s)
    ensures TotalsMatch(Group(s, view), s, view)
  {
    if |s| == 1 {
      GroupTotalsSingle(s, view);
    } else if |s| > 1 {
      var s0 := s[..|s| - 1];
      var r0 := Group(s0, view);
      AscendingInit(s);
      GroupTotals(s0, view);
      GroupIncreasing(s0, view);
      PeriodEndMonotone(view, s0[|s0| - 1].day, s[|s| - 1].day);
      if r0[|r0| - 1].period == PeriodEnd(view, s[|s| - 1].day) {
        GroupTotalsSame(s, view);
      } else {
        GroupTotalsNew(s, view);
      }
    }
  }

  /** Absorbing a sample adds its period to the trend's periods. */
  lemma AbsorbPeriods(points: seq<Point>, period: int, volume: int)
    ensures Periods(Absorb(points, period, volume)) == Periods(points) + {period}
  {
    var r := Absorb(points, period, volume);
    AbsorbKeepsFront(points, period, volume);
    forall p
      ensures p in Periods(r) <==> p in Periods(points) || p == period
    {
      if p in Periods(r) {
        var i :| 0 <= i < |r| && r[i].period == p;
        if i < |r| - 1 {
          assert r[i] == points[i];
        }
      }
      if p in Periods(points) {
        var i :| 0 <= i < |points| && points[i].period == p;
        if i < |points| - 1 || |r| == |points| + 1 {
          assert r[i] == points[i];
        } else {
          assert r[i].period == p;
        }
      }
      if p == period {
        assert r[|r| - 1].period == p;
      }
    }
  }

  lemma SamplePeriodsLast(s: seq<Sample>, view: View)
    requires s != []
    ensures SamplePeriods(s, view)
            == SamplePeriods(s[..|s| - 1], view) + {PeriodEnd(view, s[|s| - 1].day)}
  {
    var s0 := s[..|s| - 1];
    forall p
      ensures p in SamplePeriods(s, view) <==> p in SamplePeriods(s0, view) || p == PeriodEnd(view, s[|s| - 1].day)
    {
      if p in SamplePeriods(s, view) {
        var i :| 0 <= i < |s| && PeriodEnd(view, s[i].day) == p;
        if i < |s| - 1 {
          assert s[i] == s0[i];
        }
      }
      if p in SamplePeriods(s0, view) {
        var i :| 0 <= i < |s0| && PeriodEnd(view, s0[i].day) == p;
        assert s[i] == s0[i];
      }
    }
  }

  /** The trend has a point exactly for the periods that have samples. */
  lemma {:induction false} GroupPeriods(s: seq<Sample>, view: View)
    ensures Periods(Group(s, view)) == SamplePeriods(s, view)
  {
    if s != [] {
      GroupPeriods(s[..|s| - 1], view);
      AbsorbPeriods(Group(s[..|s| - 1], view), PeriodEnd(view, s[|s| - 1].day), s[|s| - 1].volume);
      SamplePeriodsLast(s, view);
    }
  }

  /** On an ascending series the grouping is a calendar grouping: periods
      in ascending order, one point per period that has samples and none for
      the others, and each point's total is the volume of its period. */
  lemma GroupByPeriod(s: seq<Sample>, view: View)
    requires Ascending(s)
    ensures Increasing(Group(s, view))
    ensures TotalsMatch(Group(s, view), s, view)
    ensures Periods(Group(s, view)) == SamplePeriods(s, view)
  {
    GroupIncreasing(s, view);
    GroupTotals(s, view);
    GroupPeriods(s, view);
  }

  /** Each period of a trend is followed by the very next period. */
  predicate Gapless(points: seq<Point>, view: View)
  {
    forall i, j :: 0 <= i < |points| && 0 <= j < |points| && j == i + 1 ==>
      points[j].period == PeriodEnd(view, points[i].period + 1)
  }

  /** Absorbing a sample of the last point's period or of the period right
      after it keeps a trend gapless. */
  lemma AbsorbGapless(points: seq<Point>, view: View, period: int, volume: int)
    requires Gapless(points, view)
    requires points != [] ==>
               var last := points[|points| - 1].period;
               period == last || period == PeriodEnd(view, last + 1)
    ensures Gapless(Absorb(points, period, volume), view)
  {
    var r := Absorb(points, period, volume);
    AbsorbKeepsFront(points, period, volume);
    forall i, j | 0 <= i < |r| && 0 <= j < |r| && j == i + 1
      ensures r[j].period == PeriodEnd(view, r[i].period + 1)
    {
      assert r[i] == points[i];
      if j < |r| - 1 || |r| == |points| + 1 {
        if j < |points| {
          assert r[j] == points[j];
        }
      }
    }
  }

  /** On a series with a sample every day, each period of the trend is
      followed by the very next period: no period is skipped. */
  lemma {:induction false} NoGaps(s: seq<Sample>, view: View)
    requires Consecutive(s)
    ensures Gapless(Group(s, view), view)
  {
    if |s| > 1 {
      var s0 := s[..|s| - 1];
      var d := s0[|s0| - 1].day;
      assert s[|s| - 1].day == d + 1;
      assert Consecutive(s0);
      NoGaps(s0, view);
      var r0 := Group(s0, view);
      var last := r0[|r0| - 1].period;
      var period := PeriodEnd(view, d + 1);
      PeriodEndBounds(view, d);
      if d < last {
        SamePeriod(view, d, d + 1);
      }
      assert period == last || period == PeriodEnd(view, last + 1);
      AbsorbGapless(r0, view, period, s[|s| - 1].volume);
    }
  }

  /** Every label of a trend is the last day of its own period: a Sunday
      for Weekly, a month's last day for Monthly. */
  lemma LabelsArePeriodEnds(s: seq<Sample>, view: View)
    ensures var r := Group(s, view);
            forall i :: 0 <= i < |r| ==> PeriodEnd(view, r[i].period) == r[i].period
  {
    var r := Group(s, view);
    GroupPeriods(s, view);
    forall i | 0 <= i < |r|
      ensures PeriodEnd(view, r[i].period) == r[i].period
    {
      assert r[i].period in Periods(r);
      var k :| 0 <= k < |s| && PeriodEnd(view, s[k].day) == r[i].period;
      PeriodEndBounds(view, s[k].day);
    }
  }

  /** Saturday 1970-01-03 and Sunday 1970-01-04 close on Sunday day 3;
      Monday 1970-01-05 opens the week closing on day 10. */
  lemma WeeklyExample()
    ensures Aggregate(Weekly, [Sample(2, 3), Sample(3, 4), Sample(4, 5)]) == [Point(3, 7), Point(10, 5)]
  {
    var s := [Sample(2, 3), Sample(3, 4), Sample(4, 5)];
    assert s[..1] == [Sample(2, 3)];
    assert s[..2] == [Sample(2, 3), Sample(3, 4)];
    assert WeekEnd(2) == 3 && WeekEnd(3) == 3 && WeekEnd(4) == 10;
    assert Group(s[..1], Weekly) == [Point(3, 3)];
    assert Group(s[..2], Weekly) == Absorb([Point(3, 3)], 3, 4);
  }
}
