/** The figures of the overview cards (`stats` in `CostOverview`): this
    month's and last month's spend, the change between them, and the
    anomaly counts. */
module CostOverview {
  import opened Common
  import opened CostModel
  import opened Periods

  /** The month boundaries derived from "now": the current month's start,
      the previous month's start and its last day. */
  datatype MonthBounds = MonthBounds(currentStart: int, previousStart: int, previousEnd: int)

  datatype Stats = Stats(
    currentMonth: real,
    previousMonth: real,
    change: real,
    changePercent: real,
    totalAnomalies: nat,
    highSeverityAnomalies: nat)

  function IsHigh(a: Anomaly): bool
  {
    a.severity == High
  }

  function PreviousMonth(costData: seq<CostDataPoint>, parse: TimeParser, bounds: MonthBounds): seq<CostDataPoint>
  {
    Filter(costData, Within(parse, bounds.previousStart, bounds.previousEnd))
  }

  /** The `stats` memo. */
  function ComputeStats(costData: seq<CostDataPoint>, anomalies: seq<Anomaly>, parse: TimeParser, bounds: MonthBounds): Stats
  {
    if costData == [] then Stats(0.0, 0.0, 0.0, 0.0, 0, 0)
    else
      var current := Sum(Costs(CurrentMonth(costData, parse, bounds.currentStart)));
      var previous := Sum(Costs(PreviousMonth(costData, parse, bounds)));
      var change := current - previous;
      Stats(current, previous, change,
            if previous > 0.0 then change / previous * 100.0 else 0.0,
            |anomalies|, |Filter(anomalies, IsHigh)|)
  }

  /** With no cost data every figure is zero, the anomaly counts included,
      however many anomalies the store holds. */
  lemma StatsWithoutData(anomalies: seq<Anomaly>, parse: TimeParser, bounds: MonthBounds)
    ensures ComputeStats([], anomalies, parse, bounds) == Stats(0.0, 0.0, 0.0, 0.0, 0, 0)
    ensures anomalies != [] ==> ComputeStats([], anomalies, parse, bounds).totalAnomalies != |anomalies|
  {
  }

  /** With data: the change is the difference of the two months, the
      percentage has the change's sign and is zero when last month's spend
      is not positive, and the high-severity count is at most the count of
      all anomalies. */
  lemma StatsSpec(costData: seq<CostDataPoint>, anomalies: seq<Anomaly>, parse: TimeParser, bounds: MonthBounds)
    requires costData != []
    ensures var s := ComputeStats(costData, anomalies, parse, bounds);
      s.change == s.currentMonth - s.previousMonth
      && (s.previousMonth > 0.0 ==> s.changePercent * s.previousMonth == s.change * 100.0)
      && (s.previousMonth > 0.0 ==> (s.changePercent > 0.0 <==> s.currentMonth > s.previousMonth))
      && (s.previousMonth <= 0.0 ==> s.changePercent == 0.0)
      && s.totalAnomalies == |anomalies|
      && s.highSeverityAnomalies <= s.totalAnomalies
      && (s.highSeverityAnomalies == s.totalAnomalies <==> forall i :: 0 <= i < |anomalies| ==> anomalies[i].severity == High)
  {
    HighCountIff(anomalies);
  }

  /** Every anomaly is counted as high exactly when all of them are high. */
  lemma {:induction false} HighCountIff(anomalies: seq<Anomaly>)
    ensures |Filter(anomalies, IsHigh)| == |anomalies| <==> forall i :: 0 <= i < |anomalies| ==> anomalies[i].severity == High
  {
    if anomalies != [] {
      var init := anomalies[..|anomalies| - 1];
      HighCountIff(init);
      assert forall i :: 0 <= i < |init| ==> init[i] == anomalies[i];
    }
  }

  /** The two windows are disjoint when last month ends before this month
      starts, so with non-negative costs the two figures together never
      exceed the spend over all records. */
  lemma {:induction false} MonthsWithinTotal(costData: seq<CostDataPoint>, parse: TimeParser, bounds: MonthBounds)
    requires bounds.previousEnd < bounds.currentStart
    requires forall i :: 0 <= i < |costData| ==> costData[i].cost >= 0.0
    ensures Sum(Costs(CurrentMonth(costData, parse, bounds.currentStart))) + Sum(Costs(PreviousMonth(costData, parse, bounds)))
         <= Sum(Costs(costData))
  {
    if costData != [] {
      var init := costData[..|costData| - 1];
      var p := costData[|costData| - 1];
      MonthsWithinTotal(init, parse, bounds);
      assert Costs(costData) == Costs(init) + [p.cost];
      SumAppend(Costs(init), [p.cost]);
      SumSingleton(p.cost);
      var cur := CurrentMonth(init, parse, bounds.currentStart);
      var prev := PreviousMonth(init, parse, bounds);
      assert costData == init + [p];
      FilterSnoc(init, p, Since(parse, bounds.currentStart));
      FilterSnoc(init, p, Within(parse, bounds.previousStart, bounds.previousEnd));
      if Since(parse, bounds.currentStart)(p) {
        assert !Within(parse, bounds.previousStart, bounds.previousEnd)(p);
        assert CurrentMonth(costData, parse, bounds.currentStart) == cur + [p];
        assert PreviousMonth(costData, parse, bounds) == prev;
        assert Costs(cur + [p]) == Costs(cur) + [p.cost];
        SumAppend(Costs(cur), [p.cost]);
      } else if Within(parse, bounds.previousStart, bounds.previousEnd)(p) {
        assert CurrentMonth(costData, parse, bounds.currentStart) == cur;
        assert PreviousMonth(costData, parse, bounds) == prev + [p];
        assert Costs(prev + [p]) == Costs(prev) + [p.cost];
        SumAppend(Costs(prev), [p.cost]);
      } else {
        assert CurrentMonth(costData, parse, bounds.currentStart) == cur;
        assert PreviousMonth(costData, parse, bounds) == prev;
      }
    }
  }

  /** A record dated outside both windows changes no figure. */
  lemma StatsIgnoreOtherRecords(costData: seq<CostDataPoint>, p: CostDataPoint, anomalies: seq<Anomaly>, parse: TimeParser, bounds: MonthBounds)
    requires costData != []
    requires !OnOrAfter(parse, p.date, bounds.currentStart)
    requires !InWindow(parse, p.date, bounds.previousStart, bounds.previousEnd)
    ensures ComputeStats(costData + [p], anomalies, parse, bounds) == ComputeStats(costData, anomalies, parse, bounds)
  {
    assert !Since(parse, bounds.currentStart)(p);
    assert !Within(parse, bounds.previousStart, bounds.previousEnd)(p);
    FilterSnoc(costData, p, Since(parse, bounds.currentStart));
    FilterSnoc(costData, p, Within(parse, bounds.previousStart, bounds.previousEnd));
    assert CurrentMonth(costData + [p], parse, bounds.currentStart) == CurrentMonth(costData, parse, bounds.currentStart);
    assert PreviousMonth(costData + [p], parse, bounds) == PreviousMonth(costData, parse, bounds);
  }
}
