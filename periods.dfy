/** The calendar windows the views select records by. `new Date(date)` is a
    parameter returning a time value, or None for an Invalid Date; the month
    boundaries computed from "now" are integer parameters. */
module Periods {
  import opened Common
  import opened CostModel

  type TimeParser = string -> Option<int>

  /** `new Date(date) >= start`: an Invalid Date compares false. */
  predicate OnOrAfter(parse: TimeParser, date: string, start: int)
  {
    parse(date).Some? && parse(date).value >= start
  }

  /** `new Date(date) >= lo && new Date(date) <= hi`. */
  predicate InWindow(parse: TimeParser, date: string, lo: int, hi: int)
  {
    parse(date).Some? && lo <= parse(date).value <= hi
  }

  function Since(parse: TimeParser, start: int): CostDataPoint -> bool
  {
    (p: CostDataPoint) => OnOrAfter(parse, p.date, start)
  }

  function Within(parse: TimeParser, lo: int, hi: int): CostDataPoint -> bool
  {
    (p: CostDataPoint) => InWindow(parse, p.date, lo, hi)
  }

  /** `costData.filter((d) => new Date(d.date) >= currentMonthStart)`. */
  function CurrentMonth(costData: seq<CostDataPoint>, parse: TimeParser, start: int): seq<CostDataPoint>
  {
    Filter(costData, Since(parse, start))
  }

  /** The records of the current month are exactly those, in order, whose
      date parses to a time at or after the month's start. */
  lemma CurrentMonthSpec(costData: seq<CostDataPoint>, parse: TimeParser, start: int) returns (idx: seq<nat>)
    ensures var r := CurrentMonth(costData, parse, start);
      |idx| == |r|
      && (forall j :: 0 <= j < |r| ==> idx[j] < |costData| && r[j] == costData[idx[j]] && OnOrAfter(parse, r[j].date, start))
      && (forall j, k :: 0 <= j < k < |idx| ==> idx[j] < idx[k])
      && (forall i :: 0 <= i < |costData| && OnOrAfter(parse, costData[i].date, start) ==> i in idx)
  {
    idx := FilterIndices(costData, Since(parse, start));
  }

  /** Selecting the month keeps costs non-negative. */
  lemma CurrentMonthNonNegative(costData: seq<CostDataPoint>, parse: TimeParser, start: int)
    requires forall i :: 0 <= i < |costData| ==> costData[i].cost >= 0.0
    ensures forall j :: 0 <= j < |CurrentMonth(costData, parse, start)| ==> CurrentMonth(costData, parse, start)[j].cost >= 0.0
  {
    var idx := CurrentMonthSpec(costData, parse, start);
  }
}
