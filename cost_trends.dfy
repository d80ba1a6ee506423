/** The daily spend line (`chartData` in `CostTrendsChart`): one point per
    date holding that date's summed cost rounded to the cent, in date
    order, the last thirty kept. */
module CostTrends {
  import opened Common
  import opened Text
  import opened Sorting
  import opened Grouping
  import opened CostModel

  datatype Point = Point(date: string, cost: real)

  type DayTotal = Bucket<string, ()>

  function DateItems(costData: seq<CostDataPoint>): (r: seq<Item<string, ()>>)
    ensures |r| == |costData|
    ensures forall i :: 0 <= i < |costData| ==> r[i] == Item(costData[i].date, (), costData[i].cost)
  {
    seq(|costData|, i requires 0 <= i < |costData| => Item(costData[i].date, (), costData[i].cost))
  }

  /** The summed cost of the records of one date. */
  function DateCost(costData: seq<CostDataPoint>, date: string): real
  {
    TotalFor(DateItems(costData), date)
  }

  /** `{ date, cost: parseFloat(cost.toFixed(2)) }`. */
  function ToPoint(b: DayTotal): Point
  {
    Point(b.key, Round2(b.total))
  }

  /** `(a, b) => a.date.localeCompare(b.date)` on ISO dates. */
  function ByDate(a: Point, b: Point): bool
  {
    LexLe(a.date, b.date)
  }

  function ByKey(a: DayTotal, b: DayTotal): bool
  {
    LexLe(a.key, b.key)
  }

  /** `data`: every date's point, in date order. */
  function SortedPoints(costData: seq<CostDataPoint>): seq<Point>
  {
    Sort(MapSeq(Group(DateItems(costData)), ToPoint), ByDate)
  }

  /** `slice(-n)`. */
  function LastN<T>(s: seq<T>, n: nat): (r: seq<T>)
    ensures |r| <= n
    ensures |r| == if |s| <= n then |s| else n
    ensures r == s[|s| - |r|..]
  {
    if |s| <= n then s else s[|s| - n..]
  }

  /** The `chartData` memo. */
  function Trend(costData: seq<CostDataPoint>): seq<Point>
  {
    if costData == [] then [] else LastN(SortedPoints(costData), 30)
  }

  /** The memo with its `forEach` filling the per-date `Map`. */
  method ChartData(costData: seq<CostDataPoint>) returns (points: seq<Point>)
    ensures points == Trend(costData)
  {
    if |costData| == 0 {
      return [];
    }
    var totals := GroupInto(DateItems(costData));
    var data := Sort(MapSeq(totals, ToPoint), ByDate);
    if |data| <= 30 {
      return data;
    }
    return data[|data| - 30..];
  }

  lemma ByDateOrders()
    ensures TotalPreorder(ByDate)
  {
    forall a: Point, b: Point ensures ByDate(a, b) || ByDate(b, a) {
      LexLeTotal(a.date, b.date);
    }
    forall a: Point, b: Point, c: Point | ByDate(a, b) && ByDate(b, c) ensures ByDate(a, c) {
      LexLeTransitive(a.date, b.date, c.date);
    }
  }

  lemma SortedPointsAsTotals(costData: seq<CostDataPoint>)
    ensures SortedPoints(costData) == MapSeq(Sort(Group(DateItems(costData)), ByKey), ToPoint)
  {
    SortMap(Group(DateItems(costData)), ToPoint, ByKey, ByDate);
  }

  /** Each point is the rounded total of a date some record carries. */
  lemma PointEntry(costData: seq<CostDataPoint>, i: nat)
    requires i < |SortedPoints(costData)|
    ensures exists k :: 0 <= k < |costData| && costData[k].date == SortedPoints(costData)[i].date
    ensures SortedPoints(costData)[i].cost == Round2(DateCost(costData, SortedPoints(costData)[i].date))
  {
    var sorted := Sort(Group(DateItems(costData)), ByKey);
    SortedPointsAsTotals(costData);
    SortedGroup(DateItems(costData), ByKey);
    assert SortedPoints(costData)[i] == ToPoint(sorted[i]);
    assert sorted[i].key in KeysOf(DateItems(costData));
    var k :| 0 <= k < |DateItems(costData)| && DateItems(costData)[k].key == sorted[i].key;
  }

  /** Points come in strictly increasing date order: no date twice. */
  lemma PointsAscending(costData: seq<CostDataPoint>, i: nat, j: nat)
    requires i < j < |SortedPoints(costData)|
    ensures LexLe(SortedPoints(costData)[i].date, SortedPoints(costData)[j].date)
    ensures SortedPoints(costData)[i].date != SortedPoints(costData)[j].date
  {
    var group := Group(DateItems(costData));
    var sorted := Sort(group, ByKey);
    SortedPointsAsTotals(costData);
    GroupSpec(DateItems(costData));
    SortKeepsKeys(group, ByKey);
    ByDateOrders();
    SortSorted(MapSeq(group, ToPoint), ByDate);
    assert SortedPoints(costData)[i] == ToPoint(sorted[i]);
    assert SortedPoints(costData)[j] == ToPoint(sorted[j]);
  }

  /** Every record's date has its point. */
  lemma DateHasPoint(costData: seq<CostDataPoint>, k: nat) returns (i: nat)
    requires k < |costData|
    ensures i < |SortedPoints(costData)| && SortedPoints(costData)[i].date == costData[k].date
  {
    var sorted := Sort(Group(DateItems(costData)), ByKey);
    SortedPointsAsTotals(costData);
    SortedGroup(DateItems(costData), ByKey);
    assert DateItems(costData)[k].key == costData[k].date;
    assert costData[k].date in BucketKeys(sorted);
    i :| 0 <= i < |sorted| && sorted[i].key == costData[k].date;
  }

  /** The chart: empty without data, at most thirty points, the last points
      of the full date-ordered series. */
  lemma TrendSpec(costData: seq<CostDataPoint>)
    ensures costData == [] ==> Trend(costData) == []
    ensures |Trend(costData)| <= 30
    ensures costData != [] ==>
      var data := SortedPoints(costData);
      |Trend(costData)| == (if |data| <= 30 then |data| else 30)
      && Trend(costData) == data[|data| - |Trend(costData)|..]
  {
  }

  /** The thirty kept are the latest: a record whose date has no point on
      the chart is dated before every point shown. */
  lemma TrendKeepsLatest(costData: seq<CostDataPoint>, k: nat, j: nat)
    requires k < |costData| && j < |Trend(costData)|
    requires forall m :: 0 <= m < |Trend(costData)| ==> Trend(costData)[m].date != costData[k].date
    ensures LexLe(costData[k].date, Trend(costData)[j].date)
    ensures costData[k].date != Trend(costData)[j].date
  {
    var data := SortedPoints(costData);
    var i := DateHasPoint(costData, k);
    var start := |data| - |Trend(costData)|;
    assert Trend(costData) == data[start..];
    assert Trend(costData)[j] == data[start + j];
    assert i < start by {
      assert forall m :: start <= m < |data| ==> data[m] == Trend(costData)[m - start];
    }
    PointsAscending(costData, i, start + j);
  }
}
