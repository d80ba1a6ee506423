/** The pie chart of this month's spend by service (`chartData` in
    `ServiceBreakdown`): services ordered by their rounded totals, the eight
    largest kept and the rest folded into one "Other" slice. */
module ServiceBreakdown {
  import opened Common
  import opened Sorting
  import opened Grouping
  import opened CostModel
  import opened Periods
  import opened ByService

  datatype Slice = Slice(name: string, value: real)

  /** `{ name, value: parseFloat(value.toFixed(2)) }`. */
  function ToSlice(b: ServiceTotal): Slice
  {
    Slice(b.key, Round2(b.total))
  }

  /** `(a, b) => b.value - a.value`. */
  function ByValueDescending(a: Slice, b: Slice): bool
  {
    a.value >= b.value
  }

  /** The same order on service totals, by their rounded values. */
  function ByRoundedTotalDescending(a: ServiceTotal, b: ServiceTotal): bool
  {
    Round2(a.total) >= Round2(b.total)
  }

  function Values(slices: seq<Slice>): (r: seq<real>)
    ensures |r| == |slices|
    ensures forall i :: 0 <= i < |slices| ==> r[i] == slices[i].value
  {
    seq(|slices|, i requires 0 <= i < |slices| => slices[i].value)
  }

  /** `data`: one slice per service of the current month, largest first. */
  function SortedSlices(current: seq<CostDataPoint>): seq<Slice>
  {
    Sort(MapSeq(Group(ServiceItems(current)), ToSlice), ByValueDescending)
  }

  /** The eight largest slices, and "Other" with the rounded sum of the rest
      when that sum is positive. */
  function FoldOthers(data: seq<Slice>): seq<Slice>
  {
    if |data| > 8 then
      var othersTotal := Sum(Values(data[8..]));
      if othersTotal > 0.0 then data[..8] + [Slice("Other", Round2(othersTotal))] else data[..8]
    else data
  }

  /** The `chartData` memo. */
  function Breakdown(costData: seq<CostDataPoint>, parse: TimeParser, monthStart: int): seq<Slice>
  {
    if costData == [] then [] else FoldOthers(SortedSlices(CurrentMonth(costData, parse, monthStart)))
  }

  /** The memo with its `forEach` over the current month filling the
      per-service `Map`. */
  method ChartData(costData: seq<CostDataPoint>, parse: TimeParser, monthStart: int) returns (slices: seq<Slice>)
    ensures slices == Breakdown(costData, parse, monthStart)
  {
    if |costData| == 0 {
      return [];
    }
    var current := CurrentMonth(costData, parse, monthStart);
    var totals := GroupInto(ServiceItems(current));
    var data := Sort(MapSeq(totals, ToSlice), ByValueDescending);
    if |data| > 8 {
      var top8 := data[..8];
      var othersTotal := Sum(Values(data[8..]));
      if othersTotal > 0.0 {
        top8 := top8 + [Slice("Other", Round2(othersTotal))];
      }
      return top8;
    }
    return data;
  }

  /** The sorted slices are the service totals ordered by rounded value. */
  lemma SortedSlicesAsTotals(current: seq<CostDataPoint>)
    ensures SortedSlices(current) == MapSeq(Sort(Group(ServiceItems(current)), ByRoundedTotalDescending), ToSlice)
  {
    SortMap(Group(ServiceItems(current)), ToSlice, ByRoundedTotalDescending, ByValueDescending);
  }

  /** One slice per service of the current month, no name twice, each
      holding that service's summed cost rounded to the cent, from the
      largest value to the smallest. */
  lemma SortedSlicesSpec(current: seq<CostDataPoint>)
    ensures var data := SortedSlices(current);
      |data| <= |current|
      && (forall i, j :: 0 <= i < j < |data| ==> data[i].name != data[j].name)
      && (forall i :: 0 <= i < |data| ==> data[i].name in Services(current))
      && (forall s :: s in Services(current) ==> exists i :: 0 <= i < |data| && data[i].name == s)
      && (forall i :: 0 <= i < |data| ==> data[i].value == Round2(ServiceCost(current, data[i].name)))
      && (forall i, j :: 0 <= i < j < |data| ==> data[i].value >= data[j].value)
  {
    var data := SortedSlices(current);
    SortedSlicesLength(current);
    forall i | 0 <= i < |data|
      ensures data[i].name in Services(current) && data[i].value == Round2(ServiceCost(current, data[i].name))
    {
      SliceEntry(current, i);
    }
    forall i, j | 0 <= i < j < |data|
      ensures data[i].name != data[j].name && data[i].value >= data[j].value
    {
      SlicePair(current, i, j);
    }
    forall s | s in Services(current) ensures exists i :: 0 <= i < |data| && data[i].name == s {
      var i := ServiceHasSlice(current, s);
    }
  }

  lemma SortedSlicesLength(current: seq<CostDataPoint>)
    ensures |SortedSlices(current)| == |Group(ServiceItems(current))| <= |current|
  {
  }

  lemma SliceEntry(current: seq<CostDataPoint>, i: nat)
    requires i < |SortedSlices(current)|
    ensures SortedSlices(current)[i].name in Services(current)
    ensures SortedSlices(current)[i].value == Round2(ServiceCost(current, SortedSlices(current)[i].name))
  {
    var sorted := Sort(Group(ServiceItems(current)), ByRoundedTotalDescending);
    SortedSlicesAsTotals(current);
    SortedGroup(ServiceItems(current), ByRoundedTotalDescending);
    assert SortedSlices(current)[i] == ToSlice(sorted[i]);
  }

  lemma SlicePair(current: seq<CostDataPoint>, i: nat, j: nat)
    requires i < j < |SortedSlices(current)|
    ensures SortedSlices(current)[i].name != SortedSlices(current)[j].name
    ensures SortedSlices(current)[i].value >= SortedSlices(current)[j].value
  {
    var group := Group(ServiceItems(current));
    var sorted := Sort(group, ByRoundedTotalDescending);
    SortedSlicesAsTotals(current);
    GroupSpec(ServiceItems(current));
    SortKeepsKeys(group, ByRoundedTotalDescending);
    assert TotalPreorder(ByRoundedTotalDescending);
    SortSorted(group, ByRoundedTotalDescending);
    assert SortedSlices(current)[i] == ToSlice(sorted[i]);
    assert SortedSlices(current)[j] == ToSlice(sorted[j]);
  }

  lemma ServiceHasSlice(current: seq<CostDataPoint>, s: string) returns (i: nat)
    requires s in Services(current)
    ensures i < |SortedSlices(current)| && SortedSlices(current)[i].name == s
  {
    var sorted := Sort(Group(ServiceItems(current)), ByRoundedTotalDescending);
    SortedSlicesAsTotals(current);
    SortedGroup(ServiceItems(current), ByRoundedTotalDescending);
    assert s in BucketKeys(sorted);
    i :| 0 <= i < |sorted| && sorted[i].key == s;
  }

  /** The chart: empty without data; with eight services or fewer, the
      sorted slices themselves; with more, the eight largest followed by
      "Other" holding the rounded sum of the rest, present exactly when that
      sum is positive. */
  lemma BreakdownSpec(costData: seq<CostDataPoint>, parse: TimeParser, monthStart: int)
    ensures costData == [] ==> Breakdown(costData, parse, monthStart) == []
    ensures |Breakdown(costData, parse, monthStart)| <= 9
    ensures var data := SortedSlices(CurrentMonth(costData, parse, monthStart));
      var r := Breakdown(costData, parse, monthStart);
      costData != [] ==>
        (|data| <= 8 ==> r == data)
        && (|data| > 8 ==>
              r[..8] == data[..8]
              && (|r| == 9 <==> Sum(Values(data[8..])) > 0.0)
              && (|r| == 9 ==> r[8] == Slice("Other", Round2(Sum(Values(data[8..]))))))
  {
  }

  /** With non-negative costs the chart conserves the month's spend up to
      rounding: its slices add up to the current month's total within half a
      cent per service plus one for "Other". */
  lemma BreakdownConservesTotal(costData: seq<CostDataPoint>, parse: TimeParser, monthStart: int)
    requires costData != []
    requires forall i :: 0 <= i < |costData| ==> costData[i].cost >= 0.0
    ensures var current := CurrentMonth(costData, parse, monthStart);
      var slack := (|SortedSlices(current)| + 1) as real / 200.0;
      -slack <= Sum(Values(Breakdown(costData, parse, monthStart))) - Sum(Costs(current)) <= slack
  {
    SlicesCloseToMonth(CurrentMonth(costData, parse, monthStart));
    BreakdownCloseToSlices(costData, parse, monthStart);
  }

  /** Folding the tail into "Other" moves the chart's sum by at most the
      half cent of rounding "Other". */
  lemma BreakdownCloseToSlices(costData: seq<CostDataPoint>, parse: TimeParser, monthStart: int)
    requires costData != []
    requires forall i :: 0 <= i < |costData| ==> costData[i].cost >= 0.0
    ensures var data := SortedSlices(CurrentMonth(costData, parse, monthStart));
      -1.0 / 200.0 <= Sum(Values(Breakdown(costData, parse, monthStart))) - Sum(Values(data)) <= 1.0 / 200.0
  {
    var current := CurrentMonth(costData, parse, monthStart);
    if |SortedSlices(current)| > 8 {
      CurrentMonthNonNegative(costData, parse, monthStart);
      TailNonNegative(current, 8);
    }
    FoldOthersClose(SortedSlices(current));
  }

  /** With a non-negative tail, folding it moves the sum by at most half a
      cent: "Other" is the tail's sum rounded, or the tail sums to zero. */
  lemma FoldOthersClose(data: seq<Slice>)
    requires |data| > 8 ==> Sum(Values(data[8..])) >= 0.0
    ensures -1.0 / 200.0 <= Sum(Values(FoldOthers(data))) - Sum(Values(data)) <= 1.0 / 200.0
  {
    if |data| > 8 {
      var others := Sum(Values(data[8..]));
      assert Values(data) == Values(data[..8]) + Values(data[8..]);
      SumAppend(Values(data[..8]), Values(data[8..]));
      if others > 0.0 {
        assert Values(FoldOthers(data)) == Values(data[..8]) + [Round2(others)];
        SumAppend(Values(data[..8]), [Round2(others)]);
        SumSingleton(Round2(others));
      } else {
        assert Values(FoldOthers(data)) == Values(data[..8]);
      }
    }
  }

  /** Rounding each service's total moves the month's spend by at most half
      a cent per service. */
  lemma SlicesCloseToMonth(current: seq<CostDataPoint>)
    ensures var n := |SortedSlices(current)| as real;
      -n / 200.0 <= Sum(Values(SortedSlices(current))) - Sum(Costs(current)) <= n / 200.0
  {
    var items := ServiceItems(current);
    var group := Group(items);
    var sorted := Sort(group, ByRoundedTotalDescending);
    var data := SortedSlices(current);
    SortedSlicesAsTotals(current);
    var totals := Amounts(sorted, BucketTotal);
    assert forall i :: 0 <= i < |totals| ==> data[i] == ToSlice(sorted[i]);
    SumOfRoundedClose(totals, Values(data));
    SortKeepsTotal(group, ByRoundedTotalDescending, BucketTotal);
    GroupKeepsTotal(items);
    assert Amounts(items, ItemAmount) == Costs(current);
  }

  lemma TailNonNegative(current: seq<CostDataPoint>, k: nat)
    requires forall j :: 0 <= j < |current| ==> current[j].cost >= 0.0
    requires k <= |SortedSlices(current)|
    ensures Sum(Values(SortedSlices(current)[k..])) >= 0.0
  {
    var data := SortedSlices(current);
    forall i | 0 <= i < |data[k..]| ensures Values(data[k..])[i] >= 0.0 {
      assert data[k..][i] == data[k + i];
      SortedSlicesValueNonNegative(current, k + i);
    }
    SumNonNegative(Values(data[k..]));
  }

  lemma SortedSlicesValueNonNegative(current: seq<CostDataPoint>, i: nat)
    requires forall k :: 0 <= k < |current| ==> current[k].cost >= 0.0
    requires i < |SortedSlices(current)|
    ensures SortedSlices(current)[i].value >= 0.0
  {
    SortedSlicesSpec(current);
    var s := SortedSlices(current)[i].name;
    ServiceCostNonNegative(current, s);
  }

  lemma {:induction false} ServiceCostNonNegative(current: seq<CostDataPoint>, s: string)
    requires forall k :: 0 <= k < |current| ==> current[k].cost >= 0.0
    ensures ServiceCost(current, s) >= 0.0
  {
    if current != [] {
      var init := current[..|current| - 1];
      ServiceCostNonNegative(init, s);
      assert ServiceItems(current)[..|current| - 1] == ServiceItems(init);
    }
  }
}
