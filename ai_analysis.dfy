/** The client's stand-in for the AI service (`ai-analysis.ts`): the
    keyword dispatch that picks a canned answer, the analysis that returns
    fixed sample data, and the 30-day linear forecast. */
module AiAnalysis {
  import opened Common
  import opened Text
  import opened Sorting
  import opened Grouping
  import opened CostModel
  import CostTrends

  /** Which canned answer a question gets; the texts themselves are not
      modelled. */
  datatype Answer = S3Growth | Ec2Costs | SavingsPlan | ForecastSummary | MostExpensive | Overview

  predicate AsksS3Growth(q: string)
  {
    Contains(q, "s3") && (Contains(q, "double") || Contains(q, "increase"))
  }

  predicate AsksEc2(q: string)
  {
    Contains(q, "ec2") || Contains(q, "compute")
  }

  predicate AsksSavings(q: string)
  {
    Contains(q, "save") || Contains(q, "optimize") || Contains(q, "reduce")
  }

  predicate AsksForecast(q: string)
  {
    Contains(q, "forecast") || Contains(q, "predict") || Contains(q, "next month")
  }

  predicate AsksMostExpensive(q: string)
  {
    Contains(q, "most expensive") || Contains(q, "highest cost")
  }

  /** `answerCostQuestion`: the first keyword test that the lower-cased
      question passes picks the answer. The cost data is not consulted. */
  function AnswerCostQuestion(question: string, costData: seq<CostDataPoint>): Answer
  {
    var q := ToLower(question);
    if AsksS3Growth(q) then S3Growth
    else if AsksEc2(q) then Ec2Costs
    else if AsksSavings(q) then SavingsPlan
    else if AsksForecast(q) then ForecastSummary
    else if AsksMostExpensive(q) then MostExpensive
    else Overview
  }

  /** The tests in order, each answer exactly when its test passes and every
      earlier one fails. */
  lemma AnswerOrder(question: string, costData: seq<CostDataPoint>)
    ensures var q := ToLower(question); var a := AnswerCostQuestion(question, costData);
      (a == S3Growth <==> AsksS3Growth(q))
      && (a == Ec2Costs <==> !AsksS3Growth(q) && AsksEc2(q))
      && (a == SavingsPlan <==> !AsksS3Growth(q) && !AsksEc2(q) && AsksSavings(q))
      && (a == ForecastSummary <==> !AsksS3Growth(q) && !AsksEc2(q) && !AsksSavings(q) && AsksForecast(q))
      && (a == MostExpensive <==> !AsksS3Growth(q) && !AsksEc2(q) && !AsksSavings(q) && !AsksForecast(q) && AsksMostExpensive(q))
      && (a == Overview <==> !AsksS3Growth(q) && !AsksEc2(q) && !AsksSavings(q) && !AsksForecast(q) && !AsksMostExpensive(q))
  {
  }

  /** Matching ignores letter case: a question and its lower-cased form get
      the same answer. */
  lemma AnswerIgnoresCase(question: string, costData: seq<CostDataPoint>)
    ensures AnswerCostQuestion(ToLower(question), costData) == AnswerCostQuestion(question, costData)
  {
    ToLowerIdempotent(question);
  }

  /** The answer does not depend on the cost data. */
  lemma AnswerIgnoresData(question: string, a: seq<CostDataPoint>, b: seq<CostDataPoint>)
    ensures AnswerCostQuestion(question, a) == AnswerCostQuestion(question, b)
  {
  }

  /** "s3" alone, without "double" or "increase", does not get the S3
      answer; a question with "ec2" and "reduce" but no "s3" gets the EC2
      answer. */
  lemma AnswerExamples(question: string, costData: seq<CostDataPoint>)
    ensures var q := ToLower(question);
      !Contains(q, "double") && !Contains(q, "increase") ==> AnswerCostQuestion(question, costData) != S3Growth
    ensures var q := ToLower(question);
      !Contains(q, "s3") && Contains(q, "ec2") && Contains(q, "reduce") ==> AnswerCostQuestion(question, costData) == Ec2Costs
  {
  }

  /** The sample data `analyzeCostData` resolves to. */
  datatype Analysis = Analysis(anomalies: seq<Anomaly>, recommendations: seq<Recommendation>)

  /** `analyzeCostData`: the sample anomalies and recommendations, whatever
      the records. */
  function AnalyzeCostData(costData: seq<CostDataPoint>, sample: Analysis): Analysis
  {
    sample
  }

  lemma AnalyzeIgnoresData(a: seq<CostDataPoint>, b: seq<CostDataPoint>, sample: Analysis)
    ensures AnalyzeCostData(a, sample) == AnalyzeCostData(b, sample)
  {
  }

  /** The three aligned arrays of the forecast chart; `None` is `null`. */
  datatype Forecast = Forecast(dates: seq<string>, actual: seq<Option<real>>, forecast: seq<Option<real>>)

  /** `new Date(date)` moved `i` days ahead, as `YYYY-MM-DD`; None when the
      date is invalid (`toISOString` then throws). */
  type DayShift = (string, nat) -> Option<string>

  function KeyOf(b: CostTrends.DayTotal): string
  {
    b.key
  }

  /** `Array.from(dailyTotals.keys()).sort()`. */
  function SortedDates(costData: seq<CostDataPoint>): seq<string>
  {
    Sort(MapSeq(Group(CostTrends.DateItems(costData)), KeyOf), LexLe)
  }

  function DayCosts(costData: seq<CostDataPoint>, dates: seq<string>): (r: seq<real>)
    ensures |r| == |dates|
    ensures forall i :: 0 <= i < |dates| ==> r[i] == CostTrends.DateCost(costData, dates[i])
  {
    seq(|dates|, i requires 0 <= i < |dates| => CostTrends.DateCost(costData, dates[i]))
  }

  /** `Math.max(0, lastValue + trend * i + noise)`. */
  function ForecastValue(lastValue: real, trend: real, i: nat, noise: real): (r: real)
    ensures r >= 0.0
    ensures r >= lastValue + trend * (i as real) + noise
    ensures r == 0.0 || r == lastValue + trend * (i as real) + noise
  {
    var v := lastValue + trend * (i as real) + noise;
    if v > 0.0 then v else 0.0
  }

  function Nones<T>(n: nat): (r: seq<Option<T>>)
    ensures |r| == n
    ensures forall i :: 0 <= i < n ==> r[i] == None
  {
    seq(n, i => None)
  }

  function Somes<T>(s: seq<T>): (r: seq<Option<T>>)
    ensures |r| == |s|
    ensures forall i :: 0 <= i < |s| ==> r[i] == Some(s[i])
  {
    seq(|s|, i requires 0 <= i < |s| => Some(s[i]))
  }

  /** The first `k` forecast dates, or None once one is invalid. */
  function ShiftedDates(last: string, shift: DayShift, k: nat): Option<seq<string>>
  {
    if k == 0 then Some([])
    else match ShiftedDates(last, shift, k - 1)
      case None => None
      case Some(ds) => if shift(last, k).None? then None else Some(ds + [shift(last, k).value])
  }

  /** The first `k` forecast values; `noise(i)` stands for `(Math.random() -
      0.5) * 100` on day `i`. */
  function ForecastValues(lastValue: real, trend: real, noise: nat -> real, k: nat): (r: seq<real>)
    ensures |r| == k
  {
    if k == 0 then [] else ForecastValues(lastValue, trend, noise, k - 1) + [ForecastValue(lastValue, trend, k, noise(k))]
  }

  /** `generateCostForecast`: None when the promise rejects, which it does
      for empty data and for a date that does not parse. */
  function CostForecast(costData: seq<CostDataPoint>, shift: DayShift, noise: nat -> real): Option<Forecast>
  {
    var dates := SortedDates(costData);
    if dates == [] then None
    else
      var actual := DayCosts(costData, dates);
      var n := |actual|;
      match ShiftedDates(dates[n - 1], shift, 30)
      case None => None
      case Some(future) => Some(Assemble(dates, actual, future, ForecastValues(actual[n - 1], Trend(actual), noise, 30)))
  }

  /** `(actual[n - 1] - actual[0]) / n`. */
  function Trend(actual: seq<real>): real
    requires actual != []
  {
    (actual[|actual| - 1] - actual[0]) / (|actual| as real)
  }

  /** The chart's three arrays: the days of the data followed by the
      projected days. */
  function Assemble(dates: seq<string>, actual: seq<real>, future: seq<string>, values: seq<real>): Forecast
  {
    Forecast(dates + future, Somes(actual) + Nones(|future|), Nones(|dates|) + Somes(values))
  }

  /** The `for` loop pushing the thirty forecast dates and values; None
      as soon as a date is invalid. */
  method ProjectDays(last: string, lastValue: real, trend: real, shift: DayShift, noise: nat -> real)
    returns (days: Option<(seq<string>, seq<real>)>)
    ensures ShiftedDates(last, shift, 30).None? ==> days.None?
    ensures ShiftedDates(last, shift, 30).Some? ==>
      days == Some((ShiftedDates(last, shift, 30).value, ForecastValues(lastValue, trend, noise, 30)))
  {
    var forecastDates: seq<string> := [];
    var forecast: seq<real> := [];
    var i := 1;
    while i <= 30
      invariant 1 <= i <= 31
      invariant ShiftedDates(last, shift, i - 1) == Some(forecastDates)
      invariant forecast == ForecastValues(lastValue, trend, noise, i - 1)
    {
      var forecastDate := shift(last, i);
      if forecastDate.None? {
        NoneStaysNone(last, shift, i, 30);
        return None;
      }
      forecastDates := forecastDates + [forecastDate.value];
      forecast := forecast + [ForecastValue(lastValue, trend, i, noise(i))];
      i := i + 1;
    }
    days := Some((forecastDates, forecast));
  }

  lemma {:induction false} NoneStaysNone(last: string, shift: DayShift, k: nat, m: nat)
    requires 0 < k <= m
    requires ShiftedDates(last, shift, k - 1).Some? && shift(last, k).None?
    ensures ShiftedDates(last, shift, m).None?
  {
    if m > k {
      NoneStaysNone(last, shift, k, m - 1);
    }
  }

  /** The `forEach` filling `dailyTotals`, then its keys sorted. */
  method SortDays(costData: seq<CostDataPoint>) returns (sortedDates: seq<string>)
    ensures sortedDates == SortedDates(costData)
  {
    var dailyTotals := GroupInto(CostTrends.DateItems(costData));
    sortedDates := Sort(MapSeq(dailyTotals, KeyOf), LexLe);
  }

  /** The forecast with its `forEach` filling `dailyTotals` and its loop
      over the thirty days. */
  method GenerateCostForecast(costData: seq<CostDataPoint>, shift: DayShift, noise: nat -> real) returns (result: Option<Forecast>)
    ensures result == CostForecast(costData, shift, noise)
  {
    var sortedDates := SortDays(costData);
    if |sortedDates| == 0 {
      return None;
    }
    var actual := DayCosts(costData, sortedDates);
    var n := |actual|;
    var days := ProjectDays(sortedDates[n - 1], actual[n - 1], Trend(actual), shift, noise);
    if days.None? {
      return None;
    }
    result := Some(Assemble(sortedDates, actual, days.value.0, days.value.1));
  }

  lemma {:induction false} ForecastValuesNonNegative(lastValue: real, trend: real, noise: nat -> real, k: nat)
    ensures forall i :: 0 <= i < k ==>
      ForecastValues(lastValue, trend, noise, k)[i] == ForecastValue(lastValue, trend, i + 1, noise(i + 1))
      && ForecastValues(lastValue, trend, noise, k)[i] >= 0.0
  {
    if k > 0 {
      ForecastValuesNonNegative(lastValue, trend, noise, k - 1);
    }
  }

  lemma {:induction false} ShiftedDatesLength(last: string, shift: DayShift, k: nat)
    ensures ShiftedDates(last, shift, k).Some? ==> |ShiftedDates(last, shift, k).value| == k
  {
    if k > 0 {
      ShiftedDatesLength(last, shift, k - 1);
    }
  }

  /** There is no forecast without data. */
  lemma ForecastOfNoData(shift: DayShift, noise: nat -> real)
    ensures CostForecast([], shift, noise) == None
  {
    assert CostTrends.DateItems([]) == [];
    assert SortedDates([]) == [];
  }

  /** The three arrays are aligned: each has one entry per distinct date
      plus thirty; `actual` is filled for the dates of the data and
      `forecast` for the thirty days after, and every forecast value is at
      least zero whatever the noise. */
  lemma ForecastShape(costData: seq<CostDataPoint>, shift: DayShift, noise: nat -> real, f: Forecast)
    requires CostForecast(costData, shift, noise) == Some(f)
    ensures var n := |SortedDates(costData)|;
      n > 0
      && |f.dates| == |f.actual| == |f.forecast| == n + 30
      && f.dates[..n] == SortedDates(costData)
      && ShiftedDates(SortedDates(costData)[n - 1], shift, 30).Some?
      && f.dates[n..] == ShiftedDates(SortedDates(costData)[n - 1], shift, 30).value
      && (forall i :: 0 <= i < n ==> f.actual[i] == Some(CostTrends.DateCost(costData, f.dates[i])) && f.forecast[i].None?)
      && (forall i :: n <= i < n + 30 ==> f.actual[i].None? && f.forecast[i].Some? && f.forecast[i].value >= 0.0)
  {
    var dates := SortedDates(costData);
    var n := |dates|;
    var actual := DayCosts(costData, dates);
    var future := ShiftedDates(dates[n - 1], shift, 30);
    var values := ForecastValues(actual[n - 1], Trend(actual), noise, 30);
    assert f == Assemble(dates, actual, future.value, values);
    ShiftedDatesLength(dates[n - 1], shift, 30);
    ForecastValuesNonNegative(actual[n - 1], Trend(actual), noise, 30);
    Layout(dates, actual, future.value, values);
  }

  /** How the three arrays are put together from the days of the data and
      the thirty projected days. */
  lemma Layout(dates: seq<string>, actual: seq<real>, future: seq<string>, values: seq<real>)
    requires |actual| == |dates| && |future| == |values| == 30
    requires forall i :: 0 <= i < 30 ==> values[i] >= 0.0
    ensures var n := |dates|; var f := Assemble(dates, actual, future, values);
      |f.dates| == |f.actual| == |f.forecast| == n + 30
      && f.dates[..n] == dates && f.dates[n..] == future
      && (forall i :: 0 <= i < n ==> f.dates[i] == dates[i] && f.actual[i] == Some(actual[i]) && f.forecast[i].None?)
      && (forall i :: n <= i < n + 30 ==> f.actual[i].None? && f.forecast[i] == Some(values[i - n]) && values[i - n] >= 0.0)
  {
  }

  /** The dates of `actual` are the distinct dates of the records in
      increasing order. */
  lemma SortedDatesSpec(costData: seq<CostDataPoint>)
    ensures var dates := SortedDates(costData);
      (forall i, j :: 0 <= i < j < |dates| ==> LexLe(dates[i], dates[j]) && dates[i] != dates[j])
      && (forall k :: 0 <= k < |costData| ==> costData[k].date in dates)
      && (forall i :: 0 <= i < |dates| ==> exists k :: 0 <= k < |costData| && costData[k].date == dates[i])
  {
    var dates := SortedDates(costData);
    LexLeOrders();
    SortSorted(MapSeq(Group(CostTrends.DateItems(costData)), KeyOf), LexLe);
    forall i, j | 0 <= i < j < |dates| ensures dates[i] != dates[j] {
      DatesDistinct(costData, i, j);
    }
    forall k | 0 <= k < |costData| ensures costData[k].date in dates {
      var i := DateListed(costData, k);
    }
    forall i | 0 <= i < |dates| ensures exists k :: 0 <= k < |costData| && costData[k].date == dates[i] {
      var k := DateOrigin(costData, i);
    }
  }

  /** Every record's date is among the sorted dates. */
  lemma DateListed(costData: seq<CostDataPoint>, k: nat) returns (i: nat)
    requires k < |costData|
    ensures i < |SortedDates(costData)| && SortedDates(costData)[i] == costData[k].date
  {
    var items := CostTrends.DateItems(costData);
    var group := Group(items);
    var keys := MapSeq(group, KeyOf);
    var dates := SortedDates(costData);
    GroupSpec(items);
    SortPermutes(keys, LexLe);
    assert items[k].key == costData[k].date;
    assert costData[k].date in BucketKeys(group);
    var b :| 0 <= b < |group| && group[b].key == costData[k].date;
    assert keys[b] == costData[k].date;
    assert costData[k].date in multiset(dates);
    i :| 0 <= i < |dates| && dates[i] == costData[k].date;
  }

  /** Every sorted date is some record's date. */
  lemma DateOrigin(costData: seq<CostDataPoint>, i: nat) returns (k: nat)
    requires i < |SortedDates(costData)|
    ensures k < |costData| && costData[k].date == SortedDates(costData)[i]
  {
    var items := CostTrends.DateItems(costData);
    var group := Group(items);
    var keys := MapSeq(group, KeyOf);
    var dates := SortedDates(costData);
    GroupSpec(items);
    SortPermutes(keys, LexLe);
    assert dates[i] in multiset(keys);
    var b :| 0 <= b < |keys| && keys[b] == dates[i];
    assert group[b].key in KeysOf(items);
    k :| 0 <= k < |items| && items[k].key == group[b].key;
  }

  lemma DatesDistinct(costData: seq<CostDataPoint>, i: nat, j: nat)
    requires i < j < |SortedDates(costData)|
    ensures SortedDates(costData)[i] != SortedDates(costData)[j]
  {
    var items := CostTrends.DateItems(costData);
    var group := Group(items);
    var keys := MapSeq(group, KeyOf);
    GroupSpec(items);
    forall a, b | 0 <= a < b < |keys| ensures keys[a] != keys[b] {
      assert keys[a] == group[a].key && keys[b] == group[b].key;
    }
    SortKeepsDistinct(keys, LexLe, i, j);
  }
}
