/** The backend's spike detector (`generate_anomalies`): daily totals per
    (date, service); for each service with more than three daily totals, a
    daily total above both mean + 2 standard deviations and 50 is an
    anomaly, of high severity above mean + 3 standard deviations and of
    medium severity otherwise; the first ten are returned. */
module Anomalies {
  import opened Common
  import opened Text
  import opened Sorting
  import opened Grouping
  import opened CostModel

  /** A (date, summed cost) row of one service. */
  type Day = (string, real)

  /** A (date, service) pair and its summed cost. */
  type DailyTotal = Bucket<(string, string), ()>

  /** pandas' sample standard deviation of a service's daily totals. */
  type StdDev = seq<real> -> real

  /** The description of a spike: the source's sentence with the service,
      the day's total and the mean filled in. */
  type Describe = (string, real, real) -> string

  function DailyItems(costData: seq<CostDataPoint>): (r: seq<Item<(string, string), ()>>)
    ensures |r| == |costData|
    ensures forall i :: 0 <= i < |costData| ==> r[i] == Item((costData[i].date, costData[i].service), (), costData[i].cost)
  {
    seq(|costData|, i requires 0 <= i < |costData| => Item((costData[i].date, costData[i].service), (), costData[i].cost))
  }

  /** The summed cost of one service's records of one day. */
  function DayCost(costData: seq<CostDataPoint>, date: string, service: string): real
  {
    TotalFor(DailyItems(costData), (date, service))
  }

  function ByDateThenService(a: DailyTotal, b: DailyTotal): bool
  {
    if a.key.0 != b.key.0 then LexLe(a.key.0, b.key.0) else LexLe(a.key.1, b.key.1)
  }

  /** `df.groupby(['date', 'service'])['cost'].sum().reset_index()`. */
  function DailyTotals(costData: seq<CostDataPoint>): seq<DailyTotal>
  {
    Sort(Group(DailyItems(costData)), ByDateThenService)
  }

  /** `daily_totals['service'].unique()`. */
  function ServicesInOrder(daily: seq<DailyTotal>): seq<string>
  {
    Distinct(seq(|daily|, i requires 0 <= i < |daily| => daily[i].key.1))
  }

  /** Picks the (date, total) of the service's daily totals. */
  function OfService(service: string): DailyTotal -> Option<(string, real)>
  {
    (b: DailyTotal) => if b.key.1 == service then Some((b.key.0, b.total)) else None
  }

  /** `daily_totals[daily_totals['service'] == service]`: the service's
      (date, total) rows in order. */
  function SeriesOf(daily: seq<DailyTotal>, service: string): seq<(string, real)>
  {
    FilterMap(daily, OfService(service))
  }

  function SeriesCosts(series: seq<(string, real)>): (r: seq<real>)
    ensures |r| == |series|
    ensures forall i :: 0 <= i < |series| ==> r[i] == series[i].1
  {
    seq(|series|, i requires 0 <= i < |series| => series[i].1)
  }

  /** `.mean()`. */
  function Mean(xs: seq<real>): real
    requires |xs| > 0
  {
    Sum(xs) / (|xs| as real)
  }

  /** An anomaly before it gets its id and date of detection. */
  datatype Spike = Spike(date: string, service: string, severity: Level, description: string, impact: real)

  /** The severity rule for one daily total. */
  function SpikeOf(service: string, mean: real, std: real, describe: Describe, day: (string, real)): Option<Spike>
  {
    var (date, cost) := day;
    if cost > mean + 2.0 * std && cost > 50.0 then
      Some(Spike(date, service, if cost > mean + 3.0 * std then High else Medium,
                 describe(service, cost, mean), Round2(cost - mean)))
    else None
  }

  function DayRule(service: string, mean: real, std: real, describe: Describe): Day -> Option<Spike>
  {
    (day: Day) => SpikeOf(service, mean, std, describe, day)
  }

  /** The spikes of one service, none when it has three daily totals or fewer. */
  function ServiceSpikes(daily: seq<DailyTotal>, service: string, std: StdDev, describe: Describe): seq<Spike>
  {
    var series := SeriesOf(daily, service);
    if |series| > 3 then
      var costs := SeriesCosts(series);
      FilterMap(series, DayRule(service, Mean(costs), std(costs), describe))
    else []
  }

  /** The spikes of each service, in the order of `services`. */
  function PerService(daily: seq<DailyTotal>, services: seq<string>, std: StdDev, describe: Describe): (r: seq<seq<Spike>>)
    ensures |r| == |services|
    ensures forall k :: 0 <= k < |services| ==> r[k] == ServiceSpikes(daily, services[k], std, describe)
  {
    seq(|services|, k requires 0 <= k < |services| => ServiceSpikes(daily, services[k], std, describe))
  }

  /** The spikes of the services in order. */
  function AllSpikes(daily: seq<DailyTotal>, services: seq<string>, std: StdDev, describe: Describe): seq<Spike>
  {
    Concat(PerService(daily, services, std, describe))
  }

  /** The `i`-th anomaly found gets id `ids(i)` (a fresh UUID in the source)
      and today's date. */
  function Labelled(spikes: seq<Spike>, ids: nat -> string, today: string): (r: seq<Anomaly>)
    ensures |r| == |spikes|
    ensures forall i :: 0 <= i < |spikes| ==>
      r[i] == Anomaly(ids(i), spikes[i].date, spikes[i].service, spikes[i].severity, spikes[i].description, spikes[i].impact, today)
  {
    seq(|spikes|, i requires 0 <= i < |spikes| =>
      Anomaly(ids(i), spikes[i].date, spikes[i].service, spikes[i].severity, spikes[i].description, spikes[i].impact, today))
  }

  /** Every anomaly the scan finds, before the cut to ten. */
  function AllAnomalies(costData: seq<CostDataPoint>, std: StdDev, describe: Describe, ids: nat -> string, today: string): seq<Anomaly>
  {
    var daily := DailyTotals(costData);
    Labelled(AllSpikes(daily, ServicesInOrder(daily), std, describe), ids, today)
  }

  /** `generate_anomalies`: the first ten anomalies found. */
  function Detect(costData: seq<CostDataPoint>, std: StdDev, describe: Describe, ids: nat -> string, today: string): (r: seq<Anomaly>)
    ensures costData == [] ==> r == []
    ensures |r| <= 10
    ensures costData != [] ==> |r| == if |AllAnomalies(costData, std, describe, ids, today)| <= 10 then |AllAnomalies(costData, std, describe, ids, today)| else 10
    ensures forall i :: 0 <= i < |r| ==> r[i] == AllAnomalies(costData, std, describe, ids, today)[i]
  {
    if costData == [] then []
    else
      var a := AllAnomalies(costData, std, describe, ids, today);
      if |a| <= 10 then a else a[..10]
  }

  lemma LabelledSnoc(spikes: seq<Spike>, sp: Spike, ids: nat -> string, today: string)
    ensures Labelled(spikes + [sp], ids, today)
         == Labelled(spikes, ids, today) + [Anomaly(ids(|spikes|), sp.date, sp.service, sp.severity, sp.description, sp.impact, today)]
  {
  }

  lemma AllSpikesSnoc(daily: seq<DailyTotal>, services: seq<string>, s: nat, std: StdDev, describe: Describe)
    requires s < |services|
    ensures AllSpikes(daily, services[..s + 1], std, describe)
         == AllSpikes(daily, services[..s], std, describe) + ServiceSpikes(daily, services[s], std, describe)
  {
    var parts := PerService(daily, services[..s], std, describe);
    assert PerService(daily, services[..s + 1], std, describe) == parts + [ServiceSpikes(daily, services[s], std, describe)];
    ConcatSnoc(parts, ServiceSpikes(daily, services[s], std, describe));
  }

  /** One pass of the inner loop: the day's anomaly, if any, appended. */
  method ScanDay(day: Day, service: string, mean: real, sd: real, describe: Describe,
                 ids: nat -> string, today: string, ghost before: seq<Spike>, found: seq<Anomaly>)
    returns (next: seq<Anomaly>)
    requires found == Labelled(before, ids, today)
    ensures var spike := SpikeOf(service, mean, sd, describe, day);
      next == Labelled(before + (if spike.Some? then [spike.value] else []), ids, today)
  {
    var (date, cost) := day;
    if cost > mean + 2.0 * sd && cost > 50.0 {
      var severity := if cost > mean + 3.0 * sd then High else Medium;
      var sp := Spike(date, service, severity, describe(service, cost, mean), Round2(cost - mean));
      LabelledSnoc(before, sp, ids, today);
      next := found + [Anomaly(ids(|found|), date, service, severity, sp.description, sp.impact, today)];
    } else {
      assert before + [] == before;
      next := found;
    }
  }

  /** The inner loop over one service's series, appending to `found`. */
  method ScanSeries(series: seq<Day>, service: string, mean: real, sd: real, describe: Describe,
                    ids: nat -> string, today: string, ghost earlier: seq<Spike>, found: seq<Anomaly>)
    returns (anomalies: seq<Anomaly>)
    requires found == Labelled(earlier, ids, today)
    ensures anomalies == Labelled(earlier + FilterMap(series, DayRule(service, mean, sd, describe)), ids, today)
  {
    anomalies := found;
    ghost var rule := DayRule(service, mean, sd, describe);
    var j := 0;
    while j < |series|
      invariant 0 <= j <= |series|
      invariant anomalies == Labelled(earlier + FilterMap(series[..j], rule), ids, today)
    {
      ghost var before := earlier + FilterMap(series[..j], rule);
      FilterMapSnoc(series[..j], series[j], rule);
      assert series[..j + 1] == series[..j] + [series[j]];
      assert rule(series[j]) == SpikeOf(service, mean, sd, describe, series[j]);
      anomalies := ScanDay(series[j], service, mean, sd, describe, ids, today, before, anomalies);
      j := j + 1;
    }
    assert series[..j] == series;
  }

  /** One pass of the outer loop: the service's series, and the inner loop
      when it has more than three daily totals. */
  method ScanService(daily: seq<DailyTotal>, service: string, std: StdDev, describe: Describe,
                     ids: nat -> string, today: string, ghost earlier: seq<Spike>, found: seq<Anomaly>)
    returns (anomalies: seq<Anomaly>)
    requires found == Labelled(earlier, ids, today)
    ensures anomalies == Labelled(earlier + ServiceSpikes(daily, service, std, describe), ids, today)
  {
    var series := SeriesOf(daily, service);
    if |series| > 3 {
      var costs := SeriesCosts(series);
      anomalies := ScanSeries(series, service, Mean(costs), std(costs), describe, ids, today, earlier, found);
    } else {
      assert earlier + ServiceSpikes(daily, service, std, describe) == earlier;
      anomalies := found;
    }
  }

  /** `generate_anomalies`, loop by loop. */
  method GenerateAnomalies(costData: seq<CostDataPoint>, std: StdDev, describe: Describe, ids: nat -> string, today: string)
    returns (anomalies: seq<Anomaly>)
    ensures anomalies == Detect(costData, std, describe, ids, today)
  {
    if |costData| == 0 {
      return [];
    }
    var daily := DailyTotals(costData);
    var services := ServicesInOrder(daily);
    anomalies := [];
    var s := 0;
    while s < |services|
      invariant 0 <= s <= |services|
      invariant anomalies == Labelled(AllSpikes(daily, services[..s], std, describe), ids, today)
    {
      AllSpikesSnoc(daily, services, s, std, describe);
      anomalies := ScanService(daily, services[s], std, describe, ids, today,
                               AllSpikes(daily, services[..s], std, describe), anomalies);
      s := s + 1;
    }
    assert services[..s] == services;
    if |anomalies| > 10 {
      anomalies := anomalies[..10];
    }
  }

  /** Each entry of a service's series is the summed cost of that service's
      records on that date, and there is at least one such record. */
  lemma SeriesEntry(costData: seq<CostDataPoint>, service: string, d: nat)
    requires d < |SeriesOf(DailyTotals(costData), service)|
    ensures var day := SeriesOf(DailyTotals(costData), service)[d];
      (exists r :: 0 <= r < |costData| && costData[r].date == day.0 && costData[r].service == service)
      && day.1 == DayCost(costData, day.0, service)
  {
    var daily := DailyTotals(costData);
    var idx := FilterMapIndices(daily, OfService(service));
    var b := daily[idx[d]];
    SortedGroup(DailyItems(costData), ByDateThenService);
    assert b.key in KeysOf(DailyItems(costData));
    var items := DailyItems(costData);
    var r :| 0 <= r < |items| && items[r].key == b.key;
    assert costData[r].date == b.key.0 && costData[r].service == service;
  }

  /** No date appears twice in a service's series. */
  lemma SeriesDatesDistinct(costData: seq<CostDataPoint>, service: string, d: nat, e: nat)
    requires d < e < |SeriesOf(DailyTotals(costData), service)|
    ensures SeriesOf(DailyTotals(costData), service)[d].0 != SeriesOf(DailyTotals(costData), service)[e].0
  {
    var daily := DailyTotals(costData);
    var idx := FilterMapIndices(daily, OfService(service));
    SortedGroupKeysDistinct(DailyItems(costData), ByDateThenService, idx[d], idx[e]);
  }

  /** A spike records its day's date, the excess over the mean rounded to
      cents, and a severity that is high exactly above three standard
      deviations; the rule only fires above two standard deviations and 50. */
  lemma SpikeFacts(service: string, mean: real, sd: real, describe: Describe, day: Day, sp: Spike)
    requires SpikeOf(service, mean, sd, describe, day) == Some(sp)
    ensures sp.date == day.0 && sp.service == service
    ensures day.1 > mean + 2.0 * sd && day.1 > 50.0
    ensures (sp.severity == High <==> day.1 > mean + 3.0 * sd) && sp.severity != Low
    ensures sp.impact == Round2(day.1 - mean)
    ensures sp.description == describe(service, day.1, mean)
  {
  }

  /** Every anomaly reported is a daily total of a service with more than
      three daily totals that exceeds both the mean plus two standard
      deviations and 50; it is high exactly when it exceeds the mean plus
      three standard deviations, and never low. */
  lemma DetectSound(costData: seq<CostDataPoint>, std: StdDev, describe: Describe, ids: nat -> string, today: string, i: nat)
    returns (service: string, d: nat)
    requires i < |Detect(costData, std, describe, ids, today)|
    ensures var a := Detect(costData, std, describe, ids, today)[i];
      var series := SeriesOf(DailyTotals(costData), service);
      var costs := SeriesCosts(series);
      |series| > 3 && d < |series|
      && a.service == service && a.date == series[d].0
      && series[d].1 > Mean(costs) + 2.0 * std(costs) && series[d].1 > 50.0
      && (a.severity == High <==> series[d].1 > Mean(costs) + 3.0 * std(costs)) && a.severity != Low
      && a.description == describe(service, series[d].1, Mean(costs))
      && SpikeOf(service, Mean(costs), std(costs), describe, series[d]) == Some(Spike(a.date, a.service, a.severity, a.description, a.impact))
      && a.id == ids(i) && a.identified == today
  {
    var daily := DailyTotals(costData);
    var services := ServicesInOrder(daily);
    var k, j := ConcatOrigin(PerService(daily, services, std, describe), i);
    service := services[k];
    var series := SeriesOf(daily, service);
    var costs := SeriesCosts(series);
    var rule := DayRule(service, Mean(costs), std(costs), describe);
    var idx := FilterMapIndices(series, rule);
    d := idx[j];
    var sp := FilterMap(series, rule)[j];
    assert rule(series[d]) == Some(sp);
    assert Detect(costData, std, describe, ids, today)[i]
        == Anomaly(ids(i), sp.date, sp.service, sp.severity, sp.description, sp.impact, today);
  }

  /** A service with a daily total is among the services scanned. */
  lemma ServiceListed(daily: seq<DailyTotal>, service: string) returns (k: nat)
    requires |SeriesOf(daily, service)| > 0
    ensures k < |ServicesInOrder(daily)| && ServicesInOrder(daily)[k] == service
  {
    var didx := FilterMapIndices(daily, OfService(service));
    var names := seq(|daily|, n requires 0 <= n < |daily| => daily[n].key.1);
    assert names[didx[0]] == service;
    k :| 0 <= k < |ServicesInOrder(daily)| && ServicesInOrder(daily)[k] == service;
  }

  /** Every qualifying daily total is reported, at its place in the full
      scan; it is among the results unless ten anomalies precede it. */
  lemma DetectComplete(costData: seq<CostDataPoint>, std: StdDev, describe: Describe, ids: nat -> string, today: string,
                       service: string, d: nat)
    returns (i: nat)
    requires var series := SeriesOf(DailyTotals(costData), service);
      |series| > 3 && d < |series|
      && series[d].1 > Mean(SeriesCosts(series)) + 2.0 * std(SeriesCosts(series)) && series[d].1 > 50.0
    ensures var series := SeriesOf(DailyTotals(costData), service);
      i < |AllAnomalies(costData, std, describe, ids, today)|
      && AllAnomalies(costData, std, describe, ids, today)[i].service == service
      && AllAnomalies(costData, std, describe, ids, today)[i].date == series[d].0
    ensures i < 10 ==> i < |Detect(costData, std, describe, ids, today)|
  {
    var daily := DailyTotals(costData);
    var services := ServicesInOrder(daily);
    var series := SeriesOf(daily, service);
    var costs := SeriesCosts(series);
    var k := ServiceListed(daily, service);
    var rule := DayRule(service, Mean(costs), std(costs), describe);
    assert rule(series[d]).Some?;
    var p := FilterMapContains(series, rule, d);
    i := ConcatContains(PerService(daily, services, std, describe), k, p);
    assert costData != [];
  }

}
