/** The backend's rule-based savings advice (`generate_recommendations`):
    per-service totals ordered from the most expensive, three fixed rules for
    EC2, S3 and RDS, and a general rule for the three most expensive other
    services, numbered `"1"`, `"2"`, ... in the order they are found. */
module Recommendations {
  import opened Common
  import opened Text
  import opened Sorting
  import opened Grouping
  import opened CostModel
  import opened ByService

  /** The description of the advice for a service with a given total: the
      source's canned sentence with the amount formatted as `f'{x:.2f}'`. */
  type Describe = (string, real) -> string

  function ByName(a: ServiceTotal, b: ServiceTotal): bool
  {
    LexLe(a.key, b.key)
  }

  function ByTotalDescending(a: ServiceTotal, b: ServiceTotal): bool
  {
    a.total >= b.total
  }

  /** `df.groupby('service')['cost'].sum().sort_values(ascending=False)`:
      grouping orders the services by name, then they are ordered by total. */
  function ServiceTotals(costData: seq<CostDataPoint>): seq<ServiceTotal>
  {
    Sort(Sort(Group(ServiceItems(costData)), ByName), ByTotalDescending)
  }

  /** One entry per service present, holding that service's summed cost,
      from the largest total to the smallest. */
  lemma ServiceTotalsSpec(costData: seq<CostDataPoint>)
    ensures |ServiceTotals(costData)| <= |costData|
    ensures DistinctKeys(ServiceTotals(costData))
    ensures BucketKeys(ServiceTotals(costData)) == Services(costData)
    ensures forall i :: 0 <= i < |ServiceTotals(costData)| ==>
      ServiceTotals(costData)[i].total == ServiceCost(costData, ServiceTotals(costData)[i].key)
    ensures forall i, j :: 0 <= i < j < |ServiceTotals(costData)| ==>
      ServiceTotals(costData)[i].total >= ServiceTotals(costData)[j].total
  {
    ServiceTotalsKeys(costData);
    forall i | 0 <= i < |ServiceTotals(costData)|
      ensures ServiceTotals(costData)[i].total == ServiceCost(costData, ServiceTotals(costData)[i].key)
    {
      ServiceTotalsEntry(costData, i);
    }
    assert TotalPreorder(ByTotalDescending);
    SortSorted(Sort(Group(ServiceItems(costData)), ByName), ByTotalDescending);
  }

  lemma ServiceTotalsKeys(costData: seq<CostDataPoint>)
    ensures |ServiceTotals(costData)| <= |costData|
    ensures DistinctKeys(ServiceTotals(costData))
    ensures BucketKeys(ServiceTotals(costData)) == Services(costData)
  {
    var items := ServiceItems(costData);
    var byName := Sort(Group(items), ByName);
    GroupSpec(items);
    SortKeepsKeys(Group(items), ByName);
    SortKeepsKeys(byName, ByTotalDescending);
  }

  lemma ServiceTotalsEntry(costData: seq<CostDataPoint>, i: nat)
    requires i < |ServiceTotals(costData)|
    ensures ServiceTotals(costData)[i].total == ServiceCost(costData, ServiceTotals(costData)[i].key)
  {
    var items := ServiceItems(costData);
    var group := Group(items);
    var byName := Sort(group, ByName);
    var t := ServiceTotals(costData);
    SortPermutes(byName, ByTotalDescending);
    SortPermutes(group, ByName);
    GroupBuckets(items);
    assert t[i] in multiset(byName) by { assert t[i] in multiset(t); }
    var j :| 0 <= j < |byName| && byName[j] == t[i];
    assert byName[j] in multiset(group);
    var k :| 0 <= k < |group| && group[k] == t[i];
  }

  /** `service_totals[name]` where `name in service_totals`. */
  function TotalOf(totals: seq<ServiceTotal>, name: string): Option<real>
  {
    match IndexOf(totals, name)
    case None => None
    case Some(i) => Some(totals[i].total)
  }

  lemma TotalOfSpec(costData: seq<CostDataPoint>, name: string)
    ensures name in Services(costData) ==> TotalOf(ServiceTotals(costData), name) == Some(ServiceCost(costData, name))
    ensures name !in Services(costData) ==> TotalOf(ServiceTotals(costData), name) == None && ServiceCost(costData, name) == 0.0
  {
    ServiceTotalsSpec(costData);
    if name !in Services(costData) {
      TotalForAbsent(ServiceItems(costData), name);
    }
  }

  /** What a recommendation says, before it is numbered. */
  datatype Advice = Advice(
    title: string,
    description: string,
    savings: real,
    effort: Level,
    risk: Level,
    category: string)

  /** A fixed rule: advice when the service's total exceeds the threshold. */
  function RuleAdvice(totals: seq<ServiceTotal>, service: string, threshold: real, make: real -> Advice): seq<Advice>
  {
    match TotalOf(totals, service)
    case Some(t) => if t > threshold then [make(t)] else []
    case None => []
  }

  function Ec2Advice(describe: Describe, t: real): Advice
  {
    Advice(
      "Purchase EC2 Reserved Instances",
      describe("EC2", t),
      Round2(t * 0.4), Low, Low, "Computing")
  }

  function S3Advice(describe: Describe, t: real): Advice
  {
    Advice(
      "Enable S3 Intelligent Tiering",
      describe("S3", t),
      Round2(t * 0.25), Low, Low, "Storage")
  }

  function RdsAdvice(describe: Describe, t: real): Advice
  {
    Advice(
      "Right-size RDS Instances",
      describe("RDS", t),
      Round2(t * 0.3), Medium, Medium, "Database")
  }

  const SpecificServices: seq<string> := ["EC2", "S3", "RDS"]

  function OptimizeAdvice(describe: Describe, b: ServiceTotal): Advice
  {
    Advice(
      "Optimize " + b.key + " Usage",
      describe(b.key, b.total),
      Round2(b.total * 0.15), Medium, Low, "General")
  }

  /** The general rule for one of the most expensive services. */
  function GeneralAdvice(describe: Describe, b: ServiceTotal): Option<Advice>
  {
    if b.total > 200.0 && b.key !in SpecificServices then Some(OptimizeAdvice(describe, b)) else None
  }

  function Top(totals: seq<ServiceTotal>, n: nat): seq<ServiceTotal>
  {
    if |totals| <= n then totals else totals[..n]
  }

  function MakeEc2(describe: Describe): real -> Advice
  {
    t => Ec2Advice(describe, t)
  }

  function MakeS3(describe: Describe): real -> Advice
  {
    t => S3Advice(describe, t)
  }

  function MakeRds(describe: Describe): real -> Advice
  {
    t => RdsAdvice(describe, t)
  }

  /** The three fixed rules, in order. */
  function SpecificAdvice(totals: seq<ServiceTotal>, describe: Describe): (r: seq<Advice>)
    ensures |r| <= 3
  {
    RuleAdvice(totals, "EC2", 1000.0, MakeEc2(describe))
    + RuleAdvice(totals, "S3", 500.0, MakeS3(describe))
    + RuleAdvice(totals, "RDS", 800.0, MakeRds(describe))
  }

  function MakeGeneral(describe: Describe): ServiceTotal -> Option<Advice>
  {
    b => GeneralAdvice(describe, b)
  }

  /** Every piece of advice, in the order the rules run. */
  function AllAdvice(totals: seq<ServiceTotal>, describe: Describe): seq<Advice>
  {
    SpecificAdvice(totals, describe) + FilterMap(Top(totals, 3), MakeGeneral(describe))
  }

  /** The recommendation record for a piece of advice: id `str(id)`, status
      pending, created today. */
  function Entry(id: nat, a: Advice, today: string): Recommendation
  {
    Recommendation(NatToString(id), a.title, a.description, a.savings, a.effort, a.risk, a.category, Pending, today)
  }

  /** The advice as recommendations, numbered from 1 in order. */
  function Numbered(advice: seq<Advice>, today: string): (r: seq<Recommendation>)
    ensures |r| == |advice|
    ensures forall i :: 0 <= i < |advice| ==> r[i] == Entry(i + 1, advice[i], today)
  {
    seq(|advice|, i requires 0 <= i < |advice| => Entry(i + 1, advice[i], today))
  }

  /** `generate_recommendations`, the first eight of them. */
  function Recommend(costData: seq<CostDataPoint>, describe: Describe, today: string): seq<Recommendation>
  {
    if costData == [] then []
    else
      var r := Numbered(AllAdvice(ServiceTotals(costData), describe), today);
      if |r| <= 8 then r else r[..8]
  }

  lemma NumberedSnoc(advice: seq<Advice>, a: Advice, today: string)
    ensures Numbered(advice + [a], today) == Numbered(advice, today) + [Entry(|advice| + 1, a, today)]
  {
  }

  /** One fixed rule: when the service's total passes the threshold, bump
      the counter and append its record. */
  method FireRule(totals: seq<ServiceTotal>, service: string, threshold: real, make: real -> Advice, today: string,
                  recommendations: seq<Recommendation>, id: nat, ghost advice: seq<Advice>)
    returns (recommendations': seq<Recommendation>, id': nat)
    requires recommendations == Numbered(advice, today) && id == |recommendations|
    ensures recommendations' == Numbered(advice + RuleAdvice(totals, service, threshold, make), today)
    ensures id' == |recommendations'|
  {
    var total := TotalOf(totals, service);
    if total.Some? && total.value > threshold {
      id' := id + 1;
      recommendations' := recommendations + [Entry(id', make(total.value), today)];
      NumberedSnoc(advice, make(total.value), today);
    } else {
      recommendations', id' := recommendations, id;
      assert advice + [] == advice;
    }
  }

  /** The three fixed rules, EC2, S3 and RDS in that order. */
  method ApplyFixedRules(totals: seq<ServiceTotal>, describe: Describe, today: string)
    returns (recommendations: seq<Recommendation>, id: nat)
    ensures recommendations == Numbered(SpecificAdvice(totals, describe), today)
    ensures id == |recommendations|
  {
    ghost var e := RuleAdvice(totals, "EC2", 1000.0, MakeEc2(describe));
    ghost var s3 := RuleAdvice(totals, "S3", 500.0, MakeS3(describe));
    recommendations, id := FireRule(totals, "EC2", 1000.0, MakeEc2(describe), today, [], 0, []);
    assert [] + e == e;
    recommendations, id := FireRule(totals, "S3", 500.0, MakeS3(describe), today, recommendations, id, e);
    recommendations, id := FireRule(totals, "RDS", 800.0, MakeRds(describe), today, recommendations, id, e + s3);
  }

  /** The general rule for one of the largest services: bump the counter
      and append its record when it applies. */
  method FireGeneral(b: ServiceTotal, describe: Describe, today: string,
                     recommendations: seq<Recommendation>, id: nat, ghost advice: seq<Advice>)
    returns (recommendations': seq<Recommendation>, id': nat)
    requires recommendations == Numbered(advice, today) && id == |recommendations|
    ensures var g := GeneralAdvice(describe, b);
      recommendations' == Numbered(advice + (if g.Some? then [g.value] else []), today)
    ensures id' == |recommendations'|
  {
    if b.total > 200.0 && b.key !in SpecificServices {
      id' := id + 1;
      recommendations' := recommendations + [Entry(id', OptimizeAdvice(describe, b), today)];
      NumberedSnoc(advice, OptimizeAdvice(describe, b), today);
    } else {
      recommendations', id' := recommendations, id;
      assert advice + [] == advice;
    }
  }

  /** The loop over the three largest services, applying the general rule
      to each. */
  method ApplyGeneralRules(top: seq<ServiceTotal>, describe: Describe, today: string,
                           recommendations: seq<Recommendation>, id: nat, ghost advice: seq<Advice>)
    returns (recommendations': seq<Recommendation>)
    requires recommendations == Numbered(advice, today) && id == |recommendations|
    ensures recommendations' == Numbered(advice + FilterMap(top, MakeGeneral(describe)), today)
  {
    recommendations' := recommendations;
    var id' := id;
    var k := 0;
    while k < |top|
      invariant 0 <= k <= |top|
      invariant id' == |recommendations'|
      invariant recommendations' == Numbered(advice + FilterMap(top[..k], MakeGeneral(describe)), today)
    {
      ghost var before := advice + FilterMap(top[..k], MakeGeneral(describe));
      assert top[..k + 1] == top[..k] + [top[k]];
      FilterMapSnoc(top[..k], top[k], MakeGeneral(describe));
      recommendations', id' := FireGeneral(top[k], describe, today, recommendations', id', before);
      k := k + 1;
    }
    assert top[..|top|] == top;
  }

  /** The rules of `generate_recommendations` run over the service totals:
      the fixed rules, then the general rule for each of the three largest. */
  method ApplyRules(totals: seq<ServiceTotal>, describe: Describe, today: string)
    returns (recommendations: seq<Recommendation>)
    ensures recommendations == Numbered(AllAdvice(totals, describe), today)
  {
    var id;
    recommendations, id := ApplyFixedRules(totals, describe, today);
    recommendations := ApplyGeneralRules(Top(totals, 3), describe, today, recommendations, id, SpecificAdvice(totals, describe));
  }

  /** `generate_recommendations`: nothing for empty data, else the rules over
      the service totals, the first eight kept. */
  method GenerateRecommendations(costData: seq<CostDataPoint>, describe: Describe, today: string)
    returns (recommendations: seq<Recommendation>)
    ensures recommendations == Recommend(costData, describe, today)
  {
    if costData == [] {
      return [];
    }
    var totals := ServiceTotals(costData);
    recommendations := ApplyRules(totals, describe, today);
    if |recommendations| > 8 {
      recommendations := recommendations[..8];
    }
  }

  /** At most six recommendations (so the cap of eight never applies), none
      for empty data, numbered "1", "2", ... without repeats, all pending and
      dated today. */
  lemma RecommendShape(costData: seq<CostDataPoint>, describe: Describe, today: string)
    ensures costData == [] ==> Recommend(costData, describe, today) == []
    ensures |Recommend(costData, describe, today)| <= 6
    ensures forall i :: 0 <= i < |Recommend(costData, describe, today)| ==>
      var r := Recommend(costData, describe, today)[i];
      r.id == NatToString(i + 1) && r.status == Pending && r.createdAt == today
    ensures forall i, j :: 0 <= i < j < |Recommend(costData, describe, today)| ==>
      Recommend(costData, describe, today)[i].id != Recommend(costData, describe, today)[j].id
  {
    var r := Recommend(costData, describe, today);
    if costData != [] {
      var totals := ServiceTotals(costData);
      assert |FilterMap(Top(totals, 3), MakeGeneral(describe))| <= 3;
      assert r == Numbered(AllAdvice(totals, describe), today);
    }
    forall i, j | 0 <= i < j < |r| ensures r[i].id != r[j].id {
      NatToStringDistinct(i + 1, j + 1);
    }
  }

  /** Where each piece of advice comes from: its category names its rule. */
  lemma AdviceOrigin(totals: seq<ServiceTotal>, describe: Describe)
    ensures forall i :: 0 <= i < |AllAdvice(totals, describe)| ==>
      var a := AllAdvice(totals, describe)[i];
      && (a.category == "Computing" ==> RuleAdvice(totals, "EC2", 1000.0, MakeEc2(describe)) == [a])
      && (a.category == "Storage" ==> RuleAdvice(totals, "S3", 500.0, MakeS3(describe)) == [a])
      && (a.category == "Database" ==> RuleAdvice(totals, "RDS", 800.0, MakeRds(describe)) == [a])
      && (a.category == "General" ==> exists k :: 0 <= k < |Top(totals, 3)| && GeneralAdvice(describe, Top(totals, 3)[k]) == Some(a))
  {
    var e := RuleAdvice(totals, "EC2", 1000.0, MakeEc2(describe));
    var s3 := RuleAdvice(totals, "S3", 500.0, MakeS3(describe));
    var d := RuleAdvice(totals, "RDS", 800.0, MakeRds(describe));
    var top := Top(totals, 3);
    var g := FilterMap(top, MakeGeneral(describe));
    var idx := FilterMapIndices(top, MakeGeneral(describe));
    var all := AllAdvice(totals, describe);
    assert all == e + s3 + d + g;
    forall i | 0 <= i < |all|
      ensures all[i].category == "Computing" ==> e == [all[i]]
      ensures all[i].category == "Storage" ==> s3 == [all[i]]
      ensures all[i].category == "Database" ==> d == [all[i]]
      ensures all[i].category == "General" ==> exists k :: 0 <= k < |top| && GeneralAdvice(describe, top[k]) == Some(all[i])
    {
      if i < |e| {
        assert all[i] == e[i];
      } else if i < |e| + |s3| {
        assert all[i] == s3[i - |e|];
      } else if i < |e| + |s3| + |d| {
        assert all[i] == d[i - |e| - |s3|];
      } else {
        var j := i - |e| - |s3| - |d|;
        assert all[i] == g[j];
        assert GeneralAdvice(describe, top[idx[j]]) == Some(g[j]);
      }
    }
  }

  /** The EC2 rule fires exactly when the EC2 records cost more than 1000
      in all; its recommendation then comes first, with id "1" and 40% of
      that total as savings. */
  lemma Ec2Rule(costData: seq<CostDataPoint>, describe: Describe, today: string)
    ensures ServiceCost(costData, "EC2") > 1000.0 ==>
      var r := Recommend(costData, describe, today);
      && |r| > 0 && r[0].id == "1" && r[0].category == "Computing"
      && r[0].title == "Purchase EC2 Reserved Instances"
      && r[0].estimatedSavings == Round2(ServiceCost(costData, "EC2") * 0.4)
    ensures ServiceCost(costData, "EC2") <= 1000.0 ==>
      forall i :: 0 <= i < |Recommend(costData, describe, today)| ==>
        Recommend(costData, describe, today)[i].category != "Computing"
  {
    TotalOfSpec(costData, "EC2");
    if costData != [] {
      var totals := ServiceTotals(costData);
      AdviceOrigin(totals, describe);
      RecommendShape(costData, describe, today);
      assert Recommend(costData, describe, today) == Numbered(AllAdvice(totals, describe), today);
    }
  }

  /** The S3 rule fires exactly when the S3 records cost more than 500 in
      all, with a quarter of that total as savings. */
  lemma S3Rule(costData: seq<CostDataPoint>, describe: Describe, today: string)
    ensures ServiceCost(costData, "S3") > 500.0 ==>
      exists i :: 0 <= i < |Recommend(costData, describe, today)|
        && Recommend(costData, describe, today)[i].category == "Storage"
        && Recommend(costData, describe, today)[i].title == "Enable S3 Intelligent Tiering"
        && Recommend(costData, describe, today)[i].estimatedSavings == Round2(ServiceCost(costData, "S3") * 0.25)
    ensures ServiceCost(costData, "S3") <= 500.0 ==>
      forall i :: 0 <= i < |Recommend(costData, describe, today)| ==>
        Recommend(costData, describe, today)[i].category != "Storage"
  {
    TotalOfSpec(costData, "S3");
    if costData != [] {
      var totals := ServiceTotals(costData);
      AdviceOrigin(totals, describe);
      RecommendShape(costData, describe, today);
      var r := Recommend(costData, describe, today);
      assert r == Numbered(AllAdvice(totals, describe), today);
      var e := RuleAdvice(totals, "EC2", 1000.0, MakeEc2(describe));
      if ServiceCost(costData, "S3") > 500.0 {
        assert AllAdvice(totals, describe)[|e|] == S3Advice(describe, ServiceCost(costData, "S3"));
        assert r[|e|].category == "Storage";
      }
    }
  }

  /** The RDS rule fires exactly when the RDS records cost more than 800 in
      all, with 30% of that total as savings. */
  lemma RdsRule(costData: seq<CostDataPoint>, describe: Describe, today: string)
    ensures ServiceCost(costData, "RDS") > 800.0 ==>
      exists i :: 0 <= i < |Recommend(costData, describe, today)|
        && Recommend(costData, describe, today)[i].category == "Database"
        && Recommend(costData, describe, today)[i].title == "Right-size RDS Instances"
        && Recommend(costData, describe, today)[i].estimatedSavings == Round2(ServiceCost(costData, "RDS") * 0.3)
    ensures ServiceCost(costData, "RDS") <= 800.0 ==>
      forall i :: 0 <= i < |Recommend(costData, describe, today)| ==>
        Recommend(costData, describe, today)[i].category != "Database"
  {
    TotalOfSpec(costData, "RDS");
    if costData != [] {
      var totals := ServiceTotals(costData);
      AdviceOrigin(totals, describe);
      RecommendShape(costData, describe, today);
      var r := Recommend(costData, describe, today);
      assert r == Numbered(AllAdvice(totals, describe), today);
      var e := RuleAdvice(totals, "EC2", 1000.0, MakeEc2(describe));
      var s3 := RuleAdvice(totals, "S3", 500.0, MakeS3(describe));
      if ServiceCost(costData, "RDS") > 800.0 {
        assert AllAdvice(totals, describe)[|e| + |s3|] == RdsAdvice(describe, ServiceCost(costData, "RDS"));
        assert r[|e| + |s3|].category == "Database";
      }
    }
  }

  /** Each of the three largest services that passes the general rule gets
      its advice. */
  lemma GeneralAdviceGiven(totals: seq<ServiceTotal>, describe: Describe, k: nat)
    requires k < 3 && k < |totals| && totals[k].total > 200.0 && totals[k].key !in SpecificServices
    ensures exists i :: 0 <= i < |AllAdvice(totals, describe)|
                        && AllAdvice(totals, describe)[i] == OptimizeAdvice(describe, totals[k])
  {
    var top := Top(totals, 3);
    assert top[k] == totals[k];
    var spec := SpecificAdvice(totals, describe);
    var g := FilterMap(top, MakeGeneral(describe));
    assert AllAdvice(totals, describe) == spec + g;
    var idx := FilterMapIndices(top, MakeGeneral(describe));
    assert GeneralAdvice(describe, top[k]).Some?;
    var j :| 0 <= j < |idx| && idx[j] == k;
    assert AllAdvice(totals, describe)[|spec| + j] == g[j];
  }

  /** Recommendation `i` carries advice `i`. */
  lemma RecommendEntry(costData: seq<CostDataPoint>, describe: Describe, today: string, i: nat)
    requires i < |Recommend(costData, describe, today)|
    ensures costData != [] && i < |AllAdvice(ServiceTotals(costData), describe)|
    ensures Recommend(costData, describe, today)[i] == Entry(i + 1, AllAdvice(ServiceTotals(costData), describe)[i], today)
  {
  }

  /** General advice comes from one of the three largest services that
      passes the general rule. */
  lemma GeneralOrigin(totals: seq<ServiceTotal>, describe: Describe, i: nat) returns (k: nat)
    requires i < |AllAdvice(totals, describe)| && AllAdvice(totals, describe)[i].category == "General"
    ensures k < 3 && k < |totals| && totals[k].total > 200.0 && totals[k].key !in SpecificServices
    ensures AllAdvice(totals, describe)[i] == OptimizeAdvice(describe, totals[k])
  {
    var all := AllAdvice(totals, describe);
    var spec := SpecificAdvice(totals, describe);
    var top := Top(totals, 3);
    var g := FilterMap(top, MakeGeneral(describe));
    assert all == spec + g;
    forall m | 0 <= m < |spec| ensures all[m].category != "General" {
      assert all[m] == spec[m];
      SpecificCategory(totals, describe, m);
    }
    var idx := FilterMapIndices(top, MakeGeneral(describe));
    var j := i - |spec|;
    assert all[i] == g[j];
    k := idx[j];
    assert GeneralAdvice(describe, top[k]) == Some(g[j]);
    assert top[k] == totals[k];
  }

  /** The fixed rules never give general advice. */
  lemma SpecificCategory(totals: seq<ServiceTotal>, describe: Describe, m: nat)
    requires m < |SpecificAdvice(totals, describe)|
    ensures SpecificAdvice(totals, describe)[m].category in {"Computing", "Storage", "Database"}
  {
    var e := RuleAdvice(totals, "EC2", 1000.0, MakeEc2(describe));
    var s3 := RuleAdvice(totals, "S3", 500.0, MakeS3(describe));
    var d := RuleAdvice(totals, "RDS", 800.0, MakeRds(describe));
    var spec := SpecificAdvice(totals, describe);
    assert spec == e + s3 + d;
    if m < |e| {
      assert spec[m] == e[m];
    } else if m < |e| + |s3| {
      assert spec[m] == s3[m - |e|];
    } else {
      assert spec[m] == d[m - |e| - |s3|];
    }
  }

  /** General advice is only given for one of the three most expensive
      services, when it costs more than 200 and is not EC2, S3 or RDS, with
      15% of the service's total as savings. */
  lemma GeneralRuleSound(costData: seq<CostDataPoint>, describe: Describe, today: string, r: Recommendation)
    returns (k: nat, b: ServiceTotal, n: nat)
    requires r in Recommend(costData, describe, today) && r.category == "General"
    ensures k < 3 && k < |ServiceTotals(costData)| && ServiceTotals(costData)[k] == b
    ensures b.total > 200.0 && b.key !in SpecificServices
    ensures 1 <= n <= 8 && r == Entry(n, OptimizeAdvice(describe, b), today)
  {
    var i :| 0 <= i < |Recommend(costData, describe, today)| && Recommend(costData, describe, today)[i] == r;
    RecommendEntry(costData, describe, today, i);
    var totals := ServiceTotals(costData);
    k := GeneralOrigin(totals, describe, i);
    b := totals[k];
    n := i + 1;
  }

  /** Each of the three most expensive services that costs more than 200
      and is not EC2, S3 or RDS gets general advice. */
  lemma GeneralRuleComplete(costData: seq<CostDataPoint>, describe: Describe, today: string)
    ensures forall k :: 0 <= k < 3 && k < |ServiceTotals(costData)|
                        && ServiceTotals(costData)[k].total > 200.0
                        && ServiceTotals(costData)[k].key !in SpecificServices ==>
      exists i :: 0 <= i < |Recommend(costData, describe, today)|
        && Recommend(costData, describe, today)[i].category == "General"
        && Recommend(costData, describe, today)[i].title == "Optimize " + ServiceTotals(costData)[k].key + " Usage"
  {
    if costData != [] {
      var totals := ServiceTotals(costData);
      var r := Recommend(costData, describe, today);
      var all := AllAdvice(totals, describe);
      RecommendShape(costData, describe, today);
      assert r == Numbered(all, today);
      forall k | 0 <= k < 3 && k < |totals| && totals[k].total > 200.0 && totals[k].key !in SpecificServices
        ensures exists i :: 0 <= i < |r| && r[i].category == "General"
                            && r[i].title == "Optimize " + totals[k].key + " Usage"
      {
        GeneralAdviceGiven(totals, describe, k);
        var i :| 0 <= i < |all| && all[i] == OptimizeAdvice(describe, totals[k]);
        assert r[i] == Entry(i + 1, all[i], today);
      }
    }
  }
}
