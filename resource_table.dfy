/** The resource table (`ResourceTable`): this month's records merged per
    service, region and resource id, most expensive first; the service
    list for the filter; the service filter and the text search; and the
    first fifty rows shown. */
module ResourceTable {
  import opened Common
  import opened Text
  import opened Sorting
  import opened Grouping
  import opened CostModel
  import opened Periods

  datatype ResourceRow = ResourceRow(
    resourceId: string,
    service: string,
    region: string,
    cost: real,
    tags: Option<map<string, string>>)

  /** What a new row takes from the first record of its key. */
  datatype RowInfo = RowInfo(resourceId: string, service: string, region: string, tags: Option<map<string, string>>)

  type ResourceBucket = Bucket<string, RowInfo>

  /** `id || fallback`: an absent or empty id gives the fallback. */
  function OrDefault(id: Option<string>, fallback: string): string
  {
    if id.Some? && id.value != "" then id.value else fallback
  }

  /** `${service}-${region}-${resourceId || 'unknown'}`. */
  function ResourceKey(p: CostDataPoint): string
  {
    p.service + "-" + p.region + "-" + OrDefault(p.resourceId, "unknown")
  }

  function Info(p: CostDataPoint): RowInfo
  {
    RowInfo(OrDefault(p.resourceId, "N/A"), p.service, p.region, p.tags)
  }

  function ResourceItems(current: seq<CostDataPoint>): (r: seq<Item<string, RowInfo>>)
    ensures |r| == |current|
    ensures forall i :: 0 <= i < |current| ==> r[i] == Item(ResourceKey(current[i]), Info(current[i]), current[i].cost)
  {
    seq(|current|, i requires 0 <= i < |current| => Item(ResourceKey(current[i]), Info(current[i]), current[i].cost))
  }

  /** The summed cost of the records with one key. */
  function KeyCost(current: seq<CostDataPoint>, key: string): real
  {
    TotalFor(ResourceItems(current), key)
  }

  function ToRow(b: ResourceBucket): ResourceRow
  {
    ResourceRow(b.first.resourceId, b.first.service, b.first.region, b.total, b.first.tags)
  }

  /** `(a, b) => b.cost - a.cost`. */
  function ByCostDescending(a: ResourceRow, b: ResourceRow): bool
  {
    a.cost >= b.cost
  }

  function ByTotalDescending(a: ResourceBucket, b: ResourceBucket): bool
  {
    a.total >= b.total
  }

  /** The merged rows with their keys, most expensive first. */
  function SortedBuckets(current: seq<CostDataPoint>): seq<ResourceBucket>
  {
    Sort(Group(ResourceItems(current)), ByTotalDescending)
  }

  /** `aggregatedData`. */
  function Aggregated(costData: seq<CostDataPoint>, parse: TimeParser, monthStart: int): seq<ResourceRow>
  {
    if costData == [] then []
    else Sort(MapSeq(Group(ResourceItems(CurrentMonth(costData, parse, monthStart))), ToRow), ByCostDescending)
  }

  function ServiceOf(r: ResourceRow): string
  {
    r.service
  }

  /** `Array.from(new Set(aggregated.map((r) => r.service))).sort()`. */
  function ServiceList(rows: seq<ResourceRow>): seq<string>
  {
    Sort(Distinct(MapSeq(rows, ServiceOf)), LexLe)
  }

  /** `services`. */
  function Services(costData: seq<CostDataPoint>, parse: TimeParser, monthStart: int): seq<string>
  {
    if costData == [] then [] else ServiceList(Aggregated(costData, parse, monthStart))
  }

  /** The aggregation memo with its `forEach` filling `resourceMap`. */
  method AggregateResources(costData: seq<CostDataPoint>, parse: TimeParser, monthStart: int)
    returns (aggregated: seq<ResourceRow>, services: seq<string>)
    ensures aggregated == Aggregated(costData, parse, monthStart)
    ensures services == Services(costData, parse, monthStart)
  {
    if |costData| == 0 {
      return [], [];
    }
    var current := CurrentMonth(costData, parse, monthStart);
    var resourceMap := GroupInto(ResourceItems(current));
    aggregated := Sort(MapSeq(resourceMap, ToRow), ByCostDescending);
    services := ServiceList(aggregated);
  }

  /** The service filter of the table is the selected option's value; the
      string "all" stands for no filter, so a service named "all" cannot be
      told apart from it. */
  type ServiceFilter = string

  const AllServices: ServiceFilter := "all"

  function OfService(name: string): ResourceRow -> bool
  {
    (r: ResourceRow) => r.service == name
  }

  /** The case-insensitive search on resource id, service or region. */
  predicate MatchesSearch(r: ResourceRow, term: string)
  {
    Contains(ToLower(r.resourceId), term) || Contains(ToLower(r.service), term) || Contains(ToLower(r.region), term)
  }

  function Searching(term: string): ResourceRow -> bool
  {
    (r: ResourceRow) => MatchesSearch(r, term)
  }

  /** `filteredData`. */
  function Filtered(rows: seq<ResourceRow>, filter: ServiceFilter, searchTerm: string): seq<ResourceRow>
  {
    var byService := if filter == AllServices then rows else Filter(rows, OfService(filter));
    if searchTerm == "" then byService else Filter(byService, Searching(ToLower(searchTerm)))
  }

  /** `filteredData.slice(0, 50)`. */
  function Displayed(rows: seq<ResourceRow>): (r: seq<ResourceRow>)
    ensures |r| <= 50
    ensures |r| == if |rows| <= 50 then |rows| else 50
    ensures forall i :: 0 <= i < |r| ==> r[i] == rows[i]
  {
    if |rows| <= 50 then rows else rows[..50]
  }

  /** A row passes the filters exactly when its service is the one selected
      (or all are) and the lower-cased search term, if any, occurs in its
      lower-cased id, service or region. */
  predicate Passes(r: ResourceRow, filter: ServiceFilter, searchTerm: string)
  {
    (filter == AllServices || r.service == filter)
    && (searchTerm == "" || MatchesSearch(r, ToLower(searchTerm)))
  }

  lemma AggregatedAsBuckets(costData: seq<CostDataPoint>, parse: TimeParser, monthStart: int)
    requires costData != []
    ensures Aggregated(costData, parse, monthStart) == MapSeq(SortedBuckets(CurrentMonth(costData, parse, monthStart)), ToRow)
  {
    var current := CurrentMonth(costData, parse, monthStart);
    SortMap(Group(ResourceItems(current)), ToRow, ByTotalDescending, ByCostDescending);
  }

  /** The rows' keys are the keys of this month's records, each once. */
  lemma BucketsSpec(current: seq<CostDataPoint>)
    ensures |SortedBuckets(current)| <= |current|
    ensures DistinctKeys(SortedBuckets(current))
    ensures BucketKeys(SortedBuckets(current)) == KeysOf(ResourceItems(current))
  {
    SortedGroup(ResourceItems(current), ByTotalDescending);
  }

  /** Row `i` merges every record of this month with its key: its cost is
      their sum, and it shows the service, region, tags and resource id (or
      "N/A") of the first of them. */
  lemma RowEntry(costData: seq<CostDataPoint>, parse: TimeParser, monthStart: int, i: nat) returns (k: nat)
    requires costData != []
    requires i < |Aggregated(costData, parse, monthStart)|
    ensures var current := CurrentMonth(costData, parse, monthStart);
      var row := Aggregated(costData, parse, monthStart)[i];
      k < |current|
      && (forall m :: 0 <= m < k ==> ResourceKey(current[m]) != ResourceKey(current[k]))
      && row.cost == KeyCost(current, ResourceKey(current[k]))
      && row.service == current[k].service && row.region == current[k].region
      && row.tags == current[k].tags
      && row.resourceId == OrDefault(current[k].resourceId, "N/A")
  {
    var current := CurrentMonth(costData, parse, monthStart);
    var items := ResourceItems(current);
    var sorted := SortedBuckets(current);
    AggregatedAsBuckets(costData, parse, monthStart);
    SortedGroup(items, ByTotalDescending);
    var b := sorted[i];
    assert Aggregated(costData, parse, monthStart)[i] == ToRow(b);
    k := FirstWithIndex(items, b.key);
  }

  /** Two records of this month with the same key are merged into one row,
      and records with different keys are in different rows. */
  lemma SameKeySameRow(costData: seq<CostDataPoint>, parse: TimeParser, monthStart: int, k: nat) returns (i: nat)
    requires k < |CurrentMonth(costData, parse, monthStart)|
    ensures var current := CurrentMonth(costData, parse, monthStart);
      i < |SortedBuckets(current)| && SortedBuckets(current)[i].key == ResourceKey(current[k])
      && forall j :: 0 <= j < |SortedBuckets(current)| && j != i ==> SortedBuckets(current)[j].key != ResourceKey(current[k])
  {
    var current := CurrentMonth(costData, parse, monthStart);
    var sorted := SortedBuckets(current);
    BucketsSpec(current);
    assert ResourceItems(current)[k].key == ResourceKey(current[k]);
    assert ResourceKey(current[k]) in BucketKeys(sorted);
    i :| 0 <= i < |sorted| && sorted[i].key == ResourceKey(current[k]);
  }

  /** The key is not injective: a dash inside a region or resource id lets
      two different resources share one row. */
  lemma KeyCollision(cost1: real, cost2: real, date: string)
    ensures var p1 := CostDataPoint(date, "EC2", "us-east-1", cost1, None, Some("a"));
      var p2 := CostDataPoint(date, "EC2", "us-east", cost2, None, Some("1-a"));
      p1.region != p2.region && ResourceKey(p1) == ResourceKey(p2)
  {
    var p1 := CostDataPoint(date, "EC2", "us-east-1", cost1, None, Some("a"));
    var p2 := CostDataPoint(date, "EC2", "us-east", cost2, None, Some("1-a"));
    assert ResourceKey(p1) == "EC2" + "-" + "us-east-1" + "-" + "a";
    assert ResourceKey(p2) == "EC2" + "-" + "us-east" + "-" + "1-a";
    assert "us-east-1"[7] != "us-east"[6] || |"us-east-1"| != |"us-east"|;
  }

  /** The rows run from the most expensive down. */
  lemma AggregatedSorted(costData: seq<CostDataPoint>, parse: TimeParser, monthStart: int)
    ensures costData == [] ==> Aggregated(costData, parse, monthStart) == [] && Services(costData, parse, monthStart) == []
    ensures var rows := Aggregated(costData, parse, monthStart);
      forall i, j :: 0 <= i < j < |rows| ==> rows[i].cost >= rows[j].cost
  {
    if costData != [] {
      var current := CurrentMonth(costData, parse, monthStart);
      assert TotalPreorder(ByCostDescending);
      SortSorted(MapSeq(Group(ResourceItems(current)), ToRow), ByCostDescending);
    }
  }

  /** Together the rows cost what this month's records cost. */
  lemma AggregatedTotal(costData: seq<CostDataPoint>, parse: TimeParser, monthStart: int)
    requires costData != []
    ensures Sum(MapSeq(Aggregated(costData, parse, monthStart), RowCost)) == Sum(Costs(CurrentMonth(costData, parse, monthStart)))
  {
    var current := CurrentMonth(costData, parse, monthStart);
    var items := ResourceItems(current);
    var rows := Aggregated(costData, parse, monthStart);
    AggregatedAsBuckets(costData, parse, monthStart);
    var sorted := SortedBuckets(current);
    SortKeepsTotal(Group(items), ByTotalDescending, BucketTotal);
    GroupKeepsTotal(items);
    assert MapSeq(rows, RowCost) == Amounts(sorted, BucketTotal);
    assert Amounts(items, ItemAmount) == Costs(current);
  }

  function RowCost(r: ResourceRow): real
  {
    r.cost
  }

  /** The service list is in order, holds no service twice, and holds
      exactly the services of the rows. */
  lemma ServiceListSpec(rows: seq<ResourceRow>)
    ensures var names := ServiceList(rows);
      (forall i, j :: 0 <= i < j < |names| ==> LexLe(names[i], names[j]) && names[i] != names[j])
      && (forall i :: 0 <= i < |rows| ==> rows[i].service in names)
      && (forall i :: 0 <= i < |names| ==> exists k :: 0 <= k < |rows| && rows[k].service == names[i])
  {
    var names := ServiceList(rows);
    forall i, j | 0 <= i < j < |names| ensures LexLe(names[i], names[j]) && names[i] != names[j] {
      ServiceListPair(rows, i, j);
    }
    forall i | 0 <= i < |rows| ensures rows[i].service in names {
      RowServiceListed(rows, i);
    }
    forall i | 0 <= i < |names| ensures exists k :: 0 <= k < |rows| && rows[k].service == names[i] {
      var k := ListedServiceOrigin(rows, i);
    }
  }

  lemma ServiceListPair(rows: seq<ResourceRow>, i: nat, j: nat)
    requires i < j < |ServiceList(rows)|
    ensures LexLe(ServiceList(rows)[i], ServiceList(rows)[j]) && ServiceList(rows)[i] != ServiceList(rows)[j]
  {
    var unique := Distinct(MapSeq(rows, ServiceOf));
    LexLeOrders();
    SortSorted(unique, LexLe);
    SortKeepsDistinct(unique, LexLe, i, j);
  }

  lemma RowServiceListed(rows: seq<ResourceRow>, i: nat)
    requires i < |rows|
    ensures rows[i].service in ServiceList(rows)
  {
    var all := MapSeq(rows, ServiceOf);
    var unique := Distinct(all);
    SortPermutes(unique, LexLe);
    assert all[i] in unique;
    assert all[i] in multiset(unique);
    assert all[i] in multiset(ServiceList(rows));
  }

  lemma ListedServiceOrigin(rows: seq<ResourceRow>, i: nat) returns (k: nat)
    requires i < |ServiceList(rows)|
    ensures k < |rows| && rows[k].service == ServiceList(rows)[i]
  {
    var all := MapSeq(rows, ServiceOf);
    var unique := Distinct(all);
    var names := ServiceList(rows);
    SortPermutes(unique, LexLe);
    assert names[i] in multiset(names);
    assert names[i] in unique;
    assert names[i] in all;
    k :| 0 <= k < |all| && all[k] == names[i];
  }


  /** Filtering keeps the rows that pass, all of them, in their order; with
      no filter and no search it keeps every row. */
  lemma FilteredSpec(rows: seq<ResourceRow>, filter: ServiceFilter, searchTerm: string)
    ensures filter == AllServices && searchTerm == "" ==> Filtered(rows, filter, searchTerm) == rows
    ensures Filtered(rows, filter, searchTerm) == Filter(rows, Passing(filter, searchTerm))
  {
    var pass := Passing(filter, searchTerm);
    if filter == AllServices && searchTerm == "" {
      FilterKeepsAll(rows, pass);
    } else if filter == AllServices {
      FilterCongruent(rows, Searching(ToLower(searchTerm)), pass);
    } else if searchTerm == "" {
      FilterCongruent(rows, OfService(filter), pass);
    } else {
      FilterFilter(rows, OfService(filter), Searching(ToLower(searchTerm)), pass);
    }
  }

  function Passing(filter: ServiceFilter, searchTerm: string): ResourceRow -> bool
  {
    (r: ResourceRow) => Passes(r, filter, searchTerm)
  }

  /** Every row listed passes the filters. */
  lemma ListedRowPasses(rows: seq<ResourceRow>, filter: ServiceFilter, searchTerm: string, j: nat) returns (i: nat)
    requires j < |Filtered(rows, filter, searchTerm)|
    ensures i < |rows| && rows[i] == Filtered(rows, filter, searchTerm)[j] && Passes(rows[i], filter, searchTerm)
  {
    FilteredSpec(rows, filter, searchTerm);
    var idx := FilterIndices(rows, Passing(filter, searchTerm));
    i := idx[j];
  }

  /** Every row that passes the filters is listed, and rows keep their
      relative order. */
  lemma PassingRowListed(rows: seq<ResourceRow>, filter: ServiceFilter, searchTerm: string, i: nat) returns (j: nat)
    requires i < |rows| && Passes(rows[i], filter, searchTerm)
    ensures j < |Filtered(rows, filter, searchTerm)| && Filtered(rows, filter, searchTerm)[j] == rows[i]
  {
    FilteredSpec(rows, filter, searchTerm);
    var idx := FilterIndices(rows, Passing(filter, searchTerm));
    assert Passing(filter, searchTerm)(rows[i]);
    assert i in idx;
    j :| 0 <= j < |idx| && idx[j] == i;
  }

  /** Picking the option of a service named "all" selects the sentinel: the
      table then lists the other services' rows as well. */
  lemma AllServiceCollision(cost1: real, cost2: real)
    ensures var named := ResourceRow("i-1", "all", "us-east-1", cost1, None);
      var other := ResourceRow("i-2", "EC2", "us-east-1", cost2, None);
      var rows := [named, other];
      named.service in ServiceList(rows)
      && Filtered(rows, named.service, "") == rows
      && other.service != named.service
  {
    var named := ResourceRow("i-1", "all", "us-east-1", cost1, None);
    var other := ResourceRow("i-2", "EC2", "us-east-1", cost2, None);
    RowServiceListed([named, other], 0);
  }
}
