/** The client's CSV normalisation: every parsed row (column name to cell
    text) becomes at most one cost record. Each field is read from the first
    of a fixed list of column aliases whose cell is non-empty, with defaults
    for service, region and cost; rows without a date or with a cost that is
    not positive are dropped. */
module CsvParser {
  import opened Common
  import opened Text
  import opened CostModel

  /** A row as the CSV library hands it over: (column, cell) pairs in header
      order. A JavaScript object or a pandas row holds each column once; the
      model does not forbid a repeated column, and for one `Cell` reads its
      first pair while `TagMap` keeps its last. */
  type Row = seq<(string, string)>

  /** `row[column]`: the cell of that column, or `undefined` when the row has
      no such column. */
  function Cell(row: Row, column: string): (r: Option<string>)
    ensures r.None? <==> forall i :: 0 <= i < |row| ==> row[i].0 != column
    ensures r.Some? ==> exists i :: 0 <= i < |row| && row[i] == (column, r.value)
  {
    if row == [] then None
    else if row[0].0 == column then Some(row[0].1)
    else
      var r := Cell(row[1..], column);
      assert forall i :: 1 <= i < |row| ==> row[i] == row[1..][i - 1];
      r
  }

  /** A cell that JavaScript's `||` (and Python's `or`) treats as present: it
      exists and is not the empty string. */
  predicate Filled(c: Option<string>)
  {
    c.Some? && c.value != ""
  }

  /** `row[a1] || row[a2] || ...`: the first alias whose cell is filled. */
  function FirstPresent(row: Row, aliases: seq<string>): (r: Option<string>)
    ensures r.Some? ==> r.value != ""
    ensures r.Some? ==> exists k :: 0 <= k < |aliases| && Cell(row, aliases[k]) == r
    ensures r.None? <==> forall k :: 0 <= k < |aliases| ==> !Filled(Cell(row, aliases[k]))
  {
    if aliases == [] then None
    else if Filled(Cell(row, aliases[0])) then Cell(row, aliases[0])
    else
      var r := FirstPresent(row, aliases[1..]);
      assert forall k :: 1 <= k < |aliases| ==> aliases[k] == aliases[1..][k - 1];
      r
  }

  /** The cell of the first filled alias is the one taken. */
  lemma {:induction false} FirstPresentFirst(row: Row, aliases: seq<string>, k: nat)
    requires k < |aliases| && Filled(Cell(row, aliases[k]))
    requires forall j :: 0 <= j < k ==> !Filled(Cell(row, aliases[j]))
    ensures FirstPresent(row, aliases) == Cell(row, aliases[k])
  {
    if k > 0 {
      assert !Filled(Cell(row, aliases[0]));
      assert aliases[1..][k - 1] == aliases[k];
      forall j | 0 <= j < k - 1 ensures !Filled(Cell(row, aliases[1..][j])) {
        assert aliases[1..][j] == aliases[j + 1];
      }
      FirstPresentFirst(row, aliases[1..], k - 1);
    }
  }

  /** `row[a1] || ... || fallback`. */
  function FirstNonEmpty(row: Row, aliases: seq<string>, fallback: string): (r: string)
    ensures (forall k :: 0 <= k < |aliases| ==> !Filled(Cell(row, aliases[k]))) ==> r == fallback
    ensures r != fallback ==> exists k :: 0 <= k < |aliases| && Cell(row, aliases[k]) == Some(r)
    ensures fallback != "" ==> r != ""
  {
    match FirstPresent(row, aliases)
    case Some(v) => v
    case None => fallback
  }

  const DateColumns: seq<string> := ["lineItem/UsageStartDate", "UsageStartDate", "Date", "date"]
  const ServiceColumns: seq<string> := ["lineItem/ProductCode", "ProductCode", "Service", "service"]
  const RegionColumns: seq<string> := ["product/region", "Region", "region"]
  const CostColumns: seq<string> := ["lineItem/UnblendedCost", "UnblendedCost", "Cost", "cost"]
  const ResourceIdColumns: seq<string> := ["lineItem/ResourceId", "ResourceId"]

  /** The AWS product codes that get a short display name. */
  const ServiceNames: map<string, string> := map[
    "AmazonEC2" := "EC2",
    "AmazonS3" := "S3",
    "AmazonRDS" := "RDS",
    "AWSLambda" := "Lambda",
    "AmazonCloudFront" := "CloudFront",
    "AmazonDynamoDB" := "DynamoDB",
    "AmazonECS" := "ECS",
    "AmazonEKS" := "EKS",
    "AmazonElastiCache" := "ElastiCache",
    "AmazonVPC" := "VPC",
    "AmazonRoute53" := "Route53"]

  /** `serviceMap[service] || service`. */
  function NormalizeServiceName(service: string): (r: string)
    ensures service in ServiceNames ==> r == ServiceNames[service]
    ensures service !in ServiceNames ==> r == service
  {
    if service in ServiceNames && ServiceNames[service] != "" then ServiceNames[service] else service
  }

  /** No short name is itself a product code, so normalising twice changes
      nothing more than normalising once. */
  lemma NormalizeServiceNameIdempotent(service: string)
    ensures NormalizeServiceName(NormalizeServiceName(service)) == NormalizeServiceName(service)
  {
    if service in ServiceNames {
      assert ServiceNames[service] !in ServiceNames;
    }
  }

  /** A column the tag extraction looks at. */
  predicate IsTagColumn(column: string)
  {
    StartsWith(column, "resourceTags/") || StartsWith(column, "tag:")
  }

  /** `key.replace('resourceTags/', '').replace('tag:', '')`: each pattern's
      first occurrence is removed, wherever it stands. */
  function TagName(column: string): string
  {
    ReplaceFirst(ReplaceFirst(column, "resourceTags/", ""), "tag:", "")
  }

  /** The tags gathered from the row's columns in order, each filled tag
      column stored under the name `naming` gives it; a later column with the
      same tag name overwrites an earlier one. */
  function TagMap(row: Row, naming: string -> string): map<string, string>
  {
    if row == [] then map[]
    else
      var m := TagMap(row[..|row| - 1], naming);
      var (column, value) := row[|row| - 1];
      if IsTagColumn(column) && value != "" then m[naming(column) := value] else m
  }

  /** A column that contributes a tag. */
  predicate TagSource(row: Row, i: int)
  {
    0 <= i < |row| && IsTagColumn(row[i].0) && row[i].1 != ""
  }

  /** The tag record, or nothing when it would be empty. */
  function Tags(row: Row, naming: string -> string): Option<map<string, string>>
  {
    var m := TagMap(row, naming);
    if |m| > 0 then Some(m) else None
  }

  /** A name is a tag exactly when some filled tag column produces it. */
  lemma {:induction false} TagMapKeys(row: Row, naming: string -> string, name: string)
    ensures name in TagMap(row, naming) <==> exists i :: TagSource(row, i) && naming(row[i].0) == name
  {
    if row != [] {
      var init := row[..|row| - 1];
      TagMapKeys(init, naming, name);
      assert forall i :: TagSource(init, i) <==> TagSource(row, i) && i < |init| by {
        assert forall i :: 0 <= i < |init| ==> init[i] == row[i];
      }
    }
  }

  /** The value of a tag is the cell of the last filled tag column that
      produces its name. */
  lemma {:induction false} TagMapValue(row: Row, naming: string -> string, i: nat)
    requires TagSource(row, i)
    requires forall j :: i < j < |row| && TagSource(row, j) ==> naming(row[j].0) != naming(row[i].0)
    ensures naming(row[i].0) in TagMap(row, naming) && TagMap(row, naming)[naming(row[i].0)] == row[i].1
  {
    var init := row[..|row| - 1];
    var (column, value) := row[|row| - 1];
    if i < |init| {
      assert init[i] == row[i];
      assert forall j :: i < j < |init| ==> init[j] == row[j];
      TagMapValue(init, naming, i);
    }
  }

  /** No tags at all exactly when no tag column is filled. */
  lemma TagsNoneIff(row: Row, naming: string -> string)
    ensures Tags(row, naming).None? <==> forall i :: 0 <= i < |row| ==> !TagSource(row, i)
  {
    if exists i :: 0 <= i < |row| && TagSource(row, i) {
      var i :| 0 <= i < |row| && TagSource(row, i);
      TagMapKeys(row, naming, naming(row[i].0));
      assert naming(row[i].0) in TagMap(row, naming);
    } else if |TagMap(row, naming)| > 0 {
      var name :| name in TagMap(row, naming);
      TagMapKeys(row, naming, name);
    }
  }

  /** Two namings that agree on every filled tag column give the same tags. */
  lemma {:induction false} TagMapCongruent(row: Row, f: string -> string, g: string -> string)
    requires forall i :: TagSource(row, i) ==> f(row[i].0) == g(row[i].0)
    ensures TagMap(row, f) == TagMap(row, g)
  {
    if row != [] {
      var init := row[..|row| - 1];
      assert forall i :: TagSource(init, i) ==> TagSource(row, i) && init[i] == row[i];
      TagMapCongruent(init, f, g);
      assert TagSource(row, |row| - 1) ==> f(row[|row| - 1].0) == g(row[|row| - 1].0);
    }
  }

  /** For the usual column names the tag name is the column without its
      prefix; the replacements only reach further when the rest of the name
      contains the other pattern. */
  lemma TagNameStripsPrefix(column: string)
    ensures StartsWith(column, "resourceTags/") && !Contains(column[13..], "tag:")
            ==> TagName(column) == column[13..]
    ensures StartsWith(column, "tag:") && !Contains(column[4..], "resourceTags/")
            ==> TagName(column) == column[4..]
  {
    if StartsWith(column, "resourceTags/") {
      ReplaceFirstAtStart(column, "resourceTags/");
    }
    if StartsWith(column, "tag:") && !Contains(column[4..], "resourceTags/") {
      forall j | 0 <= j ensures !OccursAt(column, "resourceTags/", j) {
        if j < 4 {
          assert column[j] == "tag:"[j];
          NotOccursAtFirstChar(column, "resourceTags/", j);
        } else {
          assert OccursAt(column, "resourceTags/", j) ==> OccursAt(column[4..], "resourceTags/", j - 4) by {
            if j + 13 <= |column| {
              assert column[4..][j - 4..j - 4 + 13] == column[j..j + 13];
            }
          }
          ContainsIff(column[4..], "resourceTags/");
        }
      }
      ContainsIff(column, "resourceTags/");
      ReplaceFirstAtStart(column, "tag:");
    }
  }

  /** `tagName` removes a second pattern inside the name too: for example
      "resourceTags/user:tag:team" becomes "user:team". */
  lemma TagNameInnerPattern(p: string, q: string)
    requires 't' !in p
    ensures TagName("resourceTags/" + p + "tag:" + q) == p + q
  {
    PrefixRemoved("resourceTags/", p + "tag:" + q);
    assert "resourceTags/" + p + "tag:" + q == "resourceTags/" + (p + "tag:" + q);
    InnerTagRemoved(p, q);
  }

  lemma PrefixRemoved(prefix: string, rest: string)
    requires |prefix| > 0
    ensures ReplaceFirst(prefix + rest, prefix, "") == rest
  {
    assert (prefix + rest)[..|prefix|] == prefix;
    ReplaceFirstAtStart(prefix + rest, prefix);
    assert (prefix + rest)[|prefix|..] == rest;
  }

  lemma InnerTagRemoved(p: string, q: string)
    requires 't' !in p
    ensures ReplaceFirst(p + "tag:" + q, "tag:", "") == p + q
  {
    var s := p + "tag:" + q;
    forall j | 0 <= j < |p| ensures !OccursAt(s, "tag:", j) {
      assert s[j] == p[j];
      NotOccursAtFirstChar(s, "tag:", j);
    }
    assert s[|p|..|p| + 4] == "tag:";
    FindFromFirst(s, "tag:", 0, |p|);
    assert s[..|p|] == p;
    assert s[|p| + 4..] == q;
  }

  /** The `forEach` over the row's keys that fills the tag record. */
  method ExtractTags(row: Row) returns (tags: Option<map<string, string>>)
    ensures tags == Tags(row, TagName)
  {
    var m: map<string, string> := map[];
    var i := 0;
    while i < |row|
      invariant 0 <= i <= |row|
      invariant m == TagMap(row[..i], TagName)
    {
      assert row[..i + 1][..i] == row[..i];
      var (column, value) := row[i];
      if IsTagColumn(column) {
        var name := TagName(column);
        if value != "" {
          m := m[name := value];
        }
      }
      i := i + 1;
    }
    assert row[..|row|] == row;
    tags := if |m| > 0 then Some(m) else None;
  }

  /** A date library: the client's `new Date(s)` turned back into
      `YYYY-MM-DD`, or the backend's `pd.to_datetime(s).strftime`; nothing
      for an invalid date. Each side's library is a parameter of the model. */
  type DateParser = string -> Option<string>

  /** A number parser: the client's `parseFloat(s)` (nothing where it gives
      NaN) or the backend's `float(s)` (nothing where it raises). */
  type NumberParser = string -> Option<real>

  /** `normalizeDate`: the calendar date when the text parses, else the text. */
  function NormalizeDate(toIsoDate: DateParser, s: string): (r: string)
    ensures toIsoDate(s).None? ==> r == s
    ensures toIsoDate(s).Some? ==> r == toIsoDate(s).value
  {
    match toIsoDate(s)
    case Some(d) => d
    case None => s
  }

  /** `parseFloat(costStr) || 0`. */
  function ParseCost(parse: NumberParser, s: string): real
  {
    match parse(s)
    case Some(x) => x
    case None => 0.0
  }

  /** The record one row yields, if it is kept. */
  function RowToPoint(row: Row, parse: NumberParser, toIsoDate: DateParser): Option<CostDataPoint>
  {
    var date := FirstNonEmpty(row, DateColumns, "");
    var service := FirstNonEmpty(row, ServiceColumns, "Unknown");
    var region := FirstNonEmpty(row, RegionColumns, "global");
    var cost := ParseCost(parse, FirstNonEmpty(row, CostColumns, "0"));
    if date != "" && cost > 0.0 then
      Some(CostDataPoint(
        NormalizeDate(toIsoDate, date),
        NormalizeServiceName(service),
        if region != "" then region else "global",
        Round2(cost),
        Tags(row, TagName),
        FirstPresent(row, ResourceIdColumns)))
    else None
  }

  /** The records of all rows, in row order. */
  function Transform(rows: seq<Row>, parse: NumberParser, toIsoDate: DateParser): seq<CostDataPoint>
  {
    FilterMap(rows, row => RowToPoint(row, parse, toIsoDate))
  }

  /** `transformToCostData`: the `forEach` that pushes one record per kept row. */
  method TransformToCostData(rows: seq<Row>, parse: NumberParser, toIsoDate: DateParser)
    returns (costData: seq<CostDataPoint>)
    ensures costData == Transform(rows, parse, toIsoDate)
  {
    costData := [];
    var n := 0;
    while n < |rows|
      invariant 0 <= n <= |rows|
      invariant costData == Transform(rows[..n], parse, toIsoDate)
    {
      var row := rows[n];
      assert rows[..n + 1][..n] == rows[..n];
      var date := FirstNonEmpty(row, DateColumns, "");
      var service := FirstNonEmpty(row, ServiceColumns, "Unknown");
      var region := FirstNonEmpty(row, RegionColumns, "global");
      var costStr := FirstNonEmpty(row, CostColumns, "0");
      var cost := ParseCost(parse, costStr);
      if date != "" && cost > 0.0 {
        var tags := ExtractTags(row);
        costData := costData + [CostDataPoint(
          NormalizeDate(toIsoDate, date),
          NormalizeServiceName(service),
          if region != "" then region else "global",
          Round2(cost),
          tags,
          FirstPresent(row, ResourceIdColumns))];
      }
      n := n + 1;
    }
    assert rows[..|rows|] == rows;
  }

  /** A row is kept exactly when one of its date columns is filled and its
      cost parses to a positive amount. */
  lemma RowKept(row: Row, parse: NumberParser, toIsoDate: DateParser)
    ensures RowToPoint(row, parse, toIsoDate).Some? <==>
      (exists k :: 0 <= k < |DateColumns| && Filled(Cell(row, DateColumns[k])))
      && ParseCost(parse, FirstNonEmpty(row, CostColumns, "0")) > 0.0
  {
    if exists k :: 0 <= k < |DateColumns| && Filled(Cell(row, DateColumns[k])) {
      var k :| 0 <= k < |DateColumns| && Filled(Cell(row, DateColumns[k]));
      assert FirstPresent(row, DateColumns).Some?;
    }
  }

  /** A kept record carries the rounded, non-negative cost, a non-empty
      service and region, and the row's tags. */
  lemma RowRecord(row: Row, parse: NumberParser, toIsoDate: DateParser)
    requires RowToPoint(row, parse, toIsoDate).Some?
    ensures var p := RowToPoint(row, parse, toIsoDate).value;
      && p.cost == Round2(ParseCost(parse, FirstNonEmpty(row, CostColumns, "0")))
      && p.cost >= 0.0
      && p.service != "" && p.region != ""
      && p.tags == Tags(row, TagName)
  {
    var s := FirstNonEmpty(row, ServiceColumns, "Unknown");
    var region := FirstNonEmpty(row, RegionColumns, "global");
    var cost := ParseCost(parse, FirstNonEmpty(row, CostColumns, "0"));
    assert RowToPoint(row, parse, toIsoDate).value
        == CostDataPoint(NormalizeDate(toIsoDate, FirstNonEmpty(row, DateColumns, "")), NormalizeServiceName(s),
                         if region != "" then region else "global", Round2(cost), Tags(row, TagName),
                         FirstPresent(row, ResourceIdColumns));
    assert s != "";
    if s in ServiceNames { NormalizeServiceNameIdempotent(s); }
  }

  /** A row without any filled cost column reads as cost `'0'` and is dropped,
      as is a row whose cost text is not a number. */
  lemma MissingCostDropsRow(row: Row, parse: NumberParser, toIsoDate: DateParser)
    requires parse("0") == Some(0.0)
    requires (forall k :: 0 <= k < |CostColumns| ==> !Filled(Cell(row, CostColumns[k])))
             || parse(FirstNonEmpty(row, CostColumns, "0")).None?
    ensures RowToPoint(row, parse, toIsoDate).None?
  {
  }

  /** A positive cost below half a cent passes the filter, which looks at the
      unrounded amount, and is stored as 0. */
  lemma TinyCostStoredAsZero(row: Row, parse: NumberParser, toIsoDate: DateParser)
    requires FirstNonEmpty(row, DateColumns, "") != ""
    requires 0.0 < ParseCost(parse, FirstNonEmpty(row, CostColumns, "0")) < 1.0 / 200.0
    ensures RowToPoint(row, parse, toIsoDate).Some?
    ensures RowToPoint(row, parse, toIsoDate).value.cost == 0.0
  {
    TinyAmountRoundsToZero(ParseCost(parse, FirstNonEmpty(row, CostColumns, "0")));
  }

  /** The output is the kept rows' records in row order: there is an
      increasing choice of rows whose records are exactly the output, and
      every row that yields a record is chosen. */
  lemma TransformIsFilter(rows: seq<Row>, parse: NumberParser, toIsoDate: DateParser)
    returns (idx: seq<nat>)
    ensures |idx| == |Transform(rows, parse, toIsoDate)| <= |rows|
    ensures forall j :: 0 <= j < |idx| ==>
      idx[j] < |rows| && RowToPoint(rows[idx[j]], parse, toIsoDate) == Some(Transform(rows, parse, toIsoDate)[j])
    ensures forall j, k :: 0 <= j < k < |idx| ==> idx[j] < idx[k]
    ensures forall i :: 0 <= i < |rows| && RowToPoint(rows[i], parse, toIsoDate).Some? ==> i in idx
  {
    idx := FilterMapIndices(rows, row => RowToPoint(row, parse, toIsoDate));
  }
}
