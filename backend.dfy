/** The Flask backend's CSV normalisation and its two string validators: the
    upload's file-name check and the guard that lets only `SELECT` queries
    through. The row rules mirror the client's; the tag names differ, since
    Python's `str.replace` removes every occurrence of a pattern. */
module Backend {
  import opened Common
  import opened Text
  import opened CostModel
  import CsvParser

  type Row = CsvParser.Row

  /** `service_map.get(service, service)`. */
  function NormalizeServiceName(service: string): (r: string)
    ensures service in CsvParser.ServiceNames ==> r == CsvParser.ServiceNames[service]
    ensures service !in CsvParser.ServiceNames ==> r == service
  {
    if service in CsvParser.ServiceNames then CsvParser.ServiceNames[service] else service
  }

  /** The backend's lookup and the client's `||` fallback name every service
      alike, since no short name is empty. */
  lemma SameServiceNames(service: string)
    ensures NormalizeServiceName(service) == CsvParser.NormalizeServiceName(service)
  {
  }

  /** `col.replace('resourceTags/', '').replace('tag:', '')` in Python: every
      occurrence of each pattern is removed. */
  function TagName(column: string): string
  {
    ReplaceAll(ReplaceAll(column, "resourceTags/", ""), "tag:", "")
  }

  /** A tag column whose name repeats the prefix gets a different tag name
      from the two implementations. */
  lemma TagNamesDiffer()
    ensures TagName("tag:tag:env") == "env"
    ensures CsvParser.TagName("tag:tag:env") == "tag:env"
  {
    BackendDoubleTag();
    ClientDoubleTag();
  }

  lemma BackendDoubleTag()
    ensures TagName("tag:tag:env") == "env"
  {
    var c := "tag:tag:env";
    assert Find(c, "resourceTags/") == None;
    assert c[..4] == "tag:";
    ReplaceAllAtStart(c, "tag:");
    var d := c[4..];
    assert d == "tag:env";
    assert d[..4] == "tag:";
    ReplaceAllAtStart(d, "tag:");
    assert d[4..] == "env";
    assert Find("env", "tag:") == None;
  }

  lemma ClientDoubleTag()
    ensures CsvParser.TagName("tag:tag:env") == "tag:env"
  {
    var c := "tag:tag:env";
    assert Find(c, "resourceTags/") == None;
    assert c[..4] == "tag:";
    ReplaceFirstAtStart(c, "tag:");
  }

  /** `extract_tags`: the tag record under Python's tag names, or `None`
      when no tag column is filled. */
  method ExtractTags(row: Row) returns (tags: Option<map<string, string>>)
    ensures tags == CsvParser.Tags(row, TagName)
    ensures tags.None? <==> forall i :: 0 <= i < |row| ==> !CsvParser.TagSource(row, i)
  {
    var m: map<string, string> := map[];
    var i := 0;
    while i < |row|
      invariant 0 <= i <= |row|
      invariant m == CsvParser.TagMap(row[..i], TagName)
    {
      assert row[..i + 1][..i] == row[..i];
      var (column, value) := row[i];
      if StartsWith(column, "resourceTags/") || StartsWith(column, "tag:") {
        var name := TagName(column);
        if value != "" {
          m := m[name := value];
        }
      }
      i := i + 1;
    }
    assert row[..|row|] == row;
    tags := if |m| > 0 then Some(m) else None;
    CsvParser.TagsNoneIff(row, TagName);
  }

  /** The record one row yields, if it is kept. `toFloat` stands for
      Python's `float()` (nothing where it raises) and `toDatetime` for
      `pd.to_datetime(s).strftime('%Y-%m-%d')` (nothing where it raises);
      neither is the client's parser. */
  function RowToPoint(row: Row, toFloat: CsvParser.NumberParser, toDatetime: CsvParser.DateParser): Option<CostDataPoint>
  {
    var date := CsvParser.FirstNonEmpty(row, CsvParser.DateColumns, "");
    var service := CsvParser.FirstNonEmpty(row, CsvParser.ServiceColumns, "Unknown");
    var region := CsvParser.FirstNonEmpty(row, CsvParser.RegionColumns, "global");
    var cost := CsvParser.ParseCost(toFloat, CsvParser.FirstNonEmpty(row, CsvParser.CostColumns, "0"));
    if date != "" && cost > 0.0 then
      Some(CostDataPoint(
        CsvParser.NormalizeDate(toDatetime, date),
        NormalizeServiceName(service),
        if region != "" then region else "global",
        Round2(cost),
        CsvParser.Tags(row, TagName),
        CsvParser.FirstPresent(row, CsvParser.ResourceIdColumns)))
    else None
  }

  function Transform(rows: seq<Row>, toFloat: CsvParser.NumberParser, toDatetime: CsvParser.DateParser): seq<CostDataPoint>
  {
    FilterMap(rows, row => RowToPoint(row, toFloat, toDatetime))
  }

  /** `transform_csv_to_cost_data`: the loop over the frame's rows that
      appends one record per kept row. */
  method TransformCsvToCostData(rows: seq<Row>, toFloat: CsvParser.NumberParser, toDatetime: CsvParser.DateParser)
    returns (costData: seq<CostDataPoint>)
    ensures costData == Transform(rows, toFloat, toDatetime)
  {
    costData := [];
    var n := 0;
    while n < |rows|
      invariant 0 <= n <= |rows|
      invariant costData == Transform(rows[..n], toFloat, toDatetime)
    {
      var row := rows[n];
      assert rows[..n + 1][..n] == rows[..n];
      var date := CsvParser.FirstNonEmpty(row, CsvParser.DateColumns, "");
      var service := CsvParser.FirstNonEmpty(row, CsvParser.ServiceColumns, "Unknown");
      var region := CsvParser.FirstNonEmpty(row, CsvParser.RegionColumns, "global");
      var costStr := CsvParser.FirstNonEmpty(row, CsvParser.CostColumns, "0");
      var cost := CsvParser.ParseCost(toFloat, costStr);
      if date != "" && cost > 0.0 {
        var resourceId := CsvParser.FirstPresent(row, CsvParser.ResourceIdColumns);
        var tags := ExtractTags(row);
        costData := costData + [CostDataPoint(
          CsvParser.NormalizeDate(toDatetime, date),
          NormalizeServiceName(service),
          if region != "" then region else "global",
          Round2(cost),
          tags,
          resourceId)];
      }
      n := n + 1;
    }
    assert rows[..|rows|] == rows;
  }

  /** The two sides agree on a row when their parsers agree on it: where
      `float()` and `parseFloat` read the row's cost text alike, the two date
      libraries turn its date text into the same text, and every filled tag
      column gets the same name from both, the backend makes of the row the
      record the client makes of it. */
  lemma RowAgreesWithClient(row: Row, parseFloat: CsvParser.NumberParser, newDate: CsvParser.DateParser,
                            toFloat: CsvParser.NumberParser, toDatetime: CsvParser.DateParser)
    requires forall i :: CsvParser.TagSource(row, i) ==> TagName(row[i].0) == CsvParser.TagName(row[i].0)
    requires CsvParser.ParseCost(toFloat, CsvParser.FirstNonEmpty(row, CsvParser.CostColumns, "0"))
          == CsvParser.ParseCost(parseFloat, CsvParser.FirstNonEmpty(row, CsvParser.CostColumns, "0"))
    requires CsvParser.NormalizeDate(toDatetime, CsvParser.FirstNonEmpty(row, CsvParser.DateColumns, ""))
          == CsvParser.NormalizeDate(newDate, CsvParser.FirstNonEmpty(row, CsvParser.DateColumns, ""))
    ensures RowToPoint(row, toFloat, toDatetime) == CsvParser.RowToPoint(row, parseFloat, newDate)
  {
    CsvParser.TagMapCongruent(row, TagName, CsvParser.TagName);
    SameServiceNames(CsvParser.FirstNonEmpty(row, CsvParser.ServiceColumns, "Unknown"));
  }

  /** The backend keeps the same rows as the client, in the same order, with
      the same records, wherever the parsers and tag names agree row by row. */
  lemma {:induction false} TransformAgreesWithClient(rows: seq<Row>, parseFloat: CsvParser.NumberParser, newDate: CsvParser.DateParser,
                                                     toFloat: CsvParser.NumberParser, toDatetime: CsvParser.DateParser)
    requires forall k, i :: 0 <= k < |rows| && CsvParser.TagSource(rows[k], i) ==>
      TagName(rows[k][i].0) == CsvParser.TagName(rows[k][i].0)
    requires forall k :: 0 <= k < |rows| ==>
      CsvParser.ParseCost(toFloat, CsvParser.FirstNonEmpty(rows[k], CsvParser.CostColumns, "0"))
      == CsvParser.ParseCost(parseFloat, CsvParser.FirstNonEmpty(rows[k], CsvParser.CostColumns, "0"))
    requires forall k :: 0 <= k < |rows| ==>
      CsvParser.NormalizeDate(toDatetime, CsvParser.FirstNonEmpty(rows[k], CsvParser.DateColumns, ""))
      == CsvParser.NormalizeDate(newDate, CsvParser.FirstNonEmpty(rows[k], CsvParser.DateColumns, ""))
    ensures Transform(rows, toFloat, toDatetime) == CsvParser.Transform(rows, parseFloat, newDate)
  {
    forall i | 0 <= i < |rows|
      ensures RowToPoint(rows[i], toFloat, toDatetime) == CsvParser.RowToPoint(rows[i], parseFloat, newDate)
    {
      RowAgreesWithClient(rows[i], parseFloat, newDate, toFloat, toDatetime);
    }
    FilterMapCongruent(rows, row => RowToPoint(row, toFloat, toDatetime), row => CsvParser.RowToPoint(row, parseFloat, newDate));
  }

  /** `parseFloat` reads a numeric prefix where `float()` raises: a cost such
      as "12 USD" keeps the row on the client and drops it on the backend. */
  lemma CostParsersDiffer(parseFloat: CsvParser.NumberParser, newDate: CsvParser.DateParser,
                          toFloat: CsvParser.NumberParser, toDatetime: CsvParser.DateParser)
    requires parseFloat("12 USD") == Some(12.0) && toFloat("12 USD").None?
    ensures var row := [("date", "2024-01-15"), ("cost", "12 USD")];
      CsvParser.RowToPoint(row, parseFloat, newDate).Some? && RowToPoint(row, toFloat, toDatetime).None?
  {
    var row := [("date", "2024-01-15"), ("cost", "12 USD")];
    DateCell(row, "2024-01-15", "12 USD");
    CostCell(row, "2024-01-15", "12 USD");
  }

  /** `new Date` and `pd.to_datetime` accept different texts: a day-first
      date the client leaves raw is normalised by the backend. */
  lemma DateParsersDiffer(parseFloat: CsvParser.NumberParser, newDate: CsvParser.DateParser,
                          toFloat: CsvParser.NumberParser, toDatetime: CsvParser.DateParser)
    requires parseFloat("5") == Some(5.0) && toFloat("5") == Some(5.0)
    requires newDate("15/01/2024").None? && toDatetime("15/01/2024") == Some("2024-01-15")
    ensures var row := [("date", "15/01/2024"), ("cost", "5")];
      CsvParser.RowToPoint(row, parseFloat, newDate).Some? && RowToPoint(row, toFloat, toDatetime).Some?
      && CsvParser.RowToPoint(row, parseFloat, newDate).value.date == "15/01/2024"
      && RowToPoint(row, toFloat, toDatetime).value.date == "2024-01-15"
  {
    var row := [("date", "15/01/2024"), ("cost", "5")];
    DateCell(row, "15/01/2024", "5");
    CostCell(row, "15/01/2024", "5");
  }

  /** The date text of a two-column row `date,cost`. */
  lemma DateCell(row: Row, date: string, cost: string)
    requires date != "" && row == [("date", date), ("cost", cost)]
    ensures CsvParser.FirstNonEmpty(row, CsvParser.DateColumns, "") == date
  {
    assert CsvParser.Cell(row, "date") == Some(date);
    forall k | 0 <= k < 3 ensures CsvParser.Cell(row, CsvParser.DateColumns[k]).None? {
      assert CsvParser.DateColumns[k] != "date" && CsvParser.DateColumns[k] != "cost";
    }
    CsvParser.FirstPresentFirst(row, CsvParser.DateColumns, 3);
  }

  /** The cost text of a two-column row `date,cost`. */
  lemma CostCell(row: Row, date: string, cost: string)
    requires cost != "" && row == [("date", date), ("cost", cost)]
    ensures CsvParser.FirstNonEmpty(row, CsvParser.CostColumns, "0") == cost
  {
    assert CsvParser.Cell(row, "cost") == Some(cost);
    forall k | 0 <= k < 3 ensures CsvParser.Cell(row, CsvParser.CostColumns[k]).None? {
      assert CsvParser.CostColumns[k] != "date" && CsvParser.CostColumns[k] != "cost";
    }
    CsvParser.FirstPresentFirst(row, CsvParser.CostColumns, 3);
  }

  /** Where the last `.` of a name stands, if it has one. */
  function LastDot(s: string): (r: Option<nat>)
    ensures r.Some? ==> r.value < |s| && s[r.value] == '.'
    ensures r.Some? ==> forall j :: r.value < j < |s| ==> s[j] != '.'
    ensures r.None? <==> '.' !in s
  {
    if s == [] then None
    else if s[|s| - 1] == '.' then Some(|s| - 1)
    else
      var r := LastDot(s[..|s| - 1]);
      assert forall j :: 0 <= j < |s| - 1 ==> s[..|s| - 1][j] == s[j];
      r
  }

  /** `filename.rsplit('.', 1)[1]`: the text after the last dot. */
  function Extension(filename: string): string
    requires '.' in filename
  {
    filename[LastDot(filename).value + 1..]
  }

  const AllowedExtensions: set<string> := {"csv"}

  /** `allowed_file`. */
  predicate AllowedFile(filename: string)
  {
    '.' in filename && ToLower(Extension(filename)) in AllowedExtensions
  }

  /** A name is accepted exactly when it ends in a dot followed by `csv` in
      any mix of cases; whatever stands before that dot does not matter. */
  lemma AllowedFileIff(filename: string)
    ensures AllowedFile(filename) <==>
      |filename| >= 4 && filename[|filename| - 4] == '.' && ToLower(filename[|filename| - 3..]) == "csv"
  {
    var n := |filename|;
    if AllowedFile(filename) {
      var p := LastDot(filename).value;
      assert |ToLower(filename[p + 1..])| == 3;
    }
    if n >= 4 && filename[n - 4] == '.' && ToLower(filename[n - 3..]) == "csv" {
      assert '.' in filename by { assert filename[n - 4] == '.'; }
      var p := LastDot(filename).value;
      forall j | n - 4 < j < n ensures filename[j] != '.' {
        assert LowerChar(filename[j]) == ToLower(filename[n - 3..])[j - (n - 3)];
      }
      assert p == n - 4;
    }
  }

  /** The `/query` guard: the stripped, upper-cased query must start with
      `SELECT`. */
  predicate IsSelectQuery(query: string)
  {
    StartsWith(ToUpper(Strip(query)), "SELECT")
  }

  /** Only the leading whitespace matters to the guard: stripping the end
      never changes its answer. */
  lemma SelectGuardIgnoresTrailingSpace(query: string)
    ensures IsSelectQuery(query) <==> StartsWith(ToUpper(TrimStart(query)), "SELECT")
  {
    var t := TrimStart(query);
    var r := TrimEnd(t);
    if StartsWith(ToUpper(t), "SELECT") {
      assert UpperChar(t[5]) == ToUpper(t)[..6][5] == 'T';
      assert !IsSpace(t[5]);
      assert |r| >= 6;
    }
    if |r| >= 6 {
      UpperPrefix(t, |r|);
    }
  }

  /** Upper-casing a prefix of `t` keeps the first six characters of
      upper-casing `t`. */
  lemma UpperPrefix(t: string, n: nat)
    requires 6 <= n <= |t|
    ensures ToUpper(t[..n])[..6] == ToUpper(t)[..6]
  {
    forall i | 0 <= i < 6 ensures ToUpper(t[..n])[i] == ToUpper(t)[i] {
      assert t[..n][i] == t[i];
    }
  }

  /** Anything may follow the `SELECT`, a second statement included. */
  lemma SelectPrefixAccepted(rest: string)
    ensures IsSelectQuery("SELECT" + rest)
  {
    var q := "SELECT" + rest;
    assert q[0] == 'S';
    assert TrimStart(q) == q;
    assert ToUpper(q)[..6] == q[..6] by {
      forall i | 0 <= i < 6 ensures ToUpper(q)[i] == q[i] {
        assert q[i] == "SELECT"[i];
      }
    }
    SelectGuardIgnoresTrailingSpace(q);
  }

  /** Leading whitespace and lower case pass. */
  lemma SelectGuardLowerCase(rest: string)
    ensures IsSelectQuery(" select" + rest)
  {
    var q := " select" + rest;
    var t := "select" + rest;
    assert q == [' '] + t;
    assert q[1..] == t;
    assert t[0] == 's';
    assert TrimStart(t) == t;
    assert TrimStart(q) == t;
    forall i | 0 <= i < 6 ensures ToUpper(t)[i] == "SELECT"[i] {
      assert t[i] == "select"[i];
    }
    SelectGuardIgnoresTrailingSpace(q);
  }

  /** A query that starts with another command is refused. */
  lemma SelectGuardRefuses(rest: string)
    ensures !IsSelectQuery("DELETE" + rest)
  {
    var q := "DELETE" + rest;
    assert q[0] == 'D';
    assert TrimStart(q) == q;
    SelectGuardIgnoresTrailingSpace(q);
    assert ToUpper(q)[0] == 'D';
  }
}
