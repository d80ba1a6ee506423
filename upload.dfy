/** The backend's `/upload` route: the checks on the uploaded file, the
    transform, and the summary it answers with. Storing the tables in
    SQLite and reading the request body are left to the caller. */
module Upload {
  import opened Common
  import opened Text
  import opened CostModel
  import CsvParser
  import Backend
  import Anomalies
  import Recommendations

  /** The file part of the request, with its contents already read as CSV
      rows (None when they cannot be decoded or parsed). */
  datatype UploadedFile = UploadedFile(filename: string, rows: Option<seq<CsvParser.Row>>)

  /** The 400 answers, and the 500 answers: an unreadable file, and a kept
      record whose date text the date library cannot read again. */
  datatype UploadError = NoFileProvided | NoFileSelected | InvalidFileType | NoValidCostData | Unreadable | UnparsableDate

  function Status(e: UploadError): nat
  {
    if e == Unreadable || e == UnparsableDate then 500 else 400
  }

  datatype DateRange = DateRange(start: string, end: string)

  datatype Summary = Summary(totalCost: real, dateRange: DateRange, services: nat, regions: nat)

  datatype UploadResponse = UploadResponse(
    rowCount: nat,
    results: seq<CostDataPoint>,
    anomalies: seq<Anomaly>,
    recommendations: seq<Recommendation>,
    summary: Summary)

  /** The parameters the route's helpers receive from the environment:
      the cell parsers (`float()` and `pd.to_datetime`), the standard
      deviation, the canned texts, the UUID source and today's date. */
  datatype Env = Env(
    parseNumber: CsvParser.NumberParser,
    toIsoDate: CsvParser.DateParser,
    std: Anomalies.StdDev,
    describeSpike: Anomalies.Describe,
    describeAdvice: Recommendations.Describe,
    ids: nat -> string,
    today: string)

  /** Python's `min` over strings. */
  function Earliest(dates: seq<string>): (r: string)
    requires |dates| > 0
    ensures r in dates
    ensures forall i :: 0 <= i < |dates| ==> LexLe(r, dates[i])
  {
    if |dates| == 1 then
      LexLeTotal(dates[0], dates[0]);
      dates[0]
    else
      var m := Earliest(dates[..|dates| - 1]);
      var last := dates[|dates| - 1];
      LexLeTotal(m, last);
      if LexLe(m, last) then m
      else
        assert forall i :: 0 <= i < |dates| - 1 ==> dates[i] == dates[..|dates| - 1][i];
        forall i | 0 <= i < |dates| - 1 ensures LexLe(last, dates[i]) {
          LexLeTransitive(last, m, dates[i]);
        }
        LexLeTotal(last, last);
        last
  }

  /** Python's `max` over strings. */
  function Latest(dates: seq<string>): (r: string)
    requires |dates| > 0
    ensures r in dates
    ensures forall i :: 0 <= i < |dates| ==> LexLe(dates[i], r)
  {
    if |dates| == 1 then
      LexLeTotal(dates[0], dates[0]);
      dates[0]
    else
      var m := Latest(dates[..|dates| - 1]);
      var last := dates[|dates| - 1];
      LexLeTotal(m, last);
      if LexLe(last, m) then m
      else
        assert forall i :: 0 <= i < |dates| - 1 ==> dates[i] == dates[..|dates| - 1][i];
        forall i | 0 <= i < |dates| - 1 ensures LexLe(dates[i], last) {
          LexLeTransitive(dates[i], m, last);
        }
        LexLeTotal(last, last);
        last
  }

  function Dates(costData: seq<CostDataPoint>): (r: seq<string>)
    ensures |r| == |costData|
    ensures forall i :: 0 <= i < |costData| ==> r[i] == costData[i].date
  {
    seq(|costData|, i requires 0 <= i < |costData| => costData[i].date)
  }

  function ServicesOf(costData: seq<CostDataPoint>): (r: seq<string>)
    ensures |r| == |costData|
    ensures forall i :: 0 <= i < |costData| ==> r[i] == costData[i].service
  {
    seq(|costData|, i requires 0 <= i < |costData| => costData[i].service)
  }

  function RegionsOf(costData: seq<CostDataPoint>): (r: seq<string>)
    ensures |r| == |costData|
    ensures forall i :: 0 <= i < |costData| ==> r[i] == costData[i].region
  {
    seq(|costData|, i requires 0 <= i < |costData| => costData[i].region)
  }

  /** The `summary` object of a successful upload. */
  function Summarize(costData: seq<CostDataPoint>): Summary
    requires |costData| > 0
  {
    Summary(
      Round2(Sum(Costs(costData))),
      DateRange(Earliest(Dates(costData)), Latest(Dates(costData))),
      |Distinct(ServicesOf(costData))|,
      |Distinct(RegionsOf(costData))|)
  }

  /** `pd.to_datetime(df['date'])` at the start of the anomaly scan
      succeeds: the date library reads every record's date text again. A
      kept row whose date text it could not read keeps that text, and then
      fails here. */
  predicate DatesReparse(costData: seq<CostDataPoint>, toDatetime: CsvParser.DateParser)
  {
    forall i :: 0 <= i < |costData| ==> toDatetime(costData[i].date).Some?
  }

  /** `upload_csv`: the checks in the source's order, then the transform,
      the analyses (whose date conversion may raise) and the summary. */
  function HandleUpload(file: Option<UploadedFile>, env: Env): Result<UploadResponse, UploadError>
  {
    if file.None? then Err(NoFileProvided)
    else if file.value.filename == "" then Err(NoFileSelected)
    else if !Backend.AllowedFile(file.value.filename) then Err(InvalidFileType)
    else if file.value.rows.None? then Err(Unreadable)
    else
      var rows := file.value.rows.value;
      var costData := Backend.Transform(rows, env.parseNumber, env.toIsoDate);
      if costData == [] then Err(NoValidCostData)
      else if !DatesReparse(costData, env.toIsoDate) then Err(UnparsableDate)
      else Ok(UploadResponse(
        |rows|,
        costData,
        Anomalies.Detect(costData, env.std, env.describeSpike, env.ids, env.today),
        Recommendations.Recommend(costData, env.describeAdvice, env.today),
        Summarize(costData)))
  }

  /** Which answer each request gets: the four 400s, the two 500s, and
      success exactly when the file passes the checks and yields some record
      and every record's date reads again as a date. */
  lemma UploadOutcome(file: Option<UploadedFile>, env: Env)
    ensures HandleUpload(file, env) == Err(NoFileProvided) <==> file.None?
    ensures HandleUpload(file, env) == Err(NoFileSelected) <==> file.Some? && file.value.filename == ""
    ensures HandleUpload(file, env) == Err(InvalidFileType)
        <==> file.Some? && file.value.filename != "" && !Backend.AllowedFile(file.value.filename)
    ensures HandleUpload(file, env) == Err(Unreadable)
        <==> file.Some? && file.value.filename != "" && Backend.AllowedFile(file.value.filename) && file.value.rows.None?
    ensures HandleUpload(file, env).Ok?
        <==> file.Some? && Backend.AllowedFile(file.value.filename) && file.value.rows.Some?
             && Backend.Transform(file.value.rows.value, env.parseNumber, env.toIsoDate) != []
             && DatesReparse(Backend.Transform(file.value.rows.value, env.parseNumber, env.toIsoDate), env.toIsoDate)
    ensures HandleUpload(file, env) == Err(UnparsableDate)
        <==> file.Some? && Backend.AllowedFile(file.value.filename) && file.value.rows.Some?
             && Backend.Transform(file.value.rows.value, env.parseNumber, env.toIsoDate) != []
             && !DatesReparse(Backend.Transform(file.value.rows.value, env.parseNumber, env.toIsoDate), env.toIsoDate)
    ensures HandleUpload(file, env) == Err(NoValidCostData)
        <==> file.Some? && Backend.AllowedFile(file.value.filename) && file.value.rows.Some?
             && Backend.Transform(file.value.rows.value, env.parseNumber, env.toIsoDate) == []
  {
    if file.Some? && Backend.AllowedFile(file.value.filename) {
      assert '.' in file.value.filename;
    }
  }

  /** A kept row whose date text the date library cannot read keeps that
      text as its date, and the whole upload then answers 500. */
  lemma RawDateFails(file: Option<UploadedFile>, env: Env, k: nat)
    requires file.Some? && Backend.AllowedFile(file.value.filename) && file.value.rows.Some?
    requires k < |file.value.rows.value|
    requires Backend.RowToPoint(file.value.rows.value[k], env.parseNumber, env.toIsoDate).Some?
    requires env.toIsoDate(CsvParser.FirstNonEmpty(file.value.rows.value[k], CsvParser.DateColumns, "")).None?
    ensures HandleUpload(file, env) == Err(UnparsableDate)
  {
    var rows := file.value.rows.value;
    var costData := Backend.Transform(rows, env.parseNumber, env.toIsoDate);
    var p := FilterMapContains(rows, row => Backend.RowToPoint(row, env.parseNumber, env.toIsoDate), k);
    assert costData[p] == Backend.RowToPoint(rows[k], env.parseNumber, env.toIsoDate).value;
    assert costData[p].date == CsvParser.FirstNonEmpty(rows[k], CsvParser.DateColumns, "");
    assert !DatesReparse(costData, env.toIsoDate);
    assert '.' in file.value.filename;
  }

  /** For example a "Total" line with a cost: the row is kept, and the
      upload fails. */
  lemma TotalLineFails(env: Env)
    requires env.parseNumber("5") == Some(5.0) && env.toIsoDate("Total").None?
    ensures HandleUpload(Some(UploadedFile("a.csv", Some([[("date", "Total"), ("cost", "5")]]))), env) == Err(UnparsableDate)
  {
    var row: CsvParser.Row := [("date", "Total"), ("cost", "5")];
    Backend.DateCell(row, "Total", "5");
    Backend.CostCell(row, "Total", "5");
    CsvNameAllowed();
    RawDateFails(Some(UploadedFile("a.csv", Some([row]))), env, 0);
  }

  lemma CsvNameAllowed()
    ensures Backend.AllowedFile("a.csv")
  {
    Backend.AllowedFileIff("a.csv");
    assert "a.csv"[2..] == "csv";
    assert ToLower("csv") == "csv";
  }

  /** A successful upload answers with the transformed records, at most ten
      anomalies, at most six recommendations and a summary over the
      records. */
  lemma UploadSuccess(file: Option<UploadedFile>, env: Env)
    requires HandleUpload(file, env).Ok?
    ensures var resp := HandleUpload(file, env).value;
      file.Some? && file.value.rows.Some?
      && resp.rowCount == |file.value.rows.value|
      && resp.results == Backend.Transform(file.value.rows.value, env.parseNumber, env.toIsoDate)
      && |resp.results| <= resp.rowCount
      && |resp.anomalies| <= 10 && |resp.recommendations| <= 6
  {
    var rows := file.value.rows.value;
    Recommendations.RecommendShape(Backend.Transform(rows, env.parseNumber, env.toIsoDate), env.describeAdvice, env.today);
  }

  /** The summary: the total to the cent, within half a cent of the exact
      sum; the date range spans every record's date and both ends are dates
      of records; the service and region counts are between one and the
      number of records. */
  lemma SummarySpec(costData: seq<CostDataPoint>)
    requires |costData| > 0
    ensures var s := Summarize(costData);
      IsCents(s.totalCost)
      && -1.0 / 200.0 < s.totalCost - Sum(Costs(costData)) <= 1.0 / 200.0
      && (exists i :: 0 <= i < |costData| && costData[i].date == s.dateRange.start)
      && (exists i :: 0 <= i < |costData| && costData[i].date == s.dateRange.end)
      && (forall i :: 0 <= i < |costData| ==>
            LexLe(s.dateRange.start, costData[i].date) && LexLe(costData[i].date, s.dateRange.end))
      && 1 <= s.services <= |costData| && 1 <= s.regions <= |costData|
  {
    var s := Summarize(costData);
    RoundIsCents(Sum(Costs(costData)));
    var dates := Dates(costData);
    var i :| 0 <= i < |dates| && dates[i] == s.dateRange.start;
    var j :| 0 <= j < |dates| && dates[j] == s.dateRange.end;
    assert ServicesOf(costData)[0] in Distinct(ServicesOf(costData));
    assert RegionsOf(costData)[0] in Distinct(RegionsOf(costData));
  }

  /** The summary's total is the sum the client would show for the same
      records, rounded: rounding then agrees with summing already-rounded
      records whenever every record is a whole number of cents. */
  lemma SummaryTotalOfCents(costData: seq<CostDataPoint>)
    requires |costData| > 0
    requires forall i :: 0 <= i < |costData| ==> IsCents(costData[i].cost)
    ensures Summarize(costData).totalCost == Sum(Costs(costData))
  {
    SumOfCents(Costs(costData));
    RoundCentsIdentity(Sum(Costs(costData)));
  }
}
