/**
 * CryptoDataFetcher: one job that fetches the price document of a coin for
 * one day, saves it to a file, optionally loads it into the database, and
 * reports exactly one outcome to the shared ErrorCounter. The HTTP request
 * (fetch_with_retry), the file write and the database connection are
 * outside the model: their results arrive as a JobIo value.
 */
module DataFetcher {
  import opened Wrappers
  import opened Digits
  import opened Dates
  import opened Payload
  import opened Utils
  import opened Db

  /** How fetch_with_retry ended: with the decoded document, or by raising. */
  datatype Response = Received(doc: Json) | RequestFailed

  /** The results of the job's I/O steps, in the order the job would reach them. */
  datatype JobIo = JobIo(response: Response, fileWritten: bool, dbConnects: bool, dbCommits: bool)

  /**
   * The date as the API expects it: strptime with "%Y-%m-%d", then
   * strftime with "%d-%m-%Y"; None where strptime raises. The result is
   * DD-MM-YYYY with the day, month and year strptime read from the date.
   */
  function ApiDate(date: string): (r: Option<string>)
    ensures r.Some? <==> ParseIso(date).Some?
    ensures r.Some? ==> var d := ParseIso(date).value;
      && |r.value| == 10 && r.value[2] == '-' && r.value[5] == '-'
      && AllDigits(r.value[0..2]) && Value(r.value[0..2]) == d.day
      && AllDigits(r.value[3..5]) && Value(r.value[3..5]) == d.month
      && AllDigits(r.value[6..10]) && Value(r.value[6..10]) == d.year
    ensures r.Some? ==> |r.value| == 10 && ParseIso(ReorderToIso(r.value)) == ParseIso(date)
  {
    match ParseIso(date)
    case None => None
    case Some(d) =>
      ApiReordersToIso(d);
      Some(FormatApi(d))
  }

  /**
   * The request URL: the base, then "/coins/", the coin, "/history?date="
   * and the API date, so that each of the three can be read back at its
   * place.
   */
  function Url(baseUrl: string, coin: string, apiDate: string): (r: string)
    ensures |r| == |baseUrl| + |coin| + |apiDate| + 21
    ensures r[..|baseUrl|] == baseUrl
    ensures r[|baseUrl|..|baseUrl| + 7] == "/coins/" && r[|baseUrl| + 7..|baseUrl| + 7 + |coin|] == coin
    ensures r[|r| - |apiDate| - 14..|r| - |apiDate|] == "/history?date=" && r[|r| - |apiDate|..] == apiDate
  {
    var r := baseUrl + "/coins/" + coin + "/history?date=" + apiDate;
    var n := |baseUrl| + 7 + |coin|;
    assert r[..|baseUrl|] == baseUrl && r[|baseUrl|..|baseUrl| + 7] == "/coins/";
    assert r[|baseUrl| + 7..n] == coin && r[n..n + 14] == "/history?date=" && r[n + 14..] == apiDate;
    r
  }

  const DataDir := "../data/coins/"

  /**
   * The file save_to_file writes: in the coin's directory under DataDir,
   * named by the job's date string exactly as given, with ".json" after it.
   */
  function FilePath(coin: string, date: string): (r: string)
    ensures |r| == |DataDir| + |coin| + |date| + 6
    ensures r[..|DataDir|] == DataDir && r[|DataDir|..|DataDir| + |coin|] == coin && r[|DataDir| + |coin|] == '/'
    ensures r[|DataDir| + |coin| + 1..|r| - 5] == date && r[|r| - 5..] == ".json"
  {
    var r := DataDir + coin + "/" + date + ".json";
    var n := |DataDir| + |coin|;
    assert r[..|DataDir|] == DataDir && r[|DataDir|..n] == coin;
    assert r[n + 1..|r| - 5] == date && r[|r| - 5..] == ".json";
    r
  }

  /**
   * The request URL ends in the ten-character API date after the fixed
   * path, and that date names the same calendar day as the job's date.
   */
  lemma UrlAsksForTheDay(baseUrl: string, coin: string, date: string)
    requires ApiDate(date).Some?
    ensures var url := Url(baseUrl, coin, ApiDate(date).value);
      && |url| >= 10
      && url[..|url| - 10] == baseUrl + "/coins/" + coin + "/history?date="
      && ParseIso(ReorderToIso(url[|url| - 10..])) == ParseIso(date)
  {
    var api := ApiDate(date).value;
    var url := Url(baseUrl, coin, api);
    assert url[|url| - 10..] == api;
  }

  /** Two different dates of one coin are saved to two different files. */
  lemma {:induction false} FilePathInjective(coin: string, d1: string, d2: string)
    requires FilePath(coin, d1) == FilePath(coin, d2)
    ensures d1 == d2
  {
    var p1, p2 := FilePath(coin, d1), FilePath(coin, d2);
    var k := |DataDir + coin + "/"|;
    assert |d1| == |d2|;
    assert p1[k..k + |d1|] == d1;
    assert p2[k..k + |d2|] == d2;
  }

  /** Whether the database step of a job commits. */
  predicate DbLoadCommits(coin: string, date: string, doc: Json, io: JobIo) {
    LoadResult(coin, date, doc, io.dbConnects, io.dbCommits).Ok?
  }

  /**
   * The outcome a job reports: success exactly when the fetch, the file
   * save and, if enabled, the database load all succeed; otherwise the
   * job's own (coin, date) is reported as failed.
   */
  function JobOutcome(coin: string, date: string, io: JobIo, loadToDb: bool): (r: Outcome)
    ensures r.Succeeded? <==>
      (io.response.Received? && io.fileWritten && (loadToDb ==> DbLoadCommits(coin, date, io.response.doc, io)))
    ensures r.Failed? ==> r == Failed(coin, date)
  {
    if io.response.Received? && io.fileWritten && (loadToDb ==> DbLoadCommits(coin, date, io.response.doc, io))
    then Succeeded
    else Failed(coin, date)
  }

  /** The load a job commits to the database, if any. */
  function JobLoad(coin: string, date: string, io: JobIo, loadToDb: bool): (r: seq<Load>)
    ensures |r| <= 1
    ensures |r| == 1 <==> loadToDb && io.response.Received? && io.fileWritten
                          && DbLoadCommits(coin, date, io.response.doc, io)
    ensures |r| == 1 ==> r[0].coin == coin && Some(r[0].date) == ParseIso(date)
                         && Some(r[0].price) == ExtractPrice(io.response.doc)
  {
    if loadToDb && io.response.Received? && io.fileWritten then
      match LoadResult(coin, date, io.response.doc, io.dbConnects, io.dbCommits)
      case Ok(l) => [l]
      case Err(_) => []
    else []
  }

  /** What fetch_data did, as far as it can be observed. */
  datatype Report =
    | Raised     // strptime raised before the try block: the error escapes and nothing is recorded
    | Completed(url: string, savedTo: Option<string>, outcome: Outcome)

  class CryptoDataFetcher {
    const coin: string
    const date: string
    const errorCounter: ErrorCounter
    const loadToDb: bool

    constructor (coin: string, date: string, errorCounter: ErrorCounter, loadToDb: bool)
      ensures this.coin == coin && this.date == date
      ensures this.errorCounter == errorCounter && this.loadToDb == loadToDb
    {
      this.coin := coin;
      this.date := date;
      this.errorCounter := errorCounter;
      this.loadToDb := loadToDb;
    }

    /**
     * fetch_data(). `baseUrl` is API_BASE_URL from the environment; `io`
     * gives the results of the request, of the file write and of the
     * database connection and commit.
     */
    method FetchData(baseUrl: string, io: JobIo, db: Database) returns (report: Report)
      requires errorCounter.Valid() && db.Valid()
      modifies errorCounter, db
      ensures errorCounter.Valid() && db.Valid()
      ensures ApiDate(date).None? ==> report == Raised && unchanged(errorCounter, db)
      ensures ApiDate(date).Some? ==>
        && report.Completed?
        && report.url == Url(baseUrl, coin, ApiDate(date).value)
        && report.outcome == JobOutcome(coin, date, io, loadToDb)
        && errorCounter.log == old(errorCounter.log) + [report.outcome]
        && report.savedTo == (if io.response.Received? && io.fileWritten then Some(FilePath(coin, date)) else None)
        && db.loads == old(db.loads) + JobLoad(coin, date, io, loadToDb)
      // exactly one of the two counters moves, by one
      ensures report.Completed? && report.outcome.Succeeded? ==>
        errorCounter.successes == old(errorCounter.successes) + 1 && errorCounter.errors == old(errorCounter.errors)
      ensures report.Completed? && report.outcome.Failed? ==>
        && errorCounter.errors == old(errorCounter.errors) + 1 && errorCounter.successes == old(errorCounter.successes)
        && errorCounter.failedRequests == old(errorCounter.failedRequests) + [(coin, date)]
      // the database is touched only when loading is enabled
      ensures !loadToDb ==> unchanged(db)
    {
      var apiDate := ApiDate(date);
      if apiDate.None? {
        return Raised;
      }
      var url := Url(baseUrl, coin, apiDate.value);
      if io.response.RequestFailed? {
        errorCounter.IncrementError(coin, date);
        return Completed(url, None, Failed(coin, date));
      }
      var data := io.response.doc;
      // save_to_file
      if !io.fileWritten {
        errorCounter.IncrementError(coin, date);
        return Completed(url, None, Failed(coin, date));
      }
      var savedTo := Some(FilePath(coin, date));
      if loadToDb {
        var loaded := db.LoadDataToDb(coin, date, data, io.dbConnects, io.dbCommits);
        if loaded.Err? {
          // the file stays written, yet the job counts as failed
          errorCounter.IncrementError(coin, date);
          return Completed(url, savedTo, Failed(coin, date));
        }
      }
      errorCounter.IncrementSuccess();
      report := Completed(url, savedTo, Succeeded);
    }
  }
}
