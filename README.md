# crypto_project in Dafny

A model of the command-line tool that downloads one historical price
document per calendar day for a coin. For each day it writes the document
to `../data/coins/<coin>/<date>.json` and, optionally, loads it into a
PostgreSQL database of daily rows and monthly min/max rows. The model also
covers the run accounting the tool prints at the end (`Successes: s/t`).

The modules follow the source files:

- `Utils` (src/utils.py): `ErrorCounter`, a class whose fields the methods
  update in place. A ghost log of reported outcomes ties the fields to pure
  fold functions.
- `Db` (src/database.py): `Database.load_data_to_db`, modelled as a class
  holding the two tables as maps. The table updates are pure functions:
  - `InsertOrIgnore` is `ON CONFLICT DO NOTHING`;
  - `UpsertMinMax` is the upsert with `LEAST` and `GREATEST`.
  A ghost log of committed loads ties the tables to a fold from empty
  tables, and lemmas about that fold give the table invariants.
- `DataFetcher` (src/data_fetcher.py): `CryptoDataFetcher.fetch_data`.
  - The date reformat, the URL and the file path are pure functions.
  - The fetch, the file write, the connection and the commit are results
    passed in as a `JobIo` value.
  - The method records exactly one outcome per call.
- `BulkFetch` (src/main.py):
  - the `fetch` command;
  - `bulk_fetch`'s date list and the batch slices, as pure functions;
  - the concurrent batch loop and the sequential loop, as methods with
    loop invariants, proved against the specification functions `Outcomes`
    and `Loads`.
- `Dates`, `Digits` and `Payload` are the parts of Python's `datetime`,
  `str()` and `json` that the code relies on:
  - `strptime(s, "%Y-%m-%d")`, with its leniency: one-digit months and days
    and a space before a one-digit day are accepted;
  - `strftime`;
  - `toordinal` and `timedelta` days;
  - dict lookups on the decoded document.

Where the code's own structure suggests one thing and its behaviour is
another, the model follows the behaviour:

- The semaphore sized `CONCURRENT_REQUESTS` (src/main.py:49, 60) suggests a
  cap on fetches in flight, but it only guards the creation of coroutine
  objects. They all run later, inside `gather`. What does cap them is the
  batching: no batch holds more than `CONCURRENT_REQUESTS` dates
  (`BulkFetch.Batches`), so no more jobs are gathered at once.
- The `not concurrent` guard (src/main.py:63) puts a delay in
  `_process_batch` that only the sequential path could reach, and that
  path never calls `_process_batch`. So the concurrent branch never sleeps
  between dispatches.
- A malformed date escapes `fetch_data` before its `try` block, so no
  outcome is recorded.
- A one-day range equals the `fetch` command only for a date typed in the
  zero-padded form (`SingleDayRange`).

## Model

| member | source | states |
|---|---|---|
| Digits.NatToString | src/utils.py:34 | `str(n)` is a non-empty string of ASCII digits whose decimal value is n and which starts with '0' only when it is "0" |
| Digits.Pad2 | src/data_fetcher.py:19 | the two-digit zero-padded `%d`/`%m` field: exactly two digits whose value is n |
| Digits.Pad4 | src/data_fetcher.py:19 | the four-digit `%Y` field: exactly four digits whose value is n |
| Digits.ValueBelow | src/main.py:43-44 | four digits never exceed 9999, so a parsed year is in datetime's range |
| Dates.DaysInMonth | src/main.py:43-44 | month lengths are 28 to 31 days |
| Dates.OrdinalBounds | src/main.py:51 | every valid date's day number lies between those of 0001-01-01 and 9999-12-31 |
| Dates.NextDay | src/main.py:51 | `date + timedelta(days=1)` is a valid date whose day number is one more |
| Dates.AddDays | src/main.py:51 | `start + timedelta(days=n)` is a valid date whose day number is n more |
| Dates.AddDaysStep | src/main.py:51 | adding n + 1 days is adding n days and then one more |
| Dates.OrdinalsDetermineDates | src/main.py:51 | two valid dates with the same day number are equal |
| Dates.OrdinalBeforeNextYear | src/main.py:51 | a date's day number is at most the number of days before the next year |
| Dates.DaysBeforeYearMonotone | src/main.py:51 | later years start later |
| Dates.DaysBetween | src/main.py:51 | when end is not before start, `(end - start).days` is the number of days whose addition to start gives end; it is negative exactly when end is before start |
| Dates.AddDaysReaches | src/main.py:51 | adding the difference of two day numbers to the earlier date gives the later date |
| Dates.ParseMonthField | src/main.py:43-44 | an accepted `%m` field is one or two digits, and the month is the number they denote, 1..12 |
| Dates.ParseDayField | src/main.py:43-44 | an accepted `%d` field is one or two digits denoting the day, or a space and one digit denoting it, 1..31 |
| Dates.ParseIso | src/main.py:43-44 | strptime with "%Y-%m-%d" accepts only existing dates in years 1..9999 |
| Dates.ParseIsoFields | src/main.py:43-44 | an accepted string has four digits denoting the year, a dash, and then, split by a dash at index 6 or 7, a month field denoting the month and a day field running to the end denoting the day |
| Dates.MonthText | src/main.py:43-44 | a month written with or without its leading zero is accepted as that month |
| Dates.DayText | src/main.py:43-44 | a day written zero-padded, bare or space-padded is accepted as that day |
| Dates.ParseIsoAccepts | src/main.py:43-44 | every valid date parses back from its ISO form with the month unpadded or padded and the day zero-padded, unpadded or space-padded |
| Dates.FormatIso | src/main.py:61 | `strftime("%Y-%m-%d")` gives ten characters that strptime with the same format reads back as the same date, as fetch_data and the database load do |
| Dates.FormatApi | src/data_fetcher.py:19 | `strftime("%d-%m-%Y")` gives ten characters: two digits denoting the day, a dash, two denoting the month, a dash, four denoting the year |
| Dates.ApiReordersToIso | src/data_fetcher.py:19 | moving the fields of the API rendering back into YYYY-MM-DD order gives the ISO rendering |
| Payload.Field | src/database.py:28 | `doc[key]` succeeds exactly on an object holding the key, and yields its value |
| Payload.ExtractPrice | src/database.py:28 | a price is found exactly when the document nests a number under market_data / current_price / usd, and it is that number |
| Payload.ExtractPriceFinds | src/database.py:28 | the smallest document carrying a price yields that price |
| Utils.SuccessCountAppend | src/utils.py:26-31 | one more report adds one success or appends its (coin, date) to the failures |
| Utils.OutcomesAddUp | src/utils.py:21-34 | successes plus failures equal the number of reports |
| Utils.FailedRequestsConcat | src/utils.py:28 | failures of two logs in sequence are the first's followed by the second's, in report order |
| Utils.IndexOf | src/utils.py:34 | the first position of a character, or its absence |
| Utils.SummaryLine | src/utils.py:34 | the summary line reads back as exactly the two numbers it was built from |
| Utils.ErrorCounter.constructor | src/utils.py:21-24 | a new counter has no errors, no successes and no failed requests |
| Utils.ErrorCounter.IncrementError | src/utils.py:26-28 | errors grows by one, (coin, date) is appended at the end of failed_requests, successes unchanged, invariant kept |
| Utils.ErrorCounter.IncrementSuccess | src/utils.py:30-31 | successes grows by one, errors and failed_requests unchanged, invariant kept |
| Utils.ErrorCounter.PrintSummary | src/utils.py:33-34 | the line shows successes over the number of reports, and reads back as (successes, successes + errors) |
| Db.PrepareLoad | src/database.py:25-30 | the row tuple exists exactly when the date parses and the price is found; it carries the coin, the parsed date, the price and the document |
| Db.LoadResult | src/database.py:10-62 | a load commits exactly when the connection opens, the date parses, the price is found and the writes commit; a failed connection is reported first |
| Db.InsertOrIgnore | src/database.py:33-40 | the key is present afterwards; an absent key gets the new row; every existing row is unchanged (first write wins) |
| Db.UpsertMinMax | src/database.py:48-57 | a new month row is (price, price); an existing one keeps the lesser minimum and the greater maximum; other months unchanged |
| Db.ApplyEffect | src/database.py:33-57 | one committed call leaves the load's day row (an existing row for that day kept) and a month row spanning its price, and every other row as it was |
| Db.ApplyAll | src/database.py:33-57 | rows are only ever added: every existing key stays, and every committed load has its day row and its month row |
| Db.LoadKeys | src/database.py:25-44 | a successful call's day row is keyed by the coin and the date strptime read, and its month row by the coin with that date's year and month |
| Db.ApplyAllAppend | src/database.py:33-57 | committing one more load applies it to the tables the earlier loads produced |
| Db.ApplyKeepsMinAtMostMax | src/database.py:52-54 | a load keeps min_price <= max_price in every month row |
| Db.DuplicateDayIgnored | src/database.py:37 | a second load of the same (coin, date) leaves the day table as the first left it |
| Db.ApplyIdempotent | src/database.py:33-57 | committing the same load twice leaves both tables as one commit did |
| Db.ApplyAllWidens | src/database.py:52-54 | month rows only widen under further loads and day rows never change |
| Db.ApplyAllCovers | src/database.py:48-57 | every committed price, duplicates of a day included, lies within its month's [min_price, max_price] |
| Db.ApplyAllKeepsMinAtMostMax | src/database.py:48-57 | min_price <= max_price holds in every month row after any loads |
| Db.MonthRowIsExtremes | src/database.py:43-57 | from empty tables, a month row exists exactly when a load fell in that month, and its min and max are the least and greatest of those prices |
| Db.DayRowsComeFromLoads | src/database.py:33-40 | from empty tables, a day row exists only for a (coin, date) that some load had |
| Db.FirstWriteWins | src/database.py:33-40 | from empty tables, a day row exists exactly when some load had that (coin, date), and it holds the first such load's price and document |
| Db.UpsertMinMaxCommutes | src/database.py:48-57 | two month upserts give the same table in either order |
| Db.InsertOrIgnoreCommutes | src/database.py:33-40 | two day inserts for different keys give the same table in either order |
| Db.ApplyCommutes | src/database.py:33-57 | two loads for different days give the same tables in either order |
| Db.ApplyAllConcat | src/database.py:33-57 | committing two runs of loads in sequence is folding the second over the first's result |
| Db.ApplyAllPair | src/database.py:33-57 | two more loads apply one after the other |
| Db.ApplyAllSwap | src/database.py:33-57 | neighbouring loads for different days may trade places without changing the tables |
| Db.DistinctDaysRemove | src/database.py:33-40 | dropping one load keeps the others' days distinct |
| Db.ApplyAllMoveToEnd | src/database.py:33-57 | a load whose day no later load shares can be committed last instead without changing the tables |
| Db.ApplyAllPermutation | src/database.py:33-57 | loads for distinct days leave the same tables in any commit order: every permutation of them gives the tables of the original order |
| Db.Database.Consistent | src/database.py:48-57 | in a database whose tables are those its committed loads produce, every month row has min_price <= max_price and every committed price lies within its month row |
| Db.Database.constructor | src/database.py:7-8 | a database with both tables empty |
| Db.Database.LoadDataToDb | src/database.py:10-62 | the result is that of the connection, parse, lookup and commit steps; on success both tables change by one insert-or-ignore and one upsert keyed by coin and the parsed date's year and month; on any error nothing changes |
| DataFetcher.ApiDate | src/data_fetcher.py:19 | the API date exists exactly when strptime accepts the date; it is DD-MM-YYYY, ten characters with dashes at 2 and 5 and digit fields denoting the parsed day, month and year, and reordering it back names the same day |
| DataFetcher.Url | src/data_fetcher.py:20 | the URL is the base, "/coins/", the coin, "/history?date=" and the API date, each readable back at its place |
| DataFetcher.FilePath | src/data_fetcher.py:40 | the path is "../data/coins/", the coin, "/", the date string exactly as given and ".json", each readable back at its place |
| DataFetcher.UrlAsksForTheDay | src/data_fetcher.py:20 | the URL is the fixed path `/coins/<coin>/history?date=` after the base, ending in the API date of the job's day |
| DataFetcher.FilePathInjective | src/data_fetcher.py:40 | different dates of a coin are saved to different files, named by the date string as given |
| DataFetcher.JobOutcome | src/data_fetcher.py:22-36 | success exactly when the fetch, the file save and, if enabled, the database load succeed; otherwise the job's own (coin, date) fails |
| DataFetcher.JobLoad | src/data_fetcher.py:26-27 | at most one load, present exactly when loading is enabled and every step through the commit succeeds, with the job's coin, parsed date and price |
| DataFetcher.CryptoDataFetcher.constructor | src/data_fetcher.py:12-16 | the fetcher keeps its coin, date, counter and flag |
| DataFetcher.CryptoDataFetcher.FetchData | src/data_fetcher.py:18-36 | a bad date raises with nothing recorded; otherwise exactly one outcome is appended, exactly one of the two counters moves by one, the file is saved when the fetch succeeds, and the database changes only when loading is enabled |
| BulkFetch.AllDates | src/main.py:51 | the list holds (end - start).days + 1 valid dates, or none when start is after end, and entry i is start + i days |
| BulkFetch.AllDatesConsecutive | src/main.py:51 | the list starts at start, ends at end, each date is the day after the one before, and no date repeats |
| BulkFetch.Batches | src/main.py:70-72 | no batch is empty or holds more than the batch size, so at most CONCURRENT_REQUESTS jobs are gathered at once |
| BulkFetch.BatchesFlatten | src/main.py:71-72 | the batches concatenated in order give the dates back |
| BulkFetch.BatchesSizes | src/main.py:70-72 | all batches but the last are full |
| BulkFetch.BatchesCount | src/main.py:71 | there are ceil(n / batch size) batches |
| BulkFetch.BatchesPartition | src/main.py:70-72 | the batches partition the dates: order, sizes and count together |
| BulkFetch.BatchesUnfold | src/main.py:71-72 | the batches of the dates from i are the slice [i : i + k] followed by the batches after it |
| BulkFetch.BatchesStep | src/main.py:71-72 | taking the next slice moves it from the batches still to come to those taken, so the slices taken are always a prefix of the batches |
| BulkFetch.Outcomes | src/main.py:59-65 | a run reports one outcome per date |
| BulkFetch.RunConcat | src/main.py:69-78 | running two lists of dates in sequence concatenates their outcomes and their loads |
| BulkFetch.RunTotals | src/main.py:75-79 | successes plus errors equal the number of dates |
| BulkFetch.LoadsDistinctDays | src/main.py:59-62 | when each job loads only its own day, the run's loads are for the run's coin and dates, with no day twice |
| BulkFetch.RunLoadsDistinctDays | src/main.py:59-62 | over distinct dates, the run's loads are for its coin and dates, with no day loaded twice |
| BulkFetch.RangeLoadsDistinctDays | src/main.py:51-78 | the loads of a bulk range are for distinct days |
| BulkFetch.RangeCommitOrderIrrelevant | src/main.py:59-65 | the jobs of a range may commit in any order: every reordering of the range's loads leaves the tables that date order leaves |
| BulkFetch.Job | src/main.py:61 | a job can run for every valid date |
| BulkFetch.JobLoadsItsDay | src/main.py:61-62 | one job loads at most one row, for its coin and its own date, and a failure it reports names the date's ISO rendering |
| BulkFetch.RunJob | src/main.py:76-77 | one job appends exactly its outcome to the counter and its loads to the database |
| BulkFetch.RunStep | src/main.py:75-77 | running one more date appends that date's outcome and loads |
| BulkFetch.RunNext | src/main.py:75-77 | after the jobs for the first j dates, running the next one gives the effects of the first j + 1 |
| BulkFetch.ProcessBatch | src/main.py:55-67 | every date of the batch is run, in order; the number of results is the batch length |
| BulkFetch.RunSlice | src/main.py:71-72 | the outcomes and loads up to a slice's end are those before it followed by the slice's own |
| BulkFetch.RunBatchAt | src/main.py:71-73 | running the slice [i : stop] after the dates before it gives the effects of all dates up to stop, and counts stop - i |
| BulkFetch.RunConcurrent | src/main.py:69-73 | the slices taken are exactly the batches, processed_dates ends at total_dates, and the counter and database hold every date's effect in date order |
| BulkFetch.RunSequential | src/main.py:74-78 | one job per date, in date order: the counter and database hold every date's effect in that order |
| BulkFetch.BulkFetch | src/main.py:40-79 | bad dates give BadParameter with nothing run; a negative limit or, when concurrent, a zero batch size stops the command; otherwise the summary is the successes over the number of days in the range, and the database receives exactly the loads of those days |
| BulkFetch.EmptyRangeSummary | src/main.py:51 | start after end gives no dates and the summary "Successes: 0/0" |
| BulkFetch.SingleDayRange | src/main.py:21-32 | a one-day range runs one job, the same job fetch runs when the date was typed in zero-padded form |
| BulkFetch.Fetch | src/main.py:21-32 | a bad date gives BadParameter with nothing run; otherwise one job runs and the summary is 1/1 or 0/1 |

## Left out

- fetch_with_retry (src/utils.py:7-17) is not part of this model. The HTTP request, its backoff retries and its unbounded recursion on status 429 appear only as a `Response` that holds the decoded document or a failure.
- asyncio scheduling is left out: `Semaphore`, `gather`, `asyncio.run`, and the delays from `asyncio.sleep` and `time.sleep`.
  - A batch's jobs are taken to finish in the batch's order.
  - `RangeCommitOrderIrrelevant` shows that the database does not depend on that order: any permutation of a range's loads leaves the same tables.
  - The order of `failed_requests` within a batch does depend on it.
- Creating directories and writing the file are left out. The model only says whether the write succeeded and which path it used.
- psycopg2 is reduced to two booleans: whether `connect` succeeds and whether the statements and the commit succeed.
  - A failure between the two `execute` calls is modelled as no change, because nothing is committed.
  - The connection left open on an error is not modelled.
- Logging, click's option parsing, and the `.env` configuration (src/config.py) are left out.
  - `API_BASE_URL` and `CONCURRENT_REQUESTS` are parameters.
  - A negative `CONCURRENT_REQUESTS` is the `Semaphore`'s `ValueError` (`NegativeLimit`).
  - A zero `CONCURRENT_REQUESTS` in concurrent mode is `range()`'s `ValueError` (`ZeroBatchSize`).
- JSON numbers are modelled as reals and prices are only compared, so floating-point rounding is not modelled.
- The stored document is the decoded JSON value, not the `json.dumps` text.
- Payload.ExtractPrice: a price that is not a JSON number (a string or null) counts as an error. The column type that would decide this is outside the code.
- Dates.ParseIso: accepts ASCII digits only, while strptime's `\d` also accepts other Unicode decimal digits.
- Dates.DaysBetween: when end is before start, the contract states only that the result is negative, not that its magnitude is the number of days from end to start.
- Dates.FormatIso: always pads the year to four digits. For years below 1000, Python's `strftime("%Y")` depends on the platform's C library.
- BulkFetch.BulkFetch: returns the summary line without the newline `print` adds. Exceptions that escape the command, other than the three `CommandError` cases, are not modelled.
- Outcomes, Loads: the run-level functions take the job as a function of the date, and the job's I/O results as `io: Date -> JobIo`. The same results are therefore assumed whenever the same day is fetched.
