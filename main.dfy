/**
 * The command-line entry points: `fetch` for one date and `bulk_fetch`,
 * which expands an inclusive date range into one job per day and runs the
 * jobs one after another, or in batches of CONCURRENT_REQUESTS. Sleeping,
 * the event loop and logging are outside the model.
 */
module BulkFetch {
  import opened Wrappers
  import opened Seqs
  import opened Digits
  import opened Dates
  import opened Utils
  import opened Db
  import opened DataFetcher

  predicate AllValid(dates: seq<Date>) {
    forall i :: 0 <= i < |dates| ==> Valid(dates[i])
  }

  /**
   * all_dates: start + timedelta(days=x) for x in range(0, (end - start).days + 1).
   * Empty when start is after end.
   */
  function AllDates(start: Date, end: Date): (r: seq<Date>)
    requires Valid(start) && Valid(end)
    ensures |r| == if DaysBetween(start, end) >= 0 then DaysBetween(start, end) + 1 else 0
    ensures AllValid(r)
    ensures forall i :: 0 <= i < |r| ==> Ordinal(r[i]) == Ordinal(start) + i
    ensures forall i :: 0 <= i < |r| ==> Ordinal(start) + i <= Ordinal(MaxDate) && r[i] == AddDays(start, i)
  {
    var n := DaysBetween(start, end) + 1;
    if n <= 0 then []
    else
      OrdinalBounds(end);
      seq(n, x requires 0 <= x < n => AddDays(start, x))
  }

  /**
   * The range starts at start, ends at end, and each date is the day after
   * the one before it, so no date is missing or repeated.
   */
  lemma AllDatesConsecutive(start: Date, end: Date)
    requires Valid(start) && Valid(end) && DaysBetween(start, end) >= 0
    ensures var r := AllDates(start, end);
      && r[0] == start && r[|r| - 1] == end
      && (forall i :: 0 <= i < |r| - 1 ==> r[i] != MaxDate && r[i + 1] == NextDay(r[i]))
      && (forall i, j :: 0 <= i < j < |r| ==> r[i] != r[j])
  {
    var r := AllDates(start, end);
    OrdinalBounds(end);
    forall i | 0 <= i < |r| - 1 ensures r[i] != MaxDate && r[i + 1] == NextDay(r[i]) {
      assert r[i] == AddDays(start, i) && r[i + 1] == AddDays(start, i + 1);
      AddDaysStep(start, i);
    }
    OrdinalsDetermineDates(r[|r| - 1], end);
  }

  /* ---------------- batching ---------------- */

  /**
   * all_dates[i : i + k] for i in range(0, len(all_dates), k). No batch is
   * empty or holds more than k dates.
   */
  function Batches<T>(s: seq<T>, k: nat): (r: seq<seq<T>>)
    requires k > 0
    ensures forall i :: 0 <= i < |r| ==> 0 < |r[i]| <= k
    decreases |s|
  {
    if s == [] then []
    else if |s| <= k then [s]
    else
      var rest := Batches(s[k..], k);
      assert forall i :: 1 <= i <= |rest| ==> ([s[..k]] + rest)[i] == rest[i - 1];
      [s[..k]] + rest
  }

  function Flatten<T>(bs: seq<seq<T>>): seq<T>
    decreases |bs|
  {
    if bs == [] then [] else bs[0] + Flatten(bs[1..])
  }

  /** Concatenating the batches in order gives the dates back. */
  lemma {:induction false} BatchesFlatten<T>(s: seq<T>, k: nat)
    requires k > 0
    ensures Flatten(Batches(s, k)) == s
    decreases |s|
  {
    if |s| > k {
      BatchesFlatten(s[k..], k);
      var bs := Batches(s, k);
      assert bs[1..] == Batches(s[k..], k);
      assert s == s[..k] + s[k..];
    } else if s != [] {
      assert Batches(s, k)[1..] == [];
    }
  }

  /** All batches but the last hold exactly k dates. */
  lemma {:induction false} BatchesSizes<T>(s: seq<T>, k: nat)
    requires k > 0
    ensures forall i :: 0 <= i < |Batches(s, k)| - 1 ==> |Batches(s, k)[i]| == k
    decreases |s|
  {
    if |s| > k {
      BatchesSizes(s[k..], k);
      var bs := Batches(s, k);
      var rest := Batches(s[k..], k);
      assert bs == [s[..k]] + rest;
      forall i | 0 <= i < |bs| - 1 ensures |bs[i]| == k {
        if i > 0 {
          assert bs[i] == rest[i - 1];
        }
      }
    }
  }

  /** There are ceil(|s| / k) batches: enough to hold |s| dates, and one fewer would not be. */
  lemma {:induction false} BatchesCount<T>(s: seq<T>, k: nat)
    requires k > 0
    ensures var n := |Batches(s, k)|;
      (n - 1) * k < |s| <= n * k
    decreases |s|
  {
    if |s| > k {
      BatchesCount(s[k..], k);
      var n, m := |Batches(s, k)|, |Batches(s[k..], k)|;
      assert n == m + 1;
      assert n * k == m * k + k && (n - 1) * k == (m - 1) * k + k;
    }
  }

  /**
   * The batches partition the dates: concatenated in order they give the
   * dates back, none is empty, none holds more than k, all but the last
   * hold exactly k, and there are ceil(|s| / k) of them.
   */
  lemma BatchesPartition<T>(s: seq<T>, k: nat)
    requires k > 0
    ensures var bs := Batches(s, k);
      && Flatten(bs) == s
      && (|bs| - 1) * k < |s| <= |bs| * k
      && (forall i :: 0 <= i < |bs| ==> 0 < |bs[i]| <= k)
      && (forall i :: 0 <= i < |bs| - 1 ==> |bs[i]| == k)
  {
    BatchesFlatten(s, k);
    BatchesSizes(s, k);
    BatchesCount(s, k);
  }

  /** The first batch of a non-empty list, and the batches of what follows it. */
  lemma BatchesUnfold<T>(s: seq<T>, i: nat, k: nat)
    requires k > 0 && i < |s|
    ensures var j := if i + k <= |s| then i + k else |s|;
      Batches(s[i..], k) == [s[i..j]] + Batches(s[j..], k)
  {
    var j := if i + k <= |s| then i + k else |s|;
    if |s[i..]| > k {
      assert s[i..][..k] == s[i..j];
      assert s[i..][k..] == s[j..];
    } else {
      assert j == |s| && s[i..j] == s[i..];
      assert s[j..] == [];
    }
  }

  /** Taking the slice [i : i + k] moves it from the batches still to come to those taken. */
  lemma BatchesStep<T>(s: seq<T>, taken: seq<seq<T>>, i: nat, k: nat)
    requires k > 0 && i < |s| && taken + Batches(s[i..], k) == Batches(s, k)
    ensures var j := if i + k <= |s| then i + k else |s|;
      (taken + [s[i..j]]) + Batches(s[j..], k) == Batches(s, k)
  {
    var j := if i + k <= |s| then i + k else |s|;
    BatchesUnfold(s, i, k);
    AppendAssoc(taken, [s[i..j]], Batches(s[j..], k));
  }

  /* ---------------- what a run does ---------------- */

  /** What one job contributes to a run: the outcome it reports and the loads it commits. */
  datatype JobEffect = JobEffect(outcome: Outcome, loads: seq<Load>)

  /**
   * The job bulk_fetch runs for a date: a fetcher for the date rendered by
   * strftime("%Y-%m-%d"). It can run for every valid date.
   */
  function Job(coin: string, io: Date -> JobIo, loadToDb: bool): (job: Date --> JobEffect)
    ensures forall d :: Valid(d) ==> job.requires(d)
  {
    d requires Valid(d) =>
      JobEffect(JobOutcome(coin, FormatIso(d), io(d), loadToDb), JobLoad(coin, FormatIso(d), io(d), loadToDb))
  }

  /**
   * A job loads at most one row, for its coin and its own date, and a
   * failure it reports names the date's ISO rendering.
   */
  lemma JobLoadsItsDay(coin: string, io: Date -> JobIo, loadToDb: bool, d: Date)
    requires Valid(d)
    ensures var e := Job(coin, io, loadToDb)(d);
      && |e.loads| <= 1 && (|e.loads| == 1 ==> e.loads[0].coin == coin && e.loads[0].date == d)
      && (e.outcome.Failed? ==> e.outcome == Failed(coin, FormatIso(d)))
  {
    var iso := FormatIso(d);
    assert ParseIso(iso) == Some(d);
  }

  ghost predicate CanRun(dates: seq<Date>, job: Date --> JobEffect) {
    forall i :: 0 <= i < |dates| ==> job.requires(dates[i])
  }

  lemma CanRunJob(dates: seq<Date>, coin: string, io: Date -> JobIo, loadToDb: bool)
    requires AllValid(dates)
    ensures CanRun(dates, Job(coin, io, loadToDb))
  {
  }

  /** The outcomes the jobs for these dates report, in date order. */
  ghost function Outcomes(dates: seq<Date>, job: Date --> JobEffect): (r: seq<Outcome>)
    requires CanRun(dates, job)
    ensures |r| == |dates|
    decreases |dates|
  {
    if dates == [] then []
    else Outcomes(dates[..|dates| - 1], job) + [job(dates[|dates| - 1]).outcome]
  }

  /** The loads the jobs for these dates commit, in date order. */
  ghost function Loads(dates: seq<Date>, job: Date --> JobEffect): seq<Load>
    requires CanRun(dates, job)
    decreases |dates|
  {
    if dates == [] then []
    else Loads(dates[..|dates| - 1], job) + job(dates[|dates| - 1]).loads
  }

  /** Running two lists of dates one after the other adds up their outcomes and loads. */
  lemma {:induction false} RunConcat(a: seq<Date>, b: seq<Date>, job: Date --> JobEffect)
    requires CanRun(a, job) && CanRun(b, job)
    ensures CanRun(a + b, job)
    ensures Outcomes(a + b, job) == Outcomes(a, job) + Outcomes(b, job)
    ensures Loads(a + b, job) == Loads(a, job) + Loads(b, job)
    decreases |b|
  {
    var ab := a + b;
    assert CanRun(ab, job) by {
      forall i | 0 <= i < |ab| ensures job.requires(ab[i]) {
        if i >= |a| { assert ab[i] == b[i - |a|]; }
      }
    }
    if b == [] {
      assert ab == a;
    } else {
      var n := |b| - 1;
      var front := b[..n];
      assert CanRun(front, job) by {
        forall i | 0 <= i < n ensures job.requires(front[i]) { assert front[i] == b[i]; }
      }
      RunConcat(a, front, job);
      AppendDropLast(a, b);
    }
  }

  /** Each job reports exactly one outcome: successes and failures together number the dates. */
  lemma RunTotals(dates: seq<Date>, job: Date --> JobEffect)
    requires CanRun(dates, job)
    ensures var log := Outcomes(dates, job);
      SuccessCount(log) + |FailedRequests(log)| == |dates|
  {
    OutcomesAddUp(Outcomes(dates, job));
  }

  /** No date of the run repeats. */
  predicate Distinct(dates: seq<Date>) {
    forall i, j :: 0 <= i < j < |dates| ==> dates[i] != dates[j]
  }

  /** Each job of the run loads at most one row, for the coin and for its own date. */
  ghost predicate LoadsOwnDays(dates: seq<Date>, coin: string, job: Date --> JobEffect)
    requires CanRun(dates, job)
  {
    forall i :: 0 <= i < |dates| ==>
      |job(dates[i]).loads| <= 1
      && (|job(dates[i]).loads| == 1 ==> job(dates[i]).loads[0].coin == coin && job(dates[i]).loads[0].date == dates[i])
  }

  lemma {:induction false} LoadsDistinctDays(dates: seq<Date>, coin: string, job: Date --> JobEffect)
    requires AllValid(dates) && Distinct(dates) && CanRun(dates, job) && LoadsOwnDays(dates, coin, job)
    ensures forall i :: 0 <= i < |Loads(dates, job)| ==>
      Loads(dates, job)[i].coin == coin && Loads(dates, job)[i].date in dates
    ensures forall i, j :: 0 <= i < j < |Loads(dates, job)| ==>
      DayKeyOf(Loads(dates, job)[i]) != DayKeyOf(Loads(dates, job)[j])
    decreases |dates|
  {
    if dates != [] {
      var n := |dates| - 1;
      var prefix, d := dates[..n], dates[n];
      assert AllValid(prefix) && Distinct(prefix) && CanRun(prefix, job) && LoadsOwnDays(prefix, coin, job) by {
        forall i | 0 <= i < n ensures prefix[i] == dates[i] { }
      }
      LoadsDistinctDays(prefix, coin, job);
      var before, e := Loads(prefix, job), job(d).loads;
      var ls := Loads(dates, job);
      assert ls == before + e;
      forall i | 0 <= i < |ls| ensures ls[i].coin == coin && ls[i].date in dates {
        if i < |before| {
          assert ls[i] == before[i];
          var k :| 0 <= k < n && prefix[k] == before[i].date;
          assert dates[k] == prefix[k];
        } else {
          assert ls[i] == e[0];
        }
      }
      forall i, j | 0 <= i < j < |ls| ensures DayKeyOf(ls[i]) != DayKeyOf(ls[j]) {
        if j < |before| {
          assert ls[i] == before[i] && ls[j] == before[j];
        } else {
          assert j == |before| && |e| == 1;
          assert ls[i] == before[i] && ls[j] == e[0] && e[0].date == d;
          var k :| 0 <= k < n && prefix[k] == before[i].date;
          assert dates[k] == prefix[k] && dates[k] != dates[n];
        }
      }
    }
  }

  /**
   * Over distinct dates, every load of the run is for the run's coin and
   * one of its dates, and no two loads are for the same day.
   */
  lemma RunLoadsDistinctDays(dates: seq<Date>, coin: string, io: Date -> JobIo, loadToDb: bool)
    requires AllValid(dates) && Distinct(dates)
    ensures CanRun(dates, Job(coin, io, loadToDb))
    ensures var ls := Loads(dates, Job(coin, io, loadToDb));
      && (forall i :: 0 <= i < |ls| ==> ls[i].coin == coin && ls[i].date in dates)
      && (forall i, j :: 0 <= i < j < |ls| ==> DayKeyOf(ls[i]) != DayKeyOf(ls[j]))
  {
    CanRunJob(dates, coin, io, loadToDb);
    forall i | 0 <= i < |dates| ensures
      var e := Job(coin, io, loadToDb)(dates[i]).loads;
      |e| <= 1 && (|e| == 1 ==> e[0].coin == coin && e[0].date == dates[i])
    {
      JobLoadsItsDay(coin, io, loadToDb, dates[i]);
    }
    LoadsDistinctDays(dates, coin, Job(coin, io, loadToDb));
  }

  /** The loads of a bulk_fetch range are for distinct days. */
  lemma RangeLoadsDistinctDays(start: Date, end: Date, coin: string, io: Date -> JobIo, loadToDb: bool)
    requires Valid(start) && Valid(end)
    ensures CanRun(AllDates(start, end), Job(coin, io, loadToDb))
    ensures DistinctDays(Loads(AllDates(start, end), Job(coin, io, loadToDb)))
  {
    if DaysBetween(start, end) >= 0 {
      AllDatesConsecutive(start, end);
    }
    RunLoadsDistinctDays(AllDates(start, end), coin, io, loadToDb);
  }

  /**
   * The jobs of a range may commit their loads in any order (as gathered
   * coroutines finish): every reordering of the range's loads leaves the
   * tables that committing them in date order leaves.
   */
  lemma RangeCommitOrderIrrelevant(start: Date, end: Date, coin: string, io: Date -> JobIo, loadToDb: bool,
                                   t: Tables, order: seq<Load>)
    requires Valid(start) && Valid(end) && CanRun(AllDates(start, end), Job(coin, io, loadToDb))
    requires multiset(order) == multiset(Loads(AllDates(start, end), Job(coin, io, loadToDb)))
    ensures ApplyAll(t, order) == ApplyAll(t, Loads(AllDates(start, end), Job(coin, io, loadToDb)))
  {
    RangeLoadsDistinctDays(start, end, coin, io, loadToDb);
    ApplyAllPermutation(t, Loads(AllDates(start, end), Job(coin, io, loadToDb)), order);
  }

  /**
   * One job of a run. The ISO rendering of a valid date always parses, so
   * the job always reports an outcome.
   */
  method RunJob(coin: string, date: Date, counter: ErrorCounter, loadToDb: bool,
                baseUrl: string, io: Date -> JobIo, db: Database)
    requires Valid(date) && counter.Valid() && db.Valid()
    modifies counter, db
    ensures counter.Valid() && db.Valid()
    ensures counter.log == old(counter.log) + [Job(coin, io, loadToDb)(date).outcome]
    ensures db.loads == old(db.loads) + Job(coin, io, loadToDb)(date).loads
  {
    var fetcher := new CryptoDataFetcher(coin, FormatIso(date), counter, loadToDb);
    var report := fetcher.FetchData(baseUrl, io(date), db);
  }

  /** A run of one more date adds that date's job at the end. */
  lemma RunStep(dates: seq<Date>, j: nat, job: Date --> JobEffect)
    requires j < |dates| && CanRun(dates, job)
    ensures CanRun(dates[..j], job) && CanRun(dates[..j + 1], job)
    ensures Outcomes(dates[..j + 1], job) == Outcomes(dates[..j], job) + [job(dates[j]).outcome]
    ensures Loads(dates[..j + 1], job) == Loads(dates[..j], job) + job(dates[j]).loads
  {
    assert dates[..j + 1][..j] == dates[..j];
  }

  /**
   * Runs the job for dates[j] after those for dates[..j]: the counter and
   * the database then hold the effects of the jobs for dates[..j + 1].
   */
  method RunNext(coin: string, dates: seq<Date>, j: nat, counter: ErrorCounter, loadToDb: bool,
                 baseUrl: string, io: Date -> JobIo, db: Database,
                 ghost log0: seq<Outcome>, ghost loads0: seq<Load>)
    requires j < |dates| && AllValid(dates) && counter.Valid() && db.Valid()
    requires CanRun(dates, Job(coin, io, loadToDb))
    requires counter.log == log0 + Outcomes(dates[..j], Job(coin, io, loadToDb))
    requires db.loads == loads0 + Loads(dates[..j], Job(coin, io, loadToDb))
    modifies counter, db
    ensures counter.Valid() && db.Valid()
    ensures counter.log == log0 + Outcomes(dates[..j + 1], Job(coin, io, loadToDb))
    ensures db.loads == loads0 + Loads(dates[..j + 1], Job(coin, io, loadToDb))
  {
    RunJob(coin, dates[j], counter, loadToDb, baseUrl, io, db);
    RunStep(dates, j, Job(coin, io, loadToDb));
    AppendAssoc(log0, Outcomes(dates[..j], Job(coin, io, loadToDb)), [Job(coin, io, loadToDb)(dates[j]).outcome]);
    AppendAssoc(loads0, Loads(dates[..j], Job(coin, io, loadToDb)), Job(coin, io, loadToDb)(dates[j]).loads);
  }

  /**
   * _process_batch(date_batch): one fetcher per date, all gathered; returns
   * len(results), the number of jobs run. The jobs are taken to finish in
   * the batch's order.
   */
  method ProcessBatch(coin: string, batch: seq<Date>, counter: ErrorCounter, loadToDb: bool,
                      baseUrl: string, io: Date -> JobIo, db: Database)
    returns (results: nat)
    requires AllValid(batch) && counter.Valid() && db.Valid()
    modifies counter, db
    ensures counter.Valid() && db.Valid()
    ensures results == |batch|
    ensures CanRun(batch, Job(coin, io, loadToDb))
    ensures counter.log == old(counter.log) + Outcomes(batch, Job(coin, io, loadToDb))
    ensures db.loads == old(db.loads) + Loads(batch, Job(coin, io, loadToDb))
  {
    CanRunJob(batch, coin, io, loadToDb);
    ghost var log0, loads0 := counter.log, db.loads;
    assert batch[..0] == [];
    results := 0;
    for j := 0 to |batch|
      invariant counter.Valid() && db.Valid()
      invariant results == j
      invariant counter.log == log0 + Outcomes(batch[..j], Job(coin, io, loadToDb))
      invariant db.loads == loads0 + Loads(batch[..j], Job(coin, io, loadToDb))
    {
      RunNext(coin, batch, j, counter, loadToDb, baseUrl, io, db, log0, loads0);
      results := results + 1;
    }
    assert batch[..|batch|] == batch;
  }

  /** Splitting a run at i and at stop: the slice in between adds its outcomes and loads. */
  lemma RunSlice(dates: seq<Date>, i: nat, stop: nat, job: Date --> JobEffect)
    requires i <= stop <= |dates| && CanRun(dates, job)
    ensures CanRun(dates[..i], job) && CanRun(dates[i..stop], job) && CanRun(dates[..stop], job)
    ensures Outcomes(dates[..stop], job) == Outcomes(dates[..i], job) + Outcomes(dates[i..stop], job)
    ensures Loads(dates[..stop], job) == Loads(dates[..i], job) + Loads(dates[i..stop], job)
  {
    assert CanRun(dates[..i], job) by {
      forall k | 0 <= k < i ensures job.requires(dates[..i][k]) { assert dates[..i][k] == dates[k]; }
    }
    assert CanRun(dates[i..stop], job) by {
      forall k | 0 <= k < stop - i ensures job.requires(dates[i..stop][k]) { assert dates[i..stop][k] == dates[i + k]; }
    }
    RunConcat(dates[..i], dates[i..stop], job);
    assert dates[..i] + dates[i..stop] == dates[..stop];
  }

  lemma AllValidSlice(dates: seq<Date>, i: nat, stop: nat)
    requires i <= stop <= |dates| && AllValid(dates)
    ensures AllValid(dates[i..stop])
  {
  }

  /**
   * Runs the batch dates[i..stop] after the batches before it: the counter
   * and the database then hold the effects of the jobs for dates[..stop].
   */
  method RunBatchAt(coin: string, dates: seq<Date>, i: nat, stop: nat, counter: ErrorCounter,
                    loadToDb: bool, baseUrl: string, io: Date -> JobIo, db: Database,
                    ghost log0: seq<Outcome>, ghost loads0: seq<Load>)
    returns (count: nat)
    requires i <= stop <= |dates| && AllValid(dates) && counter.Valid() && db.Valid()
    requires CanRun(dates, Job(coin, io, loadToDb))
    requires counter.log == log0 + Outcomes(dates[..i], Job(coin, io, loadToDb))
    requires db.loads == loads0 + Loads(dates[..i], Job(coin, io, loadToDb))
    modifies counter, db
    ensures count == stop - i
    ensures counter.Valid() && db.Valid()
    ensures counter.log == log0 + Outcomes(dates[..stop], Job(coin, io, loadToDb))
    ensures db.loads == loads0 + Loads(dates[..stop], Job(coin, io, loadToDb))
  {
    RunSlice(dates, i, stop, Job(coin, io, loadToDb));
    AllValidSlice(dates, i, stop);
    count := ProcessBatch(coin, dates[i..stop], counter, loadToDb, baseUrl, io, db);
    AppendAssoc(log0, Outcomes(dates[..i], Job(coin, io, loadToDb)), Outcomes(dates[i..stop], Job(coin, io, loadToDb)));
    AppendAssoc(loads0, Loads(dates[..i], Job(coin, io, loadToDb)), Loads(dates[i..stop], Job(coin, io, loadToDb)));
  }

  /**
   * The concurrent branch: the batches all_dates[i : i + batchSize] in
   * order, each run to completion before the next, with processed_dates
   * counting the jobs run. `batches` records the slices taken.
   */
  method RunConcurrent(coin: string, allDates: seq<Date>, batchSize: nat, counter: ErrorCounter,
                       loadToDb: bool, baseUrl: string, io: Date -> JobIo, db: Database)
    returns (processedDates: nat, ghost batches: seq<seq<Date>>)
    requires batchSize > 0 && AllValid(allDates) && counter.Valid() && db.Valid()
    modifies counter, db
    ensures counter.Valid() && db.Valid()
    ensures processedDates == |allDates|
    ensures batches == Batches(allDates, batchSize)
    ensures CanRun(allDates, Job(coin, io, loadToDb))
    ensures counter.log == old(counter.log) + Outcomes(allDates, Job(coin, io, loadToDb))
    ensures db.loads == old(db.loads) + Loads(allDates, Job(coin, io, loadToDb))
  {
    CanRunJob(allDates, coin, io, loadToDb);
    ghost var log0, loads0 := counter.log, db.loads;
    var n := |allDates|;
    var i := 0;
    processedDates := 0;
    batches := [];
    assert allDates[..0] == [] && allDates[0..] == allDates;
    ghost var done := 0;
    while i < n
      invariant 0 <= i && done == (if i <= n then i else n)
      invariant counter.Valid() && db.Valid()
      invariant processedDates == done
      invariant batches + Batches(allDates[done..], batchSize) == Batches(allDates, batchSize)
      invariant counter.log == log0 + Outcomes(allDates[..done], Job(coin, io, loadToDb))
      invariant db.loads == loads0 + Loads(allDates[..done], Job(coin, io, loadToDb))
      decreases n - i
    {
      var stop := if i + batchSize <= n then i + batchSize else n;
      BatchesStep(allDates, batches, i, batchSize);
      var count := RunBatchAt(coin, allDates, i, stop, counter, loadToDb, baseUrl, io, db, log0, loads0);
      processedDates := processedDates + count;
      batches := batches + [allDates[i..stop]];
      i := i + batchSize;
      done := stop;
    }
    assert allDates[..n] == allDates;
  }

  /** The sequential branch: one fetcher per date, each run to completion, in date order. */
  method RunSequential(coin: string, allDates: seq<Date>, counter: ErrorCounter,
                       loadToDb: bool, baseUrl: string, io: Date -> JobIo, db: Database)
    requires AllValid(allDates) && counter.Valid() && db.Valid()
    modifies counter, db
    ensures counter.Valid() && db.Valid()
    ensures CanRun(allDates, Job(coin, io, loadToDb))
    ensures counter.log == old(counter.log) + Outcomes(allDates, Job(coin, io, loadToDb))
    ensures db.loads == old(db.loads) + Loads(allDates, Job(coin, io, loadToDb))
  {
    CanRunJob(allDates, coin, io, loadToDb);
    ghost var log0, loads0 := counter.log, db.loads;
    assert allDates[..0] == [];
    for j := 0 to |allDates|
      invariant counter.Valid() && db.Valid()
      invariant counter.log == log0 + Outcomes(allDates[..j], Job(coin, io, loadToDb))
      invariant db.loads == loads0 + Loads(allDates[..j], Job(coin, io, loadToDb))
    {
      RunNext(coin, allDates, j, counter, loadToDb, baseUrl, io, db, log0, loads0);
    }
    assert allDates[..|allDates|] == allDates;
  }

  /** Why a command stopped before running any job. */
  datatype CommandError =
    | BadParameter      // a date is not in the "%Y-%m-%d" form strptime accepts
    | NegativeLimit     // asyncio.Semaphore raises ValueError for a negative value
    | ZeroBatchSize     // range() raises ValueError for a step of zero

  /**
   * bulk_fetch(start_date, end_date, coin, concurrent, load_to_db).
   * `concurrentRequests` is CONCURRENT_REQUESTS; `io` gives each date's
   * I/O results. On success the result is the summary line printed.
   */
  method BulkFetch(startDate: string, endDate: string, coin: string, concurrent: bool, loadToDb: bool,
                   baseUrl: string, concurrentRequests: int, io: Date -> JobIo, db: Database)
    returns (r: Result<string, CommandError>)
    requires db.Valid()
    modifies db
    ensures db.Valid()
    ensures (ParseIso(startDate).None? || ParseIso(endDate).None?) ==> r == Err(BadParameter)
    ensures r.Ok? <==> (ParseIso(startDate).Some? && ParseIso(endDate).Some?
                        && concurrentRequests >= 0 && (concurrent ==> concurrentRequests > 0))
    ensures r.Err? ==> unchanged(db)
    ensures r.Ok? ==>
      var dates := AllDates(ParseIso(startDate).value, ParseIso(endDate).value);
      var job := Job(coin, io, loadToDb);
      && CanRun(dates, job)
      && r.value == SummaryLine(SuccessCount(Outcomes(dates, job)), |dates|)
      && ParseSummary(r.value) == Some((SuccessCount(Outcomes(dates, job)), |dates|))
      && db.loads == old(db.loads) + Loads(dates, job)
  {
    var start := ParseIso(startDate);
    var end := ParseIso(endDate);
    if start.None? || end.None? {
      return Err(BadParameter);
    }
    var counter := new ErrorCounter();
    if concurrentRequests < 0 {
      return Err(NegativeLimit);
    }
    var allDates := AllDates(start.value, end.value);
    var totalDates := |allDates|;
    if concurrent {
      if concurrentRequests == 0 {
        return Err(ZeroBatchSize);
      }
      var processedDates, batches := RunConcurrent(coin, allDates, concurrentRequests, counter, loadToDb, baseUrl, io, db);
      assert processedDates == totalDates;
    } else {
      RunSequential(coin, allDates, counter, loadToDb, baseUrl, io, db);
    }
    assert counter.log == Outcomes(allDates, Job(coin, io, loadToDb)) by {
      AppendAssoc([], [], Outcomes(allDates, Job(coin, io, loadToDb)));
    }
    var line := counter.PrintSummary();
    assert line == SummaryLine(SuccessCount(Outcomes(allDates, Job(coin, io, loadToDb))), |allDates|);
    r := Ok(line);
  }

  /** An empty range (start after end) runs no job and reports 0 of 0. */
  lemma EmptyRangeSummary(start: Date, end: Date, job: Date --> JobEffect)
    requires Valid(start) && Valid(end) && DaysBetween(start, end) < 0
    ensures AllDates(start, end) == []
    ensures SummaryLine(SuccessCount(Outcomes(AllDates(start, end), job)), 0) == "Successes: 0/0"
  {
  }

  /**
   * A one-day range runs exactly one job; when the date was typed in the
   * canonical zero-padded form it is the job fetch runs for that string
   * (same outcome, same load, same file). Otherwise, e.g. "2017-1-5", fetch
   * names the file after the string as typed, bulk_fetch after "2017-01-05".
   */
  lemma SingleDayRange(s: string, coin: string, io: Date -> JobIo, loadToDb: bool)
    requires ParseIso(s).Some?
    ensures var d := ParseIso(s).value;
      && AllDates(d, d) == [d]
      && (s == FormatIso(d) ==>
            Job(coin, io, loadToDb)(d) == JobEffect(JobOutcome(coin, s, io(d), loadToDb), JobLoad(coin, s, io(d), loadToDb)))
  {
    var d := ParseIso(s).value;
    assert AllDates(d, d)[0] == AddDays(d, 0);
  }

  /**
   * fetch(date, coin, load_to_db): one job for the date as typed, which
   * must parse with strptime; the summary is 1/1 or 0/1.
   */
  method Fetch(date: string, coin: string, loadToDb: bool, baseUrl: string, io: JobIo, db: Database)
    returns (r: Result<string, CommandError>)
    requires db.Valid()
    modifies db
    ensures db.Valid()
    ensures ParseIso(date).None? ==> r == Err(BadParameter) && unchanged(db)
    ensures ParseIso(date).Some? ==>
      && r == Ok(SummaryLine(if JobOutcome(coin, date, io, loadToDb).Succeeded? then 1 else 0, 1))
      && db.loads == old(db.loads) + JobLoad(coin, date, io, loadToDb)
  {
    if ParseIso(date).None? {
      return Err(BadParameter);
    }
    var counter := new ErrorCounter();
    var fetcher := new CryptoDataFetcher(coin, date, counter, loadToDb);
    var report := fetcher.FetchData(baseUrl, io, db);
    var line := counter.PrintSummary();
    assert counter.log == [JobOutcome(coin, date, io, loadToDb)];
    r := Ok(line);
  }
}
