/**
 * ErrorCounter: the run's tally of successful and failed fetches, the
 * ordered list of failed (coin, date) pairs, and the summary line it prints.
 */
module Utils {
  import opened Wrappers
  import opened Seqs
  import opened Digits

  /** What one fetch job reported to the counter. */
  datatype Outcome = Succeeded | Failed(coin: string, date: string)

  function SuccessCount(log: seq<Outcome>): nat
    decreases |log|
  {
    if log == [] then 0
    else SuccessCount(log[..|log| - 1]) + (if log[|log| - 1].Succeeded? then 1 else 0)
  }

  /** The (coin, date) pairs of the failed jobs, in the order they were reported. */
  function FailedRequests(log: seq<Outcome>): seq<(string, string)>
    decreases |log|
  {
    if log == [] then []
    else
      var last := log[|log| - 1];
      FailedRequests(log[..|log| - 1]) + (if last.Failed? then [(last.coin, last.date)] else [])
  }

  lemma SuccessCountAppend(log: seq<Outcome>, o: Outcome)
    ensures SuccessCount(log + [o]) == SuccessCount(log) + (if o.Succeeded? then 1 else 0)
    ensures FailedRequests(log + [o]) == FailedRequests(log) + (if o.Failed? then [(o.coin, o.date)] else [])
  {
    assert (log + [o])[..|log|] == log;
  }

  /** Every reported outcome is either a success or a failure: the two tallies add up to the reports made. */
  lemma {:induction false} OutcomesAddUp(log: seq<Outcome>)
    ensures SuccessCount(log) + |FailedRequests(log)| == |log|
    decreases |log|
  {
    if log != [] {
      OutcomesAddUp(log[..|log| - 1]);
    }
  }

  /** The failures in a concatenation of two logs are those of the first followed by those of the second. */
  lemma {:induction false} FailedRequestsConcat(a: seq<Outcome>, b: seq<Outcome>)
    ensures FailedRequests(a + b) == FailedRequests(a) + FailedRequests(b)
    ensures SuccessCount(a + b) == SuccessCount(a) + SuccessCount(b)
    decreases |b|
  {
    if b == [] {
      assert a + b == a;
    } else {
      FailedRequestsConcat(a, b[..|b| - 1]);
      AppendDropLast(a, b);
    }
  }

  const SummaryPrefix := "Successes: "

  /**
   * The line print_summary writes (without the newline print adds). It
   * states the two numbers unambiguously: reading it back gives them.
   */
  function SummaryLine(successes: nat, total: nat): (line: string)
    ensures ParseSummary(line) == Some((successes, total))
  {
    var a, b := NatToString(successes), NatToString(total);
    var line := SummaryPrefix + a + "/" + b;
    assert line[..|SummaryPrefix|] == SummaryPrefix;
    var rest := line[|SummaryPrefix|..];
    assert rest == a + "/" + b;
    assert IndexOf(rest, '/') == Some(|a|);
    assert rest[..|a|] == a && rest[|a| + 1..] == b;
    line
  }

  /** The position of the first c in s, if any. */
  function IndexOf(s: string, c: char): (r: Option<nat>)
    ensures r.Some? ==> r.value < |s| && s[r.value] == c && c !in s[..r.value]
    ensures r.None? ==> c !in s
    decreases |s|
  {
    if s == [] then None
    else if s[0] == c then Some(0)
    else match IndexOf(s[1..], c)
      case None => None
      case Some(i) =>
        assert s[..i + 1] == [s[0]] + s[1..][..i];
        Some(i + 1)
  }

  /** Reads back the two numbers of a summary line. */
  function ParseSummary(line: string): Option<(nat, nat)> {
    if |line| < |SummaryPrefix| || line[..|SummaryPrefix|] != SummaryPrefix then None
    else
      var rest := line[|SummaryPrefix|..];
      match IndexOf(rest, '/')
      case None => None
      case Some(i) =>
        var a, b := rest[..i], rest[i + 1..];
        if 1 <= |a| && 1 <= |b| && AllDigits(a) && AllDigits(b) then Some((Value(a), Value(b))) else None
  }

  class ErrorCounter {
    var errors: nat
    var successes: nat
    var failedRequests: seq<(string, string)>
    /** Every outcome reported so far, in order. */
    ghost var log: seq<Outcome>

    ghost predicate Valid()
      reads this
    {
      && successes == SuccessCount(log)
      && failedRequests == FailedRequests(log)
      && errors == |failedRequests|
    }

    constructor ()
      ensures Valid() && log == []
      ensures errors == 0 && successes == 0 && failedRequests == []
    {
      errors, successes, failedRequests := 0, 0, [];
      log := [];
    }

    /** increment_error(coin, date) */
    method IncrementError(coin: string, date: string)
      requires Valid()
      modifies this
      ensures Valid() && log == old(log) + [Failed(coin, date)]
      ensures errors == old(errors) + 1
      ensures failedRequests == old(failedRequests) + [(coin, date)]
      ensures successes == old(successes)
    {
      SuccessCountAppend(log, Failed(coin, date));
      errors := errors + 1;
      failedRequests := failedRequests + [(coin, date)];
      log := log + [Failed(coin, date)];
    }

    /** increment_success() */
    method IncrementSuccess()
      requires Valid()
      modifies this
      ensures Valid() && log == old(log) + [Succeeded]
      ensures successes == old(successes) + 1
      ensures errors == old(errors) && failedRequests == old(failedRequests)
    {
      SuccessCountAppend(log, Succeeded);
      successes := successes + 1;
      log := log + [Succeeded];
    }

    /**
     * print_summary(): successes over successes + errors, where the total
     * is the number of outcomes reported.
     */
    method PrintSummary() returns (line: string)
      requires Valid()
      ensures line == SummaryLine(successes, |log|)
      ensures ParseSummary(line) == Some((successes, successes + errors))
    {
      OutcomesAddUp(log);
      line := SummaryLine(successes, successes + errors);
    }
  }
}
