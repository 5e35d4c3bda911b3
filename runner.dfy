/** The checker object: the list of applications it holds and the log it appends to, and the
    single-run batch (`AppHealthChecker.run` without an interval). */
module Runner {
  import opened HealthChecker
  import opened Summaries
  import opened Report

  /** The first `n` applications have been requested and checked, in order. */
  ghost predicate CheckedSoFar(apps: seq<App>, network: seq<Outcome>, requests: seq<HttpGet>,
                               results: seq<CheckResult>, n: nat)
    requires n <= |apps| && |apps| == |network|
  {
    |requests| == n && |results| == n
    && (forall j :: 0 <= j < n ==> requests[j] == RequestOf(apps[j]))
    && (forall j :: 0 <= j < n ==> results[j] == CheckApplication(apps[j], network[j]))
  }

  lemma CheckedOneMore(apps: seq<App>, network: seq<Outcome>, requests: seq<HttpGet>,
                       results: seq<CheckResult>, n: nat)
    requires n < |apps| && |apps| == |network|
    requires CheckedSoFar(apps, network, requests, results, n)
    ensures CheckedSoFar(apps, network, requests + [RequestOf(apps[n])],
                         results + [CheckApplication(apps[n], network[n])], n + 1)
  {
  }

  /** Concatenation is associative. */
  lemma AppendAssoc<T>(a: seq<T>, b: seq<T>, c: seq<T>)
    ensures a + (b + c) == a + b + c
  {
  }

  class AppHealthChecker {
    /** The applications to monitor, in configuration order. */
    var applications: seq<App>
    /** The records appended to the log file so far (timestamps are added when written). */
    var log: seq<LogRecord>

    /** A checker with the built-in applications and nothing logged yet. */
    constructor ()
      ensures applications == DefaultApplications
      ensures log == []
    {
      applications := DefaultApplications;
      log := [];
    }

    method LogMessage(message: string, level: Level)
      modifies this`log
      ensures log == old(log) + [LogRecord(level, message)]
    {
      log := log + [LogRecord(level, message)];
    }

    /** Logs one result: its line at ERROR level when it is DOWN, at INFO otherwise. */
    method PrintResult(result: CheckResult)
      modifies this`log
      ensures log == old(log) + [ResultRecord(result)]
    {
      var line := LogLine(result);
      var level := if result.status == Down then ErrorLevel else InfoLevel;
      LogMessage(line, level);
    }

    /** Counts a batch and logs the counts at INFO level. */
    method GenerateSummary(results: seq<CheckResult>) returns (summary: Summary)
      modifies this`log
      ensures summary == Summarize(results)
      ensures log == old(log) + [SummaryRecord(summary)]
    {
      summary := Summarize(results);
      LogMessage(SummaryMessage(summary), InfoLevel);
    }

    /** One batch: a request and a result per application, in list order, each result logged
        as it is produced, then the summary. `network[i]` is what the network answered to the
        i-th request. */
    method Run(network: seq<Outcome>) returns (requests: seq<HttpGet>, results: seq<CheckResult>,
                                               summary: Summary)
      requires |network| == |applications|
      modifies this`log
      ensures applications == old(applications)
      ensures |requests| == |applications| && |results| == |applications|
      ensures forall i :: 0 <= i < |applications| ==>
                requests[i] == RequestOf(applications[i])
                && results[i] == CheckApplication(applications[i], network[i])
      ensures summary == Summarize(results)
      ensures log == old(log) + ResultRecords(results) + [SummaryRecord(summary)]
    {
      var apps := applications;
      requests, results := [], [];
      for i := 0 to |apps|
        invariant CheckedSoFar(apps, network, requests, results, i)
        invariant log == old(log) + ResultRecords(results)
      {
        var app := apps[i];
        var result := CheckApplication(app, network[i]);
        PrintResult(result);
        ResultRecordsAppend(results, result);
        AppendAssoc(old(log), ResultRecords(results), [ResultRecord(result)]);
        CheckedOneMore(apps, network, requests, results, i);
        requests := requests + [RequestOf(app)];
        results := results + [result];
      }
      summary := GenerateSummary(results);
    }
  }
}
