# Application health checker, modelled in Dafny

This project models the core of the `AppHealthChecker` script of the wisecow deployment
repository: a checker that holds a list of configured applications, issues one HTTP GET per
application, classifies each outcome into a result record (UP, DOWN, REDIRECT, CLIENT_ERROR,
SERVER_ERROR, ERROR or UNKNOWN), logs one line per result, and summarises the batch as
total / up / down / errors counts.

The network call is not modelled. It is replaced by an `Outcome` value: either a response
(status code and elapsed time) or a raised exception. The exception records which of the
handled classes it belongs to (timeout, connection error, other `requests` error) and its
message. `Run` takes one outcome per application, in list order, as the network's answers.

Modules:

- `wrappers.dfy` (`Wrappers`): `Option`, used for dictionary keys that may be missing and for
  result fields that may be None.
- `text.dfy` (`Text`): what the f-strings print. This covers `str` of a non-negative integer,
  with a proved round trip in both directions, and `repr` of a response time rounded to two
  decimals, with a reader proved to be its exact inverse.
- `health_checker.dfy` (`HealthChecker`): the configured `App`, its request, the `Outcome`, the
  status `Classify`-cation and `CheckApplication`.
- `summaries.dfy` (`Summaries`): counting results by status and the batch `Summary`.
- `report.dfy` (`Report`): the status icon, the log level, the log line of a result, the
  summary message, and the `[<timestamp>] [<LEVEL>] <message>` log entry with a parser proved
  to invert it.
- `runner.dfy` (`Runner`): the class `AppHealthChecker`. It holds the applications and the log
  (a sequence of level/message records), and has its constructor, `LogMessage`, `PrintResult`,
  `GenerateSummary` and the single-run batch `Run`.

Python's value semantics are mirrored by Dafny values, so `CheckApplication` cannot modify the
application it reads. Python truthiness is written out: a status code or response time of 0 and
an empty error message are left out of the log line, as `if status_code:` and the like do.

The code checks neither that the url is valid nor that the timeout is positive: an
application with no url is requested with the empty url, and the resulting `requests` error
becomes a DOWN result like any other.

Response times are natural numbers in hundredths of a millisecond, which is the value after
`round(..., 2)`.

## Model

| member | source | states |
|---|---|---|
| `HealthChecker.RequestOf` | scripts/app_health_checker.py:86-103 | the GET goes to the configured url (default '') with the configured timeout (default 5) |
| `HealthChecker.StatusName` | scripts/app_health_checker.py:110-134 | every status name reads back as its status, so distinct statuses print distinct names |
| `HealthChecker.Classify` | scripts/app_health_checker.py:110-121 | the status of a response, one condition per status: UP iff the code is the expected one or in 200-299; REDIRECT, CLIENT_ERROR, SERVER_ERROR iff not expected and in 300-399, 400-499, 500-599; UNKNOWN iff not expected and outside 200-599; never DOWN or ERROR |
| `HealthChecker.CheckApplication` | scripts/app_health_checker.py:84-136 | name and url copied from the app with defaults 'Unknown' and ''; status code and response time present iff a response arrived, error absent iff a response arrived; status DOWN or ERROR iff an exception was raised; a response is classified against the expected status (default 200); timeout gives DOWN with "Request timeout" (even when it is also a connection error), connection error gives DOWN with "Connection failed", another `requests` error gives DOWN with its message, and any other exception gives ERROR with its message |
| `HealthChecker.ExpectedStatusWins` | scripts/app_health_checker.py:110-111 | a response whose code equals the expected status is UP, whatever its range |
| `HealthChecker.NotFoundExamples` | scripts/app_health_checker.py:88-117 | 404 with expected 200 (given or by default) is CLIENT_ERROR; 404 with expected 404 is UP |
| `HealthChecker.RangeBoundaries` | scripts/app_health_checker.py:112-121 | 199 UNKNOWN, 200 and 299 UP, 300 and 399 REDIRECT, 400 and 499 CLIENT_ERROR, 500 and 599 SERVER_ERROR, 600 UNKNOWN, for any expected status other than the code |
| `HealthChecker.ConnectTimeoutIsTimeout` | scripts/app_health_checker.py:123-128 | an exception that is both a timeout and a connection error is reported as "Request timeout" |
| `HealthChecker.EmptyAppDefaults` | scripts/app_health_checker.py:86-89 | an app with no keys is named 'Unknown', has url '', is requested with timeout 5 and is UP on a 200 response |
| `Summaries.CountIn` | scripts/app_health_checker.py:188-190 | a count of results by status never exceeds the number of results |
| `Summaries.Summarize` | scripts/app_health_checker.py:185-190 | total is the number of results; up + down + errors plus the REDIRECT and UNKNOWN results make up the total |
| `Summaries.CountInUnion` | scripts/app_health_checker.py:188-190 | counting over two disjoint groups of statuses adds up |
| `Summaries.CountInEverything` | scripts/app_health_checker.py:187-190 | counting over all statuses counts every result |
| `Summaries.CountInZero` | scripts/app_health_checker.py:188-190 | a count is zero iff no result has a status in the group |
| `Summaries.CountInAppend` | scripts/app_health_checker.py:188-190 | the counts of a concatenated batch are the sums of the counts of its parts |
| `Summaries.CountPartition` | scripts/app_health_checker.py:187-190 | up, down, errors and the REDIRECT/UNKNOWN results partition the batch |
| `Summaries.SummaryGap` | scripts/app_health_checker.py:187-190 | up + down + errors <= total, with equality iff no result is REDIRECT or UNKNOWN |
| `Summaries.ThreeTargetBatch` | scripts/app_health_checker.py:185-190 | 200, timeout, 503 summarise to total 3, up 1, down 1, errors 1 |
| `Report.IconOf` | scripts/app_health_checker.py:147-159 | check mark iff UP; cross iff DOWN or SERVER_ERROR; warning iff CLIENT_ERROR or REDIRECT; question mark iff ERROR or UNKNOWN |
| `Report.Glyph` | scripts/app_health_checker.py:148-159 | each icon prints as its own character (check mark, cross, warning sign, question mark), which reads back as that icon |
| `Report.IconOfFailure` | scripts/app_health_checker.py:123-159 | a failed request shows a cross for `requests` errors and a question mark for any other exception |
| `Report.LevelOf` | scripts/app_health_checker.py:182 | the level is ERROR iff the status is DOWN |
| `Report.LevelOfOutcome` | scripts/app_health_checker.py:123-182 | a result is logged at ERROR iff its request raised a `requests` error; an unexpected exception is logged at INFO |
| `Report.LogLine` | scripts/app_health_checker.py:174-180 | the line starts with `<name> (<url>) - Status: <status>`; a truthy code comes right after that head; a truthy error ends the line; a truthy time ends it when the error is falsy; with all three falsy the line is the head alone |
| `Report.LogLineOfResponse` | scripts/app_health_checker.py:174-180 | the log line of a response is `<name> (<url>) - Status: <status>`, then the Code part unless the code is 0, then the Time part (in ms) unless the time is 0, and never an Error part |
| `Report.LogLineOfFailure` | scripts/app_health_checker.py:174-180 | the log line of a failed request has no code or time part, and ends with the Error part unless the error is empty |
| `Report.ResultRecords` | scripts/app_health_checker.py:226-230 | a batch logs one record per result, in order |
| `Report.ResultRecordsAppend` | scripts/app_health_checker.py:227-230 | logging one more result appends exactly that result's record |
| `Report.SummaryMessage` | scripts/app_health_checker.py:202 | the summary line starts with `Summary - Total: <total>, UP: ` and ends with `, ERRORS: <errors>` |
| `Report.SummaryMessageInjective` | scripts/app_health_checker.py:202 | the summary line determines all four counts |
| `Report.LogEntry` | scripts/app_health_checker.py:67-68 | an entry starts with `[<timestamp>] [<LEVEL>] ` and ends with the message |
| `Report.LevelNameRoundTrip` | scripts/app_health_checker.py:68 | level names read back as their level and contain no closing bracket |
| `Report.ParseLevelOnlyNames` | scripts/app_health_checker.py:68 | only the two level names are read as levels |
| `Report.LogEntryRoundTrip` | scripts/app_health_checker.py:67-68 | an entry `[<timestamp>] [<LEVEL>] <message>` splits back into its timestamp, level and message, whatever the message holds |
| `Report.ParseLogEntryOnlyEntries` | scripts/app_health_checker.py:67-68 | whatever the entry parser accepts is exactly the entry built from its parts |
| `Text.NatToDecimal` | scripts/app_health_checker.py:175-176 | `str` of a number is a non-empty digit string with no leading zero, starting with '0' iff the number is 0 |
| `Text.DecimalRoundTrip` | scripts/app_health_checker.py:175-176 | reading a printed number gives the number |
| `Text.CanonicalRoundTrip` | scripts/app_health_checker.py:175-176 | every canonical numeral is the printed form of its value |
| `Text.TimeText` | scripts/app_health_checker.py:177-178 | a printed response time reads back as the same time |
| `Text.ParseTimeOnlyPrinted` | scripts/app_health_checker.py:177-178 | whatever the time reader accepts is exactly the printed form of its result |
| `Runner.CheckedOneMore` | scripts/app_health_checker.py:226-230 | checking the next application extends the requests and results by that application's request and result |
| `Runner.AppHealthChecker.constructor` | scripts/app_health_checker.py:26-50 | a new checker holds the three built-in applications (Google, GitHub, the invalid demo site) and has logged nothing |
| `Runner.AppHealthChecker.LogMessage` | scripts/app_health_checker.py:65-75 | appends one record with the given level and message to the log |
| `Runner.AppHealthChecker.PrintResult` | scripts/app_health_checker.py:138-183 | appends the result's log line at ERROR level if it is DOWN and at INFO otherwise |
| `Runner.AppHealthChecker.GenerateSummary` | scripts/app_health_checker.py:185-202 | returns the batch's counts and appends the summary message at INFO level |
| `Runner.AppHealthChecker.Run` | scripts/app_health_checker.py:224-232 | one request and one result per application, in list order, result i being the check of application i against the i-th outcome; the summary is that of the results; the log gains one record per result in order, then the summary record; the application list is unchanged |

## Left out

- The HTTP request itself (`requests.get`, redirect following, the library's exception
  classes): replaced by an `Outcome` value per request. Exceptions that are not `Exception`
  subclasses (such as `KeyboardInterrupt` during a request) are not modelled.
- Timing: the wall-clock measurement and `round(..., 2)` are floating point. The response
  time is taken as given, in hundredths of a millisecond.
- `TimeText` follows Python's float `repr` for times below 2^46 ms (about 7×10^13 ms). Above
  that, neighbouring doubles are more than a hundredth apart, so `round(..., 2)` no longer
  yields the two-decimal value and `repr` prints a different text; that range is not modelled.
- Negative response times are not modelled: `time.time()` is a wall clock that can step
  backwards, so the code can log a negative time, but `Outcome.elapsed` is a natural number.
- `load_config` (JSON file loading and its fallback on failure): a file read plus a library
  parse. Configuration values are assumed to have the types the script uses (strings, an
  integer expected status, a whole number of seconds for the timeout).
- The log file: its dated path, the file append and the swallowing of write errors are file
  I/O. The log is modelled as the sequence of (level, message) records appended to it. The
  timestamp is a parameter of `LogEntry`, and its `%Y-%m-%d %H:%M:%S` formatting is a clock
  reading.
- Console output: the `Colors` escape codes, `print_header` and the `print` calls. Only the
  icon choice in `print_result` is modelled.
- Continuous mode (the `while True` loop, `time.sleep`, and `KeyboardInterrupt` leading to
  `sys.exit(0)`): timing and signal handling. Each of its iterations is the same batch as
  `Run`.
- `main` and its `argparse` command line.
