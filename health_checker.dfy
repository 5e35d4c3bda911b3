/** Checking one application: the configured target, the outcome of its single HTTP GET,
    and the classification of that outcome into a result record
    (`AppHealthChecker.check_application`). */
module HealthChecker {
  import opened Wrappers

  /** One configured application. Every key of the configuration dictionary may be absent. */
  datatype App = App(name: Option<string>, url: Option<string>,
                     expectedStatus: Option<int>, timeout: Option<nat>)

  const DefaultName: string := "Unknown"
  const DefaultUrl: string := ""
  const DefaultExpectedStatus: int := 200
  /** Seconds. */
  const DefaultTimeout: nat := 5

  /** The applications monitored when no configuration file is given. */
  const DefaultApplications: seq<App> := [
    App(Some("Google"), Some("https://www.google.com"), Some(200), Some(5)),
    App(Some("GitHub"), Some("https://github.com"), Some(200), Some(5)),
    App(Some("Invalid Site (Demo)"), Some("https://thissitedoesnotexist12345.com"), Some(200), Some(5))
  ]

  /** The GET request issued for an application (redirects are always followed). */
  datatype HttpGet = HttpGet(url: string, timeout: nat)

  function RequestOf(app: App): (q: HttpGet)
    ensures app.url.Some? ==> q.url == app.url.value
    ensures app.url.None? ==> q.url == DefaultUrl
    ensures app.timeout.Some? ==> q.timeout == app.timeout.value
    ensures app.timeout.None? ==> q.timeout == DefaultTimeout
  {
    HttpGet(app.url.GetOr(DefaultUrl), app.timeout.GetOr(DefaultTimeout))
  }

  /** An exception raised while requesting: which of the handled classes it is an instance
      of, and its `str`. `isRequestException` stands for "some other
      `requests.exceptions.RequestException`"; the two more specific classes are subclasses
      of it, and an exception may be both a timeout and a connection error
      (`ConnectTimeout`). */
  datatype RaisedException = RaisedException(isTimeout: bool, isConnectionError: bool,
                                             isRequestException: bool, message: string)

  /** True when the exception belongs to the `requests` library's hierarchy. */
  predicate IsRequestsFailure(e: RaisedException) {
    e.isTimeout || e.isConnectionError || e.isRequestException
  }

  /** What the network call produced: a response (status code and the elapsed time in
      hundredths of a millisecond, i.e. the value after rounding to two decimals), or an
      exception. */
  datatype Outcome = Response(code: nat, elapsed: nat) | Raised(exception: RaisedException)

  datatype Status = Up | Down | Redirect | ClientError | ServerError | Error | Unknown

  /** The text a status is printed and logged as. Distinct statuses get distinct names:
      each name reads back as its status. */
  function StatusName(s: Status): (name: string)
    ensures ParseStatus(name) == Some(s)
  {
    match s
    case Up => "UP"
    case Down => "DOWN"
    case Redirect => "REDIRECT"
    case ClientError => "CLIENT_ERROR"
    case ServerError => "SERVER_ERROR"
    case Error => "ERROR"
    case Unknown => "UNKNOWN"
  }

  /** The status a name stands for, if it is one of the seven names. */
  function ParseStatus(name: string): Option<Status> {
    if name == "UP" then Some(Up)
    else if name == "DOWN" then Some(Down)
    else if name == "REDIRECT" then Some(Redirect)
    else if name == "CLIENT_ERROR" then Some(ClientError)
    else if name == "SERVER_ERROR" then Some(ServerError)
    else if name == "ERROR" then Some(Error)
    else if name == "UNKNOWN" then Some(Unknown)
    else None
  }

  /** The result record of one check. */
  datatype CheckResult = CheckResult(name: string, url: string, status: Status,
                                     statusCode: Option<nat>, responseTime: Option<nat>,
                                     error: Option<string>)

  /** The status of a received response: the expected code first, then the 2xx, 3xx, 4xx
      and 5xx ranges, anything else unknown. Stated here as one condition per status. */
  function Classify(code: nat, expected: int): (s: Status)
    ensures s == Up <==> code == expected || 200 <= code < 300
    ensures s == Redirect <==> code != expected && 300 <= code < 400
    ensures s == ClientError <==> code != expected && 400 <= code < 500
    ensures s == ServerError <==> code != expected && 500 <= code < 600
    ensures s == Unknown <==> code != expected && (code < 200 || 600 <= code)
    ensures s != Down && s != Error
  {
    if code == expected then Up
    else if 200 <= code < 300 then Up
    else if 300 <= code < 400 then Redirect
    else if 400 <= code < 500 then ClientError
    else if 500 <= code < 600 then ServerError
    else Unknown
  }

  /** `check_application` once the network call is replaced by its outcome: a record with
      defaults for missing keys, filled in from the response or from the first matching
      exception handler. */
  function CheckApplication(app: App, outcome: Outcome): (r: CheckResult)
    ensures app.name.Some? ==> r.name == app.name.value
    ensures app.name.None? ==> r.name == DefaultName
    ensures r.url == RequestOf(app).url
    ensures r.statusCode.Some? <==> outcome.Response?
    ensures r.responseTime.Some? <==> outcome.Response?
    ensures r.error.None? <==> outcome.Response?
    ensures (r.status == Down || r.status == Error) <==> outcome.Raised?
    ensures outcome.Response? ==>
              r.statusCode == Some(outcome.code) && r.responseTime == Some(outcome.elapsed)
              && r.status == Classify(outcome.code, app.expectedStatus.GetOr(DefaultExpectedStatus))
    ensures outcome.Raised? && outcome.exception.isTimeout ==>
              r.status == Down && r.error == Some("Request timeout")
    ensures outcome.Raised? && !outcome.exception.isTimeout && outcome.exception.isConnectionError ==>
              r.status == Down && r.error == Some("Connection failed")
    ensures outcome.Raised? && !outcome.exception.isTimeout && !outcome.exception.isConnectionError
              && outcome.exception.isRequestException ==>
              r.status == Down && r.error == Some(outcome.exception.message)
    ensures outcome.Raised? && !IsRequestsFailure(outcome.exception) ==>
              r.status == Error && r.error == Some(outcome.exception.message)
  {
    var result := CheckResult(app.name.GetOr(DefaultName), app.url.GetOr(DefaultUrl),
                              Unknown, None, None, None);
    match outcome
    case Response(code, elapsed) =>
      var expected := app.expectedStatus.GetOr(DefaultExpectedStatus);
      result.(statusCode := Some(code), responseTime := Some(elapsed),
              status := Classify(code, expected))
    case Raised(e) =>
      if e.isTimeout then result.(status := Down, error := Some("Request timeout"))
      else if e.isConnectionError then result.(status := Down, error := Some("Connection failed"))
      else if e.isRequestException then result.(status := Down, error := Some(e.message))
      else result.(status := Error, error := Some(e.message))
  }

  /** A response whose code equals the expected status is UP, whatever range the code is in. */
  lemma ExpectedStatusWins(app: App, code: nat, elapsed: nat)
    requires code == app.expectedStatus.GetOr(DefaultExpectedStatus)
    ensures CheckApplication(app, Response(code, elapsed)).status == Up
  {
  }

  /** 404 is a client error when 200 is expected (explicitly or by default) and UP when 404 is
      expected. */
  lemma NotFoundExamples(name: Option<string>, url: Option<string>, timeout: Option<nat>, elapsed: nat)
    ensures CheckApplication(App(name, url, Some(200), timeout), Response(404, elapsed)).status == ClientError
    ensures CheckApplication(App(name, url, None, timeout), Response(404, elapsed)).status == ClientError
    ensures CheckApplication(App(name, url, Some(404), timeout), Response(404, elapsed)).status == Up
  {
  }

  /** The range boundaries, for any expected status other than the code itself. */
  lemma RangeBoundaries(expected: int)
    ensures expected != 199 ==> Classify(199, expected) == Unknown
    ensures Classify(200, expected) == Up && Classify(299, expected) == Up
    ensures expected != 300 ==> Classify(300, expected) == Redirect
    ensures expected != 399 ==> Classify(399, expected) == Redirect
    ensures expected != 400 ==> Classify(400, expected) == ClientError
    ensures expected != 499 ==> Classify(499, expected) == ClientError
    ensures expected != 500 ==> Classify(500, expected) == ServerError
    ensures expected != 599 ==> Classify(599, expected) == ServerError
    ensures expected != 600 ==> Classify(600, expected) == Unknown
  {
  }

  /** An exception that is both a timeout and a connection error is reported as a timeout,
      because its handler comes first. */
  lemma ConnectTimeoutIsTimeout(app: App, message: string)
    ensures CheckApplication(app, Raised(RaisedException(true, true, true, message))).error
            == Some("Request timeout")
  {
  }

  /** The result of an application with no keys at all. */
  lemma EmptyAppDefaults(outcome: Outcome)
    ensures CheckApplication(App(None, None, None, None), outcome).name == "Unknown"
    ensures CheckApplication(App(None, None, None, None), outcome).url == ""
    ensures RequestOf(App(None, None, None, None)) == HttpGet("", 5)
    ensures outcome.Response? && outcome.code == 200 ==>
              CheckApplication(App(None, None, None, None), outcome).status == Up
  {
  }
}
