/** What `print_result`, `generate_summary` and `log_message` decide: the status icon, the
    log level, the text of the log line and the layout of a log-file entry. Colours and
    console output are not modelled. */
module Report {
  import opened Wrappers
  import opened Text
  import opened HealthChecker
  import opened Summaries

  datatype Icon = Check | Cross | Warning | Question

  /** The glyph printed between brackets before the application's name. Distinct icons get
      distinct glyphs: each glyph reads back as its icon. */
  function Glyph(i: Icon): (c: char)
    ensures IconOfGlyph(c) == Some(i)
  {
    match i
    case Check => '\U{2713}'
    case Cross => '\U{2717}'
    case Warning => '\U{26A0}'
    case Question => '?'
  }

  function IconOfGlyph(c: char): Option<Icon> {
    if c == '\U{2713}' then Some(Check)
    else if c == '\U{2717}' then Some(Cross)
    else if c == '\U{26A0}' then Some(Warning)
    else if c == '?' then Some(Question)
    else None
  }

  /** The icon of a status; ERROR and UNKNOWN both fall through to the question mark. */
  function IconOf(s: Status): (i: Icon)
    ensures i == Check <==> s == Up
    ensures i == Cross <==> s == Down || s == ServerError
    ensures i == Warning <==> s == ClientError || s == Redirect
    ensures i == Question <==> s == Error || s == Unknown
  {
    if s == Up then Check
    else if s in [Down, ServerError] then Cross
    else if s in [ClientError, Redirect] then Warning
    else assert s == Error || s == Unknown; Question
  }

  datatype Level = InfoLevel | ErrorLevel

  function LevelName(l: Level): string {
    match l
    case InfoLevel => "INFO"
    case ErrorLevel => "ERROR"
  }

  function ParseLevel(s: string): Option<Level> {
    if s == "INFO" then Some(InfoLevel)
    else if s == "ERROR" then Some(ErrorLevel)
    else None
  }

  /** Level names read back as their level, and contain no closing bracket. */
  lemma LevelNameRoundTrip(l: Level)
    ensures ParseLevel(LevelName(l)) == Some(l)
    ensures ']' !in LevelName(l)
  {
  }

  lemma ParseLevelOnlyNames(s: string, l: Level)
    requires ParseLevel(s) == Some(l)
    ensures LevelName(l) == s
  {
  }

  /** The level a result is logged at: ERROR for DOWN only. */
  function LevelOf(s: Status): (l: Level)
    ensures l == ErrorLevel <==> s == Down
  {
    if s == Down then ErrorLevel else InfoLevel
  }

  /** A result is logged at ERROR level exactly when the request failed with an exception of
      the `requests` library; an unexpected exception (status ERROR) is logged at INFO. */
  lemma LevelOfOutcome(app: App, outcome: Outcome)
    ensures LevelOf(CheckApplication(app, outcome).status) == ErrorLevel
            <==> outcome.Raised? && IsRequestsFailure(outcome.exception)
  {
  }

  /** The icon of a failed check: a cross for failures of the `requests` library, a question
      mark for any other exception. */
  lemma IconOfFailure(app: App, e: RaisedException)
    ensures IconOf(CheckApplication(app, Raised(e)).status)
            == if IsRequestsFailure(e) then Cross else Question
  {
  }

  /** Python truthiness of the optional fields: None, 0, 0.0 and "" are all left out. */
  predicate CodeShown(r: CheckResult) {
    r.statusCode.Some? && r.statusCode.value != 0
  }

  predicate TimeShown(r: CheckResult) {
    r.responseTime.Some? && r.responseTime.value != 0
  }

  predicate ErrorShown(r: CheckResult) {
    r.error.Some? && r.error.value != ""
  }

  function Head(name: string, url: string, status: Status): string {
    name + " (" + url + ") - Status: " + StatusName(status)
  }

  /** The message logged for one result: the head, then the code, time and error parts in that
      order, each only when its field is truthy. */
  function LogLine(r: CheckResult): (line: string)
    ensures Head(r.name, r.url, r.status) <= line
    ensures CodeShown(r) ==>
              Head(r.name, r.url, r.status) + (" | Code: " + NatToDecimal(r.statusCode.value)) <= line
    ensures ErrorShown(r) ==> EndsWith(line, " | Error: " + r.error.value)
    ensures TimeShown(r) && !ErrorShown(r) ==>
              EndsWith(line, " | Time: " + TimeText(r.responseTime.value) + "ms")
    ensures !CodeShown(r) && !TimeShown(r) && !ErrorShown(r) ==>
              line == Head(r.name, r.url, r.status)
  {
    var head := Head(r.name, r.url, r.status);
    var code := if CodeShown(r) then " | Code: " + NatToDecimal(r.statusCode.value) else "";
    var time := if TimeShown(r) then " | Time: " + TimeText(r.responseTime.value) + "ms" else "";
    var error := if ErrorShown(r) then " | Error: " + r.error.value else "";
    ConcatFour(head, code, time, error);
    assert !ErrorShown(r) ==> time + error == time;
    assert !CodeShown(r) && !TimeShown(r) && !ErrorShown(r) ==> head + code + time + error == head;
    head + code + time + error
  }

  /** The log line of a received response never has an error part; its code and time appear
      unless they are zero. */
  lemma LogLineOfResponse(app: App, code: nat, elapsed: nat)
    ensures var r := CheckApplication(app, Response(code, elapsed));
            LogLine(r) == Head(r.name, r.url, r.status)
                          + (if code != 0 then " | Code: " + NatToDecimal(code) else "")
                          + (if elapsed != 0 then " | Time: " + TimeText(elapsed) + "ms" else "")
  {
  }

  /** The log line of a failed request never has a code or time part; its error part appears
      unless the message is empty. */
  lemma LogLineOfFailure(app: App, e: RaisedException)
    ensures var r := CheckApplication(app, Raised(e));
            LogLine(r) == Head(r.name, r.url, r.status)
                          + (if r.error.value != "" then " | Error: " + r.error.value else "")
  {
  }

  /** One entry of the log, before the timestamp is added. */
  datatype LogRecord = LogRecord(level: Level, message: string)

  function ResultRecord(r: CheckResult): LogRecord {
    LogRecord(LevelOf(r.status), LogLine(r))
  }

  /** The records logged for a batch of results, one per result and in the same order. */
  function ResultRecords(results: seq<CheckResult>): (records: seq<LogRecord>)
    ensures |records| == |results|
    ensures forall i :: 0 <= i < |results| ==> records[i] == ResultRecord(results[i])
  {
    if results == [] then []
    else ResultRecords(results[..|results| - 1]) + [ResultRecord(results[|results| - 1])]
  }

  /** Logging one more result extends the records of a batch by that result's record. */
  lemma ResultRecordsAppend(results: seq<CheckResult>, r: CheckResult)
    ensures ResultRecords(results + [r]) == ResultRecords(results) + [ResultRecord(r)]
  {
    assert (results + [r])[..|results|] == results;
  }

  /** The summary line: `Summary - Total: <n>, UP: <n>, DOWN: <n>, ERRORS: <n>`. */
  function SummaryMessage(s: Summary): (m: string)
    ensures "Summary - Total: " + NatToDecimal(s.total) + ", UP: " <= m
    ensures EndsWith(m, ", ERRORS: " + NatToDecimal(s.errors))
  {
    var head := "Summary - Total: " + NatToDecimal(s.total) + ", UP: ";
    var middle := NatToDecimal(s.up) + ", DOWN: " + NatToDecimal(s.down);
    var tail := ", ERRORS: " + NatToDecimal(s.errors);
    ConcatAssoc(head, middle, tail);
    ConcatEnds(head, middle + tail);
    ConcatEnds(head + middle, tail);
    head + middle + tail
  }

  /** A number printed before a comma is read off up to the first comma. */
  lemma SplitAtNumber(a: nat, b: nat, restA: string, restB: string)
    requires |restA| > 0 && restA[0] == ',' && |restB| > 0 && restB[0] == ','
    requires NatToDecimal(a) + restA == NatToDecimal(b) + restB
    ensures a == b && restA == restB
  {
    var da, db := NatToDecimal(a), NatToDecimal(b);
    assert ',' !in da && ',' !in db;
    assert da + restA == da + [','] + restA[1..];
    assert db + restB == db + [','] + restB[1..];
    IndexOfAfter(da, ',', restA[1..]);
    IndexOfAfter(db, ',', restB[1..]);
    assert da == (da + restA)[..|da|];
    assert db == (db + restB)[..|db|];
    assert restA == (da + restA)[|da|..];
    assert restB == (db + restB)[|db|..];
    DecimalRoundTrip(a);
    DecimalRoundTrip(b);
  }

  /** The summary line determines all four counts. */
  lemma SummaryMessageInjective(s: Summary, t: Summary)
    requires SummaryMessage(s) == SummaryMessage(t)
    ensures s == t
  {
    var errorsS, errorsT := ", ERRORS: " + NatToDecimal(s.errors), ", ERRORS: " + NatToDecimal(t.errors);
    var downS, downT := ", DOWN: " + (NatToDecimal(s.down) + errorsS), ", DOWN: " + (NatToDecimal(t.down) + errorsT);
    var upS, upT := ", UP: " + (NatToDecimal(s.up) + downS), ", UP: " + (NatToDecimal(t.up) + downT);
    SummaryMessageShape(s);
    SummaryMessageShape(t);
    DropPrefix("Summary - Total: ", NatToDecimal(s.total) + upS, NatToDecimal(t.total) + upT);
    SplitAtNumber(s.total, t.total, upS, upT);
    DropPrefix(", UP: ", NatToDecimal(s.up) + downS, NatToDecimal(t.up) + downT);
    SplitAtNumber(s.up, t.up, downS, downT);
    DropPrefix(", DOWN: ", NatToDecimal(s.down) + errorsS, NatToDecimal(t.down) + errorsT);
    SplitAtNumber(s.down, t.down, errorsS, errorsT);
    DropPrefix(", ERRORS: ", NatToDecimal(s.errors), NatToDecimal(t.errors));
    DecimalRoundTrip(s.errors);
    DecimalRoundTrip(t.errors);
  }

  lemma SummaryMessageShape(s: Summary)
    ensures SummaryMessage(s)
            == "Summary - Total: " + (NatToDecimal(s.total) + (", UP: " + (NatToDecimal(s.up)
               + (", DOWN: " + (NatToDecimal(s.down) + (", ERRORS: " + NatToDecimal(s.errors)))))))
  {
    var a, b, c, d := NatToDecimal(s.total), NatToDecimal(s.up), NatToDecimal(s.down), NatToDecimal(s.errors);
    Reassociate("Summary - Total: ", a, ", UP: ", b, ", DOWN: ", c, ", ERRORS: ", d);
  }

  lemma Reassociate(p1: string, a: string, p2: string, b: string, p3: string, c: string,
                    p4: string, d: string)
    ensures (p1 + a + p2) + (b + p3 + c) + (p4 + d)
            == p1 + (a + (p2 + (b + (p3 + (c + (p4 + d))))))
  {
  }

  function SummaryRecord(s: Summary): LogRecord {
    LogRecord(InfoLevel, SummaryMessage(s))
  }

  /** The line written to the log file: `[<timestamp>] [<LEVEL>] <message>`. */
  function LogEntry(timestamp: string, record: LogRecord): (entry: string)
    ensures "[" + timestamp + "]" + " " + ("[" + LevelName(record.level) + "]") + " " <= entry
    ensures EndsWith(entry, record.message)
  {
    ConcatNested("[" + timestamp + "]", " ", "[" + LevelName(record.level) + "]", " ", record.message);
    "[" + timestamp + "]" + LevelAndMessage(record)
  }

  /** The part of an entry after the timestamp: ` [<LEVEL>] <message>`. */
  function LevelAndMessage(record: LogRecord): string {
    " " + ("[" + LevelName(record.level) + "]" + (" " + record.message))
  }

  /** Splits `[<inside>]<after>` at the first closing bracket. */
  function ParseBracketed(s: string): Option<(string, string)> {
    if |s| == 0 || s[0] != '[' then None
    else
      match IndexOf(s[1..], ']')
      case None => None
      case Some(k) => Some((s[1..][..k], s[1..][k + 1..]))
  }

  lemma BracketedRoundTrip(inside: string, after: string)
    requires ']' !in inside
    ensures ParseBracketed("[" + inside + "]" + after) == Some((inside, after))
  {
    var s := "[" + inside + "]" + after;
    assert s[1..] == inside + [']'] + after;
    IndexOfAfter(inside, ']', after);
    assert s[1..][..|inside|] == inside;
    assert s[1..][|inside| + 1..] == after;
  }

  lemma BracketedOnly(s: string, inside: string, after: string)
    requires ParseBracketed(s) == Some((inside, after))
    ensures ']' !in inside
    ensures s == "[" + inside + "]" + after
  {
    var rest := s[1..];
    var k := IndexOf(rest, ']').value;
    assert inside == rest[..k] && after == rest[k + 1..];
    assert rest == inside + "]" + after;
    assert s == "[" + rest;
  }

  /** Reads ` [<LEVEL>] <message>`. */
  function ParseLevelAndMessage(s: string): Option<LogRecord> {
    if |s| == 0 || s[0] != ' ' then None
    else
      match ParseBracketed(s[1..])
      case None => None
      case Some((levelName, afterLevel)) =>
        match ParseLevel(levelName)
        case None => None
        case Some(level) =>
          if |afterLevel| == 0 || afterLevel[0] != ' ' then None
          else Some(LogRecord(level, afterLevel[1..]))
  }

  /** Splits a log-file line back into its timestamp, level and message. */
  function ParseLogEntry(entry: string): Option<(string, LogRecord)> {
    match ParseBracketed(entry)
    case None => None
    case Some((timestamp, afterStamp)) =>
      match ParseLevelAndMessage(afterStamp)
      case None => None
      case Some(record) => Some((timestamp, record))
  }

  lemma LevelAndMessageRoundTrip(record: LogRecord)
    ensures ParseLevelAndMessage(LevelAndMessage(record)) == Some(record)
  {
    var name := LevelName(record.level);
    var afterLevel := " " + record.message;
    assert LevelAndMessage(record)[1..] == "[" + name + "]" + afterLevel;
    LevelNameRoundTrip(record.level);
    BracketedRoundTrip(name, afterLevel);
  }

  lemma LevelAndMessageOnly(s: string, record: LogRecord)
    requires ParseLevelAndMessage(s) == Some(record)
    ensures LevelAndMessage(record) == s
  {
    var split := ParseBracketed(s[1..]).value;
    var levelName, afterLevel := split.0, split.1;
    BracketedOnly(s[1..], levelName, afterLevel);
    ParseLevelOnlyNames(levelName, record.level);
    assert afterLevel == " " + record.message;
    assert s == " " + s[1..];
  }

  /** A log entry can be split back into what was logged, whatever the message holds, as
      long as the timestamp has no closing bracket (a `%Y-%m-%d %H:%M:%S` stamp has none). */
  lemma LogEntryRoundTrip(timestamp: string, record: LogRecord)
    requires ']' !in timestamp
    ensures ParseLogEntry(LogEntry(timestamp, record)) == Some((timestamp, record))
  {
    BracketedRoundTrip(timestamp, LevelAndMessage(record));
    LevelAndMessageRoundTrip(record);
  }

  /** The parser accepts nothing but log entries: whatever it splits is rebuilt exactly. */
  lemma ParseLogEntryOnlyEntries(entry: string, timestamp: string, record: LogRecord)
    requires ParseLogEntry(entry) == Some((timestamp, record))
    ensures ']' !in timestamp
    ensures LogEntry(timestamp, record) == entry
  {
    var afterStamp := ParseBracketed(entry).value.1;
    BracketedOnly(entry, timestamp, afterStamp);
    LevelAndMessageOnly(afterStamp, record);
  }
}
