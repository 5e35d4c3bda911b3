/** The summary of a batch of results (`AppHealthChecker.generate_summary`). */
module Summaries {
  import opened HealthChecker

  /** The number of results whose status is in `group`. */
  function CountIn(results: seq<CheckResult>, group: set<Status>): (n: nat)
    ensures n <= |results|
  {
    if results == [] then 0
    else (if results[0].status in group then 1 else 0) + CountIn(results[1..], group)
  }

  /** The statuses counted under "errors". */
  const ErrorStatuses: set<Status> := {ClientError, ServerError, Error}
  /** The statuses that no counter other than the total accounts for. */
  const UncountedStatuses: set<Status> := {Redirect, Unknown}

  datatype Summary = Summary(total: nat, up: nat, down: nat, errors: nat)

  /** The counts of a batch. Every result is counted in the total; up, down and errors
      together with the REDIRECT and UNKNOWN results make up the total. */
  function Summarize(results: seq<CheckResult>): (s: Summary)
    ensures s.total == |results|
    ensures s.up + s.down + s.errors + CountIn(results, UncountedStatuses) == s.total
  {
    CountPartition(results);
    Summary(|results|, CountIn(results, {Up}), CountIn(results, {Down}),
            CountIn(results, ErrorStatuses))
  }

  /** Counting over two disjoint groups is counting over their union. */
  lemma {:induction false} CountInUnion(results: seq<CheckResult>, a: set<Status>, b: set<Status>)
    requires a !! b
    ensures CountIn(results, a + b) == CountIn(results, a) + CountIn(results, b)
    decreases |results|
  {
    if results != [] {
      CountInUnion(results[1..], a, b);
    }
  }

  /** Counting over a group that holds every status counts every result. */
  lemma {:induction false} CountInEverything(results: seq<CheckResult>, group: set<Status>)
    requires forall s: Status :: s in group
    ensures CountIn(results, group) == |results|
    decreases |results|
  {
    if results != [] {
      CountInEverything(results[1..], group);
    }
  }

  /** No result is counted exactly when none has a status in the group. */
  lemma {:induction false} CountInZero(results: seq<CheckResult>, group: set<Status>)
    ensures CountIn(results, group) == 0 <==>
            forall i :: 0 <= i < |results| ==> results[i].status !in group
    decreases |results|
  {
    if results != [] {
      CountInZero(results[1..], group);
      assert forall i :: 1 <= i < |results| ==> results[i] == results[1..][i - 1];
    }
  }

  /** Counts over a concatenation add up: the counts of a batch are the sums over its parts. */
  lemma {:induction false} CountInAppend(a: seq<CheckResult>, b: seq<CheckResult>, group: set<Status>)
    ensures CountIn(a + b, group) == CountIn(a, group) + CountIn(b, group)
    decreases |a|
  {
    if a != [] {
      CountInAppend(a[1..], b, group);
      assert (a + b)[1..] == a[1..] + b;
    } else {
      assert a + b == b;
    }
  }

  /** Every status falls in exactly one of up, down, errors and uncounted. */
  lemma CountPartition(results: seq<CheckResult>)
    ensures CountIn(results, {Up}) + CountIn(results, {Down}) + CountIn(results, ErrorStatuses)
            + CountIn(results, UncountedStatuses) == |results|
  {
    CountInUnion(results, {Up}, {Down});
    CountInUnion(results, {Up, Down}, ErrorStatuses);
    CountInUnion(results, {Up, Down} + ErrorStatuses, UncountedStatuses);
    var all := {Up, Down} + ErrorStatuses + UncountedStatuses;
    assert forall s: Status :: s in all by {
      forall s: Status ensures s in all {
        match s
        case Up =>
        case Down =>
        case Redirect =>
        case ClientError =>
        case ServerError =>
        case Error =>
        case Unknown =>
      }
    }
    CountInEverything(results, all);
  }

  /** The summary's gap: up + down + errors never exceeds the total, and equals it exactly
      when no result is REDIRECT or UNKNOWN. */
  lemma SummaryGap(results: seq<CheckResult>)
    ensures Summarize(results).up + Summarize(results).down + Summarize(results).errors
            <= Summarize(results).total
    ensures Summarize(results).up + Summarize(results).down + Summarize(results).errors
            == Summarize(results).total
            <==> forall i :: 0 <= i < |results| ==> results[i].status !in UncountedStatuses
  {
    CountInZero(results, UncountedStatuses);
  }

  /** A batch of three where the first answers 200, the second times out and the third answers
      503 has one application up, one down and one error. */
  lemma ThreeTargetBatch(a: App, b: App, c: App, t1: nat, t3: nat, timeout: RaisedException)
    requires a.expectedStatus.GetOr(DefaultExpectedStatus) == 200
    requires c.expectedStatus.GetOr(DefaultExpectedStatus) == 200
    requires timeout.isTimeout
    ensures Summarize([CheckApplication(a, Response(200, t1)),
                       CheckApplication(b, Raised(timeout)),
                       CheckApplication(c, Response(503, t3))]) == Summary(3, 1, 1, 1)
  {
    var rs := [CheckApplication(a, Response(200, t1)),
               CheckApplication(b, Raised(timeout)),
               CheckApplication(c, Response(503, t3))];
    assert rs[0].status == Up && rs[1].status == Down && rs[2].status == ServerError;
    assert rs[1..][1..] == [rs[2]];
    assert rs[1..][1..][1..] == [];
    forall g: set<Status>
      ensures CountIn(rs, g) == (if Up in g then 1 else 0) + (if Down in g then 1 else 0)
                                + (if ServerError in g then 1 else 0)
    {
      assert CountIn(rs[1..][1..], g) == (if ServerError in g then 1 else 0);
    }
  }
}
