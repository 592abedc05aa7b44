/** The offline checker of a pipeline trace. It trusts nothing the driver
    believes: everything is recomputed from the rows. */
module TraceVerifier {
  import opened Outcomes
  import opened Ordering
  import opened Pipeline

  datatype Checks = Checks(
    expectedBatches: Option<int>,
    maxLag: int,
    maxBuffered: int,
    requireOverlap: bool,
    expectedPrefetchFailures: Option<int>,
    expectedStrictFallbacks: Option<int>,
    requireFaultInjection: bool)

  datatype Report = Report(
    consumed: nat,
    acceptedTokens: int,
    throughput: real,
    maxLag: int,
    maxBuffered: int,
    prefetchesStarted: nat,
    strictFallbacks: nat,
    prefetchFailures: nat,
    faults: nat,
    positiveLag: nat,
    finalVersion: int)

  predicate IntLeq(a: int, b: int) { a <= b }

  function IdsOf(consumed: seq<Event>): (ids: seq<int>)
    requires forall i | 0 <= i < |consumed| :: consumed[i].BatchConsumed?
    ensures |ids| == |consumed| && forall i | 0 <= i < |ids| :: ids[i] == consumed[i].id
  {
    seq(|consumed|, i requires 0 <= i < |consumed| => consumed[i].id)
  }

  function LagsOf(consumed: seq<Event>): (lags: seq<int>)
    requires forall i | 0 <= i < |consumed| :: consumed[i].BatchConsumed?
    ensures |lags| == |consumed| && forall i | 0 <= i < |lags| :: lags[i] == consumed[i].lag
  {
    seq(|consumed|, i requires 0 <= i < |consumed| => consumed[i].lag)
  }

  predicate Repeats(ids: seq<int>) {
    exists i, j | 0 <= i < j < |ids| :: ids[i] == ids[j]
  }

  function PositiveCount(lags: seq<int>): nat {
    if lags == [] then 0 else PositiveCount(lags[..|lags| - 1]) + if lags[|lags| - 1] > 0 then 1 else 0
  }

  function Largest(lags: seq<int>): int {
    if lags == [] then 0
    else if |lags| == 1 then lags[0]
    else Max(Largest(lags[..|lags| - 1]), lags[|lags| - 1])
  }

  predicate Unmet(expected: Option<int>, found: int) {
    expected.Some? && expected.value != found
  }

  predicate OutOfBound(lags: seq<int>, maxLag: int) {
    exists i | 0 <= i < |lags| :: lags[i] < 0 || lags[i] > maxLag
  }

  predicate Misaccounted(consumed: seq<Event>)
    requires forall i | 0 <= i < |consumed| :: consumed[i].BatchConsumed?
  {
    exists i | 0 <= i < |consumed| :: consumed[i].consumedVersion - consumed[i].version != consumed[i].lag
  }

  /** The checks in the order they are made; every complaint is a ValueError. */
  function VerifyTrace(rows: seq<Event>, c: Checks): Result<Report> {
    var completions := Completions(rows);
    if Failures(rows) != [] || |completions| != 1 then Failure(ValueError)
    else
      var consumed := Consumed(rows);
      var ids := IdsOf(consumed);
      var lags := LagsOf(consumed);
      var done := completions[0];
      if Unmet(c.expectedBatches, |consumed|) then Failure(ValueError)
      else if Repeats(ids) || ids != SortBy(IntLeq, ids) then Failure(ValueError)
      else if OutOfBound(lags, c.maxLag) then Failure(ValueError)
      else if Misaccounted(consumed) then Failure(ValueError)
      else if done.summary.counts.maxBuffered > c.maxBuffered then Failure(ValueError)
      else if done.summary.counts.maxLag > c.maxLag then Failure(ValueError)
      else if done.summary.throughput <= 0.0 then Failure(ValueError)
      else if c.requireOverlap && (Prefetches(rows) == [] || PositiveCount(lags) == 0) then Failure(ValueError)
      else if Unmet(c.expectedPrefetchFailures, done.summary.counts.prefetchFailures) then Failure(ValueError)
      else if Unmet(c.expectedStrictFallbacks, done.summary.counts.strictFallbacks) then Failure(ValueError)
      else if c.requireFaultInjection && |Faults(rows)| != 1 then Failure(ValueError)
      else Success(Report(
        |consumed|, done.summary.counts.acceptedTokens, done.summary.throughput, Largest(lags),
        done.summary.counts.maxBuffered,
        |Prefetches(rows)|, done.summary.counts.strictFallbacks, done.summary.counts.prefetchFailures, |Faults(rows)|,
        PositiveCount(lags), done.finalVersion))
  }

  ghost predicate Ascending(consumed: seq<Event>)
    requires forall i | 0 <= i < |consumed| :: consumed[i].BatchConsumed?
  {
    forall i, j | 0 <= i < j < |consumed| :: consumed[i].id < consumed[j].id
  }

  /** A consumed batch whose lag is right and within the bound. */
  predicate Accounted(e: Event, maxLag: int) {
    e.BatchConsumed? && e.lag == e.consumedVersion - e.version && 0 <= e.lag <= maxLag
  }

  ghost predicate AllAccounted(consumed: seq<Event>, maxLag: int) {
    forall i | 0 <= i < |consumed| :: Accounted(consumed[i], maxLag)
  }

  ghost predicate SomeLagged(consumed: seq<Event>)
    requires forall i | 0 <= i < |consumed| :: consumed[i].BatchConsumed?
  {
    exists i :: 0 <= i < |consumed| && consumed[i].lag > 0
  }

  /** What a trace has to look like, said without the checker's intermediate
      lists: ids strictly ascending, every lag the true one and bounded. */
  ghost predicate Acceptable(rows: seq<Event>, c: Checks) {
    && Failures(rows) == []
    && |Completions(rows)| == 1
    && Ascending(Consumed(rows))
    && AllAccounted(Consumed(rows), c.maxLag)
    && var s := Completions(rows)[0].summary;
       && s.counts.maxBuffered <= c.maxBuffered && s.counts.maxLag <= c.maxLag && s.throughput > 0.0
       && (c.expectedBatches.Some? ==> c.expectedBatches.value == |Consumed(rows)|)
       && (c.expectedPrefetchFailures.Some? ==> c.expectedPrefetchFailures.value == s.counts.prefetchFailures)
       && (c.expectedStrictFallbacks.Some? ==> c.expectedStrictFallbacks.value == s.counts.strictFallbacks)
       && (c.requireOverlap ==> Prefetches(rows) != [] && SomeLagged(Consumed(rows)))
       && (c.requireFaultInjection ==> |Faults(rows)| == 1)
  }

  lemma IntOrder()
    ensures TotalPreorder(IntLeq)
  {}

  lemma SortedMeansFixed(ids: seq<int>)
    ensures ids == SortBy(IntLeq, ids) <==> Sorted(IntLeq, ids)
  {
    IntOrder();
    SortSorts(IntLeq, ids);
    SortPermutes(IntLeq, ids);
    if Sorted(IntLeq, ids) {
      SortedIsUnique(IntLeq, ids, SortBy(IntLeq, ids));
    }
  }

  lemma AscendingMeansNoComplaint(consumed: seq<Event>)
    requires forall i | 0 <= i < |consumed| :: consumed[i].BatchConsumed?
    ensures var ids := IdsOf(consumed);
      Ascending(consumed) <==> !Repeats(ids) && ids == SortBy(IntLeq, ids)
  {
    var ids := IdsOf(consumed);
    SortedMeansFixed(ids);
    if !Repeats(ids) && Sorted(IntLeq, ids) {
      forall i, j | 0 <= i < j < |consumed| ensures consumed[i].id < consumed[j].id {
        assert IntLeq(ids[i], ids[j]) && ids[i] != ids[j];
      }
    }
    if Ascending(consumed) {
      assert forall i, j | 0 <= i < j < |ids| :: consumed[i].id < consumed[j].id;
    }
  }

  lemma {:induction false} PositiveCountMeansSome(lags: seq<int>)
    ensures PositiveCount(lags) > 0 <==> exists i :: 0 <= i < |lags| && lags[i] > 0
  {
    if lags != [] {
      var n := |lags| - 1;
      PositiveCountMeansSome(lags[..n]);
      if i :| 0 <= i < |lags| && lags[i] > 0 {
        assert i < n ==> lags[..n][i] > 0;
      }
      if PositiveCount(lags[..n]) > 0 {
        var i :| 0 <= i < |lags[..n]| && lags[..n][i] > 0;
        assert lags[i] > 0;
      }
    }
  }

  lemma LaggedMeansCounted(consumed: seq<Event>)
    requires forall i | 0 <= i < |consumed| :: consumed[i].BatchConsumed?
    ensures SomeLagged(consumed) <==> PositiveCount(LagsOf(consumed)) > 0
  {
    var lags := LagsOf(consumed);
    PositiveCountMeansSome(lags);
    if i :| 0 <= i < |lags| && lags[i] > 0 {
      assert consumed[i].lag > 0;
    }
    if SomeLagged(consumed) {
      var i :| 0 <= i < |consumed| && consumed[i].lag > 0;
      assert lags[i] > 0;
    }
  }

  lemma AccountingSplits(consumed: seq<Event>, maxLag: int)
    requires forall i | 0 <= i < |consumed| :: consumed[i].BatchConsumed?
    ensures AllAccounted(consumed, maxLag) <==> !OutOfBound(LagsOf(consumed), maxLag) && !Misaccounted(consumed)
  {
    var lags := LagsOf(consumed);
    if i :| 0 <= i < |lags| && (lags[i] < 0 || lags[i] > maxLag) {
      assert !Accounted(consumed[i], maxLag);
    }
    if i :| 0 <= i < |consumed| && consumed[i].consumedVersion - consumed[i].version != consumed[i].lag {
      assert !Accounted(consumed[i], maxLag);
    }
    if i :| 0 <= i < |consumed| && !Accounted(consumed[i], maxLag) {
      assert consumed[i].consumedVersion - consumed[i].version != consumed[i].lag || lags[i] < 0 || lags[i] > maxLag;
    }
  }

  /** The checker accepts exactly the acceptable traces. */
  lemma AcceptsExactlyAcceptable(rows: seq<Event>, c: Checks)
    ensures VerifyTrace(rows, c).Success? <==> Acceptable(rows, c)
    ensures !Acceptable(rows, c) ==> VerifyTrace(rows, c) == Failure(ValueError)
  {
    var consumed := Consumed(rows);
    AscendingMeansNoComplaint(consumed);
    LaggedMeansCounted(consumed);
    AccountingSplits(consumed, c.maxLag);
  }

  /** A failure row of any run in the file, or last rows of two completed ones,
      and the file is refused. */
  lemma SpoiltFileIsRefused(earlier: seq<Event>, rows: seq<Event>, c: Checks)
    requires Failures(earlier) != [] || Failures(rows) != [] || |Completions(earlier)| + |Completions(rows)| != 1
    ensures VerifyTrace(earlier + rows, c) == Failure(ValueError)
  {
    OnlyConcat(IsComplete, earlier, rows);
    OnlyConcat(IsFailed, earlier, rows);
  }
}
