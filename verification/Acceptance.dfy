/** What the offline checker makes of the driver's traces. */
module Acceptance {
  import opened Outcomes
  import opened Pipeline
  import opened RolloutTrace
  import opened TraceVerifier

  /** Rows written right are rows the checker finds right. */
  lemma ProgressIsAccounted(consumed: seq<Event>, generated: seq<Event>, start: int, first: int, maxLag: int)
    requires Progress(consumed, generated, start, first, maxLag)
    ensures Ascending(consumed)
    ensures forall k | 0 <= k < |consumed| ::
              && consumed[k].id == start + k && consumed[k].consumedVersion == first + k
              && consumed[k].lag == consumed[k].consumedVersion - consumed[k].version
              && consumed[k].lag == if generated[k].mode == Prefetch then 1 else 0
  {
    forall k | 0 <= k < |consumed|
      ensures && consumed[k].BatchConsumed? && consumed[k].id == start + k && consumed[k].consumedVersion == first + k
              && consumed[k].lag == consumed[k].consumedVersion - consumed[k].version
              && consumed[k].lag == if generated[k].mode == Prefetch then 1 else 0
    {
      assert ConsumedRight(consumed[k], generated[k], first, k)
          && GeneratedRight(generated[k], start, first, k, maxLag);
    }
  }

  lemma {:induction false} MaxLagBounds(consumed: seq<Event>, bound: int)
    requires (forall i | 0 <= i < |consumed| :: consumed[i].BatchConsumed?) && bound >= 0
    ensures MaxLag(consumed) <= bound <==> forall i | 0 <= i < |consumed| :: consumed[i].lag <= bound
  {
    if consumed != [] {
      var n := |consumed| - 1;
      MaxLagBounds(consumed[..n], bound);
      assert forall i | 0 <= i < n :: consumed[..n][i] == consumed[i];
    }
  }

  lemma AllAccountedWithin(consumed: seq<Event>, generated: seq<Event>, start: int, first: int, maxLag: int, bound: int)
    requires Progress(consumed, generated, start, first, maxLag) && consumed != []
    ensures AllAccounted(consumed, bound) <==> bound >= 0 && (SomeLagged(consumed) ==> bound >= 1)
    ensures AllAccounted(consumed, bound) ==> MaxLag(consumed) <= bound
  {
    ProgressIsAccounted(consumed, generated, start, first, maxLag);
    assert GeneratedRight(generated[0], start, first, 0, maxLag);
    assert Accounted(consumed[0], bound) <==> bound >= 0;
    if bound >= 0 { MaxLagBounds(consumed, bound); }
    if SomeLagged(consumed) && AllAccounted(consumed, bound) {
      var i :| 0 <= i < |consumed| && consumed[i].lag > 0;
      assert Accounted(consumed[i], bound);
    }
    if bound >= 0 && (SomeLagged(consumed) ==> bound >= 1) {
      forall i | 0 <= i < |consumed| ensures Accounted(consumed[i], bound) {
        assert consumed[i].lag > 0 ==> SomeLagged(consumed);
      }
    }
  }

  lemma ProductSign(q: real, e: real)
    requires e > 0.0
    ensures q * e > 0.0 <==> q > 0.0
  {
    if q > 0.0 {
      assert q * e > 0.0;
    } else {
      assert q * e <= 0.0;
    }
  }

  lemma PositiveQuotient(tokens: int, elapsed: real)
    requires elapsed > 0.0
    ensures tokens as real / elapsed > 0.0 <==> tokens > 0
  {
    var q := tokens as real / elapsed;
    assert q * elapsed == tokens as real;
    ProductSign(q, elapsed);
  }

  lemma {:induction false} LagMeansPrefetch(consumed: seq<Event>, generated: seq<Event>, start: int, first: int,
                                            maxLag: int)
    requires Progress(consumed, generated, start, first, maxLag) && SomeLagged(consumed)
    ensures CountMode(Prefetch, generated) > 0
  {
    ProgressIsAccounted(consumed, generated, start, first, maxLag);
    var i :| 0 <= i < |consumed| && consumed[i].lag > 0;
    CountsPrefetch(generated, i);
  }

  lemma {:induction false} CountsPrefetch(generated: seq<Event>, i: nat)
    requires i < |generated| && generated[i].RolloutGenerated? && generated[i].mode == Prefetch
    ensures CountMode(Prefetch, generated) > 0
  {
    var n := |generated| - 1;
    if i < n { CountsPrefetch(generated[..n], i); }
  }

  /** The producer satisfies the checker. A completed trace is accepted under
      any checks that ask no more than what the run did, and under no others. */
  lemma ProducerMeetsChecker(rows: seq<Event>, start: int, n: nat, maxLag: int, c: Checks)
    requires CompletedTrace(rows, start, n, maxLag)
    ensures var counts := Completions(rows)[0].summary.counts;
      VerifyTrace(rows, c).Success? <==>
        && TokenTotal(Consumed(rows)) > 0
        && (c.expectedBatches.Some? ==> c.expectedBatches.value == n)
        && c.maxLag >= 0 && (SomeLagged(Consumed(rows)) ==> c.maxLag >= 1)
        && c.maxBuffered >= (if n > 1 then 1 else 0)
        && (c.requireOverlap ==> SomeLagged(Consumed(rows)))
        && (c.expectedPrefetchFailures.Some? ==> c.expectedPrefetchFailures.value == counts.prefetchFailures)
        && (c.expectedStrictFallbacks.Some? ==> c.expectedStrictFallbacks.value == counts.strictFallbacks)
        && (c.requireFaultInjection ==> |Faults(rows)| == 1)
  {
    var done := Completions(rows)[0];
    var consumed, generated, first := Consumed(rows), Generated(rows), done.finalVersion - n;
    AcceptsExactlyAcceptable(rows, c);
    ViewBatches(rows);
    ViewTotals(rows);
    ProgressIsAccounted(consumed, generated, start, first, maxLag);
    AllAccountedWithin(consumed, generated, start, first, maxLag, c.maxLag);
    PositiveQuotient(done.summary.counts.acceptedTokens, done.summary.elapsed);
    if SomeLagged(consumed) { LagMeansPrefetch(consumed, generated, start, first, maxLag); }
  }

  lemma {:induction false} LargestIsMax(consumed: seq<Event>)
    requires forall i | 0 <= i < |consumed| :: consumed[i].BatchConsumed? && consumed[i].lag >= 0
    ensures Largest(LagsOf(consumed)) == MaxLag(consumed)
  {
    if consumed != [] {
      var n := |consumed| - 1;
      LargestIsMax(consumed[..n]);
      assert LagsOf(consumed)[..n] == LagsOf(consumed[..n]);
      MaxLagNotNegative(consumed[..n]);
    }
  }

  lemma {:induction false} MaxLagNotNegative(consumed: seq<Event>)
    requires forall i | 0 <= i < |consumed| :: consumed[i].BatchConsumed?
    ensures MaxLag(consumed) >= 0
  {
    if consumed != [] { MaxLagNotNegative(consumed[..|consumed| - 1]); }
  }

  lemma {:induction false} LagsCountPrefetched(consumed: seq<Event>, generated: seq<Event>, start: int, first: int,
                                               maxLag: int)
    requires Progress(consumed, generated, start, first, maxLag) && |consumed| == |generated|
    ensures PositiveCount(LagsOf(consumed)) == CountMode(Prefetch, generated)
  {
    if consumed != [] {
      var n := |consumed| - 1;
      ProgressIsAccounted(consumed, generated, start, first, maxLag);
      LagsCountPrefetched(consumed[..n], generated[..n], start, first, maxLag);
      assert LagsOf(consumed)[..n] == LagsOf(consumed[..n]);
    }
  }

  /** What the checker reports of an accepted run agrees with the run itself: its
      batches and their tokens, its largest lag, what it prefetched in vain or
      not, and the version it left. */
  lemma ReportAgrees(rows: seq<Event>, start: int, n: nat, maxLag: int, c: Checks)
    requires CompletedTrace(rows, start, n, maxLag) && VerifyTrace(rows, c).Success?
    ensures var r, done := VerifyTrace(rows, c).value, Completions(rows)[0];
      && r.consumed == n && r.acceptedTokens == TokenTotal(Consumed(rows))
      && r.maxLag == MaxLag(Consumed(rows)) && r.positiveLag == CountMode(Prefetch, Generated(rows))
      && r.prefetchesStarted == r.positiveLag + r.prefetchFailures
      && r.strictFallbacks == CountMode(StrictFallback, Generated(rows)) && r.strictFallbacks + r.positiveLag == n - 1
      && r.faults <= 1 && r.maxBuffered == (if n > 1 then 1 else 0)
      && r.throughput == r.acceptedTokens as real / done.summary.elapsed && r.finalVersion == done.finalVersion
  {
    var first := Completions(rows)[0].finalVersion - n;
    CountsAgree(rows, start, n, maxLag);
    LagsAgree(Consumed(rows), Generated(rows), start, first, maxLag);
    ModesAddUp(Generated(rows), start, first, maxLag);
  }

  lemma CountsAgree(rows: seq<Event>, start: int, n: nat, maxLag: int)
    requires CompletedTrace(rows, start, n, maxLag)
    ensures var c := Completions(rows)[0].summary.counts;
      && c.acceptedTokens == TokenTotal(Consumed(rows))
      && c.strictFallbacks == CountMode(StrictFallback, Generated(rows))
  {
    ViewBatches(rows);
    ViewTotals(rows);
    ViewModes(rows);
  }

  lemma LagsAgree(consumed: seq<Event>, generated: seq<Event>, start: int, first: int, maxLag: int)
    requires Progress(consumed, generated, start, first, maxLag) && |consumed| == |generated|
    ensures forall i | 0 <= i < |consumed| :: consumed[i].BatchConsumed?
    ensures Largest(LagsOf(consumed)) == MaxLag(consumed)
    ensures PositiveCount(LagsOf(consumed)) == CountMode(Prefetch, generated)
  {
    LagsAreNotNegative(consumed, generated, start, first, maxLag);
    LargestIsMax(consumed);
    LagsCountPrefetched(consumed, generated, start, first, maxLag);
  }

  lemma LagsAreNotNegative(consumed: seq<Event>, generated: seq<Event>, start: int, first: int, maxLag: int)
    requires Progress(consumed, generated, start, first, maxLag)
    ensures forall i | 0 <= i < |consumed| :: consumed[i].BatchConsumed? && consumed[i].lag >= 0
  {
    ProgressIsAccounted(consumed, generated, start, first, maxLag);
  }

  /** The checks a run is gated on: all its batches, its lag bound, a buffer of
      one. */
  function Gate(n: int, maxLag: int): Checks {
    Checks(Some(n), maxLag, 1, false, None, None, false)
  }

  lemma LagNeedsLeave(consumed: seq<Event>, generated: seq<Event>, start: int, first: int, maxLag: int)
    requires Progress(consumed, generated, start, first, maxLag) && SomeLagged(consumed)
    ensures maxLag == 1
  {
    ProgressIsAccounted(consumed, generated, start, first, maxLag);
    var i :| 0 <= i < |consumed| && consumed[i].lag > 0;
    assert GeneratedRight(generated[i], start, first, i, maxLag);
  }

  lemma CompletedPassesGate(rows: seq<Event>, start: int, n: nat, maxLag: int)
    requires CompletedTrace(rows, start, n, maxLag) && 0 <= maxLag
    ensures VerifyTrace(rows, Gate(n, maxLag)).Success? <==> TokenTotal(Consumed(rows)) > 0
  {
    ProducerMeetsChecker(rows, start, n, maxLag, Gate(n, maxLag));
    if SomeLagged(Consumed(rows)) {
      LagNeedsLeave(Consumed(rows), Generated(rows), start, Completions(rows)[0].finalVersion - n, maxLag);
    }
  }

  /** The checks on a run's last row alone, and on its batches one by one. */
  function Plainest(c: Checks): Checks {
    c.(expectedBatches := None, requireOverlap := false, requireFaultInjection := false)
  }

  /** What a file may hold already if a run starting at this id is to be
      appended: no last row, and right batches with lower ids. */
  ghost predicate LeavesRoom(earlier: seq<Event>, start: int, maxLag: int) {
    && Completions(earlier) == [] && Failures(earlier) == []
    && Ascending(Consumed(earlier)) && AllAccounted(Consumed(earlier), maxLag)
    && forall i | 0 <= i < |Consumed(earlier)| :: Consumed(earlier)[i].id < start
  }

  lemma AscendingAppended(a: seq<Event>, b: seq<Event>, start: int)
    requires (forall i | 0 <= i < |a| :: a[i].BatchConsumed?) && (forall i | 0 <= i < |b| :: b[i].BatchConsumed?)
    requires b != [] && forall k | 0 <= k < |b| :: b[k].id == start + k
    ensures Ascending(a + b) <==> Ascending(a) && forall i | 0 <= i < |a| :: a[i].id < start
  {
    if Ascending(a + b) {
      forall i | 0 <= i < |a| ensures a[i].id < start {
        assert (a + b)[i] == a[i] && (a + b)[|a|] == b[0];
      }
      forall i, j | 0 <= i < j < |a| ensures a[i].id < a[j].id {
        assert (a + b)[i] == a[i] && (a + b)[j] == a[j];
      }
    }
  }

  lemma AccountedAppended(a: seq<Event>, b: seq<Event>, maxLag: int)
    ensures AllAccounted(a + b, maxLag) <==> AllAccounted(a, maxLag) && AllAccounted(b, maxLag)
  {
    if AllAccounted(a + b, maxLag) {
      forall i | 0 <= i < |a| ensures Accounted(a[i], maxLag) { assert (a + b)[i] == a[i]; }
      forall i | 0 <= i < |b| ensures Accounted(b[i], maxLag) { assert (a + b)[|a| + i] == b[i]; }
    }
  }

  lemma LaggedAppended(a: seq<Event>, b: seq<Event>)
    requires (forall i | 0 <= i < |a| :: a[i].BatchConsumed?) && (forall i | 0 <= i < |b| :: b[i].BatchConsumed?)
    ensures SomeLagged(a + b) <==> SomeLagged(a) || SomeLagged(b)
  {
    if SomeLagged(a) {
      var i :| 0 <= i < |a| && a[i].lag > 0;
      assert (a + b)[i].lag > 0;
    }
    if SomeLagged(b) {
      var i :| 0 <= i < |b| && b[i].lag > 0;
      assert (a + b)[|a| + i].lag > 0;
    }
    if SomeLagged(a + b) {
      var i :| 0 <= i < |a + b| && (a + b)[i].lag > 0;
      if i < |a| { assert a[i].lag > 0; } else { assert b[i - |a|].lag > 0; }
    }
  }

  lemma OthersSplit(earlier: seq<Event>, rows: seq<Event>)
    ensures |Completions(earlier + rows)| == |Completions(earlier)| + |Completions(rows)|
    ensures Completions(earlier) == [] ==> Completions(earlier + rows) == Completions(rows)
    ensures Completions(rows) == [] ==> Completions(earlier + rows) == Completions(earlier)
    ensures Failures(earlier + rows) == [] <==> Failures(earlier) == [] && Failures(rows) == []
    ensures Prefetches(earlier + rows) == Prefetches(earlier) + Prefetches(rows)
    ensures |Faults(earlier + rows)| == |Faults(earlier)| + |Faults(rows)|
  {
    OnlyConcat(IsComplete, earlier, rows);
    OnlyConcat(IsFailed, earlier, rows);
    OnlyConcat(IsPrefetch, earlier, rows);
    OnlyConcat(IsFault, earlier, rows);
  }

  lemma ConsumedSplits(earlier: seq<Event>, rows: seq<Event>, start: int, maxLag: int)
    requires Consumed(rows) != [] && forall k | 0 <= k < |Consumed(rows)| :: Consumed(rows)[k].id == start + k
    ensures |Consumed(earlier + rows)| == |Consumed(earlier)| + |Consumed(rows)|
    ensures Ascending(Consumed(rows))
    ensures Ascending(Consumed(earlier + rows)) <==>
              Ascending(Consumed(earlier)) && forall i | 0 <= i < |Consumed(earlier)| :: Consumed(earlier)[i].id < start
    ensures AllAccounted(Consumed(earlier + rows), maxLag) <==>
              AllAccounted(Consumed(earlier), maxLag) && AllAccounted(Consumed(rows), maxLag)
    ensures SomeLagged(Consumed(earlier + rows)) <==> SomeLagged(Consumed(earlier)) || SomeLagged(Consumed(rows))
  {
    OnlyConcat(IsConsumed, earlier, rows);
    AscendingAppended(Consumed(earlier), Consumed(rows), start);
    AccountedAppended(Consumed(earlier), Consumed(rows), maxLag);
    LaggedAppended(Consumed(earlier), Consumed(rows));
  }

  /** The checks on the whole file, when its last run completed. */
  lemma AppendedIsAcceptable(earlier: seq<Event>, rows: seq<Event>, start: int, c: Checks)
    requires |Completions(rows)| == 1 && Failures(rows) == [] && Consumed(rows) != []
    requires forall k | 0 <= k < |Consumed(rows)| :: Consumed(rows)[k].id == start + k
    ensures Acceptable(earlier + rows, c) <==>
              && LeavesRoom(earlier, start, c.maxLag) && Acceptable(rows, Plainest(c))
              && (c.expectedBatches.Some? ==> c.expectedBatches.value == |Consumed(earlier)| + |Consumed(rows)|)
              && (c.requireOverlap ==>
                    && Prefetches(earlier) + Prefetches(rows) != []
                    && (SomeLagged(Consumed(earlier)) || SomeLagged(Consumed(rows))))
              && (c.requireFaultInjection ==> |Faults(earlier)| + |Faults(rows)| == 1)
  {
    ConsumedSplits(earlier, rows, start, c.maxLag);
    OthersSplit(earlier, rows);
  }

  /** The checker reads the whole file. A completed run appended to what earlier
      runs left is accepted exactly if those left room for it and the checks ask
      no more than all of them did. */
  lemma AppendedRunMeetsChecker(earlier: seq<Event>, rows: seq<Event>, start: int, n: nat, maxLag: int, c: Checks)
    requires CompletedTrace(rows, start, n, maxLag)
    ensures var counts := Completions(rows)[0].summary.counts;
      VerifyTrace(earlier + rows, c).Success? <==>
        && LeavesRoom(earlier, start, c.maxLag)
        && TokenTotal(Consumed(rows)) > 0
        && (c.expectedBatches.Some? ==> c.expectedBatches.value == |Consumed(earlier)| + n)
        && c.maxLag >= 0 && (SomeLagged(Consumed(rows)) ==> c.maxLag >= 1)
        && c.maxBuffered >= (if n > 1 then 1 else 0)
        && (c.requireOverlap ==>
              && Prefetches(earlier) + Prefetches(rows) != []
              && (SomeLagged(Consumed(earlier)) || SomeLagged(Consumed(rows))))
        && (c.expectedPrefetchFailures.Some? ==> c.expectedPrefetchFailures.value == counts.prefetchFailures)
        && (c.expectedStrictFallbacks.Some? ==> c.expectedStrictFallbacks.value == counts.strictFallbacks)
        && (c.requireFaultInjection ==> |Faults(earlier)| + |Faults(rows)| == 1)
  {
    var first := Completions(rows)[0].finalVersion - n;
    ProgressIsAccounted(Consumed(rows), Generated(rows), start, first, maxLag);
    AppendedIsAcceptable(earlier, rows, start, c);
    AcceptsExactlyAcceptable(earlier + rows, c);
    AcceptsExactlyAcceptable(rows, Plainest(c));
    ProducerMeetsChecker(rows, start, n, maxLag, Plainest(c));
  }

  /** No run in the file trained on a batch or wrote a last row. */
  ghost predicate Unspoilt(earlier: seq<Event>) {
    Completions(earlier) == [] && Failures(earlier) == [] && Consumed(earlier) == []
  }

  /** Gated on the batches of one run, a file passes exactly if that run counted
      a token and no other run in the file got as far as a batch or a last row. */
  lemma AppendedPassesGate(earlier: seq<Event>, rows: seq<Event>, start: int, n: nat, maxLag: int)
    requires CompletedTrace(rows, start, n, maxLag) && 0 <= maxLag
    ensures VerifyTrace(earlier + rows, Gate(n, maxLag)).Success? <==>
              TokenTotal(Consumed(rows)) > 0 && Unspoilt(earlier)
  {
    AppendedRunMeetsChecker(earlier, rows, start, n, maxLag, Gate(n, maxLag));
    if SomeLagged(Consumed(rows)) {
      LagNeedsLeave(Consumed(rows), Generated(rows), start, Completions(rows)[0].finalVersion - n, maxLag);
    }
  }

  /** Rows that report no batch and no ending do not change the gate's verdict. */
  lemma QuietRowsChangeNothing(earlier: seq<Event>, rows: seq<Event>, n: int, maxLag: int)
    requires Unspoilt(rows)
    ensures VerifyTrace(earlier + rows, Gate(n, maxLag)).Success? <==> VerifyTrace(earlier, Gate(n, maxLag)).Success?
  {
    OthersSplit(earlier, rows);
    OnlyConcat(IsConsumed, earlier, rows);
    assert Consumed(earlier) + [] == Consumed(earlier);
    AcceptsExactlyAcceptable(earlier + rows, Gate(n, maxLag));
    AcceptsExactlyAcceptable(earlier, Gate(n, maxLag));
  }

  /** A run that failed, or that had nothing to train on, is never accepted. */
  lemma OthersAreRefused(rows: seq<Event>, c: Checks)
    requires Failures(rows) != [] || Completions(rows) == []
    ensures VerifyTrace(rows, c) == Failure(ValueError)
  {}
}
