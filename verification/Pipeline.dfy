/** What the one-step-overlap driver keeps count of and writes down: the
    statistics, the event trace, and the readings of versions and tokens. */
module Pipeline {
  import opened Outcomes
  import opened Buffer

  /** What one rollout engine answers when asked for its weight version. */
  datatype EngineReport = Missing | Malformed | Version(version: int)

  /** The version every engine agrees on. */
  method NormalizeWeightVersions(values: seq<EngineReport>) returns (r: Result<int>)
    ensures r.Success? <==> values != [] && values[0].Version? && forall i | 0 <= i < |values| :: values[i] == values[0]
    ensures r.Success? ==> values[0] == Version(r.value)
    ensures r.Failure? ==> r.error == ValueError
  {
    if values == [] { return Failure(ValueError); }
    var parsed: seq<int> := [];
    for k := 0 to |values|
      invariant |parsed| == k
      invariant forall i | 0 <= i < k :: values[i] == Version(parsed[i])
    {
      match values[k]
      case Missing => return Failure(ValueError);
      case Malformed => return Failure(ValueError);
      case Version(v) => parsed := parsed + [v];
    }
    var distinct := set v | v in parsed;
    if exists a, b | a in distinct && b in distinct :: a != b {
      MixedVersionsShow(values, parsed, distinct);
      return Failure(ValueError);
    }
    forall i | 0 <= i < |values| ensures values[i] == values[0] {
      assert parsed[i] in distinct && parsed[0] in distinct;
    }
    return Success(parsed[0]);
  }

  lemma MixedVersionsShow(values: seq<EngineReport>, parsed: seq<int>, distinct: set<int>)
    requires values != [] && |parsed| == |values| && distinct == set v | v in parsed
    requires forall i | 0 <= i < |values| :: values[i] == Version(parsed[i])
    requires exists a, b | a in distinct && b in distinct :: a != b
    ensures !(forall i | 0 <= i < |values| :: values[i] == values[0])
  {
    var a, b :| a in distinct && b in distinct && a != b;
    var i :| 0 <= i < |parsed| && parsed[i] == a;
    var j :| 0 <= j < |parsed| && parsed[j] == b;
    assert values[i] != values[j];
  }

  function LengthSum(lengths: seq<int>): int {
    if lengths == [] then 0 else LengthSum(lengths[..|lengths| - 1]) + lengths[|lengths| - 1]
  }

  function Tokens(payload: Payload): int {
    if payload == [] then 0 else Tokens(payload[..|payload| - 1]) + LengthSum(payload[|payload| - 1])
  }

  lemma TakeAll<T>(s: seq<T>)
    ensures s[..|s|] == s
    ensures forall k | 0 <= k < |s| :: s[..k + 1][..k] == s[..k]
  {}

  method CountGeneratedTokens(partitions: Payload) returns (total: int)
    ensures total == Tokens(partitions)
  {
    total := 0;
    TakeAll(partitions);
    for k := 0 to |partitions|
      invariant total == Tokens(partitions[..k])
    {
      var subtotal := SumLengths(partitions[k]);
      total := total + subtotal;
    }
  }

  method SumLengths(lengths: seq<int>) returns (total: int)
    ensures total == LengthSum(lengths)
  {
    total := 0;
    TakeAll(lengths);
    for k := 0 to |lengths|
      invariant total == LengthSum(lengths[..k])
    {
      total := total + lengths[k];
    }
  }

  /** Splitting the lengths among partitions differently, keeping their order,
      counts the same tokens. */
  function Flatten(payload: Payload): seq<int> {
    if payload == [] then [] else Flatten(payload[..|payload| - 1]) + payload[|payload| - 1]
  }

  lemma {:induction false} SumConcat(a: seq<int>, b: seq<int>)
    ensures LengthSum(a + b) == LengthSum(a) + LengthSum(b)
  {
    if b == [] {
      assert a + b == a;
    } else {
      SumConcat(a, b[..|b| - 1]);
      assert (a + b)[..|a + b| - 1] == a + b[..|b| - 1];
    }
  }

  lemma {:induction false} TokensIgnorePartitioning(p: Payload)
    ensures Tokens(p) == LengthSum(Flatten(p))
  {
    if p != [] {
      TokensIgnorePartitioning(p[..|p| - 1]);
      SumConcat(Flatten(p[..|p| - 1]), p[|p| - 1]);
    }
  }

  lemma {:induction false} LengthChanges(lengths: seq<int>, i: nat, length: int)
    requires i < |lengths|
    ensures LengthSum(lengths[i := length]) == LengthSum(lengths) + length - lengths[i]
  {
    var n := |lengths| - 1;
    var after := lengths[i := length];
    if i == n {
      assert after[..n] == lengths[..n];
    } else {
      LengthChanges(lengths[..n], i, length);
      assert after[..n] == lengths[..n][i := length];
    }
  }

  /** One response that is longer by some tokens counts for just those tokens
      more, whichever partition it is in. */
  lemma {:induction false} TokensChange(p: Payload, k: nat, i: nat, length: int)
    requires k < |p| && i < |p[k]|
    ensures Tokens(p[k := p[k][i := length]]) == Tokens(p) + length - p[k][i]
  {
    var n := |p| - 1;
    var after := p[k := p[k][i := length]];
    if k == n {
      LengthChanges(p[n], i, length);
      assert after[..n] == p[..n];
    } else {
      TokensChange(p[..n], k, i, length);
      assert after[..n] == p[..n][k := p[k][i := length]];
    }
  }

  lemma {:induction false} NoTokens(p: Payload)
    requires forall k, i | 0 <= k < |p| && 0 <= i < |p[k]| :: p[k][i] == 0
    ensures Tokens(p) == 0
  {
    if p != [] {
      var n := |p| - 1;
      NoTokens(p[..n]);
      NoLength(p[n]);
    }
  }

  lemma {:induction false} NoLength(lengths: seq<int>)
    requires forall i | 0 <= i < |lengths| :: lengths[i] == 0
    ensures LengthSum(lengths) == 0
  {
    if lengths != [] { NoLength(lengths[..|lengths| - 1]); }
  }

  datatype Mode = Initial | Prefetch | StrictFallback

  /** The numbers the driver keeps, at one moment. */
  datatype Counts = Counts(
    completed: nat,
    acceptedTokens: int,
    staleBatches: nat,
    staleTokens: int,
    prefetchFailures: nat,
    strictFallbacks: nat,
    maxLag: int,
    maxBuffered: int)

  datatype Summary = Summary(counts: Counts, elapsed: real, throughput: real)

  datatype Event =
    | PipelineStarted(maxPrefetched: int, maxPolicyLag: int, strict: bool)
    | WeightUpdateComplete(version: int, after: Option<int>)
    | RolloutGenerated(id: int, version: int, tokens: int, mode: Mode)
    | BatchConsumed(id: int, version: int, consumedVersion: int, lag: int, tokens: int, buffered: int)
    | PrefetchStarted(id: int, version: int)
    | FaultInjected(id: int)
    | PrefetchFailed(id: int, error: Error)
    | PrefetchRejected(id: int, version: int, trainerVersion: int)
    | StrictFallbackComplete(id: int)
    | PipelineComplete(summary: Summary, finalVersion: int, bufferStaleBatches: nat, bufferStaleTokens: int)
    | PipelineFailed(summary: Summary, error: Error)

  function Only(kind: Event -> bool, rows: seq<Event>): (kept: seq<Event>)
    ensures forall i | 0 <= i < |kept| :: kind(kept[i])
  {
    if rows == [] then []
    else Only(kind, rows[..|rows| - 1]) + if kind(rows[|rows| - 1]) then [rows[|rows| - 1]] else []
  }

  predicate IsConsumed(e: Event) { e.BatchConsumed? }
  predicate IsGenerated(e: Event) { e.RolloutGenerated? }
  predicate IsPrefetch(e: Event) { e.PrefetchStarted? }
  predicate IsFault(e: Event) { e.FaultInjected? }
  predicate IsRejected(e: Event) { e.PrefetchRejected? }
  predicate IsComplete(e: Event) { e.PipelineComplete? }
  predicate IsFailed(e: Event) { e.PipelineFailed? }

  function Consumed(rows: seq<Event>): seq<Event> { Only(IsConsumed, rows) }
  function Generated(rows: seq<Event>): seq<Event> { Only(IsGenerated, rows) }
  function Prefetches(rows: seq<Event>): seq<Event> { Only(IsPrefetch, rows) }
  function Faults(rows: seq<Event>): seq<Event> { Only(IsFault, rows) }
  function Rejections(rows: seq<Event>): seq<Event> { Only(IsRejected, rows) }
  function Completions(rows: seq<Event>): seq<Event> { Only(IsComplete, rows) }
  function Failures(rows: seq<Event>): seq<Event> { Only(IsFailed, rows) }

  lemma OnlyAppend(kind: Event -> bool, rows: seq<Event>, e: Event)
    ensures Only(kind, rows + [e]) == if kind(e) then Only(kind, rows) + [e] else Only(kind, rows)
  {
    assert (rows + [e])[..|rows|] == rows;
  }

  lemma {:induction false} OnlyConcat(kind: Event -> bool, a: seq<Event>, b: seq<Event>)
    ensures Only(kind, a + b) == Only(kind, a) + Only(kind, b)
  {
    if b == [] {
      assert a + b == a;
    } else {
      OnlyConcat(kind, a, b[..|b| - 1]);
      assert (a + b)[..|a + b| - 1] == a + b[..|b| - 1];
    }
  }

  /** Appends events to a file that may already hold an earlier run's. */
  class PipelineTraceWriter {
    const earlier: seq<Event>
    var rows: seq<Event>

    constructor (earlier: seq<Event>)
      ensures this.earlier == earlier && rows == []
    {
      this.earlier := earlier;
      rows := [];
    }

    function File(): seq<Event>
      reads this
    {
      earlier + rows
    }

    method Write(e: Event)
      modifies this
      ensures rows == old(rows) + [e] && File() == old(File()) + [e]
    {
      rows := rows + [e];
    }
  }

  function Max(a: int, b: int): int { if a < b then b else a }

  function TokenTotal(rows: seq<Event>): int
    requires forall e | e in rows :: e.BatchConsumed?
  {
    if rows == [] then 0 else TokenTotal(rows[..|rows| - 1]) + rows[|rows| - 1].tokens
  }

  class BoundedPipelineStats {
    const startedAt: real
    var completedBatches: nat
    var acceptedTokens: int
    var staleBatches: nat
    var staleTokens: int
    var prefetchFailures: nat
    var strictFallbacks: nat
    var maxObservedLag: int
    var maxBufferedBatches: int

    ghost function Now(): Counts
      reads this
    {
      Counts(completedBatches, acceptedTokens, staleBatches, staleTokens,
             prefetchFailures, strictFallbacks, maxObservedLag, maxBufferedBatches)
    }

    constructor Start(now: real)
      ensures startedAt == now && Now() == Counts(0, 0, 0, 0, 0, 0, 0, 0)
    {
      startedAt := now;
      completedBatches, acceptedTokens, staleBatches, staleTokens := 0, 0, 0, 0;
      prefetchFailures, strictFallbacks, maxObservedLag, maxBufferedBatches := 0, 0, 0, 0;
    }

    method ObserveBatch(tokens: int, lag: int, buffered: int) returns (outcome: Outcome)
      modifies this
      ensures outcome == if lag < 0 then Raised(ValueError) else Ok
      ensures var was := old(Now());
        Now() == if lag < 0 then was
                 else was.(completed := was.completed + 1, acceptedTokens := was.acceptedTokens + tokens,
                           maxLag := Max(was.maxLag, lag), maxBuffered := Max(was.maxBuffered, buffered))
    {
      if lag < 0 { return Raised(ValueError); }
      completedBatches := completedBatches + 1;
      acceptedTokens := acceptedTokens + tokens;
      maxObservedLag := Max(maxObservedLag, lag);
      maxBufferedBatches := Max(maxBufferedBatches, buffered);
      outcome := Ok;
    }

    /** Throughput is over the elapsed time, which is never taken as zero. */
    method Summarize(now: real) returns (s: Summary)
      ensures s.counts == Now()
      ensures s.elapsed == if now - startedAt < TICK then TICK else now - startedAt
      ensures s.elapsed > 0.0 && s.throughput == acceptedTokens as real / s.elapsed
    {
      var elapsed := if now - startedAt < TICK then TICK else now - startedAt;
      var counts := Counts(completedBatches, acceptedTokens, staleBatches, staleTokens,
                           prefetchFailures, strictFallbacks, maxObservedLag, maxBufferedBatches);
      s := Summary(counts, elapsed, acceptedTokens as real / elapsed);
    }
  }

  /** The shortest elapsed time a throughput is computed over. */
  const TICK := 0.000000001
}
