/** The training driver with one rollout generated ahead. While a batch trains,
    the next one is generated; weight updates wait for both. */
module BoundedTrain {
  import opened Outcomes
  import opened Decimal
  import opened Buffer
  import opened Pipeline
  import opened Cluster
  import opened RolloutTrace
  import opened TraceVerifier
  import opened Acceptance

  /** Refused before anything ran; returned with nothing to train; completed;
      or failed, which the trace says too. */
  datatype Ending = Refused | ReturnedEarly | Completed | FailedWith(error: Error)

  /** How a run ends if no call ever fails: as planned, unless a result is to be
      thrown away and nothing may take its place. */
  ghost function SureEnding(s: Settings): Ending {
    if !s.Allowed() then Refused
    else if s.Idles() then ReturnedEarly
    else if s.EndsAt(s.faultId) then FailedWith(RuntimeError)
    else Completed
  }

  /** Generates one rollout with nothing else going on, and checks that the
      version is the expected one before and after. */
  method GenerateSync(manager: RolloutManager, trace: PipelineTraceWriter, id: int, expected: int, mode: Mode)
      returns (r: Result<Batch>)
    modifies manager, trace
    ensures r.Success? ==>
              && r.value == Batch(Show(id), expected, r.value.payload, Tokens(r.value.payload))
              && trace.rows == old(trace.rows) + [RolloutGenerated(id, expected, r.value.tokens, mode)]
              && (manager.truthful ==> manager.version == expected)
    ensures r.Failure? ==> trace.rows == old(trace.rows)
    ensures manager.Now() == old(manager.Now()).(ops := old(manager.ops) + [Began(id)] + [Ended(id)])
         || (r.Failure? && manager.Now() == old(manager.Now()))
    ensures manager.Sure() ==> if old(manager.version) == expected then r.Success? else r == Failure(RuntimeError)
  {
    var before := manager.PolicyVersion();
    if before.Failure? { return Failure(before.error); }
    if before.value != expected { return Failure(RuntimeError); }
    manager.Generate(id);
    var payload := manager.Collect(id);
    if payload.Failure? { return Failure(payload.error); }
    var after := manager.PolicyVersion();
    if after.Failure? { return Failure(after.error); }
    if after.value != before.value { return Failure(RuntimeError); }
    var partitions := manager.ResolvePartitions(payload.value);
    if partitions.Failure? { return Failure(partitions.error); }
    var tokens := CountGeneratedTokens(partitions.value);
    trace.Write(RolloutGenerated(id, before.value, tokens, mode));
    r := Success(Batch(Show(id), before.value, payload.value, tokens));
  }

  /** Starts generating the next rollout if there is one, one version of lag is
      allowed, and the engines are where they should be. */
  method StartPrefetch(manager: RolloutManager, trace: PipelineTraceWriter, s: Settings, next: int, version: int)
      returns (r: Result<bool>)
    modifies manager, trace
    ensures r == Success(true) ==>
              && next < s.numRollout && s.maxLag == 1
              && trace.rows == old(trace.rows) + [PrefetchStarted(next, version)]
              && manager.Now() == old(manager.Now()).(ops := old(manager.ops) + [Began(next)])
    ensures r != Success(true) ==> trace.rows == old(trace.rows) && manager.Now() == old(manager.Now())
    ensures r == Success(false) ==>
              next >= s.numRollout || s.maxLag != 1 || (manager.truthful ==> manager.version != version)
    ensures manager.Sure() && old(manager.version) == version ==>
              r == Success(next < s.numRollout && s.maxLag == 1)
  {
    if next >= s.numRollout || s.maxLag != 1 { return Success(false); }
    var observed := manager.PolicyVersion();
    if observed.Failure? { return Failure(observed.error); }
    if observed.value != version { return Success(false); }
    manager.Generate(next);
    trace.Write(PrefetchStarted(next, version));
    r := Success(true);
  }

  /** What became of a generation begun ahead: what was collected, what its
      partitions held, and the version the engines reported afterwards. */
  datatype Sighting = Sighting(payload: Result<Payload>, resolved: Result<Payload>, observed: Result<int>)
  {
    /** It can be used: all of it arrived, and the version had not changed. */
    predicate Usable(version: int) {
      payload.Success? && resolved.Success? && observed == Success(version)
    }

    /** What is complained about if not. */
    function Complaint(): Error {
      if payload.Failure? then payload.error
      else if resolved.Failure? then resolved.error
      else if observed.Failure? then observed.error
      else RuntimeError
    }
  }

  /** Waits for the generation begun ahead and checks it over; anything may go
      wrong with it, once by injection. */
  method AwaitPrefetch(manager: RolloutManager, trace: PipelineTraceWriter, s: Settings, next: int, version: int,
                       injected: bool)
      returns (r: Result<Batch>, injected': bool, ghost seen: Sighting)
    modifies manager, trace
    ensures manager.Now() == old(manager.Now()).(ops := old(manager.ops) + [Ended(next)])
    ensures r.Success? <==> seen.Usable(version) && (next == s.faultId ==> injected)
    ensures r.Success? ==>
              && r.value == Batch(Show(next), version, r.value.payload, Tokens(r.value.payload))
              && seen.payload == Success(r.value.payload)
              && trace.rows == old(trace.rows) + [RolloutGenerated(next, version, r.value.tokens, Prefetch)]
    ensures r.Failure? ==>
              trace.rows == if injected' != injected then old(trace.rows) + [FaultInjected(next)] else old(trace.rows)
    ensures injected' == (injected || (seen.payload.Success? && next == s.faultId))
    ensures r.Failure? ==> r.error == if injected' != injected then RuntimeError else seen.Complaint()
    ensures manager.truthful && seen.observed.Success? ==> seen.observed.value == manager.version
    ensures manager.Sure() && old(manager.version) == version && (next == s.faultId ==> injected) ==>
              seen.Usable(version)
    ensures manager.Sure() ==> seen.payload.Success?
  {
    injected' := injected;
    seen := Sighting(Failure(RuntimeError), Failure(RuntimeError), Failure(RuntimeError));
    var payload := manager.Collect(next);
    seen := seen.(payload := payload);
    if payload.Failure? { return Failure(payload.error), injected, seen; }
    if next == s.faultId && !injected {
      trace.Write(FaultInjected(next));
      return Failure(RuntimeError), true, seen;
    }
    var partitions := manager.ResolvePartitions(payload.value);
    seen := seen.(resolved := partitions);
    if partitions.Failure? { return Failure(partitions.error), injected, seen; }
    var tokens := CountGeneratedTokens(partitions.value);
    var observed := manager.PolicyVersion();
    seen := seen.(observed := observed);
    if observed.Failure? { return Failure(observed.error), injected, seen; }
    if observed.value != version { return Failure(RuntimeError), injected, seen; }
    trace.Write(RolloutGenerated(next, version, tokens, Prefetch));
    r := Success(Batch(Show(next), version, payload.value, tokens));
  }

  /** The rows a failed prefetch adds. */
  ghost predicate FailureNoted(before: seq<Event>, after: seq<Event>, next: int, struck: bool) {
    exists e :: after == before + (if struck then [FaultInjected(next)] else []) + [PrefetchFailed(next, e)]
  }

  lemma FailureShows(before: seq<Event>, after: seq<Event>, next: int, injected: bool, injected': bool)
    requires FailureNoted(before, after, next, injected' != injected)
    ensures ViewOf(after) == Faulted(ViewOf(before), next, injected, injected')
  {
    var noted := before + if injected' != injected then [FaultInjected(next)] else [];
    var e :| after == noted + [PrefetchFailed(next, e)];
    if injected' == injected { assert noted == before; }
    ViewAppend(before, FaultInjected(next));
    ViewAppend(noted, PrefetchFailed(next, e));
  }

  /** A prefetch that went wrong is counted and written down; it is raised
      again unless a strict fallback is to follow. */
  method CollectPrefetch(manager: RolloutManager, trace: PipelineTraceWriter, stats: BoundedPipelineStats, s: Settings,
                         next: int, version: int, injected: bool)
      returns (prefetched: Option<Batch>, injected': bool, outcome: Outcome)
    modifies manager, trace, stats
    ensures manager.Now() == old(manager.Now()).(ops := old(manager.ops) + [Ended(next)])
    ensures prefetched.Some? ==>
              && prefetched.value == Batch(Show(next), version, prefetched.value.payload, prefetched.value.tokens)
              && trace.rows == old(trace.rows) + [RolloutGenerated(next, version, prefetched.value.tokens, Prefetch)]
              && stats.Now() == old(stats.Now()) && outcome == Ok && injected' == injected
    ensures prefetched.None? ==>
              && stats.Now() == old(stats.Now()).(prefetchFailures := old(stats.prefetchFailures) + 1)
              && (outcome == Ok <==> s.strictFallback)
              && FailureNoted(old(trace.rows), trace.rows, next, injected' != injected)
    ensures injected ==> injected'
    ensures outcome.Raised? && injected' != injected ==> outcome == Raised(RuntimeError)
    ensures manager.Sure() && old(manager.version) == version ==>
              && (prefetched.Some? <==> (next == s.faultId ==> injected))
              && injected' == (injected || next == s.faultId)
  {
    var r; ghost var seen;
    r, injected', seen := AwaitPrefetch(manager, trace, s, next, version, injected);
    if r.Success? { return Some(r.value), injected', Ok; }
    stats.prefetchFailures := stats.prefetchFailures + 1;
    trace.Write(PrefetchFailed(next, r.error));
    prefetched := None;
    outcome := if s.strictFallback then Ok else Raised(r.error);
  }

  /** Trains on a batch and counts it. */
  method TrainAndObserve(manager: RolloutManager, stats: BoundedPipelineStats, id: int, batch: Batch, lag: int,
                         buffered: int)
      returns (outcome: Outcome)
    requires lag >= 0
    modifies manager, stats
    ensures manager.Now() == old(manager.Now()).(ops := old(manager.ops) + [Trained(id)])
    ensures outcome == Ok ==> stats.Now() == Observed(old(stats.Now()), batch.tokens, lag, buffered)
    ensures manager.reliable ==> outcome == Ok
  {
    outcome := manager.TrainBatch(id);
    if outcome == Ok {
      outcome := stats.ObserveBatch(batch.tokens, lag, buffered);
    }
  }

  /** Saves, frees memory, updates the weights and checks that the version went
      up by exactly one. */
  method Advance(manager: RolloutManager, trace: PipelineTraceWriter, id: int, version: int)
      returns (version': int, outcome: Outcome)
    modifies manager, trace
    ensures outcome == Ok ==>
              && version' == version + 1 && (manager.truthful ==> manager.version == version')
              && trace.rows == old(trace.rows) + [WeightUpdateComplete(version', Some(id))]
              && manager.Now() == old(manager.Now()).(
                   version := manager.version, ops := old(manager.ops) + [Updated(manager.version)])
    ensures outcome != Ok ==>
              && trace.rows == old(trace.rows)
              && (|| manager.Now() == old(manager.Now())
                  || manager.Now() == old(manager.Now()).(
                       version := manager.version, ops := old(manager.ops) + [Updated(manager.version)]))
    ensures manager.Sure() ==> outcome == if old(manager.version) == version then Ok else Raised(RuntimeError)
  {
    version' := version;
    outcome := manager.Other();
    if outcome != Ok { return; }
    outcome := manager.Other();
    if outcome != Ok { return; }
    outcome := manager.UpdateWeights();
    if outcome != Ok { return; }
    var updated := manager.PolicyVersion();
    if updated.Failure? { outcome := Raised(updated.error); return; }
    if updated.value != version + 1 { outcome := Raised(RuntimeError); return; }
    version' := updated.value;
    trace.Write(WeightUpdateComplete(version', Some(id)));
  }

  /** A buffer the driver set up, from which nothing was ever dropped. */
  ghost predicate Kept(buffer: BoundedRolloutBuffer, s: Settings)
    reads buffer
  {
    && buffer.Valid() && buffer.maxBatches == 1 && buffer.maxLag == s.maxLag
    && buffer.staleBatches == 0 && buffer.staleTokens == 0
  }

  lemma GetsFront(batches: seq<Batch>, version: int, maxLag: nat)
    requires |batches| == 1 && WithinLag(version - batches[0].version, maxLag)
    ensures StaleFront(batches, version, maxLag) == 0 && Skipped(batches, 0) == [] && batches[1..] == []
  {}

  lemma ReturningCountsNothing(rejected: seq<Batch>, gone: seq<Fate>, gone': seq<Fate>, b: Batch, n: int, t: int,
                               n': int, t': int)
    requires gone' == gone + [Fate(b, true)] && Counted(rejected, gone, n, t) && Counted(rejected, gone', n', t')
    ensures n' == n && t' == t
  {
    FateAppend(gone, Fate(b, true));
  }

  /** A batch that is waiting and fresh is handed out; get never returns None. */
  method TakeWaiting(buffer: BoundedRolloutBuffer, s: Settings, version: int) returns (got: Option<Batch>)
    requires Kept(buffer, s) && |buffer.batches| == 1 && WithinLag(version - buffer.batches[0].version, buffer.maxLag)
    modifies buffer
    ensures Kept(buffer, s) && buffer.batches == [] && got == Some(old(buffer.batches)[0])
  {
    ghost var gone, waiting, n, t := buffer.gone, buffer.batches, buffer.staleBatches, buffer.staleTokens;
    GetsFront(waiting, version, buffer.maxLag);
    got := buffer.Get(version);
    assert gone + [] == gone;
    ReturningCountsNothing(
      buffer.rejected, gone, buffer.gone, waiting[0], n, t, buffer.staleBatches, buffer.staleTokens);
  }

  /** A batch that is fresh enough goes into an empty buffer; put never raises. */
  method PutFresh(buffer: BoundedRolloutBuffer, s: Settings, batch: Batch, version: int) returns (outcome: Outcome)
    requires Kept(buffer, s) && buffer.batches == [] && WithinLag(version - batch.version, buffer.maxLag)
    modifies buffer
    ensures Kept(buffer, s) && buffer.batches == [batch] && outcome == Ok
  {
    assert batch.id !in Ids([]);
    outcome := buffer.Put(batch, version);
    assert [] + [batch] == [batch];
  }

  /** Takes the waiting batch and writes down that it did. */
  method ConsumeNext(trace: PipelineTraceWriter, buffer: BoundedRolloutBuffer, s: Settings, id: int, version: int)
      returns (batch: Batch, lag: int)
    requires Kept(buffer, s) && |buffer.batches| == 1 && WithinLag(version - buffer.batches[0].version, buffer.maxLag)
    modifies trace, buffer
    ensures Kept(buffer, s) && buffer.batches == [] && batch == old(buffer.batches)[0] && lag == version - batch.version
    ensures trace.rows == old(trace.rows) + [BatchConsumed(id, batch.version, version, lag, batch.tokens, 0)]
  {
    var got := TakeWaiting(buffer, s, version);
    batch := got.value;
    lag := version - batch.version;
    var buffered := buffer.Len();
    trace.Write(BatchConsumed(id, batch.version, version, lag, batch.tokens, buffered));
  }

  /** Generates the next batch in step with the trainer after all. */
  method FallBack(manager: RolloutManager, trace: PipelineTraceWriter, stats: BoundedPipelineStats,
                  buffer: BoundedRolloutBuffer, s: Settings, next: int, version: int)
      returns (outcome: Outcome, ghost tokens: int)
    requires Kept(buffer, s) && buffer.batches == []
    modifies manager, trace, stats, buffer
    ensures outcome == Ok ==>
              && trace.rows == old(trace.rows) + [RolloutGenerated(next, version, tokens, StrictFallback)]
                               + [StrictFallbackComplete(next)]
              && stats.Now() == old(stats.Now()).(strictFallbacks := old(stats.strictFallbacks) + 1)
              && Kept(buffer, s) && |buffer.batches| == 1
              && buffer.batches[0] == Batch(Show(next), version, buffer.batches[0].payload, tokens)
              && (manager.truthful ==> manager.version == version)
    ensures outcome != Ok ==> trace.rows == old(trace.rows)
    ensures manager.Now() == old(manager.Now()).(ops := old(manager.ops) + [Began(next)] + [Ended(next)])
         || (outcome != Ok && manager.Now() == old(manager.Now()))
    ensures manager.Sure() && old(manager.version) == version ==> outcome == Ok
  {
    stats.strictFallbacks := stats.strictFallbacks + 1;
    var fallback := GenerateSync(manager, trace, next, version, StrictFallback);
    if fallback.Failure? { return Raised(fallback.error), 0; }
    tokens := fallback.value.tokens;
    outcome := PutFresh(buffer, s, fallback.value, version);
    trace.Write(StrictFallbackComplete(next));
  }

  ghost function At(manager: RolloutManager, trace: PipelineTraceWriter, stats: BoundedPipelineStats): Moment
    reads manager, trace, stats
  {
    Moment(manager.Now(), ViewOf(trace.rows), stats.Now())
  }

  /** Takes the waiting batch, which is there and fresh enough. */
  method Take(manager: RolloutManager, trace: PipelineTraceWriter, stats: BoundedPipelineStats,
              buffer: BoundedRolloutBuffer, s: Settings, id: int, version: int,
              ghost first: int, ghost k: nat, ghost injected: bool)
      returns (batch: Batch, lag: int)
    requires At(manager, trace, stats) in Head(s, first, k, injected) && s.Has(k) && s.Allowed()
    requires Kept(buffer, s) && Holds(buffer.batches, ViewOf(trace.rows).generated)
    requires id == s.startId + k && version == first + k
    modifies trace, buffer
    ensures Kept(buffer, s) && buffer.batches == [] && lag >= 0
    ensures At(manager, trace, stats) in Taken(s, first, k + 1, injected, Observed(stats.Now(), batch.tokens, lag, 0))
  {
    ghost var m, rows, waiting := At(manager, trace, stats), trace.rows, buffer.batches[0];
    assert buffer.batches == [waiting];
    WaitingIsFresh(m, s, first, k, injected, waiting);
    batch, lag := ConsumeNext(trace, buffer, s, id, version);
    ghost var row := BatchConsumed(id, batch.version, version, lag, batch.tokens, 0);
    ViewAppend(rows, row);
    HeadTakes(m, s, first, k, injected, row);
    assert At(manager, trace, stats) == m.(view := Extend(m.view, row));
  }

  /** Trains on the batch taken, while the next one is being generated if it
      may. */
  method TrainAhead(manager: RolloutManager, trace: PipelineTraceWriter, stats: BoundedPipelineStats, s: Settings,
                    id: int, version: int, batch: Batch, lag: int, buffered: int,
                    ghost first: int, ghost n: nat, ghost injected: bool)
      returns (started: bool, outcome: Outcome, ghost quiet: Engines)
    requires At(manager, trace, stats)
             in Taken(s, first, n, injected, Observed(stats.Now(), batch.tokens, lag, buffered))
    requires lag >= 0 && id + 1 == s.startId + n && version == first + n - 1
    modifies manager, trace, stats
    ensures outcome != Ok ==> (manager.Now(), ViewOf(trace.rows)) in Halted(s, first)
    ensures outcome == Ok ==>
              if started then At(manager, trace, stats) in Ahead(s, first, n, injected, quiet)
              else At(manager, trace, stats) in Midway(s, first, n, injected, false, version)
    ensures manager.Sure() ==> outcome == Ok && (started <==> s.Has(n) && s.maxLag == 1)
  {
    started, quiet := false, manager.Now();
    ghost var taken, rows := At(manager, trace, stats), trace.rows;
    ghost var observed := Observed(taken.counts, batch.tokens, lag, buffered);
    TakenHalts(taken, s, first, n, injected, observed);
    var r := StartPrefetch(manager, trace, s, id + 1, version);
    if r.Failure? { outcome := Raised(r.error); return; }
    started := r.value;
    outcome := TrainAndObserve(manager, stats, id, batch, lag, buffered);
    if started {
      ViewAppend(rows, PrefetchStarted(id + 1, version));
      TakenTrainsAhead(taken, s, first, n, injected, observed, id + 1, version);
      assert manager.Now() == Overlapping(quiet, id + 1);
    } else {
      TakenTrains(taken, s, first, n, injected, observed, id);
      assert manager.Now() == Alone(quiet, id);
    }
  }

  /** Brings in the batch generated ahead, if it came to one. */
  method Collect(manager: RolloutManager, trace: PipelineTraceWriter, stats: BoundedPipelineStats, s: Settings,
                 next: int, version: int, injected: bool, ghost first: int, ghost n: nat, ghost quiet: Engines)
      returns (prefetched: Option<Batch>, injected': bool, outcome: Outcome)
    requires At(manager, trace, stats) in Ahead(s, first, n, injected, quiet)
    requires next == s.startId + n && version == first + n - 1
    modifies manager, trace, stats
    ensures outcome != Ok ==> (manager.Now(), ViewOf(trace.rows)) in Halted(s, first)
    ensures outcome == Ok ==> At(manager, trace, stats) in Midway(s, first, n, injected', prefetched.Some?, version)
    ensures prefetched.Some? ==>
              Holds([prefetched.value], ViewOf(trace.rows).generated) && prefetched.value.version == version
    ensures manager.Sure() ==> outcome == if s.EndsAt(next) then Raised(RuntimeError) else Ok
  {
    ghost var m := At(manager, trace, stats);
    AheadIsQuiet(m, s, first, n, injected, quiet);
    prefetched, injected', outcome := Receive(manager, trace, stats, s, next, version, injected);
    if prefetched.Some? {
      AheadLands(m, s, first, n, injected, quiet, next, version, prefetched.value.tokens);
    } else {
      AheadFails(m, s, first, n, injected, quiet, injected', next, version);
    }
  }

  /** What the end of a prefetch does to engines, trace and counters. */
  method Receive(manager: RolloutManager, trace: PipelineTraceWriter, stats: BoundedPipelineStats, s: Settings,
                 next: int, version: int, injected: bool)
      returns (prefetched: Option<Batch>, injected': bool, outcome: Outcome)
    modifies manager, trace, stats
    ensures injected ==> injected'
    ensures var m, now := old(At(manager, trace, stats)), At(manager, trace, stats);
      if prefetched.Some?
      then now == Moment(Landed(m.engines, next),
                         Extend(m.view, RolloutGenerated(next, version, prefetched.value.tokens, Prefetch)), m.counts)
           && Holds([prefetched.value], now.view.generated) && prefetched.value.version == version
           && outcome == Ok && injected' == injected
      else now == Moment(Landed(m.engines, next), Faulted(m.view, next, injected, injected'), Unfetched(m.counts))
           && (outcome == Ok <==> s.strictFallback)
           && (outcome.Raised? && injected' != injected ==> outcome == Raised(RuntimeError))
    ensures manager.Sure() && old(manager.version) == version ==>
              && (prefetched.Some? <==> (next == s.faultId ==> injected))
              && injected' == (injected || next == s.faultId)
  {
    ghost var rows := trace.rows;
    prefetched, injected', outcome := CollectPrefetch(manager, trace, stats, s, next, version, injected);
    if prefetched.Some? {
      ViewAppend(rows, RolloutGenerated(next, version, prefetched.value.tokens, Prefetch));
    } else {
      FailureShows(rows, trace.rows, next, injected, injected');
    }
  }

  /** Updates the weights, and refuses to go on unless the version is the next
      one. */
  method Update(manager: RolloutManager, trace: PipelineTraceWriter, ghost stats: BoundedPipelineStats,
                ghost s: Settings, id: int, version: int, ghost first: int, ghost n: nat,
                ghost injected: bool, ghost got: bool)
      returns (version': int, outcome: Outcome)
    requires At(manager, trace, stats) in Midway(s, first, n, injected, got, version)
    modifies manager, trace
    ensures ViewOf(trace.rows) == ViewOf(old(trace.rows))
    ensures outcome != Ok ==> (manager.Now(), ViewOf(trace.rows)) in Halted(s, first)
    ensures outcome == Ok ==>
              version' == version + 1 && At(manager, trace, stats) in Midway(s, first, n, injected, got, version')
    ensures manager.Sure() ==> outcome == Ok
  {
    ghost var m, rows := At(manager, trace, stats), trace.rows;
    version', outcome := Advance(manager, trace, id, version);
    ViewAppend(rows, WeightUpdateComplete(version', Some(id)));
    MidwayHalts(m, s, first, n, injected, got, version);
    MidwayUpdates(m, s, first, n, injected, got, version, manager.version, version + 1);
  }

  /** Makes sure the next batch is waiting. The buffer takes a prefetched batch
      without complaint, so none is ever rejected as stale. */
  method Refill(manager: RolloutManager, trace: PipelineTraceWriter, stats: BoundedPipelineStats,
                buffer: BoundedRolloutBuffer, s: Settings, next: int, version: int, prefetched: Option<Batch>,
                ghost first: int, ghost n: nat, ghost injected: bool)
      returns (outcome: Outcome)
    requires At(manager, trace, stats) in Midway(s, first, n, injected, prefetched.Some?, version) && s.Has(n)
    requires next == s.startId + n && version == first + n && Kept(buffer, s) && buffer.batches == []
    requires prefetched.Some? ==>
               Holds([prefetched.value], ViewOf(trace.rows).generated) && prefetched.value.version == version - 1
    modifies manager, trace, stats, buffer
    ensures outcome != Ok ==> (manager.Now(), ViewOf(trace.rows)) in Halted(s, first)
    ensures outcome == Ok ==>
              && At(manager, trace, stats) in Head(s, first, n, injected)
              && Kept(buffer, s) && Holds(buffer.batches, ViewOf(trace.rows).generated)
    ensures manager.Sure() ==> outcome == Ok
  {
    if prefetched.Some? {
      MidwayRefills(At(manager, trace, stats), s, first, n, injected);
      outcome := PutFresh(buffer, s, prefetched.value, version);
    } else {
      outcome := Regenerate(manager, trace, stats, buffer, s, next, version, first, n, injected);
      if outcome != Ok { return; }
    }
    var buffered := buffer.Len();
    stats.maxBufferedBatches := Max(stats.maxBufferedBatches, buffered);
  }

  /** Falls back to generating the next batch now. */
  method Regenerate(manager: RolloutManager, trace: PipelineTraceWriter, stats: BoundedPipelineStats,
                    buffer: BoundedRolloutBuffer, s: Settings, next: int, version: int,
                    ghost first: int, ghost n: nat, ghost injected: bool)
      returns (outcome: Outcome)
    requires At(manager, trace, stats) in Midway(s, first, n, injected, false, version) && s.Has(n)
    requires next == s.startId + n && version == first + n && Kept(buffer, s) && buffer.batches == []
    modifies manager, trace, stats, buffer
    ensures outcome != Ok ==> (manager.Now(), ViewOf(trace.rows)) in Halted(s, first)
    ensures outcome == Ok ==>
              && Buffered(At(manager, trace, stats)) in Head(s, first, n, injected)
              && Kept(buffer, s) && Holds(buffer.batches, ViewOf(trace.rows).generated)
    ensures manager.Sure() ==> outcome == Ok
  {
    ghost var m, rows := At(manager, trace, stats), trace.rows;
    MidwayHalts(m, s, first, n, injected, false, version);
    ghost var tokens;
    outcome, tokens := FallBack(manager, trace, stats, buffer, s, next, version);
    ghost var row := RolloutGenerated(next, version, tokens, StrictFallback);
    ViewAppend(rows, row);
    ViewAppend(rows + [row], StrictFallbackComplete(next));
    MidwayFallsBack(m, s, first, n, injected, next, version, tokens);
    assert manager.Now() == Generating(m.engines, next) || (outcome != Ok && manager.Now() == m.engines);
    if outcome == Ok {
      assert Buffered(At(manager, trace, stats)) == FellBack(m, Generating(m.engines, next), row);
    }
  }

  /** One turn of the loop: consume, train, update, have the next ready. */
  method Iterate(manager: RolloutManager, trace: PipelineTraceWriter, stats: BoundedPipelineStats,
                 buffer: BoundedRolloutBuffer, s: Settings, id: int, version: int, injected: bool,
                 ghost first: int, ghost k: nat)
      returns (version': int, injected': bool, outcome: Outcome)
    requires At(manager, trace, stats) in Head(s, first, k, injected) && s.Has(k) && s.Allowed()
    requires Kept(buffer, s) && Holds(buffer.batches, ViewOf(trace.rows).generated)
    requires id == s.startId + k && version == first + k
    modifies manager, trace, stats, buffer
    ensures outcome != Ok ==> (manager.Now(), ViewOf(trace.rows)) in Halted(s, first)
    ensures outcome == Ok ==>
              && version' == version + 1 && Kept(buffer, s)
              && At(manager, trace, stats) in Head(s, first, k + 1, injected')
              && if s.Has(k + 1) then Holds(buffer.batches, ViewOf(trace.rows).generated) else buffer.batches == []
    ensures manager.Sure() ==> outcome == if s.EndsAt(id + 1) then Raised(RuntimeError) else Ok
  {
    version' := version;
    var prefetched;
    prefetched, injected', outcome := TrainOne(manager, trace, stats, buffer, s, id, version, injected, first, k);
    if outcome != Ok { return; }
    version', outcome := Update(manager, trace, stats, s, id, version, first, k + 1, injected', prefetched.Some?);
    if outcome != Ok { return; }
    outcome := EndTurn(manager, trace, stats, buffer, s, id + 1, version', prefetched, first, k + 1, injected');
  }

  /** The first half of a turn: consume, train, collect what was generated
      meanwhile. */
  method TrainOne(manager: RolloutManager, trace: PipelineTraceWriter, stats: BoundedPipelineStats,
                  buffer: BoundedRolloutBuffer, s: Settings, id: int, version: int, injected: bool,
                  ghost first: int, ghost k: nat)
      returns (prefetched: Option<Batch>, injected': bool, outcome: Outcome)
    requires At(manager, trace, stats) in Head(s, first, k, injected) && s.Has(k) && s.Allowed()
    requires Kept(buffer, s) && Holds(buffer.batches, ViewOf(trace.rows).generated)
    requires id == s.startId + k && version == first + k
    modifies manager, trace, stats, buffer
    ensures Kept(buffer, s) && buffer.batches == []
    ensures outcome != Ok ==> (manager.Now(), ViewOf(trace.rows)) in Halted(s, first)
    ensures outcome == Ok ==>
              At(manager, trace, stats) in Midway(s, first, k + 1, injected', prefetched.Some?, version)
    ensures outcome == Ok && prefetched.Some? ==>
              Holds([prefetched.value], ViewOf(trace.rows).generated) && prefetched.value.version == version
    ensures manager.Sure() ==> outcome == if s.EndsAt(id + 1) then Raised(RuntimeError) else Ok
  {
    injected', prefetched := injected, None;
    var started;
    ghost var quiet;
    started, outcome, quiet := Consume(manager, trace, stats, buffer, s, id, version, first, k, injected);
    if outcome == Ok && started {
      prefetched, injected', outcome :=
          Collect(manager, trace, stats, s, id + 1, version, injected, first, k + 1, quiet);
    }
  }

  /** Takes the waiting batch and trains on it. */
  method Consume(manager: RolloutManager, trace: PipelineTraceWriter, stats: BoundedPipelineStats,
                 buffer: BoundedRolloutBuffer, s: Settings, id: int, version: int,
                 ghost first: int, ghost k: nat, ghost injected: bool)
      returns (started: bool, outcome: Outcome, ghost quiet: Engines)
    requires At(manager, trace, stats) in Head(s, first, k, injected) && s.Has(k) && s.Allowed()
    requires Kept(buffer, s) && Holds(buffer.batches, ViewOf(trace.rows).generated)
    requires id == s.startId + k && version == first + k
    modifies manager, trace, stats, buffer
    ensures Kept(buffer, s) && buffer.batches == []
    ensures outcome != Ok ==> (manager.Now(), ViewOf(trace.rows)) in Halted(s, first)
    ensures outcome == Ok ==>
              if started then At(manager, trace, stats) in Ahead(s, first, k + 1, injected, quiet)
              else At(manager, trace, stats) in Midway(s, first, k + 1, injected, false, version)
    ensures manager.Sure() ==> outcome == Ok && (started <==> s.Has(k + 1) && s.maxLag == 1)
  {
    var batch, lag := Take(manager, trace, stats, buffer, s, id, version, first, k, injected);
    var buffered := buffer.Len();
    started, outcome, quiet :=
        TrainAhead(manager, trace, stats, s, id, version, batch, lag, buffered, first, k + 1, injected);
  }

  /** Has the next batch ready, if there is to be one, and saves and evaluates. */
  method EndTurn(manager: RolloutManager, trace: PipelineTraceWriter, stats: BoundedPipelineStats,
                 buffer: BoundedRolloutBuffer, s: Settings, next: int, version: int, prefetched: Option<Batch>,
                 ghost first: int, ghost n: nat, ghost injected: bool)
      returns (outcome: Outcome)
    requires At(manager, trace, stats) in Midway(s, first, n, injected, prefetched.Some?, version)
    requires next == s.startId + n && version == first + n && Kept(buffer, s) && buffer.batches == []
    requires prefetched.Some? ==>
               Holds([prefetched.value], ViewOf(trace.rows).generated) && prefetched.value.version == version - 1
    modifies manager, trace, stats, buffer
    ensures outcome != Ok ==> (manager.Now(), ViewOf(trace.rows)) in Halted(s, first)
    ensures outcome == Ok ==>
              && At(manager, trace, stats) in Head(s, first, n, injected) && Kept(buffer, s)
              && if s.Has(n) then Holds(buffer.batches, ViewOf(trace.rows).generated) else buffer.batches == []
    ensures manager.Sure() ==> outcome == Ok
  {
    if next < s.numRollout {
      outcome := Refill(manager, trace, stats, buffer, s, next, version, prefetched, first, n, injected);
      if outcome != Ok { return; }
    } else {
      GotMeansMore(At(manager, trace, stats), s, first, n, injected, prefetched.Some?, version);
      MidwayEnds(At(manager, trace, stats), s, first, n, injected);
    }
    HeadHalts(At(manager, trace, stats), s, first, n, injected);
    outcome := manager.Other();
  }

  lemma GotMeansMore(m: Moment, s: Settings, first: int, n: nat, injected: bool, got: bool, version: int)
    requires m in Midway(s, first, n, injected, got, version) && !s.Has(n)
    ensures !got
  {}

  /** Puts the first rollout in the buffer, at whatever version the first
      update left. */
  method Prime(manager: RolloutManager, trace: PipelineTraceWriter, buffer: BoundedRolloutBuffer, s: Settings,
               version: int, ghost stats: BoundedPipelineStats)
      returns (outcome: Outcome)
    requires Flown(manager.Now(), [], version, 0) && ViewOf(trace.rows) == BLANK && s.Has(0)
    requires Kept(buffer, s) && buffer.batches == [] && s.maxLag in {0, 1}
               && stats.Now() == Counts(0, 0, 0, 0, 0, 0, 0, 0)
    modifies manager, trace, buffer
    ensures outcome != Ok ==> (manager.Now(), ViewOf(trace.rows)) in Halted(s, version)
    ensures outcome == Ok ==>
              && At(manager, trace, stats) in Head(s, version, 0, false)
              && Kept(buffer, s) && Holds(buffer.batches, ViewOf(trace.rows).generated)
    ensures manager.Sure() ==> outcome == Ok
  {
    ghost var e, rows := manager.Now(), trace.rows;
    BlankHalts(e, s, version);
    var generated := GenerateSync(manager, trace, s.startId, version, Initial);
    assert manager.Now() == Generating(e, s.startId) || (generated.Failure? && manager.Now() == e);
    FirstGenerated(e, s, version, if generated.Success? then generated.value.tokens else 0);
    if generated.Failure? { return Raised(generated.error); }
    ghost var row := RolloutGenerated(s.startId, version, generated.value.tokens, Initial);
    ViewAppend(rows, row);
    outcome := PutFresh(buffer, s, generated.value, version);
  }

  /** The first update; what it leaves is the version the run starts from. */
  method FirstUpdateAndCheck(manager: RolloutManager, trace: PipelineTraceWriter, s: Settings)
      returns (version: int, outcome: Outcome)
    requires manager.ops == [] && ViewOf(trace.rows) == BLANK
    modifies manager, trace
    ensures ViewOf(trace.rows) == BLANK && NoOverlap(manager.ops)
    ensures outcome == Ok ==>
              && Flown(manager.Now(), [], version, 0)
              && trace.rows == old(trace.rows) + [WeightUpdateComplete(version, None)]
    ensures manager.Sure() ==> outcome == Ok
  {
    version := 0;
    ghost var e := manager.Now();
    outcome := manager.UpdateWeights();
    FirstUpdate(e, manager.version);
    assert manager.Now() == e.(version := manager.version, ops := e.ops + [Updated(manager.version)]);
    if outcome != Ok { return; }
    var observed := manager.PolicyVersion();
    if observed.Failure? { outcome := Raised(observed.error); return; }
    version := observed.value;
    ViewAppend(trace.rows, WeightUpdateComplete(version, None));
    trace.Write(WeightUpdateComplete(version, None));
    if s.checksWeights { outcome := manager.Other(); }
  }

  /** The loop over the rollouts. */
  method Loop(manager: RolloutManager, trace: PipelineTraceWriter, stats: BoundedPipelineStats,
              buffer: BoundedRolloutBuffer, s: Settings, start: int)
      returns (version: int, outcome: Outcome, ghost injected: bool)
    requires At(manager, trace, stats) in Head(s, start, 0, false) && s.Has(0) && s.Allowed()
    requires Kept(buffer, s) && Holds(buffer.batches, ViewOf(trace.rows).generated)
    modifies manager, trace, stats, buffer
    ensures outcome != Ok ==> (manager.Now(), ViewOf(trace.rows)) in Halted(s, start)
    ensures outcome == Ok ==>
              && version == start + (s.numRollout - s.startId) && Kept(buffer, s)
              && At(manager, trace, stats) in Head(s, start, s.numRollout - s.startId, injected)
    ensures manager.Sure() ==> outcome == if s.EndsAt(s.faultId) then Raised(RuntimeError) else Ok
  {
    version, outcome, injected := start, Ok, false;
    var faulted, id := false, s.startId;
    ghost var k: nat := 0;
    ghost var doomed := manager.Sure() && s.EndsAt(s.faultId);
    while id < s.numRollout
      invariant id == s.startId + k <= s.numRollout && version == start + k && outcome == Ok
      invariant At(manager, trace, stats) in Head(s, start, k, faulted) && Kept(buffer, s)
      invariant s.Has(k) ==> Holds(buffer.batches, ViewOf(trace.rows).generated)
      invariant doomed ==> id < s.faultId
    {
      version, faulted, outcome := Iterate(manager, trace, stats, buffer, s, id, version, faulted, start, k);
      if outcome != Ok { return; }
      id, k := id + 1, k + 1;
    }
    injected := faulted;
  }

  /** Everything the driver does under its exception handler. */
  method Drive(manager: RolloutManager, trace: PipelineTraceWriter, stats: BoundedPipelineStats,
               buffer: BoundedRolloutBuffer, s: Settings)
      returns (early: bool, version: int, outcome: Outcome, ghost first: int, ghost injected: bool)
    requires manager.ops == [] && ViewOf(trace.rows) == BLANK && s.Allowed()
    requires Kept(buffer, s) && buffer.batches == [] && stats.Now() == Counts(0, 0, 0, 0, 0, 0, 0, 0)
    modifies manager, trace, stats, buffer
    ensures outcome != Ok ==> (manager.Now(), ViewOf(trace.rows)) in Halted(s, first)
    ensures outcome == Ok ==> (early <==> s.Idles())
    ensures outcome == Ok && early ==> ViewOf(trace.rows) == BLANK && NoOverlap(manager.ops)
    ensures outcome == Ok && !early ==>
              && var n := s.numRollout - s.startId;
              && version == first + n && At(manager, trace, stats) in Head(s, first, n, injected) && Kept(buffer, s)
    ensures manager.Sure() ==> outcome == if !s.Idles() && s.EndsAt(s.faultId) then Raised(RuntimeError) else Ok
  {
    early, injected := false, false;
    version, outcome := FirstUpdateAndCheck(manager, trace, s);
    first := version;
    BlankHalts(manager.Now(), s, first);
    if outcome != Ok { return; }
    if s.numRollout == 0 && s.evaluates {
      outcome := manager.Other();
      early := true;
      return;
    }
    if s.startId >= s.numRollout { early := true; return; }
    if s.evaluates && s.startId == 0 {
      outcome := manager.Other();
      if outcome != Ok { return; }
    }
    outcome := Prime(manager, trace, buffer, s, version, stats);
    if outcome != Ok { return; }
    version, outcome, injected := Loop(manager, trace, stats, buffer, s, version);
  }

  /** What every run leaves, however it ends: batches generated and consumed
      once each in order, no update during a generation, and honest engines'
      batches generated wholly at the version they bear. */
  ghost predicate RightSoFar(e: Engines, rows: seq<Event>, s: Settings, first: int) {
    && Progress(Consumed(rows), Generated(rows), s.startId, first, s.maxLag)
    && Rejections(rows) == [] && (s.maxLag == 0 ==> Prefetches(rows) == [])
    && NoOverlap(e.ops) && (e.truthful ==> AllSteady(e.initial, e.ops, Generated(rows)))
  }

  /** What a completed run leaves if no call ever failed: every batch generated
      as planned, the ones generated ahead consumed one version later and the
      others at once, and no prefetch lost but the one thrown away. */
  ghost predicate Paced(rows: seq<Event>, s: Settings) {
    && |Completions(rows)| == 1 && |Consumed(rows)| == |Generated(rows)| == s.numRollout - s.startId
    && AsPlanned(Generated(rows), s)
    && (forall k | 0 <= k < |Consumed(rows)| :: Consumed(rows)[k].lag == if s.Plan(k) == Prefetch then 1 else 0)
    && Completions(rows)[0].summary.counts.prefetchFailures
       == if s.Strikes(s.numRollout - s.startId) then 1 else 0
  }

  /** What a completed run leaves besides: a whole trace, every batch after the
      first prefetched or fallen back to, and with honest engines a fallback
      only for a prefetch that failed. */
  ghost predicate Finished(rows: seq<Event>, s: Settings, honest: bool) {
    && s.Has(0) && CompletedTrace(rows, s.startId, s.numRollout - s.startId, s.maxLag)
    && var n, counts := s.numRollout - s.startId, Completions(rows)[0].summary.counts;
    && counts.strictFallbacks + CountMode(Prefetch, Generated(rows)) == n - 1
    && (!s.strictFallback ==> counts.prefetchFailures == 0)
    && (honest && s.maxLag == 1 ==> counts.prefetchFailures == counts.strictFallbacks && |Prefetches(rows)| == n - 1)
  }

  ghost predicate CountsTokens(rows: seq<Event>) {
    TokenTotal(Consumed(rows)) > 0
  }

  ghost predicate Accepted(rows: seq<Event>, s: Settings) {
    VerifyTrace(rows, Gate(s.numRollout - s.startId, s.maxLag)).Success?
  }

  /** What the checker says of the file, which holds earlier runs' rows too. A
      completed run passes exactly if it counted a token and no earlier run got
      as far as a batch or a last row; a failed one never does; and one that
      did nothing leaves the verdict on the others. */
  ghost predicate Verdict(earlier: seq<Event>, rows: seq<Event>, s: Settings, ending: Ending) {
    Accepted(earlier + rows, s) <==>
      match ending
      case Completed => CountsTokens(rows) && Unspoilt(earlier)
      case FailedWith(_) => false
      case Refused => Accepted(earlier, s)
      case ReturnedEarly => Accepted(earlier, s)
  }

  lemma VerdictOnFile(earlier: seq<Event>, rows: seq<Event>, s: Settings, ending: Ending, honest: bool)
    requires ending == Completed ==> s.Allowed() && Finished(rows, s, honest)
    requires ending.FailedWith? ==> Failures(rows) != []
    requires ending in {Refused, ReturnedEarly} ==> Unspoilt(rows)
    ensures Verdict(earlier, rows, s, ending)
  {
    var n := s.numRollout - s.startId;
    match ending
    case Completed => AppendedPassesGate(earlier, rows, s.startId, n, s.maxLag);
    case FailedWith(_) => SpoiltFileIsRefused(earlier, rows, Gate(n, s.maxLag));
    case Refused => QuietRowsChangeNothing(earlier, rows, n, s.maxLag);
    case ReturnedEarly => QuietRowsChangeNothing(earlier, rows, n, s.maxLag);
  }

  /** The last row of a run, if it has one. */
  method Conclude(manager: RolloutManager, trace: PipelineTraceWriter, stats: BoundedPipelineStats,
                  buffer: BoundedRolloutBuffer, s: Settings, early: bool, version: int, outcome: Outcome,
                  now: real, ghost first: int, ghost injected: bool)
      returns (ending: Ending)
    requires outcome != Ok ==> (manager.Now(), ViewOf(trace.rows)) in Halted(s, first)
    requires outcome == Ok && early ==> ViewOf(trace.rows) == BLANK && NoOverlap(manager.ops)
    requires outcome == Ok && !early ==>
               && s.Allowed() && s.Has(0) && Kept(buffer, s) && version == first + (s.numRollout - s.startId)
               && At(manager, trace, stats) in Head(s, first, s.numRollout - s.startId, injected)
    modifies trace
    ensures ending == if outcome.Raised? then FailedWith(outcome.error) else if early then ReturnedEarly else Completed
    ensures RightSoFar(manager.Now(), trace.rows, s, first)
    ensures ending == ReturnedEarly ==>
              Generated(trace.rows) == [] && Completions(trace.rows) == [] && Failures(trace.rows) == []
    ensures ending.FailedWith? ==> |Failures(trace.rows)| == 1 && Completions(trace.rows) == []
    ensures ending == Completed ==> Finished(trace.rows, s, manager.truthful)
    ensures ending == Completed && manager.Sure() ==> Paced(trace.rows, s)
    ensures Accepted(trace.rows, s) <==> ending == Completed && CountsTokens(trace.rows)
  {
    var summary := stats.Summarize(now);
    ghost var before := trace.rows;
    if outcome.Raised? {
      FailureIsRefused(manager.Now(), before, s, first, PipelineFailed(summary, outcome.error));
      trace.Write(PipelineFailed(summary, outcome.error));
      return FailedWith(outcome.error);
    }
    if early {
      EarlyIsRefused(manager.Now(), before, s, first);
      return ReturnedEarly;
    }
    var row := PipelineComplete(summary, version, buffer.staleBatches, buffer.staleTokens);
    CompletionIsGated(At(manager, trace, stats), before, s, first, injected, row);
    if manager.Sure() { HeadIsPaced(At(manager, trace, stats), before, s, first, injected, row); }
    trace.Write(row);
    return Completed;
  }

  /** A run whose settings were accepted, with everything set up. */
  method Execute(manager: RolloutManager, trace: PipelineTraceWriter, stats: BoundedPipelineStats,
                 buffer: BoundedRolloutBuffer, s: Settings, now: real)
      returns (ending: Ending, ghost first: int)
    requires manager.ops == [] && ViewOf(trace.rows) == BLANK && s.Allowed()
    requires Kept(buffer, s) && buffer.batches == [] && stats.Now() == Counts(0, 0, 0, 0, 0, 0, 0, 0)
    modifies manager, trace, stats, buffer
    ensures ending != Refused && RightSoFar(manager.Now(), trace.rows, s, first)
    ensures manager.Sure() ==> ending == SureEnding(s)
    ensures ending == ReturnedEarly ==>
              s.Idles() && Generated(trace.rows) == [] && Completions(trace.rows) == [] && Failures(trace.rows) == []
    ensures ending.FailedWith? ==> |Failures(trace.rows)| == 1 && Completions(trace.rows) == []
    ensures ending == Completed ==> Finished(trace.rows, s, manager.truthful)
    ensures ending == Completed && manager.Sure() ==> Paced(trace.rows, s)
    ensures Accepted(trace.rows, s) <==> ending == Completed && CountsTokens(trace.rows)
  {
    var early, version, outcome;
    ghost var injected;
    early, version, outcome, first, injected := Drive(manager, trace, stats, buffer, s);
    ending := Conclude(manager, trace, stats, buffer, s, early, version, outcome, now, first, injected);
  }

  /** The first row of a run. */
  method OpenTrace(s: Settings, earlier: seq<Event>) returns (trace: PipelineTraceWriter)
    ensures fresh(trace) && trace.rows == [PipelineStarted(s.maxBatches, s.maxLag, s.strictFallback)]
              && ViewOf(trace.rows) == BLANK
  {
    trace := new PipelineTraceWriter(earlier);
    ViewAppend(trace.rows, PipelineStarted(s.maxBatches, s.maxLag, s.strictFallback));
    trace.Write(PipelineStarted(s.maxBatches, s.maxLag, s.strictFallback));
  }

  /** Sets everything up and runs. */
  method SetUp(s: Settings, manager: RolloutManager, earlier: seq<Event>)
      returns (ending: Ending, rows: seq<Event>, ghost first: int)
    requires manager.ops == [] && s.Allowed()
    modifies manager
    ensures ending != Refused && RightSoFar(manager.Now(), rows, s, first)
    ensures manager.Sure() ==> ending == SureEnding(s)
    ensures ending == ReturnedEarly ==>
              s.Idles() && Generated(rows) == [] && Completions(rows) == [] && Failures(rows) == []
    ensures ending.FailedWith? ==> |Failures(rows)| == 1 && Completions(rows) == []
    ensures ending == Completed ==> Finished(rows, s, manager.truthful)
    ensures ending == Completed && manager.Sure() ==> Paced(rows, s)
    ensures Accepted(rows, s) <==> ending == Completed && CountsTokens(rows)
  {
    var started: real := *;
    var now: real := *;
    var trace := OpenTrace(s, earlier);
    var stats := new BoundedPipelineStats.Start(started);
    var buffer := new BoundedRolloutBuffer.Limits(s.maxBatches, s.maxLag);
    ending, first := Execute(manager, trace, stats, buffer, s, now);
    rows := trace.rows;
  }

  /** The bounded asynchronous training driver. Whatever fails and whatever
      versions are observed, what it writes is right as far as it goes, and the
      offline checker accepts the trace exactly when the run completed and
      counted a token and its file holds no other run's batches or endings. */
  method Train(s: Settings, manager: RolloutManager, earlier: seq<Event>)
      returns (ending: Ending, rows: seq<Event>, ghost first: int)
    requires manager.ops == []
    modifies manager
    ensures ending == Refused <==> !s.Allowed()
    ensures ending == Refused ==> rows == [] && manager.ops == []
    ensures RightSoFar(manager.Now(), rows, s, first)
    ensures ending == ReturnedEarly ==>
              s.Idles() && Generated(rows) == [] && Completions(rows) == [] && Failures(rows) == []
    ensures ending.FailedWith? ==> |Failures(rows)| == 1 && Completions(rows) == []
    ensures ending == Completed ==> Finished(rows, s, manager.truthful)
    ensures manager.Sure() ==> ending == SureEnding(s)
    ensures ending == Completed && manager.Sure() ==> Paced(rows, s)
    ensures Accepted(rows, s) <==> ending == Completed && CountsTokens(rows)
    ensures Verdict(earlier, rows, s, ending)
  {
    if s.maxBatches != 1 || !(s.maxLag == 0 || s.maxLag == 1) || s.offloadRollout {
      NothingIsRefused(manager.Now(), s);
      VerdictOnFile(earlier, [], s, Refused, manager.truthful);
      return Refused, [], 0;
    }
    ending, rows, first := SetUp(s, manager, earlier);
    VerdictOnFile(earlier, rows, s, ending, manager.truthful);
  }

  lemma FailureIsRefused(e: Engines, rows: seq<Event>, s: Settings, first: int, row: Event)
    requires (e, ViewOf(rows)) in Halted(s, first) && row.PipelineFailed?
    ensures |Failures(rows + [row])| == 1 && Completions(rows + [row]) == []
    ensures RightSoFar(e, rows + [row], s, first) && !Accepted(rows + [row], s)
  {
    RowAppend(rows, row);
    ViewBatches(rows);
    ViewNumbers(rows);
    assert Failures(rows) == [];
    assert [] + [row] == [row];
    OthersAreRefused(rows + [row], Gate(s.numRollout - s.startId, s.maxLag));
  }

  lemma NothingIsRefused(e: Engines, s: Settings)
    requires e.ops == []
    ensures RightSoFar(e, [], s, 0) && !Accepted([], s)
  {
    OthersAreRefused([], Gate(s.numRollout - s.startId, s.maxLag));
  }

  lemma EarlyIsRefused(e: Engines, rows: seq<Event>, s: Settings, first: int)
    requires ViewOf(rows) == BLANK && NoOverlap(e.ops)
    ensures Generated(rows) == [] && Completions(rows) == [] && Failures(rows) == []
    ensures RightSoFar(e, rows, s, first) && !Accepted(rows, s)
  {
    ViewBatches(rows);
    ViewNumbers(rows);
    OthersAreRefused(rows, Gate(s.numRollout - s.startId, s.maxLag));
  }

  lemma CompletionIsGated(m: Moment, rows: seq<Event>, s: Settings, first: int, injected: bool, row: Event)
    requires s.Allowed() && s.Has(0) && row.PipelineComplete?
    requires var n := s.numRollout - s.startId;
      m in Head(s, first, n, injected) && row.finalVersion == first + n
    requires m.view == ViewOf(rows) && row.bufferStaleBatches == 0 && row.bufferStaleTokens == 0
    requires row.summary.counts == m.counts && row.summary.elapsed > 0.0
    requires row.summary.throughput == m.counts.acceptedTokens as real / row.summary.elapsed
    ensures RightSoFar(m.engines, rows + [row], s, first) && Finished(rows + [row], s, m.engines.truthful)
    ensures Accepted(rows + [row], s) <==> CountsTokens(rows + [row])
  {
    var n := s.numRollout - s.startId;
    HeadCompletes(rows, m, s, first, n, injected, row);
    LastRow(rows, row);
    CompletedPassesGate(rows + [row], s.startId, n, s.maxLag);
    HeadIsRight(m, rows, s, first, injected, row);
    HeadFinishes(m, rows, s, first, injected, row);
  }

  lemma HeadIsRight(m: Moment, rows: seq<Event>, s: Settings, first: int, injected: bool, row: Event)
    requires s.Has(0) && row.PipelineComplete? && m.view == ViewOf(rows)
    requires m in Head(s, first, s.numRollout - s.startId, injected)
    ensures RightSoFar(m.engines, rows + [row], s, first)
  {
    HeadTotals(m, s, first, s.numRollout - s.startId, injected);
    HeadHalts(m, s, first, s.numRollout - s.startId, injected);
    LastRow(rows, row);
  }

  lemma HeadFinishes(m: Moment, rows: seq<Event>, s: Settings, first: int, injected: bool, row: Event)
    requires s.Has(0) && row.PipelineComplete? && m.view == ViewOf(rows) && row.summary.counts == m.counts
    requires m in Head(s, first, s.numRollout - s.startId, injected) && s.Allowed()
    requires CompletedTrace(rows + [row], s.startId, s.numRollout - s.startId, s.maxLag)
    ensures Finished(rows + [row], s, m.engines.truthful)
  {
    var n := s.numRollout - s.startId;
    HeadTotals(m, s, first, n, injected);
    LastRow(rows, row);
    ViewModes(rows);
    ModesAddUp(m.view.generated, s.startId, first, s.maxLag);
  }

  lemma HeadIsPaced(m: Moment, rows: seq<Event>, s: Settings, first: int, injected: bool, row: Event)
    requires s.Has(0) && row.PipelineComplete? && m.view == ViewOf(rows) && row.summary.counts == m.counts
    requires m in Head(s, first, s.numRollout - s.startId, injected) && m.engines.sure
    ensures Paced(rows + [row], s)
  {
    var n := s.numRollout - s.startId;
    HeadTotals(m, s, first, n, injected);
    LastRow(rows, row);
    ProgressIsAccounted(m.view.consumed, m.view.generated, s.startId, first, s.maxLag);
  }
}
