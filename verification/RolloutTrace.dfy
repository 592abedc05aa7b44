/** What the driver's trace, engines and counters look like between any two of
    its steps, and why each step keeps it so. */
module RolloutTrace {
  import opened Outcomes
  import opened Decimal
  import opened Buffer
  import opened Pipeline
  import opened Cluster

  datatype Settings = Settings(
    maxBatches: int,
    maxLag: int,
    strictFallback: bool,
    faultId: int,
    offloadRollout: bool,
    numRollout: int,
    startId: int,
    evaluates: bool,
    checksWeights: bool)
  {
    ghost predicate Allowed() { maxBatches == 1 && maxLag in {0, 1} && !offloadRollout }

    /** Whether there is an n-th rollout, counted from the first one. */
    predicate Has(n: nat) { startId + n < numRollout }

    /** Whether there is nothing to train on, or nothing but an evaluation. */
    predicate Idles() { (numRollout == 0 && evaluates) || startId >= numRollout }

    /** Whether the result of one of the first n rollouts is to be thrown away:
        only one generated ahead can be. */
    predicate Strikes(n: nat) { maxLag == 1 && startId < faultId < startId + n }

    /** Whether that ends the run, since nothing takes the rollout's place. */
    predicate EndsAt(id: int) { maxLag == 1 && id == faultId && startId < id < numRollout && !strictFallback }

    /** How the k-th rollout is generated if nothing else goes wrong. */
    function Plan(k: nat): Mode {
      if k == 0 then Initial
      else if maxLag == 1 && startId + k != faultId then Prefetch
      else StrictFallback
    }
  }

  function CountMode(mode: Mode, generated: seq<Event>): nat {
    if generated == [] then 0
    else
      var e := generated[|generated| - 1];
      CountMode(mode, generated[..|generated| - 1]) + if e.RolloutGenerated? && e.mode == mode then 1 else 0
  }

  function MaxLag(consumed: seq<Event>): int
    requires forall i | 0 <= i < |consumed| :: consumed[i].BatchConsumed?
  {
    if consumed == [] then 0 else Max(MaxLag(consumed[..|consumed| - 1]), consumed[|consumed| - 1].lag)
  }

  /** The k-th batch: prefetched a version early, or generated in step. */
  ghost predicate GeneratedRight(e: Event, start: int, first: int, k: nat, maxLag: int) {
    && e.RolloutGenerated? && e.id == start + k
    && e.version == first + k - (if e.mode == Prefetch then 1 else 0)
    && (e.mode == Initial <==> k == 0)
    && (e.mode == Prefetch ==> maxLag == 1)
  }

  /** The batch generated k-th was consumed k-th, k versions on. */
  ghost predicate ConsumedRight(c: Event, e: Event, first: int, k: nat) {
    e.RolloutGenerated? && c == BatchConsumed(e.id, e.version, first + k, first + k - e.version, e.tokens, 0)
  }

  /** Batches are generated once each, in order, and consumed once each, in
      the same order, the k-th when the version is the first plus k. */
  ghost predicate Progress(consumed: seq<Event>, generated: seq<Event>, start: int, first: int, maxLag: int) {
    && |consumed| <= |generated|
    && (forall k | 0 <= k < |generated| :: GeneratedRight(generated[k], start, first, k, maxLag))
    && (forall k | 0 <= k < |consumed| :: ConsumedRight(consumed[k], generated[k], first, k))
  }

  /** What matters about the rows written so far. */
  datatype View = View(
    consumed: seq<Event>,
    generated: seq<Event>,
    tokens: int,
    maxLag: int,
    prefetched: nat,
    fallbacks: nat,
    prefetches: nat,
    faults: nat,
    ended: nat)

  function Extend(v: View, e: Event): View {
    match e
    case BatchConsumed(_, _, _, lag, tokens, _) =>
      v.(consumed := v.consumed + [e], tokens := v.tokens + tokens, maxLag := Max(v.maxLag, lag))
    case RolloutGenerated(_, _, _, mode) =>
      v.(generated := v.generated + [e],
         prefetched := v.prefetched + if mode == Prefetch then 1 else 0,
         fallbacks := v.fallbacks + if mode == StrictFallback then 1 else 0)
    case PrefetchStarted(_, _) => v.(prefetches := v.prefetches + 1)
    case FaultInjected(_) => v.(faults := v.faults + 1)
    case PrefetchRejected(_, _, _) => v.(ended := v.ended + 1)
    case PipelineComplete(_, _, _, _) => v.(ended := v.ended + 1)
    case PipelineFailed(_, _) => v.(ended := v.ended + 1)
    case _ => v
  }

  function ViewOf(rows: seq<Event>): View {
    if rows == [] then View([], [], 0, 0, 0, 0, 0, 0, 0)
    else Extend(ViewOf(rows[..|rows| - 1]), rows[|rows| - 1])
  }

  lemma ViewAppend(rows: seq<Event>, e: Event)
    ensures ViewOf(rows + [e]) == Extend(ViewOf(rows), e)
  {
    assert (rows + [e])[..|rows|] == rows;
  }

  lemma {:induction false} ViewBatches(rows: seq<Event>)
    ensures ViewOf(rows).consumed == Consumed(rows) && ViewOf(rows).generated == Generated(rows)
  {
    if rows != [] {
      var n := |rows| - 1;
      ViewBatches(rows[..n]);
    }
  }

  lemma {:induction false} ViewNumbers(rows: seq<Event>)
    ensures ViewOf(rows).prefetches == |Prefetches(rows)| && ViewOf(rows).faults == |Faults(rows)|
    ensures ViewOf(rows).ended == |Completions(rows)| + |Failures(rows)| + |Rejections(rows)|
  {
    if rows != [] {
      var n := |rows| - 1;
      ViewNumbers(rows[..n]);
      ViewAppend(rows[..n], rows[n]);
    }
  }

  lemma {:induction false} ViewTotals(rows: seq<Event>)
    ensures var v := ViewOf(rows);
      && (forall i | 0 <= i < |v.consumed| :: v.consumed[i].BatchConsumed?)
      && v.tokens == TokenTotal(v.consumed) && v.maxLag == MaxLag(v.consumed)
  {
    if rows != [] {
      var n := |rows| - 1;
      ViewTotals(rows[..n]);
      if rows[n].BatchConsumed? { ConsumeAppend(ViewOf(rows[..n]).consumed, rows[n]); }
    }
  }

  lemma {:induction false} ViewModes(rows: seq<Event>)
    ensures var v := ViewOf(rows);
      v.prefetched == CountMode(Prefetch, v.generated) && v.fallbacks == CountMode(StrictFallback, v.generated)
  {
    if rows != [] {
      var n := |rows| - 1;
      ViewModes(rows[..n]);
      if rows[n].RolloutGenerated? {
        CountAppend(Prefetch, ViewOf(rows[..n]).generated, rows[n]);
        CountAppend(StrictFallback, ViewOf(rows[..n]).generated, rows[n]);
      }
    }
  }

  /** The trace with n batches consumed and g generated. */
  ghost predicate Written(v: View, s: Settings, first: int, n: nat, g: nat, injected: bool) {
    && v.ended == 0
    && Progress(v.consumed, v.generated, s.startId, first, s.maxLag)
    && |v.consumed| == n && |v.generated| == g
    && v.faults == (if injected then 1 else 0)
    && (s.maxLag == 0 ==> v.prefetches == 0)
  }

  /** What the counters say about the batches so far. */
  ghost predicate Tallied(c: Counts, v: View, refilled: bool) {
    && c.completed == |v.consumed| && c.acceptedTokens == v.tokens && c.maxLag == v.maxLag
    && c.strictFallbacks == v.fallbacks
    && c.staleBatches == 0 && c.staleTokens == 0
    && c.maxBuffered == if refilled then 1 else 0
  }

  /** Every prefetch begun came to a batch, a failure, or is pending. When the
      engines are honest only a failed prefetch is ever fallen back from. */
  ghost predicate Settled(c: Counts, v: View, s: Settings, honest: bool, pending: nat, owed: nat) {
    && v.prefetches == v.prefetched + c.prefetchFailures + pending
    && (!s.strictFallback ==> c.prefetchFailures == 0)
    && (honest && s.maxLag == 1 ==> c.prefetchFailures == v.fallbacks + owed)
  }

  /** On engines that never fail every rollout so far was generated as planned,
      and no prefetch failed but the one that was to. */
  ghost predicate OnPlan(e: Engines, v: View, c: Counts, s: Settings, injected: bool, n: nat) {
    e.sure ==>
      && AsPlanned(v.generated, s) && (injected <==> s.Strikes(n))
      && c.prefetchFailures == if injected then 1 else 0
  }

  ghost predicate AsPlanned(generated: seq<Event>, s: Settings) {
    forall k | 0 <= k < |generated| :: generated[k].RolloutGenerated? && generated[k].mode == s.Plan(k)
  }

  /** The engines have flying generations in flight and honest ones are where
      the driver thinks. */
  ghost predicate Flown(e: Engines, generated: seq<Event>, version: int, flying: nat) {
    && e.version == VersionAfter(e.initial, e.ops) && NoOverlap(e.ops) && InFlight(e.ops) == flying
    && (e.truthful ==> e.version == version && AllSteady(e.initial, e.ops, generated))
    && (e.sure ==> e.truthful)
  }

  ghost predicate Holds(batches: seq<Batch>, generated: seq<Event>) {
    && |batches| == 1 && generated != [] && generated[|generated| - 1].RolloutGenerated?
    && var e := generated[|generated| - 1];
       batches[0].id == Show(e.id) && batches[0].version == e.version && batches[0].tokens == e.tokens
  }

  /** What is left when the driver raises: nothing it wrote is wrong, and no
      update overlapped a generation. */
  ghost predicate Faultless(e: Engines, v: View, s: Settings, first: int) {
    && v.ended == 0 && Progress(v.consumed, v.generated, s.startId, first, s.maxLag)
    && (s.maxLag == 0 ==> v.prefetches == 0)
    && NoOverlap(e.ops) && (e.truthful ==> AllSteady(e.initial, e.ops, v.generated))
  }

  ghost function Halted(s: Settings, first: int): iset<(Engines, View)> {
    iset e: Engines, v: View | Faultless(e, v, s, first) :: (e, v)
  }

  /** A completed trace of n batches, in full. */
  ghost predicate CompletedTrace(rows: seq<Event>, start: int, n: nat, maxLag: int) {
    && |Completions(rows)| == 1 && Failures(rows) == [] && Rejections(rows) == [] && |Faults(rows)| <= 1
    && n > 0 && |Consumed(rows)| == n && |Generated(rows)| == n
    && var done := Completions(rows)[0];
    && Progress(Consumed(rows), Generated(rows), start, done.finalVersion - n, maxLag)
    && Tallied(done.summary.counts, ViewOf(rows), n > 1)
    && |Prefetches(rows)| == CountMode(Prefetch, Generated(rows)) + done.summary.counts.prefetchFailures
    && done.summary.elapsed > 0.0
    && done.summary.throughput == done.summary.counts.acceptedTokens as real / done.summary.elapsed
    && done.bufferStaleBatches == 0 && done.bufferStaleTokens == 0
  }

  lemma RowAppend(rows: seq<Event>, e: Event)
    ensures Consumed(rows + [e]) == if e.BatchConsumed? then Consumed(rows) + [e] else Consumed(rows)
    ensures Generated(rows + [e]) == if e.RolloutGenerated? then Generated(rows) + [e] else Generated(rows)
    ensures Prefetches(rows + [e]) == if e.PrefetchStarted? then Prefetches(rows) + [e] else Prefetches(rows)
    ensures Faults(rows + [e]) == if e.FaultInjected? then Faults(rows) + [e] else Faults(rows)
    ensures Rejections(rows + [e]) == if e.PrefetchRejected? then Rejections(rows) + [e] else Rejections(rows)
    ensures Completions(rows + [e]) == if e.PipelineComplete? then Completions(rows) + [e] else Completions(rows)
    ensures Failures(rows + [e]) == if e.PipelineFailed? then Failures(rows) + [e] else Failures(rows)
  {
    OnlyAppend(IsConsumed, rows, e);
    OnlyAppend(IsGenerated, rows, e);
    OnlyAppend(IsPrefetch, rows, e);
    OnlyAppend(IsFault, rows, e);
    OnlyAppend(IsRejected, rows, e);
    OnlyAppend(IsComplete, rows, e);
    OnlyAppend(IsFailed, rows, e);
  }

  lemma CountAppend(mode: Mode, generated: seq<Event>, e: Event)
    requires e.RolloutGenerated?
    ensures CountMode(mode, generated + [e]) == CountMode(mode, generated) + if e.mode == mode then 1 else 0
  {
    assert (generated + [e])[..|generated|] == generated;
  }

  lemma ConsumeAppend(consumed: seq<Event>, e: Event)
    requires (forall i | 0 <= i < |consumed| :: consumed[i].BatchConsumed?) && e.BatchConsumed?
    ensures TokenTotal(consumed + [e]) == TokenTotal(consumed) + e.tokens
    ensures MaxLag(consumed + [e]) == Max(MaxLag(consumed), e.lag)
  {
    assert (consumed + [e])[..|consumed|] == consumed;
  }

  /** Every batch after the first was prefetched or fallen back to. */
  lemma {:induction false} ModesAddUp(generated: seq<Event>, start: int, first: int, maxLag: int)
    requires generated != [] && Progress([], generated, start, first, maxLag)
    ensures CountMode(StrictFallback, generated) + CountMode(Prefetch, generated) == |generated| - 1
    ensures maxLag == 0 ==> CountMode(Prefetch, generated) == 0
  {
    var n := |generated| - 1;
    assert GeneratedRight(generated[n], start, first, n, maxLag);
    if n > 0 {
      ModesAddUp(generated[..n], start, first, maxLag);
    }
  }

  lemma ConsumeKeepsProgress(consumed: seq<Event>, generated: seq<Event>, row: Event, start: int, first: int,
                             maxLag: int)
    requires Progress(consumed, generated, start, first, maxLag) && |consumed| < |generated|
    requires ConsumedRight(row, generated[|consumed|], first, |consumed|)
    ensures Progress(consumed + [row], generated, start, first, maxLag)
  {}

  lemma GenerateKeepsProgress(consumed: seq<Event>, generated: seq<Event>, row: Event, start: int, first: int,
                              maxLag: int)
    requires Progress(consumed, generated, start, first, maxLag)
               && GeneratedRight(row, start, first, |generated|, maxLag)
    ensures Progress(consumed, generated + [row], start, first, maxLag)
  {}

  lemma FlownHalts(e: Engines, v: View, s: Settings, first: int, n: nat, g: nat, injected: bool, version: int,
                   flying: nat)
    requires Written(v, s, first, n, g, injected) && Flown(e, v.generated, version, flying)
    ensures (e, v) in Halted(s, first)
  {}

  /** One more thing asked of the engines; an update only when all is quiet. */
  lemma FlownAfterOp(e: Engines, generated: seq<Event>, version: int, flying: nat, op: Op)
    requires Flown(e, generated, version, flying)
    requires (op.Ended? ==> flying > 0) && (op.Updated? ==> flying == 0)
    ensures var now := e.(ops := e.ops + [op], version := if op.Updated? then op.version else e.version);
      Flown(now, generated, if op.Updated? then now.version else version,
            if op.Began? then flying + 1 else if op.Ended? then flying - 1 else flying)
  {
    OpAppend(e.initial, e.ops, op);
    if AllSteady(e.initial, e.ops, generated) { AllSteadyExtends(e.initial, e.ops, e.ops + [op], generated); }
  }

  lemma FlownAfterRow(e: Engines, generated: seq<Event>, version: int, flying: nat, row: Event)
    requires Flown(e, generated, version, flying) && row.RolloutGenerated?
    requires e.truthful ==> Steady(e.initial, e.ops, row.id, row.version)
    ensures Flown(e, generated + [row], version, flying)
  {}

  /** A generation that runs alone, and its row. */
  lemma FlownAfterGeneration(e: Engines, generated: seq<Event>, version: int, row: Event)
    requires Flown(e, generated, version, 0) && row.RolloutGenerated? && row.version == version
    ensures Flown(Generating(e, row.id), generated, version, 0)
    ensures Flown(Generating(e, row.id), generated + [row], version, 0)
  {
    FlownAfterOp(e, generated, version, 0, Began(row.id));
    FlownAfterOp(e.(ops := e.ops + [Began(row.id)]), generated, version, 1, Ended(row.id));
    QuietIsSteady(e.initial, e.ops, row.id, []);
    assert e.ops + [Began(row.id)] + [] == e.ops + [Began(row.id)];
    FlownAfterRow(Generating(e, row.id), generated, version, 0, row);
  }

  /** A generation that runs while a batch trains, and its row. */
  lemma FlownAfterOverlap(e: Engines, generated: seq<Event>, version: int, row: Event)
    requires Flown(e, generated, version, 0) && row.RolloutGenerated? && row.version == version
    ensures Flown(Overlapping(e, row.id), generated, version, 1)
    ensures var now := Landed(Overlapping(e, row.id), row.id);
      Flown(now, generated, version, 0) && Flown(now, generated + [row], version, 0)
  {
    var began := e.(ops := e.ops + [Began(row.id)]);
    FlownAfterOp(e, generated, version, 0, Began(row.id));
    FlownAfterOp(began, generated, version, 1, Trained(row.id - 1));
    FlownAfterOp(Overlapping(e, row.id), generated, version, 1, Ended(row.id));
    QuietIsSteady(e.initial, e.ops, row.id, [Trained(row.id - 1)]);
    FlownAfterRow(Landed(Overlapping(e, row.id), row.id), generated, version, 0, row);
  }

  function Observed(c: Counts, tokens: int, lag: int, buffered: int): Counts {
    c.(completed := c.completed + 1, acceptedTokens := c.acceptedTokens + tokens,
       maxLag := Max(c.maxLag, lag), maxBuffered := Max(c.maxBuffered, buffered))
  }

  /** Everything at one moment of a run, the buffer aside. */
  datatype Moment = Moment(engines: Engines, view: View, counts: Counts)

  /** About to consume batch k, or done if there is none. */
  ghost function Head(s: Settings, first: int, k: nat, injected: bool): iset<Moment> {
    iset m: Moment |
    && Written(m.view, s, first, k, if s.Has(k) then k + 1 else k, injected)
    && Tallied(m.counts, m.view, k > 0 && s.Has(1))
    && Settled(m.counts, m.view, s, m.engines.truthful, 0, 0)
    && Flown(m.engines, m.view.generated, first + k, 0)
    && OnPlan(m.engines, m.view, m.counts, s, injected, if s.Has(k) then k + 1 else k)
  }

  /** The n-th batch is trained or about to be; observed are the counters once
      it has been. Nothing is in flight. */
  ghost function Taken(s: Settings, first: int, n: nat, injected: bool, observed: Counts): iset<Moment> {
    iset m: Moment |
    && n > 0 && Written(m.view, s, first, n, n, injected)
    && Tallied(observed, m.view, n > 1 && s.Has(1))
    && Settled(observed, m.view, s, m.engines.truthful, 0, 0)
    && Flown(m.engines, m.view.generated, first + n - 1, 0)
    && OnPlan(m.engines, m.view, observed, s, injected, n)
  }

  /** The n-th batch is trained on and one prefetch is pending. */
  ghost predicate Pending(v: View, c: Counts, honest: bool, s: Settings, first: int, n: nat, injected: bool) {
    && n > 0 && s.Has(n) && s.maxLag == 1
    && Written(v, s, first, n, n, injected)
    && Tallied(c, v, n > 1 && s.Has(1))
    && Settled(c, v, s, honest, 1, 0)
  }

  /** The n-th batch was trained on while the next was being generated by what
      were then the engines quiet. */
  ghost function Ahead(s: Settings, first: int, n: nat, injected: bool, quiet: Engines): iset<Moment> {
    iset m: Moment |
    && Pending(m.view, m.counts, m.engines.truthful, s, first, n, injected)
    && Flown(quiet, m.view.generated, first + n - 1, 0)
    && m.engines == Overlapping(quiet, s.startId + n)
    && OnPlan(quiet, m.view, m.counts, s, injected, n)
  }

  /** Generating rollout next while the one before it trains. */
  function Overlapping(quiet: Engines, next: int): Engines {
    quiet.(ops := quiet.ops + [Began(next)] + [Trained(next - 1)])
  }

  function Alone(e: Engines, id: int): Engines {
    e.(ops := e.ops + [Trained(id)])
  }

  function Generating(e: Engines, id: int): Engines {
    e.(ops := e.ops + [Began(id)] + [Ended(id)])
  }

  function Landed(e: Engines, next: int): Engines {
    e.(ops := e.ops + [Ended(next)])
  }

  /** The n-th batch is trained on and the next may be at hand. */
  ghost function Midway(s: Settings, first: int, n: nat, injected: bool, got: bool, version: int): iset<Moment> {
    iset m: Moment |
    && n > 0 && (got ==> s.Has(n) && s.maxLag == 1)
    && Written(m.view, s, first, n, if got then n + 1 else n, injected)
    && Tallied(m.counts, m.view, n > 1 && s.Has(1))
    && Settled(m.counts, m.view, s, m.engines.truthful, 0, if !got && s.Has(n) then 1 else 0)
    && Flown(m.engines, m.view.generated, version, 0)
    && OnPlan(m.engines, m.view, m.counts, s, injected, if s.Has(n) then n + 1 else n)
    && (m.engines.sure && s.Has(n) ==> (got <==> s.Plan(n) == Prefetch))
  }

  lemma WaitingIsFresh(m: Moment, s: Settings, first: int, k: nat, injected: bool, b: Batch)
    requires m in Head(s, first, k, injected) && s.Has(k) && s.Allowed() && Holds([b], m.view.generated)
    ensures 0 <= first + k - b.version <= s.maxLag
    ensures ConsumedRight(BatchConsumed(s.startId + k, b.version, first + k, first + k - b.version, b.tokens, 0),
                          m.view.generated[k], first, k)
  {
    assert GeneratedRight(m.view.generated[k], s.startId, first, k, s.maxLag);
  }

  lemma HeadTakes(m: Moment, s: Settings, first: int, k: nat, injected: bool, row: Event)
    requires m in Head(s, first, k, injected) && s.Has(k) && ConsumedRight(row, m.view.generated[k], first, k)
    ensures m.(view := Extend(m.view, row))
            in Taken(s, first, k + 1, injected, Observed(m.counts, row.tokens, row.lag, 0))
  {
    ConsumeKeepsProgress(m.view.consumed, m.view.generated, row, s.startId, first, s.maxLag);
  }

  lemma TakenHalts(m: Moment, s: Settings, first: int, n: nat, injected: bool, observed: Counts)
    requires m in Taken(s, first, n, injected, observed)
    ensures (m.engines, m.view) in Halted(s, first)
  {}

  /** Training alone. */
  lemma TakenTrains(m: Moment, s: Settings, first: int, n: nat, injected: bool, observed: Counts, id: int)
    requires m in Taken(s, first, n, injected, observed)
    ensures (Alone(m.engines, id), m.view) in Halted(s, first)
    ensures !s.Has(n) || s.maxLag != 1 || (m.engines.truthful ==> m.engines.version != first + n - 1)
         ==> Moment(Alone(m.engines, id), m.view, observed) in Midway(s, first, n, injected, false, first + n - 1)
  {
    FlownAfterOp(m.engines, m.view.generated, first + n - 1, 0, Trained(id));
    TakenThen(m, Alone(m.engines, id), s, first, n, injected, observed);
  }

  lemma TakenThen(m: Moment, e: Engines, s: Settings, first: int, n: nat, injected: bool, observed: Counts)
    requires m in Taken(s, first, n, injected, observed)
    requires Flown(e, m.view.generated, first + n - 1, 0)
    requires e.truthful == m.engines.truthful && e.sure == m.engines.sure
    ensures (e, m.view) in Halted(s, first)
    ensures !s.Has(n) || s.maxLag != 1 || (m.engines.truthful ==> m.engines.version != first + n - 1)
         ==> Moment(e, m.view, observed) in Midway(s, first, n, injected, false, first + n - 1)
  {}

  /** Training with the next batch being generated meanwhile. */
  lemma TakenTrainsAhead(m: Moment, s: Settings, first: int, n: nat, injected: bool, observed: Counts, next: int,
                         version: int)
    requires m in Taken(s, first, n, injected, observed) && s.Has(n) && s.maxLag == 1
    requires next == s.startId + n && version == first + n - 1
    ensures var now := Moment(Overlapping(m.engines, next), Extend(m.view, PrefetchStarted(next, version)), observed);
      now in Ahead(s, first, n, injected, m.engines) && (now.engines, now.view) in Halted(s, first)
  {
    PrefetchIsPending(m, s, first, n, injected, observed);
    var now := Moment(Overlapping(m.engines, next), Extend(m.view, PrefetchStarted(next, version)), observed);
    AheadHalts(now, s, first, n, injected, m.engines);
  }

  lemma AheadHalts(m: Moment, s: Settings, first: int, n: nat, injected: bool, quiet: Engines)
    requires m in Ahead(s, first, n, injected, quiet)
    ensures (m.engines, m.view) in Halted(s, first)
  {
    var row := RolloutGenerated(s.startId + n, first + n - 1, 0, Prefetch);
    FlownAfterOverlap(quiet, m.view.generated, first + n - 1, row);
    FlownHalts(m.engines, m.view, s, first, n, n, injected, first + n - 1, 1);
  }

  lemma PrefetchIsPending(m: Moment, s: Settings, first: int, n: nat, injected: bool, observed: Counts)
    requires m in Taken(s, first, n, injected, observed) && s.Has(n) && s.maxLag == 1
    ensures Pending(Extend(m.view, PrefetchStarted(s.startId + n, first + n - 1)), observed, m.engines.truthful,
                    s, first, n, injected)
  {}

  lemma AheadLands(m: Moment, s: Settings, first: int, n: nat, injected: bool, quiet: Engines, next: int,
                   version: int, tokens: int)
    requires m in Ahead(s, first, n, injected, quiet) && next == s.startId + n && version == first + n - 1
    requires m.engines.sure ==> next != s.faultId
    ensures var row := RolloutGenerated(next, version, tokens, Prefetch);
      Moment(Landed(m.engines, next), Extend(m.view, row), m.counts) in Midway(s, first, n, injected, true, version)
  {
    var row := RolloutGenerated(next, version, tokens, Prefetch);
    FlownAfterOverlap(quiet, m.view.generated, version, row);
    LandsOnPlan(Landed(m.engines, next), m.view, m.counts, s, injected, n, row);
    PendingLands(Landed(m.engines, next), m.view, m.counts, s, first, n, injected, row);
  }

  lemma PendingLands(e: Engines, v: View, c: Counts, s: Settings, first: int, n: nat, injected: bool, row: Event)
    requires Pending(v, c, e.truthful, s, first, n, injected)
    requires row.RolloutGenerated? && row.id == s.startId + n && row.version == first + n - 1 && row.mode == Prefetch
    requires Flown(e, v.generated + [row], first + n - 1, 0)
    requires OnPlan(e, Extend(v, row), c, s, injected, n + 1) && (e.sure ==> s.Plan(n) == Prefetch)
    ensures Moment(e, Extend(v, row), c) in Midway(s, first, n, injected, true, first + n - 1)
  {
    GenerateKeepsProgress(v.consumed, v.generated, row, s.startId, first, s.maxLag);
  }

  /** What is to be thrown away was not before it arrived, and honest engines
      are where they were. */
  lemma AheadIsQuiet(m: Moment, s: Settings, first: int, n: nat, injected: bool, quiet: Engines)
    requires m in Ahead(s, first, n, injected, quiet)
    ensures m.engines.sure ==> m.engines.version == first + n - 1
    ensures m.engines.sure && s.startId + n == s.faultId ==> !injected
    ensures s.EndsAt(s.startId + n) <==> s.startId + n == s.faultId && !s.strictFallback
  {}

  /** A prefetch that came to a batch, unless it was to be thrown away. */
  lemma LandsOnPlan(e: Engines, v: View, c: Counts, s: Settings, injected: bool, n: nat, row: Event)
    requires OnPlan(e, v, c, s, injected, n) && n > 0 && |v.generated| == n && s.maxLag == 1
    requires row.RolloutGenerated? && row.mode == Prefetch && (e.sure ==> s.startId + n != s.faultId)
    ensures OnPlan(e, Extend(v, row), c, s, injected, n + 1) && (e.sure ==> s.Plan(n) == Prefetch)
  {}

  /** One that was. */
  lemma FailsOnPlan(e: Engines, v: View, c: Counts, s: Settings, injected: bool, n: nat, injected': bool)
    requires OnPlan(e, v, c, s, injected, n) && n > 0 && s.maxLag == 1
    requires e.sure ==> s.startId + n == s.faultId && injected'
    ensures OnPlan(e, Faulted(v, s.startId + n, injected, injected'), Unfetched(c), s, injected', n + 1)
    ensures e.sure ==> s.Plan(n) != Prefetch
  {}

  function Faulted(v: View, next: int, injected: bool, injected': bool): View {
    if injected' != injected then Extend(v, FaultInjected(next)) else v
  }

  function Unfetched(c: Counts): Counts {
    c.(prefetchFailures := c.prefetchFailures + 1)
  }

  lemma AheadFails(m: Moment, s: Settings, first: int, n: nat, injected: bool, quiet: Engines, injected': bool,
                   next: int, version: int)
    requires m in Ahead(s, first, n, injected, quiet) && (injected ==> injected')
    requires next == s.startId + n && version == first + n - 1
    requires m.engines.sure ==> next == s.faultId && injected'
    ensures var now := Moment(Landed(m.engines, next), Faulted(m.view, next, injected, injected'), Unfetched(m.counts));
      && (now.engines, now.view) in Halted(s, first)
      && (s.strictFallback ==> now in Midway(s, first, n, injected', false, version))
  {
    var row := RolloutGenerated(next, version, 0, Prefetch);
    FlownAfterOverlap(quiet, m.view.generated, version, row);
    FailsOnPlan(Landed(m.engines, next), m.view, m.counts, s, injected, n, injected');
    PendingFails(Landed(m.engines, next), m.view, m.counts, s, first, n, injected, injected');
  }

  lemma PendingFails(e: Engines, v: View, c: Counts, s: Settings, first: int, n: nat, injected: bool, injected': bool)
    requires Pending(v, c, e.truthful, s, first, n, injected) && (injected ==> injected')
    requires Flown(e, v.generated, first + n - 1, 0)
    requires OnPlan(e, Faulted(v, s.startId + n, injected, injected'), Unfetched(c), s, injected', n + 1)
    requires e.sure ==> s.Plan(n) != Prefetch
    ensures var view := Faulted(v, s.startId + n, injected, injected');
      && (e, view) in Halted(s, first)
      && (s.strictFallback ==> Moment(e, view, Unfetched(c)) in Midway(s, first, n, injected', false, first + n - 1))
  {}

  /** The update leaves whatever version it leaves; the driver goes on only if
      honest engines say it is the right one. */
  lemma MidwayUpdates(m: Moment, s: Settings, first: int, n: nat, injected: bool, got: bool, version: int, left: int,
                      next: int)
    requires m in Midway(s, first, n, injected, got, version)
    ensures var e := m.engines.(version := left, ops := m.engines.ops + [Updated(left)]);
      && (e, m.view) in Halted(s, first)
      && ((e.truthful ==> left == next) ==> m.(engines := e) in Midway(s, first, n, injected, got, next))
  {
    FlownAfterOp(m.engines, m.view.generated, version, 0, Updated(left));
  }

  lemma MidwayHalts(m: Moment, s: Settings, first: int, n: nat, injected: bool, got: bool, version: int)
    requires m in Midway(s, first, n, injected, got, version)
    ensures (m.engines, m.view) in Halted(s, first)
  {}

  /** One batch is waiting, and the counter of the most ever says so. */
  function Buffered(m: Moment): Moment {
    m.(counts := m.counts.(maxBuffered := Max(m.counts.maxBuffered, 1)))
  }

  lemma MidwayRefills(m: Moment, s: Settings, first: int, n: nat, injected: bool)
    requires m in Midway(s, first, n, injected, true, first + n)
    ensures Buffered(m) in Head(s, first, n, injected)
  {}

  lemma MidwayFallsBack(m: Moment, s: Settings, first: int, n: nat, injected: bool, next: int, version: int,
                        tokens: int)
    requires m in Midway(s, first, n, injected, false, version) && s.Has(n) && next == s.startId + n
               && version == first + n
    ensures (Generating(m.engines, next), m.view) in Halted(s, first)
    ensures var row := RolloutGenerated(next, version, tokens, StrictFallback);
      FellBack(m, Generating(m.engines, next), row) in Head(s, first, n, injected)
  {
    var row := RolloutGenerated(next, version, tokens, StrictFallback);
    FlownAfterGeneration(m.engines, m.view.generated, version, row);
    MidwayThen(m, Generating(m.engines, next), s, first, n, injected, row);
  }

  function FellBack(m: Moment, e: Engines, row: Event): Moment {
    Buffered(Moment(e, Extend(m.view, row), m.counts.(strictFallbacks := m.counts.strictFallbacks + 1)))
  }

  lemma MidwayThen(m: Moment, e: Engines, s: Settings, first: int, n: nat, injected: bool, row: Event)
    requires m in Midway(s, first, n, injected, false, first + n) && s.Has(n)
    requires row.RolloutGenerated? && row.id == s.startId + n && row.version == first + n && row.mode == StrictFallback
    requires Flown(e, m.view.generated, first + n, 0) && Flown(e, m.view.generated + [row], first + n, 0)
    requires e.truthful == m.engines.truthful && e.sure == m.engines.sure
    ensures (e, m.view) in Halted(s, first)
    ensures FellBack(m, e, row) in Head(s, first, n, injected)
  {
    GenerateKeepsProgress(m.view.consumed, m.view.generated, row, s.startId, first, s.maxLag);
  }

  lemma MidwayEnds(m: Moment, s: Settings, first: int, n: nat, injected: bool)
    requires m in Midway(s, first, n, injected, false, first + n) && !s.Has(n)
    ensures m in Head(s, first, n, injected)
  {}

  lemma HeadHalts(m: Moment, s: Settings, first: int, k: nat, injected: bool)
    requires m in Head(s, first, k, injected)
    ensures (m.engines, m.view) in Halted(s, first)
  {}

  const BLANK := View([], [], 0, 0, 0, 0, 0, 0, 0)

  /** Before the first rollout: one update, perhaps, and nothing else. */
  lemma BlankHalts(e: Engines, s: Settings, first: int)
    requires NoOverlap(e.ops)
    ensures (e, BLANK) in Halted(s, first)
  {}

  lemma FirstUpdate(e: Engines, left: int)
    requires e.ops == []
    ensures var now := e.(version := left, ops := e.ops + [Updated(left)]);
      && NoOverlap(now.ops) && InFlight(now.ops) == 0 && VersionAfter(e.initial, now.ops) == left
  {
    OpAppend(e.initial, e.ops, Updated(left));
  }

  /** The first rollout, generated alone, is batch 0. */
  lemma FirstGenerated(e: Engines, s: Settings, first: int, tokens: int)
    requires Flown(e, [], first, 0) && s.Has(0)
    ensures var row := RolloutGenerated(s.startId, first, tokens, Initial);
      Moment(Generating(e, s.startId), Extend(BLANK, row), Counts(0, 0, 0, 0, 0, 0, 0, 0)) in Head(s, first, 0, false)
    ensures (Generating(e, s.startId), BLANK) in Halted(s, first)
  {
    var row := RolloutGenerated(s.startId, first, tokens, Initial);
    FlownAfterGeneration(e, [], first, row);
    GenerateKeepsProgress([], [], row, s.startId, first, s.maxLag);
    assert [] + [row] == [row];
    FirstIsHead(Generating(e, s.startId), s, first, row);
  }

  lemma FirstIsHead(e: Engines, s: Settings, first: int, row: Event)
    requires Flown(e, [], first, 0) && Flown(e, [row], first, 0) && s.Has(0)
    requires row.RolloutGenerated? && row.mode == Initial && Progress([], [row], s.startId, first, s.maxLag)
    ensures Moment(e, Extend(BLANK, row), Counts(0, 0, 0, 0, 0, 0, 0, 0)) in Head(s, first, 0, false)
    ensures (e, BLANK) in Halted(s, first)
  {
    assert [] + [row] == [row];
  }

  lemma LastRow(rows: seq<Event>, row: Event)
    requires ViewOf(rows).ended == 0 && row.PipelineComplete?
    ensures var all := rows + [row];
      && Completions(all) == [row] && Failures(all) == [] && Rejections(all) == []
      && Consumed(all) == ViewOf(rows).consumed && Generated(all) == ViewOf(rows).generated
      && |Prefetches(all)| == ViewOf(rows).prefetches && |Faults(all)| == ViewOf(rows).faults
  {
    RowAppend(rows, row);
    ViewBatches(rows);
    ViewNumbers(rows);
    assert Completions(rows) == [];
    assert [] + [row] == [row];
  }

  /** What is known when no batch is left. */
  lemma HeadTotals(m: Moment, s: Settings, first: int, n: nat, injected: bool)
    requires m in Head(s, first, n, injected) && n > 0 && s.startId + n == s.numRollout
    ensures m.view.ended == 0 && |m.view.consumed| == n && |m.view.generated| == n && m.view.faults <= 1
    ensures Progress(m.view.consumed, m.view.generated, s.startId, first, s.maxLag)
    ensures Tallied(m.counts, m.view, n > 1) && Settled(m.counts, m.view, s, m.engines.truthful, 0, 0)
    ensures OnPlan(m.engines, m.view, m.counts, s, injected, n)
  {}

  /** The last row makes the account whole. */
  lemma HeadCompletes(rows: seq<Event>, m: Moment, s: Settings, first: int, n: nat, injected: bool, row: Event)
    requires m in Head(s, first, n, injected) && m.view == ViewOf(rows) && n > 0 && s.startId + n == s.numRollout
    requires row.PipelineComplete? && row.finalVersion == first + n && row.bufferStaleBatches == 0
               && row.bufferStaleTokens == 0
    requires row.summary.counts == m.counts && row.summary.elapsed > 0.0
    requires row.summary.throughput == m.counts.acceptedTokens as real / row.summary.elapsed
    ensures CompletedTrace(rows + [row], s.startId, n, s.maxLag)
    ensures Generated(rows + [row]) == m.view.generated
    ensures Settled(m.counts, m.view, s, m.engines.truthful, 0, 0)
  {
    HeadTotals(m, s, first, n, injected);
    LastRow(rows, row);
    ViewModes(rows);
    ViewAppend(rows, row);
    assert Tallied(m.counts, ViewOf(rows + [row]), n > 1);
    assert Completions(rows + [row])[0] == row;
  }
}
