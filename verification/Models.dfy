/** Requests, workers and responses, and the two gates every placement passes:
    the group must be homogeneous and the workers eligible. */
module Models {
  import opened Outcomes
  import opened Ordering

  datatype Lifecycle = Starting | Ready | Draining | Updating | Failed | Recovering

  type NonNegative = x: real | x >= 0.0
  type Rate = x: real | x > 0.0 witness 1.0

  /** One rollout worker. Decode and prefill rates are tokens per second. */
  datatype Worker = Worker(
    id: string,
    lifecycle: Lifecycle,
    version: int,
    running: nat,
    queued: nat,
    queuedPrefill: nat,
    activeDecode: nat,
    prefillRate: Rate,
    decodeRate: Rate,
    heartbeat: int,
    prefixMatched: map<string, int>,
    checksum: Option<string>)
  {
    predicate IsEligible(policyVersion: int, now: int, timeout: int) {
      lifecycle == Ready && version == policyVersion && now - heartbeat <= timeout
    }

    function InFlight(): nat { running + queued }

    function QueueTime(): (t: real)
      ensures t >= 0.0
    {
      queuedPrefill as real / prefillRate + activeDecode as real / decodeRate
    }

    function MatchedPrefix(fingerprint: string, promptTokens: nat): (n: nat)
      ensures n <= promptTokens
    {
      var known := if fingerprint in prefixMatched then prefixMatched[fingerprint] else 0;
      var matched := if known < 0 then 0 else known;
      if promptTokens < matched then promptTokens else matched
    }

    /** Prompt tokens this worker would have to prefill itself. */
    function Prefill(request: Request): (n: nat)
      ensures n <= request.promptTokens
    {
      request.promptTokens - MatchedPrefix(request.prefix, request.promptTokens)
    }
  }

  datatype Request = Request(
    id: string,
    promptId: string,
    groupId: string,
    sampleIndex: nat,
    groupSize: nat,
    policyVersion: int,
    rolloutStep: int,
    promptTokens: nat,
    maxNewTokens: nat,
    predicted: NonNegative,
    p90: NonNegative,
    prefix: string,
    temperature: real,
    topP: real,
    topK: Option<int>,
    tokenizer: string,
    template: string)

  /** Agreement in everything that is compared for equality. */
  predicate SameKind(a: Request, b: Request) {
    && a.groupId == b.groupId
    && a.promptId == b.promptId
    && a.groupSize == b.groupSize
    && a.policyVersion == b.policyVersion
    && a.rolloutStep == b.rolloutStep
    && a.tokenizer == b.tokenizer
    && a.template == b.template
    && a.topK == b.topK
  }

  const TOLERANCE := 0.000000001

  function Magnitude(x: real): real {
    if x < 0.0 then -x else x
  }

  /** Closeness relative to the larger of the two, which is not transitive. */
  predicate IsClose(a: real, b: real) {
    || Magnitude(a - b) <= TOLERANCE * Magnitude(a)
    || Magnitude(a - b) <= TOLERANCE * Magnitude(b)
  }

  predicate CloseSettings(a: Request, b: Request) {
    IsClose(a.temperature, b.temperature) && IsClose(a.topP, b.topP)
  }

  predicate SameGroup(a: Request, b: Request) {
    SameKind(a, b) && CloseSettings(a, b)
  }

  predicate BySample(a: Request, b: Request) { a.sampleIndex <= b.sampleIndex }
  predicate ByP90Descending(a: Request, b: Request) { a.p90 >= b.p90 }
  predicate ById(a: Worker, b: Worker) { LexLeq(a.id, b.id) }

  lemma OrdersAreTotal()
    ensures TotalPreorder(BySample) && TotalPreorder(ByP90Descending) && TotalPreorder(ById)
  {
    forall a: Worker, b: Worker ensures ById(a, b) || ById(b, a) {
      LexTotal(a.id, b.id);
    }
    forall a: Worker, b: Worker, c: Worker | ById(a, b) && ById(b, c) ensures ById(a, c) {
      LexTransitive(a.id, b.id, c.id);
    }
  }

  function SampleOf(r: Request): nat { r.sampleIndex }
  function IdOf(w: Worker): string { w.id }

  ghost predicate DistinctIds(workers: seq<Worker>) {
    Distinct(IdOf, workers)
  }

  predicate DistinctSamples(items: seq<Request>) {
    forall i, j | 0 <= i < j < |items| :: items[i].sampleIndex != items[j].sampleIndex
  }

  predicate Homogeneous(items: seq<Request>) {
    && items != []
    && (forall i | 0 <= i < |items| :: SameGroup(items[i], items[0]))
    && DistinctSamples(items)
  }

  /** The group in sample order, or the error a mixed group raises. */
  function EnsureHomogeneous(items: seq<Request>): Result<seq<Request>> {
    if Homogeneous(items) then Success(SortBy(BySample, items)) else Failure(ValidationError)
  }

  function Filter(workers: seq<Worker>, policyVersion: int, now: int, timeout: int): (r: seq<Worker>)
    ensures forall w | w in r :: w in workers && w.IsEligible(policyVersion, now, timeout)
    ensures forall w | w in workers && w.IsEligible(policyVersion, now, timeout) :: w in r
  {
    if workers == [] then []
    else
      var w := workers[|workers| - 1];
      Filter(workers[..|workers| - 1], policyVersion, now, timeout)
      + if w.IsEligible(policyVersion, now, timeout) then [w] else []
  }

  datatype Gate = Gate(items: seq<Request>, ready: seq<Worker>)

  /** The sorted group and the sorted workers that may serve it. */
  function EligibleWorkers(items: seq<Request>, workers: seq<Worker>, now: int, timeout: int): Result<Gate> {
    match EnsureHomogeneous(items)
    case Failure(e) => Failure(e)
    case Success(sorted) =>
      SortPermutes(BySample, items);
      var selected := Filter(workers, sorted[0].policyVersion, now, timeout);
      if selected == [] then Failure(ValidationError)
      else Success(Gate(sorted, SortBy(ById, selected)))
  }

  lemma {:induction false} FilterPermutes(a: seq<Worker>, v: int, now: int, timeout: int, w: Worker)
    ensures multiset(Filter(a, v, now, timeout))[w] == if w.IsEligible(v, now, timeout) then multiset(a)[w] else 0
  {
    if a != [] {
      FilterPermutes(a[..|a| - 1], v, now, timeout, w);
      assert a == a[..|a| - 1] + [a[|a| - 1]];
    }
  }

  /** The order of the workers does not reach a placement policy, and neither
      does the order of the requests, except that it may decide whether they are
      refused; with settings close to each other pairwise not even that. */
  lemma EligibleWorkersIsCanonical(
      items: seq<Request>, items': seq<Request>, workers: seq<Worker>, workers': seq<Worker>, now: int, timeout: int)
    requires multiset(items) == multiset(items') && multiset(workers) == multiset(workers')
    requires DistinctIds(workers)
    ensures var r, r' := EligibleWorkers(items, workers, now, timeout), EligibleWorkers(items', workers', now, timeout);
      && (r == r' <==> (r.Success? <==> r'.Success?))
      && ((Homogeneous(items) <==> Homogeneous(items')) || PairwiseClose(items) ==> r == r')
  {
    HomogeneityIsCanonical(items, items');
    if Homogeneous(items) && Homogeneous(items') {
      SamplesSortCanonically(items, items');
      SortPermutes(BySample, items);
      ReadyIsCanonical(workers, workers', SortBy(BySample, items)[0].policyVersion, now, timeout);
    }
  }

  lemma SamplesSortCanonically(items: seq<Request>, items': seq<Request>)
    requires multiset(items) == multiset(items') && DistinctSamples(items)
    ensures SortBy(BySample, items) == SortBy(BySample, items')
  {
    OrdersAreTotal();
    forall a, b | a in multiset(items) && b in multiset(items) && BySample(a, b) && BySample(b, a) ensures a == b {
      var i :| 0 <= i < |items| && items[i] == a;
      var j :| 0 <= j < |items| && items[j] == b;
    }
    SortIsCanonical(BySample, items, items');
  }

  lemma ReadyIsCanonical(workers: seq<Worker>, workers': seq<Worker>, v: int, now: int, timeout: int)
    requires multiset(workers) == multiset(workers') && DistinctIds(workers)
    ensures var f, f' := Filter(workers, v, now, timeout), Filter(workers', v, now, timeout);
      |f| == |f'| && SortBy(ById, f) == SortBy(ById, f')
  {
    OrdersAreTotal();
    var f, f' := Filter(workers, v, now, timeout), Filter(workers', v, now, timeout);
    forall w: Worker ensures multiset(f)[w] == multiset(f')[w] {
      FilterPermutes(workers, v, now, timeout, w);
      FilterPermutes(workers', v, now, timeout, w);
    }
    assert multiset(f) == multiset(f');
    assert |multiset(f)| == |multiset(f')|;
    FilterKeepsDistinct(workers, v, now, timeout);
    forall a, b | a in multiset(f) && b in multiset(f) && ById(a, b) && ById(b, a) ensures a == b {
      LexTotal(a.id, b.id);
      var i :| 0 <= i < |f| && f[i] == a;
      var j :| 0 <= j < |f| && f[j] == b;
      assert IdOf(f[i]) == IdOf(f[j]);
    }
    SortIsCanonical(ById, f, f');
  }

  ghost predicate PairwiseClose(items: seq<Request>) {
    forall i, j | 0 <= i < |items| && 0 <= j < |items| :: CloseSettings(items[i], items[j])
  }

  lemma KindCarries(items: seq<Request>, items': seq<Request>)
    requires multiset(items) == multiset(items') && Homogeneous(items)
    ensures |items'| == |items| && DistinctSamples(items')
    ensures forall i | 0 <= i < |items'| :: SameKind(items'[i], items'[0])
  {
    assert |multiset(items)| == |multiset(items')|;
    PermutationKeepsDistinct(SampleOf, items, items');
    forall i | 0 <= i < |items'| ensures SameKind(items'[i], items'[0]) {
      assert items'[i] in multiset(items) && items'[0] in multiset(items);
    }
  }

  lemma ClosenessCarries(items: seq<Request>, items': seq<Request>)
    requires multiset(items) == multiset(items') && PairwiseClose(items)
    ensures PairwiseClose(items')
  {
    forall i, j | 0 <= i < |items'| && 0 <= j < |items'| ensures CloseSettings(items'[i], items'[j]) {
      assert items'[i] in multiset(items) && items'[j] in multiset(items);
    }
  }

  /** The requests are compared with the first one. In another order the group
      passes exactly if the settings are close to those of the request that is
      first then; so all orders pass exactly if all settings are close to each
      other. */
  lemma HomogeneityIsCanonical(items: seq<Request>, items': seq<Request>)
    requires multiset(items) == multiset(items')
    ensures Homogeneous(items) ==>
              (Homogeneous(items') <==> forall i | 0 <= i < |items'| :: CloseSettings(items'[i], items'[0]))
    ensures PairwiseClose(items) ==> (Homogeneous(items) <==> Homogeneous(items'))
    ensures Homogeneous(items) ==>
              (PairwiseClose(items) <==>
                 forall order: seq<Request> | multiset(order) == multiset(items) :: Homogeneous(order))
  {
    if Homogeneous(items) { KindCarries(items, items'); }
    if Homogeneous(items') { KindCarries(items', items); }
    if PairwiseClose(items) { ClosenessCarries(items, items'); }
    if Homogeneous(items) { AllOrdersPass(items); }
  }

  lemma AllOrdersPass(items: seq<Request>)
    requires Homogeneous(items)
    ensures PairwiseClose(items) <==>
              forall order: seq<Request> | multiset(order) == multiset(items) :: Homogeneous(order)
  {
    if PairwiseClose(items) {
      forall order: seq<Request> | multiset(order) == multiset(items) ensures Homogeneous(order) {
        KindCarries(items, order);
        ClosenessCarries(items, order);
      }
    }
    if forall order: seq<Request> | multiset(order) == multiset(items) :: Homogeneous(order) {
      forall i, j | 0 <= i < |items| && 0 <= j < |items| ensures CloseSettings(items[i], items[j]) {
        FirstDecides(items, i, j);
      }
    }
  }

  /** With the j-th request moved to the front the others are compared with it. */
  lemma FirstDecides(items: seq<Request>, i: nat, j: nat)
    requires i < |items| && j < |items|
    requires forall order: seq<Request> | multiset(order) == multiset(items) :: Homogeneous(order)
    ensures CloseSettings(items[i], items[j])
  {
    var order := [items[j]] + items[..j] + items[j + 1..];
    assert items == items[..j] + [items[j]] + items[j + 1..];
    assert multiset(order) == multiset(items);
    assert items[i] in multiset(order);
    var k :| 0 <= k < |order| && order[k] == items[i];
    assert Homogeneous(order) && SameGroup(order[k], order[0]);
  }

  /** Three requests whose temperatures differ by almost the tolerance each: the
      group passes with the middle one first, and is refused with the lowest
      first. */
  lemma OrderCanDecide(low: Request, middle: Request, high: Request)
    requires low.temperature == 1.0 && low.topP == 1.0
    requires middle == low.(temperature := 1.0000000009, sampleIndex := low.sampleIndex + 1)
    requires high == low.(temperature := 1.0000000018, sampleIndex := low.sampleIndex + 2)
    ensures multiset([middle, low, high]) == multiset([low, middle, high])
    ensures Homogeneous([middle, low, high]) && !Homogeneous([low, middle, high])
  {
    assert [low, middle, high][2] == high && !IsClose(high.temperature, low.temperature);
  }

  /** What a successful gate promises: the same requests in sample order, and
      exactly the eligible workers, in id order, without repeats. */
  lemma GateIsSound(items: seq<Request>, workers: seq<Worker>, now: int, timeout: int)
    requires DistinctIds(workers)
    ensures var r := EligibleWorkers(items, workers, now, timeout);
      r.Success? ==>
        && Homogeneous(items)
        && Sorted(BySample, r.value.items) && multiset(r.value.items) == multiset(items) && |r.value.items| == |items|
        && DistinctSamples(r.value.items)
        && (forall i | 0 <= i < |r.value.items| :: SameKind(r.value.items[i], r.value.items[0]))
        && r.value.ready != [] && Sorted(ById, r.value.ready) && DistinctIds(r.value.ready)
        && forall w :: w in r.value.ready <==> w in workers && w.IsEligible(items[0].policyVersion, now, timeout)
  {
    OrdersAreTotal();
    var r := EligibleWorkers(items, workers, now, timeout);
    if r.Success? {
      SortPermutes(BySample, items);
      SortSorts(BySample, items);
      KindCarries(items, r.value.items);
      assert r.value.items[0] in multiset(items);
      var selected := Filter(workers, items[0].policyVersion, now, timeout);
      SortPermutes(ById, selected);
      SortSorts(ById, selected);
      forall w ensures w in r.value.ready <==> w in selected {
        assert w in r.value.ready <==> w in multiset(r.value.ready);
        assert w in selected <==> w in multiset(selected);
      }
      FilterKeepsDistinct(workers, items[0].policyVersion, now, timeout);
      PermutationKeepsDistinct(IdOf, selected, r.value.ready);
    }
  }

  lemma {:induction false} FilterKeepsDistinct(workers: seq<Worker>, v: int, now: int, timeout: int)
    requires DistinctIds(workers)
    ensures DistinctIds(Filter(workers, v, now, timeout))
  {
    if workers != [] {
      var front := workers[..|workers| - 1];
      FilterKeepsDistinct(front, v, now, timeout);
      forall w | w in Filter(front, v, now, timeout) ensures w.id != workers[|workers| - 1].id {
        var i :| 0 <= i < |front| && front[i] == w;
        assert workers[i] == w && IdOf(workers[i]) != IdOf(workers[|workers| - 1]);
      }
      assert forall w :: w in Filter(workers, v, now, timeout) ==>
                           w in Filter(front, v, now, timeout) || w == workers[|workers| - 1];
    }
  }

  datatype Response = Response(
    requestId: string,
    groupId: string,
    sampleIndex: int,
    workerId: string,
    requestedVersion: int,
    servedVersion: int,
    generatedTokens: int,
    tokenizer: string,
    template: string)
}
