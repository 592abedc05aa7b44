/** What each placement policy is for, told from workers and requests alone, and
    that the policy of that name delivers it. */
module Guarantees {
  import opened Outcomes
  import opened Ordering
  import opened Models
  import opened Scheduling
  import opened Placement
  import opened RelatedMachines
  import opened Adaptive
  import opened Objective
  import opened Routing

  // What a worker has to do, in tokens, requests and seconds.

  function TokensWith(w: Worker, lot: seq<Request>): real {
    if lot == [] then (w.queuedPrefill + w.activeDecode) as real
    else
      var n := |lot| - 1;
      TokensWith(w, lot[..n]) + (lot[n].promptTokens + lot[n].p90.Floor) as real
  }

  function RequestsWith(w: Worker, lot: seq<Request>): real {
    (w.running + w.queued + |lot|) as real
  }

  function SecondsWith(w: Worker, lot: seq<Request>): real {
    Spent(w, w.queuedPrefill as real, w.activeDecode as real + Work(P90, lot))
  }

  /** The most any worker has to do under an assignment. */
  ghost predicate IsMost(measure: (Worker, seq<Request>) -> real, ready: seq<Worker>, lots: seq<seq<Request>>,
                         most: real)
  {
    && |lots| == |ready|
    && (exists w | 0 <= w < |ready| :: measure(ready[w], lots[w]) == most)
    && forall w | 0 <= w < |ready| :: measure(ready[w], lots[w]) <= most
  }

  lemma {:induction false} TokensAdd(w: Worker, lot: seq<Request>)
    ensures TokensWith(w, lot) == (w.queuedPrefill + w.activeDecode) as real + Work(Tokens, lot)
  {
    if lot != [] { TokensAdd(w, lot[..|lot| - 1]); }
  }

  lemma {:induction false} OnesAdd(lot: seq<Request>)
    ensures Work(One, lot) == |lot| as real
  {
    if lot != [] { OnesAdd(lot[..|lot| - 1]); }
  }

  lemma SecondsAdd(w: Worker, lot: seq<Request>)
    ensures SecondsWith(w, lot) == DoneAt(w, Work(P90, lot))
  {
    Objective.QuotientAdds(w.activeDecode as real, Work(P90, lot), w.decodeRate);
  }

  /** The most is the peak of the loads that say the same. */
  lemma MostIsPeak(measure: (Worker, seq<Request>) -> real, ready: seq<Worker>, lots: seq<seq<Request>>,
                   loads: seq<real>, most: real)
    requires |loads| == |ready| == |lots| && IsMost(measure, ready, lots, most)
    requires forall w | 0 <= w < |ready| :: loads[w] == measure(ready[w], lots[w])
    ensures loads != [] && most == Peak(loads)
  {
    var w :| 0 <= w < |ready| && measure(ready[w], lots[w]) == most;
    assert loads[w] <= Peak(loads);
    var v :| 0 <= v < |loads| && loads[v] == Peak(loads);
    assert measure(ready[v], lots[v]) <= most;
  }

  // The policies.

  /** Least-queued-tokens: against every other assignment no worker ends with more
      than 2 - 1/m times the tokens. */
  lemma LeastQueuedDelivers(turn: nat, items: seq<Request>, ready: seq<Worker>, lots: seq<seq<Request>>,
                            rival: seq<seq<Request>>, mine: real, best: real)
    requires items != [] && ready != [] && DistinctIds(ready) && All(rival) == multiset(items)
    requires lots == Contents(Decide(LeastQueuedPolicy, turn, items, ready))
    requires IsMost(TokensWith, ready, lots, mine) && IsMost(TokensWith, ready, rival, best)
    ensures WithinListFactor(|ready|, mine, best)
  {
    LeastQueuedKeeps(items, ready, lots, rival, mine, best);
  }

  lemma LeastQueuedKeeps(items: seq<Request>, ready: seq<Worker>, lots: seq<seq<Request>>,
                         rival: seq<seq<Request>>, mine: real, best: real)
    requires ready != [] && All(rival) == multiset(items) && lots == Contents(LeastQueued(items, ready))
    requires IsMost(TokensWith, ready, lots, mine) && IsMost(TokensWith, ready, rival, best)
    ensures WithinListFactor(|ready|, mine, best)
  {
    PeakIsTokens(ready, lots, mine);
    PeakIsTokens(ready, rival, best);
    LeastQueuedBound(items, ready, rival);
  }

  lemma PeakIsTokens(ready: seq<Worker>, lots: seq<seq<Request>>, most: real)
    requires ready != [] && IsMost(TokensWith, ready, lots, most)
    ensures most == PeakTokens(ready, lots)
  {
    forall w | 0 <= w < |ready|
      ensures Final(TokenLoad(ready), Tokens, lots)[w] == TokensWith(ready[w], lots[w])
    {
      TokensAdd(ready[w], lots[w]);
    }
    MostIsPeak(TokensWith, ready, lots, Final(TokenLoad(ready), Tokens, lots), most);
  }

  /** Least-requests: in every other assignment some worker ends with as many
      requests. */
  lemma LeastRequestsDelivers(turn: nat, items: seq<Request>, ready: seq<Worker>, lots: seq<seq<Request>>,
                              rival: seq<seq<Request>>, mine: real, best: real)
    requires items != [] && ready != [] && DistinctIds(ready) && All(rival) == multiset(items)
    requires lots == Contents(Decide(LeastRequestsPolicy, turn, items, ready))
    requires IsMost(RequestsWith, ready, lots, mine) && IsMost(RequestsWith, ready, rival, best)
    ensures mine <= best
  {
    LeastRequestsKeeps(items, ready, lots, rival, mine, best);
  }

  lemma LeastRequestsKeeps(items: seq<Request>, ready: seq<Worker>, lots: seq<seq<Request>>,
                           rival: seq<seq<Request>>, mine: real, best: real)
    requires ready != [] && All(rival) == multiset(items) && lots == Contents(LeastRequests(items, ready))
    requires IsMost(RequestsWith, ready, lots, mine) && IsMost(RequestsWith, ready, rival, best)
    ensures mine <= best
  {
    LeastRequestsOptimal(items, ready, rival);
    RequestsCompare(ready, lots, rival, mine, best);
  }

  lemma RequestsCompare(ready: seq<Worker>, lots: seq<seq<Request>>, rival: seq<seq<Request>>, mine: real, best: real)
    requires ready != [] && IsMost(RequestsWith, ready, lots, mine) && IsMost(RequestsWith, ready, rival, best)
    requires Peak(Final(Reals(RequestLoad(ready)), One, lots)) <= Peak(Final(Reals(RequestLoad(ready)), One, rival))
    ensures mine <= best
  {
    PeakIsRequests(ready, lots, mine);
    PeakIsRequests(ready, rival, best);
  }

  lemma PeakIsRequests(ready: seq<Worker>, lots: seq<seq<Request>>, most: real)
    requires ready != [] && IsMost(RequestsWith, ready, lots, most)
    ensures most == Peak(Final(Reals(RequestLoad(ready)), One, lots))
  {
    var loads := Final(Reals(RequestLoad(ready)), One, lots);
    forall w | 0 <= w < |ready| ensures loads[w] == RequestsWith(ready[w], lots[w]) {
      OnesAdd(lots[w]);
    }
    MostIsPeak(RequestsWith, ready, lots, loads, most);
  }

  /** Load-proportional: against every other assignment the last worker takes no
      more than 1 + fast/slow - fast/total times as long. */
  lemma LoadProportionalDelivers(turn: nat, items: seq<Request>, ready: seq<Worker>, lots: seq<seq<Request>>,
                                 rival: seq<seq<Request>>, slow: Rate, fast: Rate, mine: real, best: real)
    requires items != [] && ready != [] && DistinctIds(ready) && All(rival) == multiset(items)
    requires forall w | 0 <= w < |ready| :: slow <= ready[w].decodeRate <= fast
    requires lots == Contents(Decide(LoadProportionalPolicy, turn, items, ready))
    requires IsMost(SecondsWith, ready, lots, mine) && IsMost(SecondsWith, ready, rival, best)
    ensures Sum(DecodeRates(ready)) > 0.0 && WithinRatesFactor(slow, fast, Sum(DecodeRates(ready)), mine, best)
  {
    LoadProportionalKeeps(items, ready, lots, rival, slow, fast, mine, best);
  }

  lemma LoadProportionalKeeps(items: seq<Request>, ready: seq<Worker>, lots: seq<seq<Request>>,
                              rival: seq<seq<Request>>, slow: Rate, fast: Rate, mine: real, best: real)
    requires ready != [] && All(rival) == multiset(items) && lots == Contents(LoadProportional(items, ready))
    requires forall w | 0 <= w < |ready| :: slow <= ready[w].decodeRate <= fast
    requires IsMost(SecondsWith, ready, lots, mine) && IsMost(SecondsWith, ready, rival, best)
    ensures Sum(DecodeRates(ready)) > 0.0 && WithinRatesFactor(slow, fast, Sum(DecodeRates(ready)), mine, best)
  {
    LoadProportionalRatesBound(items, ready, rival, slow, fast);
    SecondsCompare(ready, lots, rival, mine, best);
  }

  lemma SecondsCompare(ready: seq<Worker>, lots: seq<seq<Request>>, rival: seq<seq<Request>>, mine: real, best: real)
    requires ready != [] && IsMost(SecondsWith, ready, lots, mine) && IsMost(SecondsWith, ready, rival, best)
    ensures mine == Peak(Finishes(ready, lots)) && best == Peak(Finishes(ready, rival))
  {
    PeakIsSeconds(ready, lots, mine);
    PeakIsSeconds(ready, rival, best);
  }

  lemma PeakIsSeconds(ready: seq<Worker>, lots: seq<seq<Request>>, most: real)
    requires ready != [] && IsMost(SecondsWith, ready, lots, most)
    ensures most == Peak(Finishes(ready, lots))
  {
    forall w | 0 <= w < |ready| ensures Finishes(ready, lots)[w] == SecondsWith(ready[w], lots[w]) {
      SecondsAdd(ready[w], lots[w]);
    }
    MostIsPeak(SecondsWith, ready, lots, Finishes(ready, lots), most);
  }

  /** When the worker would have the prompt prefilled and its queue done. */
  function PromptAt(w: Worker, q: Request): real {
    Spent(w, (w.queuedPrefill + Missing(w, q)) as real, w.activeDecode as real)
  }

  lemma PackTimeIs(w: Worker, q: Request)
    ensures PackTime(w, q) == PromptAt(w, q)
  {
    PrefillIsMissing(w, q);
    Objective.QuotientAdds(w.queuedPrefill as real, Missing(w, q) as real, w.prefillRate);
  }

  /** Fixed pack: the whole group goes to the worker that would have the prompt
      first; among those to one running the fewest requests; and among those to
      the first. */
  lemma PackDelivers(turn: nat, items: seq<Request>, ready: seq<Worker>) returns (i: nat)
    requires items != [] && ready != [] && DistinctIds(ready)
    ensures i < |ready| && Decide(PackPolicy, turn, items, ready) == [Parcel(ready[i], items)]
    ensures forall j | 0 <= j < |ready| ::
              && PromptAt(ready[i], items[0]) <= PromptAt(ready[j], items[0])
              && (PromptAt(ready[i], items[0]) == PromptAt(ready[j], items[0]) ==>
                    ready[i].running <= ready[j].running && (ready[i].running == ready[j].running ==> i <= j))
  {
    i := PackTarget(ready, items[0]);
    forall j | 0 <= j < |ready|
      ensures PackTime(ready[j], items[0]) == PromptAt(ready[j], items[0])
      ensures !PackBefore(ready[j], ready[i], items[0]) && (j < i ==> PackBefore(ready[i], ready[j], items[0]))
    {
      PackTimeIs(ready[j], items[0]);
    }
  }

  /** Round-robin and even split: every request goes to the next worker, starting
      from the one whose turn it is, or from the first. */
  ghost predicate DealtFrom(ps: seq<Parcel>, items: seq<Request>, ready: seq<Worker>, turn: nat)
    requires ready != []
  {
    && |ps| == |ready|
    && forall w | 0 <= w < |ready| :: ps[w].worker == ready[w] && DealtTo(ps[w].requests, items, |ready|, turn, w)
  }

  ghost predicate DealtTo(lot: seq<Request>, items: seq<Request>, m: nat, turn: nat, w: nat)
    requires m > 0
  {
    forall q :: q in lot <==> exists k | 0 <= k < |items| :: items[k] == q && (turn + k) % m == w
  }

  lemma RotationDelivers(turn: nat, items: seq<Request>, ready: seq<Worker>)
    requires items != [] && ready != [] && DistinctIds(ready)
    ensures DealtFrom(Decide(RoundRobinPolicy, turn, items, ready), items, ready, turn)
    ensures DealtFrom(Decide(EvenSplitPolicy, turn, items, ready), items, ready, 0)
  {
    RoundRobinDeals(turn, items, ready);
    RoundRobinDeals(0, items, ready);
  }

  lemma RoundRobinDeals(turn: nat, items: seq<Request>, ready: seq<Worker>)
    requires ready != []
    ensures DealtFrom(RoundRobin(items, ready, turn), items, ready, turn)
  {
    var choice := Rotate(|items|, |ready|, turn);
    forall w | 0 <= w < |ready| ensures DealtTo(Picked(items, choice, w), items, |ready|, turn, w) {
      forall q ensures q in Picked(items, choice, w) <==>
                         exists k | 0 <= k < |items| :: items[k] == q && (turn + k) % |ready| == w
      {
        PickedIff(items, choice, w, q);
        assert forall k | 0 <= k < |items| :: choice[k] == (turn + k) % |ready|;
      }
    }
  }

  lemma {:induction false} PickedIff(order: seq<Request>, choice: seq<nat>, w: nat, q: Request)
    requires |choice| <= |order|
    ensures q in Picked(order, choice, w) <==> exists k | 0 <= k < |choice| :: order[k] == q && choice[k] == w
  {
    if choice != [] {
      var n := |choice| - 1;
      PickedIff(order, choice[..n], w, q);
      assert forall k | 0 <= k < n :: choice[..n][k] == choice[k];
      if choice[n] == w { assert q in [order[n]] <==> q == order[n]; }
    }
  }

  /** Adaptive: no candidate has a lower weighted sum of the four measures than
      the choice. */
  lemma AdaptiveDelivers(policy: Policy, turn: nat, items: seq<Request>, ready: seq<Worker>, i: nat,
                         mine: seq<Parcel>, theirs: seq<Parcel>)
      returns (latest: real, extra: int, skew: real, wait: real, latest': real, extra': int, skew': real, wait': real)
    requires items != [] && ready != [] && DistinctIds(ready) && i < |ready| + 2 && policy.AdaptivePolicy?
    requires mine == Decide(policy, turn, items, ready) && theirs == Candidates(items, ready)[i].parcels
    ensures var risk := policy.weights.risk;
      IsLatest(mine, items[0], risk, latest) && IsLatest(theirs, items[0], risk, latest')
    ensures IsExtra(mine, items[0], extra) && IsExtra(theirs, items[0], extra')
    ensures IsUnevenness(mine, items[0], skew) && IsUnevenness(theirs, items[0], skew')
    ensures IsLongestWait(mine, wait) && IsLongestWait(theirs, wait')
    ensures Weigh(policy.weights, latest, extra, skew, wait) <= Weigh(policy.weights, latest', extra', skew', wait')
  {
    match policy
    case AdaptivePolicy(weights) =>
      ChoiceScoresLeast(weights, items, ready, i, mine, theirs);
      latest, extra, skew, wait, latest', extra', skew', wait' := ScoresWeigh(mine, theirs, items[0], weights);
  }

  lemma ChoiceScoresLeast(weights: Weights, items: seq<Request>, ready: seq<Worker>, i: nat,
                          mine: seq<Parcel>, theirs: seq<Parcel>)
    requires items != [] && ready != [] && DistinctIds(ready) && i < |ready| + 2
    requires mine == Cheapest(items, ready, weights) && theirs == Candidates(items, ready)[i].parcels
    ensures Used(mine) != [] && Used(theirs) != [] && Score(mine, items[0], weights) <= Score(theirs, items[0], weights)
  {
    AdaptiveBeats(items, ready, weights, Scores(items, ready, weights), i);
  }

  lemma ScoresWeigh(ps: seq<Parcel>, ps': seq<Parcel>, q: Request, weights: Weights)
      returns (latest: real, extra: int, skew: real, wait: real, latest': real, extra': int, skew': real, wait': real)
    requires Used(ps) != [] && Used(ps') != [] && Score(ps, q, weights) <= Score(ps', q, weights)
    ensures IsLatest(ps, q, weights.risk, latest) && IsLatest(ps', q, weights.risk, latest')
    ensures IsExtra(ps, q, extra) && IsExtra(ps', q, extra')
    ensures IsUnevenness(ps, q, skew) && IsUnevenness(ps', q, skew')
    ensures IsLongestWait(ps, wait) && IsLongestWait(ps', wait')
    ensures Weigh(weights, latest, extra, skew, wait) <= Weigh(weights, latest', extra', skew', wait')
  {
    latest, extra, skew, wait := ScoreIsWeightedSum(ps, q, weights);
    latest', extra', skew', wait' := ScoreIsWeightedSum(ps', q, weights);
  }

  // The gate.

  /** Two settings more than a billionth of the larger apart. */
  predicate FarApart(a: real, b: real) {
    Magnitude(a - b) > 0.000000001 * Larger(Magnitude(a), Magnitude(b))
  }

  /** What a request may not have different from the first of its group. */
  predicate Differs(a: Request, b: Request) {
    || a.groupId != b.groupId || a.promptId != b.promptId || a.groupSize != b.groupSize
    || a.policyVersion != b.policyVersion || a.rolloutStep != b.rolloutStep
    || a.tokenizer != b.tokenizer || a.template != b.template || a.topK != b.topK
    || FarApart(a.temperature, b.temperature) || FarApart(a.topP, b.topP)
  }

  lemma FarApartIff(a: real, b: real)
    ensures FarApart(a, b) <==> !IsClose(a, b)
  {}

  /** A placement fails exactly if the group is empty, mixed or repeats a sample,
      or if no worker is ready at its version and heard of in time; and otherwise
      it is the policy's decision on the requests in sample order and on exactly
      those workers in the order of their ids. */
  lemma PlacedIff(policy: Policy, turn: nat, items: seq<Request>, workers: seq<Worker>, now: int, timeout: int)
      returns (sorted: seq<Request>, ready: seq<Worker>)
    requires DistinctIds(workers)
    ensures Placed(policy, turn, items, workers, now, timeout).Failure? <==>
              || items == [] || (exists i | 0 <= i < |items| :: Differs(items[i], items[0]))
              || (exists i, j | 0 <= i < j < |items| :: items[i].sampleIndex == items[j].sampleIndex)
              || forall w | w in workers :: !UpToDate(w, items[0], now, timeout)
    ensures Placed(policy, turn, items, workers, now, timeout).Success? ==>
              && items != [] && sorted != [] && ready != [] && DistinctIds(ready)
              && Placed(policy, turn, items, workers, now, timeout) == Success(Decide(policy, turn, sorted, ready))
              && multiset(sorted) == multiset(items)
              && (forall i, j | 0 <= i < j < |sorted| :: sorted[i].sampleIndex < sorted[j].sampleIndex)
              && (forall w :: w in ready <==> w in workers && UpToDate(w, items[0], now, timeout))
              && forall i, j | 0 <= i < j < |ready| :: LexLeq(ready[i].id, ready[j].id)
  {
    sorted, ready := [], [];
    GroupIsMixedIff(items);
    GateIsSound(items, workers, now, timeout);
    match EligibleWorkers(items, workers, now, timeout)
    case Success(gate) =>
      sorted, ready := gate.items, gate.ready;
      SamplesAscend(sorted);
      NamesAscend(ready);
      assert ready[0] in ready;
    case Failure(_) =>
      if Homogeneous(items) { NoneEligible(items, workers, now, timeout); }
  }

  predicate UpToDate(w: Worker, q: Request, now: int, timeout: int) {
    w.lifecycle == Ready && w.version == q.policyVersion && now - w.heartbeat <= timeout
  }

  lemma SamplesAscend(sorted: seq<Request>)
    requires Sorted(BySample, sorted) && DistinctSamples(sorted)
    ensures forall i, j | 0 <= i < j < |sorted| :: sorted[i].sampleIndex < sorted[j].sampleIndex
  {
    forall i, j | 0 <= i < j < |sorted| ensures sorted[i].sampleIndex < sorted[j].sampleIndex {
      assert BySample(sorted[i], sorted[j]);
    }
  }

  lemma NamesAscend(ready: seq<Worker>)
    requires Sorted(ById, ready)
    ensures forall i, j | 0 <= i < j < |ready| :: LexLeq(ready[i].id, ready[j].id)
  {
    forall i, j | 0 <= i < j < |ready| ensures LexLeq(ready[i].id, ready[j].id) {
      assert ById(ready[i], ready[j]);
    }
  }

  lemma GroupIsMixedIff(items: seq<Request>)
    ensures !Homogeneous(items) <==>
              || items == [] || (exists i | 0 <= i < |items| :: Differs(items[i], items[0]))
              || exists i, j | 0 <= i < j < |items| :: items[i].sampleIndex == items[j].sampleIndex
  {
    if items != [] {
      forall i | 0 <= i < |items| ensures Differs(items[i], items[0]) <==> !SameGroup(items[i], items[0]) {
        FarApartIff(items[i].temperature, items[0].temperature);
        FarApartIff(items[i].topP, items[0].topP);
      }
    }
  }
}
