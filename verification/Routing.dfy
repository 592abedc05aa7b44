/** A routing policy as the router calls it: gate the group and the workers,
    then place the group. */
module Routing {
  import opened Outcomes
  import opened Ordering
  import opened Models
  import opened Scheduling
  import opened Placement
  import opened Adaptive

  datatype Policy =
    | RoundRobinPolicy
    | PackPolicy
    | EvenSplitPolicy
    | LeastQueuedPolicy
    | LeastRequestsPolicy
    | LoadProportionalPolicy
    | AdaptivePolicy(weights: Weights)

  /** What the policy makes of a gated group; turn is the round-robin offset. */
  function Decide(policy: Policy, turn: nat, items: seq<Request>, ready: seq<Worker>): seq<Parcel>
    requires items != [] && ready != [] && DistinctIds(ready)
  {
    match policy
    case RoundRobinPolicy => RoundRobin(items, ready, turn)
    case PackPolicy => FixedPack(items, ready)
    case EvenSplitPolicy => EvenSplit(items, ready)
    case LeastQueuedPolicy => LeastQueued(items, ready)
    case LeastRequestsPolicy => LeastRequests(items, ready)
    case LoadProportionalPolicy => LoadProportional(items, ready)
    case AdaptivePolicy(weights) => Cheapest(items, ready, weights)
  }

  function Placed(policy: Policy, turn: nat, items: seq<Request>, workers: seq<Worker>, now: int,
                  timeout: int): Result<seq<Parcel>>
    requires DistinctIds(workers)
  {
    GateIsSound(items, workers, now, timeout);
    match EligibleWorkers(items, workers, now, timeout)
    case Failure(e) => Failure(e)
    case Success(gate) => Success(Decide(policy, turn, gate.items, gate.ready))
  }

  lemma DecidePartitions(policy: Policy, turn: nat, items: seq<Request>, ready: seq<Worker>)
    requires items != [] && ready != [] && DistinctIds(ready)
    ensures Partitions(Decide(policy, turn, items, ready), items, ready)
  {
    match policy
    case RoundRobinPolicy => RoundRobinPartitions(items, ready, turn);
    case PackPolicy => PackPartitions(items, ready[PackTarget(ready, items[0])], ready);
    case EvenSplitPolicy => RoundRobinPartitions(items, ready, 0);
    case LeastQueuedPolicy => LeastQueuedPartitions(items, ready);
    case LeastRequestsPolicy => LeastRequestsPartitions(items, ready);
    case LoadProportionalPolicy => LoadProportionalPartitions(items, ready);
    case AdaptivePolicy(weights) => AdaptivePartitions(items, ready, weights);
  }

  /** Whatever the policy, a placement serves each request of the group once,
      on workers that are ready at its version and alive; and it fails exactly
      for a mixed group or for want of such a worker. */
  lemma PlacementServesTheGroup(policy: Policy, turn: nat, items: seq<Request>, workers: seq<Worker>, now: int,
                                timeout: int)
    requires DistinctIds(workers)
    ensures var r := Placed(policy, turn, items, workers, now, timeout);
      && (r.Failure? <==> !Homogeneous(items)
                          || forall w | w in workers :: !w.IsEligible(items[0].policyVersion, now, timeout))
      && (r.Success? ==>
            && All(Contents(r.value)) == multiset(items)
            && (forall i | 0 <= i < |r.value| ::
                  r.value[i].worker in workers && r.value[i].worker.IsEligible(items[0].policyVersion, now, timeout))
            && forall i, j | 0 <= i < j < |r.value| :: r.value[i].worker.id != r.value[j].worker.id)
  {
    GateIsSound(items, workers, now, timeout);
    match EligibleWorkers(items, workers, now, timeout)
    case Success(gate) =>
      DecisionServes(policy, turn, items, gate.items, gate.ready);
      assert gate.ready[0] in gate.ready;
    case Failure(_) =>
      if Homogeneous(items) { NoneEligible(items, workers, now, timeout); }
  }

  lemma DecisionServes(policy: Policy, turn: nat, items: seq<Request>, sorted: seq<Request>, ready: seq<Worker>)
    requires sorted != [] && multiset(sorted) == multiset(items) && ready != [] && DistinctIds(ready)
    ensures var ps := Decide(policy, turn, sorted, ready);
      && All(Contents(ps)) == multiset(items)
      && (forall i | 0 <= i < |ps| :: ps[i].worker in ready)
      && forall i, j | 0 <= i < j < |ps| :: ps[i].worker.id != ps[j].worker.id
  {
    DecidePartitions(policy, turn, sorted, ready);
  }

  lemma NoneEligible(items: seq<Request>, workers: seq<Worker>, now: int, timeout: int)
    requires Homogeneous(items) && EligibleWorkers(items, workers, now, timeout).Failure?
    ensures forall w | w in workers :: !w.IsEligible(items[0].policyVersion, now, timeout)
  {
    SortPermutes(BySample, items);
    var sorted := SortBy(BySample, items);
    assert sorted[0] in multiset(items);
  }

  /** Neither the order of the requests nor that of the workers matters, except
      that the order of the requests may decide whether the group is refused; if
      their settings are pairwise close it does not. */
  lemma PlacementIsCanonical(policy: Policy, turn: nat, items: seq<Request>, items': seq<Request>,
                             workers: seq<Worker>, workers': seq<Worker>, now: int, timeout: int)
    requires multiset(items) == multiset(items') && multiset(workers) == multiset(workers') && DistinctIds(workers)
    ensures DistinctIds(workers')
    ensures var r := Placed(policy, turn, items, workers, now, timeout);
      var r' := Placed(policy, turn, items', workers', now, timeout);
      && (r == r' <==> (r.Success? <==> r'.Success?))
      && ((Homogeneous(items) <==> Homogeneous(items')) || PairwiseClose(items) ==> r == r')
  {
    PermutationKeepsDistinct(IdOf, workers, workers');
    EligibleWorkersIsCanonical(items, items', workers, workers', now, timeout);
  }

  /** A policy object; only round-robin keeps anything between calls. */
  class GroupPolicy {
    const policy: Policy
    const timeout: int
    var turn: nat

    constructor (policy: Policy, timeout: int)
      ensures this.policy == policy && this.timeout == timeout && turn == 0
    {
      this.policy, this.timeout, turn := policy, timeout, 0;
    }

    method PlaceGroup(items: seq<Request>, workers: seq<Worker>, now: int) returns (r: Result<seq<Parcel>>)
      requires DistinctIds(workers)
      modifies this
      ensures r == Placed(policy, old(turn), items, workers, now, timeout)
      ensures turn == if policy == RoundRobinPolicy && r.Success? then old(turn) + 1 else old(turn)
    {
      GateIsSound(items, workers, now, timeout);
      var gated := EligibleWorkers(items, workers, now, timeout);
      if gated.Failure? { return Failure(gated.error); }
      var ps := Dispatch(gated.value.items, gated.value.ready, turn);
      if policy == RoundRobinPolicy { turn := turn + 1; }
      r := Success(ps);
    }

    method Dispatch(items: seq<Request>, ready: seq<Worker>, offset: nat) returns (ps: seq<Parcel>)
      requires items != [] && ready != [] && DistinctIds(ready)
      ensures ps == Decide(policy, offset, items, ready)
    {
      match policy
      case RoundRobinPolicy => ps := Deal(items, ready, offset);
      case PackPolicy => ps := FixedPack(items, ready);
      case EvenSplitPolicy => ps := Deal(items, ready, 0);
      case LeastQueuedPolicy =>
        var order := LongestFirst(items);
        var lots := ListSchedule(order, TokenLoad(ready), SameCost(Sizes(Tokens, order), |ready|));
        ps := Parcels(ready, lots);
      case LeastRequestsPolicy =>
        var lots := ListSchedule(items, Reals(RequestLoad(ready)), SameCost(Sizes(One, items), |ready|));
        ps := Parcels(ready, lots);
      case LoadProportionalPolicy =>
        var order := LongestFirst(items);
        var lots := ListSchedule(order, QueueTimes(ready), DecodeCost(Sizes(P90, order), DecodeRates(ready)));
        ps := Parcels(ready, lots);
      case AdaptivePolicy(weights) => ps := PlaceAdaptive(items, ready, weights);
    }

    /** Hands the requests out in turn, starting at an offset. */
    static method Deal(items: seq<Request>, ready: seq<Worker>, offset: nat) returns (ps: seq<Parcel>)
      requires ready != []
      ensures ps == RoundRobin(items, ready, offset)
    {
      var lots: seq<seq<Request>> := seq(|ready|, _ => []);
      ghost var choice := Rotate(|items|, |ready|, offset);
      for k := 0 to |items|
        invariant lots == Lots(items, choice[..k], |ready|)
      {
        var w := (offset + k) % |ready|;
        TakeOneMore(choice, k);
        LotsStep(items, choice[..k], w, |ready|);
        lots := lots[w := lots[w] + [items[k]]];
      }
      TakeTwice(choice, |items|, |items|);
      ps := Parcels(ready, lots);
    }
  }
}
