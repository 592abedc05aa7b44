/** The adaptive policy: score packing onto each worker, an even split and a
    load-proportional split, and take the cheapest. */
module Adaptive {
  import opened Outcomes
  import opened Ordering
  import opened Models
  import opened Scheduling
  import opened Placement

  datatype Weights = Weights(makespan: real, duplicated: real, skew: real, wait: real, risk: real)

  datatype Candidate = Candidate(name: string, parcels: seq<Parcel>)

  function Used(ps: seq<Parcel>): seq<Parcel> {
    if ps == [] then []
    else
      var n := |ps| - 1;
      Used(ps[..n]) + if ps[n].requests == [] then [] else [ps[n]]
  }

  function Predicted(q: Request): real { q.predicted }

  function FinishTime(p: Parcel, q: Request, weights: Weights): real {
    var decode := (1.0 - weights.risk) * Work(Predicted, p.requests) + weights.risk * Work(P90, p.requests);
    p.worker.QueueTime() + p.worker.Prefill(q) as real / p.worker.prefillRate + decode / p.worker.decodeRate
  }

  function AssignedLoad(p: Parcel, q: Request): real {
    Work(P90, p.requests) + p.worker.Prefill(q) as real
  }

  function PrefillSum(used: seq<Parcel>, q: Request): nat {
    if used == [] then 0 else PrefillSum(used[..|used| - 1], q) + used[|used| - 1].worker.Prefill(q)
  }

  function LeastPrefill(used: seq<Parcel>, q: Request): (least: nat)
    requires used != []
    ensures least <= q.promptTokens
  {
    var last := used[|used| - 1];
    if |used| == 1 then last.worker.Prefill(q)
    else
      var rest := LeastPrefill(used[..|used| - 1], q);
      if last.worker.Prefill(q) < rest then last.worker.Prefill(q) else rest
  }

  /** Prompt tokens prefilled more often than a pack onto the best used worker
      would prefill them. */
  function Duplicated(ps: seq<Parcel>, q: Request): int {
    var used := Used(ps);
    if used == [] then 0 else PrefillSum(used, q) - LeastPrefill(used, q)
  }

  function FinishTimes(used: seq<Parcel>, q: Request, weights: Weights): (xs: seq<real>)
    ensures |xs| == |used|
  {
    seq(|used|, i requires 0 <= i < |used| => FinishTime(used[i], q, weights))
  }

  function AssignedLoads(used: seq<Parcel>, q: Request): (xs: seq<real>)
    ensures |xs| == |used|
  {
    seq(|used|, i requires 0 <= i < |used| => AssignedLoad(used[i], q))
  }

  function QueueWaits(used: seq<Parcel>): (xs: seq<real>)
    ensures |xs| == |used|
  {
    seq(|used|, i requires 0 <= i < |used| => used[i].worker.QueueTime())
  }

  function Combine(finish: seq<real>, loads: seq<real>, waits: seq<real>, duplicated: int, weights: Weights): real
    requires finish != [] && loads != [] && waits != []
  {
    var mean := Sum(loads) / |loads| as real;
    var skew := Peak(loads) / if mean < 1.0 then 1.0 else mean;
    weights.makespan * Peak(finish) + weights.duplicated * duplicated as real
    + weights.skew * skew + weights.wait * Peak(waits)
  }

  /** The objective the policy minimises. */
  function Score(ps: seq<Parcel>, q: Request, weights: Weights): real
    requires Used(ps) != []
  {
    var used := Used(ps);
    Combine(FinishTimes(used, q, weights), AssignedLoads(used, q), QueueWaits(used), Duplicated(ps, q), weights)
  }

  method ComputeScore(ps: seq<Parcel>, q: Request, weights: Weights) returns (score: real)
    requires Used(ps) != []
    ensures score == Score(ps, q, weights)
  {
    var finish, loads, waits, duplicated := Scan(ps, q, weights);
    score := Combine(finish, loads, waits, duplicated, weights);
  }

  /** One pass over the parcels of a candidate. */
  method Scan(ps: seq<Parcel>, q: Request, weights: Weights)
    returns (finish: seq<real>, loads: seq<real>, waits: seq<real>, duplicated: int)
    ensures finish == FinishTimes(Used(ps), q, weights)
    ensures loads == AssignedLoads(Used(ps), q)
    ensures waits == QueueWaits(Used(ps))
    ensures duplicated == Duplicated(ps, q)
  {
    var prefills, least := 0, 0;
    finish, loads, waits := [], [], [];
    ghost var used := [];
    for i := 0 to |ps|
      invariant used == Used(ps[..i])
      invariant finish == FinishTimes(used, q, weights) && loads == AssignedLoads(used, q) && waits == QueueWaits(used)
      invariant prefills == PrefillSum(used, q) && (used != [] ==> least == LeastPrefill(used, q))
    {
      UsedStep(ps, i);
      if ps[i].requests != [] {
        ListsStep(used, ps[i], q, weights);
        var prefill := ps[i].worker.Prefill(q);
        least := if finish == [] || prefill < least then prefill else least;
        finish := finish + [FinishTime(ps[i], q, weights)];
        loads := loads + [AssignedLoad(ps[i], q)];
        waits := waits + [ps[i].worker.QueueTime()];
        prefills := prefills + prefill;
        used := used + [ps[i]];
      }
    }
    assert ps[..|ps|] == ps;
    duplicated := if finish == [] then 0 else prefills - least;
  }

  lemma UsedStep(ps: seq<Parcel>, i: nat)
    requires i < |ps|
    ensures Used(ps[..i + 1]) == Used(ps[..i]) + if ps[i].requests == [] then [] else [ps[i]]
  {
    assert ps[..i + 1][..i] == ps[..i];
  }

  lemma ListsStep(used: seq<Parcel>, p: Parcel, q: Request, weights: Weights)
    ensures FinishTimes(used + [p], q, weights) == FinishTimes(used, q, weights) + [FinishTime(p, q, weights)]
    ensures AssignedLoads(used + [p], q) == AssignedLoads(used, q) + [AssignedLoad(p, q)]
    ensures QueueWaits(used + [p]) == QueueWaits(used) + [p.worker.QueueTime()]
    ensures PrefillSum(used + [p], q) == PrefillSum(used, q) + p.worker.Prefill(q)
    ensures LeastPrefill(used + [p], q)
         == if used == [] || p.worker.Prefill(q) < LeastPrefill(used, q)
            then p.worker.Prefill(q) else LeastPrefill(used, q)
  {
    assert (used + [p])[..|used|] == used;
  }

  // The candidates.

  function Packs(items: seq<Request>, ready: seq<Worker>): (cs: seq<Candidate>)
    ensures |cs| == |ready|
    ensures forall w | 0 <= w < |cs| :: cs[w] == Candidate("pack_" + ready[w].id, [Parcel(ready[w], items)])
  {
    seq(|ready|, w requires 0 <= w < |ready| => Candidate("pack_" + ready[w].id, [Parcel(ready[w], items)]))
  }

  function Candidates(items: seq<Request>, ready: seq<Worker>): (cs: seq<Candidate>)
    requires ready != []
    ensures |cs| == |ready| + 2
  {
    Packs(items, ready)
    + [Candidate("split_even", EvenSplit(items, ready)),
       Candidate("split_load_proportional", LoadProportional(items, ready))]
  }

  /** Serving a nonempty group uses some worker. */
  lemma {:induction false} PartitionUses(ps: seq<Parcel>)
    requires All(Contents(ps)) != multiset{}
    ensures Used(ps) != []
  {
    var n := |ps| - 1;
    assert Contents(ps)[..n] == Contents(ps[..n]);
    if ps[n].requests == [] {
      PartitionUses(ps[..n]);
    }
  }

  lemma CandidatesPartition(items: seq<Request>, ready: seq<Worker>, i: nat)
    requires items != [] && ready != [] && DistinctIds(ready) && i < |ready| + 2
    ensures Partitions(Candidates(items, ready)[i].parcels, items, ready)
    ensures Used(Candidates(items, ready)[i].parcels) != []
  {
    if i < |ready| {
      PackPartitions(items, ready[i], ready);
    } else if i == |ready| {
      RoundRobinPartitions(items, ready, 0);
    } else {
      LoadProportionalPartitions(items, ready);
    }
    assert items[0] in multiset(items);
    PartitionUses(Candidates(items, ready)[i].parcels);
  }

  function ScoreAt(items: seq<Request>, ready: seq<Worker>, weights: Weights, i: nat): real
    requires items != [] && ready != [] && DistinctIds(ready) && i < |ready| + 2
  {
    CandidatesPartition(items, ready, i);
    Score(Candidates(items, ready)[i].parcels, items[0], weights)
  }

  function Scores(items: seq<Request>, ready: seq<Worker>, weights: Weights): (scores: seq<real>)
    requires items != [] && ready != [] && DistinctIds(ready)
    ensures |scores| == |ready| + 2
    ensures forall i | 0 <= i < |scores| :: scores[i] == ScoreAt(items, ready, weights, i)
  {
    seq(|ready| + 2, i requires 0 <= i < |ready| + 2 => ScoreAt(items, ready, weights, i))
  }

  /** The parcels of the first cheapest candidate. */
  function Cheapest(items: seq<Request>, ready: seq<Worker>, weights: Weights): seq<Parcel>
    requires items != [] && ready != [] && DistinctIds(ready)
  {
    Candidates(items, ready)[FirstLeast(Scores(items, ready, weights))].parcels
  }

  method PlaceAdaptive(items: seq<Request>, ready: seq<Worker>, weights: Weights) returns (ps: seq<Parcel>)
    requires items != [] && ready != [] && DistinctIds(ready)
    ensures ps == Cheapest(items, ready, weights)
  {
    var candidates := Candidates(items, ready);
    var scores := [];
    for i := 0 to |candidates|
      invariant scores == Scores(items, ready, weights)[..i]
    {
      CandidatesPartition(items, ready, i);
      var score := ComputeScore(candidates[i].parcels, items[0], weights);
      TakeOneMore(Scores(items, ready, weights), i);
      scores := scores + [score];
    }
    assert scores == Scores(items, ready, weights);
    ps := candidates[FirstLeast(scores)].parcels;
  }

  // Candidate order is name order, so the first cheapest is the (score, name) minimum.

  lemma {:induction false} LexPrefix(p: string, a: string, b: string)
    requires LexLeq(a, b)
    ensures LexLeq(p + a, p + b)
  {
    if p == [] {
      assert p + a == a && p + b == b;
    } else {
      LexPrefix(p[1..], a, b);
      assert (p + a)[1..] == p[1..] + a && (p + b)[1..] == p[1..] + b;
    }
  }

  lemma NamesAscend(items: seq<Request>, ready: seq<Worker>, i: nat, j: nat)
    requires ready != [] && Sorted(ById, ready) && i < j < |ready| + 2
    ensures LexLeq(Candidates(items, ready)[i].name, Candidates(items, ready)[j].name)
  {
    NameAt(items, ready, i);
    NameAt(items, ready, j);
    if j < |ready| {
      assert ById(ready[i], ready[j]);
      LexPrefix("pack_", ready[i].id, ready[j].id);
    } else if i < |ready| {
      FirstCharDecides("pack_" + ready[i].id, "split_even");
      FirstCharDecides("pack_" + ready[i].id, "split_load_proportional");
    } else {
      EvenBeforeProportional();
    }
  }

  lemma NameAt(items: seq<Request>, ready: seq<Worker>, i: nat)
    requires ready != [] && i < |ready| + 2
    ensures Candidates(items, ready)[i].name
         == if i < |ready| then "pack_" + ready[i].id
            else if i == |ready| then "split_even" else "split_load_proportional"
  {}

  lemma FirstCharDecides(a: string, b: string)
    requires a != [] && b != [] && a[0] < b[0]
    ensures LexLeq(a, b)
  {}

  lemma EvenBeforeProportional()
    ensures LexLeq("split_even", "split_load_proportional")
  {
    FirstCharDecides("even", "load_proportional");
    LexPrefix("split_", "even", "load_proportional");
    assert "split_" + "even" == "split_even" && "split_" + "load_proportional" == "split_load_proportional";
  }

  lemma AdaptiveIsScoreNameMinimum(items: seq<Request>, ready: seq<Worker>, weights: Weights, j: nat)
    requires items != [] && ready != [] && DistinctIds(ready) && Sorted(ById, ready) && j < |ready| + 2
    ensures var cs, scores := Candidates(items, ready), Scores(items, ready, weights);
      var best := FirstLeast(scores);
      scores[best] < scores[j] || (scores[best] == scores[j] && LexLeq(cs[best].name, cs[j].name))
  {
    var best := FirstLeast(Scores(items, ready, weights));
    if best < j {
      NamesAscend(items, ready, best, j);
    } else if best == j {
      LexTotal(Candidates(items, ready)[j].name, Candidates(items, ready)[j].name);
    }
  }

  lemma AdaptivePartitions(items: seq<Request>, ready: seq<Worker>, weights: Weights)
    requires items != [] && ready != [] && DistinctIds(ready)
    ensures Partitions(Cheapest(items, ready, weights), items, ready)
    ensures Used(Cheapest(items, ready, weights)) != []
  {
    CandidatesPartition(items, ready, FirstLeast(Scores(items, ready, weights)));
  }

  /** Under its own objective the adaptive policy is never worse than the
      fixed pack, the even split and the load-proportional policy would be on
      the same group and workers. */
  lemma AdaptiveDominates(items: seq<Request>, ready: seq<Worker>, weights: Weights)
    requires items != [] && ready != [] && DistinctIds(ready)
    ensures Used(FixedPack(items, ready)) != [] && Used(EvenSplit(items, ready)) != []
         && Used(LoadProportional(items, ready)) != [] && Used(Cheapest(items, ready, weights)) != []
    ensures var mine := Score(Cheapest(items, ready, weights), items[0], weights);
      && mine <= Score(FixedPack(items, ready), items[0], weights)
      && mine <= Score(EvenSplit(items, ready), items[0], weights)
      && mine <= Score(LoadProportional(items, ready), items[0], weights)
  {
    var target := PackTarget(ready, items[0]);
    BaselinesAreCandidates(items, ready);
    var scores := Scores(items, ready, weights);
    AdaptiveBeats(items, ready, weights, scores, target);
    AdaptiveBeats(items, ready, weights, scores, |ready|);
    AdaptiveBeats(items, ready, weights, scores, |ready| + 1);
  }

  lemma BaselinesAreCandidates(items: seq<Request>, ready: seq<Worker>)
    requires items != [] && ready != []
    ensures FixedPack(items, ready) == Candidates(items, ready)[PackTarget(ready, items[0])].parcels
    ensures EvenSplit(items, ready) == Candidates(items, ready)[|ready|].parcels
    ensures LoadProportional(items, ready) == Candidates(items, ready)[|ready| + 1].parcels
  {
    CandidateAt(items, ready, PackTarget(ready, items[0]));
    CandidateAt(items, ready, |ready|);
    CandidateAt(items, ready, |ready| + 1);
  }

  lemma CandidateAt(items: seq<Request>, ready: seq<Worker>, i: nat)
    requires ready != [] && i < |ready| + 2
    ensures Candidates(items, ready)[i].parcels
         == if i < |ready| then [Parcel(ready[i], items)]
            else if i == |ready| then EvenSplit(items, ready) else LoadProportional(items, ready)
  {}

  lemma ScoreIs(items: seq<Request>, ready: seq<Worker>, weights: Weights, scores: seq<real>, i: nat)
    requires items != [] && ready != [] && DistinctIds(ready) && i < |ready| + 2
    requires scores == Scores(items, ready, weights)
    ensures var theirs := Candidates(items, ready)[i].parcels;
      Used(theirs) != [] && scores[i] == Score(theirs, items[0], weights)
  {
    CandidatesPartition(items, ready, i);
    assert scores[i] == ScoreAt(items, ready, weights, i);
  }

  lemma AdaptiveBeats(items: seq<Request>, ready: seq<Worker>, weights: Weights, scores: seq<real>, i: nat)
    requires items != [] && ready != [] && DistinctIds(ready) && i < |ready| + 2
    requires scores == Scores(items, ready, weights)
    ensures var mine, theirs := Cheapest(items, ready, weights), Candidates(items, ready)[i].parcels;
      Used(mine) != [] && Used(theirs) != [] && Score(mine, items[0], weights) <= Score(theirs, items[0], weights)
  {
    ScoreIs(items, ready, weights, scores, FirstLeast(scores));
    ScoreIs(items, ready, weights, scores, i);
  }

  /** Using k workers duplicates at most k - 1 prompts, and a pack none. */
  lemma DuplicatedBound(ps: seq<Parcel>, q: Request)
    requires Used(ps) != []
    ensures 0 <= Duplicated(ps, q) <= (|Used(ps)| - 1) * q.promptTokens
    ensures |Used(ps)| == 1 ==> Duplicated(ps, q) == 0
  {
    var used := Used(ps);
    DuplicatedSplit(used, q);
    assert |used| == 1 ==> (|used| - 1) * q.promptTokens == 0;
  }

  lemma {:induction false} DuplicatedSplit(used: seq<Parcel>, q: Request)
    requires used != []
    ensures 0 <= PrefillSum(used, q) - LeastPrefill(used, q) <= (|used| - 1) * q.promptTokens
  {
    if |used| == 1 {
      assert PrefillSum(used[..0], q) == 0;
    } else {
      var front, last := used[..|used| - 1], used[|used| - 1];
      DuplicatedSplit(front, q);
      OneMore(|front|, q.promptTokens);
      assert last.worker.Prefill(q) <= q.promptTokens;
    }
  }

  lemma OneMore(n: nat, x: nat)
    ensures n * x == (n - 1) * x + x
  {}
}
