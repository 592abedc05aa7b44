/** The router's counters. */
module Telemetry {
  import opened Outcomes
  import opened Tracker

  /** Total of the counts of the named workers. */
  function TotalOf(names: seq<string>, counts: map<string, nat>): nat
    requires forall i | 0 <= i < |names| :: names[i] in counts
  {
    if names == [] then 0
    else
      var n := |names| - 1;
      assert names[n] in counts;
      TotalOf(names[..n], counts) + counts[names[n]]
  }

  /** names lists the workers counted so far, each once. */
  ghost predicate Names(names: seq<string>, counts: map<string, nat>) {
    && (forall i | 0 <= i < |names| :: names[i] in counts)
    && (forall w | w in counts :: w in names)
    && (forall i, j | 0 <= i < j < |names| :: names[i] != names[j])
  }

  function Bumped(counts: map<string, nat>, worker: string, n: nat): map<string, nat> {
    counts[worker := (if worker in counts then counts[worker] else 0) + n]
  }

  lemma {:induction false} TotalElsewhere(names: seq<string>, counts: map<string, nat>, worker: string, n: nat)
    requires (forall i | 0 <= i < |names| :: names[i] in counts) && worker !in names
    ensures TotalOf(names, counts[worker := n]) == TotalOf(names, counts)
  {
    if names != [] {
      var k := |names| - 1;
      assert names[k] in names;
      TotalElsewhere(names[..k], counts, worker, n);
    }
  }

  lemma {:induction false} TotalBumped(names: seq<string>, counts: map<string, nat>, worker: string, n: nat)
    requires (forall i | 0 <= i < |names| :: names[i] in counts) && worker in names && worker in counts
    requires forall i, j | 0 <= i < j < |names| :: names[i] != names[j]
    ensures TotalOf(names, Bumped(counts, worker, n)) == TotalOf(names, counts) + n
  {
    var k := |names| - 1;
    if names[k] == worker {
      assert worker !in names[..k];
      TotalElsewhere(names[..k], counts, worker, counts[worker] + n);
    } else {
      TotalBumped(names[..k], counts, worker, n);
    }
  }

  /** Counting n more requests for a worker raises the total by n. */
  lemma BumpCounts(names: seq<string>, counts: map<string, nat>, worker: string, n: nat) returns (names': seq<string>)
    requires Names(names, counts)
    ensures Names(names', Bumped(counts, worker, n))
    ensures TotalOf(names', Bumped(counts, worker, n)) == TotalOf(names, counts) + n
  {
    if worker in counts {
      names' := names;
      TotalBumped(names, counts, worker, n);
    } else {
      names' := names + [worker];
      forall i | 0 <= i < |names| ensures names[i] != worker {}
      TotalElsewhere(names, counts, worker, n);
      assert names'[..|names|] == names;
    }
  }

  function ShareTotal(shares: seq<Share>): nat {
    if shares == [] then 0 else ShareTotal(shares[..|shares| - 1]) + |shares[|shares| - 1].ids|
  }

  class RLRouterMetrics {
    var groupsRouted: nat
    var groupsCompleted: nat
    var groupsFailed: nat
    var groupsDropped: nat
    var generatedTokens: int
    var freshTokens: int
    var duplicatedPrefillTokens: int
    var strategyCounts: map<string, nat>
    var workerRequestCounts: map<string, nat>

    /** The workers counted, in the order they first were. */
    ghost var names: seq<string>

    ghost predicate Valid()
      reads this
    {
      Names(names, workerRequestCounts)
    }

    ghost function RequestsCounted(): nat
      reads this
      requires Valid()
    {
      TotalOf(names, workerRequestCounts)
    }

    constructor ()
      ensures Valid() && RequestsCounted() == 0 && groupsRouted == 0 && groupsCompleted == 0
      ensures generatedTokens == 0 && freshTokens == 0 && groupsFailed == 0 && groupsDropped == 0
      ensures duplicatedPrefillTokens == 0 && strategyCounts == map[]
    {
      groupsRouted, groupsCompleted, groupsFailed, groupsDropped := 0, 0, 0, 0;
      generatedTokens, freshTokens, duplicatedPrefillTokens := 0, 0, 0;
      strategyCounts, workerRequestCounts, names := map[], map[], [];
    }

    method RecordDecision(strategy: string, shares: seq<Share>, duplicated: int)
      requires Valid()
      modifies this
      ensures Valid() && RequestsCounted() == old(RequestsCounted()) + ShareTotal(shares)
      ensures groupsRouted == old(groupsRouted) + 1
      ensures strategyCounts == Bumped(old(strategyCounts), strategy, 1)
      ensures duplicatedPrefillTokens == old(duplicatedPrefillTokens) + duplicated
      ensures unchanged(`groupsCompleted, `groupsFailed, `groupsDropped, `generatedTokens, `freshTokens)
    {
      groupsRouted := groupsRouted + 1;
      strategyCounts := Bumped(strategyCounts, strategy, 1);
      duplicatedPrefillTokens := duplicatedPrefillTokens + duplicated;
      CountShares(shares);
    }

    method CountShares(shares: seq<Share>)
      requires Valid()
      modifies this`workerRequestCounts, this`names
      ensures Valid() && RequestsCounted() == old(RequestsCounted()) + ShareTotal(shares)
    {
      for k := 0 to |shares|
        invariant Valid() && RequestsCounted() == old(RequestsCounted()) + ShareTotal(shares[..k])
      {
        assert shares[..k + 1][..k] == shares[..k];
        ghost var more := BumpCounts(names, workerRequestCounts, shares[k].worker, |shares[k].ids|);
        workerRequestCounts := Bumped(workerRequestCounts, shares[k].worker, |shares[k].ids|);
        names := more;
      }
      assert shares[..|shares|] == shares;
    }

    method RecordGroup(status: string, tokens: int, lag: int, maxLag: int)
      modifies this`groupsCompleted, this`groupsFailed, this`groupsDropped, this`generatedTokens, this`freshTokens
      ensures groupsCompleted == old(groupsCompleted) + if status == "READY" then 1 else 0
      ensures generatedTokens == old(generatedTokens) + if status == "READY" then tokens else 0
      ensures freshTokens == old(freshTokens) + if status == "READY" && lag <= maxLag then tokens else 0
      ensures groupsDropped == old(groupsDropped) + if status == "DROPPED" then 1 else 0
      ensures groupsFailed == old(groupsFailed) + if status !in {"READY", "DROPPED"} then 1 else 0
    {
      if status == "READY" {
        groupsCompleted := groupsCompleted + 1;
        generatedTokens := generatedTokens + tokens;
        if lag <= maxLag { freshTokens := freshTokens + tokens; }
      } else if status == "DROPPED" {
        groupsDropped := groupsDropped + 1;
      } else {
        groupsFailed := groupsFailed + 1;
      }
    }
  }
}
