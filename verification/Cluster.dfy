/** The rollout engines and the trainer as the driver meets them: remote calls
    that may fail or answer anything, and a record of what was done when. */
module Cluster {
  import opened Outcomes
  import opened Buffer
  import opened Pipeline

  datatype Op = Began(id: int) | Ended(id: int) | Trained(id: int) | Updated(version: int)

  /** Generations begun and not yet ended. */
  function InFlight(ops: seq<Op>): int {
    if ops == [] then 0
    else
      InFlight(ops[..|ops| - 1])
      + match ops[|ops| - 1]
        case Began(_) => 1
        case Ended(_) => -1
        case _ => 0
  }

  /** The version the engines hold after ops. */
  function VersionAfter(initial: int, ops: seq<Op>): int {
    if ops == [] then initial
    else if ops[|ops| - 1].Updated? then ops[|ops| - 1].version
    else VersionAfter(initial, ops[..|ops| - 1])
  }

  /** No weight update happens while a generation is in flight. */
  ghost predicate NoOverlap(ops: seq<Op>) {
    forall k | 0 <= k < |ops| && ops[k].Updated? :: Idle(ops, k)
  }

  ghost predicate Idle(ops: seq<Op>, k: nat)
    requires k <= |ops|
  {
    InFlight(ops[..k]) == 0
  }

  /** Rollout id was generated from ops[i] to ops[j], all of it at version v. */
  ghost predicate SteadyBetween(initial: int, ops: seq<Op>, id: int, v: int, i: nat, j: nat) {
    && i < j < |ops| && ops[i] == Began(id) && ops[j] == Ended(id)
    && forall k | i <= k <= j :: !ops[k].Updated? && VersionAfter(initial, ops[..k]) == v
  }

  ghost predicate Steady(initial: int, ops: seq<Op>, id: int, v: int) {
    exists i: nat, j: nat :: SteadyBetween(initial, ops, id, v, i, j)
  }

  /** Every batch written down was generated wholly at the version it bears. */
  ghost predicate AllSteady(initial: int, ops: seq<Op>, generated: seq<Event>) {
    forall k | 0 <= k < |generated| ::
      generated[k].RolloutGenerated? && Steady(initial, ops, generated[k].id, generated[k].version)
  }

  lemma OpAppend(initial: int, ops: seq<Op>, op: Op)
    ensures InFlight(ops + [op]) == InFlight(ops) + (if op.Began? then 1 else if op.Ended? then -1 else 0)
    ensures VersionAfter(initial, ops + [op]) == if op.Updated? then op.version else VersionAfter(initial, ops)
    ensures NoOverlap(ops) && (op.Updated? ==> InFlight(ops) == 0) ==> NoOverlap(ops + [op])
  {
    assert (ops + [op])[..|ops|] == ops;
    if NoOverlap(ops) && (op.Updated? ==> InFlight(ops) == 0) {
      forall k | 0 <= k < |ops + [op]| && (ops + [op])[k].Updated? ensures Idle(ops + [op], k) {
        assert (ops + [op])[..k] == ops[..k];
        assert k < |ops| ==> Idle(ops, k);
      }
    }
  }

  lemma SteadyExtends(initial: int, ops: seq<Op>, more: seq<Op>, id: int, v: int)
    requires Steady(initial, ops, id, v) && ops <= more
    ensures Steady(initial, more, id, v)
  {
    var i: nat, j: nat :| SteadyBetween(initial, ops, id, v, i, j);
    forall k | i <= k <= j ensures !more[k].Updated? && VersionAfter(initial, more[..k]) == v {
      assert more[..k] == ops[..k];
    }
    assert SteadyBetween(initial, more, id, v, i, j);
  }

  lemma AllSteadyExtends(initial: int, ops: seq<Op>, more: seq<Op>, generated: seq<Event>)
    requires AllSteady(initial, ops, generated) && ops <= more
    ensures AllSteady(initial, more, generated)
  {
    forall k | 0 <= k < |generated| ensures Steady(initial, more, generated[k].id, generated[k].version) {
      SteadyExtends(initial, ops, more, generated[k].id, generated[k].version);
    }
  }

  /** A generation with nothing but training in between is steady. */
  lemma QuietIsSteady(initial: int, before: seq<Op>, id: int, middle: seq<Op>)
    requires forall k | 0 <= k < |middle| :: middle[k].Trained?
    ensures Steady(initial, before + [Began(id)] + middle + [Ended(id)], id, VersionAfter(initial, before))
  {
    var ops := before + [Began(id)] + middle + [Ended(id)];
    var i, j, v := |before|, |before| + 1 + |middle|, VersionAfter(initial, before);
    assert ops[..i] == before;
    QuietKeepsVersion(initial, ops, i, j);
    assert SteadyBetween(initial, ops, id, v, i, j);
  }

  lemma {:induction false} QuietKeepsVersion(initial: int, ops: seq<Op>, i: nat, j: nat)
    requires i <= j < |ops| && forall k | i <= k <= j :: !ops[k].Updated?
    ensures forall k | i <= k <= j :: VersionAfter(initial, ops[..k]) == VersionAfter(initial, ops[..i])
  {
    if i < j {
      QuietKeepsVersion(initial, ops, i, j - 1);
      assert ops[..j][..j - 1] == ops[..j - 1];
    }
  }

  /** The engines at one moment, and all that was ever asked of them. */
  datatype Engines = Engines(truthful: bool, sure: bool, initial: int, version: int, ops: seq<Op>)

  class RolloutManager {
    /** Whether the engines report the version they hold. */
    const truthful: bool
    /** Whether every call succeeds and every update raises the version by one. */
    const reliable: bool
    ghost const initial: int
    var version: int
    ghost var ops: seq<Op>

    ghost function Now(): Engines
      reads this
    {
      Engines(truthful, Sure(), initial, version, ops)
    }

    constructor (truthful: bool, reliable: bool, version: int)
      ensures Now() == Engines(truthful, truthful && reliable, version, version, []) && this.reliable == reliable
    {
      this.truthful, this.reliable, this.version, this.initial, ops := truthful, reliable, version, version, [];
    }

    predicate Sure() { truthful && reliable }

    /** Asks every engine; the call may fail, the engines may disagree. */
    method PolicyVersion() returns (r: Result<int>)
      ensures truthful && r.Success? ==> r.value == version
      ensures Sure() ==> r.Success?
    {
      var answers: bool := *;
      if !answers && !reliable { return Failure(AdapterError); }
      var values: seq<EngineReport> := *;
      if truthful {
        var engines :| engines >= if reliable then 1 else 0;
        var held := version;
        values := seq(engines, _ => Version(held));
      }
      r := NormalizeWeightVersions(values);
    }

    method Generate(id: int)
      modifies this
      ensures Now() == old(Now()).(ops := old(ops) + [Began(id)])
    {
      ops := ops + [Began(id)];
    }

    /** Waits for a generation; it has ended, well or badly. */
    method Collect(id: int) returns (r: Result<Payload>)
      modifies this
      ensures Now() == old(Now()).(ops := old(ops) + [Ended(id)])
      ensures reliable ==> r.Success?
    {
      ops := ops + [Ended(id)];
      var answers: bool := *;
      if !answers && !reliable { return Failure(AdapterError); }
      var payload: Payload := *;
      r := Success(payload);
    }

    method TrainBatch(id: int) returns (outcome: Outcome)
      modifies this
      ensures Now() == old(Now()).(ops := old(ops) + [Trained(id)])
      ensures reliable ==> outcome == Ok
    {
      ops := ops + [Trained(id)];
      var succeeds: bool := *;
      outcome := if succeeds || reliable then Ok else Raised(AdapterError);
    }

    /** Leaves the engines at some version, not always the one hoped for. */
    method UpdateWeights() returns (outcome: Outcome)
      modifies this
      ensures Now() == old(Now()).(version := version, ops := old(ops) + [Updated(version)])
      ensures reliable ==> outcome == Ok && version == old(version) + 1
    {
      var left: int, succeeds: bool := *, *;
      version := if reliable then version + 1 else left;
      ops := ops + [Updated(version)];
      outcome := if succeeds || reliable then Ok else Raised(AdapterError);
    }

    /** Partitions may be of an unexpected type. */
    method ResolvePartitions(payload: Payload) returns (r: Result<Payload>)
      ensures r.Success? ==> r.value == payload
      ensures reliable ==> r.Success?
    {
      var succeeds: bool := *;
      if !succeeds && !reliable { return Failure(TypeError); }
      r := Success(payload);
    }

    /** Evaluating, comparing weights, saving, freeing memory. */
    method Other() returns (outcome: Outcome)
      ensures reliable ==> outcome == Ok
    {
      var succeeds: bool := *;
      outcome := if succeeds || reliable then Ok else Raised(AdapterError);
    }
  }
}
