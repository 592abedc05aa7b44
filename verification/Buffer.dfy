/** The rollout buffer: FIFO, bounded in size and in policy lag. */
module Buffer {
  import opened Outcomes

  /** A rollout's partitions, each with its response lengths. */
  type Payload = seq<seq<int>>

  datatype Batch = Batch(id: string, version: int, payload: Payload, tokens: int)

  /** A batch that left the buffer, and whether it was handed out. */
  datatype Fate = Fate(batch: Batch, usable: bool)

  ghost function Ids(batches: seq<Batch>): set<string> {
    set b | b in batches :: b.id
  }

  predicate DistinctBatches(batches: seq<Batch>) {
    forall i, j | 0 <= i < j < |batches| :: batches[i].id != batches[j].id
  }

  predicate WithinLag(lag: int, maxLag: nat) { 0 <= lag <= maxLag }

  /** How many batches at the front are no longer usable. */
  function StaleFront(batches: seq<Batch>, version: int, maxLag: nat): (n: nat)
    ensures n <= |batches|
  {
    if batches == [] || WithinLag(version - batches[0].version, maxLag) then 0
    else 1 + StaleFront(batches[1..], version, maxLag)
  }

  /** The first batch kept is the first one within the bound. */
  lemma {:induction false} StaleFrontIsFirst(batches: seq<Batch>, version: int, maxLag: nat)
    ensures var n := StaleFront(batches, version, maxLag);
      && (forall i | 0 <= i < n :: !WithinLag(version - batches[i].version, maxLag))
      && (n < |batches| ==> WithinLag(version - batches[n].version, maxLag))
  {
    if batches != [] && !WithinLag(version - batches[0].version, maxLag) {
      StaleFrontIsFirst(batches[1..], version, maxLag);
      var n := StaleFront(batches, version, maxLag);
      forall i | 0 <= i < n ensures !WithinLag(version - batches[i].version, maxLag) {
        if i > 0 { assert batches[i] == batches[1..][i - 1]; }
      }
    }
  }

  function Left(gone: seq<Fate>): (batches: seq<Batch>)
    ensures |batches| == |gone|
  {
    if gone == [] then [] else Left(gone[..|gone| - 1]) + [gone[|gone| - 1].batch]
  }

  function Discarded(gone: seq<Fate>): seq<Batch> {
    if gone == [] then []
    else Discarded(gone[..|gone| - 1]) + if gone[|gone| - 1].usable then [] else [gone[|gone| - 1].batch]
  }

  function Returned(gone: seq<Fate>): seq<Batch> {
    if gone == [] then []
    else Returned(gone[..|gone| - 1]) + if gone[|gone| - 1].usable then [gone[|gone| - 1].batch] else []
  }

  function TokenSum(batches: seq<Batch>): int {
    if batches == [] then 0 else TokenSum(batches[..|batches| - 1]) + batches[|batches| - 1].tokens
  }

  lemma TokenSumAppend(a: seq<Batch>, b: Batch)
    ensures TokenSum(a + [b]) == TokenSum(a) + b.tokens
    ensures a + [] == a
  {
    assert (a + [b])[..|a|] == a;
  }

  lemma FateAppend(gone: seq<Fate>, f: Fate)
    ensures Left(gone + [f]) == Left(gone) + [f.batch]
    ensures Discarded(gone + [f]) == if f.usable then Discarded(gone) else Discarded(gone) + [f.batch]
    ensures Returned(gone + [f]) == if f.usable then Returned(gone) + [f.batch] else Returned(gone)
  {
    assert (gone + [f])[..|gone|] == gone;
  }

  lemma PushIds(batches: seq<Batch>, b: Batch)
    requires DistinctBatches(batches) && b.id !in Ids(batches)
    ensures DistinctBatches(batches + [b]) && Ids(batches + [b]) == Ids(batches) + {b.id}
  {
    forall i | 0 <= i < |batches| ensures batches[i].id != b.id {
      assert batches[i] in batches;
    }
  }

  lemma PopIds(batches: seq<Batch>)
    requires batches != [] && DistinctBatches(batches)
    ensures DistinctBatches(batches[1..]) && Ids(batches[1..]) == Ids(batches) - {batches[0].id}
  {
    assert batches == [batches[0]] + batches[1..];
    assert Ids(batches) == {batches[0].id} + Ids(batches[1..]);
  }

  /** The fates of the first n batches when a get skips them. */
  function Skipped(batches: seq<Batch>, n: nat): seq<Fate>
    requires n <= |batches|
  {
    if n == 0 then [] else Skipped(batches, n - 1) + [Fate(batches[n - 1], false)]
  }

  /** A get has thrown out the first k batches of start and is still looking. */
  ghost predicate Skimmed(
      start: seq<Batch>, left: seq<Fate>, k: nat, batches: seq<Batch>, gone: seq<Fate>, version: int, maxLag: nat) {
    && k <= |start| && batches == start[k..] && gone == left + Skipped(start, k)
    && StaleFront(start, version, maxLag) == k + StaleFront(batches, version, maxLag)
  }

  lemma SkimOneMore(
      start: seq<Batch>, left: seq<Fate>, k: nat, batches: seq<Batch>, gone: seq<Fate>, version: int, maxLag: nat)
    requires Skimmed(start, left, k, batches, gone, version, maxLag)
    requires batches != [] && !WithinLag(version - batches[0].version, maxLag)
    ensures Skimmed(start, left, k + 1, batches[1..], gone + [Fate(batches[0], false)], version, maxLag)
  {
    assert start[k..][1..] == start[k + 1..];
    assert Skipped(start, k + 1) == Skipped(start, k) + [Fate(start[k], false)];
  }

  lemma SkimFound(
      start: seq<Batch>, left: seq<Fate>, k: nat, batches: seq<Batch>, gone: seq<Fate>, version: int, maxLag: nat)
    requires Skimmed(start, left, k, batches, gone, version, maxLag)
    requires batches != [] && WithinLag(version - batches[0].version, maxLag)
    ensures StaleFront(start, version, maxLag) == k < |start|
    ensures batches[0] == start[k] && batches[1..] == start[k + 1..]
  {}

  /** The stale counters count exactly the batches rejected on arrival and the
      ones discarded later. */
  ghost predicate Counted(rejected: seq<Batch>, gone: seq<Fate>, count: int, tokens: int) {
    && count == |rejected| + |Discarded(gone)|
    && tokens == TokenSum(rejected) + TokenSum(Discarded(gone))
  }

  lemma RejectCounts(rejected: seq<Batch>, gone: seq<Fate>, count: int, tokens: int, b: Batch)
    requires Counted(rejected, gone, count, tokens)
    ensures Counted(rejected + [b], gone, count + 1, tokens + b.tokens)
  {
    TokenSumAppend(rejected, b);
  }

  lemma PopCounts(rejected: seq<Batch>, gone: seq<Fate>, count: int, tokens: int, f: Fate)
    requires Counted(rejected, gone, count, tokens)
    ensures Counted(rejected, gone + [f], if f.usable then count else count + 1,
                    if f.usable then tokens else tokens + f.batch.tokens)
  {
    FateAppend(gone, f);
    TokenSumAppend(Discarded(gone), f.batch);
  }

  lemma PopLeft(accepted: seq<Batch>, gone: seq<Fate>, batches: seq<Batch>, usable: bool)
    requires batches != [] && accepted == Left(gone) + batches
    ensures accepted == Left(gone + [Fate(batches[0], usable)]) + batches[1..]
  {
    FateAppend(gone, Fate(batches[0], usable));
  }

  class BoundedRolloutBuffer {
    const maxBatches: nat
    const maxLag: nat
    var batches: seq<Batch>
    var ids: set<string>
    var staleBatches: nat
    var staleTokens: int

    /** Every batch ever accepted, what became of those no longer here, and the
        batches turned away as too old. The id index mirrors the queue, and
        accepted batches leave in the order they came and none is lost. */
    ghost var accepted: seq<Batch>
    ghost var gone: seq<Fate>
    ghost var rejected: seq<Batch>

    ghost predicate Valid()
      reads this
    {
      && |batches| <= maxBatches
      && ids == Ids(batches) && DistinctBatches(batches)
      && accepted == Left(gone) + batches
      && Counted(rejected, gone, staleBatches, staleTokens)
    }

    constructor Limits(maxBatches: nat, maxLag: nat)
      requires maxBatches > 0
      ensures Valid() && this.maxBatches == maxBatches && this.maxLag == maxLag
      ensures batches == [] && accepted == [] && rejected == [] && gone == [] && staleBatches == 0 && staleTokens == 0
    {
      this.maxBatches, this.maxLag := maxBatches, maxLag;
      batches, ids, staleBatches, staleTokens := [], {}, 0, 0;
      accepted, gone, rejected := [], [], [];
    }

    /** Refuses limits no buffer can have. */
    static method Create(maxBatches: int, maxLag: int) returns (buffer: BoundedRolloutBuffer?, outcome: Outcome)
      ensures outcome == if maxBatches <= 0 || maxLag < 0 then Raised(ValueError) else Ok
      ensures outcome == Ok ==> buffer != null && fresh(buffer) && buffer.Valid() && buffer.batches == []
                                && buffer.maxBatches == maxBatches && buffer.maxLag == maxLag
                                && buffer.staleBatches == 0 && buffer.staleTokens == 0
      ensures outcome != Ok ==> buffer == null
    {
      if maxBatches <= 0 || maxLag < 0 { return null, Raised(ValueError); }
      buffer := new BoundedRolloutBuffer.Limits(maxBatches, maxLag);
      outcome := Ok;
    }

    /** Refuses future, stale, duplicate and surplus batches, in that order. */
    method Put(batch: Batch, trainerVersion: int) returns (outcome: Outcome)
      requires Valid()
      modifies this
      ensures Valid()
      ensures var lag := trainerVersion - batch.version;
        outcome == if lag < 0 || lag > maxLag || batch.id in Ids(old(batches)) then Raised(ValidationError)
                   else if |old(batches)| >= maxBatches then Raised(BufferError) else Ok
      ensures batches == if outcome == Ok then old(batches) + [batch] else old(batches)
      ensures accepted == if outcome == Ok then old(accepted) + [batch] else old(accepted)
      ensures rejected == if trainerVersion - batch.version > maxLag then old(rejected) + [batch] else old(rejected)
      ensures gone == old(gone)
    {
      var lag := trainerVersion - batch.version;
      if lag < 0 { return Raised(ValidationError); }
      if lag > maxLag {
        staleBatches := staleBatches + 1;
        staleTokens := staleTokens + batch.tokens;
        RejectCounts(rejected, gone, staleBatches - 1, staleTokens - batch.tokens, batch);
        rejected := rejected + [batch];
        return Raised(ValidationError);
      }
      if batch.id in ids { return Raised(ValidationError); }
      if |batches| >= maxBatches { return Raised(BufferError); }
      PushIds(batches, batch);
      assert Left(gone) + (batches + [batch]) == accepted + [batch];
      batches := batches + [batch];
      ids := ids + {batch.id};
      accepted := accepted + [batch];
      return Ok;
    }

    /** The oldest batch still within the lag bound; the ones before it go. */
    method Get(trainerVersion: int) returns (batch: Option<Batch>)
      requires Valid()
      modifies this
      ensures Valid()
      ensures var n := StaleFront(old(batches), trainerVersion, maxLag);
        if n < |old(batches)|
        then batch == Some(old(batches)[n]) && batches == old(batches)[n + 1..]
             && gone == old(gone) + Skipped(old(batches), n) + [Fate(old(batches)[n], true)]
        else batch == None && batches == [] && gone == old(gone) + Skipped(old(batches), n)
      ensures accepted == old(accepted) && rejected == old(rejected)
      ensures batch.Some? ==> WithinLag(trainerVersion - batch.value.version, maxLag)
    {
      ghost var start, left, k := batches, gone, 0;
      while batches != []
        invariant Valid() && Skimmed(start, left, k, batches, gone, trainerVersion, maxLag)
        invariant accepted == old(accepted) && rejected == old(rejected)
        decreases |batches|
      {
        ghost var before, departed := batches, gone;
        var first := batches[0];
        var lag := trainerVersion - first.version;
        if 0 <= lag && lag <= maxLag {
          SkimFound(start, left, k, before, departed, trainerVersion, maxLag);
          PopFront(true);
          return Some(first);
        }
        PopFront(false);
        SkimOneMore(start, left, k, before, departed, trainerVersion, maxLag);
        k := k + 1;
      }
      batch := None;
    }

    /** Takes the oldest batch out, to be returned or to be counted as stale. */
    method PopFront(usable: bool)
      requires Valid() && batches != []
      modifies this
      ensures Valid() && batches == old(batches)[1..] && gone == old(gone) + [Fate(old(batches)[0], usable)]
      ensures accepted == old(accepted) && rejected == old(rejected)
    {
      var first := batches[0];
      ghost var fate := Fate(first, usable);
      PopIds(batches);
      PopLeft(accepted, gone, batches, usable);
      PopCounts(rejected, gone, staleBatches, staleTokens, fate);
      gone := gone + [fate];
      batches := batches[1..];
      ids := ids - {first.id};
      if !usable {
        staleBatches := staleBatches + 1;
        staleTokens := staleTokens + first.tokens;
      }
      assert ids == Ids(batches);
      assert DistinctBatches(batches);
      assert accepted == Left(gone) + batches;
      assert Counted(rejected, gone, staleBatches, staleTokens);
    }

    method Len() returns (n: nat)
      ensures n == |batches|
    {
      n := |batches|;
    }
  }
}
