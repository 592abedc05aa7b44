/** The prefix-cache index: how often each fingerprint occurs among the most
    recent ones, kept as a bounded queue and a count per fingerprint. */
module CacheIndex {
  import opened Ordering
  import opened Outcomes

  /** The last n elements, or all there are. */
  function Recent(s: seq<string>, n: nat): seq<string> {
    if |s| <= n then s else s[|s| - n..]
  }

  /** Every fingerprint in the queue has its number of occurrences, and no other
      has an entry. */
  ghost predicate Agrees(counts: map<string, nat>, queue: seq<string>) {
    forall f: string :: Counted(counts, f) == Occurrences(f, queue) && (f in counts <==> Occurrences(f, queue) > 0)
  }

  function Counted(counts: map<string, nat>, f: string): nat {
    if f in counts then counts[f] else 0
  }

  /** The index when a fingerprint enters the queue. */
  function Entered(counts: map<string, nat>, f: string): map<string, nat> {
    counts[f := Counted(counts, f) + 1]
  }

  /** The index when a fingerprint leaves the queue. */
  function Departed(counts: map<string, nat>, f: string): map<string, nat> {
    if Counted(counts, f) <= 1 then counts - {f} else counts[f := Counted(counts, f) - 1]
  }

  lemma PushAgrees(counts: map<string, nat>, queue: seq<string>, x: string)
    requires Agrees(counts, queue)
    ensures Agrees(Entered(counts, x), queue + [x])
  {
    forall f: string
      ensures Counted(Entered(counts, x), f) == Occurrences(f, queue + [x])
      ensures f in Entered(counts, x) <==> Occurrences(f, queue + [x]) > 0
    {
      OccurrencesPush(f, queue, x);
      assert Counted(counts, f) == Occurrences(f, queue);
    }
  }

  lemma PopAgrees(counts: map<string, nat>, queue: seq<string>)
    requires Agrees(counts, queue) && queue != []
    ensures Agrees(Departed(counts, queue[0]), queue[1..])
  {
    var x := queue[0];
    OccurrencesPop(x, queue);
    assert Counted(counts, x) == Occurrences(x, queue);
    forall f: string
      ensures Counted(Departed(counts, x), f) == Occurrences(f, queue[1..])
      ensures f in Departed(counts, x) <==> Occurrences(f, queue[1..]) > 0
    {
      OccurrencesPop(f, queue);
      assert Counted(counts, f) == Occurrences(f, queue);
    }
  }

  /** Recording and dropping what no longer fits keeps the most recent ones. */
  lemma RecentSlides(history: seq<string>, x: string, n: nat)
    ensures Recent(history + [x], n)
         == var longer := Recent(history, n) + [x];
            if |longer| > n then longer[|longer| - n..] else longer
  {}

  class CacheTracker {
    const maxEntries: int
    var queue: seq<string>
    var counts: map<string, nat>

    /** Everything recorded so far. */
    ghost var history: seq<string>

    ghost predicate Valid()
      reads this
    {
      Agrees(counts, queue) && queue == if maxEntries < 0 then [] else Recent(history, maxEntries)
    }

    constructor (maxEntries: int)
      ensures Valid() && this.maxEntries == maxEntries && history == []
    {
      this.maxEntries, queue, counts, history := maxEntries, [], map[], [];
    }

    /** With room for a negative number of entries every call fails. */
    method Record(fingerprint: string) returns (outcome: Outcome)
      requires Valid()
      modifies this
      ensures Valid() && history == old(history) + [fingerprint]
      ensures outcome == if maxEntries < 0 then Raised(IndexError) else Ok
    {
      PushAgrees(counts, queue, fingerprint);
      if maxEntries >= 0 { RecentSlides(history, fingerprint, maxEntries); }
      counts := Entered(counts, fingerprint);
      queue := queue + [fingerprint];
      history := history + [fingerprint];
      outcome := EvictIfNeeded();
    }

    method EvictIfNeeded() returns (outcome: Outcome)
      requires Agrees(counts, queue)
      modifies this`queue, this`counts
      ensures Agrees(counts, queue)
      ensures outcome == if maxEntries < 0 then Raised(IndexError) else Ok
      ensures var was := old(queue);
        queue == if maxEntries < 0 then [] else if |was| > maxEntries then was[|was| - maxEntries..] else was
    {
      ghost var gone := 0;
      while |queue| > maxEntries
        invariant Agrees(counts, queue) && gone <= |old(queue)| && queue == old(queue)[gone..]
        invariant gone > 0 ==> |queue| >= maxEntries
        decreases |queue|
      {
        if queue == [] { return Raised(IndexError); }
        PopAgrees(counts, queue);
        counts := Departed(counts, queue[0]);
        queue := queue[1..];
        gone := gone + 1;
      }
      outcome := Ok;
    }

    /** How often the fingerprint occurs among the last entries recorded. */
    method Score(fingerprint: string) returns (n: nat)
      requires Valid()
      ensures n == if maxEntries < 0 then 0 else Occurrences(fingerprint, Recent(history, maxEntries))
    {
      n := Counted(counts, fingerprint);
      assert Counted(counts, fingerprint) == Occurrences(fingerprint, queue);
    }
  }
}
