/** What the adaptive policy minimises, told from the workers and the requests:
    when the last worker is done, how much prompt is prefilled again, how uneven
    the load is, and how long the longest queue is. */
module Objective {
  import opened Ordering
  import opened Models
  import opened Scheduling
  import opened Placement
  import opened Adaptive

  /** How long the worker takes to prefill and to decode this much. */
  function Spent(w: Worker, prefill: real, decode: real): real {
    prefill / w.prefillRate + decode / w.decodeRate
  }

  /** Tokens of the prompt the worker does not hold yet. */
  function Missing(w: Worker, q: Request): nat {
    if q.prefix !in w.prefixMatched || w.prefixMatched[q.prefix] <= 0 then q.promptTokens
    else if w.prefixMatched[q.prefix] >= q.promptTokens then 0
    else q.promptTokens - w.prefixMatched[q.prefix]
  }

  /** What a request is expected to decode: somewhere from its prediction up to
      its upper estimate, as far as risk says. */
  function Outlook(risk: real): Request -> real {
    (r: Request) => r.predicted + risk * (r.p90 - r.predicted)
  }

  /** When the worker is done with its queue and with these requests. */
  function DoneWith(w: Worker, q: Request, lot: seq<Request>, risk: real): real {
    Spent(w, (w.queuedPrefill + Missing(w, q)) as real, w.activeDecode as real + Work(Outlook(risk), lot))
  }

  function Backlog(w: Worker): real {
    Spent(w, w.queuedPrefill as real, w.activeDecode as real)
  }

  lemma QuotientAdds(a: real, b: real, r: Rate)
    ensures (a + b) / r == a / r + b / r
  {}

  lemma QueueTimeIsBacklog(w: Worker)
    ensures w.QueueTime() == Backlog(w)
  {}

  lemma PrefillIsMissing(w: Worker, q: Request)
    ensures w.Prefill(q) == Missing(w, q)
  {}

  lemma Blends(risk: real, a: real, b: real, x: real, y: real)
    ensures (1.0 - risk) * (a + x) + risk * (b + y) == ((1.0 - risk) * a + risk * b) + (x + risk * (y - x))
  {}

  lemma {:induction false} OutlookIsBlend(risk: real, lot: seq<Request>)
    ensures Work(Outlook(risk), lot) == (1.0 - risk) * Work(Predicted, lot) + risk * Work(P90, lot)
  {
    if lot != [] {
      var n := |lot| - 1;
      OutlookIsBlend(risk, lot[..n]);
      Blends(risk, Work(Predicted, lot[..n]), Work(P90, lot[..n]), lot[n].predicted, lot[n].p90);
    }
  }

  lemma FinishIsDone(p: Parcel, q: Request, weights: Weights)
    ensures FinishTime(p, q, weights) == DoneWith(p.worker, q, p.requests, weights.risk)
  {
    var w := p.worker;
    PrefillIsMissing(w, q);
    OutlookIsBlend(weights.risk, p.requests);
    QuotientAdds(w.queuedPrefill as real, Missing(w, q) as real, w.prefillRate);
    QuotientAdds(w.activeDecode as real, Work(Outlook(weights.risk), p.requests), w.decodeRate);
  }

  // The four measures of a candidate.

  /** The worker has something to do for the group. */
  predicate Serves(ps: seq<Parcel>, p: Parcel) {
    p in ps && p.requests != []
  }

  function LoadOf(p: Parcel, q: Request): real {
    Work(P90, p.requests) + Missing(p.worker, q) as real
  }

  /** When the last worker is done. */
  ghost predicate IsLatest(ps: seq<Parcel>, q: Request, risk: real, time: real) {
    && (exists p | Serves(ps, p) :: DoneWith(p.worker, q, p.requests, risk) == time)
    && forall p | Serves(ps, p) :: DoneWith(p.worker, q, p.requests, risk) <= time
  }

  /** The longest queue in front of the group. */
  ghost predicate IsLongestWait(ps: seq<Parcel>, wait: real) {
    && (exists p | Serves(ps, p) :: Backlog(p.worker) == wait)
    && forall p | Serves(ps, p) :: Backlog(p.worker) <= wait
  }

  function MissingTotal(ps: seq<Parcel>, q: Request): nat {
    if ps == [] then 0
    else
      var n := |ps| - 1;
      MissingTotal(ps[..n], q) + if ps[n].requests == [] then 0 else Missing(ps[n].worker, q)
  }

  /** What is prefilled besides the least that one of the workers would have
      to. */
  ghost predicate IsExtra(ps: seq<Parcel>, q: Request, extra: int) {
    exists p | Serves(ps, p) ::
      && (forall p' | Serves(ps, p') :: Missing(p.worker, q) <= Missing(p'.worker, q))
      && extra == MissingTotal(ps, q) - Missing(p.worker, q)
  }

  function Serving(ps: seq<Parcel>): nat {
    if ps == [] then 0 else Serving(ps[..|ps| - 1]) + if ps[|ps| - 1].requests == [] then 0 else 1
  }

  function LoadTotal(ps: seq<Parcel>, q: Request): real {
    if ps == [] then 0.0
    else
      var n := |ps| - 1;
      LoadTotal(ps[..n], q) + if ps[n].requests == [] then 0.0 else LoadOf(ps[n], q)
  }

  function Larger(a: real, b: real): real { if a < b then b else a }

  /** The heaviest load in units of the mean one, or of one token should the mean
      be less. */
  ghost predicate IsUnevenness(ps: seq<Parcel>, q: Request, skew: real) {
    exists p | IsHeaviest(ps, q, p) :: IsRatio(skew, LoadOf(p, q), LoadTotal(ps, q), Serving(ps))
  }

  ghost predicate IsHeaviest(ps: seq<Parcel>, q: Request, p: Parcel) {
    Serves(ps, p) && forall p' | Serves(ps, p') :: LoadOf(p', q) <= LoadOf(p, q)
  }

  /** skew is the peak over the mean of n numbers of this total, or over one. */
  ghost predicate IsRatio(skew: real, peak: real, total: real, n: nat) {
    skew * Larger(n as real, total) == n as real * peak
  }

  lemma {:induction false} UsedServes(ps: seq<Parcel>)
    ensures forall p :: p in Used(ps) <==> Serves(ps, p)
    ensures |Used(ps)| == Serving(ps)
  {
    if ps != [] {
      var n := |ps| - 1;
      UsedServes(ps[..n]);
      forall p ensures p in Used(ps) <==> Serves(ps, p) {
        assert p in ps <==> p in ps[..n] || p == ps[n];
        assert p in Used(ps[..n]) <==> Serves(ps[..n], p);
      }
    }
  }

  lemma {:induction false} UsedPrefills(ps: seq<Parcel>, q: Request)
    ensures PrefillSum(Used(ps), q) == MissingTotal(ps, q)
  {
    if ps != [] {
      var n := |ps| - 1;
      UsedPrefills(ps[..n], q);
      if ps[n].requests != [] {
        PrefillIsMissing(ps[n].worker, q);
        ListsStep(Used(ps[..n]), ps[n], q, Weights(0.0, 0.0, 0.0, 0.0, 0.0));
      } else {
        assert Used(ps) == Used(ps[..n]);
      }
    }
  }

  lemma SumAppend(xs: seq<real>, x: real)
    ensures Sum(xs + [x]) == Sum(xs) + x
  {
    assert (xs + [x])[..|xs|] == xs;
  }

  lemma LoadIs(p: Parcel, q: Request)
    ensures AssignedLoad(p, q) == LoadOf(p, q)
  {
    PrefillIsMissing(p.worker, q);
  }

  lemma {:induction false} UsedLoads(ps: seq<Parcel>, q: Request)
    ensures Sum(AssignedLoads(Used(ps), q)) == LoadTotal(ps, q)
  {
    if ps != [] {
      var n := |ps| - 1;
      UsedLoads(ps[..n], q);
      if ps[n].requests != [] {
        LoadIs(ps[n], q);
        ListsStep(Used(ps[..n]), ps[n], q, Weights(0.0, 0.0, 0.0, 0.0, 0.0));
        SumAppend(AssignedLoads(Used(ps[..n]), q), AssignedLoad(ps[n], q));
      } else {
        assert Used(ps) == Used(ps[..n]);
      }
    }
  }

  lemma PeakIsLatest(ps: seq<Parcel>, q: Request, weights: Weights)
    requires Used(ps) != []
    ensures IsLatest(ps, q, weights.risk, Peak(FinishTimes(Used(ps), q, weights)))
  {
    var used := Used(ps);
    var times := FinishTimes(used, q, weights);
    UsedServes(ps);
    var i :| 0 <= i < |times| && times[i] == Peak(times);
    FinishIsDone(used[i], q, weights);
    assert Serves(ps, used[i]);
    forall p | Serves(ps, p) ensures DoneWith(p.worker, q, p.requests, weights.risk) <= Peak(times) {
      var j :| 0 <= j < |used| && used[j] == p;
      FinishIsDone(p, q, weights);
      assert times[j] <= Peak(times);
    }
  }

  lemma PeakIsLongestWait(ps: seq<Parcel>)
    requires Used(ps) != []
    ensures IsLongestWait(ps, Peak(QueueWaits(Used(ps))))
  {
    var used := Used(ps);
    var waits := QueueWaits(used);
    UsedServes(ps);
    var i :| 0 <= i < |waits| && waits[i] == Peak(waits);
    QueueTimeIsBacklog(used[i].worker);
    assert Serves(ps, used[i]);
    forall p | Serves(ps, p) ensures Backlog(p.worker) <= Peak(waits) {
      var j :| 0 <= j < |used| && used[j] == p;
      QueueTimeIsBacklog(p.worker);
      assert waits[j] <= Peak(waits);
    }
  }

  lemma {:induction false} LeastIsSome(used: seq<Parcel>, q: Request) returns (p: Parcel)
    requires used != []
    ensures p in used && p.worker.Prefill(q) == LeastPrefill(used, q)
    ensures forall p' | p' in used :: LeastPrefill(used, q) <= p'.worker.Prefill(q)
  {
    var n := |used| - 1;
    if n == 0 {
      p := used[0];
    } else {
      p := LeastIsSome(used[..n], q);
      assert forall p' :: p' in used <==> p' in used[..n] || p' == used[n];
      if used[n].worker.Prefill(q) < LeastPrefill(used[..n], q) { p := used[n]; }
    }
  }

  lemma DuplicatedIsExtra(ps: seq<Parcel>, q: Request)
    requires Used(ps) != []
    ensures IsExtra(ps, q, Duplicated(ps, q))
  {
    UsedServes(ps);
    UsedPrefills(ps, q);
    var p := LeastIsSome(Used(ps), q);
    PrefillIsMissing(p.worker, q);
    assert Serves(ps, p);
    forall p' | Serves(ps, p') ensures Missing(p.worker, q) <= Missing(p'.worker, q) {
      assert p' in Used(ps);
      PrefillIsMissing(p'.worker, q);
    }
  }

  /** The skew as the score has it. */
  function Skew(loads: seq<real>): real
    requires loads != []
  {
    var mean := Sum(loads) / |loads| as real;
    Peak(loads) / if mean < 1.0 then 1.0 else mean
  }

  lemma SkewIsRatio(loads: seq<real>)
    requires loads != []
    ensures IsRatio(Skew(loads), Peak(loads), Sum(loads), |loads|)
  {
    RatioIs(Peak(loads), Sum(loads), |loads|, Sum(loads) / |loads| as real);
  }

  lemma RatioIs(peak: real, total: real, n: nat, mean: real)
    requires n > 0 && mean == total / n as real
    ensures IsRatio(peak / if mean < 1.0 then 1.0 else mean, peak, total, n)
  {
    MeanIsSmall(total, n as real);
    if mean < 1.0 {
      assert peak / 1.0 == peak;
    } else {
      TotalOfMean(total, n as real);
      QuotientScales(peak, mean, n as real);
    }
  }

  lemma TotalOfMean(total: real, n: real)
    requires n > 0.0
    ensures (total / n) * n == total
  {}

  lemma MeanIsSmall(total: real, n: real)
    requires n > 0.0
    ensures total / n < 1.0 <==> total < n
  {
    var mean := total / n;
    assert mean * n == total;
    if mean < 1.0 { assert mean * n < n; } else { assert mean * n >= n; }
  }

  lemma QuotientScales(x: real, mean: real, n: real)
    requires mean >= 1.0
    ensures (x / mean) * (mean * n) == n * x
  {
    assert (x / mean) * mean == x;
    Regroups(x / mean, mean, n);
  }

  lemma Regroups(a: real, b: real, c: real)
    ensures a * (b * c) == c * (a * b)
  {}

  lemma PeakIsUnevenness(ps: seq<Parcel>, q: Request)
    requires Used(ps) != []
    ensures IsUnevenness(ps, q, Skew(AssignedLoads(Used(ps), q)))
  {
    var used := Used(ps);
    var loads := AssignedLoads(used, q);
    UsedServes(ps);
    UsedLoads(ps, q);
    SkewIsRatio(loads);
    var i :| 0 <= i < |loads| && loads[i] == Peak(loads);
    LoadIs(used[i], q);
    assert Serves(ps, used[i]);
    forall p | Serves(ps, p) ensures LoadOf(p, q) <= LoadOf(used[i], q) {
      var j :| 0 <= j < |used| && used[j] == p;
      LoadIs(p, q);
      assert loads[j] <= Peak(loads);
    }
    assert IsHeaviest(ps, q, used[i]);
  }

  function Weigh(weights: Weights, latest: real, extra: int, skew: real, wait: real): real {
    weights.makespan * latest + weights.duplicated * extra as real + weights.skew * skew + weights.wait * wait
  }

  lemma CombineWeighs(finish: seq<real>, loads: seq<real>, waits: seq<real>, extra: int, weights: Weights)
    requires finish != [] && loads != [] && waits != []
    ensures Combine(finish, loads, waits, extra, weights)
         == Weigh(weights, Peak(finish), extra, Skew(loads), Peak(waits))
  {}

  /** The score of a candidate is the weighted sum of the four measures. */
  lemma ScoreIsWeightedSum(ps: seq<Parcel>, q: Request, weights: Weights)
      returns (latest: real, extra: int, skew: real, wait: real)
    requires Used(ps) != []
    ensures IsLatest(ps, q, weights.risk, latest) && IsExtra(ps, q, extra)
    ensures IsUnevenness(ps, q, skew) && IsLongestWait(ps, wait)
    ensures Score(ps, q, weights) == Weigh(weights, latest, extra, skew, wait)
  {
    var used := Used(ps);
    latest, extra := Peak(FinishTimes(used, q, weights)), Duplicated(ps, q);
    skew, wait := Skew(AssignedLoads(used, q)), Peak(QueueWaits(used));
    PeakIsLatest(ps, q, weights);
    DuplicatedIsExtra(ps, q);
    PeakIsUnevenness(ps, q);
    PeakIsLongestWait(ps);
    CombineWeighs(FinishTimes(used, q, weights), AssignedLoads(used, q), QueueWaits(used), extra, weights);
  }

  // Each measure is what its weight alone would minimise.

  lemma LatestIsUnique(ps: seq<Parcel>, q: Request, risk: real, a: real, b: real)
    requires IsLatest(ps, q, risk, a) && IsLatest(ps, q, risk, b)
    ensures a == b
  {}

  lemma WaitIsUnique(ps: seq<Parcel>, a: real, b: real)
    requires IsLongestWait(ps, a) && IsLongestWait(ps, b)
    ensures a == b
  {}

  lemma ExtraIsUnique(ps: seq<Parcel>, q: Request, a: int, b: int)
    requires IsExtra(ps, q, a) && IsExtra(ps, q, b)
    ensures a == b
  {}

  lemma FactorCancels(a: real, b: real, x: real)
    requires x > 0.0 && a * x == b * x
    ensures a == b
  {}

  lemma {:induction false} SomeServe(ps: seq<Parcel>, p: Parcel)
    requires Serves(ps, p)
    ensures Serving(ps) > 0
  {
    var n := |ps| - 1;
    if ps[n].requests == [] {
      assert p in ps[..n];
      SomeServe(ps[..n], p);
    }
  }

  lemma SkewIsUnique(ps: seq<Parcel>, q: Request, a: real, b: real)
    requires IsUnevenness(ps, q, a) && IsUnevenness(ps, q, b)
    ensures a == b
  {
    var p :| IsHeaviest(ps, q, p) && IsRatio(a, LoadOf(p, q), LoadTotal(ps, q), Serving(ps));
    var p' :| IsHeaviest(ps, q, p') && IsRatio(b, LoadOf(p', q), LoadTotal(ps, q), Serving(ps));
    assert LoadOf(p, q) == LoadOf(p', q);
    SomeServe(ps, p);
    RatioIsUnique(a, b, LoadOf(p, q), LoadTotal(ps, q), Serving(ps));
  }

  lemma RatioIsUnique(a: real, b: real, peak: real, total: real, n: nat)
    requires n > 0 && IsRatio(a, peak, total, n) && IsRatio(b, peak, total, n)
    ensures a == b
  {
    FactorCancels(a, b, Larger(n as real, total));
  }

  lemma WeightCancels(x: real, a: real, b: real)
    requires x > 0.0 && x * a <= x * b
    ensures a <= b
  {}

  /** With one weight only that measure counts. */
  lemma OneWeight(x: real, risk: real, a: real, b: int, c: real, d: real)
    ensures Weigh(Weights(x, 0.0, 0.0, 0.0, risk), a, b, c, d) == x * a
    ensures Weigh(Weights(0.0, x, 0.0, 0.0, risk), a, b, c, d) == x * b as real
    ensures Weigh(Weights(0.0, 0.0, x, 0.0, risk), a, b, c, d) == x * c
    ensures Weigh(Weights(0.0, 0.0, 0.0, x, risk), a, b, c, d) == x * d
  {}

  lemma OneWeightDecides(x: real, risk: real, a: real, b: int, c: real, d: real, a': real, b': int, c': real, d': real)
    requires x > 0.0
    ensures var w := Weights(x, 0.0, 0.0, 0.0, risk); Weigh(w, a, b, c, d) <= Weigh(w, a', b', c', d') ==> a <= a'
    ensures var w := Weights(0.0, x, 0.0, 0.0, risk); Weigh(w, a, b, c, d) <= Weigh(w, a', b', c', d') ==> b <= b'
    ensures var w := Weights(0.0, 0.0, x, 0.0, risk); Weigh(w, a, b, c, d) <= Weigh(w, a', b', c', d') ==> c <= c'
    ensures var w := Weights(0.0, 0.0, 0.0, x, risk); Weigh(w, a, b, c, d) <= Weigh(w, a', b', c', d') ==> d <= d'
  {
    OneWeight(x, risk, a, b, c, d);
    OneWeight(x, risk, a', b', c', d');
    if x * a <= x * a' { WeightCancels(x, a, a'); }
    if x * b as real <= x * b' as real { WeightCancels(x, b as real, b' as real); }
    if x * c <= x * c' { WeightCancels(x, c, c'); }
    if x * d <= x * d' { WeightCancels(x, d, d'); }
  }

  lemma TimeDecides(ps: seq<Parcel>, ps': seq<Parcel>, q: Request, x: real, risk: real, mine: real, theirs: real)
    requires Used(ps) != [] && Used(ps') != [] && x > 0.0
    requires Score(ps, q, Weights(x, 0.0, 0.0, 0.0, risk)) <= Score(ps', q, Weights(x, 0.0, 0.0, 0.0, risk))
    requires IsLatest(ps, q, risk, mine) && IsLatest(ps', q, risk, theirs)
    ensures mine <= theirs
  {
    var a, b, c, d := ScoreIsWeightedSum(ps, q, Weights(x, 0.0, 0.0, 0.0, risk));
    var a', b', c', d' := ScoreIsWeightedSum(ps', q, Weights(x, 0.0, 0.0, 0.0, risk));
    OneWeightDecides(x, risk, a, b, c, d, a', b', c', d');
    LatestIsUnique(ps, q, risk, a, mine);
    LatestIsUnique(ps', q, risk, a', theirs);
  }

  lemma ExtraDecides(ps: seq<Parcel>, ps': seq<Parcel>, q: Request, x: real, risk: real, mine: int, theirs: int)
    requires Used(ps) != [] && Used(ps') != [] && x > 0.0
    requires Score(ps, q, Weights(0.0, x, 0.0, 0.0, risk)) <= Score(ps', q, Weights(0.0, x, 0.0, 0.0, risk))
    requires IsExtra(ps, q, mine) && IsExtra(ps', q, theirs)
    ensures mine <= theirs
  {
    var a, b, c, d := ScoreIsWeightedSum(ps, q, Weights(0.0, x, 0.0, 0.0, risk));
    var a', b', c', d' := ScoreIsWeightedSum(ps', q, Weights(0.0, x, 0.0, 0.0, risk));
    OneWeightDecides(x, risk, a, b, c, d, a', b', c', d');
    ExtraIsUnique(ps, q, b, mine);
    ExtraIsUnique(ps', q, b', theirs);
  }

  lemma SkewDecides(ps: seq<Parcel>, ps': seq<Parcel>, q: Request, x: real, risk: real, mine: real, theirs: real)
    requires Used(ps) != [] && Used(ps') != [] && x > 0.0
    requires Score(ps, q, Weights(0.0, 0.0, x, 0.0, risk)) <= Score(ps', q, Weights(0.0, 0.0, x, 0.0, risk))
    requires IsUnevenness(ps, q, mine) && IsUnevenness(ps', q, theirs)
    ensures mine <= theirs
  {
    var a, b, c, d := ScoreIsWeightedSum(ps, q, Weights(0.0, 0.0, x, 0.0, risk));
    var a', b', c', d' := ScoreIsWeightedSum(ps', q, Weights(0.0, 0.0, x, 0.0, risk));
    OneWeightDecides(x, risk, a, b, c, d, a', b', c', d');
    SkewIsUnique(ps, q, c, mine);
    SkewIsUnique(ps', q, c', theirs);
  }

  lemma WaitDecides(ps: seq<Parcel>, ps': seq<Parcel>, q: Request, x: real, risk: real, mine: real, theirs: real)
    requires Used(ps) != [] && Used(ps') != [] && x > 0.0
    requires Score(ps, q, Weights(0.0, 0.0, 0.0, x, risk)) <= Score(ps', q, Weights(0.0, 0.0, 0.0, x, risk))
    requires IsLongestWait(ps, mine) && IsLongestWait(ps', theirs)
    ensures mine <= theirs
  {
    var a, b, c, d := ScoreIsWeightedSum(ps, q, Weights(0.0, 0.0, 0.0, x, risk));
    var a', b', c', d' := ScoreIsWeightedSum(ps', q, Weights(0.0, 0.0, 0.0, x, risk));
    OneWeightDecides(x, risk, a, b, c, d, a', b', c', d');
    WaitIsUnique(ps, d, mine);
    WaitIsUnique(ps', d', theirs);
  }

  /** If only the makespan has a weight, no candidate's last worker is done before
      the choice's. */
  lemma OnlyTimeCounts(items: seq<Request>, ready: seq<Worker>, x: real, risk: real, i: nat, mine: real, theirs: real)
    requires items != [] && ready != [] && DistinctIds(ready) && i < |ready| + 2 && x > 0.0
    requires IsLatest(Cheapest(items, ready, Weights(x, 0.0, 0.0, 0.0, risk)), items[0], risk, mine)
    requires IsLatest(Candidates(items, ready)[i].parcels, items[0], risk, theirs)
    ensures mine <= theirs
  {
    var weights := Weights(x, 0.0, 0.0, 0.0, risk);
    AdaptiveBeats(items, ready, weights, Scores(items, ready, weights), i);
    TimeDecides(Cheapest(items, ready, weights), Candidates(items, ready)[i].parcels, items[0], x, risk, mine, theirs);
  }

  /** If only the prefill has one, no candidate prefills less of the prompt
      again. */
  lemma OnlyExtraCounts(items: seq<Request>, ready: seq<Worker>, x: real, risk: real, i: nat, mine: int, theirs: int)
    requires items != [] && ready != [] && DistinctIds(ready) && i < |ready| + 2 && x > 0.0
    requires IsExtra(Cheapest(items, ready, Weights(0.0, x, 0.0, 0.0, risk)), items[0], mine)
    requires IsExtra(Candidates(items, ready)[i].parcels, items[0], theirs)
    ensures mine <= theirs
  {
    var weights := Weights(0.0, x, 0.0, 0.0, risk);
    AdaptiveBeats(items, ready, weights, Scores(items, ready, weights), i);
    ExtraDecides(Cheapest(items, ready, weights), Candidates(items, ready)[i].parcels, items[0], x, risk, mine, theirs);
  }

  /** If only the skew has one, no candidate spreads the load more evenly. */
  lemma OnlySkewCounts(items: seq<Request>, ready: seq<Worker>, x: real, risk: real, i: nat, mine: real, theirs: real)
    requires items != [] && ready != [] && DistinctIds(ready) && i < |ready| + 2 && x > 0.0
    requires IsUnevenness(Cheapest(items, ready, Weights(0.0, 0.0, x, 0.0, risk)), items[0], mine)
    requires IsUnevenness(Candidates(items, ready)[i].parcels, items[0], theirs)
    ensures mine <= theirs
  {
    var weights := Weights(0.0, 0.0, x, 0.0, risk);
    AdaptiveBeats(items, ready, weights, Scores(items, ready, weights), i);
    SkewDecides(Cheapest(items, ready, weights), Candidates(items, ready)[i].parcels, items[0], x, risk, mine, theirs);
  }

  /** If only the wait has one, no candidate keeps to shorter queues. */
  lemma OnlyWaitCounts(items: seq<Request>, ready: seq<Worker>, x: real, risk: real, i: nat, mine: real, theirs: real)
    requires items != [] && ready != [] && DistinctIds(ready) && i < |ready| + 2 && x > 0.0
    requires IsLongestWait(Cheapest(items, ready, Weights(0.0, 0.0, 0.0, x, risk)), mine)
    requires IsLongestWait(Candidates(items, ready)[i].parcels, theirs)
    ensures mine <= theirs
  {
    var weights := Weights(0.0, 0.0, 0.0, x, risk);
    AdaptiveBeats(items, ready, weights, Scores(items, ready, weights), i);
    WaitDecides(Cheapest(items, ready, weights), Candidates(items, ready)[i].parcels, items[0], x, risk, mine, theirs);
  }

  /** So with only that weight no single worker would be done with the whole group
      before the choice is. */
  lemma NoWorkerAloneIsSooner(items: seq<Request>, ready: seq<Worker>, x: real, risk: real, w: nat, mine: real)
    requires items != [] && ready != [] && DistinctIds(ready) && w < |ready| && x > 0.0
    requires IsLatest(Cheapest(items, ready, Weights(x, 0.0, 0.0, 0.0, risk)), items[0], risk, mine)
    ensures mine <= DoneWith(ready[w], items[0], items, risk)
  {
    CandidateAt(items, ready, w);
    PackIsDone(Candidates(items, ready)[w].parcels, ready[w], items, items[0], risk);
    OnlyTimeCounts(items, ready, x, risk, w, mine, DoneWith(ready[w], items[0], items, risk));
  }

  lemma PackIsDone(ps: seq<Parcel>, w: Worker, items: seq<Request>, q: Request, risk: real)
    requires ps == [Parcel(w, items)] && items != []
    ensures IsLatest(ps, q, risk, DoneWith(w, q, items, risk))
  {
    assert Serves(ps, ps[0]);
  }
}
